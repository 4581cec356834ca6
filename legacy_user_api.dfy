/** The user action of the earlier API generation: DELETE removes a user's whole entry, and
    POST merges the posted hash into the user's entry, keeping whatever else it held. Both
    answer with an empty body. */
module LegacyUserApi {
  import opened Common
  import opened Settings
  import opened Responses
  import opened ApiAction
  import opened ConfigUpdate
  import opened Privileges
  import opened LegacyValidation
  import opened LegacyApiAction
  import opened Json

  const INTERNAL_USERS := "internalusers"

  /** The 400 a request without a user name gets, as plain text. */
  const NoName := Returned([], RestResponse(BAD_REQUEST, Text("No name given")))

  /** The empty-bodied 200 that asks for the internal users to be reloaded. */
  const Stored := Returned([INTERNAL_USERS], RestResponse(OK, Empty))

  /** `handleDelete`: without a name a 400; a user with entries loses all of them; otherwise
      an empty 404. */
  function DeleteDecision(name: string, doc: map<string, string>): (d: Decision)
    ensures name == [] ==> d == Answer(NoName)
    ensures name != [] && WithPrefix(doc, name + ".") == map[] ==>
              d == Answer(Returned([], RestResponse(NOT_FOUND, Empty)))
    ensures name != [] && WithPrefix(doc, name + ".") != map[] ==>
              d == Write(WithoutPrefix(doc, name + "."), Stored)
  {
    if name == [] then Answer(NoName)
    else if WithPrefix(doc, name + ".") != map[] then Write(WithoutPrefix(doc, name + "."), Stored)
    else Answer(Returned([], RestResponse(NOT_FOUND, Empty)))
  }

  /** The report of the user validator for posted settings that fail it. */
  function UserReport(settings: map<string, string>): ErrorReport
  {
    LegacyReport(true, Names(settings) - {"hash"}, {"hash"} - Names(settings), {})
  }

  /** `handlePost`: without a name a 400; a body that does not load throws; settings whose
      only name is not "hash" get the validator's report; otherwise the posted entries are
      put under "name." over the stored document. */
  function PostDecision(name: string, doc: map<string, string>, content: Body): (d: Decision)
    ensures name == [] ==> d == Answer(NoName)
    ensures name != [] && ToSettings(content).Refused? ==> d == Answer(Thrown(ToSettings(content).message))
    ensures name != [] && content.Document? && Names(content.settings) != {"hash"} ==>
              d == Answer(Returned([], RestResponse(BAD_REQUEST, Errors(Some(UserReport(content.settings))))))
    ensures d.Write? ==> content.Document? && Names(content.settings) == {"hash"}
                         && d == Write(doc + Prepend(content.settings, name + "."), Stored)
  {
    if name == [] then Answer(NoName)
    else match ToSettings(content)
      case Refused(message) => Answer(Thrown(message))
      case Loaded(additionalSettings) =>
        if Names(additionalSettings) != {"hash"} then
          Answer(Returned([], RestResponse(BAD_REQUEST, Errors(Some(UserReport(additionalSettings))))))
        else Write(doc + Prepend(additionalSettings, name + "."), Stored)
  }

  /** A POST merges rather than replaces: every stored entry that is not overwritten stays,
      the user's other entries included, and each posted entry lands under "name.". */
  lemma {:induction false} PostMerges(name: string, doc: map<string, string>, content: Body)
    requires PostDecision(name, doc, content).Write?
    ensures var d := PostDecision(name, doc, content);
            (forall k :: k in doc && !(name + "." <= k) ==> k in d.document && d.document[k] == doc[k])
            && (forall k :: k in doc && k !in Prepend(content.settings, name + ".") ==> k in d.document && d.document[k] == doc[k])
            && (forall x :: x in content.settings ==> name + "." + x in d.document && d.document[name + "." + x] == content.settings[x])
  {
    var p := name + ".";
    forall x | x in content.settings ensures name + "." + x in PostDecision(name, doc, content).document {
      assert name + "." + x == p + x;
    }
    forall x | x in content.settings
      ensures PostDecision(name, doc, content).document[name + "." + x] == content.settings[x]
    {
      assert name + "." + x == p + x;
    }
  }

  /** Unlike the later PUT, a POST of a new hash keeps a user's roles. */
  lemma PostKeepsRoles(name: string, doc: map<string, string>, h: string)
    requires name != [] && name + ".roles.0" in doc
    ensures var d := PostDecision(name, doc, Document(map["hash" := h], JOther));
            d.Write? && name + ".roles.0" in d.document && name + ".hash" in d.document
            && d.document[name + ".roles.0"] == doc[name + ".roles.0"] && d.document[name + ".hash"] == h
  {
    var settings := map["hash" := h];
    var p := name + ".";
    assert FirstSegment("hash") == "hash";
    assert Names(settings) == {"hash"};
    assert p + "hash" == name + ".hash";
    assert (name + ".roles.0")[|p|..] == "roles.0";
  }

  /** A delete that removed something leaves nothing to remove: a second delete of the
      same user is a 404. */
  lemma DeleteThenNotFound(name: string, doc: map<string, string>)
    requires DeleteDecision(name, doc).Write?
    ensures DeleteDecision(name, DeleteDecision(name, doc).document) == Answer(Returned([], RestResponse(NOT_FOUND, Empty)))
  {
    assert WithPrefix(WithoutPrefix(doc, name + "."), name + ".") == map[];
  }

  /** `handleDelete` of the user action, on the index of configuration documents. */
  method HandleDelete(index: ConfigIndex, name: string) returns (o: Outcome)
    modifies index`documents
    ensures var d := DeleteDecision(name, old(index.Load(INTERNAL_USERS)));
            index.documents == old(index.After(INTERNAL_USERS, d)) && o == Completed(d, index.onSave, INTERNAL_USERS)
  {
    if name == [] {
      return NoName;
    }
    var internaluser := new Builder(index.Load(INTERNAL_USERS));
    var removed := LegacyApiAction.RemoveKeysStartingWith(internaluser, name + ".");
    if removed {
      var error := index.Save(INTERNAL_USERS, internaluser.settings);
      if error.Some? {
        return Thrown(error.value);
      }
      return Stored;
    }
    return Returned([], RestResponse(NOT_FOUND, Empty));
  }

  /** `handlePost` of the user action. The user validator is built without arguments in
      the source, although the base validator of this generation only has a constructor
      taking the request's method and body; it is given those here, and its check over the
      loaded settings reads neither. */
  method HandlePost(index: ConfigIndex, name: string, content: Body) returns (o: Outcome)
    modifies index`documents
    ensures var d := PostDecision(name, old(index.Load(INTERNAL_USERS)), content);
            index.documents == old(index.After(INTERNAL_USERS, d)) && o == Completed(d, index.onSave, INTERNAL_USERS)
  {
    if name == [] {
      return NoName;
    }
    var loaded := ToSettings(content);
    if loaded.Refused? {
      return Thrown(loaded.message);
    }
    var additionalSettings := loaded.settings;
    var validator := new ConfigurationValidator(POST, content);
    var valid := validator.ValidateUserSettings(additionalSettings);
    if !valid {
      assert validator.ErrorsAsXContent() == UserReport(additionalSettings);
      return Returned([], RestResponse(BAD_REQUEST, Errors(Some(validator.ErrorsAsXContent()))));
    }
    var internaluser := new Builder(index.Load(INTERNAL_USERS));
    var entries := PrependValueToEachKey(additionalSettings, name + ".");
    internaluser.PutAll(entries);
    var error := index.Save(INTERNAL_USERS, internaluser.settings);
    if error.Some? {
      return Thrown(error.value);
    }
    return Stored;
  }

  /** `handleApiRequest` of the user action: DELETE and POST, and nothing else. */
  function ApiDecision(m: Method, name: string, doc: map<string, string>, content: Body): (d: Decision)
    ensures m !in {DELETE, POST} ==> d == Answer(Thrown(m.Name() + " not supported"))
    ensures d.Write? ==> d.outcome == Stored
  {
    match m
    case DELETE => DeleteDecision(name, doc)
    case POST => PostDecision(name, doc, content)
    case _ => Answer(Thrown(m.Name() + " not supported"))
  }

  method HandleApiRequest(index: ConfigIndex, m: Method, name: string, content: Body) returns (o: Outcome)
    modifies index`documents
    ensures var d := ApiDecision(m, name, old(index.Load(INTERNAL_USERS)), content);
            index.documents == old(index.After(INTERNAL_USERS, d)) && o == Completed(d, index.onSave, INTERNAL_USERS)
  {
    match m
    case DELETE =>
      o := HandleDelete(index, name);
    case POST =>
      o := HandlePost(index, name, content);
    case _ =>
      o := Thrown(m.Name() + " not supported");
  }

  /** `handleRequest` of the action base for the user action: the certificate checks, the
      request, then the reload the handler asked for and the reply. */
  method HandleRequest(cert: CertStatus, index: ConfigIndex, m: Method, name: string, content: Body,
                       nodeCount: nat, cluster: ClusterAnswer) returns (r: Reply)
    modifies index`documents
    ensures cert != Admin ==> r == Sent(CertificateGate(cert).value) && index.documents == old(index.documents)
    ensures cert == Admin ==>
              var d := ApiDecision(m, name, old(index.Load(INTERNAL_USERS)), content);
              index.documents == old(index.After(INTERNAL_USERS, d))
              && r == Deliver(Completed(d, index.onSave, INTERNAL_USERS), nodeCount, cluster)
  {
    var refusal := CertificateGate(cert);
    if refusal.Some? {
      return Sent(refusal.value);
    }
    var response := HandleApiRequest(index, m, name, content);
    if response.Thrown? {
      return Sent(RestResponse(INTERNAL_SERVER_ERROR, Text(response.message)));
    }
    if response.configs == [] {
      return Sent(response.response);
    }
    match cluster
    case Answered(nodes) =>
      var success := CheckConfigUpdateResponse(nodeCount, nodes);
      if !success {
        r := Sent(RestResponse(INTERNAL_SERVER_ERROR, Text("Unable to update " + ListText(response.configs))));
      } else {
        r := Sent(response.response);
      }
    case Failed(e) =>
      r := Sent(RestResponse(INTERNAL_SERVER_ERROR, Text(e)));
    case NoAnswer =>
      r := Escaped("Timeout updating " + ListText(response.configs));
  }
}
