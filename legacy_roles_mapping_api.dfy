/** The roles mapping action of the earlier API generation: DELETE removes a mapping's whole
    entry and PUT replaces it, both on the "rolesmapping" configuration, with the deletion
    helper of this generation and the response helpers of the later one. */
module LegacyRolesMappingApi {
  import opened Common
  import opened Settings
  import opened Responses
  import opened ApiAction
  import opened LegacyApiAction

  const ROLES_MAPPING := "rolesmapping"

  /** The 400 a request without a role name gets. */
  const NoRoleName := BadRequestResponse("No rolename specified")

  /** `handleDelete`: without a name a 400; a mapping with entries loses all of them and the
      roles mapping is reloaded; otherwise a 404 naming nothing to reload. */
  function DeleteDecision(name: string, doc: map<string, string>): (d: Decision)
    ensures name == [] ==> d == Answer(NoRoleName)
    ensures name != [] && WithPrefix(doc, name + ".") == map[] ==>
              d == Answer(NotFound("Roles mapping " + name + " not found."))
    ensures name != [] && WithPrefix(doc, name + ".") != map[] ==>
              d == Write(WithoutPrefix(doc, name + "."), SuccessResponse("Roles mapping " + name + " deleted.", [ROLES_MAPPING]))
  {
    if name == [] then Answer(NoRoleName)
    else if WithPrefix(doc, name + ".") != map[] then
      Write(WithoutPrefix(doc, name + "."), SuccessResponse("Roles mapping " + name + " deleted.", [ROLES_MAPPING]))
    else Answer(NotFound("Roles mapping " + name + " not found."))
  }

  /** `handlePut`: without a name a 400; otherwise the mapping's entries are replaced by the
      payload, "replaced." with a 200 when it had entries and "created." with a 201 when
      not, both reloading the roles mapping. */
  function PutDecision(name: string, doc: map<string, string>, payload: map<string, string>): (d: Decision)
    ensures name == [] ==> d == Answer(NoRoleName)
    ensures name != [] ==> d.Write? && d.document == Replaced(doc, name + ".", payload)
    ensures name != [] && WithPrefix(doc, name + ".") != map[] ==>
              d.outcome == SuccessResponse("Roles mapping " + name + " replaced.", [ROLES_MAPPING])
    ensures name != [] && WithPrefix(doc, name + ".") == map[] ==>
              d.outcome == CreatedResponse("Roles mapping " + name + " created.", [ROLES_MAPPING])
  {
    if name == [] then Answer(NoRoleName)
    else
      var existed := WithPrefix(doc, name + ".") != map[];
      Write(Replaced(doc, name + ".", payload),
            if existed then SuccessResponse("Roles mapping " + name + " replaced.", [ROLES_MAPPING])
            else CreatedResponse("Roles mapping " + name + " created.", [ROLES_MAPPING]))
  }

  /** The two generations agree on the documents: whatever the messages, this action writes
      exactly when the generic handlers of the later generation write, and the same document. */
  lemma SameDocumentsAsGeneric(resource: string, name: string, doc: map<string, string>, payload: map<string, string>)
    ensures DeleteDecision(name, doc).Write? == ApiAction.DeleteDecision(resource, ROLES_MAPPING, name, doc).Write?
    ensures DeleteDecision(name, doc).Write? ==>
              DeleteDecision(name, doc).document == ApiAction.DeleteDecision(resource, ROLES_MAPPING, name, doc).document
    ensures PutDecision(name, doc, payload).Write? == ApiAction.PutDecision(resource, ROLES_MAPPING, name, doc, payload).Write?
    ensures PutDecision(name, doc, payload).Write? ==>
              PutDecision(name, doc, payload).document == ApiAction.PutDecision(resource, ROLES_MAPPING, name, doc, payload).document
  {
  }

  /** A PUT followed by a DELETE of the same mapping leaves every other mapping as it was
      and nothing under the deleted one. */
  lemma {:induction false} PutThenDelete(name: string, doc: map<string, string>, payload: map<string, string>)
    requires name != [] && payload != map[]
    ensures var put := PutDecision(name, doc, payload).document;
            var del := DeleteDecision(name, put);
            del.Write? && del.document == WithoutPrefix(doc, name + ".")
  {
    var p := name + ".";
    var put := PutDecision(name, doc, payload).document;
    var x :| x in payload;
    assert p + x in WithPrefix(put, p);
  }

  /** `handleDelete` of the roles mapping action, on the index of configuration documents. */
  method HandleDelete(index: ConfigIndex, name: string) returns (o: Outcome)
    modifies index`documents
    ensures var d := DeleteDecision(name, old(index.Load(ROLES_MAPPING)));
            index.documents == old(index.After(ROLES_MAPPING, d)) && o == Completed(d, index.onSave, ROLES_MAPPING)
  {
    if name == [] {
      return NoRoleName;
    }
    var rolesmapping := new Builder(index.Load(ROLES_MAPPING));
    var modified := LegacyApiAction.RemoveKeysStartingWith(rolesmapping, name + ".");
    if modified {
      var error := index.Save(ROLES_MAPPING, rolesmapping.settings);
      if error.Some? {
        return Thrown(error.value);
      }
      return SuccessResponse("Roles mapping " + name + " deleted.", [ROLES_MAPPING]);
    } else {
      return NotFound("Roles mapping " + name + " not found.");
    }
  }

  /** `handlePut` of the roles mapping action; `payload` is the request's settings as the
      validator built them. */
  method HandlePut(index: ConfigIndex, name: string, payload: map<string, string>) returns (o: Outcome)
    modifies index`documents
    ensures var d := PutDecision(name, old(index.Load(ROLES_MAPPING)), payload);
            index.documents == old(index.After(ROLES_MAPPING, d)) && o == Completed(d, index.onSave, ROLES_MAPPING)
  {
    if name == [] {
      return NoRoleName;
    }
    var rolesmapping := new Builder(index.Load(ROLES_MAPPING));
    var existed := LegacyApiAction.RemoveKeysStartingWith(rolesmapping, name + ".");
    var entries := PrependValueToEachKey(payload, name + ".");
    rolesmapping.PutAll(entries);
    var error := index.Save(ROLES_MAPPING, rolesmapping.settings);
    if error.Some? {
      return Thrown(error.value);
    }
    if existed {
      return SuccessResponse("Roles mapping " + name + " replaced.", [ROLES_MAPPING]);
    } else {
      return CreatedResponse("Roles mapping " + name + " created.", [ROLES_MAPPING]);
    }
  }
}
