/** The request path of the current generation's action base: the certificate gate, the
    check that the configuration index exists, the validation of the body, the dispatch on
    the request method to the action's handler, and the reply once the cluster has reloaded
    what the handler changed. */
module RestApi {
  import opened Common
  import opened Settings
  import opened Json
  import opened Responses
  import opened Validation
  import opened Validators
  import opened ApiAction
  import opened ConfigUpdate
  import opened Privileges
  import UserApi
  import InternalUsersApi
  import ActionGroupsApi
  import GetConfigurationApi

  /** The actions of this generation that the model covers. */
  datatype Action =
    | UserAction
    | InternalUsersAction
    | ActionGroupsAction
    | GetConfigurationAction(configNames: seq<string>)

  /** The resource name used in the action's messages. */
  function ResourceName(a: Action): string
  {
    match a
    case UserAction => "user"
    case InternalUsersAction => "user"
    case ActionGroupsAction => ActionGroupsApi.ACTION_GROUP
    case GetConfigurationAction(_) => ""
  }

  /** The configuration a request works on: the action's own, or the one the configuration
      GET names. */
  function ConfigName(a: Action, name: string): string
  {
    match a
    case UserAction => UserApi.INTERNAL_USERS
    case InternalUsersAction => UserApi.INTERNAL_USERS
    case ActionGroupsAction => ActionGroupsApi.ACTION_GROUPS
    case GetConfigurationAction(_) => name
  }

  /** The schema of the action's validator. */
  function SchemaOf(a: Action, m: Method): Schema
  {
    match a
    case UserAction => InternalUsersSchema(m)
    case InternalUsersAction => InternalUsersSchema(m)
    case ActionGroupsAction => ActionGroupSchema()
    case GetConfigurationAction(_) => EmptySchema
  }

  /** `getValidator` of each action: a fresh validator for the request. */
  method GetValidator(a: Action, m: Method, content: Body) returns (v: ConfigurationValidator)
    ensures fresh(v) && v.requestMethod == m && v.content == content
    ensures v.Pristine() && v.Rules() == SchemaOf(a, m)
  {
    match a
    case UserAction => v := NewInternalUsersValidator(m, content);
    case InternalUsersAction => v := NewInternalUsersValidator(m, content);
    case ActionGroupsAction => v := NewActionGroupValidator(m, content);
    case GetConfigurationAction(_) => v := new ConfigurationValidator(m, content);
  }

  /** The validated settings handed to the handler; a method that carries no body hands
      none, which the handlers of those methods never read. */
  function Payload(v: Verdict): map<string, string>
  {
    if v.settings.Some? then v.settings.value else map[]
  }

  /** The action groups payload once "permissions" has left its keys: the keys are exactly
      the payload's with the pattern removed, each carrying a value of a payload key that
      renames to it. */
  predicate RenamedPayload(payload: map<string, string>, renamed: map<string, string>)
  {
    renamed.Keys == KeysWithout(payload, ActionGroupsApi.PERMISSIONS)
    && RenamedFrom(renamed, payload, ActionGroupsApi.PERMISSIONS)
  }

  /** The handler's decision for a validated request. `renamed` is the action groups
      payload once "permissions" has left its keys. */
  function Dispatch(a: Action, m: Method, name: string, payload: map<string, string>, doc: map<string, string>,
                    hash: string -> string, renamed: map<string, string>): (d: Decision)
    requires a.GetConfigurationAction? ==> m == GET
    ensures m !in {DELETE, POST, PUT, GET} ==> d == Answer(Thrown(m.Name() + " not supported"))
    ensures d.Write? ==> m in {DELETE, PUT}
  {
    match m
    case DELETE => DeleteDecision(ResourceName(a), ConfigName(a, name), name, doc)
    case POST => Answer(NotImplemented(POST))
    case PUT =>
      (match a
       case UserAction => UserApi.PutDecision(name, doc, payload, hash)
       case InternalUsersAction => InternalUsersApi.PutDecision(name, doc, UserApi.WithHashedPassword(payload, hash))
       case ActionGroupsAction => ActionGroupsApi.PutDecision(name, doc, renamed))
    case GET =>
      (match a
       case GetConfigurationAction(configNames) => Answer(GetConfigurationApi.GetOutcome(configNames, name, doc))
       case _ => Answer(GetOutcome(ResourceName(a), name, doc)))
    case _ => Answer(Thrown(m.Name() + " not supported"))
  }

  /** The 400 that answers a body the validator refuses, carrying the validator's report. */
  function Rejection(v: Verdict): Outcome
  {
    Returned([], RestResponse(BAD_REQUEST, Errors(Report(v.errorType, v.invalidKeys, v.missingMandatoryKeys,
                                                         v.missingMandatoryOrKeys, v.wrongDatatypes))))
  }

  /** `handleApiRequest`, given the verdict of the action's validator on the request: an
      index that does not exist is a 500, a refused body is a 400 carrying the validator's
      report, and anything else is the handler's decision. */
  function ApiDecision(a: Action, initialized: bool, m: Method, name: string, v: Verdict,
                       doc: map<string, string>, hash: string -> string, renamed: map<string, string>): (d: Decision)
    requires a.GetConfigurationAction? ==> m == GET
    ensures !initialized ==> d == Answer(InternalErrorResponse(SG_NOT_INITIALIZED.Message()))
    ensures initialized && !v.valid ==> d == Answer(Rejection(v))
    ensures initialized && v.valid ==> d == Dispatch(a, m, name, Payload(v), doc, hash, renamed)
    ensures d.Write? ==> initialized && v.valid && m in {DELETE, PUT}
  {
    if !initialized then Answer(InternalErrorResponse(SG_NOT_INITIALIZED.Message()))
    else if !v.valid then Answer(Rejection(v))
    else Dispatch(a, m, name, Payload(v), doc, hash, renamed)
  }

  /** A PUT asks for a reload of the configuration it wrote, and only when it writes. */
  lemma PutReloadsWhatItWrites(a: Action, name: string, payload: map<string, string>, doc: map<string, string>,
                               hash: string -> string, renamed: map<string, string>)
    requires !a.GetConfigurationAction?
    ensures var d := Dispatch(a, PUT, name, payload, doc, hash, renamed);
            (d.Answer? ==> d.outcome.Thrown? || d.outcome.configs == [])
            && (d.Write? ==> d.outcome.Returned? && d.outcome.configs == [ConfigName(a, name)]
                             && d.outcome.response.status in {OK, CREATED})
  {
    var d := Dispatch(a, PUT, name, payload, doc, hash, renamed);
    if a.InternalUsersAction? && d.Write? {
      assert d.outcome == InternalUsersApi.StoredResponse(name, name in Names(doc));
    }
  }

  /** A validated request asks for a reload exactly when its handler writes, and then for
      the configuration it wrote. */
  lemma DispatchReloadsWhatItWrites(a: Action, m: Method, name: string, payload: map<string, string>,
                                    doc: map<string, string>, hash: string -> string, renamed: map<string, string>)
    requires a.GetConfigurationAction? ==> m == GET
    ensures var d := Dispatch(a, m, name, payload, doc, hash, renamed);
            (d.Answer? ==> d.outcome.Thrown? || d.outcome.configs == [])
            && (d.Write? ==> d.outcome.Returned? && d.outcome.configs == [ConfigName(a, name)]
                             && d.outcome.response.status in {OK, CREATED})
  {
    match m {
      case DELETE =>
        GenericDecisionsReloadOnlyOnSuccess(ResourceName(a), ConfigName(a, name), name, doc, payload);
      case PUT =>
        PutReloadsWhatItWrites(a, name, payload, doc, hash, renamed);
      case GET =>
        if !a.GetConfigurationAction? {
          GenericDecisionsReloadOnlyOnSuccess(ResourceName(a), ConfigName(a, name), name, doc, payload);
        }
      case _ =>
    }
  }

  /** Every request asks for a reload exactly when its handler writes, and then for the
      configuration it wrote, answering with a success or a creation. */
  lemma ReloadExactlyWhatIsWritten(a: Action, initialized: bool, m: Method, name: string,
                                   v: Verdict, doc: map<string, string>,
                                   hash: string -> string, renamed: map<string, string>)
    requires a.GetConfigurationAction? ==> m == GET
    ensures var d := ApiDecision(a, initialized, m, name, v, doc, hash, renamed);
            (d.Answer? ==> d.outcome.Thrown? || d.outcome.configs == [])
            && (d.Write? ==> d.outcome.Returned? && d.outcome.configs == [ConfigName(a, name)]
                             && d.outcome.response.status in {OK, CREATED})
  {
    if initialized && v.valid {
      DispatchReloadsWhatItWrites(a, m, name, Payload(v), doc, hash, renamed);
    }
  }

  /** The dispatch on the request method, once the body has been validated. */
  method HandleValidated(a: Action, index: ConfigIndex, m: Method, name: string, payload: map<string, string>,
                         hash: string -> string) returns (o: Outcome, ghost renamed: map<string, string>)
    requires a.GetConfigurationAction? ==> m == GET
    modifies index`documents
    ensures a.ActionGroupsAction? && m == PUT && name != [] ==> RenamedPayload(payload, renamed)
    ensures var d := Dispatch(a, m, name, payload, old(index.Load(ConfigName(a, name))), hash, renamed);
            index.documents == old(index.After(ConfigName(a, name), d))
            && o == Completed(d, index.onSave, ConfigName(a, name))
  {
    renamed := map[];
    match m
    case DELETE =>
      o := HandleDelete(index, ResourceName(a), ConfigName(a, name), name);
    case POST =>
      o := HandlePost();
    case PUT =>
      match a {
        case UserAction =>
          o := UserApi.HandlePut(index, name, payload, hash);
        case InternalUsersAction =>
          o := InternalUsersApi.HandlePut(index, name, payload, hash);
        case ActionGroupsAction =>
          o, renamed := ActionGroupsApi.HandlePut(index, name, payload);
      }
    case GET =>
      match a {
        case GetConfigurationAction(configNames) =>
          o := GetConfigurationApi.HandleGet(index, configNames, name);
        case _ =>
          o := HandleGet(index, ResourceName(a), ConfigName(a, name), name);
      }
    case _ =>
      o := Thrown(m.Name() + " not supported");
  }

  /** The validator run of `handleApiRequest`: whether the body passes, the validator's
      error report, and the validated settings. */
  method ValidateRequest(a: Action, m: Method, content: Body)
    returns (valid: bool, report: Option<ErrorReport>, payload: map<string, string>)
    ensures var v := Validate(SchemaOf(a, m), m, content);
            valid == v.valid
            && report == Report(v.errorType, v.invalidKeys, v.missingMandatoryKeys, v.missingMandatoryOrKeys, v.wrongDatatypes)
            && payload == Payload(v)
  {
    var validator := GetValidator(a, m, content);
    valid := validator.ValidateSettings();
    report := validator.ErrorsAsXContent();
    payload := if validator.settingsBuilder.Some? then validator.settingsBuilder.value else map[];
  }

  /** `handleApiRequest` of the action base, on the index of configuration documents. */
  method HandleApiRequest(a: Action, index: ConfigIndex, m: Method, name: string, content: Body,
                          hash: string -> string) returns (o: Outcome, ghost renamed: map<string, string>)
    requires a.GetConfigurationAction? ==> m == GET
    modifies index`documents
    ensures index.initialized && a.ActionGroupsAction? && m == PUT && name != [] && Validate(SchemaOf(a, m), m, content).valid ==>
              RenamedPayload(Payload(Validate(SchemaOf(a, m), m, content)), renamed)
    ensures var d := ApiDecision(a, index.initialized, m, name, Validate(SchemaOf(a, m), m, content), old(index.Load(ConfigName(a, name))), hash, renamed);
            index.documents == old(index.After(ConfigName(a, name), d))
            && o == Completed(d, index.onSave, ConfigName(a, name))
  {
    renamed := map[];
    if !index.initialized {
      return InternalErrorResponse(SG_NOT_INITIALIZED.Message()), renamed;
    }
    var valid, report, payload := ValidateRequest(a, m, content);
    if !valid {
      return Returned([], RestResponse(BAD_REQUEST, Errors(report))), renamed;
    }
    o, renamed := HandleValidated(a, index, m, name, payload, hash);
  }

  /** The certificate checks `prepareRequest` makes before anything else: a refusal is a
      403 with a plain-text reason, and only an admin certificate passes. */
  function CertificateGate(cert: CertStatus): (r: Option<RestResponse>)
    ensures r.None? <==> cert == Admin
    ensures r.Some? ==> r.value.status == FORBIDDEN && r.value.content.Text?
  {
    match cert
    case NoSslInfo => Some(RestResponse(FORBIDDEN, Text("No ssl info found")))
    case NoCerts => Some(RestResponse(FORBIDDEN, Text("No certificates")))
    case NotAdmin(_) => Some(RestResponse(FORBIDDEN, Text("SG admin permissions required")))
    case Admin => None
  }

  /** `prepareRequest`: the certificate gate, then the request, then the reload the handler
      asked for and the reply. The cluster's answer to the reload, the number of nodes in
      the cluster and the client's certificate are parameters. */
  method PrepareRequest(cert: CertStatus, a: Action, index: ConfigIndex, m: Method, name: string, content: Body,
                        hash: string -> string, nodeCount: nat, cluster: ClusterAnswer)
    returns (r: Reply, ghost renamed: map<string, string>)
    requires a.GetConfigurationAction? ==> m == GET
    modifies index`documents
    ensures cert != Admin ==> r == Sent(CertificateGate(cert).value) && index.documents == old(index.documents)
    ensures cert == Admin && index.initialized && a.ActionGroupsAction? && m == PUT && name != []
            && Validate(SchemaOf(a, m), m, content).valid ==>
              RenamedPayload(Payload(Validate(SchemaOf(a, m), m, content)), renamed)
    ensures cert == Admin ==>
              var d := ApiDecision(a, index.initialized, m, name, Validate(SchemaOf(a, m), m, content), old(index.Load(ConfigName(a, name))), hash, renamed);
              index.documents == old(index.After(ConfigName(a, name), d))
              && r == Deliver(Completed(d, index.onSave, ConfigName(a, name)), nodeCount, cluster)
  {
    renamed := map[];
    var refusal := CertificateGate(cert);
    if refusal.Some? {
      return Sent(refusal.value), renamed;
    }
    var response;
    response, renamed := HandleApiRequest(a, index, m, name, content, hash);
    if response.Thrown? {
      return Sent(RestResponse(INTERNAL_SERVER_ERROR, Text(response.message))), renamed;
    }
    if response.configs == [] {
      return Sent(response.response), renamed;
    }
    match cluster
    case Answered(nodes) =>
      var success := CheckConfigUpdateResponse(nodeCount, nodes);
      if !success {
        r := Sent(RestResponse(INTERNAL_SERVER_ERROR, Text("Unable to update " + ListText(response.configs))));
      } else {
        r := Sent(response.response);
      }
    case Failed(e) =>
      r := Sent(RestResponse(INTERNAL_SERVER_ERROR, Text(e)));
    case NoAnswer =>
      r := Escaped("Timeout updating " + ListText(response.configs));
  }

  /** A request that reaches an index that does not exist, or whose body the validator
      refuses, writes nothing and asks for no reload, so its reply is the same whatever the
      cluster does: a 500 or a 400. */
  lemma RefusedRequestsChangeNothing(a: Action, initialized: bool, m: Method, name: string, v: Verdict,
                                     doc: map<string, string>, hash: string -> string, renamed: map<string, string>,
                                     nodeCount: nat, c1: ClusterAnswer, c2: ClusterAnswer)
    requires a.GetConfigurationAction? ==> m == GET
    requires !initialized || !v.valid
    ensures var d := ApiDecision(a, initialized, m, name, v, doc, hash, renamed);
            d.Answer? && Deliver(d.outcome, nodeCount, c1) == Deliver(d.outcome, nodeCount, c2)
            && Deliver(d.outcome, nodeCount, c1).Sent?
            && Deliver(d.outcome, nodeCount, c1).response.status == (if initialized then BAD_REQUEST else INTERNAL_SERVER_ERROR)
  {
  }
}
