/** The validators of the earlier API generation. They check key sets only (no datatypes,
    no payload flags), validate every method but DELETE and GET, and remember whether the
    body could be parsed at all. The schemas are plain key sets. */
module LegacyValidation {
  import opened Common
  import opened Settings
  import opened Responses
  import opened Validation

  const INVALID_CONFIGURATION_MESSAGE := "invalid configuration"
  const INVALID_PAYLOAD_MESSAGE := "Coud not parse content of request."

  datatype LegacySchema = LegacySchema(allowedKeys: set<string>, mandatoryKeys: set<string>, mandatoryOrKeys: set<string>)

  /** The fields a legacy validator holds once validation has run, and the value it returned. */
  datatype LegacyVerdict = LegacyVerdict(
    valid: bool,
    contentValid: bool,
    invalidKeys: set<string>,
    missingMandatoryKeys: set<string>,
    missingMandatoryOrKeys: set<string>,
    settings: Option<map<string, string>>)

  /** The key sets of one legacy run over a parsed document. */
  function LegacyKeyCheck(schema: LegacySchema, settings: map<string, string>): (v: LegacyVerdict)
    ensures v.contentValid && v.settings == Some(settings)
    ensures v.valid <==> v.invalidKeys == {} && v.missingMandatoryKeys == {} && v.missingMandatoryOrKeys == {}
  {
    var requested := Names(settings);
    var missingOr := if requested !! schema.mandatoryOrKeys then schema.mandatoryOrKeys else {};
    var missing := schema.mandatoryKeys - requested;
    var invalid := requested - schema.allowedKeys;
    LegacyVerdict(missing == {} && invalid == {} && missingOr == {}, true, invalid, missing, missingOr, Some(settings))
  }

  /** One legacy validation run: DELETE and GET pass untouched, a body the loader rejects
      clears contentValid, and any other body is judged by its key sets. */
  function LegacyValidate(schema: LegacySchema, m: Method, body: Body): (v: LegacyVerdict)
    ensures v.valid ==> v.contentValid
    ensures !v.contentValid <==> m !in {DELETE, GET} && body.Unparseable?
  {
    if m == DELETE || m == GET then LegacyVerdict(true, true, {}, {}, {}, None)
    else match ToSettingsBuilder(body)
      case None => LegacyVerdict(false, false, {}, {}, {}, None)
      case Some(settings) => LegacyKeyCheck(schema, settings)
  }

  /** An independent statement of when a legacy run passes. */
  lemma LegacyValidIff(schema: LegacySchema, m: Method, body: Body)
    ensures LegacyValidate(schema, m, body).valid <==>
            m in {DELETE, GET} ||
            (!body.Unparseable? &&
             var requested := Names(ToSettingsBuilder(body).value);
             requested <= schema.allowedKeys && schema.mandatoryKeys <= requested &&
             (schema.mandatoryOrKeys == {} || !(requested !! schema.mandatoryOrKeys)))
  {
    if m !in {DELETE, GET} && !body.Unparseable? {
      var requested := Names(ToSettingsBuilder(body).value);
      DifferenceEmpty(requested, schema.allowedKeys);
      DifferenceEmpty(schema.mandatoryKeys, requested);
    }
  }

  /** Unlike the current generation, a POST is validated: an unparseable POST body fails. */
  lemma LegacyPostIsValidated(schema: LegacySchema, body: Body)
    requires body.Unparseable?
    ensures !LegacyValidate(schema, POST, body).valid
  {
  }

  /** The legacy error document, which exists even when the run passed: the parse failure
      when the content was invalid, otherwise the "invalid configuration" reason with the key
      lists. As the source builds it, the one-of entry is filled from the missing mandatory
      keys. */
  function LegacyReportAsWritten(contentValid: bool, invalid: set<string>, missing: set<string>,
                                 missingOr: set<string>): (r: ErrorReport)
    ensures !contentValid ==> r.reason == INVALID_PAYLOAD_MESSAGE && r.keyLists == map[]
    ensures contentValid ==> r.reason == INVALID_CONFIGURATION_MESSAGE
    ensures contentValid ==> r.keyLists == KeyLists(invalid, missing, missing)
    ensures r.status == "error" && r.fieldMessages == map[]
  {
    if !contentValid then ErrorReport("error", INVALID_PAYLOAD_MESSAGE, map[], map[])
    else ErrorReport("error", INVALID_CONFIGURATION_MESSAGE, KeyLists(invalid, missing, missing), map[])
  }

  /** The corrected legacy error document: the one-of entry lists the missing one-of keys. */
  function LegacyReport(contentValid: bool, invalid: set<string>, missing: set<string>,
                        missingOr: set<string>): (r: ErrorReport)
    ensures !contentValid ==> r.reason == INVALID_PAYLOAD_MESSAGE && r.keyLists == map[]
    ensures contentValid ==> r.reason == INVALID_CONFIGURATION_MESSAGE
    ensures contentValid ==> (MISSING_MANDATORY_OR_KEYS_KEY in r.keyLists <==> missingOr != {})
    ensures contentValid && missingOr != {} ==> r.keyLists[MISSING_MANDATORY_OR_KEYS_KEY] == missingOr
    ensures r.status == "error" && r.fieldMessages == map[]
  {
    if !contentValid then ErrorReport("error", INVALID_PAYLOAD_MESSAGE, map[], map[])
    else ErrorReport("error", INVALID_CONFIGURATION_MESSAGE, KeyLists(invalid, missing, missingOr), map[])
  }

  /** A legacy run that fails only for its one-of group gets a document with no key list at
      all as the source builds it, and the one-of list once corrected. */
  lemma LegacyOneOfLost(schema: LegacySchema, m: Method, body: Body)
    requires m !in {DELETE, GET} && body.Document?
    requires Names(body.settings) <= schema.allowedKeys && schema.mandatoryKeys <= Names(body.settings)
    requires schema.mandatoryOrKeys != {} && Names(body.settings) !! schema.mandatoryOrKeys
    ensures var v := LegacyValidate(schema, m, body);
            !v.valid &&
            LegacyReportAsWritten(v.contentValid, v.invalidKeys, v.missingMandatoryKeys, v.missingMandatoryOrKeys).keyLists == map[] &&
            LegacyReport(v.contentValid, v.invalidKeys, v.missingMandatoryKeys, v.missingMandatoryOrKeys).keyLists
              == map[MISSING_MANDATORY_OR_KEYS_KEY := schema.mandatoryOrKeys]
  {
    var v := LegacyValidate(schema, m, body);
    DifferenceEmpty(Names(body.settings), schema.allowedKeys);
    DifferenceEmpty(schema.mandatoryKeys, Names(body.settings));
    assert v.invalidKeys == {} && v.missingMandatoryKeys == {};
    OneOfEntry({}, {}, schema.mandatoryOrKeys);
  }

  // ---------------------------------------------------------------------------------------
  // The legacy validator object

  class ConfigurationValidator {
    var allowedKeys: set<string>
    var mandatoryKeys: set<string>
    var mandatoryOrKeys: set<string>
    var missingMandatoryKeys: set<string>
    var invalidKeys: set<string>
    var missingMandatoryOrKeys: set<string>
    var settingsBuilder: Option<map<string, string>>
    var contentValid: bool
    const requestMethod: Method
    const content: Body

    constructor (requestMethod: Method, content: Body)
      ensures this.requestMethod == requestMethod && this.content == content
      ensures Rules() == LegacySchema({}, {}, {})
      ensures Pristine()
    {
      this.requestMethod := requestMethod;
      this.content := content;
      allowedKeys := {};
      mandatoryKeys := {};
      mandatoryOrKeys := {};
      missingMandatoryKeys := {};
      invalidKeys := {};
      missingMandatoryOrKeys := {};
      settingsBuilder := None;
      contentValid := true;
    }

    function Rules(): LegacySchema
      reads this
    {
      LegacySchema(allowedKeys, mandatoryKeys, mandatoryOrKeys)
    }

    predicate Pristine()
      reads this
    {
      missingMandatoryKeys == {} && invalidKeys == {} && missingMandatoryOrKeys == {}
      && settingsBuilder == None && contentValid
    }

    /** No key set holds an error. */
    predicate IsValid()
      reads this
    {
      missingMandatoryKeys == {} && invalidKeys == {} && missingMandatoryOrKeys == {}
    }

    method ValidateSettings() returns (ok: bool)
      requires Pristine()
      modifies this`missingMandatoryKeys, this`invalidKeys, this`missingMandatoryOrKeys,
               this`settingsBuilder, this`contentValid
      ensures Rules() == old(Rules())
      ensures var v := LegacyValidate(Rules(), requestMethod, content);
              ok == v.valid && contentValid == v.contentValid && invalidKeys == v.invalidKeys
              && missingMandatoryKeys == v.missingMandatoryKeys
              && missingMandatoryOrKeys == v.missingMandatoryOrKeys && settingsBuilder == v.settings
    {
      if requestMethod == DELETE || requestMethod == GET {
        return true;
      }
      var parsed := ToSettingsBuilder(content);
      if parsed.None? {
        contentValid := false;
        return false;
      }
      settingsBuilder := parsed;
      var requested := Names(parsed.value);
      if requested !! mandatoryOrKeys {
        missingMandatoryOrKeys := missingMandatoryOrKeys + mandatoryOrKeys;
      }
      missingMandatoryKeys := missingMandatoryKeys + (mandatoryKeys - requested);
      invalidKeys := invalidKeys + (requested - allowedKeys);
      ok := IsValid();
    }

    /** The user validator's own check over already loaded settings: only a hash is allowed
        and the hash is mandatory, so the run passes exactly for a document whose only name
        is "hash" (and no one-of keys were left missing before). */
    method ValidateUserSettings(settings: map<string, string>) returns (ok: bool)
      modifies this`missingMandatoryKeys, this`invalidKeys
      ensures missingMandatoryKeys == {"hash"} - Names(settings)
      ensures invalidKeys == Names(settings) - {"hash"}
      ensures ok == IsValid()
      ensures ok <==> Names(settings) == {"hash"} && missingMandatoryOrKeys == {}
    {
      var requested := Names(settings);
      missingMandatoryKeys := {"hash"} - requested;
      invalidKeys := requested - {"hash"};
      DifferenceEmpty({"hash"}, requested);
      DifferenceEmpty(requested, {"hash"});
      ok := IsValid();
    }

    /** The error document of the current state: an unparseable body's reason, or the
        invalid configuration with one list per non-empty key set. */
    function ErrorsAsXContent(): (r: ErrorReport)
      reads this
      ensures r.status == "error" && r.fieldMessages == map[]
      ensures !contentValid ==> r.reason == INVALID_PAYLOAD_MESSAGE && r.keyLists == map[]
      ensures contentValid ==>
                r.reason == INVALID_CONFIGURATION_MESSAGE
                && (INVALID_KEYS_KEY in r.keyLists <==> invalidKeys != {})
                && (MISSING_MANDATORY_KEYS_KEY in r.keyLists <==> missingMandatoryKeys != {})
                && (MISSING_MANDATORY_OR_KEYS_KEY in r.keyLists <==> missingMandatoryOrKeys != {})
    {
      LegacyReport(contentValid, invalidKeys, missingMandatoryKeys, missingMandatoryOrKeys)
    }
  }

  // ---------------------------------------------------------------------------------------
  // The legacy resource schemas

  const LegacyRolesMappingKeys: set<string> := {"backendroles", "hosts", "users"}

  /** A roles-mapping PUT replaces the whole entry, so all three keys are mandatory; the
      no-argument form mandates nothing. */
  function LegacyRolesMappingSchema(m: Option<Method>): (s: LegacySchema)
    ensures s.allowedKeys == LegacyRolesMappingKeys && s.mandatoryOrKeys == {}
    ensures s.mandatoryKeys == (if m == Some(PUT) then LegacyRolesMappingKeys else {})
  {
    LegacySchema(LegacyRolesMappingKeys, if m == Some(PUT) then LegacyRolesMappingKeys else {}, {})
  }

  /** A roles-mapping PUT passes only with all three keys and nothing else. */
  lemma LegacyRolesMappingPut(body: Body)
    requires body.Document?
    ensures LegacyValidate(LegacyRolesMappingSchema(Some(PUT)), PUT, body).valid
            <==> Names(body.settings) == LegacyRolesMappingKeys
  {
    LegacyValidIff(LegacyRolesMappingSchema(Some(PUT)), PUT, body);
  }

  /** The no-op validator allows no key: any non-exempt request with a named key fails, with
      every name reported as invalid. */
  lemma NoOpRejectsEveryKey(m: Method, body: Body)
    requires m !in {DELETE, GET} && body.Document?
    ensures var v := LegacyValidate(LegacySchema({}, {}, {}), m, body);
            v.invalidKeys == Names(body.settings) && (v.valid <==> body.settings == map[])
  {
    NamesEmpty(body.settings);
  }
}
