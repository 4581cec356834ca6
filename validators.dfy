/** The resource schemas of the current API generation. Each resource validator is the base
    validator with the resource's keys and flags filled in by its constructor; here every
    constructor is a factory that builds the base object and sets those fields, and the
    schema it leaves behind is stated as a value so that lemmas can speak about it. */
module Validators {
  import opened Common
  import opened Json
  import opened Settings
  import opened Validation

  function InternalUsersSchema(m: Method): Schema
  {
    if m == POST then
      Schema(map["hash" := STRING, "roles" := ARRAY, "username" := STRING], {}, {}, true, true)
    else
      Schema(map["hash" := STRING, "password" := STRING, "roles" := ARRAY, "username" := STRING],
             {}, {"hash", "password"}, true, true)
  }

  const RolesMappingKeys: set<string> := {"backendroles", "hosts", "users"}

  function RolesMappingSchema(): Schema
  {
    Schema(map["backendroles" := ARRAY, "hosts" := ARRAY, "users" := ARRAY], {}, RolesMappingKeys, true, true)
  }

  function RolesSchema(): Schema
  {
    Schema(map["indices" := OBJECT, "cluster" := ARRAY], {}, {"indices", "cluster"}, true, true)
  }

  function ActionGroupSchema(): Schema
  {
    Schema(map["permissions" := ARRAY], {}, {}, true, true)
  }

  function LicenseSchema(): Schema
  {
    Schema(map["sg_license" := STRING], {}, {}, true, true)
  }

  method NewInternalUsersValidator(m: Method, content: Body) returns (v: ConfigurationValidator)
    ensures fresh(v) && v.requestMethod == m && v.content == content
    ensures v.Pristine() && v.Rules() == InternalUsersSchema(m)
  {
    v := new ConfigurationValidator(m, content);
    v.payloadMandatory := true;
    if m == POST {
      v.allowedKeys := v.allowedKeys["hash" := STRING];
      v.allowedKeys := v.allowedKeys["roles" := ARRAY];
      v.allowedKeys := v.allowedKeys["username" := STRING];
    } else {
      v.allowedKeys := v.allowedKeys["hash" := STRING];
      v.allowedKeys := v.allowedKeys["password" := STRING];
      v.allowedKeys := v.allowedKeys["roles" := ARRAY];
      v.allowedKeys := v.allowedKeys["username" := STRING];
      v.mandatoryOrKeys := v.mandatoryOrKeys + {"hash"};
      v.mandatoryOrKeys := v.mandatoryOrKeys + {"password"};
    }
  }

  method NewRolesMappingValidator(m: Method, content: Body) returns (v: ConfigurationValidator)
    ensures fresh(v) && v.requestMethod == m && v.content == content
    ensures v.Pristine() && v.Rules() == RolesMappingSchema()
  {
    v := new ConfigurationValidator(m, content);
    v.payloadMandatory := true;
    v.allowedKeys := v.allowedKeys["backendroles" := ARRAY]["hosts" := ARRAY]["users" := ARRAY];
    v.mandatoryOrKeys := v.mandatoryOrKeys + {"backendroles", "hosts", "users"};
  }

  method NewRolesValidator(m: Method, content: Body) returns (v: ConfigurationValidator)
    ensures fresh(v) && v.requestMethod == m && v.content == content
    ensures v.Pristine() && v.Rules() == RolesSchema()
  {
    v := new ConfigurationValidator(m, content);
    v.payloadMandatory := true;
    v.allowedKeys := v.allowedKeys["indices" := OBJECT]["cluster" := ARRAY];
    v.mandatoryOrKeys := v.mandatoryOrKeys + {"indices", "cluster"};
  }

  method NewActionGroupValidator(m: Method, content: Body) returns (v: ConfigurationValidator)
    ensures fresh(v) && v.requestMethod == m && v.content == content
    ensures v.Pristine() && v.Rules() == ActionGroupSchema()
  {
    v := new ConfigurationValidator(m, content);
    v.payloadMandatory := true;
    v.allowedKeys := v.allowedKeys["permissions" := ARRAY];
  }

  method NewLicenseValidator(m: Method, content: Body) returns (v: ConfigurationValidator)
    ensures fresh(v) && v.requestMethod == m && v.content == content
    ensures v.Pristine() && v.Rules() == LicenseSchema()
  {
    v := new ConfigurationValidator(m, content);
    v.payloadMandatory := true;
    v.allowedKeys := v.allowedKeys["sg_license" := STRING];
  }

  // ---------------------------------------------------------------------------------------
  // Helpers for bodies with one or two top-level keys

  lemma FirstSegmentUndotted(k: string)
    requires '.' !in k
    ensures FirstSegment(k) == k
  {
    if k != [] {
      FirstSegmentUndotted(k[1..]);
    }
  }

  lemma NamesOfOne(k: string, x: string)
    requires '.' !in k
    ensures Names(map[k := x]) == {k}
  {
    FirstSegmentUndotted(k);
  }

  lemma NamesOfTwo(k1: string, x1: string, k2: string, x2: string)
    requires '.' !in k1 && '.' !in k2
    ensures Names(map[k1 := x1, k2 := x2]) == {k1, k2}
  {
    FirstSegmentUndotted(k1);
    FirstSegmentUndotted(k2);
  }

  /** A scalar, or an array of scalars: a value with no field names inside. */
  predicate Shallow(v: Json)
  {
    v.JString? || v.JOther? || (v.JArray? && forall i :: 0 <= i < |v.items| ==> v.items[i].JString? || v.items[i].JOther?)
  }

  lemma {:induction false} ShallowItems(allowed: map<string, DataType>, items: seq<Json>)
    requires forall i :: 0 <= i < |items| ==> items[i].JString? || items[i].JOther?
    ensures WrongKeysItems(allowed, items) == {}
    decreases |items|
  {
    if items != [] {
      ShallowItems(allowed, items[1..]);
    }
  }

  lemma ShallowHasNoWrongKeys(allowed: map<string, DataType>, v: Json)
    requires Shallow(v)
    ensures WrongKeys(allowed, v) == {}
  {
    if v.JArray? {
      ShallowItems(allowed, v.items);
    }
  }

  lemma WrongKeysOfOne(allowed: map<string, DataType>, a: Member)
    requires Shallow(a.value)
    ensures WrongKeys(allowed, JObject([a])) == FieldWrong(allowed, a)
  {
    ShallowHasNoWrongKeys(allowed, a.value);
    assert [a][1..] == [];
    assert WrongKeysMembers(allowed, [a]) == FieldWrong(allowed, a) + WrongKeys(allowed, a.value) + WrongKeysMembers(allowed, []);
  }

  lemma WrongKeysOfTwo(allowed: map<string, DataType>, a: Member, b: Member)
    requires Shallow(a.value) && Shallow(b.value)
    ensures WrongKeys(allowed, JObject([a, b])) == FieldWrong(allowed, a) + FieldWrong(allowed, b)
  {
    ShallowHasNoWrongKeys(allowed, a.value);
    ShallowHasNoWrongKeys(allowed, b.value);
    assert [a, b][1..] == [b];
    assert [b][1..] == [];
    assert WrongKeysMembers(allowed, [b]) == FieldWrong(allowed, b) + WrongKeys(allowed, b.value) + WrongKeysMembers(allowed, []);
    assert WrongKeysMembers(allowed, [a, b]) == FieldWrong(allowed, a) + WrongKeys(allowed, a.value) + WrongKeysMembers(allowed, [b]);
  }

  lemma TypeMessagesOfOne(allowed: map<string, DataType>, k: string)
    requires k in allowed
    ensures TypeMessages(allowed, {k}) == map[k := allowed[k].Expected()]
  {
  }

  lemma TypeMessagesOfTwo(allowed: map<string, DataType>, k1: string, k2: string)
    requires k1 in allowed && k2 in allowed
    ensures TypeMessages(allowed, {k1, k2}) == map[k1 := allowed[k1].Expected(), k2 := allowed[k2].Expected()]
  {
  }

  /** A PUT whose body is one undotted key with a flat value of the wrong shape. */
  lemma OneMemberWrongDatatype(schema: Schema, k: string, x: string, value: Json, body: Body)
    requires '.' !in k && k in schema.allowedKeys && schema.payloadAllowed
    requires Shallow(value) && !HasShape(schema.allowedKeys[k], value)
    requires body == Document(map[k := x], JObject([Member(k, value)]))
    ensures Validate(schema, PUT, body).errorType == WRONG_DATATYPE
    ensures Validate(schema, PUT, body).wrongDatatypes == map[k := schema.allowedKeys[k].Expected()]
  {
    NamesOfOne(k, x);
    WrongKeysOfOne(schema.allowedKeys, Member(k, value));
    WrongDatatypeVerdict(schema, PUT, body, {k});
    TypeMessagesOfOne(schema.allowedKeys, k);
  }

  /** A PUT whose body is one undotted key with a flat value of the right shape: the verdict is
      decided by the key sets alone. */
  lemma OneMemberKeyVerdict(schema: Schema, k: string, x: string, value: Json, body: Body)
    requires '.' !in k && schema.payloadAllowed
    requires Shallow(value) && (k in schema.allowedKeys ==> HasShape(schema.allowedKeys[k], value))
    requires body == Document(map[k := x], JObject([Member(k, value)]))
    ensures var v := Validate(schema, PUT, body);
            v.invalidKeys == {k} - schema.allowedKeys.Keys &&
            v.missingMandatoryKeys == schema.mandatoryKeys - {k} &&
            v.missingMandatoryOrKeys == (if k in schema.mandatoryOrKeys then {} else schema.mandatoryOrKeys) &&
            v.wrongDatatypes == map[] &&
            v.errorType == (if v.invalidKeys == v.missingMandatoryKeys == v.missingMandatoryOrKeys == {}
                            then NONE else INVALID_CONFIGURATION)
  {
    NamesOfOne(k, x);
    WrongKeysOfOne(schema.allowedKeys, Member(k, value));
    KeySetsAndPrecedence(schema, PUT, body);
  }

  /** A PUT whose body is two undotted keys with flat values, at least one of the wrong shape. */
  lemma TwoMembersWrongDatatype(schema: Schema, a: Member, x: string, b: Member, y: string, body: Body)
    requires '.' !in a.name && '.' !in b.name && schema.payloadAllowed
    requires Shallow(a.value) && Shallow(b.value)
    requires FieldWrong(schema.allowedKeys, a) + FieldWrong(schema.allowedKeys, b) != {}
    requires body == Document(map[a.name := x, b.name := y], JObject([a, b]))
    ensures Validate(schema, PUT, body).errorType == WRONG_DATATYPE
    ensures Validate(schema, PUT, body).wrongDatatypes
            == TypeMessages(schema.allowedKeys, FieldWrong(schema.allowedKeys, a) + FieldWrong(schema.allowedKeys, b))
  {
    NamesOfTwo(a.name, x, b.name, y);
    WrongKeysOfTwo(schema.allowedKeys, a, b);
    WrongDatatypeVerdict(schema, PUT, body, FieldWrong(schema.allowedKeys, a) + FieldWrong(schema.allowedKeys, b));
  }

  // ---------------------------------------------------------------------------------------
  // Internal users

  /** The user payload is mandatory for every method: a body without keys fails. */
  lemma {:induction false} UserPayloadMandatory(m: Method, body: Body)
    requires m !in {DELETE, GET, POST} && !body.Unparseable?
    requires Names(ToSettingsBuilder(body).value) == {}
    ensures Validate(InternalUsersSchema(m), m, body).errorType == PAYLOAD_MANDATORY
  {
  }

  /** The POST schema is never consulted: a POST passes whatever its body. */
  lemma {:induction false} UserPostSchemaUnused(body: Body)
    ensures Validate(InternalUsersSchema(POST), POST, body).valid
    ensures Validate(InternalUsersSchema(POST), POST, body).settings.None?
  {
  }

  /** A user body for a PUT that names neither a hash nor a password fails, with both in the
      missing one-of set; barring a datatype error it is an invalid configuration. */
  lemma {:induction false} UserPutNeedsHashOrPassword(body: Body)
    requires body.Document? && Names(body.settings) != {}
    requires "hash" !in Names(body.settings) && "password" !in Names(body.settings)
    ensures var v := Validate(InternalUsersSchema(PUT), PUT, body);
            !v.valid && v.missingMandatoryOrKeys == {"hash", "password"} &&
            (WrongKeys(InternalUsersSchema(PUT).allowedKeys, body.tree) == {} ==> v.errorType == INVALID_CONFIGURATION)
  {
  }

  /** A password with a string and roles with a string: only the roles are reported, as
      "Array expected". */
  lemma {:induction false} UserWrongRolesDatatype(password: string, roles: string, body: Body)
    requires body == Document(map["password" := password, "roles" := roles],
                              JObject([Member("password", JString(password)), Member("roles", JString(roles))]))
    ensures var v := Validate(InternalUsersSchema(PUT), PUT, body);
            v.errorType == WRONG_DATATYPE && v.wrongDatatypes == map["roles" := "Array expected"]
  {
    var schema := InternalUsersSchema(PUT);
    var a, b := Member("password", JString(password)), Member("roles", JString(roles));
    assert FieldWrong(schema.allowedKeys, a) == {} && FieldWrong(schema.allowedKeys, b) == {"roles"};
    TwoMembersWrongDatatype(schema, a, password, b, roles, body);
    TypeMessagesOfOne(schema.allowedKeys, "roles");
  }

  /** A password given as an array next to proper roles: only the password is reported, as
      "String expected", and nothing for the roles. */
  lemma {:induction false} UserWrongPasswordDatatype(password: string, role: string, body: Body)
    requires body == Document(map["password" := password, "roles" := role],
                              JObject([Member("password", JArray([JString(password)])),
                                       Member("roles", JArray([JString(role)]))]))
    ensures var v := Validate(InternalUsersSchema(PUT), PUT, body);
            v.errorType == WRONG_DATATYPE && v.wrongDatatypes == map["password" := "String expected"]
            && "roles" !in v.wrongDatatypes
  {
    var schema := InternalUsersSchema(PUT);
    var a, b := Member("password", JArray([JString(password)])), Member("roles", JArray([JString(role)]));
    assert FieldWrong(schema.allowedKeys, a) == {"password"} && FieldWrong(schema.allowedKeys, b) == {};
    TwoMembersWrongDatatype(schema, a, password, b, role, body);
    TypeMessagesOfOne(schema.allowedKeys, "password");
  }

  // ---------------------------------------------------------------------------------------
  // Roles mapping

  /** Against the roles-mapping schema: a body without keys needs a payload, the invalid keys
      are exactly the names outside backendroles, hosts and users, and a body naming none of
      the three misses the whole group. */
  lemma {:induction false} RolesMappingKeyChecks(m: Method, body: Body)
    requires m !in {DELETE, GET, POST} && body.Document?
    ensures var v := Validate(RolesMappingSchema(), m, body);
            var requested := Names(body.settings);
            (requested == {} ==> v.errorType == PAYLOAD_MANDATORY) &&
            (requested != {} ==>
               v.invalidKeys == requested - RolesMappingKeys &&
               v.missingMandatoryKeys == {} &&
               v.missingMandatoryOrKeys == (if requested !! RolesMappingKeys then RolesMappingKeys else {}))
  {
  }

  /** A single backendroles value given as a string reports only that key, as "Array expected". */
  lemma {:induction false} RolesMappingSingleWrongDatatype(value: string, body: Body)
    requires body == Document(map["backendroles" := value], JObject([Member("backendroles", JString(value))]))
    ensures var v := Validate(RolesMappingSchema(), PUT, body);
            v.errorType == WRONG_DATATYPE && v.wrongDatatypes == map["backendroles" := "Array expected"]
  {
    OneMemberWrongDatatype(RolesMappingSchema(), "backendroles", value, JString(value), body);
  }

  // ---------------------------------------------------------------------------------------
  // Roles

  /** Against the roles schema only indices and cluster are allowed, at least one of them is
      required, and an empty body needs a payload. */
  lemma {:induction false} RolesKeyChecks(m: Method, body: Body)
    requires m !in {DELETE, GET, POST} && body.Document?
    ensures var v := Validate(RolesSchema(), m, body);
            var requested := Names(body.settings);
            (requested == {} ==> v.errorType == PAYLOAD_MANDATORY) &&
            (requested != {} ==>
               v.invalidKeys == requested - {"indices", "cluster"} &&
               v.missingMandatoryOrKeys == (if requested !! {"indices", "cluster"} then {"indices", "cluster"} else {}))
  {
  }

  /** indices must be an object and cluster an array. */
  lemma {:induction false} RolesWrongDatatypes(index: string, action: string, body: Body)
    requires body == Document(map["indices" := index, "cluster" := action],
                              JObject([Member("indices", JArray([JString(index)])), Member("cluster", JString(action))]))
    ensures var v := Validate(RolesSchema(), PUT, body);
            v.errorType == WRONG_DATATYPE
            && v.wrongDatatypes == map["indices" := "Object expected", "cluster" := "Array expected"]
  {
    var schema := RolesSchema();
    var a, b := Member("indices", JArray([JString(index)])), Member("cluster", JString(action));
    assert FieldWrong(schema.allowedKeys, a) == {"indices"} && FieldWrong(schema.allowedKeys, b) == {"cluster"};
    TwoMembersWrongDatatype(schema, a, index, b, action, body);
    TypeMessagesOfTwo(schema.allowedKeys, "indices", "cluster");
  }

  // ---------------------------------------------------------------------------------------
  // Action groups and licenses

  /** Against the action-group schema a body naming only permissions passes the key checks,
      any other name is invalid, and an unparseable body is reported as such. */
  lemma {:induction false} ActionGroupKeyChecks(m: Method, body: Body)
    requires m !in {DELETE, GET, POST}
    ensures var v := Validate(ActionGroupSchema(), m, body);
            (body.Unparseable? ==> v.errorType == BODY_NOT_PARSEABLE) &&
            (body.Document? && Names(body.settings) != {} ==>
               v.invalidKeys == Names(body.settings) - {"permissions"} &&
               v.missingMandatoryKeys == {} && v.missingMandatoryOrKeys == {}) &&
            ((body.Document? && Names(body.settings) == {"permissions"}
              && WrongKeys(ActionGroupSchema().allowedKeys, body.tree) == {}) ==> v.valid)
  {
  }

  /** A license body holding just the license string passes. */
  lemma {:induction false} LicenseStringPasses(license: string, body: Body)
    requires body == Document(map["sg_license" := license], JObject([Member("sg_license", JString(license))]))
    ensures Validate(LicenseSchema(), PUT, body).valid
  {
    OneMemberKeyVerdict(LicenseSchema(), "sg_license", license, JString(license), body);
  }

  /** A license given as anything but a string is reported as "String expected". */
  lemma {:induction false} LicenseMustBeString(license: string, body: Body)
    requires body == Document(map["sg_license" := license], JObject([Member("sg_license", JArray([JString(license)]))]))
    ensures var v := Validate(LicenseSchema(), PUT, body);
            v.errorType == WRONG_DATATYPE && v.wrongDatatypes == map["sg_license" := "String expected"]
  {
    OneMemberWrongDatatype(LicenseSchema(), "sg_license", license, JArray([JString(license)]), body);
  }

  /** The license schema never clears payloadAllowed, so no request is refused for carrying a body. */
  lemma {:induction false} LicensePayloadAlwaysAllowed(m: Method, body: Body)
    ensures Validate(LicenseSchema(), m, body).errorType != PAYLOAD_NOT_ALLOWED
  {
  }

  // ---------------------------------------------------------------------------------------
  // The one-of entry of the error document

  /** As the source builds it, the error document of a user PUT naming neither hash nor
      password has no specify_one_of entry, although the missing one-of group is what made it
      fail; the corrected document lists the group. */
  lemma {:induction false} SpecifyOneOfAsWrittenIsEmpty(roles: string, body: Body)
    requires body == Document(map["roles" := roles], JObject([Member("roles", JArray([JString(roles)]))]))
    ensures var v := Validate(InternalUsersSchema(PUT), PUT, body);
            var asWritten := ReportAsWritten(v.errorType, v.invalidKeys, v.missingMandatoryKeys,
                                             v.missingMandatoryOrKeys, v.wrongDatatypes);
            var corrected := Report(v.errorType, v.invalidKeys, v.missingMandatoryKeys,
                                    v.missingMandatoryOrKeys, v.wrongDatatypes);
            v.errorType == INVALID_CONFIGURATION &&
            v.missingMandatoryOrKeys == {"hash", "password"} &&
            asWritten.Some? && asWritten.value.keyLists == map[] &&
            corrected.Some? && corrected.value.keyLists == map[MISSING_MANDATORY_OR_KEYS_KEY := {"hash", "password"}]
  {
    OneMemberKeyVerdict(InternalUsersSchema(PUT), "roles", roles, JArray([JString(roles)]), body);
    OneOfEntry({}, {}, {"hash", "password"});
  }
}
