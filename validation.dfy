/** The configuration validation engine of the current API generation. A validator is built
    for one request (its method and body) and a resource schema (allowed keys with their
    datatypes, mandatory keys, a one-of group, and whether a body is mandatory or allowed at
    all). Validation computes the invalid, missing and missing-one-of key sets, walks the
    parser tokens of the body looking for values of the wrong datatype, and settles on a
    single error type. The validator is a class whose fields are filled in place, exactly as
    the validation run fills them; `Validate` is the specification it is proved against. */
module Validation {
  import opened Common
  import opened Json
  import opened Settings
  import opened Responses

  const INVALID_KEYS_KEY := "invalid_keys"
  const MISSING_MANDATORY_KEYS_KEY := "missing_mandatory_keys"
  const MISSING_MANDATORY_OR_KEYS_KEY := "specify_one_of"

  datatype DataType = STRING | ARRAY | OBJECT
  {
    /** The message recorded for a value of the wrong datatype. */
    function Expected(): string
    {
      match this
      case STRING => "String expected"
      case ARRAY => "Array expected"
      case OBJECT => "Object expected"
    }
  }

  datatype ErrorType =
    | NONE
    | INVALID_CONFIGURATION
    | WRONG_DATATYPE
    | BODY_NOT_PARSEABLE
    | PAYLOAD_NOT_ALLOWED
    | PAYLOAD_MANDATORY
    | SG_NOT_INITIALIZED
  {
    function Message(): string
    {
      match this
      case NONE => "ok"
      case INVALID_CONFIGURATION => "Invalid configuration"
      case WRONG_DATATYPE => "Wrong datatype"
      case BODY_NOT_PARSEABLE => "Could not parse content of request."
      case PAYLOAD_NOT_ALLOWED => "Request body not allowed for this action."
      case PAYLOAD_MANDATORY => "Request body required for this action."
      case SG_NOT_INITIALIZED => "Search Guard index not initialized (SG11)"
    }
  }

  /** What a resource demands of a request body. */
  datatype Schema = Schema(
    allowedKeys: map<string, DataType>,
    mandatoryKeys: set<string>,
    mandatoryOrKeys: set<string>,
    payloadMandatory: bool,
    payloadAllowed: bool)

  /** The schema a validator starts from before a resource adds its keys. */
  const EmptySchema := Schema(map[], {}, {}, false, true)

  // ---------------------------------------------------------------------------------------
  // The datatype check, at the level of tokens and at the level of the document tree

  /** The token after an allowed field name that the datatype check accepts. */
  predicate Accepts(dt: DataType, t: Token)
  {
    match dt
    case STRING => t == ValueString
    case ARRAY => t == StartArray || t == EndArray
    case OBJECT => t == StartObject || t == EndObject
  }

  /** A value of the kind `dt` names. */
  predicate HasShape(dt: DataType, v: Json)
  {
    match dt
    case STRING => v.JString?
    case ARRAY => v.JArray?
    case OBJECT => v.JObject?
  }

  lemma FirstTokenShape(dt: DataType, v: Json)
    ensures Accepts(dt, Tokenize(v)[0]) <==> HasShape(dt, v)
  {
  }

  /** The allowed keys, at any depth of the document, whose value has the wrong shape. */
  function WrongKeys(allowed: map<string, DataType>, v: Json): (r: set<string>)
    ensures r <= allowed.Keys
    decreases v
  {
    match v
    case JArray(items) => WrongKeysItems(allowed, items)
    case JObject(ms) => WrongKeysMembers(allowed, ms)
    case _ => {}
  }

  function WrongKeysItems(allowed: map<string, DataType>, items: seq<Json>): (r: set<string>)
    ensures r <= allowed.Keys
    decreases items
  {
    if items == [] then {} else WrongKeys(allowed, items[0]) + WrongKeysItems(allowed, items[1..])
  }

  function WrongKeysMembers(allowed: map<string, DataType>, ms: seq<Member>): (r: set<string>)
    ensures r <= allowed.Keys
    decreases ms
  {
    if ms == [] then {}
    else
      FieldWrong(allowed, ms[0]) + WrongKeys(allowed, ms[0].value) + WrongKeysMembers(allowed, ms[1..])
  }

  /** The member's own name, when it is allowed and its value has the wrong shape. */
  function FieldWrong(allowed: map<string, DataType>, m: Member): (r: set<string>)
    ensures r <= allowed.Keys
  {
    if m.name in allowed && !HasShape(allowed[m.name], m.value) then {m.name} else {}
  }

  /** The outcome of the token walk: the keys recorded as wrong, and whether the walk reached
      the end of the stream (it does not when an allowed field name is the last token, since
      the value token it then reads is missing and the check fails with an exception). */
  datatype Scan = Scan(wrong: set<string>, complete: bool)

  function Then(s: set<string>, rest: Scan): Scan
  {
    Scan(s + rest.wrong, rest.complete)
  }

  /** The token walk of the datatype check. */
  function ScanWrongKeys(allowed: map<string, DataType>, toks: seq<Token>): (r: Scan)
    ensures r.wrong <= allowed.Keys
    decreases |toks|
  {
    if toks == [] then Scan({}, true)
    else if toks[0].FieldName? && toks[0].name in allowed then
      if |toks| == 1 then Scan({}, false)
      else
        var here := if Accepts(allowed[toks[0].name], toks[1]) then {} else {toks[0].name};
        Then(here, ScanWrongKeys(allowed, toks[2..]))
    else ScanWrongKeys(allowed, toks[1..])
  }

  lemma ScanSkip(allowed: map<string, DataType>, t: Token, rest: seq<Token>)
    requires !t.FieldName?
    ensures ScanWrongKeys(allowed, [t] + rest) == ScanWrongKeys(allowed, rest)
  {
    assert ([t] + rest)[1..] == rest;
  }

  /** Walking the tokens of a value and then some more tokens records the value's wrong keys
      and then whatever the rest records. */
  lemma {:induction false} ScanValue(allowed: map<string, DataType>, v: Json, rest: seq<Token>)
    ensures ScanWrongKeys(allowed, Tokenize(v) + rest) == Then(WrongKeys(allowed, v), ScanWrongKeys(allowed, rest))
    decreases v, 1
  {
    match v
    case JString(_) => ScanSkip(allowed, ValueString, rest);
    case JOther => ScanSkip(allowed, ValueOther, rest);
    case JArray(items) =>
      assert Tokenize(v) + rest == [StartArray] + (TokenizeItems(items) + ([EndArray] + rest));
      ScanSkip(allowed, StartArray, TokenizeItems(items) + ([EndArray] + rest));
      ScanItems(allowed, items, [EndArray] + rest);
      ScanSkip(allowed, EndArray, rest);
    case JObject(ms) =>
      assert Tokenize(v) + rest == [StartObject] + (TokenizeMembers(ms) + ([EndObject] + rest));
      ScanSkip(allowed, StartObject, TokenizeMembers(ms) + ([EndObject] + rest));
      ScanMembers(allowed, ms, [EndObject] + rest);
      ScanSkip(allowed, EndObject, rest);
  }

  lemma {:induction false} ScanItems(allowed: map<string, DataType>, items: seq<Json>, rest: seq<Token>)
    ensures ScanWrongKeys(allowed, TokenizeItems(items) + rest)
         == Then(WrongKeysItems(allowed, items), ScanWrongKeys(allowed, rest))
    decreases items, 0
  {
    if items == [] {
      assert TokenizeItems(items) + rest == rest;
    } else {
      var tail := TokenizeItems(items[1..]) + rest;
      assert TokenizeItems(items) + rest == Tokenize(items[0]) + tail;
      ScanValue(allowed, items[0], tail);
      ScanItems(allowed, items[1..], rest);
    }
  }

  lemma {:induction false} ScanMembers(allowed: map<string, DataType>, ms: seq<Member>, rest: seq<Token>)
    ensures ScanWrongKeys(allowed, TokenizeMembers(ms) + rest)
         == Then(WrongKeysMembers(allowed, ms), ScanWrongKeys(allowed, rest))
    decreases ms, 0
  {
    if ms == [] {
      assert TokenizeMembers(ms) + rest == rest;
    } else {
      var m := ms[0];
      var tail := TokenizeMembers(ms[1..]) + rest;
      var t := Tokenize(m.value) + tail;
      assert TokenizeMembers(ms) + rest == [FieldName(m.name)] + t;
      ScanValue(allowed, m.value, tail);
      ScanMembers(allowed, ms[1..], rest);
      ScanMemberHead(allowed, m, t);
    }
  }

  /** A field name followed by its value's tokens: the walk records the field itself when it
      is allowed and the value has the wrong shape, then goes on with the value's tokens. */
  lemma ScanMemberHead(allowed: map<string, DataType>, m: Member, t: seq<Token>)
    requires t != [] && t[0] == Tokenize(m.value)[0]
    ensures ScanWrongKeys(allowed, [FieldName(m.name)] + t) == Then(FieldWrong(allowed, m), ScanWrongKeys(allowed, t))
  {
    var toks := [FieldName(m.name)] + t;
    assert t == [t[0]] + t[1..];
    ScanSkip(allowed, t[0], t[1..]);
    if m.name in allowed {
      assert toks[1] == t[0] && toks[2..] == t[1..];
      FirstTokenShape(allowed[m.name], m.value);
    } else {
      assert toks[1..] == t;
    }
  }

  /** On the tokens of a document the walk always completes, and it records exactly the
      allowed keys whose value has the wrong shape, wherever they occur. */
  lemma ScanMatchesTree(allowed: map<string, DataType>, v: Json)
    ensures ScanWrongKeys(allowed, Tokenize(v)) == Scan(WrongKeys(allowed, v), true)
  {
    ScanValue(allowed, v, []);
    assert Tokenize(v) + [] == Tokenize(v);
  }

  /** The messages recorded for the wrong keys. */
  function TypeMessages(allowed: map<string, DataType>, wrong: set<string>): (r: map<string, string>)
    requires wrong <= allowed.Keys
    ensures r.Keys == wrong
    ensures forall k :: k in r ==> r[k] == allowed[k].Expected()
  {
    map k | k in wrong :: allowed[k].Expected()
  }

  // ---------------------------------------------------------------------------------------
  // The specification of one validation run

  /** What the settings loader makes of a body: an absent body is a document without keys,
      and a body the loader rejects gives nothing. */
  function ToSettingsBuilder(b: Body): (r: Option<map<string, string>>)
    ensures r.None? <==> b.Unparseable?
    ensures b.Absent? ==> r == Some(map[])
    ensures b.Document? ==> r == Some(b.settings)
  {
    match b
    case Absent => Some(map[])
    case Unparseable => None
    case Document(s, _) => Some(s)
  }

  /** The parser tokens the datatype check walks. A body that is not a JSON document cannot be
      converted and the check fails with an exception. */
  function ParserTokens(b: Body): Option<seq<Token>>
  {
    if b.Document? then Some(Tokenize(b.tree)) else None
  }

  /** The fields a validator holds once validation has run, and the value it returned. */
  datatype Verdict = Verdict(
    valid: bool,
    errorType: ErrorType,
    invalidKeys: set<string>,
    missingMandatoryKeys: set<string>,
    missingMandatoryOrKeys: set<string>,
    wrongDatatypes: map<string, string>,
    settings: Option<map<string, string>>)

  /** The key-set checks on the names a body requests. */
  function MissingOrKeys(schema: Schema, requested: set<string>): set<string>
  {
    if requested !! schema.mandatoryOrKeys then schema.mandatoryOrKeys else {}
  }

  /** One validation run of a fresh validator. */
  function Validate(schema: Schema, m: Method, body: Body): (v: Verdict)
    ensures v.valid <==> v.errorType == NONE
    ensures v.valid ==> v.invalidKeys == {} && v.missingMandatoryKeys == {}
                        && v.missingMandatoryOrKeys == {} && v.wrongDatatypes == map[]
  {
    if m == DELETE || m == GET || m == POST then Verdict(true, NONE, {}, {}, {}, map[], None)
    else match ToSettingsBuilder(body)
      case None => Verdict(false, BODY_NOT_PARSEABLE, {}, {}, {}, map[], None)
      case Some(settings) =>
        var requested := Names(settings);
        if !schema.payloadAllowed && requested != {} then
          Verdict(false, PAYLOAD_NOT_ALLOWED, {}, {}, {}, map[], Some(settings))
        else if schema.payloadMandatory && requested == {} then
          Verdict(false, PAYLOAD_MANDATORY, {}, {}, {}, map[], Some(settings))
        else
          CheckKeysAndTypes(schema, body, settings)
  }

  /** The key-set checks and the datatype check, once the payload flags are satisfied. */
  function CheckKeysAndTypes(schema: Schema, body: Body, settings: map<string, string>): (v: Verdict)
    ensures v.valid <==> v.errorType == NONE
    ensures v.valid ==> v.invalidKeys == {} && v.missingMandatoryKeys == {}
                        && v.missingMandatoryOrKeys == {} && v.wrongDatatypes == map[]
  {
    var requested := Names(settings);
    var missingOr := MissingOrKeys(schema, requested);
    var missing := schema.mandatoryKeys - requested;
    var invalid := requested - schema.allowedKeys.Keys;
    var keysValid := missing == {} && invalid == {} && missingOr == {};
    if !body.Document? then
      Verdict(false, BODY_NOT_PARSEABLE, invalid, missing, missingOr, map[], Some(settings))
    else
      var wrong := WrongKeys(schema.allowedKeys, body.tree);
      if wrong != {} then
        Verdict(false, WRONG_DATATYPE, invalid, missing, missingOr,
                TypeMessages(schema.allowedKeys, wrong), Some(settings))
      else
        Verdict(keysValid, if keysValid then NONE else INVALID_CONFIGURATION,
                invalid, missing, missingOr, map[], Some(settings))
  }

  /** An independent statement of when a request body passes: the method needs no body, or
      the body is a JSON document that requests only allowed keys, all mandatory keys and at
      least one key of a non-empty one-of group, honours the payload flags, and has no value
      of the wrong shape under an allowed key. */
  predicate Acceptable(schema: Schema, m: Method, body: Body)
  {
    m in {DELETE, GET, POST} ||
    (body.Document? &&
     var requested := Names(body.settings);
     (schema.payloadAllowed || requested == {}) &&
     (!schema.payloadMandatory || requested != {}) &&
     requested <= schema.allowedKeys.Keys &&
     schema.mandatoryKeys <= requested &&
     (schema.mandatoryOrKeys == {} || !(requested !! schema.mandatoryOrKeys)) &&
     WrongKeys(schema.allowedKeys, body.tree) == {})
  }

  lemma ValidIffAcceptable(schema: Schema, m: Method, body: Body)
    ensures Validate(schema, m, body).valid <==> Acceptable(schema, m, body)
  {
    if m !in {DELETE, GET, POST} && body.Document? {
      var requested := Names(body.settings);
      var missingOr := MissingOrKeys(schema, requested);
      assert missingOr == {} <==> (schema.mandatoryOrKeys == {} || !(requested !! schema.mandatoryOrKeys));
      DifferenceEmpty(requested, schema.allowedKeys.Keys);
      DifferenceEmpty(schema.mandatoryKeys, requested);
    }
  }

  lemma DifferenceEmpty(a: set<string>, b: set<string>)
    ensures a - b == {} <==> a <= b
  {
    if a - b == {} {
      forall x | x in a ensures x in b {
        assert x !in a - b;
      }
    }
  }

  /** GET, DELETE and POST pass without the body being looked at. */
  lemma ExemptMethodsPass(schema: Schema, m: Method, body: Body)
    requires m in {DELETE, GET, POST}
    ensures Validate(schema, m, body) == Verdict(true, NONE, {}, {}, {}, map[], None)
  {
  }

  /** A body the loader rejects fails before any key check. */
  lemma UnparseableFails(schema: Schema, m: Method)
    requires m !in {DELETE, GET, POST}
    ensures Validate(schema, m, Unparseable) == Verdict(false, BODY_NOT_PARSEABLE, {}, {}, {}, map[], None)
  {
  }

  /** The payload flags are decided before any key check: a body with keys where none are
      allowed, or a body without keys where one is mandatory, fails with no key sets filled. */
  lemma PayloadFlagsFirst(schema: Schema, m: Method, body: Body)
    requires m !in {DELETE, GET, POST} && !body.Unparseable?
    ensures var requested := Names(ToSettingsBuilder(body).value);
            var v := Validate(schema, m, body);
            (!schema.payloadAllowed && requested != {} ==>
               v.errorType == PAYLOAD_NOT_ALLOWED && !v.valid &&
               v.invalidKeys == v.missingMandatoryKeys == v.missingMandatoryOrKeys == {}) &&
            (schema.payloadAllowed && schema.payloadMandatory && requested == {} ==>
               v.errorType == PAYLOAD_MANDATORY && !v.valid &&
               v.invalidKeys == v.missingMandatoryKeys == v.missingMandatoryOrKeys == {})
  {
  }

  /** An absent body is a document without keys: it fails when a payload is mandatory. */
  lemma AbsentBodyHasNoKeys(schema: Schema, m: Method)
    requires m !in {DELETE, GET, POST} && schema.payloadMandatory
    ensures Validate(schema, m, Absent).errorType == PAYLOAD_MANDATORY
    ensures Validate(schema, m, Absent).settings == Some(map[])
  {
    NamesEmpty(map[]);
  }

  /** Once past the payload flags, the three key sets are: the whole one-of group when the
      request names none of it, the mandatory keys it lacks, and the names that are not
      allowed; and a datatype mismatch takes precedence over a key-set failure. */
  lemma KeySetsAndPrecedence(schema: Schema, m: Method, body: Body)
    requires m !in {DELETE, GET, POST} && body.Document?
    requires var requested := Names(body.settings);
             (schema.payloadAllowed || requested == {}) && (!schema.payloadMandatory || requested != {})
    ensures var requested := Names(body.settings);
            var v := Validate(schema, m, body);
            v.missingMandatoryOrKeys == (if requested !! schema.mandatoryOrKeys then schema.mandatoryOrKeys else {}) &&
            v.missingMandatoryKeys == schema.mandatoryKeys - requested &&
            v.invalidKeys == requested - schema.allowedKeys.Keys &&
            v.settings == Some(body.settings) &&
            (WrongKeys(schema.allowedKeys, body.tree) != {} <==> v.errorType == WRONG_DATATYPE) &&
            (v.errorType == WRONG_DATATYPE ==>
               v.wrongDatatypes == TypeMessages(schema.allowedKeys, WrongKeys(schema.allowedKeys, body.tree))) &&
            (v.errorType != WRONG_DATATYPE ==>
               (v.valid <==> v.invalidKeys == v.missingMandatoryKeys == v.missingMandatoryOrKeys == {}))
  {
  }

  /** Once the payload flags are met, a datatype error decides the verdict and its messages. */
  lemma WrongDatatypeVerdict(schema: Schema, m: Method, body: Body, wrong: set<string>)
    requires m !in {DELETE, GET, POST} && body.Document?
    requires schema.payloadAllowed && Names(body.settings) != {}
    requires WrongKeys(schema.allowedKeys, body.tree) == wrong != {}
    ensures Validate(schema, m, body).errorType == WRONG_DATATYPE
    ensures Validate(schema, m, body).wrongDatatypes == TypeMessages(schema.allowedKeys, wrong)
  {
  }

  // ---------------------------------------------------------------------------------------
  // The error document

  /** One `{"keys": ...}` entry per non-empty key set, under the set's own name. */
  function KeyLists(invalid: set<string>, missing: set<string>, missingOr: set<string>): (r: map<string, set<string>>)
    ensures INVALID_KEYS_KEY in r <==> invalid != {}
    ensures MISSING_MANDATORY_KEYS_KEY in r <==> missing != {}
    ensures MISSING_MANDATORY_OR_KEYS_KEY in r <==> missingOr != {}
    ensures INVALID_KEYS_KEY in r ==> r[INVALID_KEYS_KEY] == invalid
    ensures MISSING_MANDATORY_KEYS_KEY in r ==> r[MISSING_MANDATORY_KEYS_KEY] == missing
    ensures MISSING_MANDATORY_OR_KEYS_KEY in r ==> r[MISSING_MANDATORY_OR_KEYS_KEY] == missingOr
    ensures r.Keys <= {INVALID_KEYS_KEY, MISSING_MANDATORY_KEYS_KEY, MISSING_MANDATORY_OR_KEYS_KEY}
  {
    (if invalid != {} then map[INVALID_KEYS_KEY := invalid] else map[])
    + (if missing != {} then map[MISSING_MANDATORY_KEYS_KEY := missing] else map[])
    + (if missingOr != {} then map[MISSING_MANDATORY_OR_KEYS_KEY := missingOr] else map[])
  }

  /** The error document of a validator: none when there is no error; the key lists for an
      invalid configuration; the per-field messages for wrong datatypes; otherwise just the
      status and the reason. */
  function Report(errorType: ErrorType, invalid: set<string>, missing: set<string>, missingOr: set<string>,
                  wrongDatatypes: map<string, string>): (r: Option<ErrorReport>)
    ensures r.None? <==> errorType == NONE
    ensures r.Some? ==> r.value.status == "error" && r.value.reason == errorType.Message()
    ensures r.Some? && errorType == INVALID_CONFIGURATION ==>
              r.value.keyLists == KeyLists(invalid, missing, missingOr) && r.value.fieldMessages == map[]
    ensures r.Some? && errorType == WRONG_DATATYPE ==>
              r.value.keyLists == map[] && r.value.fieldMessages == wrongDatatypes
    ensures r.Some? && errorType !in {INVALID_CONFIGURATION, WRONG_DATATYPE} ==>
              r.value.keyLists == map[] && r.value.fieldMessages == map[]
  {
    match errorType
    case NONE => None
    case INVALID_CONFIGURATION =>
      Some(ErrorReport("error", errorType.Message(), KeyLists(invalid, missing, missingOr), map[]))
    case WRONG_DATATYPE => Some(ErrorReport("error", errorType.Message(), map[], wrongDatatypes))
    case _ => Some(ErrorReport("error", errorType.Message(), map[], map[]))
  }

  /** The error document as the source builds it: the one-of entry is filled from the
      missing mandatory keys instead of the missing one-of keys. */
  function ReportAsWritten(errorType: ErrorType, invalid: set<string>, missing: set<string>, missingOr: set<string>,
                           wrongDatatypes: map<string, string>): (r: Option<ErrorReport>)
    ensures errorType == INVALID_CONFIGURATION ==>
              r == Report(errorType, invalid, missing, missing, wrongDatatypes)
    ensures errorType != INVALID_CONFIGURATION ==>
              r == Report(errorType, invalid, missing, missingOr, wrongDatatypes)
  {
    match errorType
    case INVALID_CONFIGURATION =>
      Some(ErrorReport("error", errorType.Message(), KeyLists(invalid, missing, missing), map[]))
    case _ => Report(errorType, invalid, missing, missingOr, wrongDatatypes)
  }

  /** For an invalid configuration the document as written carries the one-of entry exactly
      when mandatory keys are missing, and then with those keys; the corrected document carries
      it exactly when one-of keys are missing, with the one-of keys. */
  lemma OneOfEntry(invalid: set<string>, missing: set<string>, missingOr: set<string>)
    ensures var w := ReportAsWritten(INVALID_CONFIGURATION, invalid, missing, missingOr, map[]);
            var c := Report(INVALID_CONFIGURATION, invalid, missing, missingOr, map[]);
            w.Some? && c.Some? &&
            (MISSING_MANDATORY_OR_KEYS_KEY in w.value.keyLists <==> missing != {}) &&
            (missing != {} ==> w.value.keyLists[MISSING_MANDATORY_OR_KEYS_KEY] == missing) &&
            (MISSING_MANDATORY_OR_KEYS_KEY in c.value.keyLists <==> missingOr != {}) &&
            (missingOr != {} ==> c.value.keyLists[MISSING_MANDATORY_OR_KEYS_KEY] == missingOr) &&
            w.value.keyLists - {MISSING_MANDATORY_OR_KEYS_KEY} == c.value.keyLists - {MISSING_MANDATORY_OR_KEYS_KEY}
  {
    var w := KeyLists(invalid, missing, missing);
    var c := KeyLists(invalid, missing, missingOr);
    assert w - {MISSING_MANDATORY_OR_KEYS_KEY} == c - {MISSING_MANDATORY_OR_KEYS_KEY};
  }

  /** Every failed run yields an error document, and a passed run none. */
  lemma ReportOfVerdict(schema: Schema, m: Method, body: Body)
    ensures var v := Validate(schema, m, body);
            Report(v.errorType, v.invalidKeys, v.missingMandatoryKeys, v.missingMandatoryOrKeys, v.wrongDatatypes).None?
            <==> v.valid
  {
  }

  lemma ScanOther(allowed: map<string, DataType>, toks: seq<Token>, i: nat)
    requires i < |toks| && !(toks[i].FieldName? && toks[i].name in allowed)
    ensures ScanWrongKeys(allowed, toks[i..]) == ScanWrongKeys(allowed, toks[i + 1..])
  {
    assert toks[i..][1..] == toks[i + 1..];
  }

  lemma ScanLastField(allowed: map<string, DataType>, toks: seq<Token>, i: nat)
    requires i + 1 == |toks| && toks[i].FieldName? && toks[i].name in allowed
    ensures ScanWrongKeys(allowed, toks[i..]) == Scan({}, false)
  {
    assert toks[i..] == [toks[i]];
  }

  lemma ScanField(allowed: map<string, DataType>, toks: seq<Token>, i: nat, found: set<string>)
    requires i + 1 < |toks| && toks[i].FieldName? && toks[i].name in allowed
    ensures var name := toks[i].name;
            var here := if Accepts(allowed[name], toks[i + 1]) then {} else {name};
            Then(found, ScanWrongKeys(allowed, toks[i..])) == Then(found + here, ScanWrongKeys(allowed, toks[i + 2..]))
  {
    assert toks[i..][2..] == toks[i + 2..];
    assert toks[i..][1] == toks[i + 1];
  }

  lemma TypeMessagesAdd(allowed: map<string, DataType>, found: set<string>, k: string)
    requires found <= allowed.Keys && k in allowed
    ensures TypeMessages(allowed, found + {k}) == TypeMessages(allowed, found)[k := allowed[k].Expected()]
  {
  }

  /** One allowed field of the walk: the loop's two invariants carry over past the field and
      its value token, with the field recorded when the value token has the wrong kind. */
  lemma FieldStep(allowed: map<string, DataType>, toks: seq<Token>, i: nat, found: set<string>,
                  base: map<string, string>, recorded: map<string, string>)
    requires i + 1 < |toks| && toks[i].FieldName? && toks[i].name in allowed && found <= allowed.Keys
    requires ScanWrongKeys(allowed, toks) == Then(found, ScanWrongKeys(allowed, toks[i..]))
    requires recorded == base + TypeMessages(allowed, found)
    ensures var name := toks[i].name;
            var ok := Accepts(allowed[name], toks[i + 1]);
            var found' := if ok then found else found + {name};
            var recorded' := if ok then recorded else recorded[name := allowed[name].Expected()];
            ScanWrongKeys(allowed, toks) == Then(found', ScanWrongKeys(allowed, toks[i + 2..])) &&
            recorded' == base + TypeMessages(allowed, found')
  {
    ScanField(allowed, toks, i, found);
    TypeMessagesAdd(allowed, found, toks[i].name);
  }

  /** The loop of the datatype check over a token stream: after an allowed field name it reads
      the next token and, when that token has the wrong kind, records the field's message on
      top of `start`. It stops early, incomplete, when an allowed field name is the last token. */
  method WalkTokens(allowed: map<string, DataType>, toks: seq<Token>, start: map<string, string>)
    returns (recorded: map<string, string>, complete: bool)
    ensures recorded == start + TypeMessages(allowed, ScanWrongKeys(allowed, toks).wrong)
    ensures complete == ScanWrongKeys(allowed, toks).complete
  {
    recorded := start;
    var i := 0;
    ghost var found: set<string> := {};
    while i < |toks|
      invariant 0 <= i <= |toks|
      invariant found <= allowed.Keys
      invariant ScanWrongKeys(allowed, toks) == Then(found, ScanWrongKeys(allowed, toks[i..]))
      invariant recorded == start + TypeMessages(allowed, found)
      decreases |toks| - i
    {
      var token := toks[i];
      if token.FieldName? && token.name in allowed {
        var currentName := token.name;
        var dataType := allowed[currentName];
        if i + 1 == |toks| {
          ScanLastField(allowed, toks, i);
          return recorded, false;
        }
        var valueToken := toks[i + 1];
        var accepted;
        match dataType {
          case STRING => accepted := valueToken == ValueString;
          case ARRAY => accepted := valueToken == StartArray || valueToken == EndArray;
          case OBJECT => accepted := valueToken == StartObject || valueToken == EndObject;
        }
        assert accepted == Accepts(dataType, valueToken);
        FieldStep(allowed, toks, i, found, start, recorded);
        if !accepted {
          recorded := recorded[currentName := dataType.Expected()];
          found := found + {currentName};
        }
        i := i + 2;
      } else {
        ScanOther(allowed, toks, i);
        i := i + 1;
      }
    }
    complete := true;
    assert toks[i..] == [];
  }

  // ---------------------------------------------------------------------------------------
  // The validator object

  class ConfigurationValidator {
    var allowedKeys: map<string, DataType>
    var mandatoryKeys: set<string>
    var mandatoryOrKeys: set<string>
    var wrongDatatypes: map<string, string>
    var missingMandatoryKeys: set<string>
    var invalidKeys: set<string>
    var missingMandatoryOrKeys: set<string>
    var errorType: ErrorType
    var payloadMandatory: bool
    var payloadAllowed: bool
    var settingsBuilder: Option<map<string, string>>
    const requestMethod: Method
    const content: Body

    constructor (requestMethod: Method, content: Body)
      ensures this.requestMethod == requestMethod && this.content == content
      ensures Rules() == EmptySchema
      ensures Pristine()
    {
      this.requestMethod := requestMethod;
      this.content := content;
      allowedKeys := map[];
      mandatoryKeys := {};
      mandatoryOrKeys := {};
      wrongDatatypes := map[];
      missingMandatoryKeys := {};
      invalidKeys := {};
      missingMandatoryOrKeys := {};
      errorType := NONE;
      payloadMandatory := false;
      payloadAllowed := true;
      settingsBuilder := None;
    }

    /** The schema the validator's key fields and flags spell out. */
    function Rules(): Schema
      reads this
    {
      Schema(allowedKeys, mandatoryKeys, mandatoryOrKeys, payloadMandatory, payloadAllowed)
    }

    /** No validation has run yet. */
    predicate Pristine()
      reads this
    {
      wrongDatatypes == map[] && missingMandatoryKeys == {} && invalidKeys == {}
      && missingMandatoryOrKeys == {} && errorType == NONE && settingsBuilder == None
    }

    /** Runs the validation, filling the error fields as it goes. */
    method ValidateSettings() returns (ok: bool)
      requires Pristine()
      modifies this`wrongDatatypes, this`missingMandatoryKeys, this`invalidKeys,
               this`missingMandatoryOrKeys, this`errorType, this`settingsBuilder
      ensures Rules() == old(Rules())
      ensures var v := Validate(Rules(), requestMethod, content);
              ok == v.valid && errorType == v.errorType && invalidKeys == v.invalidKeys
              && missingMandatoryKeys == v.missingMandatoryKeys
              && missingMandatoryOrKeys == v.missingMandatoryOrKeys
              && wrongDatatypes == v.wrongDatatypes && settingsBuilder == v.settings
    {
      if requestMethod == DELETE || requestMethod == GET || requestMethod == POST {
        return true;
      }
      var parsed := ToSettingsBuilder(content);
      if parsed.None? {
        errorType := BODY_NOT_PARSEABLE;
        return false;
      }
      settingsBuilder := parsed;
      var requested := Names(parsed.value);

      if !payloadAllowed && requested != {} {
        errorType := PAYLOAD_NOT_ALLOWED;
        return false;
      }
      if payloadMandatory && requested == {} {
        errorType := PAYLOAD_MANDATORY;
        return false;
      }
      ok := CheckKeysAndDatatypes(parsed.value);
    }

    /** The part of the run after the payload flags: the key-set checks, then the datatype
        check, whose failure overrides an invalid configuration. */
    method CheckKeysAndDatatypes(settings: map<string, string>) returns (ok: bool)
      requires missingMandatoryKeys == {} && invalidKeys == {} && missingMandatoryOrKeys == {}
      requires wrongDatatypes == map[] && errorType == NONE
      modifies this`wrongDatatypes, this`missingMandatoryKeys, this`invalidKeys,
               this`missingMandatoryOrKeys, this`errorType
      ensures var v := CheckKeysAndTypes(Rules(), content, settings);
              ok == v.valid && errorType == v.errorType && invalidKeys == v.invalidKeys
              && missingMandatoryKeys == v.missingMandatoryKeys
              && missingMandatoryOrKeys == v.missingMandatoryOrKeys
              && wrongDatatypes == v.wrongDatatypes
    {
      var valid := CheckKeys(Names(settings));
      if content.Document? {
        ScanMatchesTree(allowedKeys, content.tree);
      }
      var typesOk := CheckDatatypes();
      if typesOk.None? {
        errorType := BODY_NOT_PARSEABLE;
        return false;
      }
      if !typesOk.value {
        errorType := WRONG_DATATYPE;
        return false;
      }
      return valid;
    }

    /** The key-set checks: records the one-of group when the request names none of it, the
        mandatory keys it lacks and the names that are not allowed, and marks the configuration
        invalid when any of these is non-empty. */
    method CheckKeys(requested: set<string>) returns (valid: bool)
      requires missingMandatoryKeys == {} && invalidKeys == {} && missingMandatoryOrKeys == {}
      modifies this`missingMandatoryKeys, this`invalidKeys, this`missingMandatoryOrKeys, this`errorType
      ensures missingMandatoryOrKeys == MissingOrKeys(Rules(), requested)
      ensures missingMandatoryKeys == mandatoryKeys - requested
      ensures invalidKeys == requested - allowedKeys.Keys
      ensures valid == (missingMandatoryKeys == {} && invalidKeys == {} && missingMandatoryOrKeys == {})
      ensures errorType == if valid then old(errorType) else INVALID_CONFIGURATION
    {
      if requested !! mandatoryOrKeys {
        missingMandatoryOrKeys := missingMandatoryOrKeys + mandatoryOrKeys;
      }
      var mandatory := mandatoryKeys - requested;
      missingMandatoryKeys := missingMandatoryKeys + mandatory;
      var rest := requested - allowedKeys.Keys;
      invalidKeys := invalidKeys + rest;
      valid := missingMandatoryKeys == {} && invalidKeys == {} && missingMandatoryOrKeys == {};
      if !valid {
        errorType := INVALID_CONFIGURATION;
      }
    }

    /** The datatype check: walks the parser tokens of the body and records a message for every
        allowed field whose value token has the wrong kind. Returns whether nothing is recorded,
        or None when the walk fails with an exception. */
    method CheckDatatypes() returns (r: Option<bool>)
      modifies this`wrongDatatypes
      ensures match ParserTokens(content)
              case None => r.None? && wrongDatatypes == old(wrongDatatypes)
              case Some(toks) =>
                var scan := ScanWrongKeys(allowedKeys, toks);
                wrongDatatypes == old(wrongDatatypes) + TypeMessages(allowedKeys, scan.wrong)
                && (r.None? <==> !scan.complete)
                && (r.Some? ==> r.value == (wrongDatatypes == map[]))
    {
      var source := ParserTokens(content);
      if source.None? {
        return None;
      }
      var recorded, complete := WalkTokens(allowedKeys, source.value, wrongDatatypes);
      wrongDatatypes := recorded;
      r := if complete then Some(recorded == map[]) else None;
    }

    /** The error document of the current state: none without an error; otherwise the
        error's reason with one list per non-empty key set of an invalid configuration, or
        the messages of a wrong datatype. */
    function ErrorsAsXContent(): (r: Option<ErrorReport>)
      reads this
      ensures r.None? <==> errorType == NONE
      ensures r.Some? ==> r.value.status == "error" && r.value.reason == errorType.Message()
      ensures r.Some? && errorType == INVALID_CONFIGURATION ==>
                (INVALID_KEYS_KEY in r.value.keyLists <==> invalidKeys != {})
                && (MISSING_MANDATORY_KEYS_KEY in r.value.keyLists <==> missingMandatoryKeys != {})
                && (MISSING_MANDATORY_OR_KEYS_KEY in r.value.keyLists <==> missingMandatoryOrKeys != {})
      ensures r.Some? && errorType == WRONG_DATATYPE ==> r.value.fieldMessages == wrongDatatypes
    {
      Report(errorType, invalidKeys, missingMandatoryKeys, missingMandatoryOrKeys, wrongDatatypes)
    }
  }
}
