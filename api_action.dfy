/** The shared machinery of the current generation of API actions: the configuration index
    the handlers load documents from and save them to, the key-prefix helpers over flat
    documents, and the generic DELETE, PUT, GET and POST handlers a resource inherits.
    Every handler is specified by a decision function on the stored document: either an
    answer that leaves the index alone, or a new document to write followed by an answer. */
module ApiAction {
  import opened Common
  import opened Settings
  import opened Responses

  /** How writing a document into the configuration index ends. A write the action stops
      waiting for may still reach the index afterwards; `landed` says whether it does. */
  datatype SaveResult = Saved | SaveTimeout(landed: bool) | SaveFailed(error: string)

  /** The exception a document write that ended as `save` raises, if any. */
  function SaveException(save: SaveResult, config: string): (r: Option<string>)
    ensures r.None? <==> save == Saved
  {
    match save
    case Saved => None
    case SaveTimeout(_) => Some("Timeout updating " + config)
    case SaveFailed(e) => Some(e)
  }

  /** The outcome of a handler once its document write has ended as `save`: a timeout or a
      failure is thrown instead of the answer. */
  function AfterSave(save: SaveResult, config: string, o: Outcome): (r: Outcome)
    ensures save == Saved ==> r == o
    ensures save.SaveTimeout? ==> r == Thrown("Timeout updating " + config)
    ensures save.SaveFailed? ==> r == Thrown(save.error)
  {
    match SaveException(save, config)
    case None => o
    case Some(e) => Thrown(e)
  }

  /** What a handler decides given the stored document. */
  datatype Decision =
    | Answer(outcome: Outcome)
    | Write(document: map<string, string>, outcome: Outcome)

  /** The outcome a decision ends in, once its write (if any) has ended as `save`. */
  function Completed(d: Decision, save: SaveResult, config: string): Outcome
  {
    match d
    case Answer(o) => o
    case Write(_, o) => AfterSave(save, config, o)
  }

  /** The configuration index: the stored documents by configuration name, whether the index
      exists at all, and how a write into it ends. */
  class ConfigIndex {
    var documents: map<string, map<string, string>>
    const initialized: bool
    const onSave: SaveResult

    constructor (documents: map<string, map<string, string>>, initialized: bool, onSave: SaveResult)
      ensures this.documents == documents && this.initialized == initialized && this.onSave == onSave
    {
      this.documents := documents;
      this.initialized := initialized;
      this.onSave := onSave;
    }

    /** `load(config)`: the stored document, or an empty one when none is stored. */
    function Load(config: string): map<string, string>
      reads this
    {
      if config in documents then documents[config] else map[]
    }

    /** The stored documents once `doc` has been written as `config`: a failed write leaves
        them alone, a timed-out one may still have landed. */
    function Written(config: string, doc: map<string, string>): map<string, map<string, string>>
      reads this
    {
      if onSave.Saved? || (onSave.SaveTimeout? && onSave.landed) then documents[config := doc] else documents
    }

    /** The stored documents once the decision has been carried out. */
    function After(config: string, d: Decision): map<string, map<string, string>>
      reads this
    {
      match d
      case Answer(_) => documents
      case Write(doc, _) => Written(config, doc)
    }

    /** `save`: writes the document, and reports the exception a timeout or a failed write
        raises. */
    method Save(config: string, doc: map<string, string>) returns (error: Option<string>)
      modifies this`documents
      ensures documents == old(Written(config, doc))
      ensures error == SaveException(onSave, config)
    {
      match onSave
      case Saved =>
        documents := documents[config := doc];
        error := None;
      case SaveTimeout(landed) =>
        if landed {
          documents := documents[config := doc];
        }
        error := Some("Timeout updating " + config);
      case SaveFailed(e) =>
        error := Some(e);
    }
  }

  // ---------------------------------------------------------------------------------------
  // The key-prefix helpers

  lemma WithPrefixInsert(m: map<string, string>, p: string, k: string, v: string)
    requires k !in m
    ensures WithPrefix(m[k := v], p) == if p <= k then WithPrefix(m, p)[k := v] else WithPrefix(m, p)
  {
  }

  /** `copyKeysStartingWith`: a new map with exactly the entries under the prefix; an empty
      prefix copies nothing. */
  method CopyKeysStartingWith(m: map<string, string>, startWith: string) returns (r: map<string, string>)
    ensures startWith == [] ==> r == map[]
    ensures startWith != [] ==> r == WithPrefix(m, startWith)
  {
    if m == map[] || startWith == [] {
      return map[];
    }
    r := map[];
    var keys := m.Keys;
    while keys != {}
      invariant keys <= m.Keys
      invariant r == WithPrefix(m - keys, startWith)
      decreases |keys|
    {
      var k :| k in keys;
      WithPrefixInsert(m - keys, startWith, k, m[k]);
      assert m - (keys - {k}) == (m - keys)[k := m[k]];
      if startWith <= k {
        r := r[k := m[k]];
      }
      keys := keys - {k};
    }
    assert m - keys == m;
  }

  /** One step of the removal loop: taking key `k` out of the keys still to visit. */
  lemma RemoveStep(original: map<string, string>, keys: set<string>, k: string, p: string,
                   removed: map<string, string>, current: map<string, string>)
    requires k in keys && keys <= original.Keys
    requires removed == WithPrefix(original - keys, p) && current == original - removed.Keys
    ensures p <= k ==> k in current && current[k] == original[k]
    ensures p <= k ==> WithPrefix(original - (keys - {k}), p) == removed[k := original[k]]
    ensures p <= k ==> current - {k} == original - removed[k := original[k]].Keys
    ensures !(p <= k) ==> WithPrefix(original - (keys - {k}), p) == removed
  {
    WithPrefixInsert(original - keys, p, k, original[k]);
    assert original - (keys - {k}) == (original - keys)[k := original[k]];
  }

  /** Taking away the keys under a prefix leaves the entries not under it. */
  lemma RemoveAllUnder(original: map<string, string>, p: string)
    ensures original - WithPrefix(original, p).Keys == WithoutPrefix(original, p)
  {
  }

  /** `removeKeysStartingWith`: deletes in place every entry under the prefix and returns the
      deleted entries; an empty prefix deletes nothing. */
  method RemoveKeysStartingWith(b: Builder, startWith: string) returns (removed: map<string, string>)
    modifies b
    ensures startWith == [] ==> removed == map[] && b.settings == old(b.settings)
    ensures startWith != [] ==> removed == WithPrefix(old(b.settings), startWith)
    ensures startWith != [] ==> b.settings == WithoutPrefix(old(b.settings), startWith)
  {
    removed := map[];
    if b.settings == map[] || startWith == [] {
      return;
    }
    ghost var original := b.settings;
    var keys := b.settings.Keys;
    while keys != {}
      invariant keys <= original.Keys
      invariant removed == WithPrefix(original - keys, startWith)
      invariant b.settings == original - removed.Keys
      decreases |keys|
    {
      var k :| k in keys;
      RemoveStep(original, keys, k, startWith, removed, b.settings);
      if startWith <= k {
        var value := b.settings[k];
        b.Remove(k);
        removed := removed[k := value];
      }
      keys := keys - {k};
    }
    assert original - keys == original;
    RemoveAllUnder(original, startWith);
  }

  /** Every key with the pattern (a plain substring) deleted from it. */
  function KeysWithout(m: map<string, string>, remove: string): set<string>
  {
    set k | k in m :: RemoveAll(k, remove)
  }

  /** Every entry of `r` is an entry of `m` whose key lost the pattern. */
  predicate RenamedFrom(r: map<string, string>, m: map<string, string>, remove: string)
  {
    forall k :: k in r ==> exists j :: j in m && RemoveAll(j, remove) == k && r[k] == m[j]
  }

  /** One step of the renaming loop: the entry of key `k` is added under its new name. */
  lemma RenameStep(m: map<string, string>, keys: set<string>, k: string, remove: string, r: map<string, string>)
    requires k in keys && keys <= m.Keys
    requires r.Keys == KeysWithout(m - keys, remove) && RenamedFrom(r, m, remove)
    ensures var r' := r[RemoveAll(k, remove) := m[k]];
            r'.Keys == KeysWithout(m - (keys - {k}), remove) && RenamedFrom(r', m, remove)
  {
    assert (m - (keys - {k})).Keys == (m - keys).Keys + {k};
    var r' := r[RemoveAll(k, remove) := m[k]];
    forall x | x in r' ensures exists j :: j in m && RemoveAll(j, remove) == x && r'[x] == m[j] {
      if x == RemoveAll(k, remove) {
        assert k in m && r'[x] == m[k];
      }
    }
  }

  /** `removeLeadingValueFromEachKey`: every key loses each occurrence of the pattern, values
      following their keys. Two keys that become equal collapse into one entry holding the
      value of one of them (which one depends on the iteration order the map has). An empty
      pattern returns the map as it is. */
  method RemoveLeadingValueFromEachKey(m: map<string, string>, remove: string) returns (r: map<string, string>)
    ensures remove == [] ==> r == m
    ensures r.Keys == KeysWithout(m, remove) && RenamedFrom(r, m, remove)
  {
    if m == map[] || remove == [] {
      forall k | k in m ensures RemoveAll(k, remove) == k && k in m && m[k] == m[k] {
      }
      return m;
    }
    r := map[];
    var keys := m.Keys;
    while keys != {}
      invariant keys <= m.Keys
      invariant r.Keys == KeysWithout(m - keys, remove) && RenamedFrom(r, m, remove)
      decreases |keys|
    {
      var k :| k in keys;
      RenameStep(m, keys, k, remove, r);
      r := r[RemoveAll(k, remove) := m[k]];
      keys := keys - {k};
    }
    assert m - keys == m;
  }

  // ---------------------------------------------------------------------------------------
  // What the generic handlers decide

  /** The stored document once the entry under `prefix` has been replaced by `payload`. */
  function Replaced(doc: map<string, string>, prefix: string, payload: map<string, string>): (r: map<string, string>)
    ensures WithPrefix(r, prefix) == Prepend(payload, prefix)
    ensures WithoutPrefix(r, prefix) == WithoutPrefix(doc, prefix)
  {
    WithoutPrefix(doc, prefix) + Prepend(payload, prefix)
  }

  /** After the replacement, "prefix" + x is stored exactly when x is a key of the payload,
      and with the payload's value. */
  lemma ReplacedEntry(doc: map<string, string>, prefix: string, payload: map<string, string>, x: string)
    ensures prefix + x in Replaced(doc, prefix, payload) <==> x in payload
    ensures x in payload ==> Replaced(doc, prefix, payload)[prefix + x] == payload[x]
  {
    assert prefix <= prefix + x;
    assert (prefix + x)[|prefix|..] == x;
  }

  /** The generic DELETE: no name is a bad request; nothing under "name." is not found and
      writes nothing; otherwise the entry goes and the configuration is reloaded. */
  function DeleteDecision(resource: string, config: string, name: string, doc: map<string, string>): (d: Decision)
    ensures name == [] ==> d == Answer(BadRequestResponse("No " + resource + " specified"))
    ensures name != [] && WithPrefix(doc, name + ".") == map[] ==>
              d == Answer(NotFound(resource + " " + name + " not found."))
    ensures name != [] && WithPrefix(doc, name + ".") != map[] ==>
              d.Write? && d.document == WithoutPrefix(doc, name + ".") &&
              d.outcome == SuccessResponse(resource + " " + name + " deleted.", [config])
  {
    if name == [] then Answer(BadRequestResponse("No " + resource + " specified"))
    else if WithPrefix(doc, name + ".") != map[] then
      Write(WithoutPrefix(doc, name + "."), SuccessResponse(resource + " " + name + " deleted.", [config]))
    else Answer(NotFound(resource + " " + name + " not found."))
  }

  /** The generic PUT: no name is a bad request; otherwise the entry under "name." becomes the
      prefixed payload, answered as an update when something was there and as a creation
      otherwise, and the configuration is reloaded either way. */
  function PutDecision(resource: string, config: string, name: string, doc: map<string, string>,
                       payload: map<string, string>): (d: Decision)
    ensures name == [] ==> d == Answer(BadRequestResponse("No " + resource + " specified"))
    ensures name != [] ==> d.Write? && d.document == Replaced(doc, name + ".", payload)
    ensures name != [] && WithPrefix(doc, name + ".") != map[] ==>
              d.outcome == SuccessResponse(resource + " " + name + " updated.", [config])
    ensures name != [] && WithPrefix(doc, name + ".") == map[] ==>
              d.outcome == CreatedResponse(resource + " " + name + " created.", [config])
  {
    if name == [] then Answer(BadRequestResponse("No " + resource + " specified"))
    else
      var existed := WithPrefix(doc, name + ".") != map[];
      Write(Replaced(doc, name + ".", payload),
            if existed then SuccessResponse(resource + " " + name + " updated.", [config])
            else CreatedResponse(resource + " " + name + " created.", [config]))
  }

  /** The generic GET: no name is a bad request (with a full stop, unlike DELETE and PUT);
      nothing under "name." is not found; otherwise exactly the entries under "name." are
      returned and nothing is reloaded. */
  function GetOutcome(resource: string, name: string, doc: map<string, string>): (o: Outcome)
    ensures name == [] ==> o == BadRequestResponse("No " + resource + " specified.")
    ensures name != [] && WithPrefix(doc, name + ".") == map[] ==> o == NotFound("Resource '" + name + "' not found.")
    ensures name != [] && WithPrefix(doc, name + ".") != map[] ==>
              o == Returned([], RestResponse(OK, SettingsJson(WithPrefix(doc, name + "."))))
  {
    if name == [] then BadRequestResponse("No " + resource + " specified.")
    else
      var requested := WithPrefix(doc, name + ".");
      if requested == map[] then NotFound("Resource '" + name + "' not found.")
      else Returned([], RestResponse(OK, SettingsJson(requested)))
  }

  // ---------------------------------------------------------------------------------------
  // Properties of the decisions

  /** Every generic decision asks for a reload only with a success or a creation. */
  lemma GenericDecisionsReloadOnlyOnSuccess(resource: string, config: string, name: string,
                                            doc: map<string, string>, payload: map<string, string>)
    ensures ReloadsOnlyOnSuccess(DeleteDecision(resource, config, name, doc).outcome)
    ensures ReloadsOnlyOnSuccess(PutDecision(resource, config, name, doc, payload).outcome)
    ensures ReloadsOnlyOnSuccess(GetOutcome(resource, name, doc))
  {
  }

  /** For a name without a dot, the prefix "name." covers exactly the keys whose first
      segment is the name and that go on past it; a bare "name" key is not covered. */
  lemma {:induction false} EntryOfName(doc: map<string, string>, name: string)
    requires '.' !in name
    ensures WithPrefix(doc, name + ".") == map k | k in doc && FirstSegment(k) == name && |name| < |k| :: doc[k]
  {
    forall k | k in doc
      ensures (name + "." <= k) <==> (FirstSegment(k) == name && |name| < |k|)
    {
      DottedPrefixIsFirstSegment(name, k);
    }
  }

  /** Deleting "foo" never touches "foobar.x": the separator keeps sibling names apart. */
  lemma DeleteSparesSiblings(resource: string, config: string, name: string, doc: map<string, string>, k: string)
    requires name != [] && '.' !in name && k in doc && FirstSegment(k) != name
    requires DeleteDecision(resource, config, name, doc).Write?
    ensures var d := DeleteDecision(resource, config, name, doc);
            k in d.document && d.document[k] == doc[k]
  {
    DottedPrefixIsFirstSegment(name, k);
  }

  /** Writing an entry and reading it back gives the payload; deleting it afterwards gives
      back the document without the entry. */
  lemma {:induction false} PutThenGetThenDelete(resource: string, config: string, name: string,
                                               doc: map<string, string>, payload: map<string, string>)
    requires name != [] && payload != map[]
    ensures var stored := PutDecision(resource, config, name, doc, payload).document;
            GetOutcome(resource, name, stored) == Returned([], RestResponse(OK, SettingsJson(Prepend(payload, name + "."))))
            && StripPrefix(WithPrefix(stored, name + "."), name + ".") == payload
            && DeleteDecision(resource, config, name, stored).document == WithoutPrefix(doc, name + ".")
  {
    var p := name + ".";
    var stored := PutDecision(resource, config, name, doc, payload).document;
    PrependRoundTrip(payload, p);
    var k :| k in payload;
    assert p + k in Prepend(payload, p);
    assert WithPrefix(stored, p) != map[];
  }

  /** A second identical PUT leaves the document as the first one left it, and answers as an
      update. */
  lemma {:induction false} PutIdempotent(resource: string, config: string, name: string,
                                         doc: map<string, string>, payload: map<string, string>)
    requires name != [] && payload != map[]
    ensures var once := PutDecision(resource, config, name, doc, payload).document;
            var twice := PutDecision(resource, config, name, once, payload);
            twice.document == once && twice.outcome == SuccessResponse(resource + " " + name + " updated.", [config])
  {
    var p := name + ".";
    var once := PutDecision(resource, config, name, doc, payload).document;
    var k :| k in payload;
    assert p + k in Prepend(payload, p);
    assert p + k in WithPrefix(once, p);
    PrefixSplit(once, p);
  }

  // ---------------------------------------------------------------------------------------
  // The generic handlers

  /** `handleDelete`. */
  method HandleDelete(index: ConfigIndex, resource: string, config: string, name: string) returns (o: Outcome)
    modifies index`documents
    ensures var d := DeleteDecision(resource, config, name, old(index.Load(config)));
            index.documents == old(index.After(config, d)) && o == Completed(d, index.onSave, config)
  {
    if name == [] {
      return BadRequestResponse("No " + resource + " specified");
    }
    var existing := new Builder(index.Load(config));
    var removedEntries := RemoveKeysStartingWith(existing, name + ".");
    var modified := removedEntries != map[];
    if modified {
      var error := index.Save(config, existing.settings);
      if error.Some? {
        return Thrown(error.value);
      }
      return SuccessResponse(resource + " " + name + " deleted.", [config]);
    } else {
      return NotFound(resource + " " + name + " not found.");
    }
  }

  /** The steps every replacing PUT shares: load the configuration, delete the entries under
      the prefix, put the prefixed entries in, and save. Reports whether anything was deleted
      and the exception the save raised. */
  method ReplaceAndSave(index: ConfigIndex, config: string, prefix: string, entries: map<string, string>)
    returns (existed: bool, error: Option<string>)
    requires prefix != []
    modifies index`documents
    ensures existed == (WithPrefix(old(index.Load(config)), prefix) != map[])
    ensures index.documents == old(index.Written(config, Replaced(index.Load(config), prefix, entries)))
    ensures error == SaveException(index.onSave, config)
  {
    ghost var doc := index.Load(config);
    var existing := new Builder(index.Load(config));
    var removedEntries := RemoveKeysStartingWith(existing, prefix);
    existed := removedEntries != map[];
    var prefixed := PrependValueToEachKey(entries, prefix);
    existing.PutAll(prefixed);
    assert existing.settings == Replaced(doc, prefix, entries);
    error := index.Save(config, existing.settings);
  }

  /** `handlePut`. */
  method HandlePut(index: ConfigIndex, resource: string, config: string, name: string,
                   payload: map<string, string>) returns (o: Outcome)
    modifies index`documents
    ensures var d := PutDecision(resource, config, name, old(index.Load(config)), payload);
            index.documents == old(index.After(config, d)) && o == Completed(d, index.onSave, config)
  {
    if name == [] {
      return BadRequestResponse("No " + resource + " specified");
    }
    var existed, error := ReplaceAndSave(index, config, name + ".", payload);
    if error.Some? {
      return Thrown(error.value);
    }
    if existed {
      return SuccessResponse(resource + " " + name + " updated.", [config]);
    } else {
      return CreatedResponse(resource + " " + name + " created.", [config]);
    }
  }

  /** `handleGet`: reads the index and changes nothing. */
  method HandleGet(index: ConfigIndex, resource: string, config: string, name: string) returns (o: Outcome)
    ensures o == GetOutcome(resource, name, index.Load(config))
  {
    if name == [] {
      return BadRequestResponse("No " + resource + " specified.");
    }
    var configuration := index.Load(config);
    var requestedConfiguration := CopyKeysStartingWith(configuration, name + ".");
    if |requestedConfiguration| == 0 {
      return NotFound("Resource '" + name + "' not found.");
    }
    return Returned([], RestResponse(OK, SettingsJson(requestedConfiguration)));
  }

  /** `handlePost`: the generic resource does not implement POST. */
  function HandlePost(): (o: Outcome)
    ensures o.Returned? && o.configs == [] && o.response.status == NOT_IMPLEMENTED
    ensures o.response.content.StatusMessage? && o.response.content.message == "Method " + "POST" + " not supported for this action."
  {
    NotImplemented(POST)
  }
}
