/** The internal users action of the current generation. Its PUT refuses a read-only user,
    hashes a plain-text password, insists on a hash for a new user and keeps the stored hash
    of an existing one, then stores the payload under "name." beside the other users.

    The handler works on the structured form of the users document, whose top-level keys are
    the user names. Here that structured map is represented by the flat entries it stands
    for: removing the user's top-level entry keeps the flat entries whose first segment is
    another name, and its top-level keys are the first segments of what is left. */
module InternalUsersApi {
  import opened Common
  import opened Settings
  import opened Responses
  import opened ApiAction
  import opened UserApi

  const READONLY_KEY := "readonly"
  const MISSING_HASH_MESSAGE := "Please specify either 'hash' or 'password' when creating a new internal user"

  function NoPasswordMessage(name: string): string
  {
    "Existing user " + name + " has no password, and no new password or hash was specified"
  }

  /** The user is marked read-only by a "name.readonly" entry that reads as true. */
  predicate ReadOnly(doc: map<string, string>, name: string)
  {
    name + "." + READONLY_KEY in doc && doc[name + "." + READONLY_KEY] == "true"
  }

  /** The structured document with the user's own top-level entry filtered out. */
  function OtherUsers(doc: map<string, string>, name: string): (r: map<string, string>)
    ensures forall k :: k in r <==> k in doc && FirstSegment(k) != name
    ensures forall k :: k in r ==> r[k] == doc[k]
  {
    map k | k in doc && FirstSegment(k) != name :: doc[k]
  }

  /** The structured map has only undotted top-level keys, so looking up "name.hash" in it
      never finds anything. */
  lemma StructuredLookupMisses(doc: map<string, string>, name: string)
    ensures name + ".hash" !in Names(OtherUsers(doc, name))
  {
    assert (name + ".hash")[|name|] == '.';
  }

  /** The response of a PUT that stored the user. */
  function StoredResponse(name: string, existed: bool): Outcome
  {
    if existed then SuccessResponse("'" + name + "' updated", [INTERNAL_USERS])
    else CreatedResponse("'" + name + "' created", [INTERNAL_USERS])
  }

  /** The PUT as the source decides it, on the payload after the password rule. The user
      counts as existing when any other user remains, and for an existing user without a
      new hash the lookup of the stored hash never hits (StructuredLookupMisses), so that
      case always ends in a 500. */
  function PutDecisionAsWritten(name: string, doc: map<string, string>, entries: map<string, string>): (d: Decision)
    ensures d.Write? ==> "hash" in entries && d.document == OtherUsers(doc, name) + Prepend(entries, name + ".")
    ensures d.Write? ==> d.outcome == StoredResponse(name, OtherUsers(doc, name) != map[])
    ensures name != [] && !ReadOnly(doc, name) && "hash" !in entries ==> d.Answer?
  {
    if name == [] then Answer(BadRequestResponse("No user specified"))
    else if ReadOnly(doc, name) then Answer(ForbiddenResponse("Resource '" + name + "' is read-only."))
    else
      var con := OtherUsers(doc, name);
      var userExisted := con != map[];
      if !userExisted && "hash" !in entries then Answer(BadRequestResponse(MISSING_HASH_MESSAGE))
      else if userExisted && "hash" !in entries then Answer(InternalErrorResponse(NoPasswordMessage(name)))
      else Write(con + Prepend(entries, name + "."), StoredResponse(name, userExisted))
  }

  /** The entries to store for the user, once the hash rules are applied as intended: a new
      user must bring a hash, an existing user without one keeps the stored hash, and an
      existing user with no stored hash is an error. */
  function EntriesToStore(name: string, doc: map<string, string>, entries: map<string, string>): (r: Option<map<string, string>>)
    ensures "hash" in entries ==> r == Some(entries)
    ensures r.Some? ==> "hash" in r.value
    ensures r.Some? ==> forall k :: k in entries ==> k in r.value && r.value[k] == entries[k]
    ensures "hash" !in entries && name + ".hash" in doc ==> r == Some(entries["hash" := doc[name + ".hash"]])
    ensures r.None? <==> "hash" !in entries && name + ".hash" !in doc
  {
    if "hash" in entries then Some(entries)
    else if name + ".hash" in doc then Some(entries["hash" := doc[name + ".hash"]])
    else None
  }

  /** The PUT as intended, on the payload after the password rule: the user exists when the
      document has an entry for the name, and the stored hash is read from the document. */
  function PutDecision(name: string, doc: map<string, string>, entries: map<string, string>): (d: Decision)
    ensures name == [] ==> d == Answer(BadRequestResponse("No user specified"))
    ensures name != [] && ReadOnly(doc, name) ==> d == Answer(ForbiddenResponse("Resource '" + name + "' is read-only."))
    ensures name != [] && !ReadOnly(doc, name) && name !in Names(doc) && "hash" !in entries ==>
              d == Answer(BadRequestResponse(MISSING_HASH_MESSAGE))
    ensures d.Write? ==> var stored := EntriesToStore(name, doc, entries);
              stored.Some? && d.document == OtherUsers(doc, name) + Prepend(stored.value, name + ".")
              && d.outcome == StoredResponse(name, name in Names(doc))
  {
    if name == [] then Answer(BadRequestResponse("No user specified"))
    else if ReadOnly(doc, name) then Answer(ForbiddenResponse("Resource '" + name + "' is read-only."))
    else
      var userExisted := name in Names(doc);
      if !userExisted && "hash" !in entries then Answer(BadRequestResponse(MISSING_HASH_MESSAGE))
      else match EntriesToStore(name, doc, entries)
        case None => Answer(InternalErrorResponse(NoPasswordMessage(name)))
        case Some(stored) => Write(OtherUsers(doc, name) + Prepend(stored, name + "."), StoredResponse(name, userExisted))
  }

  /** A stored PUT: every other user keeps its entries, the user's entries are exactly the
      entries to store, and the user has a hash. */
  lemma {:induction false} PutKeepsOthersAndStoresHash(name: string, doc: map<string, string>, entries: map<string, string>)
    requires '.' !in name && PutDecision(name, doc, entries).Write?
    ensures var d := PutDecision(name, doc, entries);
            var stored := EntriesToStore(name, doc, entries).value;
            (forall k :: k in doc && FirstSegment(k) != name ==> k in d.document && d.document[k] == doc[k])
            && WithPrefix(d.document, name + ".") == Prepend(stored, name + ".")
            && name + ".hash" in d.document
  {
    var d := PutDecision(name, doc, entries);
    var stored := EntriesToStore(name, doc, entries).value;
    var p := name + ".";
    var con := OtherUsers(doc, name);
    forall k | k in con ensures !(p <= k) {
      DottedPrefixIsFirstSegment(name, k);
    }
    forall k | k in doc && FirstSegment(k) != name ensures k in d.document && d.document[k] == doc[k] {
      DottedPrefixIsFirstSegment(name, k);
      assert !(p <= k);
    }
    assert WithPrefix(d.document, p) == Prepend(stored, p);
    assert name + ".hash" == p + "hash";
    assert p + "hash" in Prepend(stored, p);
  }

  /** The read-only key of a user is not its hash key. */
  lemma ReadOnlyKeyIsNotHashKey(name: string)
    ensures name + "." + READONLY_KEY != name + ".hash"
  {
    assert (name + "." + READONLY_KEY)[|name| + 1] == 'r';
    assert (name + ".hash")[|name| + 1] == 'h';
  }

  /** A user who is the only one in the document is treated as new by the source, so a PUT
      that brings no hash is refused, where the intended decision keeps the stored hash and
      answers with an update. */
  lemma AsWrittenTakesSoleUserForNew(name: string, h: string, entries: map<string, string>)
    requires name != [] && '.' !in name && "hash" !in entries
    ensures var doc := map[name + ".hash" := h];
            PutDecisionAsWritten(name, doc, entries) == Answer(BadRequestResponse(MISSING_HASH_MESSAGE))
            && PutDecision(name, doc, entries).Write?
            && PutDecision(name, doc, entries).outcome == StoredResponse(name, true)
  {
    var doc := map[name + ".hash" := h];
    DottedPrefixIsFirstSegment(name, name + ".hash");
    ReadOnlyKeyIsNotHashKey(name);
    assert OtherUsers(doc, name) == map[];
    assert name in Names(doc);
  }

  /** The read-only key of a user is not another user's hash key. */
  lemma ReadOnlyKeyIsNotOthersHashKey(name: string, other: string)
    requires '.' !in name && '.' !in other && other != name
    ensures name + "." + READONLY_KEY != other + ".hash"
  {
    assert name + "." <= name + "." + READONLY_KEY;
    DottedPrefixIsFirstSegment(name, other + ".hash");
    DottedPrefixIsFirstSegment(other, other + ".hash");
  }

  /** In a document holding the user and another one, the user's read-only key is absent,
      the other user survives the filtering, and the user has a name and a stored hash. */
  lemma TwoUsersFacts(name: string, h: string, other: string, h2: string)
    requires name != [] && '.' !in name && '.' !in other && other != name
    ensures var doc := map[name + ".hash" := h, other + ".hash" := h2];
            !ReadOnly(doc, name) && OtherUsers(doc, name) != map[] && name in Names(doc) && name + ".hash" in doc
  {
    var doc := map[name + ".hash" := h, other + ".hash" := h2];
    assert !ReadOnly(doc, name) by {
      ReadOnlyKeyIsNotHashKey(name);
      ReadOnlyKeyIsNotOthersHashKey(name, other);
    }
    assert OtherUsers(doc, name) != map[] by {
      DottedPrefixIsFirstSegment(other, other + ".hash");
      assert other + ".hash" in OtherUsers(doc, name);
    }
    assert name in Names(doc) by {
      DottedPrefixIsFirstSegment(name, name + ".hash");
      assert FirstSegment(name + ".hash") in Names(doc);
    }
  }

  /** A user among others always ends in a 500 in the source when the PUT brings no hash,
      where the intended decision keeps the stored hash. */
  lemma AsWrittenLosesStoredHash(name: string, h: string, other: string, h2: string, entries: map<string, string>)
    requires name != [] && '.' !in name && '.' !in other && other != name && "hash" !in entries
    ensures var doc := map[name + ".hash" := h, other + ".hash" := h2];
            PutDecisionAsWritten(name, doc, entries) == Answer(InternalErrorResponse(NoPasswordMessage(name)))
            && PutDecision(name, doc, entries).Write?
  {
    TwoUsersFacts(name, h, other, h2);
  }

  /** The smallest instance: alice alone, then alice beside bob, sending only a role. */
  lemma AliceWithoutHash()
    ensures PutDecisionAsWritten("alice", map["alice.hash" := "h1"], map["roles.0" := "admin"])
              == Answer(BadRequestResponse(MISSING_HASH_MESSAGE))
    ensures PutDecision("alice", map["alice.hash" := "h1"], map["roles.0" := "admin"]).Write?
    ensures PutDecisionAsWritten("alice", map["alice.hash" := "h1", "bob.hash" := "h2"], map["roles.0" := "admin"])
              == Answer(InternalErrorResponse(NoPasswordMessage("alice")))
    ensures PutDecision("alice", map["alice.hash" := "h1", "bob.hash" := "h2"], map["roles.0" := "admin"]).Write?
  {
    assert "alice.hash" == "alice" + ".hash" && "bob.hash" == "bob" + ".hash";
    AsWrittenTakesSoleUserForNew("alice", "h1", map["roles.0" := "admin"]);
    AsWrittenLosesStoredHash("alice", "h1", "bob", "h2", map["roles.0" := "admin"]);
  }

  /** One turn of the loop below: putting one more payload key under the prefix. */
  lemma PutStep(prefix: string, entries: map<string, string>, keys: set<string>, k: string)
    requires k in keys && keys <= entries.Keys
    ensures Prepend(entries - keys, prefix)[prefix + k := entries[k]] == Prepend(entries - (keys - {k}), prefix)
  {
    assert entries - (keys - {k}) == (entries - keys)[k := entries[k]];
    PrependInsert(entries - keys, prefix, k, entries[k]);
  }

  /** The source's `con` loop: every payload key is put into the structured map under
      "name." + key. */
  method PutUnder(con: map<string, string>, prefix: string, entries: map<string, string>) returns (r: map<string, string>)
    ensures r == con + Prepend(entries, prefix)
  {
    r := con;
    var keys := entries.Keys;
    ghost var added: map<string, string> := map[];
    assert entries - keys == map[];
    while keys != {}
      invariant keys <= entries.Keys
      invariant added == Prepend(entries - keys, prefix)
      invariant r == con + added
      decreases |keys|
    {
      var k :| k in keys;
      PutStep(prefix, entries, keys, k);
      MergeUpdate(con, added, prefix + k, entries[k]);
      r := r[prefix + k := entries[k]];
      added := added[prefix + k := entries[k]];
      keys := keys - {k};
    }
    assert entries - keys == entries;
  }

  /** `handlePut` of the internal users action, with the existence test and the stored-hash
      lookup as intended. */
  method HandlePut(index: ConfigIndex, name: string, payload: map<string, string>,
                   hash: string -> string) returns (o: Outcome)
    modifies index`documents
    ensures var d := PutDecision(name, old(index.Load(INTERNAL_USERS)), WithHashedPassword(payload, hash));
            index.documents == old(index.After(INTERNAL_USERS, d)) && o == Completed(d, index.onSave, INTERNAL_USERS)
  {
    ghost var d := PutDecision(name, index.Load(INTERNAL_USERS), WithHashedPassword(payload, hash));
    if name == [] {
      return BadRequestResponse("No user specified");
    }
    var configurationSettings := index.Load(INTERNAL_USERS);
    if name + "." + READONLY_KEY in configurationSettings && configurationSettings[name + "." + READONLY_KEY] == "true" {
      assert d == Answer(ForbiddenResponse("Resource '" + name + "' is read-only."));
      return ForbiddenResponse("Resource '" + name + "' is read-only.");
    }
    var additionalSettingsBuilder := new Builder(payload);
    HashPassword(additionalSettingsBuilder, hash);

    var internaluser := configurationSettings;
    var con := OtherUsers(internaluser, name);
    var userExisted := name in Names(internaluser);

    if !userExisted && additionalSettingsBuilder.Get("hash").None? {
      assert d == Answer(BadRequestResponse(MISSING_HASH_MESSAGE));
      return BadRequestResponse(MISSING_HASH_MESSAGE);
    }
    if userExisted && additionalSettingsBuilder.Get("hash").None? {
      if name + ".hash" !in internaluser {
        assert d == Answer(InternalErrorResponse(NoPasswordMessage(name)));
        return InternalErrorResponse(NoPasswordMessage(name));
      }
      additionalSettingsBuilder.Put("hash", internaluser[name + ".hash"]);
    }
    assert EntriesToStore(name, internaluser, WithHashedPassword(payload, hash)) == Some(additionalSettingsBuilder.settings);
    con := PutUnder(con, name + ".", additionalSettingsBuilder.settings);
    assert d == Write(con, StoredResponse(name, userExisted));
    var error := index.Save(INTERNAL_USERS, con);
    if error.Some? {
      return Thrown(error.value);
    }
    return StoredResponse(name, userExisted);
  }
}
