/** The configuration GET of the current generation: it returns a whole configuration
    document by name, with every internal user's password hash replaced by an empty string.
    The hashes are blanked rather than removed so that a user with no other entry still
    shows up in the answer. */
module GetConfigurationApi {
  import opened Common
  import opened Settings
  import opened Responses
  import opened ApiAction

  const INTERNAL_USERS := "internalusers"

  /** The groups of a document, as the settings library reports them: the first segments of
      the keys that go on past a dot. */
  function GroupNames(m: map<string, string>): (r: set<string>)
    ensures forall g :: g in r ==> '.' !in g
    ensures r <= Names(m)
  {
    set k | k in m && |FirstSegment(k)| < |k| :: FirstSegment(k)
  }

  /** The hash key of each of the groups. */
  function HashKeys(groups: set<string>): set<string>
  {
    set g | g in groups :: g + ".hash"
  }

  /** An empty hash for each of the groups. */
  function BlankHashes(groups: set<string>): (r: map<string, string>)
    ensures r.Keys == HashKeys(groups)
    ensures forall k :: k in r ==> r[k] == ""
  {
    map k | k in HashKeys(groups) :: ""
  }

  /** The document once every group's "hash" entry is set to the empty string. */
  function HashesBlanked(m: map<string, string>): map<string, string>
  {
    m + BlankHashes(GroupNames(m))
  }

  /** A group's hash key belongs to that group. */
  lemma HashKeyOfGroup(g: string)
    requires '.' !in g
    ensures FirstSegment(g + ".hash") == g && |g| < |g + ".hash"|
  {
    DottedPrefixIsFirstSegment(g, g + ".hash");
  }

  /** Blanking the hashes keeps every user: no top-level name and no group is added or
      lost, every entry that is not a group's hash keeps its value, and every group's hash
      is the empty string. */
  lemma {:induction false} BlankingKeepsUsers(m: map<string, string>)
    ensures var r := HashesBlanked(m);
            Names(r) == Names(m) && GroupNames(r) == GroupNames(m)
            && r.Keys == m.Keys + HashKeys(GroupNames(m))
            && (forall k :: k in m && k !in HashKeys(GroupNames(m)) ==> r[k] == m[k])
            && (forall g :: g in GroupNames(m) ==> g + ".hash" in r && r[g + ".hash"] == "")
  {
    var r := HashesBlanked(m);
    var groups := GroupNames(m);
    forall k | k in BlankHashes(groups)
      ensures FirstSegment(k) in groups && |FirstSegment(k)| < |k|
    {
      var g :| g in groups && k == g + ".hash";
      HashKeyOfGroup(g);
    }
    forall x | x in Names(r) ensures x in Names(m) {
      var k :| k in r && FirstSegment(k) == x;
      if k !in m {
        var g :| g in groups && k == g + ".hash";
        var j :| j in m && |FirstSegment(j)| < |j| && FirstSegment(j) == g;
      }
    }
    forall x | x in GroupNames(r) ensures x in groups {
      var k :| k in r && |FirstSegment(k)| < |k| && FirstSegment(k) == x;
    }
    forall g | g in groups ensures g + ".hash" in r && r[g + ".hash"] == "" {
      assert g + ".hash" in HashKeys(groups);
    }
  }

  /** The internal users document as the GET returns it: no stored hash is revealed, and
      nothing else changes. */
  lemma {:induction false} NoHashRevealed(m: map<string, string>)
    ensures var r := HashesBlanked(m);
            (forall k :: k in r && |FirstSegment(k)| < |k| && k == FirstSegment(k) + ".hash" ==> r[k] == "")
            && (forall k :: k in m && !(|FirstSegment(k)| < |k| && k == FirstSegment(k) + ".hash") ==> k in r && r[k] == m[k])
  {
    var r := HashesBlanked(m);
    var groups := GroupNames(m);
    BlankingKeepsUsers(m);
    forall k | k in r && |FirstSegment(k)| < |k| && k == FirstSegment(k) + ".hash" ensures r[k] == "" {
      assert FirstSegment(k) in GroupNames(r);
    }
    forall k | k in m && !(|FirstSegment(k)| < |k| && k == FirstSegment(k) + ".hash") ensures k in r && r[k] == m[k] {
      if k in HashKeys(groups) {
        var g :| g in groups && k == g + ".hash";
        HashKeyOfGroup(g);
      }
    }
  }

  /** One turn of the loop below: one more group's hash is blanked. */
  lemma BlankStep(done: set<string>, g: string)
    ensures BlankHashes(done)[g + ".hash" := ""] == BlankHashes(done + {g})
  {
    var l := BlankHashes(done)[g + ".hash" := ""];
    var r := BlankHashes(done + {g});
    assert g + ".hash" in HashKeys(done + {g});
    forall k | k in HashKeys(done + {g}) ensures k in l.Keys {
      var h :| h in done + {g} && k == h + ".hash";
      if h != g {
        assert k in HashKeys(done);
      }
    }
    forall k | k in l.Keys ensures k in r.Keys {
      if k in BlankHashes(done) {
        var h :| h in done && k == h + ".hash";
        assert k in HashKeys(done + {g});
      }
    }
  }

  /** `filterHashes`: a hash entry, empty, is put for every group of the builder's document. */
  method FilterHashes(b: Builder)
    modifies b
    ensures b.settings == HashesBlanked(old(b.settings))
  {
    ghost var original := b.settings;
    var entries := GroupNames(b.settings);
    ghost var blanked: map<string, string> := map[];
    assert BlankHashes({}) == map[];
    var keys := entries;
    while keys != {}
      invariant keys <= entries
      invariant blanked == BlankHashes(entries - keys)
      invariant b.settings == original + blanked
      decreases |keys|
    {
      var key :| key in keys;
      BlankStep(entries - keys, key);
      assert (entries - keys) + {key} == entries - (keys - {key});
      MergeUpdate(original, blanked, key + ".hash", "");
      b.Put(key + ".hash", "");
      blanked := blanked[key + ".hash" := ""];
      keys := keys - {key};
    }
    assert entries - keys == entries;
  }

  /** What the configuration GET returns for the document stored under `configname`:
      internal users lose their hashes, every other configuration is returned as
      stored. */
  function Filtered(configname: string, doc: map<string, string>): map<string, string>
  {
    if configname == INTERNAL_USERS then HashesBlanked(doc) else doc
  }

  /** `handleGet`: a name that is empty or not among the known configurations is a bad
      request listing them; otherwise the filtered document, with no reload. */
  function GetOutcome(configNames: seq<string>, configname: string, doc: map<string, string>): (o: Outcome)
    ensures configname == [] || configname !in configNames ==>
              o == BadRequestResponse("No configuration name given, must be one of " + Join(configNames, ","))
    ensures configname != [] && configname in configNames ==>
              o.Returned? && o.configs == [] && o.response.status == OK && o.response.content.SettingsJson?
    ensures configname != [] && configname in configNames && configname != INTERNAL_USERS ==>
              o.response.content == SettingsJson(doc)
  {
    if configname == [] || configname !in configNames then
      BadRequestResponse("No configuration name given, must be one of " + Join(configNames, ","))
    else
      Returned([], RestResponse(OK, SettingsJson(Filtered(configname, doc))))
  }

  /** A successful GET of the internal users shows every user and no stored hash. */
  lemma GetHidesHashes(configNames: seq<string>, doc: map<string, string>)
    requires INTERNAL_USERS in configNames
    ensures var o := GetOutcome(configNames, INTERNAL_USERS, doc);
            var shown := o.response.content.entries;
            Names(shown) == Names(doc)
            && (forall k :: k in shown && |FirstSegment(k)| < |k| && k == FirstSegment(k) + ".hash" ==> shown[k] == "")
  {
    BlankingKeepsUsers(doc);
    NoHashRevealed(doc);
  }

  /** `handleGet` of the configuration action, loading the document from the index. */
  method HandleGet(index: ConfigIndex, configNames: seq<string>, configname: string) returns (o: Outcome)
    ensures o == GetOutcome(configNames, configname, index.Load(configname))
  {
    if configname == [] || configname !in configNames {
      return BadRequestResponse("No configuration name given, must be one of " + Join(configNames, ","));
    }
    var configBuilder := new Builder(index.Load(configname));
    if configname == INTERNAL_USERS {
      FilterHashes(configBuilder);
    }
    return Returned([], RestResponse(OK, SettingsJson(configBuilder.settings)));
  }
}
