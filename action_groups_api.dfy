/** The action groups action of the current generation. Its GET and DELETE are the generic
    ones on resource "actiongroup" and configuration "actiongroups"; its PUT drops the
    "permissions" wrapper from the payload's keys and stores what is left straight after the
    group's name. */
module ActionGroupsApi {
  import opened Common
  import opened Settings
  import opened Responses
  import opened ApiAction

  const ACTION_GROUP := "actiongroup"
  const ACTION_GROUPS := "actiongroups"
  const PERMISSIONS := "permissions"

  /** What the PUT decides, given the payload once "permissions" has been removed from its
      keys: every entry under "name." goes, and the renamed payload is put after the bare
      name (the renamed keys keep the dot that followed "permissions"). */
  function PutDecision(name: string, doc: map<string, string>, renamed: map<string, string>): (d: Decision)
    ensures name == [] ==> d == Answer(BadRequestResponse("No " + ACTION_GROUP + " specified"))
    ensures name != [] ==> d.Write? && d.outcome.Returned? && d.outcome.configs == [ACTION_GROUPS]
    ensures name != [] ==> forall x :: x in renamed ==> name + x in d.document && d.document[name + x] == renamed[x]
    ensures name != [] ==> forall k :: k in d.document ==>
              (k in doc && !(name + "." <= k) && d.document[k] == doc[k]) || (name <= k && k[|name|..] in renamed)
    ensures name != [] && WithPrefix(doc, name + ".") != map[] ==>
              d.outcome == SuccessResponse(ACTION_GROUP + " " + name + " replaced.", [ACTION_GROUPS])
    ensures name != [] && WithPrefix(doc, name + ".") == map[] ==>
              d.outcome == CreatedResponse(ACTION_GROUP + " " + name + " created.", [ACTION_GROUPS])
  {
    if name == [] then Answer(BadRequestResponse("No " + ACTION_GROUP + " specified"))
    else
      var existed := WithPrefix(doc, name + ".") != map[];
      Write(WithoutPrefix(doc, name + ".") + Prepend(renamed, name),
            if existed then SuccessResponse(ACTION_GROUP + " " + name + " replaced.", [ACTION_GROUPS])
            else CreatedResponse(ACTION_GROUP + " " + name + " created.", [ACTION_GROUPS]))
  }

  /** A payload key "permissions" + rest, where rest holds no further "permissions", is
      stored as name + rest; its value is the payload's own unless another payload key
      renames to the same rest. */
  lemma PermissionsRewritten(name: string, doc: map<string, string>, payload: map<string, string>,
                             renamed: map<string, string>, rest: string)
    requires name != []
    requires renamed.Keys == KeysWithout(payload, PERMISSIONS) && RenamedFrom(renamed, payload, PERMISSIONS)
    requires PERMISSIONS + rest in payload
    requires forall i :: 0 <= i <= |rest| ==> !(PERMISSIONS <= rest[i..])
    ensures var d := PutDecision(name, doc, renamed);
            name + rest in d.document
            && ((forall j :: j in payload && j != PERMISSIONS + rest ==> RemoveAll(j, PERMISSIONS) != rest) ==>
                  d.document[name + rest] == payload[PERMISSIONS + rest])
  {
    RemoveAllLeading(PERMISSIONS, rest);
    assert RemoveAll(PERMISSIONS + rest, PERMISSIONS) in KeysWithout(payload, PERMISSIONS);
    assert rest in renamed;
  }

  /** The payload as the PUT stores it: "permissions" removed from every key, then the
      group's name put in front. */
  method GroupEntries(payload: map<string, string>, name: string)
    returns (newSettings: map<string, string>, renamed: map<string, string>)
    ensures renamed.Keys == KeysWithout(payload, PERMISSIONS) && RenamedFrom(renamed, payload, PERMISSIONS)
    ensures newSettings == Prepend(renamed, name)
  {
    newSettings := RemoveLeadingValueFromEachKey(payload, PERMISSIONS);
    renamed := newSettings;
    newSettings := PrependValueToEachKey(newSettings, name);
  }

  /** `handlePut` of the action groups action. The renaming of the payload's keys is
      reported as the ghost `renamed`, the map the decision is taken on. */
  method HandlePut(index: ConfigIndex, name: string, payload: map<string, string>)
    returns (o: Outcome, ghost renamed: map<string, string>)
    modifies index`documents
    ensures name != [] ==> renamed.Keys == KeysWithout(payload, PERMISSIONS) && RenamedFrom(renamed, payload, PERMISSIONS)
    ensures var d := PutDecision(name, old(index.Load(ACTION_GROUPS)), renamed);
            index.documents == old(index.After(ACTION_GROUPS, d)) && o == Completed(d, index.onSave, ACTION_GROUPS)
  {
    renamed := map[];
    if name == [] {
      return BadRequestResponse("No " + ACTION_GROUP + " specified"), renamed;
    }
    ghost var doc := index.Load(ACTION_GROUPS);
    var existing := new Builder(index.Load(ACTION_GROUPS));
    var removedEntries := RemoveKeysStartingWith(existing, name + ".");
    var existed := removedEntries != map[];
    var newSettings;
    newSettings, renamed := GroupEntries(payload, name);
    existing.PutAll(newSettings);
    ghost var d := PutDecision(name, doc, renamed);
    assert d.Write? && d.document == existing.settings;
    var error := index.Save(ACTION_GROUPS, existing.settings);
    if error.Some? {
      return Thrown(error.value), renamed;
    }
    if existed {
      return SuccessResponse(ACTION_GROUP + " " + name + " replaced.", [ACTION_GROUPS]), renamed;
    } else {
      return CreatedResponse(ACTION_GROUP + " " + name + " created.", [ACTION_GROUPS]), renamed;
    }
  }
}
