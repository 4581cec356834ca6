/** The user action of the current generation: its PUT hashes a plain-text password before
    the user's whole entry in the internal users configuration is replaced. The hash function
    (a salted bcrypt in the source) is a parameter. */
module UserApi {
  import opened Common
  import opened Settings
  import opened Responses
  import opened ApiAction

  const INTERNAL_USERS := "internalusers"

  /** The payload once a non-empty password has been swapped for its hash; a missing or
      empty password leaves the payload as it is. */
  function WithHashedPassword(payload: map<string, string>, hash: string -> string): (r: map<string, string>)
    ensures "password" in payload && payload["password"] != [] ==>
              r.Keys == payload.Keys - {"password"} + {"hash"} && r["hash"] == hash(payload["password"])
    ensures forall k :: k in payload && k !in {"password", "hash"} ==> k in r && r[k] == payload[k]
    ensures !("password" in payload && payload["password"] != []) ==> r == payload
  {
    if "password" in payload && payload["password"] != [] then
      (payload - {"password"})["hash" := hash(payload["password"])]
    else payload
  }

  /** Hashing is idempotent on the payload: once the password is gone, a second pass
      changes nothing. */
  lemma HashingOnce(payload: map<string, string>, hash: string -> string)
    ensures "password" in payload && payload["password"] != [] ==>
              WithHashedPassword(WithHashedPassword(payload, hash), hash) == WithHashedPassword(payload, hash)
  {
  }

  /** The password precedence rule as the handlers carry it out on the request's settings
      builder. */
  method HashPassword(b: Builder, hash: string -> string)
    modifies b
    ensures b.settings == WithHashedPassword(old(b.settings), hash)
  {
    var plainTextPassword := b.Get("password");
    if plainTextPassword.Some? && |plainTextPassword.value| > 0 {
      b.Remove("password");
      b.Put("hash", hash(plainTextPassword.value));
    }
  }

  /** What the user PUT decides: no name is a bad request; otherwise the user's entry becomes
      the hashed payload, answered as an update when the user had entries and as a creation
      otherwise. */
  function PutDecision(name: string, doc: map<string, string>, payload: map<string, string>,
                       hash: string -> string): (d: Decision)
    ensures name == [] ==> d == Answer(BadRequestResponse("No name given"))
    ensures name != [] ==> d.Write? && d.outcome.Returned? && d.outcome.configs == [INTERNAL_USERS]
    ensures name != [] ==> (d.outcome == SuccessResponse("User " + name + " updated", [INTERNAL_USERS])
                            <==> WithPrefix(doc, name + ".") != map[])
    ensures name != [] && WithPrefix(doc, name + ".") == map[] ==>
              d.outcome == CreatedResponse("User " + name + " created", [INTERNAL_USERS])
  {
    if name == [] then Answer(BadRequestResponse("No name given"))
    else
      var entries := WithHashedPassword(payload, hash);
      var userExisted := WithPrefix(doc, name + ".") != map[];
      Write(Replaced(doc, name + ".", entries),
            if userExisted then SuccessResponse("User " + name + " updated", [INTERNAL_USERS])
            else CreatedResponse("User " + name + " created", [INTERNAL_USERS]))
  }

  /** The user PUT stores what the generic PUT would store for the hashed payload: the user's
      entry is exactly the hashed payload, every other entry is untouched, and a non-empty
      password never reaches the stored document in clear. */
  lemma PutStoresHashedEntry(name: string, doc: map<string, string>, payload: map<string, string>,
                             hash: string -> string)
    requires name != []
    ensures var d := PutDecision(name, doc, payload, hash);
            var entries := WithHashedPassword(payload, hash);
            d.document == ApiAction.PutDecision("user", INTERNAL_USERS, name, doc, entries).document
            && WithPrefix(d.document, name + ".") == Prepend(entries, name + ".")
            && WithoutPrefix(d.document, name + ".") == WithoutPrefix(doc, name + ".")
            && ("password" in payload && payload["password"] != [] ==>
                  name + ".password" !in d.document && name + ".hash" in d.document &&
                  d.document[name + ".hash"] == hash(payload["password"]))
  {
    var entries := WithHashedPassword(payload, hash);
    assert name + ".hash" == (name + ".") + "hash" && name + ".password" == (name + ".") + "password";
    ReplacedEntry(doc, name + ".", entries, "hash");
    ReplacedEntry(doc, name + ".", entries, "password");
  }

  /** `handlePut` of the user action. */
  method HandlePut(index: ConfigIndex, name: string, payload: map<string, string>,
                   hash: string -> string) returns (o: Outcome)
    modifies index`documents
    ensures var d := PutDecision(name, old(index.Load(INTERNAL_USERS)), payload, hash);
            index.documents == old(index.After(INTERNAL_USERS, d)) && o == Completed(d, index.onSave, INTERNAL_USERS)
  {
    if name == [] {
      return BadRequestResponse("No name given");
    }
    var additionalSettingsBuilder := new Builder(payload);
    HashPassword(additionalSettingsBuilder, hash);
    var additionalSettings := additionalSettingsBuilder.settings;
    ghost var d := PutDecision(name, index.Load(INTERNAL_USERS), payload, hash);
    assert d.Write? && d.document == Replaced(index.Load(INTERNAL_USERS), name + ".", additionalSettings);
    var userExisted, error := ReplaceAndSave(index, INTERNAL_USERS, name + ".", additionalSettings);
    if error.Some? {
      return Thrown(error.value);
    }
    if userExisted {
      return SuccessResponse("User " + name + " updated", [INTERNAL_USERS]);
    } else {
      return CreatedResponse("User " + name + " created", [INTERNAL_USERS]);
    }
  }
}
