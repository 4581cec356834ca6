# Search Guard REST management API — a Dafny model

This project models the core of the Search Guard REST management API. It is the Elasticsearch plugin
endpoint through which an administrator reads and changes the security configuration:
- internal users;
- roles mappings;
- action groups;
- whole configuration documents.

Every configuration is kept as a flat settings document, a map from dotted keys
(`alice.hash`, `alice.roles.0`) to strings. A handler loads the stored document and decides
on an answer. When a write is needed, it removes the resource's entries under `name.`, puts the
new ones there and saves the document. It then names the configurations the cluster has to
reload. The action base checks the client certificate and that the configuration index exists,
validates the request body, dispatches on the request method, asks the cluster to reload and
turns every outcome into the reply.

Two generations of the code are modelled:

- **The current generation** (`com.floragunn.searchguard.dlic.rest`) has the following parts.
  - **Action base** (`ApiAction`, `RestApi`): the generic DELETE, PUT, GET and POST handlers,
    the key helpers, `handleApiRequest` and `prepareRequest`.
  - **User actions**: the user action (`UserApi`), the internal users action (`InternalUsersApi`),
    the action groups action (`ActionGroupsApi`) and the configuration GET (`GetConfigurationApi`).
  - **Validation engine** (`Validation`): payload flags, key sets, a datatype check that walks the
    body's parser tokens, and the error document.
  - **Resource schemas** (`Validators`).
  - **Access evaluator for role-based access** (`Privileges`).
- **The earlier generation** (`com.floragunn.dlic.rest`) has the following parts.
  - **Action base** (`LegacyApiAction`): `toSettings`, the boolean `removeKeysStartingWith` and
    the certificate checks of `handleRequest`.
  - **Validators** (`LegacyValidation`): key sets only.
  - **User action** (`LegacyUserApi`): DELETE and a merging POST.
  - **Roles mapping action** (`LegacyRolesMappingApi`).

Shared pieces: `Settings` (flat documents and the mutable builder), `Responses` (handler outcomes
and the response helpers), `ConfigUpdate` (the reload check and the reply), `Json` (the body tree
and its tokens) and `Common`.

Each handler is written twice, kept apart on purpose:
- as a pure decision function (`Answer(outcome)` or `Write(document, outcome)`);
- as a method on a `ConfigIndex` object that holds the stored documents.

Each method's postcondition states that the index ends as the decision says and that the method
returns the decision's outcome. Properties across several requests are lemmas about the decision
functions (put then get then delete, idempotent put, delete sparing siblings, reload exactly what
is written). Loops of the source are methods with invariants proved against specification
functions:
- the key helpers;
- the prefix loop;
- the token walk of the datatype check;
- the disabled-endpoint table and the two loops over the user's roles;
- the reload check over the node answers;
- the hash-blanking loop;
- the structured-map loop of the internal users PUT.

Things the model takes as parameters:
- **Password hashing**: a function `hash: string -> string`.
- **The cluster's answer to a reload request**: `ClusterAnswer` (answered with node responses,
  failed with a message, or no answer before the timeout).
- **How a document write ends**: `SaveResult`, held by the index.
- **The client certificate status**: `CertStatus`.
- **The set of known endpoint names and the list of configuration names**: parameters.

## Model

| member | source | states |
|---|---|---|
| Common.Upper | src/main/java/com/floragunn/searchguard/dlic/rest/api/RestApiPrivilegesEvaluator.java:92-93 | Each ASCII lower-case letter becomes its upper-case letter and every other character stays as it is, so the length is kept (ASCII-only folding is admitted under "Left out"). |
| Common.RemoveAll | src/main/java/com/floragunn/searchguard/dlic/rest/api/AbstractApiAction.java:455-469 | Deleting every occurrence of a pattern never lengthens a key. |
| Common.RemoveAllAbsent | src/main/java/com/floragunn/searchguard/dlic/rest/api/AbstractApiAction.java:455-469 | A key not containing the pattern is left unchanged by the replaceAll. |
| Common.RemoveAllLeading | src/main/java/com/floragunn/searchguard/dlic/rest/api/ActionGroupsApiAction.java:64-66 | A key that is the pattern followed by a rest free of it loses exactly the pattern. |
| Common.FirstSegment | src/main/java/com/floragunn/searchguard/dlic/rest/api/InternalUsersApiAction.java:104-109 | The top-level name of a dotted key is a dot-free prefix, followed by a dot when shorter than the key. |
| Common.DottedPrefixIsFirstSegment | src/main/java/com/floragunn/searchguard/dlic/rest/api/AbstractApiAction.java:147 | For a dot-free name, "name." starts a key exactly when the key's top-level name is that name and the key goes on. |
| Settings.NamesEmpty | src/main/java/com/floragunn/searchguard/dlic/rest/validation/AbstractConfigurationValidator.java:111-121 | A document has no top-level names exactly when it has no entries. |
| Settings.PrefixSplit | src/main/java/com/floragunn/searchguard/dlic/rest/api/AbstractApiAction.java:407-437 | The entries under a prefix and those not under it are disjoint and together form the document. |
| Settings.Prepend | src/main/java/com/floragunn/searchguard/dlic/rest/api/AbstractApiAction.java:439-453 | Each key gains the prefix with its value kept, and every result key is a prefixed input key. |
| Settings.PrependRoundTrip | src/main/java/com/floragunn/searchguard/dlic/rest/api/AbstractApiAction.java:439-453 | Stripping the prefix undoes prepending it, and the prepended document lies wholly under the prefix. |
| Settings.Builder.constructor | src/main/java/com/floragunn/searchguard/dlic/rest/api/AbstractApiAction.java:212-214 | A builder starts with the loaded document. |
| Settings.Builder.PutAll | src/main/java/com/floragunn/searchguard/dlic/rest/api/AbstractApiAction.java:176 | put(Map) adds every entry, replacing entries with the same key. |
| Settings.Builder.Put | src/main/java/com/floragunn/searchguard/dlic/rest/api/UserApiAction.java:66 | put(k, v) sets one entry. |
| Settings.Builder.Remove | src/main/java/com/floragunn/searchguard/dlic/rest/api/UserApiAction.java:65 | remove(k) deletes one entry. |
| Settings.PrependValueToEachKey | src/main/java/com/floragunn/searchguard/dlic/rest/api/AbstractApiAction.java:439-453 | The loop returns exactly the prefixed map. |
| ConfigUpdate.FirstFailure | src/main/java/com/floragunn/searchguard/dlic/rest/api/AbstractApiAction.java:390-401 | Gives the first node that did not report exactly one reloaded type; it is absent exactly when every node did. |
| ConfigUpdate.SucceededIffNoFailure | src/main/java/com/floragunn/searchguard/dlic/rest/api/AbstractApiAction.java:379-404 | The reload succeeded exactly when the node count matches and no node failed. |
| ConfigUpdate.CheckConfigUpdateResponse | src/main/java/com/floragunn/searchguard/dlic/rest/api/AbstractApiAction.java:379-404 | The count test and the and-over-nodes loop return exactly the success predicate. |
| ConfigUpdate.Deliver | src/main/java/com/floragunn/searchguard/dlic/rest/api/AbstractApiAction.java:311-367 | Gives the reply for each outcome and cluster answer: a thrown exception or a failed or unchecked reload is a 500 with its text, a timeout escapes, and otherwise the handler's response is sent. |
| ConfigUpdate.DeliverDependsOnReloadOnly | src/main/java/com/floragunn/searchguard/dlic/rest/api/AbstractApiAction.java:314-344 | The cluster's answer matters only when the handler named configurations, and only a reload request can escape. |
| ApiAction.SaveException | src/main/java/com/floragunn/searchguard/dlic/rest/api/AbstractApiAction.java:258-266 | A write raises an exception exactly when it did not succeed. |
| ApiAction.AfterSave | src/main/java/com/floragunn/searchguard/dlic/rest/api/AbstractApiAction.java:258-266 | A timeout throws "Timeout updating <config>", a failure throws its own exception, and success keeps the handler's outcome. |
| ApiAction.ConfigIndex.constructor | src/main/java/com/floragunn/searchguard/dlic/rest/api/AbstractApiAction.java:212-222 | The index holds the given documents, existence flag and write behaviour. |
| ApiAction.ConfigIndex.Save | src/main/java/com/floragunn/searchguard/dlic/rest/api/AbstractApiAction.java:224-268 | save stores the document under its configuration name when the write succeeds, or when a write that timed out still lands; a failed write stores nothing; the exception for the write's end is reported. |
| ApiAction.CopyKeysStartingWith | src/main/java/com/floragunn/searchguard/dlic/rest/api/AbstractApiAction.java:407-419 | Returns exactly the entries under the prefix, or nothing for an empty prefix. |
| ApiAction.RemoveKeysStartingWith | src/main/java/com/floragunn/searchguard/dlic/rest/api/AbstractApiAction.java:421-437 | Deletes in place exactly the entries under the prefix and returns them; an empty prefix changes nothing. |
| ApiAction.RemoveLeadingValueFromEachKey | src/main/java/com/floragunn/searchguard/dlic/rest/api/AbstractApiAction.java:455-469 | Every result entry is an input entry whose key lost each occurrence of the pattern, and every renamed key is present. |
| ApiAction.Replaced | src/main/java/com/floragunn/searchguard/dlic/rest/api/AbstractApiAction.java:173-176 | After the replacement, the part under the prefix is exactly the prefixed payload and the rest is the stored rest. |
| ApiAction.ReplacedEntry | src/main/java/com/floragunn/searchguard/dlic/rest/api/AbstractApiAction.java:173-176 | prefix+x is stored exactly when x is a payload key, with the payload's value. |
| ApiAction.DeleteDecision | src/main/java/com/floragunn/searchguard/dlic/rest/api/AbstractApiAction.java:137-156 | No name is a 400, nothing under "name." is a 404 that writes nothing, and otherwise the entries go and the configuration is reloaded. |
| ApiAction.PutDecision | src/main/java/com/floragunn/searchguard/dlic/rest/api/AbstractApiAction.java:158-183 | No name is a 400. Otherwise the entry is replaced by the payload, answered "updated." (200) when something was there and "created." (201) when not. |
| ApiAction.GetOutcome | src/main/java/com/floragunn/searchguard/dlic/rest/api/AbstractApiAction.java:190-210 | No name is a 400 with a full stop, nothing under "name." is a 404, and otherwise exactly the entries under "name." with no reload. |
| ApiAction.HandlePost | src/main/java/com/floragunn/searchguard/dlic/rest/api/AbstractApiAction.java:185-188 | POST is a 501 "Method POST not supported for this action." that reloads nothing. |
| ApiAction.GenericDecisionsReloadOnlyOnSuccess | src/main/java/com/floragunn/searchguard/dlic/rest/api/AbstractApiAction.java:137-210 | The generic handlers name configurations to reload only with a 200 or 201. |
| ApiAction.EntryOfName | src/main/java/com/floragunn/searchguard/dlic/rest/api/AbstractApiAction.java:147 | For a dot-free name, the entries under "name." are exactly those whose top-level name is the name. |
| ApiAction.DeleteSparesSiblings | src/main/java/com/floragunn/searchguard/dlic/rest/api/AbstractApiAction.java:147 | Deleting "foo" keeps every entry of another top-level name, "foobar" included. |
| ApiAction.PutThenGetThenDelete | src/main/java/com/floragunn/searchguard/dlic/rest/api/AbstractApiAction.java:137-210 | A GET after a PUT returns the prefixed payload, and a DELETE after it leaves the other resources as stored. |
| ApiAction.PutIdempotent | src/main/java/com/floragunn/searchguard/dlic/rest/api/AbstractApiAction.java:158-183 | A second identical PUT leaves the document unchanged and answers as an update. |
| ApiAction.HandleDelete | src/main/java/com/floragunn/searchguard/dlic/rest/api/AbstractApiAction.java:137-156 | The handler leaves the index and returns the outcome as the delete decision says. |
| ApiAction.ReplaceAndSave | src/main/java/com/floragunn/searchguard/dlic/rest/api/AbstractApiAction.java:166-177 | Load, remove under the prefix, put and save store the replaced document, and report whether the entry existed. |
| ApiAction.HandlePut | src/main/java/com/floragunn/searchguard/dlic/rest/api/AbstractApiAction.java:158-183 | The handler leaves the index and returns the outcome as the put decision says. |
| ApiAction.HandleGet | src/main/java/com/floragunn/searchguard/dlic/rest/api/AbstractApiAction.java:190-210 | Returns the get outcome for the stored document. |
| UserApi.WithHashedPassword | src/main/java/com/floragunn/searchguard/dlic/rest/api/UserApiAction.java:62-67 | A non-empty password is replaced by its hash, other keys are kept, and otherwise the payload is unchanged. |
| UserApi.HashingOnce | src/main/java/com/floragunn/searchguard/dlic/rest/api/UserApiAction.java:62-67 | Applying the password rule twice is the same as once. |
| UserApi.HashPassword | src/main/java/com/floragunn/searchguard/dlic/rest/api/UserApiAction.java:62-67 | In place, the builder ends as the password rule says. |
| UserApi.PutDecision | src/main/java/com/floragunn/searchguard/dlic/rest/api/UserApiAction.java:54-85 | No name is "No name given". Otherwise it writes and reloads the internal users, with "User <name> updated" (200) for an existing user and "created" (201) otherwise. |
| UserApi.PutStoresHashedEntry | src/main/java/com/floragunn/searchguard/dlic/rest/api/UserApiAction.java:62-77 | The user PUT stores what the generic replacement stores for the hashed payload, and never stores a non-empty plain password. |
| UserApi.HandlePut | src/main/java/com/floragunn/searchguard/dlic/rest/api/UserApiAction.java:54-85 | The handler leaves the index and returns the outcome as the decision says. |
| InternalUsersApi.OtherUsers | src/main/java/com/floragunn/searchguard/dlic/rest/api/InternalUsersApiAction.java:104-109 | The structured map without the user holds exactly the entries of the other top-level names. |
| InternalUsersApi.StructuredLookupMisses | src/main/java/com/floragunn/searchguard/dlic/rest/api/InternalUsersApiAction.java:123 | "name.hash" is never a top-level name of that map, so the source's lookup of it always misses. |
| InternalUsersApi.PutDecisionAsWritten | src/main/java/com/floragunn/searchguard/dlic/rest/api/InternalUsersApiAction.java:77-145 | As written: existence means "some other user exists", and a write happens only with a hash and stores the other users plus the prefixed entries. |
| InternalUsersApi.EntriesToStore | src/main/java/com/floragunn/searchguard/dlic/rest/api/InternalUsersApiAction.java:113-127 | A given hash is kept, a missing one is taken from the user's stored hash, and there is nothing to store exactly when neither exists. |
| InternalUsersApi.PutDecision | src/main/java/com/floragunn/searchguard/dlic/rest/api/InternalUsersApiAction.java:77-145 | No name is a 400 and a read-only user a 403. A new user without a hash is a 400 and an existing one without a stored or given hash a 500; otherwise the user's entries become the entries to store, as "updated" or "created". |
| InternalUsersApi.PutKeepsOthersAndStoresHash | src/main/java/com/floragunn/searchguard/dlic/rest/api/InternalUsersApiAction.java:101-137 | A stored PUT keeps every other user's entries, and the user's entries are exactly the prefixed payload, hash included. |
| InternalUsersApi.AsWrittenTakesSoleUserForNew | src/main/java/com/floragunn/searchguard/dlic/rest/api/InternalUsersApiAction.java:111-118 | A sole existing user is taken for a new one, and a PUT without a hash is refused as for a creation. |
| InternalUsersApi.AsWrittenLosesStoredHash | src/main/java/com/floragunn/searchguard/dlic/rest/api/InternalUsersApiAction.java:121-125 | A user among others whose PUT brings no hash always gets the 500, even though a hash is stored. |
| InternalUsersApi.AliceWithoutHash | src/main/java/com/floragunn/searchguard/dlic/rest/api/InternalUsersApiAction.java:111-127 | Concrete instances: alice alone, and alice beside bob, sending only a role are refused as written and stored as intended. |
| InternalUsersApi.PutUnder | src/main/java/com/floragunn/searchguard/dlic/rest/api/InternalUsersApiAction.java:133-135 | The loop adds exactly the prefixed entries to the structured map. |
| InternalUsersApi.HandlePut | src/main/java/com/floragunn/searchguard/dlic/rest/api/InternalUsersApiAction.java:77-145 | The handler leaves the index and returns the outcome as the corrected decision of the third finding says on the hashed payload (admitted under "Left out"). |
| ActionGroupsApi.PutDecision | src/main/java/com/floragunn/searchguard/dlic/rest/api/ActionGroupsApiAction.java:52-76 | No name is a 400. Otherwise the renamed payload is put under the bare name with the old entries removed, as "replaced." or "created.", reloading the action groups. |
| ActionGroupsApi.PermissionsRewritten | src/main/java/com/floragunn/searchguard/dlic/rest/api/ActionGroupsApiAction.java:64-67 | A payload key "permissions"+rest is stored at name+rest with its value. |
| ActionGroupsApi.GroupEntries | src/main/java/com/floragunn/searchguard/dlic/rest/api/ActionGroupsApiAction.java:65-67 | The payload loses "permissions" from its keys and gains the name in front. |
| ActionGroupsApi.HandlePut | src/main/java/com/floragunn/searchguard/dlic/rest/api/ActionGroupsApiAction.java:52-76 | The handler leaves the index and returns the outcome as the decision says on the renamed payload. |
| GetConfigurationApi.GroupNames | src/main/java/com/floragunn/searchguard/dlic/rest/api/GetConfigurationApiAction.java:51-59 | The groups of a document are dot-free top-level names. |
| GetConfigurationApi.BlankHashes | src/main/java/com/floragunn/searchguard/dlic/rest/api/GetConfigurationApiAction.java:51-59 | Gives one empty hash for each group. |
| GetConfigurationApi.BlankingKeepsUsers | src/main/java/com/floragunn/searchguard/dlic/rest/api/GetConfigurationApiAction.java:51-59 | Blanking keeps every user and group and every entry that is not a hash, and sets each group's hash to "". |
| GetConfigurationApi.NoHashRevealed | src/main/java/com/floragunn/searchguard/dlic/rest/api/GetConfigurationApiAction.java:51-59 | Every hash entry of the result is empty, and every other stored entry is returned unchanged. |
| GetConfigurationApi.FilterHashes | src/main/java/com/floragunn/searchguard/dlic/rest/api/GetConfigurationApiAction.java:51-59 | In place, the loop over the groups leaves the builder with its hashes blanked. |
| GetConfigurationApi.GetOutcome | src/main/java/com/floragunn/searchguard/dlic/rest/api/GetConfigurationApiAction.java:71-90 | An empty or unknown name is a 400 listing the names; otherwise a 200 with no reload, and a configuration other than the internal users is shown as stored (the common filter is admitted under "Left out"). |
| GetConfigurationApi.GetHidesHashes | src/main/java/com/floragunn/searchguard/dlic/rest/api/GetConfigurationApiAction.java:71-90 | GET of the internal users shows every user and no hash. |
| GetConfigurationApi.HandleGet | src/main/java/com/floragunn/searchguard/dlic/rest/api/GetConfigurationApiAction.java:71-90 | Returns the get outcome for the stored document, blanking the hashes in place for the internal users. |
| Json.Tokenize | src/main/java/com/floragunn/searchguard/dlic/rest/validation/AbstractConfigurationValidator.java:158-161 | A value's token stream is never empty and never starts with a field name. |
| Validation.FirstTokenShape | src/main/java/com/floragunn/searchguard/dlic/rest/validation/AbstractConfigurationValidator.java:166-183 | The token after a field name is accepted for a datatype exactly when the value has that shape. |
| Validation.WrongKeys | src/main/java/com/floragunn/searchguard/dlic/rest/validation/AbstractConfigurationValidator.java:157-188 | Only allowed keys are ever reported as having the wrong datatype. |
| Validation.ScanWrongKeys | src/main/java/com/floragunn/searchguard/dlic/rest/validation/AbstractConfigurationValidator.java:157-188 | The token walk reports only allowed keys. |
| Validation.ScanMatchesTree | src/main/java/com/floragunn/searchguard/dlic/rest/validation/AbstractConfigurationValidator.java:157-188 | On a document's tokens the walk completes and reports exactly the tree's wrongly shaped allowed keys. |
| Validation.TypeMessages | src/main/java/com/floragunn/searchguard/dlic/rest/validation/AbstractConfigurationValidator.java:167-183 | Gives one message per wrong key, naming the expected datatype. |
| Validation.ToSettingsBuilder | src/main/java/com/floragunn/searchguard/dlic/rest/validation/AbstractConfigurationValidator.java:236-246 | An absent body loads as an empty document, a parsed body as its settings, and only an unparseable one fails. |
| Validation.Validate | src/main/java/com/floragunn/searchguard/dlic/rest/validation/AbstractConfigurationValidator.java:95-155 | A run is valid exactly when it records no error, and then no key set holds anything. |
| Validation.CheckKeysAndTypes | src/main/java/com/floragunn/searchguard/dlic/rest/validation/AbstractConfigurationValidator.java:123-152 | After the payload flags: valid exactly without an error, and then with empty key sets. |
| Validation.ValidIffAcceptable | src/main/java/com/floragunn/searchguard/dlic/rest/validation/AbstractConfigurationValidator.java:95-155 | A run passes exactly when an independent acceptance predicate holds. |
| Validation.ExemptMethodsPass | src/main/java/com/floragunn/searchguard/dlic/rest/validation/AbstractConfigurationValidator.java:97-99 | DELETE, GET and POST pass without their body being looked at. |
| Validation.UnparseableFails | src/main/java/com/floragunn/searchguard/dlic/rest/validation/AbstractConfigurationValidator.java:101-107 | An unparseable body fails with BODY_NOT_PARSEABLE before any key check. |
| Validation.PayloadFlagsFirst | src/main/java/com/floragunn/searchguard/dlic/rest/validation/AbstractConfigurationValidator.java:111-121 | A payload where none is allowed, or no payload where one is mandatory, decides the verdict first. |
| Validation.AbsentBodyHasNoKeys | src/main/java/com/floragunn/searchguard/dlic/rest/validation/AbstractConfigurationValidator.java:111-121 | An absent body fails as PAYLOAD_MANDATORY when a payload is mandatory. |
| Validation.KeySetsAndPrecedence | src/main/java/com/floragunn/searchguard/dlic/rest/validation/AbstractConfigurationValidator.java:123-152 | Gives the three key sets (a missing one-of group, missing mandatory keys, invalid keys); a wrong datatype wins over an invalid configuration, and otherwise the run passes exactly when the three sets are empty. |
| Validation.WrongDatatypeVerdict | src/main/java/com/floragunn/searchguard/dlic/rest/validation/AbstractConfigurationValidator.java:142-152 | Once the key sets pass, wrongly shaped keys give WRONG_DATATYPE with their messages. |
| Validation.KeyLists | src/main/java/com/floragunn/searchguard/dlic/rest/validation/AbstractConfigurationValidator.java:190-221 | One entry per non-empty key set, under that set's own name, holding that set. |
| Validation.Report | src/main/java/com/floragunn/searchguard/dlic/rest/validation/AbstractConfigurationValidator.java:190-221 | Corrected error document: none without an error; the reason is the error's message; key lists for an invalid configuration, with the one-of entry from the one-of set; the type messages for a wrong datatype. |
| Validation.ReportAsWritten | src/main/java/com/floragunn/searchguard/dlic/rest/validation/AbstractConfigurationValidator.java:190-221 | As built in the source, the one-of entry is filled from the missing mandatory keys; otherwise it is the corrected document. |
| Validation.OneOfEntry | src/main/java/com/floragunn/searchguard/dlic/rest/validation/AbstractConfigurationValidator.java:202 | As written, the one-of entry appears exactly when mandatory keys are missing and holds them, whatever the one-of set. |
| Validation.ReportOfVerdict | src/main/java/com/floragunn/searchguard/dlic/rest/validation/AbstractConfigurationValidator.java:190-221 | Every failed run has an error document and a passed run none. |
| Validation.WalkTokens | src/main/java/com/floragunn/searchguard/dlic/rest/validation/AbstractConfigurationValidator.java:157-188 | The parser loop records exactly the messages of the walked wrong keys and tells whether it completed. |
| Validation.ConfigurationValidator.constructor | src/main/java/com/floragunn/searchguard/dlic/rest/validation/AbstractConfigurationValidator.java:90-93 | A validator holds the method and the body, with the empty schema and no errors yet. |
| Validation.ConfigurationValidator.ErrorsAsXContent | src/main/java/com/floragunn/searchguard/dlic/rest/validation/AbstractConfigurationValidator.java:190-221 | No document without an error; otherwise status "error" and the error's reason, one key list per non-empty key set of an invalid configuration with the one-of list from the one-of set (corrected, admitted under "Left out"), and the type messages of a wrong datatype. |
| Validation.ConfigurationValidator.ValidateSettings | src/main/java/com/floragunn/searchguard/dlic/rest/validation/AbstractConfigurationValidator.java:95-155 | The run fills the fields and returns exactly what the validation function says. |
| Validation.ConfigurationValidator.CheckKeysAndDatatypes | src/main/java/com/floragunn/searchguard/dlic/rest/validation/AbstractConfigurationValidator.java:123-152 | The key checks, then the datatype check, fill the fields as the function says. |
| Validation.ConfigurationValidator.CheckKeys | src/main/java/com/floragunn/searchguard/dlic/rest/validation/AbstractConfigurationValidator.java:123-140 | Records the one-of group, the missing mandatory keys and the invalid keys, and reports whether all are empty. |
| Validation.ConfigurationValidator.CheckDatatypes | src/main/java/com/floragunn/searchguard/dlic/rest/validation/AbstractConfigurationValidator.java:157-188 | Records a message per wrong key and reports whether any was found; a body without tokens is an exception. |
| Validators.NewInternalUsersValidator | src/main/java/com/floragunn/searchguard/dlic/rest/validation/InternalUsersValidator.java:22-40 | A payload is mandatory for every method. POST allows hash, roles and username and has no one-of group; every other method allows hash, password, roles and username and requires hash or password. roles is an array, the others strings. |
| Validators.NewRolesMappingValidator | src/test/java/com/floragunn/searchguard/dlic/rest/api/RolesMappingApiTest.java:133-159 | backendroles, hosts and users are allowed, all arrays as the API test expects, with a mandatory payload (the validator file gives no types, see "Left out"). |
| Validators.NewRolesValidator | src/test/java/com/floragunn/searchguard/dlic/rest/api/RolesApiTest.java:147-154 | indices (object) and cluster (array) are allowed, the types the API test expects, one of them required (the validator file gives no types, see "Left out"). |
| Validators.NewActionGroupValidator | src/main/java/com/floragunn/searchguard/dlic/rest/validation/ActionGroupValidator.java:8-12 | Only permissions is allowed, with a mandatory payload; its type ARRAY is an assumption (see "Left out"). |
| Validators.NewLicenseValidator | src/main/java/com/floragunn/searchguard/dlic/rest/validation/LicenseValidator.java:8-12 | Only sg_license (string) is allowed, with a mandatory payload. |
| Validators.ShallowHasNoWrongKeys | src/main/java/com/floragunn/searchguard/dlic/rest/validation/AbstractConfigurationValidator.java:157-188 | A scalar or an array of scalars holds no field to report. |
| Validators.OneMemberWrongDatatype | src/main/java/com/floragunn/searchguard/dlic/rest/validation/AbstractConfigurationValidator.java:142-152 | A one-key PUT with a wrongly shaped flat value is WRONG_DATATYPE with that key's message alone. |
| Validators.OneMemberKeyVerdict | src/main/java/com/floragunn/searchguard/dlic/rest/validation/AbstractConfigurationValidator.java:123-140 | A one-key PUT with a well-shaped value gets exactly the key-set verdict. |
| Validators.TwoMembersWrongDatatype | src/main/java/com/floragunn/searchguard/dlic/rest/validation/AbstractConfigurationValidator.java:142-152 | A two-key PUT with wrongly shaped values reports exactly those keys. |
| Validators.UserPayloadMandatory | src/main/java/com/floragunn/searchguard/dlic/rest/validation/InternalUsersValidator.java:30-37 | A user body without keys fails as PAYLOAD_MANDATORY. |
| Validators.UserPostSchemaUnused | src/main/java/com/floragunn/searchguard/dlic/rest/validation/InternalUsersValidator.java:26-29 | A user POST passes whatever its body, so its schema is never consulted. |
| Validators.UserPutNeedsHashOrPassword | src/main/java/com/floragunn/searchguard/dlic/rest/validation/InternalUsersValidator.java:30-37 | A user PUT naming neither hash nor password fails with both as the missing one-of group. |
| Validators.UserWrongRolesDatatype | src/main/java/com/floragunn/searchguard/dlic/rest/validation/InternalUsersValidator.java:30-37 | Roles given as a string are reported alone, as "Array expected". |
| Validators.UserWrongPasswordDatatype | src/main/java/com/floragunn/searchguard/dlic/rest/validation/InternalUsersValidator.java:30-37 | A password given as an array is reported alone, as "String expected". |
| Validators.RolesMappingKeyChecks | src/main/java/com/floragunn/searchguard/dlic/rest/validation/RolesMappingValidator.java:8-18 | A body without keys needs a payload, and the invalid keys are those outside the three. |
| Validators.RolesMappingSingleWrongDatatype | src/main/java/com/floragunn/searchguard/dlic/rest/validation/RolesMappingValidator.java:8-18 | backendroles as a string reports that key alone. |
| Validators.RolesKeyChecks | src/main/java/com/floragunn/searchguard/dlic/rest/validation/RolesValidator.java:8-16 | Only indices and cluster are allowed, and at least one of them is required. |
| Validators.RolesWrongDatatypes | src/main/java/com/floragunn/searchguard/dlic/rest/validation/RolesValidator.java:8-16 | An indices that is not an object and a cluster that is not an array are both reported. |
| Validators.ActionGroupKeyChecks | src/main/java/com/floragunn/searchguard/dlic/rest/validation/ActionGroupValidator.java:8-12 | A body naming only permissions passes the key checks; any other name is invalid. |
| Validators.LicenseStringPasses | src/main/java/com/floragunn/searchguard/dlic/rest/validation/LicenseValidator.java:8-12 | A license given as a string passes. |
| Validators.LicenseMustBeString | src/main/java/com/floragunn/searchguard/dlic/rest/validation/LicenseValidator.java:8-12 | A license given as anything else is "String expected". |
| Validators.LicensePayloadAlwaysAllowed | src/main/java/com/floragunn/searchguard/dlic/rest/validation/LicenseValidator.java:8-12 | No license request is refused for carrying a body. |
| Validators.SpecifyOneOfAsWrittenIsEmpty | src/main/java/com/floragunn/searchguard/dlic/rest/validation/AbstractConfigurationValidator.java:202 | A user PUT with only roles fails for the one-of group, yet the document as written has no key list; the corrected one lists the group. |
| Privileges.DisabledTableFacts | src/main/java/com/floragunn/searchguard/dlic/rest/api/RestApiPrivilegesEvaluator.java:85-101 | Entries exist only for enabled roles and hold the global list plus known upper-cased endpoints; a role lacks one exactly when nothing is disabled for it. |
| Privileges.DisabledEndpointsForRole | src/main/java/com/floragunn/searchguard/dlic/rest/api/RestApiPrivilegesEvaluator.java:86-97 | The inner loop gives the global list plus the recognised upper-cased endpoints of the role. |
| Privileges.DisabledEndpointsTable | src/main/java/com/floragunn/searchguard/dlic/rest/api/RestApiPrivilegesEvaluator.java:85-101 | The outer loop builds exactly the table, skipping roles with nothing disabled. |
| Privileges.GetDisabledEndpointsForCurrentUser | src/main/java/com/floragunn/searchguard/dlic/rest/api/RestApiPrivilegesEvaluator.java:135-161 | The union loop and the retain loop give, as written, the endpoints that every user role with an entry disables. |
| Privileges.DisabledForUserMeaning | src/main/java/com/floragunn/searchguard/dlic/rest/api/RestApiPrivilegesEvaluator.java:178-180 | Corrected: an endpoint is disabled exactly when the user has a privileged role and every privileged role of the user disables it. |
| Privileges.DisabledForUserAgrees | src/main/java/com/floragunn/searchguard/dlic/rest/api/RestApiPrivilegesEvaluator.java:135-161 | When every privileged user role has an entry, the as-written and the corrected sets coincide. |
| Privileges.DisabledForUserAsWrittenIgnoresUnrestrictedRole | src/main/java/com/floragunn/searchguard/dlic/rest/api/RestApiPrivilegesEvaluator.java:98-100 | With R1 disabling CACHE and R2 disabling nothing, the source disables CACHE for an R1+R2 user and the corrected set does not. |
| Privileges.GloballyDisabledDeniedToEveryone | src/main/java/com/floragunn/searchguard/dlic/rest/api/RestApiPrivilegesEvaluator.java:76-88 | A globally disabled endpoint is disabled for every user with a privileged role. |
| Privileges.RestApiPrivilegesEvaluator.constructor | src/main/java/com/floragunn/searchguard/dlic/rest/api/RestApiPrivilegesEvaluator.java:60-102 | The evaluator holds the enabled roles, turns role-based access on exactly when there are any, and holds the disabled table. |
| Privileges.RestApiPrivilegesEvaluator.CheckAdminCertBasedAccessPermissions | src/main/java/com/floragunn/searchguard/dlic/rest/api/RestApiPrivilegesEvaluator.java:218-240 | Admits exactly an admin certificate; otherwise the missing SSL info, the missing certificate or the non-admin principal, with the source's texts. |
| Privileges.RestApiPrivilegesEvaluator.CheckRoleBasedAccessPermissions | src/main/java/com/floragunn/searchguard/dlic/rest/api/RestApiPrivilegesEvaluator.java:163-216 | Admits exactly when role-based access is on, the user has a privileged role and no endpoint of the corrected disabled set of the fourth finding equals the endpoint ignoring case (admitted under "Left out"); each of the three refusal texts is the source's. |
| Privileges.RestApiPrivilegesEvaluator.ConstructAccessErrorMessage | src/main/java/com/floragunn/searchguard/dlic/rest/api/RestApiPrivilegesEvaluator.java:242-244 | The role reason, then "; ", then the certificate reason. |
| Privileges.RestApiPrivilegesEvaluator.CheckAccessPermissions | src/main/java/com/floragunn/searchguard/dlic/rest/api/RestApiPrivilegesEvaluator.java:110-126 | Admits exactly an admin certificate or a role-based admission (on the corrected disabled set), and otherwise combines both reasons. |
| Privileges.AdminCertificateAdmits | src/main/java/com/floragunn/searchguard/dlic/rest/api/RestApiPrivilegesEvaluator.java:112-116 | An admin certificate admits every request. |
| Privileges.NoRolesNoCertificateRefused | src/main/java/com/floragunn/searchguard/dlic/rest/api/RestApiPrivilegesEvaluator.java:110-126 | Without role-based access, a request without an admin certificate is refused with "Role based access not enabled." and the certificate reason. |
| RestApi.GetValidator | src/main/java/com/floragunn/searchguard/dlic/rest/api/UserApiAction.java:107-109 | Each action builds a fresh, unused validator of its own schema for the request. |
| RestApi.Dispatch | src/main/java/com/floragunn/searchguard/dlic/rest/api/AbstractApiAction.java:123-134 | Other methods throw "<method> not supported", and only DELETE and PUT write; the internal users PUT runs the corrected decision of the third finding (admitted under "Left out"). |
| RestApi.ApiDecision | src/main/java/com/floragunn/searchguard/dlic/rest/api/AbstractApiAction.java:105-135 | A missing index is a 500 SG_NOT_INITIALIZED and a refused body a 400 with the corrected report of the first finding; otherwise the handler decides, and only a valid DELETE or PUT writes. |
| RestApi.PutReloadsWhatItWrites | src/main/java/com/floragunn/searchguard/dlic/rest/api/AbstractApiAction.java:158-183 | A PUT names its own configuration for reload exactly when it writes. |
| RestApi.DispatchReloadsWhatItWrites | src/main/java/com/floragunn/searchguard/dlic/rest/api/AbstractApiAction.java:123-134 | A validated request names configurations exactly when it writes, and then only the one written. |
| RestApi.ReloadExactlyWhatIsWritten | src/main/java/com/floragunn/searchguard/dlic/rest/api/AbstractApiAction.java:105-135 | Every request asks for a reload exactly when it writes, and of what it writes. |
| RestApi.HandleValidated | src/main/java/com/floragunn/searchguard/dlic/rest/api/AbstractApiAction.java:123-134 | The dispatch leaves the index and returns the outcome as the dispatch decision says; an action groups PUT stores its payload with "permissions" removed from every key. |
| RestApi.ValidateRequest | src/main/java/com/floragunn/searchguard/dlic/rest/api/AbstractApiAction.java:117-122 | The validator run gives the verdict and settings of the validation function, and its corrected report. |
| RestApi.HandleApiRequest | src/main/java/com/floragunn/searchguard/dlic/rest/api/AbstractApiAction.java:105-135 | The index and outcome end as the request decision says; a valid action groups PUT stores the validated payload with "permissions" removed from every key. |
| RestApi.CertificateGate | src/main/java/com/floragunn/searchguard/dlic/rest/api/AbstractApiAction.java:277-306 | Only an admin certificate passes; otherwise a 403 "No ssl info found", "No certificates" or "SG admin permissions required". |
| RestApi.PrepareRequest | src/main/java/com/floragunn/searchguard/dlic/rest/api/AbstractApiAction.java:273-369 | A refused certificate sends the 403 and changes nothing; otherwise the index ends as decided, a valid action groups PUT stores the renamed payload, and the reply is the delivered outcome. |
| RestApi.RefusedRequestsChangeNothing | src/main/java/com/floragunn/searchguard/dlic/rest/api/AbstractApiAction.java:111-122 | A request to a missing index or with a refused body writes nothing and reloads nothing. |
| LegacyApiAction.ToSettings | src/main/java/com/floragunn/dlic/rest/api/AbstractApiAction.java:241-251 | A missing body throws "ref invalid", an unparseable one throws the parse error, and otherwise the settings load. |
| LegacyApiAction.RemoveKeysStartingWith | src/main/java/com/floragunn/dlic/rest/api/AbstractApiAction.java:253-269 | Removes in place exactly the entries under the prefix and tells whether any were removed; an empty prefix is untouched. |
| LegacyApiAction.CertificateGate | src/main/java/com/floragunn/dlic/rest/api/AbstractApiAction.java:131-149 | Only an admin certificate passes; a missing certificate is "No certificates" and a non-admin "SG admin permissions required", both 403. |
| LegacyValidation.LegacyKeyCheck | src/main/java/com/floragunn/dlic/rest/validation/AbstractConfigurationValidator.java:79-94 | Passes exactly when all three key sets are empty. |
| LegacyValidation.LegacyValidate | src/main/java/com/floragunn/dlic/rest/validation/AbstractConfigurationValidator.java:67-95 | Only DELETE and GET are exempt, and the content is invalid exactly for another method with an unparseable body. |
| LegacyValidation.LegacyValidIff | src/main/java/com/floragunn/dlic/rest/validation/AbstractConfigurationValidator.java:67-95 | A legacy run passes exactly when an independent condition on the method and key sets holds. |
| LegacyValidation.LegacyPostIsValidated | src/main/java/com/floragunn/dlic/rest/validation/AbstractConfigurationValidator.java:67-73 | Unlike the current generation, an unparseable POST body fails. |
| LegacyValidation.LegacyReportAsWritten | src/main/java/com/floragunn/dlic/rest/validation/AbstractConfigurationValidator.java:97-117 | As written: a parse failure has no key lists, and otherwise the one-of entry is filled from the missing mandatory keys. |
| LegacyValidation.LegacyReport | src/main/java/com/floragunn/dlic/rest/validation/AbstractConfigurationValidator.java:97-117 | Corrected legacy document: the one-of entry appears exactly for a missing one-of group and lists it. |
| LegacyValidation.LegacyOneOfLost | src/main/java/com/floragunn/dlic/rest/validation/AbstractConfigurationValidator.java:109 | A legacy run failing only for its one-of group gets, as written, no key list, and the corrected report lists the group. |
| LegacyValidation.ConfigurationValidator.constructor | src/main/java/com/floragunn/dlic/rest/validation/AbstractConfigurationValidator.java:62-65 | A validator holds the method and body, with empty rules and no errors. |
| LegacyValidation.ConfigurationValidator.ErrorsAsXContent | src/main/java/com/floragunn/dlic/rest/validation/AbstractConfigurationValidator.java:97-117 | Status "error"; an unparseable body gives the invalid-payload reason alone; otherwise the invalid-configuration reason with one key list per non-empty key set, the one-of list from the one-of set (corrected, admitted under "Left out"). |
| LegacyValidation.ConfigurationValidator.ValidateSettings | src/main/java/com/floragunn/dlic/rest/validation/AbstractConfigurationValidator.java:67-95 | The run fills the key sets and returns exactly the legacy verdict. |
| LegacyValidation.ConfigurationValidator.ValidateUserSettings | src/main/java/com/floragunn/dlic/rest/validation/InternalUsersValidator.java:22-35 | Against loaded settings, hash is mandatory and the only allowed key; valid exactly when the names are {hash}. |
| LegacyValidation.LegacyRolesMappingSchema | src/main/java/com/floragunn/dlic/rest/validation/RolesMappingValidator.java:7-24 | The three keys are allowed, and all three are mandatory for a PUT only. |
| LegacyValidation.LegacyRolesMappingPut | src/main/java/com/floragunn/dlic/rest/validation/RolesMappingValidator.java:17-24 | A legacy roles-mapping PUT passes exactly with the three keys and nothing else. |
| LegacyValidation.NoOpRejectsEveryKey | src/main/java/com/floragunn/dlic/rest/validation/NoOpValidator.java:8-10 | The no-op validator allows no key: any non-exempt body with a key fails, every name invalid. |
| LegacyUserApi.DeleteDecision | src/main/java/com/floragunn/dlic/rest/api/UserApiAction.java:58-73 | No name is a plain 400 "No name given"; nothing under "name." is an empty 404; otherwise the entries go with an empty 200 reloading the internal users. |
| LegacyUserApi.PostDecision | src/main/java/com/floragunn/dlic/rest/api/UserApiAction.java:75-92 | No name is a 400, a body that does not load throws, settings other than exactly {hash} get the validator's corrected report, and otherwise the entries are merged under "name.". |
| LegacyUserApi.PostMerges | src/main/java/com/floragunn/dlic/rest/api/UserApiAction.java:88-91 | A POST keeps every stored entry it does not overwrite and puts each posted entry under "name.". |
| LegacyUserApi.PostKeepsRoles | src/main/java/com/floragunn/dlic/rest/api/UserApiAction.java:88-91 | Posting a new hash keeps the user's roles and sets the hash. |
| LegacyUserApi.DeleteThenNotFound | src/main/java/com/floragunn/dlic/rest/api/UserApiAction.java:58-73 | A second delete of the same user is a 404. |
| LegacyUserApi.HandleDelete | src/main/java/com/floragunn/dlic/rest/api/UserApiAction.java:58-73 | The handler leaves the index and returns the outcome as the delete decision says. |
| LegacyUserApi.HandlePost | src/main/java/com/floragunn/dlic/rest/api/UserApiAction.java:75-92 | The handler leaves the index and returns the outcome as the post decision says, with its corrected report. |
| LegacyUserApi.ApiDecision | src/main/java/com/floragunn/dlic/rest/api/UserApiAction.java:47-56 | Methods other than DELETE and POST throw "<method> not supported", and every write answers the empty 200 with a reload; a refused POST carries the corrected report. |
| LegacyUserApi.HandleApiRequest | src/main/java/com/floragunn/dlic/rest/api/UserApiAction.java:47-56 | The index and outcome end as the action's decision says. |
| LegacyUserApi.HandleRequest | src/main/java/com/floragunn/dlic/rest/api/AbstractApiAction.java:129-210 | A refused certificate sends the 403 and changes nothing; otherwise the index ends as decided and the reply is the delivered outcome. |
| LegacyRolesMappingApi.DeleteDecision | src/main/java/com/floragunn/dlic/rest/api/RolesMappingApiAction.java:34-53 | No role name is a 400; an existing mapping is deleted with a reload of the roles mapping; otherwise a 404. |
| LegacyRolesMappingApi.PutDecision | src/main/java/com/floragunn/dlic/rest/api/RolesMappingApiAction.java:55-75 | No role name is a 400; otherwise the mapping is replaced, as "replaced." (200) or "created." (201). |
| LegacyRolesMappingApi.SameDocumentsAsGeneric | src/main/java/com/floragunn/dlic/rest/api/RolesMappingApiAction.java:34-75 | The legacy roles-mapping handlers write exactly when, and exactly what, the current generic handlers write. |
| LegacyRolesMappingApi.PutThenDelete | src/main/java/com/floragunn/dlic/rest/api/RolesMappingApiAction.java:34-75 | A delete after a put writes, leaving the other mappings as stored. |
| LegacyRolesMappingApi.HandleDelete | src/main/java/com/floragunn/dlic/rest/api/RolesMappingApiAction.java:34-53 | The handler leaves the index and returns the outcome as the delete decision says. |
| LegacyRolesMappingApi.HandlePut | src/main/java/com/floragunn/dlic/rest/api/RolesMappingApiAction.java:55-75 | The handler leaves the index and returns the outcome as the put decision says. |

## Left out

**Runtime and framework**
- Threads, semaphores and the two-minute waits are not modelled; only how they end is modelled (`SaveResult`, `ClusterAnswer`).
- Logging, audit logging, parameter consumption and the clearing of request parameters are not modelled.
- Route registration and the plugin wiring are not modelled.
- JSON serialisation of responses and of the stored document is not modelled.
- Password hashing (BCrypt) is a parameter `hash`. The cluster's node count and its reload answers are parameters.

**Document model**
- The settings loader's flattening of a JSON body is not modelled. A request body carries the flat settings the handlers store and the JSON tree the datatype check walks as two independent fields, and the model does not constrain them to agree.
- The settings library's structured map is modelled as the flat document it is built from. The grouping of undotted top-level keys is not modelled.
- Reading a boolean setting is narrowed to "the entry's value is the string true". The current internal users action reads through `loadAsSettings`, and `load` builds a builder from the same settings. The model treats both as the stored flat document.

**Messages and names**
- Exceptions are modelled by their message. The class-name prefix that `toString` adds in a 500 reply is not modelled.
- The exact text of a JSON parser exception (`PARSE_FAILURE`) is not modelled.
- The configuration names and the endpoint enumeration are not modelled. `ConfigConstants` is not part of this model, so they are the parameters `configNames` and `knownEndpoints`.

**Contracts stated weaker than the source**
- RestApi.Dispatch: the configuration GET action registers only GET, so a request for it is required to be a GET. Its other methods are not modelled.
- ApiAction.RemoveLeadingValueFromEachKey: when two keys collide after the pattern is removed, which value wins depends on the map's iteration order. The contract states only that each value comes from one of the colliding keys.
- Privileges.GetDisabledEndpointsForCurrentUser: the user's roles come from the role mapping, which is not part of this model. They are a parameter.
- Validators.NewRolesMappingValidator: RolesMappingValidator.java calls `allowedKeys.add(..)` although the base class declares `allowedKeys` as a map from key to datatype, so the file gives no datatypes and does not compile against its base. The ARRAY types of backendroles, hosts and users are taken from RolesMappingApiTest.java.
- Validators.NewRolesValidator: RolesValidator.java has the same mismatch. The OBJECT type of indices and the ARRAY type of cluster are taken from RolesApiTest.java.
- Validators.NewActionGroupValidator: ActionGroupValidator.java has the same mismatch, and no test checks the type of permissions. Its type ARRAY is an assumption of this model.
- Common.Upper: folds ASCII letters only and keeps the length. Java's `toUpperCase` also folds other letters and can lengthen a string (ß becomes SS). `EqualsIgnoreCase` inherits the ASCII-only folding.
- ApiAction.ConfigIndex.Save: a write that timed out is modelled as landing or not by a flag of `SaveResult`; when it lands relative to later requests is not modelled.
- GetConfigurationApi.GetOutcome: the common `filter(builder)` that line 63 of GetConfigurationApiAction.java applies to every configuration is not in the files of this model. The model treats it as leaving the document as stored.
- GetConfigurationApi.HandleGet: as for GetOutcome, the common `filter(builder)` is treated as leaving the document as stored.

**Request paths that use the corrected member of a finding**

Each finding below has two members: one models the code as written, the other is the corrected one. The request paths use the corrected member, so for these members the reply differs from the source's in exactly the case the finding names.
- Validation.ConfigurationValidator.ErrorsAsXContent: builds the corrected document `Report`. Line 202 builds `ReportAsWritten`, which has no one-of list for a user PUT of `{"roles":["x"]}`.
- RestApi.ValidateRequest: returns the corrected `Report` of the validator's verdict.
- RestApi.ApiDecision: a refused body's 400 carries the corrected `Report`, and the internal users PUT is the corrected `InternalUsersApi.PutDecision`.
- RestApi.HandleApiRequest: inherits the corrected report and internal users PUT of ApiDecision.
- RestApi.PrepareRequest: inherits the corrected report and internal users PUT of ApiDecision.
- RestApi.Dispatch: the internal users PUT is the corrected `InternalUsersApi.PutDecision`, not `PutDecisionAsWritten` with lines 111 and 123 of InternalUsersApiAction.java as written.
- RestApi.HandleValidated: inherits the corrected internal users PUT of Dispatch.
- InternalUsersApi.HandlePut: implements the corrected decision. As written, a hashless PUT for the sole user is a 400 and one among other users a 500 (`AsWrittenTakesSoleUserForNew`, `AsWrittenLosesStoredHash`).
- LegacyValidation.ConfigurationValidator.ErrorsAsXContent: builds the corrected `LegacyReport`. Line 109 builds `LegacyReportAsWritten`, whose one-of list is the missing mandatory keys: a legacy user POST of `{"password":"x"}` gets `specify_one_of: [hash]` from the source.
- LegacyUserApi.PostDecision: the 400 carries the corrected `LegacyReport`.
- HandlePost (LegacyUserApi.HandlePost): inherits the corrected report of PostDecision.
- ApiDecision (LegacyUserApi.ApiDecision): inherits the corrected report of PostDecision.
- LegacyUserApi.HandleApiRequest: inherits the corrected report of PostDecision.
- HandleRequest (LegacyUserApi.HandleRequest): inherits the corrected report of PostDecision.
- Privileges.RestApiPrivilegesEvaluator.CheckRoleBasedAccessPermissions: admits on the corrected `DisabledForUser`. Line 180 uses `getDisabledEndpointsForCurrentUser`, modelled as `GetDisabledEndpointsForCurrentUser`, which refuses CACHE to a user with R1 (CACHE disabled) and R2 (nothing disabled). The two agree when every privileged role of the user has a table entry (`DisabledForUserAgrees`).
- Privileges.RestApiPrivilegesEvaluator.CheckAccessPermissions: inherits the corrected role path.

**Earlier generation: mismatches in the source**
- The earlier generation's user validator has no constructor matching the base constructor, and the user action builds it without arguments. The model builds it with the request's method and body. Its check over loaded settings reads neither.
- The earlier generation's roles mapping action uses the later generation's handler signatures and response helpers, which its own base does not have. The model pairs that base's `removeKeysStartingWith` with the later helpers. Its dispatch and validator wiring are not modelled.
- The earlier generation's `handleRequest` reads the peer certificates from the request context, so a request without SSL information is refused as one without certificates.

**Actions and sources not modelled**
- These actions are not part of this model: the earlier generation's configuration GET, its `ConfigurationApiAction`, the current generation's roles and roles-mapping actions, the flush-cache action and the Search Guard configuration action. They are outside the core.
- The tests are not part of this model.

## Findings

| source | as written | input that shows it | evidently intended | confidence | as-written member | corrected member |
|---|---|---|---|---|---|---|
| src/main/java/com/floragunn/searchguard/dlic/rest/validation/AbstractConfigurationValidator.java:202 | The `specify_one_of` entry of the error document is filled from `missingMandatoryKeys` | A user PUT whose body is `{"roles":["x"]}`: it fails because neither hash nor password is given, yet the error document has no key list | The entry lists `missingMandatoryOrKeys`, the group of which one key is required | high, not executed | Validation.ReportAsWritten (shown by Validators.SpecifyOneOfAsWrittenIsEmpty) | Validation.Report |
| src/main/java/com/floragunn/dlic/rest/validation/AbstractConfigurationValidator.java:109 | The earlier generation fills `specify_one_of` from `missingMandatoryKeys` too | A legacy run whose body names every mandatory key and no key of its one-of group | The entry lists the missing one-of group | high, not executed | LegacyValidation.LegacyReportAsWritten (shown by LegacyValidation.LegacyOneOfLost) | LegacyValidation.LegacyReport |
| src/main/java/com/floragunn/searchguard/dlic/rest/api/InternalUsersApiAction.java:104-127 | `userExisted` is "some other user exists". The stored hash is looked up as `username.hash` in a structured map whose keys are top-level names | A PUT of `{"roles":["admin"]}` for alice, when alice is the only user: a 400 as if alice were new. The same PUT when bob also exists: a 500 although `alice.hash` is stored | The user exists when the document has entries under `alice.`, and the stored hash is kept when none is given | high, not executed | InternalUsersApi.PutDecisionAsWritten (shown by InternalUsersApi.AliceWithoutHash) | InternalUsersApi.PutDecision |
| src/main/java/com/floragunn/searchguard/dlic/rest/api/RestApiPrivilegesEvaluator.java:98-100 | A privileged role with nothing disabled gets no table entry, and the intersection over the user's roles skips it | Roles R1 (CACHE disabled) and R2 (nothing disabled), both enabled: a user with both gets CACHE disabled | The comment at lines 178-179 says an endpoint must be disabled in all of the user's roles, so R2 would leave CACHE reachable | medium, not executed | Privileges.GetDisabledEndpointsForCurrentUser (shown by Privileges.DisabledForUserAsWrittenIgnoresUnrestrictedRole) | Privileges.DisabledForUser (proved by Privileges.DisabledForUserMeaning) |
