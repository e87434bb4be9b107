# AML record ledger — a Dafny model

This project models the record-ledger core of a Hyperledger Fabric chaincode
that keeps anti-money-laundering (AML) records for several organizations on
one shared ledger. Each org owns the records it created. A record is named by
its (country, id number, owning org) triple and is stored under the key
`country_idNumber_owner`. On creation, a state-based endorsement policy is
attached to the key, naming the owner org as the only endorser.

The model is purely functional:

- The ledger is a world state `map<string, Aml>` plus an endorsement table
  `map<string, Policy>`.
- Every transaction function (`InitLedger`, `CreateAmlData`, `UpdateAmlData`,
  `DeleteAmlData`) maps the ledger before the call to a `Step`. A `Step` holds
  the ledger as the simulation left it and the error or success the function
  returned.
- `Commit` applies Fabric's rule that a transaction whose function returned an
  error is never committed.
- The environment is passed in as parameters:
  - the caller's and the peer's MSP IDs (`Identity`; `None` means the lookup
    failed);
  - the keys on which each stub call fails (`Faults`);
  - the JSON codec (`Codec`);
  - the query engine and the history database, as functions from a query
    string or key to a result iterator.

Modules, in dependency order:

| file | module | models |
|---|---|---|
| outcomes.dfy | `Outcomes`, `Errors` | Go's `(T, error)` returns and the error cases |
| records.dfy | `Records` | `aml.go`: the record, its JSON object shape, the history entry |
| keys.dfy | `Keys` | the key scheme, its parser, injectivity and collisions |
| identity.dfy | `OrgIdentity` | `getClientOrgID`, `verifyClientOrgMatchesPeerOrg` |
| codec.dfy | `Codec` | `json.Marshal` / `json.Unmarshal` over an abstract byte codec |
| iterators.dfy | `Iterators` | draining a result iterator, failing the whole batch |
| worldstate.dfy | `WorldState` | stub calls, `AmlExists`, `setAssetStateBasedEndorsement`, commit |
| contract.dfy | `AmlContract` | `InitLedger`, `CreateAmlData`, `UpdateAmlData`, `DeleteAmlData` |
| query.dfy | `Query` | `getQueryResultForQueryString`, `constructQueryResponseFromIterator` |
| history.dfy | `History` | `GetAssetHistory` and timestamp conversion |
| ownership.dfy | `Ownership` | the ownership invariant and tenant isolation |
| lifecycle.dfy | `Lifecycle` | how Create, Update, Delete and queries compose |

`function.go` repeats `AmlExists` (13-22) and the helpers of
`aml-contract.go` (110-199) verbatim. Each function is modelled once, and the
rows below cite `aml-contract.go`.

Behaviour of the code worth noting:

- Only `CreateAmlData` checks the caller's org against the peer's org.
  `UpdateAmlData` and `DeleteAmlData` call `getClientOrgID` with
  `verifyOrg = false` (`Lifecycle.UpdateDeleteIgnorePeer`).
- A history entry's `isDelete` is copied from the log entry. It is not
  derived from the value being empty. An empty value only selects the zero
  record.
- Key fields may be empty and may contain `_`. Nothing in the code rejects
  them.
- The invariant that an owner never changes holds only when MSP IDs contain
  no `_` (`Ownership.UpdateIsolation`). Otherwise one org's
  Update can rewrite another org's record and take over its ownership
  (`Ownership.SeparatorInOrgBreaksIsolation`).
- An Update by org1 for a triple that org0 created addresses org1's own key
  `country_id_org1`, never org0's key. It therefore reports `NotFound` unless
  org1 has its own record.
- `InitLedger` performs no identity check and attaches no endorsement
  policy.

## Model

| member | source | states |
|---|---|---|
| `Records.ToObject` | aml.go:9-17 | a record's JSON object has exactly seven members, named last_name, first_name, dob, country, id_number, data_owner and risk_level, and decoding that object gives the same record back |
| `Records.FromObject` | aml.go:9-17 | each of the seven fields holds the member its JSON name tags, or stays empty when that member is missing |
| `Records.FromObjectIgnoresUnknown` | aml.go:9-17 | members whose names match none of the seven field names, even ignoring ASCII case (and the Kelvin-sign and long-s folds), do not change the decoded record |
| `Codec.DecodeEncode` | aml-contract.go:89-91 | with a sound codec, unmarshalling a marshalled record gives the record back, and the marshalled bytes are never empty |
| `Keys.MakeKey` | aml-contract.go:39 | the key starts with the country, ends with the owner, and holds the id between two `_` separators; its inverse on `_`-free fields is `Keys.ParseKey` (`Keys.ParseMakeKey`) |
| `Keys.ParseKey` | aml-contract.go:72 | whenever a key parses into three segments, those segments contain no `_` and rebuild exactly that key |
| `Keys.ParseMakeKey` | aml-contract.go:72 | a key built from `_`-free fields parses back into those fields |
| `Keys.MakeKeyInjective` | aml-contract.go:39 | two triples of `_`-free fields with the same key are the same triple |
| `Keys.MakeKeyCollision` | aml-contract.go:72 | with `_` in a field, the distinct triples (TWN_A, 1, org0MSP) and (TWN, A_1, org0MSP) share one key |
| `Keys.LastSegmentOfKey` | aml-contract.go:240 | the last segment of a key is its owner when the owner has no `_`, whatever the country and id contain |
| `Keys.SameKeySameOwner` | aml-contract.go:210 | equal keys name the same owner when neither owner contains `_` |
| `Keys.OwnerCollision` | aml-contract.go:240 | org x with id A_y and org y_x with id A share the key TWN_A_y_x |
| `OrgIdentity.VerifyClientOrgMatchesPeerOrg` | aml-contract.go:127-141 | succeeds exactly when the peer's org is readable and equals the caller's; otherwise reports the unreadable peer identity, or the mismatch naming both orgs |
| `OrgIdentity.GetClientOrgID` | aml-contract.go:110-124 | succeeds exactly when the caller's org is readable and, if verification is asked for, equals the peer's; the result is then the caller's org; each failure reports its own error |
| `OrgIdentity.UnverifiedIgnoresPeer` | aml-contract.go:116-123 | without verification the result does not depend on the peer identity and is the caller's MSP ID unchanged |
| `WorldState.AmlExists` | aml-contract.go:51-60 | three outcomes: a read error gives (false, error); an absent key gives (false, no error); a present key gives (true, no error) |
| `WorldState.SetAssetStateBasedEndorsement` | aml-contract.go:145-164 | on success, the key's policy names exactly one org, the given one; every other key's policy and the world state are unchanged; on failure nothing changes and the policy error is reported |
| `AmlContract.Stamp` | aml-contract.go:80-87 | the written record copies the six client fields verbatim, has the caller's org as owner, and sits at the key its own fields name |
| `AmlContract.CreateAmlData` | aml-contract.go:63-103 | an org mismatch or unreadable identity fails before any read or write; a read error or an existing key fails with nothing changed, the latter naming country, id and owner; success holds exactly when identity is verified, the key is absent and no stub call fails; on success the stamped record is added under that key alone and the key's policy names the caller's org alone; a failed policy step reports an error after the record was already written |
| `AmlContract.UpdateAmlData` | aml-contract.go:202-230 | never checks the peer; an absent key reports NotFound and writes nothing; success holds exactly when the key is present and no stub call fails; on success only that key changes, to the stamped record; policies never change |
| `AmlContract.DeleteAmlData` | aml-contract.go:233-249 | an absent key reports NotFound; success holds exactly when the key is present and no stub call fails; on success exactly that key is removed; the key's policy is not cleared |
| `AmlContract.FirstUnwritable` | aml-contract.go:37-45 | all records before the returned position are writable, and the record at that position, if any, is not |
| `AmlContract.PutAll` | aml-contract.go:37-45 | the seeding loop succeeds exactly when no record's key is refused; otherwise it reports the first refused key; policies are unchanged |
| `AmlContract.PutAllFrame` | aml-contract.go:37-45 | the loop adds exactly the keys of the records before the first refused write, and no other key changes value |
| `AmlContract.PutAllPlaces` | aml-contract.go:37-45 | with distinct keys, every record written is found at the key built from its own fields |
| `AmlContract.InitLedger` | aml-contract.go:23-48 | succeeds exactly when no seed key is refused; otherwise reports the first refused seed key; adds exactly the keys of the seeds written before that point, each holding its own record, and leaves every other key's value and every policy unchanged |
| `AmlContract.PlainRecordsKeysDiffer` | aml-contract.go:39 | two records with `_`-free key fields and different triples are stored under different keys |
| `AmlContract.SeedKeysDistinct` | aml-contract.go:24-36 | the nine seed records have pairwise distinct keys |
| `Iterators.Drain` | aml-contract.go:185-196 | the batch succeeds exactly when every Next and every conversion succeeds; the result then has one converted item per fetched item, in order; otherwise the reported error is that of the first failing item, and no partial list is returned |
| `Query.DecodeRecord` | aml-contract.go:190-194 | decoding one document succeeds exactly when the codec decodes it, yields that record, and reports a decode error otherwise |
| `Query.ConstructQueryResponseFromIterator` | aml-contract.go:183-199 | one record per result, in iterator order, each the decoding of its document; any Next or decode failure fails the whole query with the first failure's error |
| `Query.GetQueryResultForQueryString` | aml-contract.go:172-180 | a query the engine rejects reports the query error; otherwise it succeeds exactly when every result is fetched and decodes, returns one record per result in order, and on failure reports the first failing result's Next or decode error |
| `Query.QueryRoundTrip` | aml-contract.go:183-199 | decoding the documents of stored records returns exactly those records in order |
| `History.ToTime` | aml-contract.go:278-281 | conversion succeeds exactly for a present timestamp within the protobuf valid range and keeps its seconds and nanoseconds; otherwise it reports a timestamp error |
| `History.Snapshot` | aml-contract.go:268-276 | an empty value yields the zero record; a non-empty value yields its decoding, or a decode error |
| `History.GetAssetHistory` | aml-contract.go:252-292 | reads the log of the key built from the triple as Create, Update and Delete build it; a log that cannot be opened is reported as an error; otherwise it succeeds exactly when every entry is fetched, decodes and has a valid timestamp, gives one entry per log entry in log order with txId and isDelete copied and the zero record for an empty value, and on failure reports the first failing entry's error |
| `History.ReplayLog` | aml-contract.go:261-292 | succeeds exactly when every entry is fetched, decodes and has a valid timestamp; then there is one entry per log entry, in log order, with txId and isDelete copied, the timestamp converted and the zero record for an empty value; a failure reports the first failing entry's error: Next, else decoding, else the timestamp |
| `History.ReplayCommittedVersions` | aml-contract.go:261-292 | a log of marshalled puts and empty-valued deletions with valid timestamps replays to exactly those versions in order: each put reads back as the record written, each deletion as the zero record flagged deleted |
| `History.CreateUpdateDeleteHistory` | aml-contract.go:262-292 | a log of create, update and delete versions yields three entries in that order, with isDelete false, false and true, and the zero record on the third |
| `Ownership.ConsistentOwnerEndorsed` | aml-contract.go:96-100 | in a consistent ledger, every record that has a policy is endorsed by its own owner |
| `Ownership.CreatePreservesConsistency` | aml-contract.go:72-100 | Create by a caller whose MSP ID has no `_` keeps the ledger consistent, including when it fails after writing |
| `Ownership.UpdatePreservesConsistency` | aml-contract.go:210-229 | Update by such a caller keeps the ledger consistent |
| `Ownership.DeletePreservesConsistency` | aml-contract.go:240-248 | Delete keeps the ledger consistent |
| `Ownership.PutAllPreservesWellKeyed` | aml-contract.go:37-45 | the seeding loop keeps every record at the key of its own fields |
| `Ownership.SeedOwnersPlain` | aml-contract.go:24-36 | no seed owner contains `_` |
| `Ownership.InitLedgerPreservesConsistency` | aml-contract.go:23-48 | InitLedger keeps the ledger consistent |
| `Ownership.UpdateIsolation` | aml-contract.go:204-229 | when the calling org's MSP ID and every stored owner contain no `_`, Update leaves every record of another owner untouched and never changes any record's owner |
| `Ownership.DeleteIsolation` | aml-contract.go:234-248 | when the calling org's MSP ID and every stored owner contain no `_`, Delete never removes another owner's record |
| `Ownership.SeparatorInOrgBreaksIsolation` | aml-contract.go:210-229 | an org x updating id A_y overwrites the record that org y_x stored for id A, and becomes its owner |
| `Lifecycle.CreateThenExists` | aml-contract.go:72-100 | after a committed Create the key exists and holds the stamped record |
| `Lifecycle.CreateTwice` | aml-contract.go:73-78 | a second identical Create reports AlreadyExists naming the triple and commits nothing |
| `Lifecycle.FailedCreateLeavesNoTrace` | aml-contract.go:91-100 | when only the policy step fails, the simulation holds the record but the call fails and the committed ledger is unchanged |
| `Lifecycle.DeleteThenAbsent` | aml-contract.go:240-248 | after a committed Delete the key no longer exists |
| `Lifecycle.CreateThenDelete` | aml-contract.go:233-249 | Delete after Create restores the world state exactly, while the policy Create attached remains |
| `Lifecycle.CreateThenUpdate` | aml-contract.go:210-229 | Update after Create succeeds, replaces the record with the new fields, and keeps the owner |
| `Lifecycle.UpdateIdempotent` | aml-contract.go:218-229 | repeating a committed Update succeeds and changes nothing further |
| `Lifecycle.UpdateDeleteIgnorePeer` | aml-contract.go:204-208 | Update and Delete give the same outcome whatever the peer's identity |
| `Lifecycle.CreateThenQuery` | aml-contract.go:183-199 | a created record read back through a query has the submitted fields and the caller's org as owner |
| `Lifecycle.DuplicateCreateScenario` | aml-contract.go:73-78 | creating Lee/Tom (TWN, A123456789) as org0 succeeds on an empty ledger, and repeating it fails with AlreadyExists(TWN, A123456789, org0) |

## Left out

- Fabric shim and contract-API plumbing (`GetStub`, `GetClientIdentity`, `shim.GetMSPID`) are replaced by parameters. The two MSP IDs are `Identity`, and stub failures are the per-key `Faults`.
- The `statebased` policy byte encoding is not modelled. A policy is the set of orgs whose peers must endorse. Failures of any of the four steps that build and attach the policy are folded into one per-key fault.
- WorldState.SetAssetStateBasedEndorsement: the policy records the org set only, not the peer role (`RoleTypePeer`), because every policy here uses that role.
- JSON is modelled at the object level only. `Aml` maps to and from a `map<string, string>` object. The byte-level marshaller and parser form an abstract `Codec` that is assumed `Sound` where a lemma needs it.
- Records.FromObject: matches the seven JSON names exactly. `encoding/json` also matches member names up to case folding, and an exact match and a case variant in one object resolve by member order; neither is modelled, because the object is a map without order. `Records.FromObjectIgnoresUnknown` therefore excludes every case variant of a field name.
- `encoding/json` ignores unknown members of any type, and a `null` value for one of the seven members leaves that field empty. Only a non-null, non-string value for one of the seven members makes unmarshalling fail, and that is folded into parse failure. The abstract parser's object holds only string members, so it drops ignored members before `Records.FromObject` sees them.
- Strings are sequences of Unicode characters, whereas Go strings are bytes. `json.Marshal` replaces invalid UTF-8 with U+FFFD, so for an argument that is not valid UTF-8 the stored record differs from the input and, when the country or id is affected, no longer sits at its own key. The codec's `Sound` round trip, `AmlContract.Stamp` being what is stored, and the `WellKeyed` invariant therefore cover valid UTF-8 arguments only.
- Error values are constructors of `Errors.Error`. The text `fmt.Errorf` wraps them in is not modelled.
- Go's nil slice for an empty query or history result is modelled as the empty sequence.
- The query engine (`GetQueryResult`, CouchDB selectors) and the history database are opaque functions from a query string or key to a result iterator.
- Iterator `Close`, `log.Printf` and `main.go` are left out, because they do not affect any result.
- The contract's `Query` method (aml-contract.go:166-168) only forwards to `getQueryResultForQueryString`, so it has no member of its own.
- Ordering, MVCC conflicts and validation-time enforcement of endorsement policies belong to the ledger. They are not modelled. `Commit` only states that a transaction whose function returned an error leaves the ledger unchanged.
- The store dropping a deleted key's metadata is also not modelled. The endorsement table keeps the entry, as the contract itself never clears it.
- The history database's recording of committed writes is not modelled. History lemmas take the key's log as given.
- Protobuf timestamp conversion follows the protobuf library's validity range (years 1 to 9999, nanoseconds below 10^9); the library is not part of this model. Seconds and nanoseconds are unbounded integers, and the valid range lies well inside Go's int64/int32.
- `GetState` reads committed state, not the transaction's own writes. No operation reads a key after writing it, so this is not modelled.
- aml-contract_test.go is not used as evidence, except TestAmlExists. Its other tests call methods and a field the contract does not have.
