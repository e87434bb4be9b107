/** The transaction functions of the AML contract: seeding the ledger, and
    creating, updating and deleting one record. Each is a function of the
    ledger before the call, the stub's failures and the caller's identity. */
module AmlContract {
  import opened Outcomes
  import opened Errors
  import opened Records
  import opened Keys
  import opened OrgIdentity
  import opened WorldState

  /** The six fields a client supplies; the owner is never taken from the
      client but from its identity. */
  datatype AmlInput = AmlInput(
    lastName: string,
    firstName: string,
    dob: string,
    country: string,
    idNumber: string,
    riskLevel: string)

  /** The client-supplied part of a record. */
  function InputOf(a: Aml): AmlInput {
    AmlInput(a.lastName, a.firstName, a.dob, a.country, a.idNumber, a.riskLevel)
  }

  /** The record written for `input` on behalf of `org`: the six fields copied
      verbatim and the owner stamped with `org`, so that it sits at the key
      its own fields name. */
  function Stamp(input: AmlInput, org: string): (a: Aml)
    ensures InputOf(a) == input
    ensures a.dataOwner == org
    ensures KeyOf(a) == MakeKey(input.country, input.idNumber, org)
  {
    Aml(input.lastName, input.firstName, input.dob, input.country, input.idNumber, org, input.riskLevel)
  }

  /** The key an operation by `org` on `input` addresses. */
  function TargetKey(country: string, idNumber: string, org: string): string {
    MakeKey(country, idNumber, org)
  }

  /** Whether the caller passes the org check Create demands. */
  predicate Verified(who: Identity) {
    who.clientMsp.Some? && who.peerMsp == who.clientMsp
  }

  function CreateAmlData(ledger: Ledger, faults: Faults, who: Identity, input: AmlInput): (s: Step)
    // The org check comes before any read or write.
    ensures !Verified(who) ==> s == Step(ledger, Err(GetClientOrgID(who, true).error))
    ensures s.status.Ok? <==>
      && Verified(who)
      && var key := TargetKey(input.country, input.idNumber, who.clientMsp.value);
      && key !in faults.getFails && key !in ledger.world
      && key !in faults.putFails && key !in faults.policyFails
    ensures Verified(who) ==>
      var org := who.clientMsp.value;
      var key := TargetKey(input.country, input.idNumber, org);
      && (key in faults.getFails ==> s == Step(ledger, Err(ReadFailed(key))))
      && (key !in faults.getFails && key in ledger.world ==>
            s == Step(ledger, Err(AlreadyExists(input.country, input.idNumber, org))))
      && (key !in faults.getFails && key !in ledger.world && key in faults.putFails ==>
            s == Step(ledger, Err(WriteFailed(key))))
      // Once the record is written it stays written in the simulation, even
      // when attaching the policy then fails.
      && (key !in faults.getFails && key !in ledger.world && key !in faults.putFails ==>
            && key in s.ledger.world
            && s.ledger.world[key] == Stamp(input, org)
            && OnlyChanged(ledger.world, s.ledger.world, key)
            && (s.status.Ok? ==>
                  && key in s.ledger.endorsements
                  && s.ledger.endorsements[key] == OwnerPolicy(org)
                  && OnlyChanged(ledger.endorsements, s.ledger.endorsements, key))
            && (s.status.Err? ==>
                  s.status.error == PolicyFailed(key) && s.ledger.endorsements == ledger.endorsements))
  {
    match GetClientOrgID(who, true)
    case Err(e) => Step(ledger, Err(e))
    case Ok(org) =>
      var key := TargetKey(input.country, input.idNumber, org);
      var (present, err) := AmlExists(ledger, faults, key);
      if err.Some? then Step(ledger, Err(err.value))
      else if present then Step(ledger, Err(AlreadyExists(input.country, input.idNumber, org)))
      else
        var written := PutState(ledger, faults, key, Stamp(input, org));
        if written.status.Err? then written
        else SetAssetStateBasedEndorsement(written.ledger, faults, key, org)
  }

  function UpdateAmlData(ledger: Ledger, faults: Faults, who: Identity, input: AmlInput): (s: Step)
    ensures who.clientMsp.None? ==> s == Step(ledger, Err(ClientIdentityUnavailable))
    // A failed update leaves no trace, and no update touches a policy.
    ensures s.status.Err? ==> s.ledger == ledger
    ensures s.ledger.endorsements == ledger.endorsements
    ensures s.status.Ok? <==>
      && who.clientMsp.Some?
      && var key := TargetKey(input.country, input.idNumber, who.clientMsp.value);
      && key !in faults.getFails && key in ledger.world && key !in faults.putFails
    ensures who.clientMsp.Some? ==>
      var org := who.clientMsp.value;
      var key := TargetKey(input.country, input.idNumber, org);
      && (key in faults.getFails ==> s.status == Err(ReadFailed(key)))
      && (key !in faults.getFails && key !in ledger.world ==>
            s.status == Err(NotFound(input.country, input.idNumber, org)))
      && (key !in faults.getFails && key in ledger.world && key in faults.putFails ==>
            s.status == Err(WriteFailed(key)))
      && (s.status.Ok? ==>
            && key in s.ledger.world
            && s.ledger.world[key] == Stamp(input, org)
            && OnlyChanged(ledger.world, s.ledger.world, key))
  {
    match GetClientOrgID(who, false)
    case Err(e) => Step(ledger, Err(e))
    case Ok(org) =>
      var key := TargetKey(input.country, input.idNumber, org);
      var (present, err) := AmlExists(ledger, faults, key);
      if err.Some? then Step(ledger, Err(err.value))
      else if !present then Step(ledger, Err(NotFound(input.country, input.idNumber, org)))
      else PutState(ledger, faults, key, Stamp(input, org))
  }

  function DeleteAmlData(ledger: Ledger, faults: Faults, who: Identity, country: string, idNumber: string): (s: Step)
    ensures who.clientMsp.None? ==> s == Step(ledger, Err(ClientIdentityUnavailable))
    ensures s.status.Err? ==> s.ledger == ledger
    // The key's endorsement policy is not cleared.
    ensures s.ledger.endorsements == ledger.endorsements
    ensures s.status.Ok? <==>
      && who.clientMsp.Some?
      && var key := TargetKey(country, idNumber, who.clientMsp.value);
      && key !in faults.getFails && key in ledger.world && key !in faults.delFails
    ensures who.clientMsp.Some? ==>
      var org := who.clientMsp.value;
      var key := TargetKey(country, idNumber, org);
      && (key in faults.getFails ==> s.status == Err(ReadFailed(key)))
      && (key !in faults.getFails && key !in ledger.world ==> s.status == Err(NotFound(country, idNumber, org)))
      && (key !in faults.getFails && key in ledger.world && key in faults.delFails ==>
            s.status == Err(DeleteFailed(key)))
      && (s.status.Ok? ==> key !in s.ledger.world && OnlyChanged(ledger.world, s.ledger.world, key))
  {
    match GetClientOrgID(who, false)
    case Err(e) => Step(ledger, Err(e))
    case Ok(org) =>
      var key := TargetKey(country, idNumber, org);
      var (present, err) := AmlExists(ledger, faults, key);
      if err.Some? then Step(ledger, Err(err.value))
      else if !present then Step(ledger, Err(NotFound(country, idNumber, org)))
      else DelState(ledger, faults, key)
  }

  /** The records InitLedger writes. */
  function SeedRecords(): seq<Aml> {
    [ Aml("Lee", "Tom", "1980/01/02", "TWN", "A123456789", "org0MSP", "low"),
      Aml("Tseng", "Ling-Pei", "1982/02/20", "TWN", "D111111111", "org0MSP", "high"),
      Aml("Chan", "Yip", "1970/02/15", "HKG", "ABZG156465", "org0MSP", "medium"),
      Aml("Lee", "Tom", "1980/01/02", "TWN", "A123456789", "org1MSP", "low"),
      Aml("Li", "Kuei-Jung", "1973/10/04", "NLD", "CALZ12557", "org1MSP", "low"),
      Aml("Shen", "Lung-Tsu", "1979/05/14", "TWN", "F123456789", "org1MSP", "low"),
      Aml("Lee", "Tom", "1980/01/02", "TWN", "A123456789", "org2MSP", "low"),
      Aml("TSUNG", "CHUN-CHEN", "1982/06/10", "TWN", "B123456789", "org2MSP", "medium"),
      Aml("Chan", "Chi-Jong", "1975/04/03", "TWN", "C123456789", "org2MSP", "low") ]
  }

  /** The number of records written before the first one whose key the stub
      refuses. */
  function FirstUnwritable(records: seq<Aml>, putFails: set<string>): (n: nat)
    ensures n <= |records|
    ensures forall j :: 0 <= j < n ==> KeyOf(records[j]) !in putFails
    ensures n < |records| ==> KeyOf(records[n]) in putFails
  {
    if records == [] || KeyOf(records[0]) in putFails then 0
    else 1 + FirstUnwritable(records[1..], putFails)
  }

  /** The keys of the first `n` records. */
  function KeysOf(records: seq<Aml>, n: nat): set<string>
    requires n <= |records|
  {
    set j | 0 <= j < n :: KeyOf(records[j])
  }

  ghost predicate DistinctKeys(records: seq<Aml>) {
    forall i, j :: 0 <= i < j < |records| ==> KeyOf(records[i]) != KeyOf(records[j])
  }

  /** Stores each record under the key built from its own fields, in order,
      stopping at the first write the stub refuses. */
  function PutAll(ledger: Ledger, faults: Faults, records: seq<Aml>): (s: Step)
    ensures s.ledger.endorsements == ledger.endorsements
    ensures s.status.Ok? <==> FirstUnwritable(records, faults.putFails) == |records|
    ensures s.status.Err? ==>
      s.status.error == WriteFailed(KeyOf(records[FirstUnwritable(records, faults.putFails)]))
    decreases |records|
  {
    if records == [] then Step(ledger, Ok(()))
    else
      var first := PutState(ledger, faults, KeyOf(records[0]), records[0]);
      if first.status.Err? then first
      else PutAll(first.ledger, faults, records[1..])
  }

  /** The keys of records[..n] are the key of records[0] and those of the
      rest. */
  lemma KeysOfCons(records: seq<Aml>, n: nat)
    requires 0 < n <= |records|
    ensures KeysOf(records, n) == {KeyOf(records[0])} + KeysOf(records[1..], n - 1)
  {
    var rest := records[1..];
    forall k | k in KeysOf(records, n) ensures k in {KeyOf(records[0])} + KeysOf(rest, n - 1) {
      var j :| 0 <= j < n && KeyOf(records[j]) == k;
      if j > 0 {
        assert KeyOf(rest[j - 1]) == k;
      }
    }
    forall k | k in KeysOf(rest, n - 1) ensures k in KeysOf(records, n) {
      var j :| 0 <= j < n - 1 && KeyOf(rest[j]) == k;
      assert KeyOf(records[j + 1]) == k;
    }
  }

  /** PutAll adds exactly the keys of the records before the first refused
      write, and leaves the value of every other key alone. */
  lemma {:induction false} PutAllFrame(ledger: Ledger, faults: Faults, records: seq<Aml>)
    ensures var s := PutAll(ledger, faults, records);
      var n := FirstUnwritable(records, faults.putFails);
      && s.ledger.world.Keys == ledger.world.Keys + KeysOf(records, n)
      && (forall k :: k in ledger.world && k !in KeysOf(records, n) ==> s.ledger.world[k] == ledger.world[k])
    decreases |records|
  {
    var n := FirstUnwritable(records, faults.putFails);
    if records == [] || KeyOf(records[0]) in faults.putFails {
      assert KeysOf(records, n) == {};
    } else {
      var first := PutState(ledger, faults, KeyOf(records[0]), records[0]);
      assert PutAll(ledger, faults, records) == PutAll(first.ledger, faults, records[1..]);
      PutAllFrame(first.ledger, faults, records[1..]);
      KeysOfCons(records, n);
    }
  }

  /** With distinct keys, every record PutAll wrote is found at its own key. */
  lemma {:induction false} PutAllPlaces(ledger: Ledger, faults: Faults, records: seq<Aml>)
    requires DistinctKeys(records)
    ensures var s := PutAll(ledger, faults, records);
      forall j :: 0 <= j < FirstUnwritable(records, faults.putFails) ==>
        KeyOf(records[j]) in s.ledger.world && s.ledger.world[KeyOf(records[j])] == records[j]
    decreases |records|
  {
    var n := FirstUnwritable(records, faults.putFails);
    if records != [] && KeyOf(records[0]) !in faults.putFails {
      var key := KeyOf(records[0]);
      var first := PutState(ledger, faults, key, records[0]);
      var rest := records[1..];
      var m := FirstUnwritable(rest, faults.putFails);
      assert PutAll(ledger, faults, records) == PutAll(first.ledger, faults, rest);
      assert DistinctKeys(rest) by {
        forall i, j | 0 <= i < j < |rest| ensures KeyOf(rest[i]) != KeyOf(rest[j]) {
          assert KeyOf(records[i + 1]) != KeyOf(records[j + 1]);
        }
      }
      PutAllPlaces(first.ledger, faults, rest);
      PutAllFrame(first.ledger, faults, rest);
      assert key !in KeysOf(rest, m);
      forall j | 0 <= j < n
        ensures KeyOf(records[j]) in PutAll(ledger, faults, records).ledger.world
        ensures PutAll(ledger, faults, records).ledger.world[KeyOf(records[j])] == records[j]
      {
        if j > 0 {
          assert records[j] == rest[j - 1];
        }
      }
    }
  }

  /** Seeds the ledger with the nine sample records, without endorsement
      policies and without any identity check. */
  function InitLedger(ledger: Ledger, faults: Faults): (s: Step)
    ensures s.ledger.endorsements == ledger.endorsements
    ensures var n := FirstUnwritable(SeedRecords(), faults.putFails);
      && (s.status.Ok? <==> n == |SeedRecords()|)
      && (s.status.Err? ==> s.status.error == WriteFailed(KeyOf(SeedRecords()[n])))
      && s.ledger.world.Keys == ledger.world.Keys + KeysOf(SeedRecords(), n)
      && (forall j :: 0 <= j < n ==> s.ledger.world[KeyOf(SeedRecords()[j])] == SeedRecords()[j])
      && (forall k :: k in ledger.world && k !in KeysOf(SeedRecords(), n) ==> s.ledger.world[k] == ledger.world[k])
  {
    SeedKeysDistinct();
    PutAllFrame(ledger, faults, SeedRecords());
    PutAllPlaces(ledger, faults, SeedRecords());
    PutAll(ledger, faults, SeedRecords())
  }

  /** Records whose key fields contain no separator share a key only when
      they share the (country, id, owner) triple. */
  lemma PlainRecordsKeysDiffer(a: Aml, b: Aml)
    requires Separator !in a.country && Separator !in a.idNumber && Separator !in a.dataOwner
    requires Separator !in b.country && Separator !in b.idNumber && Separator !in b.dataOwner
    requires (a.country, a.idNumber, a.dataOwner) != (b.country, b.idNumber, b.dataOwner)
    ensures KeyOf(a) != KeyOf(b)
  {
    if KeyOf(a) == KeyOf(b) {
      MakeKeyInjective(a.country, a.idNumber, a.dataOwner, b.country, b.idNumber, b.dataOwner);
    }
  }

  /** No two seed records share a key: their (country, id, owner) triples
      differ and none of the fields contains the separator. */
  lemma SeedKeysDistinct()
    ensures DistinctKeys(SeedRecords())
  {
    var rs := SeedRecords();
    forall i, j | 0 <= i < j < |rs| ensures KeyOf(rs[i]) != KeyOf(rs[j]) {
      PlainRecordsKeysDiffer(rs[i], rs[j]);
    }
  }
}
