/** The ownership invariant the contract maintains: every record sits at the
    key built from its own fields, and every endorsement policy names the
    owner segment of its key. With it, an org acting through Update or
    Delete can only reach its own records, provided MSP IDs contain no
    separator. */
module Ownership {
  import opened Outcomes
  import opened Errors
  import opened Records
  import opened Keys
  import opened OrgIdentity
  import opened WorldState
  import opened AmlContract

  /** Every record is stored under the key of its own (country, id, owner)
      triple, and its owner contains no separator. */
  ghost predicate WellKeyed(world: map<string, Aml>) {
    forall k :: k in world ==> KeyOf(world[k]) == k && Separator !in world[k].dataOwner
  }

  /** Every policy names the owner segment of its key as sole endorser. */
  ghost predicate EndorsedByKeyOwner(endorsements: map<string, Policy>) {
    forall k :: k in endorsements ==> endorsements[k] == OwnerPolicy(LastSegment(k))
  }

  ghost predicate Consistent(l: Ledger) {
    WellKeyed(l.world) && EndorsedByKeyOwner(l.endorsements)
  }

  /** The caller's MSP ID, when it has one, contains no separator. */
  predicate PlainCaller(who: Identity) {
    who.clientMsp.Some? ==> Separator !in who.clientMsp.value
  }

  /** In a well-keyed world the owner segment of a key is its record's owner. */
  lemma OwnerOfStoredRecord(world: map<string, Aml>, k: string)
    requires WellKeyed(world) && k in world
    ensures LastSegment(k) == world[k].dataOwner
  {
    LastSegmentOfKey(world[k].country, world[k].idNumber, world[k].dataOwner);
  }

  /** In a consistent ledger a record with a policy is endorsed by its owner. */
  lemma ConsistentOwnerEndorsed(l: Ledger)
    requires Consistent(l)
    ensures forall k :: k in l.world && k in l.endorsements ==> l.endorsements[k] == OwnerPolicy(l.world[k].dataOwner)
  {
    forall k | k in l.world && k in l.endorsements
      ensures l.endorsements[k] == OwnerPolicy(l.world[k].dataOwner)
    {
      OwnerOfStoredRecord(l.world, k);
    }
  }

  /** A record stamped for a separator-free org keeps the world well keyed. */
  lemma StampKeepsWellKeyed(world: map<string, Aml>, input: AmlInput, org: string, world': map<string, Aml>)
    requires WellKeyed(world) && Separator !in org
    requires var key := TargetKey(input.country, input.idNumber, org);
      key in world' && world'[key] == Stamp(input, org) && OnlyChanged(world, world', key)
    ensures WellKeyed(world')
  {
  }

  lemma CreatePreservesConsistency(l: Ledger, faults: Faults, who: Identity, input: AmlInput)
    requires Consistent(l) && PlainCaller(who)
    ensures Consistent(CreateAmlData(l, faults, who, input).ledger)
  {
    var s := CreateAmlData(l, faults, who, input);
    if s.ledger != l {
      var org := who.clientMsp.value;
      var key := TargetKey(input.country, input.idNumber, org);
      StampKeepsWellKeyed(l.world, input, org, s.ledger.world);
      LastSegmentOfKey(input.country, input.idNumber, org);
    }
  }

  lemma UpdatePreservesConsistency(l: Ledger, faults: Faults, who: Identity, input: AmlInput)
    requires Consistent(l) && PlainCaller(who)
    ensures Consistent(UpdateAmlData(l, faults, who, input).ledger)
  {
    var s := UpdateAmlData(l, faults, who, input);
    if s.status.Ok? {
      StampKeepsWellKeyed(l.world, input, who.clientMsp.value, s.ledger.world);
    }
  }

  lemma DeletePreservesConsistency(l: Ledger, faults: Faults, who: Identity, country: string, idNumber: string)
    ensures Consistent(l) ==> Consistent(DeleteAmlData(l, faults, who, country, idNumber).ledger)
  {
  }

  /** Writing records at their own keys keeps the world well keyed. */
  lemma {:induction false} PutAllPreservesWellKeyed(l: Ledger, faults: Faults, records: seq<Aml>)
    requires WellKeyed(l.world)
    requires forall j :: 0 <= j < |records| ==> Separator !in records[j].dataOwner
    ensures WellKeyed(PutAll(l, faults, records).ledger.world)
    decreases |records|
  {
    if records != [] {
      var first := PutState(l, faults, KeyOf(records[0]), records[0]);
      if first.status.Ok? {
        PutAllPreservesWellKeyed(first.ledger, faults, records[1..]);
      }
    }
  }

  lemma SeedOwnersPlain()
    ensures forall j :: 0 <= j < |SeedRecords()| ==> Separator !in SeedRecords()[j].dataOwner
  {
  }

  lemma InitLedgerPreservesConsistency(l: Ledger, faults: Faults)
    requires Consistent(l)
    ensures Consistent(InitLedger(l, faults).ledger)
  {
    SeedOwnersPlain();
    PutAllPreservesWellKeyed(l, faults, SeedRecords());
  }

  /** Update by a separator-free org never touches a record owned by another
      org, and never changes the owner of any record. */
  lemma UpdateIsolation(l: Ledger, faults: Faults, who: Identity, input: AmlInput)
    requires WellKeyed(l.world) && who.clientMsp.Some? && PlainCaller(who)
    ensures var s := UpdateAmlData(l, faults, who, input);
      && (forall k :: k in l.world && l.world[k].dataOwner != who.clientMsp.value ==>
            k in s.ledger.world && s.ledger.world[k] == l.world[k])
      && (forall k :: k in l.world && k in s.ledger.world ==> s.ledger.world[k].dataOwner == l.world[k].dataOwner)
  {
    var s := UpdateAmlData(l, faults, who, input);
    var org := who.clientMsp.value;
    var key := TargetKey(input.country, input.idNumber, org);
    if s.status.Ok? {
      LastSegmentOfKey(input.country, input.idNumber, org);
      OwnerOfStoredRecord(l.world, key);
    }
  }

  /** Delete by a separator-free org never removes a record owned by another
      org. */
  lemma DeleteIsolation(l: Ledger, faults: Faults, who: Identity, country: string, idNumber: string)
    requires WellKeyed(l.world) && who.clientMsp.Some? && PlainCaller(who)
    ensures var s := DeleteAmlData(l, faults, who, country, idNumber);
      forall k :: k in l.world && l.world[k].dataOwner != who.clientMsp.value ==>
        k in s.ledger.world && s.ledger.world[k] == l.world[k]
  {
    var s := DeleteAmlData(l, faults, who, country, idNumber);
    var org := who.clientMsp.value;
    var key := TargetKey(country, idNumber, org);
    if s.status.Ok? {
      LastSegmentOfKey(country, idNumber, org);
      OwnerOfStoredRecord(l.world, key);
    }
  }

  /** Without the separator restriction on MSP IDs the isolation fails: org
      "x" updating id "A_y" overwrites the record org "y_x" stored for id "A"
      and takes over its ownership. */
  lemma SeparatorInOrgBreaksIsolation()
    ensures var victim := Aml("Lee", "Tom", "1980/01/02", "TWN", "A", "y_x", "low");
      var l := Ledger(map[KeyOf(victim) := victim], map[]);
      var s := UpdateAmlData(l, NoFaults, Identity(Some("x"), None),
                             AmlInput("Lee", "Tom", "1980/01/02", "TWN", "A_y", "low"));
      && s.status.Ok?
      && KeyOf(victim) in s.ledger.world
      && s.ledger.world[KeyOf(victim)].dataOwner == "x"
  {
    OwnerCollision();
  }
}
