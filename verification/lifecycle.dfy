/** How the transaction functions compose once their transactions commit: a
    record's life from Absent through Present and back. */
module Lifecycle {
  import opened Outcomes
  import opened Errors
  import opened Records
  import opened Keys
  import opened OrgIdentity
  import opened WorldState
  import opened AmlContract
  import opened Codec
  import opened Query

  /** After a committed Create the record is present, stamped for the caller. */
  lemma CreateThenExists(l: Ledger, faults: Faults, who: Identity, input: AmlInput)
    requires CreateAmlData(l, faults, who, input).status.Ok?
    ensures var after := Commit(l, CreateAmlData(l, faults, who, input));
      var key := TargetKey(input.country, input.idNumber, who.clientMsp.value);
      && AmlExists(after, faults, key) == (true, None)
      && after.world[key] == Stamp(input, who.clientMsp.value)
  {
  }

  /** A second identical Create reports AlreadyExists, naming the triple, and
      leaves the first record as it was. */
  lemma CreateTwice(l: Ledger, faults: Faults, who: Identity, input: AmlInput)
    requires CreateAmlData(l, faults, who, input).status.Ok?
    ensures var after := Commit(l, CreateAmlData(l, faults, who, input));
      var again := CreateAmlData(after, faults, who, input);
      && again == Step(after, Err(AlreadyExists(input.country, input.idNumber, who.clientMsp.value)))
      && Commit(after, again) == after
  {
  }

  /** When the policy cannot be attached, the simulation has already written
      the record, yet the call fails and the committed ledger is unchanged. */
  lemma FailedCreateLeavesNoTrace(l: Ledger, faults: Faults, who: Identity, input: AmlInput)
    requires Verified(who)
    requires var key := TargetKey(input.country, input.idNumber, who.clientMsp.value);
      key !in faults.getFails && key !in l.world && key !in faults.putFails && key in faults.policyFails
    ensures var s := CreateAmlData(l, faults, who, input);
      var key := TargetKey(input.country, input.idNumber, who.clientMsp.value);
      && key in s.ledger.world
      && s.ledger.world[key] == Stamp(input, who.clientMsp.value)
      && s.status == Err(PolicyFailed(key))
      && Commit(l, s) == l
  {
  }

  /** After a committed Delete the record is absent. */
  lemma DeleteThenAbsent(l: Ledger, faults: Faults, who: Identity, country: string, idNumber: string)
    requires DeleteAmlData(l, faults, who, country, idNumber).status.Ok?
    ensures var after := Commit(l, DeleteAmlData(l, faults, who, country, idNumber));
      AmlExists(after, faults, TargetKey(country, idNumber, who.clientMsp.value)) == (false, None)
  {
  }

  /** Delete undoes Create on the world state; the policy Create attached
      stays behind. */
  lemma CreateThenDelete(l: Ledger, faults: Faults, who: Identity, input: AmlInput)
    requires CreateAmlData(l, faults, who, input).status.Ok?
    requires TargetKey(input.country, input.idNumber, who.clientMsp.value) !in faults.delFails
    ensures var after := Commit(l, CreateAmlData(l, faults, who, input));
      var removed := DeleteAmlData(after, faults, who, input.country, input.idNumber);
      var key := TargetKey(input.country, input.idNumber, who.clientMsp.value);
      && removed.status.Ok?
      && removed.ledger.world == l.world
      && key in removed.ledger.endorsements
      && removed.ledger.endorsements[key] == OwnerPolicy(who.clientMsp.value)
  {
    var s := CreateAmlData(l, faults, who, input);
    var key := TargetKey(input.country, input.idNumber, who.clientMsp.value);
    var removed := DeleteAmlData(s.ledger, faults, who, input.country, input.idNumber);
    assert removed.ledger.world == l.world by {
      assert removed.ledger.world.Keys == l.world.Keys;
    }
  }

  /** Update after Create replaces the whole record, keeping the owner. */
  lemma CreateThenUpdate(l: Ledger, faults: Faults, who: Identity, input: AmlInput, changed: AmlInput)
    requires CreateAmlData(l, faults, who, input).status.Ok?
    requires changed.country == input.country && changed.idNumber == input.idNumber
    ensures var after := Commit(l, CreateAmlData(l, faults, who, input));
      var updated := UpdateAmlData(after, faults, who, changed);
      var key := TargetKey(input.country, input.idNumber, who.clientMsp.value);
      && updated.status.Ok?
      && updated.ledger.world[key] == Stamp(changed, who.clientMsp.value)
      && updated.ledger.world[key].dataOwner == after.world[key].dataOwner
  {
  }

  /** Repeating a committed Update changes nothing more. */
  lemma UpdateIdempotent(l: Ledger, faults: Faults, who: Identity, input: AmlInput)
    requires UpdateAmlData(l, faults, who, input).status.Ok?
    ensures var after := Commit(l, UpdateAmlData(l, faults, who, input));
      UpdateAmlData(after, faults, who, input) == Step(after, Ok(()))
  {
    var s := UpdateAmlData(l, faults, who, input);
    var key := TargetKey(input.country, input.idNumber, who.clientMsp.value);
    assert s.ledger.world[key := Stamp(input, who.clientMsp.value)] == s.ledger.world;
  }

  /** Update and Delete never check the caller against the peer: their
      outcome does not depend on the peer's identity. */
  lemma UpdateDeleteIgnorePeer(
    l: Ledger, faults: Faults, client: Option<string>, peer1: Option<string>, peer2: Option<string>,
    input: AmlInput, country: string, idNumber: string)
    ensures UpdateAmlData(l, faults, Identity(client, peer1), input) ==
            UpdateAmlData(l, faults, Identity(client, peer2), input)
    ensures DeleteAmlData(l, faults, Identity(client, peer1), country, idNumber) ==
            DeleteAmlData(l, faults, Identity(client, peer2), country, idNumber)
  {
    UnverifiedIgnoresPeer(client, peer1, peer2);
  }

  /** Reading a created record back through a query gives the submitted
      fields, with the owner forced to the caller's org. */
  lemma CreateThenQuery(l: Ledger, faults: Faults, who: Identity, input: AmlInput, c: Codec)
    requires Sound(c)
    requires CreateAmlData(l, faults, who, input).status.Ok?
    ensures var after := Commit(l, CreateAmlData(l, faults, who, input));
      var key := TargetKey(input.country, input.idNumber, who.clientMsp.value);
      var r := ConstructQueryResponseFromIterator(Documents(c, [after.world[key]]), c);
      && r.Ok? && |r.value| == 1
      && InputOf(r.value[0]) == input
      && r.value[0].dataOwner == who.clientMsp.value
  {
    var after := Commit(l, CreateAmlData(l, faults, who, input));
    var key := TargetKey(input.country, input.idNumber, who.clientMsp.value);
    QueryRoundTrip(c, [after.world[key]]);
  }

  /** Creating Tom Lee's TWN record as org0 on an empty ledger succeeds, and
      repeating it is refused with AlreadyExists naming TWN, A123456789 and
      org0. */
  lemma DuplicateCreateScenario()
    ensures var who := Identity(Some("org0"), Some("org0"));
      var input := AmlInput("Lee", "Tom", "1980/01/02", "TWN", "A123456789", "low");
      var empty := Ledger(map[], map[]);
      var first := CreateAmlData(empty, NoFaults, who, input);
      && first.status.Ok?
      && CreateAmlData(Commit(empty, first), NoFaults, who, input).status ==
           Err(AlreadyExists("TWN", "A123456789", "org0"))
  {
    var who := Identity(Some("org0"), Some("org0"));
    var input := AmlInput("Lee", "Tom", "1980/01/02", "TWN", "A123456789", "low");
    CreateTwice(Ledger(map[], map[]), NoFaults, who, input);
  }
}
