/** The ledger as the contract sees it through its stub: the world state, the
    per-key endorsement policies, and the failures the stub may report. */
module WorldState {
  import opened Outcomes
  import opened Errors
  import opened Records

  /** A state-based endorsement policy: a peer of every listed org must
      endorse any later write to the key. */
  datatype Policy = Policy(orgs: set<string>)

  /** The policy that names one org as the sole required endorser. */
  function OwnerPolicy(org: string): Policy {
    Policy({org})
  }

  datatype Ledger = Ledger(world: map<string, Aml>, endorsements: map<string, Policy>)

  /** The keys on which each stub call fails. Which calls the ledger rejects
      is decided outside the contract, so it is a parameter of every
      operation. */
  datatype Faults = Faults(
    getFails: set<string>,
    putFails: set<string>,
    delFails: set<string>,
    policyFails: set<string>)

  const NoFaults: Faults := Faults({}, {}, {}, {})

  /** The outcome of one transaction function: the ledger as the simulation
      left it, with every stub write applied, and what the function returned. */
  datatype Step = Step(ledger: Ledger, status: Result<(), Error>)

  /** The ledger after the transaction is ordered and committed: a function
      that returns an error makes its transaction fail endorsement, so none of
      its writes survive. */
  function Commit(before: Ledger, s: Step): (after: Ledger)
    ensures s.status.Err? ==> after == before
    ensures s.status.Ok? ==> after == s.ledger
  {
    if s.status.Ok? then s.ledger else before
  }

  /** `before` and `after` agree on every key other than `key`. */
  ghost predicate OnlyChanged<V>(before: map<string, V>, after: map<string, V>, key: string) {
    forall k :: k != key ==> (k in before <==> k in after) && (k in before ==> before[k] == after[k])
  }

  /** Whether a record is stored under `key`: a read error comes back with
      `false`, a missing key gives `(false, None)` and a stored one
      `(true, None)`. */
  function AmlExists(ledger: Ledger, faults: Faults, key: string): (r: (bool, Option<Error>))
    ensures r.1.Some? <==> key in faults.getFails
    ensures r.1.Some? ==> !r.0 && r.1.value == ReadFailed(key)
    ensures r.1.None? ==> (r.0 <==> key in ledger.world)
  {
    if key in faults.getFails then (false, Some(ReadFailed(key)))
    else (key in ledger.world, None)
  }

  /** Stores `a` under `key`. */
  function PutState(ledger: Ledger, faults: Faults, key: string, a: Aml): (s: Step)
    ensures s.ledger.endorsements == ledger.endorsements
    ensures s.status.Ok? <==> key !in faults.putFails
    ensures s.status.Err? ==> s == Step(ledger, Err(WriteFailed(key)))
    ensures s.status.Ok? ==>
      key in s.ledger.world && s.ledger.world[key] == a && OnlyChanged(ledger.world, s.ledger.world, key)
  {
    if key in faults.putFails then Step(ledger, Err(WriteFailed(key)))
    else Step(ledger.(world := ledger.world[key := a]), Ok(()))
  }

  /** Removes `key` from the world state; its endorsement policy is left as
      it is. */
  function DelState(ledger: Ledger, faults: Faults, key: string): (s: Step)
    ensures s.ledger.endorsements == ledger.endorsements
    ensures s.status.Ok? <==> key !in faults.delFails
    ensures s.status.Err? ==> s == Step(ledger, Err(DeleteFailed(key)))
    ensures s.status.Ok? ==> key !in s.ledger.world && OnlyChanged(ledger.world, s.ledger.world, key)
  {
    if key in faults.delFails then Step(ledger, Err(DeleteFailed(key)))
    else Step(ledger.(world := ledger.world - {key}), Ok(()))
  }

  /** Attaches to `key` a policy naming `org` as its only endorser. Building
      the policy and setting it on the key are one step that may fail. */
  function SetAssetStateBasedEndorsement(ledger: Ledger, faults: Faults, key: string, org: string): (s: Step)
    ensures s.ledger.world == ledger.world
    ensures s.status.Ok? <==> key !in faults.policyFails
    ensures s.status.Err? ==> s == Step(ledger, Err(PolicyFailed(key)))
    ensures s.status.Ok? ==>
      && key in s.ledger.endorsements
      && s.ledger.endorsements[key].orgs == {org}
      && |s.ledger.endorsements[key].orgs| == 1
      && OnlyChanged(ledger.endorsements, s.ledger.endorsements, key)
  {
    if key in faults.policyFails then Step(ledger, Err(PolicyFailed(key)))
    else Step(ledger.(endorsements := ledger.endorsements[key := OwnerPolicy(org)]), Ok(()))
  }
}
