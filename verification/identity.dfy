/** Resolution of the acting organization. The caller's MSP ID comes from its
    certificate and the peer's MSP ID from the peer's environment; either
    lookup may fail, which is modelled by `None`. */
module OrgIdentity {
  import opened Outcomes
  import opened Errors

  datatype Identity = Identity(clientMsp: Option<string>, peerMsp: Option<string>)

  /** Checks that the caller's org is the peer's org. */
  function VerifyClientOrgMatchesPeerOrg(clientOrg: string, peerMsp: Option<string>): (r: Option<Error>)
    ensures r.None? <==> peerMsp == Some(clientOrg)
    ensures peerMsp.None? ==> r == Some(PeerIdentityUnavailable)
    ensures peerMsp.Some? && peerMsp.value != clientOrg ==> r == Some(OrgMismatch(clientOrg, peerMsp.value))
  {
    match peerMsp
    case None => Some(PeerIdentityUnavailable)
    case Some(peerOrg) => if clientOrg != peerOrg then Some(OrgMismatch(clientOrg, peerOrg)) else None
  }

  /** The caller's org, optionally verified against the peer's org. */
  function GetClientOrgID(who: Identity, verifyOrg: bool): (r: Result<string, Error>)
    ensures r.Ok? <==> who.clientMsp.Some? && (verifyOrg ==> who.peerMsp == who.clientMsp)
    ensures r.Ok? ==> r.value == who.clientMsp.value
    ensures who.clientMsp.None? ==> r == Err(ClientIdentityUnavailable)
    ensures verifyOrg && who.clientMsp.Some? && who.peerMsp.None? ==> r == Err(PeerIdentityUnavailable)
    ensures verifyOrg && who.clientMsp.Some? && who.peerMsp.Some? && who.peerMsp != who.clientMsp ==>
      r == Err(OrgMismatch(who.clientMsp.value, who.peerMsp.value))
  {
    match who.clientMsp
    case None => Err(ClientIdentityUnavailable)
    case Some(clientOrg) =>
      if verifyOrg then
        match VerifyClientOrgMatchesPeerOrg(clientOrg, who.peerMsp)
        case Some(e) => Err(e)
        case None => Ok(clientOrg)
      else Ok(clientOrg)
  }

  /** Without verification the peer's identity is never consulted: the
      outcome is the same whatever the peer's org is, or whether it can be
      read at all. */
  lemma UnverifiedIgnoresPeer(client: Option<string>, peer1: Option<string>, peer2: Option<string>)
    ensures GetClientOrgID(Identity(client, peer1), false) == GetClientOrgID(Identity(client, peer2), false)
    ensures client.Some? ==> GetClientOrgID(Identity(client, peer1), false) == Ok(client.value)
  {
  }
}
