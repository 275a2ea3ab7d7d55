/** The relay's record types and the pure decisions on pairing commits (model.go). */
module Records {

  /** Identifiers, hashes and source keys are only ever compared for equality.  ABSENT is the empty
      string, which the record types omit from the stored item. */
  type Id = nat
  const ABSENT: Id := 0

  datatype Option<+T> = None | Some(value: T)

  function Lookup<K, V>(m: map<K, V>, k: K): (r: Option<V>)
    ensures r.Some? <==> k in m
    ensures r.Some? ==> r.value == m[k]
  {
    if k in m then Some(m[k]) else None
  }

  datatype Role = Controller | Companion

  datatype AuthMode = PairingAuth | EndpointAuth

  datatype Connection = Connection(
    connectionId: Id, authMode: AuthMode, endpointId: Id, sourceKey: Id, pairingId: Id,
    connectedAt: int, expiresAt: int)

  datatype Endpoint = Endpoint(
    endpointId: Id, credentialHash: Id, role: Role, connectionId: Id, activeSessionId: Id,
    revokedAt: int, createdAt: int, updatedAt: int)

  datatype LinkStatus = LinkActive | LinkRevoked

  datatype Link = Link(
    linkId: Id, controllerId: Id, companionId: Id, status: LinkStatus, activeSessionId: Id,
    createdAt: int, revokedAt: int)

  datatype SessionStatus = SessionActive | SessionClosed

  datatype Session = Session(
    sessionId: Id, linkId: Id, controllerId: Id, companionId: Id,
    controllerConnectionId: Id, companionConnectionId: Id,
    status: SessionStatus, createdAt: int, expiresAt: int, closedAt: int)

  datatype PairSide = PairSide(connectionId: Id, sideId: Id)

  datatype PairIdentity = PairIdentity(endpointId: Id, role: Role)

  datatype PairEndpointCommit = PairEndpointCommit(endpointId: Id, role: Role, credentialHash: Id)

  datatype PairCommit = PairCommit(
    connectionId: Id, sideId: Id, linkId: Id, self: PairEndpointCommit, peer: PairIdentity)

  datatype PairStatus = PairOpen | PairReady | PairHalf | PairActive | PairClosed

  datatype Pair = Pair(
    pairId: Id, locator: Id, joinTokenHash: Id, status: PairStatus, sideA: PairSide,
    sideB: Option<PairSide>, commitA: Option<PairCommit>, commitB: Option<PairCommit>, expiresAt: int)

  datatype ErrorCode =
    | Unauthenticated | Forbidden | InvalidMessage | PairUnavailable | PairFull | PairExpired
    | PeerOffline | PeerBusy | SessionNotFound | RateLimited | Conflict | Internal

  datatype Result<+T> = Ok(value: T) | Err(code: ErrorCode, retryable: bool) {
    function ToOption(): Option<T> {
      match this case Ok(value) => Some(value) case Err(_, _) => None
    }
  }

  predicate ReciprocalCommits(a: PairCommit, b: PairCommit) {
    && a.linkId == b.linkId
    && a.self.endpointId != a.peer.endpointId
    && a.self.endpointId == b.peer.endpointId
    && a.peer.endpointId == b.self.endpointId
    && a.self.role == b.peer.role
    && a.peer.role == b.self.role
    && a.self.role != a.peer.role
  }

  lemma ReciprocalEitherWay(a: PairCommit, b: PairCommit)
    ensures ReciprocalCommits(a, b) <==> ReciprocalCommits(b, a)
  {
  }

  function LinkFromCommits(a: PairCommit, b: PairCommit, now: int): (r: Result<Link>)
    ensures r.Ok? <==> ReciprocalCommits(a, b)
  {
    if !ReciprocalCommits(a, b) then Err(Conflict, false)
    else
      var controller := if b.self.role == Controller then b.self else a.self;
      var companion := if b.self.role == Controller then a.self else b.self;
      Ok(Link(a.linkId, controller.endpointId, companion.endpointId, LinkActive, ABSENT, now, 0))
  }

  /** Two commits make a link exactly when each names the other's endpoint and role.  Which of them comes first
      does not matter: the link is the one that both name, new and ACTIVE and without a session, and its two ends
      are the two committed endpoints, each under the role its own commit and its peer's commit give it. */
  lemma LinkJoinsBothCommits(a: PairCommit, b: PairCommit, now: int)
    ensures LinkFromCommits(a, b, now) == LinkFromCommits(b, a, now)
    ensures LinkFromCommits(a, b, now).Ok? <==>
              && a.linkId == b.linkId && a.self.endpointId != b.self.endpointId && a.self.role != b.self.role
              && a.peer == PairIdentity(b.self.endpointId, b.self.role)
              && b.peer == PairIdentity(a.self.endpointId, a.self.role)
    ensures LinkFromCommits(a, b, now).Ok? ==>
              var link := LinkFromCommits(a, b, now).value;
              && link.linkId == a.linkId == b.linkId
              && link.status == LinkActive && link.activeSessionId == ABSENT && link.revokedAt == 0
              && link.createdAt == now
              && link.controllerId != link.companionId
              && {link.controllerId, link.companionId} == {a.self.endpointId, b.self.endpointId}
              && (a.self.endpointId == link.controllerId <==> a.self.role == Controller)
              && (b.self.endpointId == link.controllerId <==> b.self.role == Controller)
  {
  }

  function Closed(session: Session, now: int): Session {
    session.(status := SessionClosed, closedAt := now)
  }
}
