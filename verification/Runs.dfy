/** Runs of the relay: any number of invocations interleave, each acting on reads that may be stale by
    the time its transaction commits, while records expire and the clock moves. */
module Runs {
  import opened Records
  import opened Table
  import opened Routing
  import opened Transitions
  import opened Plans
  import opened Refinement
  import opened Pairing
  import opened ActivationStep

  /** Which earlier tables the reads of a transition saw. */
  datatype TailReads = TailReads(session: nat, link: nat, controller: nat, companion: nat)

  /** One step: the clock, a TTL deletion, or one committed transaction together with the reads that its
      write list was built from. */
  datatype Event =
    | Tick(to: int)
    | Expire(item: Item)
    | ConnectPairing(c: Connection)
    | ConnectEndpoint(c: Connection, credentialHash: Id, atEndpoint: nat, atExisting: nat, tail: TailReads)
    | DisconnectPairing(connectionId: Id, atConnection: nat, atPair: nat)
    | DisconnectEndpoint(connectionId: Id, now: int, atConnection: nat, atEndpoint: nat, tail: TailReads)
    | DropRecord(connectionId: Id, atConnection: nat, atEndpoint: nat)
    | CreatePair(pair: Pair)
    | JoinPair(pairId: Id, door: AdmissionKey, side: PairSide, now: int, atPair: nat)
    | CommitHalf(pairId: Id, slot: Slot, commit: PairCommit, now: int, atPair: nat)
    | CommitFull(pairId: Id, slot: Slot, commit: PairCommit, sourceKey: Id, now: int, atPair: nat)
    | CancelPair(pairId: Id, connectionId: Id, now: int, atPair: nat)
    | RevokeLink(linkId: Id, endpointId: Id, connectionId: Id, now: int, atCaller: nat, atLink: nat, tail: TailReads)
    | Rotate(endpointId: Id, connectionId: Id, credentialHash: Id, now: int)
    | RevokeEndpoint(endpointId: Id, connectionId: Id, now: int, atEndpoint: nat, tail: TailReads)
    | OpenSession(linkId: Id, endpointId: Id, connectionId: Id, sessionId: Id, now: int,
                  atLink: nat, atController: nat, atCompanion: nat)
    | Repair(sessionId: Id, linkId: Id, now: int, atLink: nat, atPointer: nat, tail: TailReads)
    | CloseSession(sessionId: Id, fence: Fence, now: int, atCaller: nat, tail: TailReads)
    | Charge(rate: RateKey, limit: int, expiresAt: int)

  const NO_TABLE := Db(0, map[], map[], map[], map[], map[], map[], map[], {}, {}, {}, [], 0)

  /** The table at a position of a history, and the step at a position of a run. */
  function At(h: seq<Db>, i: int): Db { if 0 <= i < |h| then h[i] else NO_TABLE }

  function StepAt(events: seq<Event>, k: int): Event { if 0 <= k < |events| then events[k] else Tick(0) }

  /** The position of the last table, and the table. */
  function Newest(h: seq<Db>): nat { if h == [] then 0 else |h| - 1 }

  function Last(h: seq<Db>): Db { At(h, |h| - 1) }

  /** The history up to and including one of its tables. */
  function Upto(h: seq<Db>, i: int): seq<Db> { if 0 <= i < |h| then h[..i + 1] else h }

  predicate TailInOrder(h: seq<Db>, from: nat, t: TailReads) {
    from <= t.session <= t.link <= t.controller <= t.companion < |h|
  }

  function ReadsAt(h: seq<Db>, t: TailReads): Reads {
    Reads(At(h, t.session), At(h, t.link), At(h, t.controller), At(h, t.companion))
  }

  predicate Timely(h: seq<Db>, now: int) { 0 < now <= Last(h).now < now + INVOCATION_SECONDS }

  /** How long a connection record and a pair are kept. */
  const CONNECTION_SECONDS := 2 * 60 * 60 + 5 * 60
  const PAIRING_SECONDS := 5 * 60

  predicate NewConnection(c: Connection) {
    c.connectionId != ABSENT && c.pairingId == ABSENT && c.expiresAt == c.connectedAt + 7_500
  }

  /** A pair as PairByID returns it. */
  predicate PairRead(db: Db, pairId: Id) {
    pairId != ABSENT && pairId in db.pairs && db.pairs[pairId].pairId == pairId
  }

  predicate Waiting(p: Pair, slot: Slot, commit: PairCommit) {
    && (p.status == PairReady || p.status == PairHalf)
    && OwnSlot(p, slot, commit)
    && Commit(p, slot).None?
  }

  /** The message schema admits no empty identifier. */
  predicate CommitIds(commit: PairCommit) {
    commit.linkId != ABSENT && commit.self.endpointId != ABSENT && commit.peer.endpointId != ABSENT
  }

  predicate Pending(status: PairStatus) { status != PairActive && status != PairClosed }

  function Door(pair: Pair): AdmissionKey {
    if pair.joinTokenHash != ABSENT then JoinKey(pair.joinTokenHash) else LocatorKey(pair.locator)
  }

  predicate NewPair(pair: Pair) {
    && pair.pairId != ABSENT && pair.sideA.connectionId != ABSENT
    && (pair.locator == ABSENT) != (pair.joinTokenHash == ABSENT)
    && pair == Pair(pair.pairId, pair.locator, pair.joinTokenHash, PairOpen, pair.sideA, None, None, None,
                    pair.expiresAt)
  }

  /** The link, its controller or its companion was read pointing at the session. */
  predicate PointerRead(db: Db, link: Link, sessionId: Id) {
    && sessionId != ABSENT
    && (|| LinkPoints(Lookup(db.links, link.linkId), sessionId)
        || EndpointPoints(Lookup(db.endpoints, link.controllerId), sessionId)
        || EndpointPoints(Lookup(db.endpoints, link.companionId), sessionId))
  }

  predicate OpenReaches(atLink: Db, atController: Db, atCompanion: Db, linkId: Id, endpointId: Id, connectionId: Id) {
    && linkId in atLink.links
    && var link := atLink.links[linkId];
    && link.status == LinkActive && link.controllerId == endpointId && link.activeSessionId == ABSENT
    && link.controllerId in atController.endpoints
    && var controller := atController.endpoints[link.controllerId];
    && controller.activeSessionId == ABSENT && controller.revokedAt == 0 && controller.connectionId == connectionId
    && link.companionId in atCompanion.endpoints
    && var companion := atCompanion.endpoints[link.companionId];
    && companion.activeSessionId == ABSENT && companion.revokedAt == 0
    && companion.connectionId != ABSENT && companion.connectionId != connectionId
  }

  predicate CurrentCaller(db: Db, endpointId: Id, connectionId: Id) {
    && endpointId != ABSENT && connectionId != ABSENT
    && endpointId in db.endpoints
    && db.endpoints[endpointId].revokedAt == 0
    && db.endpoints[endpointId].connectionId == connectionId
  }

  /** The clock reading of the invocation, where its transaction writes one. */
  function Clock(e: Event): Option<int> {
    match e
    case ConnectEndpoint(c, _, _, _, _) => Some(c.connectedAt)
    case DisconnectEndpoint(_, now, _, _, _) => Some(now)
    case CreatePair(pair) => Some(pair.expiresAt - PAIRING_SECONDS)
    case JoinPair(_, _, _, now, _) => Some(now)
    case CommitHalf(_, _, _, now, _) => Some(now)
    case CommitFull(_, _, _, _, now, _) => Some(now)
    case CancelPair(_, _, now, _) => Some(now)
    case RevokeLink(_, _, _, now, _, _, _) => Some(now)
    case Rotate(_, _, _, now) => Some(now)
    case RevokeEndpoint(_, _, now, _, _) => Some(now)
    case OpenSession(_, _, _, _, now, _, _, _) => Some(now)
    case Repair(_, _, now, _, _, _) => Some(now)
    case CloseSession(_, _, now, _, _) => Some(now)
    case _ => None
  }

  /** The invocation that took its clock reading is still running. */
  predicate OnTime(h: seq<Db>, e: Event) { Clock(e).Some? ==> Timely(h, Clock(e).value) }

  /** An invocation still running whose reads took it to the transaction of `e`. */
  predicate Reaches(h: seq<Db>, e: Event) { OnTime(h, e) && ReadsLead(h, e) }

  /** The reads that take an invocation past every early return to the transaction of `e`. */
  predicate ReadsLead(h: seq<Db>, e: Event) {
    match e
    case Tick(_) => false
    case Expire(_) => false
    case ConnectPairing(c) =>
      NewConnection(c) && c.authMode == PairingAuth && c.endpointId == ABSENT
    case ConnectEndpoint(c, credentialHash, atEndpoint, atExisting, tail) =>
      && NewConnection(c) && c.authMode == EndpointAuth
      && c.endpointId != ABSENT && credentialHash != ABSENT
      && atEndpoint <= atExisting && TailInOrder(h, atExisting, tail)
      && ConnectReaches(At(h, atEndpoint), At(h, atExisting), At(h, tail.session), c, credentialHash)
    case DisconnectPairing(connectionId, atConnection, atPair) =>
      && atConnection <= atPair < |h|
      && connectionId in At(h, atConnection).connections
      && At(h, atConnection).connections[connectionId].endpointId == ABSENT
    case DisconnectEndpoint(connectionId, now, atConnection, atEndpoint, tail) =>
      && atConnection <= atEndpoint && TailInOrder(h, atEndpoint, tail)
      && DisconnectReaches(At(h, atConnection), At(h, atEndpoint), connectionId)
    case DropRecord(connectionId, atConnection, atEndpoint) =>
      && atConnection <= atEndpoint < |h|
      && connectionId in At(h, atConnection).connections
      && var endpointId := At(h, atConnection).connections[connectionId].endpointId;
      && endpointId != ABSENT
      && (endpointId !in At(h, atEndpoint).endpoints
          || At(h, atEndpoint).endpoints[endpointId].connectionId != connectionId)
    case CreatePair(pair) => NewPair(pair)
    case JoinPair(pairId, door, side, now, atPair) =>
      && atPair < |h| && PairRead(At(h, atPair), pairId) && side.connectionId != ABSENT
    case CommitHalf(pairId, slot, commit, now, atPair) =>
      && atPair < |h| && PairRead(At(h, atPair), pairId) && CommitIds(commit)
      && Waiting(At(h, atPair).pairs[pairId], slot, commit)
      && Commit(At(h, atPair).pairs[pairId], OtherSlot(slot)).None?
    case CommitFull(pairId, slot, commit, sourceKey, now, atPair) =>
      && atPair < |h| && PairRead(At(h, atPair), pairId) && CommitIds(commit)
      && Waiting(At(h, atPair).pairs[pairId], slot, commit)
      && Commit(At(h, atPair).pairs[pairId], OtherSlot(slot)).Some?
      && var (first, second) := Ordered(At(h, atPair).pairs[pairId], slot, commit);
      && ReciprocalCommits(first, second)
      && sourceKey != ABSENT
    case CancelPair(pairId, connectionId, now, atPair) =>
      && atPair < |h| && PairRead(At(h, atPair), pairId) && now < At(h, atPair).pairs[pairId].expiresAt
      && IsMember(At(h, atPair).pairs[pairId], connectionId)
      && Pending(At(h, atPair).pairs[pairId].status)
    case RevokeLink(linkId, endpointId, connectionId, now, atCaller, atLink, tail) =>
      && atCaller <= atLink && TailInOrder(h, atLink, tail)
      && RevokeLinkReaches(At(h, atCaller), At(h, atLink), linkId, endpointId, connectionId)
    case Rotate(endpointId, connectionId, credentialHash, now) =>
      connectionId != ABSENT && credentialHash != ABSENT
    case RevokeEndpoint(endpointId, connectionId, now, atEndpoint, tail) =>
      && TailInOrder(h, atEndpoint, tail)
      && RevokeEndpointReaches(At(h, atEndpoint), endpointId, connectionId)
    case OpenSession(linkId, endpointId, connectionId, sessionId, now, atLink, atController, atCompanion) =>
      && atLink <= atController <= atCompanion < |h| && sessionId != ABSENT && connectionId != ABSENT
      && OpenReaches(At(h, atLink), At(h, atController), At(h, atCompanion), linkId, endpointId, connectionId)
    case Repair(sessionId, linkId, now, atLink, atPointer, tail) =>
      && atLink <= atPointer && TailInOrder(h, atPointer, tail)
      && linkId in At(h, atLink).links
      && PointerRead(At(h, atPointer), At(h, atLink).links[linkId], sessionId)
      && sessionId !in At(h, tail.session).sessions
    case CloseSession(sessionId, fence, now, atCaller, tail) =>
      && TailInOrder(h, atCaller, tail)
      && sessionId in At(h, tail.session).sessions
      && (fence.Fence? ==>
            && CurrentCaller(At(h, atCaller), fence.endpointId, fence.connectionId)
            && OnSession(At(h, tail.session).sessions[sessionId], fence.endpointId))
    case Charge(rate, _, _) => rate.action != PairActivate
  }

  /** The write list of the transaction, from what was read; none where the reads lead to no transaction. */
  function Writes(h: seq<Db>, e: Event): seq<Write> {
    if ReadsLead(h, e) then WriteList(h, e) else []
  }

  function WriteList(h: seq<Db>, e: Event): seq<Write>
    requires ReadsLead(h, e)
  {
    match e
    case ConnectPairing(c) => [PutConnection(c)]
    case ConnectEndpoint(c, credentialHash, atEndpoint, atExisting, tail) =>
      ConnectPlan(At(h, atEndpoint), At(h, atExisting), ReadsAt(h, tail), c, credentialHash)
    case DisconnectPairing(connectionId, atConnection, atPair) =>
      var pairId := At(h, atConnection).connections[connectionId].pairingId;
      [DeleteConnection(connectionId, true)]
      + Opt(ClosesPair(At(h, atPair), pairId, connectionId), ClosePair(pairId, connectionId))
    case DisconnectEndpoint(connectionId, now, atConnection, atEndpoint, tail) =>
      DisconnectPlan(At(h, atConnection), At(h, atEndpoint), ReadsAt(h, tail), connectionId, now)
    case DropRecord(connectionId, _, _) => [DeleteConnection(connectionId, true)]
    case CreatePair(pair) =>
      [PutPair(pair),
       PutAdmission(Door(pair), Admission(pair.pairId, pair.locator, pair.joinTokenHash, pair.expiresAt)),
       SetPairing(pair.sideA.connectionId, pair.pairId)]
    case JoinPair(pairId, door, side, now, _) =>
      [FillSideB(pairId, side, door, now), SetPairing(side.connectionId, pairId)]
    case CommitHalf(pairId, slot, commit, now, atPair) => HalfWrites(At(h, atPair).pairs[pairId], slot, commit, now)
    case CommitFull(pairId, slot, commit, sourceKey, now, atPair) =>
      var (first, second) := Ordered(At(h, atPair).pairs[pairId], slot, commit);
      FullWrites(At(h, atPair).pairs[pairId], slot, commit, LinkFromCommits(first, second, now).value, sourceKey,
                 Last(h).activationLimit, now)
    case CancelPair(pairId, _, _, _) => [ClosePair(pairId, ABSENT)]
    case RevokeLink(linkId, endpointId, connectionId, now, _, atLink, tail) =>
      RevokeLinkPlan(At(h, atLink), ReadsAt(h, tail), linkId, endpointId, connectionId, now)
    case Rotate(endpointId, connectionId, credentialHash, now) =>
      [RotateCredential(endpointId, connectionId, credentialHash, now)]
    case RevokeEndpoint(endpointId, connectionId, now, atEndpoint, tail) =>
      RevokeEndpointPlan(At(h, atEndpoint), ReadsAt(h, tail), endpointId, connectionId, now)
    case OpenSession(linkId, endpointId, connectionId, sessionId, now, atLink, atController, atCompanion) =>
      var link := At(h, atLink).links[linkId];
      OpenWrites(NewSession(link, At(h, atController).endpoints[link.controllerId],
                            At(h, atCompanion).endpoints[link.companionId], connectionId, sessionId, now))
    case Repair(sessionId, linkId, now, atLink, _, tail) =>
      Tail(ReadsAt(h, tail), Vanished(sessionId, At(h, atLink).links[linkId]), now, {}, NoFence)
    case CloseSession(sessionId, fence, now, _, tail) =>
      Tail(ReadsAt(h, tail), At(h, tail.session).sessions[sessionId], now, {}, fence)
    case Charge(rate, limit, expiresAt) => [BumpRate(rate, limit, expiresAt)]
  }

  predicate ClosesPair(db: Db, pairId: Id, connectionId: Id) {
    && pairId != ABSENT && pairId in db.pairs
    && IsMember(db.pairs[pairId], connectionId)
    && Pending(db.pairs[pairId].status)
  }

  // ----- TTL

  /** DynamoDB may delete an item once its expiresAt has passed; links and endpoints carry none. */
  predicate Expired(db: Db, item: Item) {
    match item
    case ConnectionItem(id) => id in db.connections && db.connections[id].expiresAt <= db.now
    case SessionItem(id) => id in db.sessions && db.sessions[id].expiresAt <= db.now
    case PairItem(id) => id in db.pairs && db.pairs[id] != CLOSED_STUB && db.pairs[id].expiresAt <= db.now
    case AdmissionItem(key) => key in db.admissions && db.admissions[key].expiresAt <= db.now
    case RateItem(key) => key in db.rates && db.rates[key].expiresAt <= db.now
    case _ => false
  }

  function Dropped(db: Db, item: Item): Db {
    match item
    case ConnectionItem(id) => db.(connections := db.connections - {id})
    case SessionItem(id) => db.(sessions := db.sessions - {id})
    case PairItem(id) => db.(pairs := db.pairs - {id})
    case AdmissionItem(key) => db.(admissions := db.admissions - {key})
    case RateItem(key) => db.(rates := db.rates - {key})
    case _ => db
  }

  // ----- runs

  predicate Follows(h: seq<Db>, e: Event, next: Db) {
    && 0 < |h|
    && match e
       case Tick(to) => Last(h).now <= to && next == Last(h).(now := to)
       case Expire(item) => Expired(Last(h), item) && next == Dropped(Last(h), item)
       case _ => Reaches(h, e) && Commits(Writes(h, e), Last(h)) && next == Apply(Last(h), Writes(h, e))
  }

  predicate Empty(db: Db) {
    && 0 < db.now
    && db.connections == map[] && db.endpoints == map[] && db.links == map[] && db.sessions == map[]
    && db.pairs == map[] && db.admissions == map[] && db.rates == map[]
    && db.seenConnections == {} && db.seenSessions == {} && db.seenPairs == {} && db.activations == []
    && 1 <= db.activationLimit <= ACTIVATIONS_PER_DAY
  }

  /** Table k+1 follows from the tables 0..k by event k. */
  predicate ValidRun(h: seq<Db>, events: seq<Event>) {
    && |h| == |events| + 1
    && Empty(At(h, 0))
    && (forall k :: 0 <= k < |events| ==> Follows(Upto(h, k), StepAt(events, k), At(h, k + 1)))
  }

  ghost predicate Inv(db: Db) {
    RouteInv(db) && PairInv(db) && LogInv(db) && QuotaInv(db)
  }

  ghost predicate Evolves(a: Db, b: Db) {
    RouteEvolves(a, b) && PairEvolves(a, b) && a.activationLimit == b.activationLimit
  }

  ghost predicate Sound(h: seq<Db>) {
    && 0 < |h|
    && (forall i :: 0 <= i < |h| ==> Inv(At(h, i)))
    && (forall i, j :: 0 <= i <= j < |h| ==> Evolves(At(h, i), At(h, j)))
  }
}
