/** What each request does, and when it may, said of the table at its commit alone; and what every such
    step keeps. */
module Steps {
  import opened Records
  import opened Table
  import opened Routing
  import opened Transitions
  import opened Specs
  import opened Plans
  import opened Pairing
  import opened ActivationStep
  import opened Runs

  predicate OnLink(link: Link, endpointId: Id) {
    link.controllerId == endpointId || link.companionId == endpointId
  }

  /** The session that an open makes when all its reads are of one table. */
  function OpenedSession(db: Db, linkId: Id, connectionId: Id, sessionId: Id, now: int): Session
    requires linkId in db.links
    requires db.links[linkId].controllerId in db.endpoints && db.links[linkId].companionId in db.endpoints
  {
    var link := db.links[linkId];
    NewSession(link, db.endpoints[link.controllerId], db.endpoints[link.companionId], connectionId, sessionId, now)
  }

  predicate CanConnect(db: Db, c: Connection, credentialHash: Id, put: bool) {
    && NewConnection(c) && c.authMode == EndpointAuth && c.endpointId != ABSENT
    && EndpointTakes(db, c, credentialHash, put)
  }

  function DropPairing(db: Db, connectionId: Id, pairId: Id, closes: bool): Db {
    var dropped := db.(connections := db.connections - {connectionId});
    if closes then SpecClosePair(dropped, pairId) else dropped
  }

  ghost predicate AtomicRoute(db: Db, e: Event, next: Db) {
    match e
    case ConnectEndpoint(c, credentialHash, _, _, _) =>
      CanConnect(db, c, credentialHash, !SameConnection(db, c)) && next == SpecConnect(db, c)
    case DisconnectEndpoint(connectionId, now, _, _, _) =>
      && connectionId in db.connections
      && var endpointId := db.connections[connectionId].endpointId;
      && endpointId in db.endpoints && db.endpoints[endpointId].connectionId == connectionId
      && next == SpecDisconnect(db, connectionId, endpointId, now)
    case RevokeLink(linkId, endpointId, connectionId, now, _, _, _) =>
      && CurrentCaller(db, endpointId, connectionId)
      && linkId in db.links && db.links[linkId].status == LinkActive && OnLink(db.links[linkId], endpointId)
      && next == SpecRevokeLink(db, linkId, now)
    case RevokeEndpoint(endpointId, connectionId, now, _, _) =>
      && CurrentCaller(db, endpointId, connectionId)
      && next == SpecRevokeEndpoint(db, endpointId, now)
    case OpenSession(linkId, endpointId, connectionId, sessionId, now, _, _, _) =>
      && linkId in db.links && db.links[linkId].controllerId == endpointId
      && db.links[linkId].companionId in db.endpoints
      && CurrentCaller(db, endpointId, connectionId)
      && var s := OpenedSession(db, linkId, connectionId, sessionId, now);
      && CanOpen(db, s) && next == SpecOpen(db, s)
    case Repair(sessionId, linkId, now, _, _, _) =>
      && linkId in db.links && sessionId !in db.sessions
      && var link := db.links[linkId];
      && next == WithoutPointers(db, sessionId, linkId, {link.controllerId, link.companionId})
    case CloseSession(sessionId, fence, now, _, _) =>
      && (fence.Fence? ==>
            && CurrentCaller(db, fence.endpointId, fence.connectionId)
            && (sessionId in db.sessions ==> OnSession(db.sessions[sessionId], fence.endpointId)))
      && next == SpecClose(db, sessionId, now)
    case _ => false
  }

  ghost predicate AtomicPair(db: Db, e: Event, next: Db) {
    match e
    case CreatePair(pair) =>
      && NewPair(pair) && pair.pairId !in db.seenPairs && Door(pair) !in db.admissions
      && Assignable(db, pair.sideA.connectionId)
      && next == SpecCreate(db, pair, Door(pair), Admission(pair.pairId, pair.locator, pair.joinTokenHash,
                                                            pair.expiresAt))
    case JoinPair(pairId, door, side, now, _) =>
      && pairId in db.pairs && db.pairs[pairId].status == PairOpen && db.pairs[pairId].sideB.None?
      && now < db.pairs[pairId].expiresAt && Admits(db.pairs[pairId], door)
      && Assignable(db, side.connectionId)
      && next == SpecJoin(db, pairId, side)
    case CommitHalf(pairId, slot, commit, now, _) =>
      && pairId in db.pairs && db.pairs[pairId].status == PairReady && now < db.pairs[pairId].expiresAt
      && OwnSlot(db.pairs[pairId], slot, commit)
      && next == SpecHalf(db, pairId, slot, commit)
    case CommitFull(pairId, slot, commit, sourceKey, now, _) =>
      && CanActivate(db, pairId, slot, commit, sourceKey, now) && now < db.pairs[pairId].expiresAt
      && next == SpecActivate(db, pairId, slot, commit, sourceKey, now)
    case CancelPair(pairId, connectionId, _, _) =>
      && pairId != ABSENT && pairId in db.seenPairs
      && (pairId in db.pairs ==> db.pairs[pairId].status != PairActive)
      && next == SpecClosePair(db, pairId)
    case _ => false
  }

  ghost predicate AtomicPlain(db: Db, e: Event, next: Db) {
    match e
    case Tick(to) => db.now <= to && next == db.(now := to)
    case Expire(item) => Expired(db, item) && next == Dropped(db, item)
    case ConnectPairing(c) =>
      && NewConnection(c) && c.authMode == PairingAuth && c.endpointId == ABSENT
      && c.connectionId !in db.connections && c.connectionId !in db.seenConnections
      && next == SpecConnectPairing(db, c)
    case DisconnectPairing(connectionId, _, _) =>
      && connectionId in db.connections && db.connections[connectionId].endpointId == ABSENT
      && var pairId := db.connections[connectionId].pairingId;
      && (|| next == DropPairing(db, connectionId, pairId, false)
          || (&& pairId in db.pairs && IsMember(db.pairs[pairId], connectionId)
              && db.pairs[pairId].status != PairActive
              && next == DropPairing(db, connectionId, pairId, true)))
    case Rotate(endpointId, connectionId, credentialHash, now) =>
      && CurrentCaller(db, endpointId, connectionId)
      && next == SpecRotate(db, endpointId, credentialHash, now)
    case Charge(rate, limit, expiresAt) =>
      && rate.action != PairActivate
      && (rate in db.rates ==> db.rates[rate].count < limit)
      && next == db.(rates := db.rates[rate := Rate(1 + Count(db, rate), expiresAt)])
    case _ => false
  }

  /** What each request does as one step on the table at its commit: no earlier table and no read of the
      invocation appears here. */
  ghost predicate AtomicStep(db: Db, e: Event, next: Db) {
    AtomicRoute(db, e, next) || AtomicPair(db, e, next) || AtomicPlain(db, e, next)
  }

  /** The one other thing that happens: a connect whose own record has gone does not put it again. */
  ghost predicate MissesRecord(db: Db, e: Event, next: Db) {
    && e.ConnectEndpoint? && CanConnect(db, e.c, e.credentialHash, false)
    && e.c.connectionId !in db.connections
    && next == Reattached(db, e.c, false)
  }

  ghost predicate Moves(db: Db, e: Event, next: Db) { AtomicStep(db, e, next) || MissesRecord(db, e, next) }

  /** Either way a connect moves its endpoint to the connection. */
  ghost predicate Connected(db: Db, e: Event, next: Db, put: bool) {
    e.ConnectEndpoint? && CanConnect(db, e.c, e.credentialHash, put) && next == Reattached(db, e.c, put)
  }

  // ----- routes

  ghost predicate Keeps(db: Db, next: Db) { Inv(next) && Evolves(db, next) }

  /** A step on routes that makes no link and leaves pairs, log and rates alone. */
  ghost predicate RouteOnly(db: Db, next: Db) {
    && next.pairs == db.pairs && next.seenPairs == db.seenPairs
    && next.activations == db.activations && next.activationLimit == db.activationLimit
    && next.rates == db.rates && next.links.Keys == db.links.Keys
    && db.now <= next.now
  }

  /** The steps on routes. */
  ghost predicate RouteMove(db: Db, e: Event, next: Db) { AtomicRoute(db, e, next) || MissesRecord(db, e, next) }

  lemma ReleaseIsRouteOnly(db: Db, sessionId: Id, linkId: Id, controllerId: Id, companionId: Id, now: int)
    ensures RouteOnly(db, Release(db, sessionId, linkId, controllerId, companionId, now))
    ensures ClearLinks(db.links, linkId, sessionId).Keys == db.links.Keys
  {
    assert ClearLinks(db.links, linkId, sessionId).Keys == db.links.Keys;
    hide EndSessions, ClearEndpoints, ClearLinks;
  }

  lemma ReleaseHeldIsRouteOnly(db: Db, endpointId: Id, now: int)
    requires endpointId in db.endpoints
    ensures RouteOnly(db, ReleaseHeld(db, endpointId, now))
  {
    hide Release;
    var held := db.endpoints[endpointId].activeSessionId;
    if held in db.sessions {
      var s := db.sessions[held];
      ReleaseIsRouteOnly(db, s.sessionId, s.linkId, s.controllerId, s.companionId, now);
    }
  }

  lemma RouteMovesAreRouteOnly(db: Db, e: Event, next: Db)
    requires RouteMove(db, e, next)
    ensures RouteOnly(db, next)
  {
    hide ConnectionsAfter, SeenAfter, Attached, SameConnection, EndSessions, ClearEndpoints, Detached, Retired, OnLink,
         OnSession, ClearedLink, NewConnection, Equals, Idle, Release, ReleaseHeld, ClearLinks;
    match e
    case ConnectEndpoint(c, _, _, _, _) => ReleaseHeldIsRouteOnly(db, c.endpointId, c.connectedAt);
    case DisconnectEndpoint(c, now, _, _, _) => ReleaseHeldIsRouteOnly(db, db.connections[c].endpointId, now);
    case RevokeEndpoint(id, _, now, _, _) => ReleaseHeldIsRouteOnly(db, id, now);
    case RevokeLink(id, _, _, now, _, _, _) =>
      var l := db.links[id];
      ReleaseIsRouteOnly(db, l.activeSessionId, id, l.controllerId, l.companionId, now);
    case CloseSession(id, _, now, _, _) =>
      if id in db.sessions {
        var s := db.sessions[id];
        ReleaseIsRouteOnly(db, s.sessionId, s.linkId, s.controllerId, s.companionId, now);
      }
    case Repair(id, linkId, _, _, _, _) =>
      ReleaseIsRouteOnly(db, id, linkId, db.links[linkId].controllerId, db.links[linkId].companionId, 0);
    case _ =>
  }

  lemma RouteStepKeeps(db: Db, next: Db)
    requires Inv(db) && RouteInv(next) && RouteEvolves(db, next) && RouteOnly(db, next)
    ensures Keeps(db, next)
  {
    RouteStepKeepsPairs(db, next);
    hide RouteInv, PairInv, RouteEvolves, PairEvolves;
    LogStays(db, next);
    QuotaStays(db, next);
  }

  lemma ConnectMovesKeep(db: Db, e: Event, next: Db, put: bool)
    requires RouteInv(db) && Connected(db, e, next, put)
    ensures RouteInv(next) && RouteEvolves(db, next)
  {
    hide RouteInv, RouteEvolves, Reattached;
    ReattachedKeeps(db, e.c, e.credentialHash, put);
  }

  lemma SessionMovesKeep(db: Db, e: Event, next: Db)
    requires RouteInv(db) && AtomicRoute(db, e, next)
    requires e.OpenSession? || e.Repair? || e.CloseSession? || e.RevokeLink?
    ensures RouteInv(next) && RouteEvolves(db, next)
  {
    hide RouteInv, RouteEvolves, SpecOpen, WithoutPointers, SpecClose, SpecRevokeLink, CanOpen;
    match e
    case OpenSession(linkId, _, connectionId, sessionId, now, _, _, _) =>
      SpecOpenKeeps(db, OpenedSession(db, linkId, connectionId, sessionId, now));
    case Repair(sessionId, linkId, _, _, _, _) =>
      ClearingVanishedKeeps(db, sessionId, linkId, {db.links[linkId].controllerId, db.links[linkId].companionId});
    case CloseSession(sessionId, _, now, _, _) => SpecCloseKeeps(db, sessionId, now);
    case RevokeLink(linkId, _, _, now, _, _, _) => SpecRevokeLinkKeeps(db, linkId, now);
  }

  lemma EndpointMovesKeep(db: Db, e: Event, next: Db)
    requires RouteInv(db) && AtomicRoute(db, e, next) && (e.DisconnectEndpoint? || e.RevokeEndpoint?)
    ensures RouteInv(next) && RouteEvolves(db, next)
  {
    if e.DisconnectEndpoint? { assert ConnectionOk(db, e.connectionId); }
    hide RouteInv, RouteEvolves, SpecDisconnect, SpecRevokeEndpoint;
    match e
    case DisconnectEndpoint(c, now, _, _, _) => SpecDisconnectKeeps(db, c, db.connections[c].endpointId, now);
    case RevokeEndpoint(id, _, now, _, _) => SpecRevokeEndpointKeeps(db, id, now);
  }

  lemma ConnectIsReattached(db: Db, e: Event, next: Db) returns (put: bool)
    requires e.ConnectEndpoint? && RouteMove(db, e, next)
    ensures Connected(db, e, next, put)
  {
    hide Reattached, SameConnection, EndpointTakes;
    put := !MissesRecord(db, e, next) && !SameConnection(db, e.c);
  }

  lemma RouteMovesKeep(db: Db, e: Event, next: Db)
    requires Inv(db) && RouteMove(db, e, next)
    ensures Keeps(db, next)
  {
    RouteMovesAreRouteOnly(db, e, next);
    assert RouteInv(next) && RouteEvolves(db, next) by {
      hide AtomicRoute, RouteInv, RouteEvolves, PairInv, LogInv, QuotaInv, Connected;
      if e.ConnectEndpoint? {
        var put := ConnectIsReattached(db, e, next);
        ConnectMovesKeep(db, e, next, put);
      } else if e.DisconnectEndpoint? || e.RevokeEndpoint? {
        EndpointMovesKeep(db, e, next);
      } else {
        assert e.OpenSession? || e.Repair? || e.CloseSession? || e.RevokeLink? by { assert AtomicRoute(db, e, next); }
        SessionMovesKeep(db, e, next);
      }
    }
    hide *;
    RouteStepKeeps(db, next);
  }

  // ----- pairs

  /** A step that leaves all routes alone, but for connection and session records that may go. */
  ghost predicate RoutesAlone(db: Db, next: Db) {
    && next.endpoints == db.endpoints && next.links == db.links
    && next.connections.Keys <= db.connections.Keys && next.sessions.Keys <= db.sessions.Keys
    && (forall id :: id in next.connections ==> next.connections[id] == db.connections[id])
    && (forall id :: id in next.sessions ==> next.sessions[id] == db.sessions[id])
    && next.seenConnections == db.seenConnections && next.seenSessions == db.seenSessions && db.now <= next.now
  }

  lemma RoutesAloneKeeps(db: Db, next: Db)
    requires RouteInv(db) && RoutesAlone(db, next)
    ensures RouteInv(next) && RouteEvolves(db, next)
  {
    assert forall id :: id in db.endpoints ==> EndpointOk(db, id) && EndpointOk(next, id);
    assert forall id :: id in db.links ==> LinkOk(db, id) && LinkOk(next, id);
    assert forall id :: id in next.sessions ==> SessionOk(db, id) && SessionOk(next, id);
    assert forall id :: id in next.connections ==> ConnectionOk(db, id) && ConnectionOk(next, id);
  }

  /** A step on pairs that neither activates one nor touches links, log or rates. */
  ghost predicate PairOnly(db: Db, next: Db) {
    && next.links == db.links && next.activations == db.activations && next.activationLimit == db.activationLimit
    && next.rates == db.rates && next.now == db.now
    && (forall id :: id in next.pairs && next.pairs[id].status == PairActive ==>
          id in db.pairs && db.pairs[id].status == PairActive)
  }

  lemma PairStepKeeps(db: Db, next: Db)
    requires Inv(db) && PairOnly(db, next)
    requires RouteInv(next) && RouteEvolves(db, next) && PairInv(next) && PairEvolves(db, next)
    ensures Keeps(db, next)
  {
    hide RouteInv, PairInv, RouteEvolves, PairEvolves;
    LogStays(db, next);
    QuotaStays(db, next);
  }

  lemma ClosingPairKeeps(db: Db, pairId: Id)
    requires Inv(db) && pairId != ABSENT && pairId in db.seenPairs
    requires pairId in db.pairs ==> db.pairs[pairId].status != PairActive
    ensures Keeps(db, SpecClosePair(db, pairId))
  {
    assert PairOnly(db, SpecClosePair(db, pairId)) && RoutesAlone(db, SpecClosePair(db, pairId));
    hide RouteInv, RouteEvolves, PairInv, PairEvolves, LogInv, QuotaInv, SpecClosePair;
    SpecClosePairKeeps(db, pairId);
    RoutesAloneKeeps(db, SpecClosePair(db, pairId));
    PairStepKeeps(db, SpecClosePair(db, pairId));
  }

  lemma ActivationKeeps(db: Db, e: Event, next: Db)
    requires Inv(db) && e.CommitFull? && AtomicPair(db, e, next)
    ensures Keeps(db, next)
  {
    assert next.activationLimit == db.activationLimit;
    hide RouteInv, RouteEvolves, PairInv, PairEvolves, LogInv, QuotaInv, SpecActivate, CanActivate;
    SpecActivateKeepsRoute(db, e.pairId, e.slot, e.commit, e.sourceKey, e.now);
    SpecActivateKeepsPairs(db, e.pairId, e.slot, e.commit, e.sourceKey, e.now);
    SpecActivateKeepsLog(db, e.pairId, e.slot, e.commit, e.sourceKey, e.now);
    SpecActivateKeepsQuota(db, e.pairId, e.slot, e.commit, e.sourceKey, e.now);
  }

  lemma HalfLeavesRoutes(db: Db, pairId: Id, slot: Slot, commit: PairCommit)
    requires pairId in db.pairs
    ensures RoutesAlone(db, SpecHalf(db, pairId, slot, commit))
  {
  }

  lemma FormingIsPairOnly(db: Db, e: Event, next: Db)
    requires AtomicPair(db, e, next) && !e.CommitFull? && !e.CancelPair?
    ensures PairOnly(db, next)
  {
    hide Assignable, OwnSlot, Admits;
  }

  lemma PairMovesKeep(db: Db, e: Event, next: Db)
    requires Inv(db) && AtomicPair(db, e, next)
    ensures Keeps(db, next)
  {
    hide RouteInv, RouteEvolves, PairInv, PairEvolves, LogInv, QuotaInv, SpecActivate, SpecCreate, SpecJoin, SpecHalf,
         SpecClosePair, CanActivate, Assignable, PairOnly, OwnSlot;
    if !e.CommitFull? && !e.CancelPair? { FormingIsPairOnly(db, e, next); }
    match e
    case CreatePair(p) =>
      SpecCreateKeeps(db, p, Door(p), Admission(p.pairId, p.locator, p.joinTokenHash, p.expiresAt));
      PairStepKeeps(db, next);
    case JoinPair(pairId, _, side, _, _) =>
      SpecJoinKeeps(db, pairId, side);
      PairStepKeeps(db, next);
    case CommitHalf(pairId, slot, commit, _, _) =>
      SpecHalfKeeps(db, pairId, slot, commit);
      RoutesAloneKeeps(db, next) by { HalfLeavesRoutes(db, pairId, slot, commit); }
      PairStepKeeps(db, next);
    case CommitFull(_, _, _, _, _, _) => ActivationKeeps(db, e, next);
    case CancelPair(pairId, _, _, _) => ClosingPairKeeps(db, pairId);
    case _ =>
  }

  // ----- the clock, TTL, and what touches neither routes nor pairs

  lemma RemovingPairKeeps(db: Db, id: Id)
    requires Inv(db)
    ensures Keeps(db, db.(pairs := db.pairs - {id}))
  {
    var next := db.(pairs := db.pairs - {id});
    RoutesAloneKeeps(db, next);
    assert PairInv(next) && PairEvolves(db, next) by {
      forall p | p in next.pairs ensures PairOk(next, p) { assert PairOk(db, p); }
      forall p, c | p in next.pairs ensures MemberOk(next, p, c) { assert MemberOk(db, p, c); }
      forall p, q, c | p in next.pairs && q in next.pairs ensures OneMembership(next, p, q, c) {
        assert OneMembership(db, p, q, c);
      }
    }
    hide RouteInv, PairInv, RouteEvolves, PairEvolves;
    LogStays(db, next);
    QuotaStays(db, next);
  }

  /** A step on rate records alone: activation records are only ever dropped here, when their time is up. */
  ghost predicate RatesOnly(db: Db, next: Db) {
    && next == db.(rates := next.rates)
    && (forall key :: key in next.rates && key.action == PairActivate ==>
          key in db.rates && next.rates[key] == db.rates[key])
    && (forall key :: key in db.rates && key !in next.rates ==> db.rates[key].expiresAt <= db.now)
  }

  lemma RateStepKeeps(db: Db, next: Db)
    requires Inv(db) && RatesOnly(db, next)
    ensures Keeps(db, next)
  {
    RoutesAloneKeeps(db, next);
    RouteStepKeepsPairs(db, next);
    hide RouteInv, PairInv, RouteEvolves, PairEvolves;
    LogStays(db, next);
    QuotaStays(db, next);
  }

  lemma DroppingRecordKeeps(db: Db, item: Item)
    requires Inv(db) && (item.ConnectionItem? || item.SessionItem? || item.AdmissionItem?)
    ensures Keeps(db, Dropped(db, item))
  {
    RoutesAloneKeeps(db, Dropped(db, item));
    hide RouteInv, PairInv, RouteEvolves, PairEvolves, LogInv, QuotaInv;
    RouteStepKeeps(db, Dropped(db, item));
  }

  lemma ExpiryKeeps(db: Db, item: Item)
    requires Inv(db) && Expired(db, item)
    ensures Keeps(db, Dropped(db, item))
  {
    if item.RateItem? { assert RatesOnly(db, Dropped(db, item)); }
    hide RouteInv, PairInv, RouteEvolves, PairEvolves, LogInv, QuotaInv;
    match item
    case PairItem(id) => RemovingPairKeeps(db, id);
    case RateItem(key) => RateStepKeeps(db, Dropped(db, item));
    case _ => DroppingRecordKeeps(db, item);
  }

  lemma KeepsTransitive(a: Db, b: Db, c: Db)
    requires Keeps(a, b) && Keeps(b, c)
    ensures Keeps(a, c)
  {
    RouteEvolvesTransitive(a, b, c);
    PairEvolvesTransitive(a, b, c);
  }

  lemma DropPairingKeeps(db: Db, connectionId: Id, pairId: Id, closes: bool)
    requires Inv(db) && (closes ==> pairId in db.pairs && db.pairs[pairId].status != PairActive)
    ensures Keeps(db, DropPairing(db, connectionId, pairId, closes))
  {
    if closes { assert PairOk(db, pairId); }
    hide RouteInv, RouteEvolves, PairInv, PairEvolves, LogInv, QuotaInv, SpecClosePair;
    DroppingRecordKeeps(db, ConnectionItem(connectionId));
    if closes {
      var dropped := Dropped(db, ConnectionItem(connectionId));
      ClosingPairKeeps(dropped, pairId);
      KeepsTransitive(db, dropped, SpecClosePair(dropped, pairId));
    }
  }

  lemma PlainMovesKeep(db: Db, e: Event, next: Db)
    requires Inv(db) && AtomicPlain(db, e, next)
    ensures Keeps(db, next)
  {
    if e.ConnectPairing? || e.Rotate? || e.Tick? { assert RouteOnly(db, next); }
    if e.Charge? { assert RatesOnly(db, next); }
    hide RouteInv, RouteEvolves, PairInv, PairEvolves, LogInv, QuotaInv, SpecRotate, SpecConnectPairing, Dropped,
         Expired, DropPairing, RatesOnly, RouteOnly;
    match e
    case Tick(_) =>
      RoutesAloneKeeps(db, next);
      RouteStepKeeps(db, next);
    case Expire(item) => ExpiryKeeps(db, item);
    case ConnectPairing(c) =>
      SpecConnectPairingKeeps(db, c);
      RouteStepKeeps(db, next);
    case DisconnectPairing(connectionId, _, _) =>
      var pairId := db.connections[connectionId].pairingId;
      DropPairingKeeps(db, connectionId, pairId, next != DropPairing(db, connectionId, pairId, false));
    case Rotate(endpointId, _, credentialHash, now) =>
      SpecRotateKeeps(db, endpointId, credentialHash, now);
      RouteStepKeeps(db, next);
    case Charge(_, _, _) => RateStepKeeps(db, next);
    case _ =>
  }

  // ----- all of them

  lemma MovesKeep(db: Db, e: Event, next: Db)
    requires Inv(db) && Moves(db, e, next)
    ensures Keeps(db, next)
  {
    hide Inv, Keeps, AtomicRoute, AtomicPair, AtomicPlain, MissesRecord;
    if RouteMove(db, e, next) {
      RouteMovesKeep(db, e, next);
    } else if AtomicPair(db, e, next) {
      PairMovesKeep(db, e, next);
    } else {
      PlainMovesKeep(db, e, next);
    }
  }

  /** One step of a run, as all that follows takes it: its table is sound, and it moves on from it. */
  ghost predicate Step(db: Db, e: Event, next: Db) { Inv(db) && Moves(db, e, next) && Keeps(db, next) }
}
