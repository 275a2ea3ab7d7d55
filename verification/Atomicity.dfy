/** Every committed transaction of a run is one atomic step: its effect and its guard are those of an
    invocation that read everything it needed at the instant of its commit. */
module Atomicity {
  import opened Records
  import opened Table
  import opened Routing
  import opened Transitions
  import opened Specs
  import opened Plans
  import opened Refinement
  import opened Pairing
  import opened ActivationStep
  import opened Runs
  import opened Steps

  /** What a committed transaction leaves to go on. */
  lemma Committed(h: seq<Db>, e: Event, next: Db)
    requires Follows(h, e, next) && (ReadsLead(h, e) || (!e.Tick? && !e.Expire?))
    ensures 0 < |h| && Reaches(h, e) && DistinctTargets(Writes(h, e)) && AllHold(Writes(h, e), Last(h))
    ensures next == Apply(Last(h), Writes(h, e))
  {
    hide OnTime, Writes, AllHold, DistinctTargets, Apply;
  }

  lemma EachHolds(ws: seq<Write>, db: Db, w: Write)
    requires AllHold(ws, db) && w in ws
    ensures Holds(w, db)
  {
  }

  lemma SoundAt(h: seq<Db>, i: nat)
    requires Sound(h) && i < |h|
    ensures Inv(At(h, i)) && Evolves(At(h, i), Last(h)) && Inv(Last(h))
  {
    hide Inv, Evolves;
  }

  lemma SoundOrder(h: seq<Db>, i: nat, j: nat)
    requires Sound(h) && i <= j < |h|
    ensures Inv(At(h, i)) && Evolves(At(h, i), At(h, j)) && At(h, i).seenSessions <= At(h, j).seenSessions
  {
    hide Inv, PairEvolves;
  }

  lemma TailSound(h: seq<Db>, from: nat, t: TailReads)
    requires Sound(h) && TailInOrder(h, from, t)
    ensures InOrder(ReadsAt(h, t), Last(h)) && RouteInv(Last(h))
    ensures Earlier(At(h, from), At(h, t.session)) && Earlier(At(h, from), Last(h))
    ensures At(h, from).seenSessions <= At(h, t.session).seenSessions
  {
    hide Sound, RouteInv, RouteEvolves, PairInv, PairEvolves, LogInv, QuotaInv;
    SoundAt(h, from); SoundAt(h, t.session); SoundAt(h, t.link); SoundAt(h, t.controller); SoundAt(h, t.companion);
    SoundOrder(h, from, t.session);
    SoundOrder(h, t.session, t.link);
    SoundOrder(h, t.session, t.controller);
    SoundOrder(h, t.session, t.companion);
  }

  // ----- routes

  /** The connect took a stored connection record that it read for its own. */
  predicate TookRecord(h: seq<Db>, e: Event) {
    && e.ConnectEndpoint? && e.c.endpointId in At(h, e.atEndpoint).endpoints
    && SameAsRead(At(h, e.atEndpoint).endpoints[e.c.endpointId], At(h, e.atExisting), e.c)
  }

  predicate OwnRecordStored(db: Db, e: Event) { e.ConnectEndpoint? ==> e.c.connectionId in db.connections }

  lemma ConnectIsMove(h: seq<Db>, e: Event, next: Db)
    requires Sound(h) && e.ConnectEndpoint? && Follows(h, e, next)
    ensures RouteMove(Last(h), e, next)
    ensures AtomicRoute(Last(h), e, next) <==> (TookRecord(h, e) ==> OwnRecordStored(Last(h), e))
  {
    hide Follows, OnTime, Sound, RouteInv, RouteEvolves, PairInv, PairEvolves, LogInv, QuotaInv, AllHold, ConnectPlan,
         Apply, InOrder, Reattached, SpecConnect, SameConnection, NewConnection;
    Committed(h, e, next);
    var db, c, r := Last(h), e.c, ReadsAt(h, e.tail);
    var same := TookRecord(h, e);
    SoundAt(h, e.atExisting);
    SoundOrder(h, e.atEndpoint, e.tail.session);
    SoundAt(h, e.atEndpoint);
    TailSound(h, e.atExisting, e.tail);
    ConnectRefines(At(h, e.atEndpoint), At(h, e.atExisting), r, db, c, e.credentialHash);
    if same { SameConnectionStays(At(h, e.atExisting), db, c); }
    hide ConnectReaches, SameAsRead, Earlier;
    NewIsNotSame(db, c);
    ConnectExact(db, c, same);
  }

  lemma NewIsNotSame(db: Db, c: Connection)
    ensures c.connectionId !in db.connections ==> !SameConnection(db, c)
  {
  }

  lemma DisconnectIsAtomic(h: seq<Db>, e: Event, next: Db)
    requires Sound(h) && e.DisconnectEndpoint? && Follows(h, e, next)
    ensures AtomicRoute(Last(h), e, next)
  {
    hide Follows, OnTime, Sound, RouteInv, RouteEvolves, PairInv, PairEvolves, LogInv, QuotaInv, AllHold, Apply,
         InOrder, SpecDisconnect, TransitionWrites;
    Committed(h, e, next);
    var a, db := At(h, e.atConnection), Last(h);
    SoundAt(h, e.atConnection);
    TailSound(h, e.atEndpoint, e.tail);
    DisconnectRefines(a, At(h, e.atEndpoint), ReadsAt(h, e.tail), db, e.connectionId, e.now);
    EachHolds(Writes(h, e), db, DeleteConnection(e.connectionId, true));
    ConnectionAsRead(a, db, e.connectionId);
  }

  /** A connection still stored has the endpoint and, once assigned, the pair that it was read with. */
  lemma ConnectionAsRead(a: Db, db: Db, id: Id)
    requires RouteInv(a) && RouteEvolves(a, db) && id in a.connections && id in db.connections
    ensures a.connections[id].(pairingId := db.connections[id].pairingId) == db.connections[id]
    ensures id != ABSENT && (a.connections[id].pairingId != ABSENT ==> a.connections[id] == db.connections[id])
  {
    assert ConnectionOk(a, id) && ConnectionEvolves(a, db, id);
  }

  /** The delete-only transaction of a stale disconnect never commits. */
  lemma NeverDrops(h: seq<Db>, e: Event, next: Db)
    requires Sound(h) && e.DropRecord?
    ensures !Follows(h, e, next)
  {
    if Follows(h, e, next) {
      hide Follows, OnTime, Sound, RouteInv, RouteEvolves, PairInv, PairEvolves, LogInv, QuotaInv, AllHold, Apply;
      Committed(h, e, next);
      SoundAt(h, e.atConnection); SoundAt(h, e.atEndpoint); SoundOrder(h, e.atConnection, e.atEndpoint);
      StaleDisconnectNeverCommits(At(h, e.atConnection), At(h, e.atEndpoint), Last(h), e.connectionId);
    }
  }

  lemma RevokeEndpointIsAtomic(h: seq<Db>, e: Event, next: Db)
    requires Sound(h) && e.RevokeEndpoint? && Follows(h, e, next)
    ensures AtomicRoute(Last(h), e, next)
  {
    hide Follows, OnTime, Sound, RouteInv, RouteEvolves, PairInv, PairEvolves, LogInv, QuotaInv, AllHold,
         RevokeEndpointPlan, Apply, InOrder, SpecRevokeEndpoint;
    Committed(h, e, next);
    SoundAt(h, e.atEndpoint);
    TailSound(h, e.atEndpoint, e.tail);
    RevokeEndpointRefines(At(h, e.atEndpoint), ReadsAt(h, e.tail), Last(h), e.endpointId, e.connectionId, e.now);
  }

  /** A fence that a transition carries, on whichever item it ended up, held at the commit. */
  lemma FenceHeld(db: Db, s: Session, link: Option<Link>, controller: Option<Endpoint>, companion: Option<Endpoint>,
                  now: int, omit: set<Item>, fence: Fence)
    requires AllHold(TransitionWrites(s, link, controller, companion, now, omit, fence), db)
    ensures fence.Fence? && fence.endpointId != ABSENT && fence.connectionId != ABSENT
            && EndpointItem(fence.endpointId) !in omit
            ==> CurrentCaller(db, fence.endpointId, fence.connectionId)
  {
    hide AllHold, TransitionWrites;
    TransitionConditions(db, s, link, controller, companion, now, omit, fence);
  }

  /** Whichever write carries it, the caller's fence is a condition of a link revocation. */
  lemma RevokeLinkFence(db: Db, link: Link, r: Reads, endpointId: Id, connectionId: Id, now: int)
    requires AllHold(RevokeLinkRest(link, r, endpointId, connectionId, now), db)
    requires endpointId != ABSENT && connectionId != ABSENT
    ensures CurrentCaller(db, endpointId, connectionId)
  {
    var fence := Fence(endpointId, connectionId);
    hide AllHold, TransitionWrites, SessionOfLink;
    if link.activeSessionId == ABSENT {
      EachHolds([FenceCheck(fence)], db, FenceCheck(fence));
    } else {
      var s := SessionOfLink(link, Lookup(r.session.sessions, link.activeSessionId));
      FenceHeld(db, s, None, Lookup(r.controller.endpoints, s.controllerId),
                Lookup(r.companion.endpoints, s.companionId), now, {LinkItem(link.linkId)}, fence);
    }
  }

  lemma RevokeLinkIsAtomic(h: seq<Db>, e: Event, next: Db)
    requires Sound(h) && e.RevokeLink? && Follows(h, e, next)
    ensures AtomicRoute(Last(h), e, next)
  {
    hide Follows, OnTime, Sound, RouteInv, RouteEvolves, PairInv, PairEvolves, LogInv, QuotaInv, AllHold,
         RevokeLinkPlan, RevokeLinkRest, Apply, InOrder, SpecRevokeLink, CurrentCaller;
    Committed(h, e, next);
    var a, db, r := At(h, e.atLink), Last(h), ReadsAt(h, e.tail);
    SoundAt(h, e.atLink);
    TailSound(h, e.atLink, e.tail);
    EarlierLink(a, db, e.linkId);
    RevokeLinkParts(a, r, e.linkId, e.endpointId, e.connectionId, e.now);
    AllHoldConcat(db, [RetireLink(e.linkId, a.links[e.linkId].activeSessionId, e.now)],
                  RevokeLinkRest(a.links[e.linkId], r, e.endpointId, e.connectionId, e.now));
    RevokeLinkFence(db, a.links[e.linkId], r, e.endpointId, e.connectionId, e.now);
    RevokeLinkRefines(At(h, e.atCaller), a, r, db, e.linkId, e.endpointId, e.connectionId, e.now);
  }

  lemma CloseIsAtomic(h: seq<Db>, e: Event, next: Db)
    requires Sound(h) && e.CloseSession? && Follows(h, e, next)
    ensures AtomicRoute(Last(h), e, next)
  {
    hide Follows, OnTime, Sound, RouteInv, RouteEvolves, PairInv, PairEvolves, LogInv, QuotaInv, AllHold, Apply,
         TransitionWrites, SpecClose;
    Committed(h, e, next);
    var a, db, r := At(h, e.tail.session), Last(h), ReadsAt(h, e.tail);
    var s := a.sessions[e.sessionId];
    SoundAt(h, e.tail.session);
    TailSound(h, e.atCaller, e.tail);
    FenceHeld(db, s, Lookup(r.link.links, s.linkId), Lookup(r.controller.endpoints, s.controllerId),
              Lookup(r.companion.endpoints, s.companionId), e.now, {}, e.fence);
    SessionKeepsEnds(a, db, e.sessionId);
    hide CurrentCaller, InOrder;
    CloseRefines(r, db, e.sessionId, e.now, e.fence);
  }

  lemma SessionKeepsEnds(a: Db, b: Db, id: Id)
    requires RouteInv(a) && RouteEvolves(a, b) && id in a.sessions
    ensures id in b.sessions ==> SameRoute(a.sessions[id], b.sessions[id])
  {
    assert SessionOk(a, id);
    if id in b.sessions { assert SessionEvolves(a, b, id); }
  }

  /** A pointer that was read names a session that was seen. */
  lemma PointersAreSeen(db: Db, link: Link, sessionId: Id)
    requires RouteInv(db) && PointerRead(db, link, sessionId)
    ensures sessionId in db.seenSessions
  {
    if link.linkId in db.links { assert LinkOk(db, link.linkId); }
    if link.controllerId in db.endpoints { assert EndpointOk(db, link.controllerId); }
    if link.companionId in db.endpoints { assert EndpointOk(db, link.companionId); }
  }

  lemma RepairIsAtomic(h: seq<Db>, e: Event, next: Db)
    requires Sound(h) && e.Repair? && Follows(h, e, next)
    ensures AtomicRoute(Last(h), e, next)
  {
    hide Follows, OnTime, Sound, RouteInv, RouteEvolves, PairInv, PairEvolves, LogInv, QuotaInv, AllHold, Apply,
         TransitionWrites, ClearLinks, ClearEndpoints;
    Committed(h, e, next);
    var a, db, link := At(h, e.atLink), Last(h), At(h, e.atLink).links[e.linkId];
    SoundAt(h, e.atLink); SoundAt(h, e.atPointer);
    TailSound(h, e.atPointer, e.tail);
    PointersAreSeen(At(h, e.atPointer), link, e.sessionId);
    EarlierLink(a, db, e.linkId);
    hide InOrder, PointerRead, Earlier;
    RepairRefines(a, ReadsAt(h, e.tail), db, e.sessionId, e.linkId, e.now);
  }

  /** The session built from the reads is the one that fresh reads would build. */
  lemma OpenIsFresh(db: Db, link: Link, s: Session, endpointId: Id, connectionId: Id)
    requires RouteInv(db) && s.linkId in db.links && link.controllerId == endpointId != ABSENT
    requires db.links[s.linkId].controllerId == s.controllerId == link.controllerId
    requires db.links[s.linkId].companionId == s.companionId == link.companionId
    requires db.links[s.linkId].status == LinkActive && db.links[s.linkId].activeSessionId == ABSENT
    requires Idle(db, s.controllerId, connectionId) && Idle(db, s.companionId, s.companionConnectionId)
    requires s.sessionId != ABSENT && s.sessionId !in db.sessions && s.sessionId !in db.seenSessions
    requires s == Session(s.sessionId, s.linkId, s.controllerId, s.companionId, connectionId, s.companionConnectionId,
                          SessionActive, s.createdAt, s.createdAt + SESSION_SECONDS, 0)
    requires s.companionConnectionId != connectionId
    ensures CanOpen(db, s) && CurrentCaller(db, endpointId, connectionId)
    ensures OpenedSession(db, s.linkId, connectionId, s.sessionId, s.createdAt) == s
  {
    assert LinkOk(db, s.linkId) && EndpointOk(db, s.controllerId) && EndpointOk(db, s.companionId);
    hide RouteInv;
  }

  /** The write list of an open whose reads are all of this table. */
  predicate OpensAfresh(db: Db, e: Event, ws: seq<Write>) {
    && e.OpenSession? && e.linkId in db.links
    && db.links[e.linkId].controllerId in db.endpoints && db.links[e.linkId].companionId in db.endpoints
    && ws == OpenWrites(OpenedSession(db, e.linkId, e.connectionId, e.sessionId, e.now))
  }

  lemma OpenIsAtomic(h: seq<Db>, e: Event, next: Db)
    requires Sound(h) && e.OpenSession? && Follows(h, e, next)
    ensures AtomicRoute(Last(h), e, next) && OpensAfresh(Last(h), e, Writes(h, e))
  {
    hide Follows, OnTime, Sound, RouteInv, RouteEvolves, PairInv, PairEvolves, LogInv, QuotaInv, AllHold, Apply,
         OpenWrites, SpecOpen, CanOpen, OpenedSession, CurrentCaller, Idle;
    Committed(h, e, next);
    var db, link := Last(h), At(h, e.atLink).links[e.linkId];
    SoundAt(h, e.atLink); SoundAt(h, e.atController); SoundAt(h, e.atCompanion);
    EarlierLink(At(h, e.atLink), db, e.linkId);
    LinkHasEnds(At(h, e.atLink), e.linkId);
    EndpointIsItsKey(At(h, e.atController), link.controllerId);
    EndpointIsItsKey(At(h, e.atCompanion), link.companionId);
    var s := NewSession(link, At(h, e.atController).endpoints[link.controllerId],
                        At(h, e.atCompanion).endpoints[link.companionId], e.connectionId, e.sessionId, e.now);
    OpenRefines(db, s);
    OpenIsFresh(db, link, s, e.endpointId, e.connectionId);
  }

  lemma EndpointIsItsKey(db: Db, id: Id)
    requires RouteInv(db)
    ensures id in db.endpoints ==> db.endpoints[id].endpointId == id && id != ABSENT
  {
    if id in db.endpoints { assert EndpointOk(db, id); }
  }

  // ----- pairs

  lemma CreateIsAtomic(h: seq<Db>, e: Event, next: Db)
    requires Sound(h) && e.CreatePair? && Follows(h, e, next)
    ensures AtomicPair(Last(h), e, next)
  {
    hide Follows, OnTime, Sound, Apply, SpecCreate, AllHold;
    Committed(h, e, next);
    CreateApplies(Last(h), e.pair, Door(e.pair), Admission(e.pair.pairId, e.pair.locator, e.pair.joinTokenHash,
                                                           e.pair.expiresAt));
  }

  lemma CreateApplies(db: Db, p: Pair, door: AdmissionKey, admission: Admission)
    requires AllHold([PutPair(p), PutAdmission(door, admission), SetPairing(p.sideA.connectionId, p.pairId)], db)
    ensures p.pairId !in db.seenPairs && door !in db.admissions && Assignable(db, p.sideA.connectionId)
    ensures Apply(db, [PutPair(p), PutAdmission(door, admission), SetPairing(p.sideA.connectionId, p.pairId)])
            == SpecCreate(db, p, door, admission)
  {
    hide Effect, SpecCreate, AllHold, Apply;
    var w1, w2, w3 := PutPair(p), PutAdmission(door, admission), SetPairing(p.sideA.connectionId, p.pairId);
    EachHolds([w1, w2, w3], db, w1); EachHolds([w1, w2, w3], db, w2); EachHolds([w1, w2, w3], db, w3);
    CreateEffects(db, p, door, admission);
    assert [w1, w2, w3] == [w1] + ([w2] + [w3]);
    ApplyConcat(db, [w1], [w2] + [w3]);
    ApplyOne(db, w1);
    ApplyConcat(Effect(db, w1), [w2], [w3]);
    ApplyOne(Effect(db, w1), w2);
    ApplyOne(Effect(Effect(db, w1), w2), w3);
  }

  lemma CreateEffects(db: Db, p: Pair, door: AdmissionKey, admission: Admission)
    requires Assignable(db, p.sideA.connectionId)
    ensures Effect(Effect(Effect(db, PutPair(p)), PutAdmission(door, admission)),
                   SetPairing(p.sideA.connectionId, p.pairId))
            == SpecCreate(db, p, door, admission)
  {
  }

  lemma JoinIsAtomic(h: seq<Db>, e: Event, next: Db)
    requires Sound(h) && e.JoinPair? && Follows(h, e, next)
    ensures AtomicPair(Last(h), e, next)
  {
    hide Follows, OnTime, Sound, Apply, SpecJoin, AllHold;
    Committed(h, e, next);
    JoinApplies(Last(h), e.pairId, e.door, e.side, e.now);
  }

  lemma JoinApplies(db: Db, pairId: Id, door: AdmissionKey, side: PairSide, now: int)
    requires AllHold([FillSideB(pairId, side, door, now), SetPairing(side.connectionId, pairId)], db)
    ensures Assignable(db, side.connectionId)
    ensures pairId in db.pairs && db.pairs[pairId].status == PairOpen && db.pairs[pairId].sideB.None?
    ensures now < db.pairs[pairId].expiresAt && Admits(db.pairs[pairId], door)
    ensures Apply(db, [FillSideB(pairId, side, door, now), SetPairing(side.connectionId, pairId)])
            == SpecJoin(db, pairId, side)
  {
    var w1, w2 := FillSideB(pairId, side, door, now), SetPairing(side.connectionId, pairId);
    assert w1 in [w1, w2] && w2 in [w1, w2];
    ApplyOpt(db, true, w1, [w2]);
    ApplyOne(Effect(db, w1), w2);
  }

  lemma HalfIsAtomic(h: seq<Db>, e: Event, next: Db)
    requires Sound(h) && e.CommitHalf? && Follows(h, e, next)
    ensures AtomicPair(Last(h), e, next)
  {
    hide Follows, OnTime, Sound, RouteInv, RouteEvolves, PairInv, PairEvolves, LogInv, QuotaInv, Apply, SpecHalf,
         AllHold, OwnSlot;
    Committed(h, e, next);
    SoundAt(h, e.atPair);
    HalfRefines(At(h, e.atPair), Last(h), e.pairId, e.slot, e.commit, e.now);
    EachHolds(Writes(h, e), Last(h), FillSlot(e.pairId, e.slot, e.commit, PairReady, PairHalf, e.now));
  }

  lemma FullIsAtomic(h: seq<Db>, e: Event, next: Db)
    requires Sound(h) && e.CommitFull? && Follows(h, e, next)
    ensures AtomicPair(Last(h), e, next)
  {
    hide Follows, Sound, RouteInv, RouteEvolves, PairInv, PairEvolves, LogInv, QuotaInv, Apply, SpecActivate,
         CanActivate, AllHold, OwnSlot, FullWrites, ReciprocalCommits;
    Committed(h, e, next);
    SoundAt(h, e.atPair);
    LimitIsPositive(Last(h));
    FullRefines(At(h, e.atPair), Last(h), e.pairId, e.slot, e.commit, e.sourceKey, e.now);
  }

  lemma LimitIsPositive(db: Db)
    requires QuotaInv(db)
    ensures 1 <= db.activationLimit
  {
  }

  lemma CancelIsAtomic(h: seq<Db>, e: Event, next: Db)
    requires Sound(h) && e.CancelPair? && Follows(h, e, next)
    ensures AtomicPair(Last(h), e, next)
  {
    hide Follows, OnTime, Sound, RouteInv, RouteEvolves, LogInv, QuotaInv, PairInv, PairEvolves, Apply, Effect, AllHold,
         SpecClosePair;
    Committed(h, e, next);
    SoundAt(h, e.atPair);
    SeenStays(At(h, e.atPair), Last(h), e.pairId);
    ClosePairApplies(Last(h), e.pairId, ABSENT);
  }

  lemma ClosePairApplies(db: Db, pairId: Id, memberId: Id)
    requires AllHold([ClosePair(pairId, memberId)], db)
    ensures Apply(db, [ClosePair(pairId, memberId)]) == SpecClosePair(db, pairId)
    ensures pairId in db.pairs ==> db.pairs[pairId].status != PairActive
    ensures memberId != ABSENT ==> pairId in db.pairs && IsMember(db.pairs[pairId], memberId)
  {
    assert ClosePair(pairId, memberId) in [ClosePair(pairId, memberId)];
    ApplyOne(db, ClosePair(pairId, memberId));
  }

  lemma SeenStays(a: Db, db: Db, pairId: Id)
    requires PairInv(a) && PairEvolves(a, db) && pairId in a.pairs
    ensures pairId != ABSENT && pairId in db.seenPairs
  {
    assert PairOk(a, pairId);
  }

  // ----- the rest

  lemma DropPairingIsAtomic(h: seq<Db>, e: Event, next: Db)
    requires Sound(h) && e.DisconnectPairing? && Follows(h, e, next)
    ensures AtomicPlain(Last(h), e, next)
  {
    hide Follows, OnTime, Sound, RouteInv, RouteEvolves, PairInv, PairEvolves, LogInv, QuotaInv, AllHold, Apply,
         SpecClosePair, IsMember, Effect;
    Committed(h, e, next);
    var a, db := At(h, e.atConnection), Last(h);
    var pairId := a.connections[e.connectionId].pairingId;
    SoundAt(h, e.atConnection);
    DropPairingApplies(db, e.connectionId, pairId, ClosesPair(At(h, e.atPair), pairId, e.connectionId));
    ConnectionAsRead(a, db, e.connectionId);
  }

  lemma DropPairingApplies(db: Db, connectionId: Id, pairId: Id, closes: bool)
    requires AllHold([DeleteConnection(connectionId, true)] + Opt(closes, ClosePair(pairId, connectionId)), db)
    ensures connectionId in db.connections
    ensures Apply(db, [DeleteConnection(connectionId, true)] + Opt(closes, ClosePair(pairId, connectionId)))
            == DropPairing(db, connectionId, pairId, closes)
    ensures closes ==> pairId in db.pairs ==> db.pairs[pairId].status != PairActive
    ensures closes && connectionId != ABSENT ==> pairId in db.pairs && IsMember(db.pairs[pairId], connectionId)
  {
    var w1, w2 := DeleteConnection(connectionId, true), ClosePair(pairId, connectionId);
    AllHoldConcat(db, [w1], Opt(closes, w2));
    assert w1 in [w1];
    ApplyOpt(db, true, w1, Opt(closes, w2));
    if closes {
      assert w2 in Opt(closes, w2);
      ApplyOne(db.(connections := db.connections - {connectionId}), w2);
    }
  }

  lemma PlainIsAtomic(h: seq<Db>, e: Event, next: Db)
    requires Sound(h) && Follows(h, e, next)
    requires e.Tick? || e.Expire? || e.ConnectPairing? || e.Rotate? || e.Charge?
    ensures AtomicPlain(Last(h), e, next)
  {
    hide OnTime, Sound, RouteInv, RouteEvolves, PairInv, PairEvolves, LogInv, QuotaInv;
    if !e.Tick? && !e.Expire? {
      var ws := Writes(h, e);
      ApplyOne(Last(h), ws[0]);
      EachHolds(ws, Last(h), ws[0]);
      SoundAt(h, |h| - 1);
      if e.Rotate? { EndpointIsItsKey(Last(h), e.endpointId); }
    }
  }

  // ----- all of them

  /** The theorem for one step.  Connect is the one request that is not always atomic. */
  lemma StepIsMove(h: seq<Db>, e: Event, next: Db)
    requires Sound(h) && Follows(h, e, next)
    ensures Moves(Last(h), e, next)
    ensures AtomicStep(Last(h), e, next) <==> (TookRecord(h, e) ==> OwnRecordStored(Last(h), e))
  {
    hide Sound, Follows, AtomicRoute, AtomicPair, AtomicPlain, MissesRecord;
    match e
    case ConnectEndpoint(_, _, _, _, _) =>
      ConnectIsMove(h, e, next);
      ConnectIsRoute(Last(h), e, next);
    case DisconnectEndpoint(_, _, _, _, _) => DisconnectIsAtomic(h, e, next);
    case RevokeLink(_, _, _, _, _, _, _) => RevokeLinkIsAtomic(h, e, next);
    case RevokeEndpoint(_, _, _, _, _) => RevokeEndpointIsAtomic(h, e, next);
    case OpenSession(_, _, _, _, _, _, _, _) => OpenIsAtomic(h, e, next);
    case Repair(_, _, _, _, _, _) => RepairIsAtomic(h, e, next);
    case CloseSession(_, _, _, _, _) => CloseIsAtomic(h, e, next);
    case CreatePair(_) => CreateIsAtomic(h, e, next);
    case JoinPair(_, _, _, _, _) => JoinIsAtomic(h, e, next);
    case CommitHalf(_, _, _, _, _) => HalfIsAtomic(h, e, next);
    case CommitFull(_, _, _, _, _, _) => FullIsAtomic(h, e, next);
    case CancelPair(_, _, _, _) => CancelIsAtomic(h, e, next);
    case DisconnectPairing(_, _, _) => DropPairingIsAtomic(h, e, next);
    case DropRecord(_, _, _) => NeverDrops(h, e, next);
    case _ => PlainIsAtomic(h, e, next);
  }

  lemma ConnectIsRoute(db: Db, e: Event, next: Db)
    requires e.ConnectEndpoint?
    ensures !AtomicPair(db, e, next) && !AtomicPlain(db, e, next)
  {
  }

  // ----- whole runs

  lemma SoundGrows(h: seq<Db>, next: Db)
    requires Sound(h) && Keeps(Last(h), next)
    ensures Sound(h + [next])
  {
    var longer := h + [next];
    hide Inv, Evolves;
    assert forall i :: 0 <= i < |h| ==> At(longer, i) == At(h, i);
    forall i, j | 0 <= i <= j < |longer| ensures Evolves(At(longer, i), At(longer, j)) {
      if j == |h| {
        if i == |h| {
          EvolvesReflexive(next);
        } else {
          EvolvesTransitive(At(longer, i), Last(h), next);
        }
      }
    }
  }

  lemma EvolvesTransitive(a: Db, b: Db, c: Db)
    requires Evolves(a, b) && Evolves(b, c) && Inv(b)
    ensures Evolves(a, c)
  {
    hide RouteInv, PairInv, LogInv, QuotaInv, RouteEvolves, PairEvolves;
    RouteEvolvesTransitive(a, b, c);
    PairEvolvesTransitive(a, b, c);
  }

  lemma EvolvesReflexive(a: Db)
    requires Inv(a)
    ensures Evolves(a, a)
  {
    RouteEvolvesReflexive(a);
  }

  lemma EmptyIsSound(db: Db)
    requires Empty(db)
    ensures Sound([db])
  {
    RouteEvolvesReflexive(db);
  }

  /** Whatever invocations interleave, and however stale their reads, the invariants hold of every table
      of the run, and each table has evolved from every table before it. */
  lemma {:induction false} RunIsSound(h: seq<Db>, events: seq<Event>)
    requires ValidRun(h, events)
    ensures Sound(h)
    decreases |h|
  {
    hide Follows, Sound, Empty, Moves, Inv, Keeps;
    if |h| == 1 {
      EmptyIsSound(h[0]);
      assert h == [h[0]];
    } else {
      var n := |events|;
      var before, fewer := h[..n], events[..n - 1];
      RunPrefix(h, events, n - 1);
      RunIsSound(before, fewer);
      assert Follows(Upto(h, n - 1), StepAt(events, n - 1), At(h, n - 1 + 1));
      StepIsMove(before, events[n - 1], h[n]);
      assert Inv(Last(before)) by { SoundAt(before, n - 1); }
      MovesKeep(Last(before), events[n - 1], h[n]);
      SoundGrows(before, h[n]);
      assert h == before + [h[n]];
    }
  }

  /** A run up to one of its tables. */
  lemma RunPrefix(h: seq<Db>, events: seq<Event>, k: nat)
    requires ValidRun(h, events) && k <= |events|
    ensures ValidRun(h[..k + 1], events[..k])
  {
    var before := h[..k + 1];
    hide Follows, Empty;
    forall i | 0 <= i < k ensures Follows(Upto(before, i), StepAt(events[..k], i), At(before, i + 1)) {
      assert before[..i + 1] == h[..i + 1];
      assert Follows(Upto(h, i), StepAt(events, i), At(h, i + 1));
    }
  }
}
