/** What each operation of the store answers when nobody else is at work, read off the table it starts from; and why
    a transaction whose reads are all of the table that it meets is never refused but for what that table holds. */
module Alone {
  import opened Records
  import opened Table
  import opened Routing
  import opened Transitions
  import opened Specs
  import opened Plans
  import opened Refinement
  import opened Pairing
  import opened ActivationStep
  import opened Runs
  import opened Steps
  import opened Atomicity
  import opened Frames
  import opened RouteTheorems
  import opened StoreSteps

  // ----- the answers

  function ConnectAlone(db: Db, c: Connection, credentialHash: Id): Option<Denial> {
    if !WellFormed(c, credentialHash) || LockedOut(db, c, credentialHash) then Some(Denial(Unauthenticated, false))
    else if c.endpointId != ABSENT && !SameAsRead(db.endpoints[c.endpointId], db, c) && IdUsed(db, c.connectionId)
    then Some(Denial(Conflict, true))
    else None
  }

  predicate IdUsed(db: Db, connectionId: Id) { connectionId in db.connections || connectionId in db.seenConnections }

  /** A request that only its endpoint's current connection may make. */
  function CallerAlone(db: Db, endpointId: Id, connectionId: Id): Option<Denial> {
    if CurrentCaller(db, endpointId, connectionId) then None else Some(Denial(Unauthenticated, false))
  }

  function RevokeLinkAlone(db: Db, linkId: Id, endpointId: Id, connectionId: Id): Option<Denial> {
    if !CurrentCaller(db, endpointId, connectionId) then Some(Denial(Unauthenticated, false))
    else if !(linkId in db.links && OnLink(db.links[linkId], endpointId)) then Some(Denial(Forbidden, false))
    else None
  }

  function CloseAlone(db: Db, sessionId: Id, endpointId: Id, connectionId: Id): Option<Denial> {
    if endpointId == connectionId == ABSENT then None
    else if !CurrentCaller(db, endpointId, connectionId) then Some(Denial(Unauthenticated, false))
    else if sessionId in db.sessions && !OnSession(db.sessions[sessionId], endpointId)
    then Some(Denial(Forbidden, false))
    else None
  }

  ghost function SessionAlone(db: Db, sessionId: Id, now: int): Option<Denial> {
    if LiveSession(db, sessionId, now) then None else Some(Denial(SessionNotFound, false))
  }

  ghost function CreateAlone(db: Db, pair: Pair): Option<Denial> {
    if (pair.locator == ABSENT) == (pair.joinTokenHash == ABSENT) then Some(Denial(InvalidMessage, false))
    else if CannotCreate(db, pair) then Some(Denial(Conflict, true))
    else None
  }

  /** Whether a locator or a join token leads to a pair. */
  function AdmissionAlone(db: Db, door: AdmissionKey, now: int): Option<Denial> {
    if !AdmitsTo(db, door, now) || OutOfTime(db, db.admissions[door].pairId, now) then Some(Denial(PairExpired, false))
    else
      var pairId := db.admissions[door].pairId;
      if db.pairs[pairId].pairId == pairId && NameEachOther(db.admissions[door], db.pairs[pairId], door) then None
      else Some(Denial(PairUnavailable, false))
  }

  ghost function JoinAlone(db: Db, locator: Id, joinTokenHash: Id, connectionId: Id, now: int): Option<Denial> {
    var door := Entrance(locator, joinTokenHash);
    if (locator == ABSENT) == (joinTokenHash == ABSENT) then Some(Denial(InvalidMessage, false))
    else if AdmissionAlone(db, door, now).Some? then AdmissionAlone(db, door, now)
    else if CannotJoin(db, db.admissions[door].pairId, door, connectionId, now) then Some(Denial(PairFull, false))
    else None
  }

  predicate NameEachOther(admission: Admission, pair: Pair, door: AdmissionKey) {
    DoorOf(admission.locator, admission.joinTokenHash, door) && DoorOf(pair.locator, pair.joinTokenHash, door)
  }

  function CancelAlone(db: Db, pairId: Id, connectionId: Id, now: int): Option<Denial> {
    if OutOfTime(db, pairId, now) then None
    else
      var pair := db.pairs[pairId];
      if pair.pairId != pairId then Some(Denial(PairUnavailable, false))
      else if !IsMember(pair, connectionId) then Some(Denial(Forbidden, false))
      else if pair.status == PairActive then Some(Denial(Conflict, false))
      else None
  }

  /** A record with no room left under its limit. */
  predicate UsedUp(db: Db, key: RateKey, limit: int) { key in db.rates && limit <= db.rates[key].count }

  function RateAlone(db: Db, key: RateKey, limit: int): Option<Denial> {
    if UsedUp(db, key, limit) then Some(Denial(RateLimited, true)) else None
  }

  /** An endpoint that is stored can be paired again only as the one it is. */
  predicate Takes(db: Db, c: PairEndpointCommit) {
    c.endpointId in db.endpoints ==>
      && Equals(db.endpoints[c.endpointId].credentialHash, c.credentialHash)
      && db.endpoints[c.endpointId].role == c.role && db.endpoints[c.endpointId].revokedAt == 0
  }

  /** The commit of the other side, where the pair waits for this one only. */
  function LastBefore(db: Db, pairId: Id, commit: PairCommit): Option<PairCommit> {
    if pairId !in db.pairs then None
    else
      var p := db.pairs[pairId];
      var slot := if FromSide(commit, p.sideA) then SlotA else SlotB;
      if Commit(p, slot).Some? then None else Commit(p, OtherSlot(slot))
  }

  /** What an activation asks of the table besides its pair: room in both quotas, a new link, and endpoints that it
      may take. */
  predicate Activatable(db: Db, first: PairCommit, second: PairCommit, sourceKey: Id, now: int) {
    && !UsedUp(db, HourKey(sourceKey, now), db.activationLimit) && !UsedUp(db, DayKey(now), 10_000)
    && first.linkId !in db.links && Takes(db, first.self) && Takes(db, second.self)
  }

  /** The link of a last commit is taken, or one of its endpoints. */
  predicate Unpairable(db: Db, pairId: Id, commit: PairCommit) {
    var other := LastBefore(db, pairId, commit);
    other.Some? && (commit.linkId in db.links || !Takes(db, commit.self) || !Takes(db, other.value.self))
  }

  function CommitAlone(db: Db, pairId: Id, commit: PairCommit, sourceKey: Id, now: int): Option<Denial> {
    var refusal := CommitRefusal(db, pairId, commit, now);
    if refusal.Some? then Some(Denial(refusal.value, false))
    else if LastBefore(db, pairId, commit).None? then None
    else if sourceKey == ABSENT then Some(Denial(Internal, true))
    else if UsedUp(db, HourKey(sourceKey, now), db.activationLimit) || UsedUp(db, DayKey(now), 10_000)
    then Some(Denial(RateLimited, false))
    else if Unpairable(db, pairId, commit) then Some(Denial(Conflict, true))
    else None
  }

  // ----- fresh transactions

  lemma FreshReads(h: seq<Db>, from: nat, t: TailReads)
    requires TailInOrder(h, from, t) && from + 1 == |h|
    ensures ReadsAt(h, t) == Reads(Last(h), Last(h), Last(h), Last(h))
  {
  }

  /** What was found on the last table is still found there while no other has come. */
  lemma SameFence(before: seq<Db>, h: seq<Db>, s: Session, fence: Fence, at: nat)
    requires Prefix(before, h) && at + 1 == |h| && at < |before| && FenceFound(At(before, at), s, fence)
    ensures FenceFound(Last(h), s, fence)
  {
    hide FenceFound;
  }

  lemma BothHold(db: Db, own: seq<Write>, rest: seq<Write>)
    requires AllHold(own, db) && AllHold(rest, db)
    ensures AllHold(own + rest, db)
  {
    AllHoldConcat(db, own, rest);
  }

  lemma FreshOwnTailHolds(db: Db, own: seq<Write>, endpoint: Endpoint, closes: bool, endpointId: Id, now: int)
    requires Keyed(db) && AllHold(own, db)
    ensures AllHold(OwnTail(own, Reads(db, db, db, db), SessionRead(endpoint, db), closes, endpointId, now), db)
  {
    hide AllHold, Tail;
    var session := SessionRead(endpoint, db);
    if closes && session.Some? {
      FreshTransitionHolds(db, session.value, now, {EndpointItem(endpointId)}, NoFence);
      BothHold(db, own, Tail(Reads(db, db, db, db), session.value, now, {EndpointItem(endpointId)}, NoFence));
    } else {
      assert own + [] == own;
    }
  }

  lemma FreshConnectHolds(db: Db, c: Connection, credentialHash: Id, endpoint: Endpoint, session: Option<Session>,
                          same: bool)
    requires Lookup(db.endpoints, c.endpointId) == Some(endpoint) && MayConnect(endpoint, same, session, c,
                                                                                credentialHash)
    requires same || !IdUsed(db, c.connectionId)
    ensures AllHold(OwnConnectWrites(c, credentialHash, endpoint, same), db)
  {
    hide NewConnection;
  }

  lemma FreshDisconnectHolds(db: Db, connectionId: Id, endpointId: Id, endpoint: Endpoint)
    requires connectionId in db.connections && connectionId != ABSENT
    requires Lookup(db.endpoints, endpointId) == Some(endpoint) && endpoint.connectionId == connectionId
    ensures AllHold(OwnDisconnectWrites(connectionId, endpointId, endpoint), db)
  {
  }

  lemma FreshRetireHolds(db: Db, endpointId: Id, connectionId: Id, endpoint: Endpoint, now: int)
    requires CurrentCaller(db, endpointId, connectionId) && Lookup(db.endpoints, endpointId) == Some(endpoint)
    ensures AllHold(OwnRevokeEndpointWrites(endpointId, connectionId, endpoint, now), db)
  {
  }

  /** A stored record of an endpoint's connection is the one that its endpoint is on. */
  lemma StoredIsAttached(db: Db, connectionId: Id)
    requires Inv(db) && connectionId in db.connections && db.connections[connectionId].endpointId != ABSENT
    ensures var endpointId := db.connections[connectionId].endpointId;
            endpointId in db.endpoints && db.endpoints[endpointId].connectionId == connectionId
  {
    hide PairInv, LogInv, QuotaInv;
    assert ConnectionOk(db, connectionId);
  }

  lemma FreshRevokeHolds(db: Db, link: Link, endpointId: Id, connectionId: Id, now: int)
    requires Lookup(db.links, link.linkId) == Some(link) && MayRevoke(db, link, endpointId, connectionId)
    ensures AllHold([RetireLink(link.linkId, link.activeSessionId, now)], db)
    ensures AllHold([RetireLink(link.linkId, link.activeSessionId, now)]
                    + [FenceCheck(Fence(endpointId, connectionId))], db)
  {
  }

  lemma FreshRevokeTailHolds(db: Db, link: Link, session: Option<Session>, endpointId: Id, connectionId: Id, now: int)
    requires Keyed(db) && link.activeSessionId != ABSENT
    requires Lookup(db.links, link.linkId) == Some(link) && MayRevoke(db, link, endpointId, connectionId)
    requires session == Lookup(db.sessions, link.activeSessionId)
    ensures AllHold([RetireLink(link.linkId, link.activeSessionId, now)]
                    + Tail(Reads(db, db, db, db), SessionOfLink(link, session), now, {LinkItem(link.linkId)},
                           Fence(endpointId, connectionId)), db)
  {
    FreshRevokeHolds(db, link, endpointId, connectionId, now);
    hide AllHold, Tail, CurrentCaller;
    FreshTransitionHolds(db, SessionOfLink(link, session), now, {LinkItem(link.linkId)},
                         Fence(endpointId, connectionId));
    BothHold(db, [RetireLink(link.linkId, link.activeSessionId, now)],
             Tail(Reads(db, db, db, db), SessionOfLink(link, session), now, {LinkItem(link.linkId)},
                  Fence(endpointId, connectionId)));
  }

  lemma CreateHolds(db: Db, pair: Pair)
    ensures AllHold(CreateWrites(pair), db) <==> !CannotCreate(db, pair)
  {
    var ws := CreateWrites(pair);
    assert ws[0] in ws && ws[1] in ws && ws[2] in ws;
  }

  lemma JoinHolds(db: Db, pairId: Id, side: PairSide, door: AdmissionKey, now: int)
    ensures AllHold([FillSideB(pairId, side, door, now), SetPairing(side.connectionId, pairId)], db)
            <==> !CannotJoin(db, pairId, door, side.connectionId, now)
  {
    var ws := [FillSideB(pairId, side, door, now), SetPairing(side.connectionId, pairId)];
    assert ws[0] in ws && ws[1] in ws;
  }

  /** A waiting pair without commits is READY, and with one it is HALF. */
  lemma WaitingShape(db: Db, pairId: Id, slot: Slot, commit: PairCommit)
    requires Inv(db) && PairRead(db, pairId) && Waiting(db.pairs[pairId], slot, commit)
    ensures db.pairs[pairId].status == if Commit(db.pairs[pairId], OtherSlot(slot)).None? then PairReady else PairHalf
  {
    hide RouteInv, LogInv, QuotaInv;
    assert PairOk(db, pairId);
  }

  lemma FreshHalfHolds(db: Db, pairId: Id, slot: Slot, commit: PairCommit, now: int)
    requires Inv(db) && PairRead(db, pairId) && Waiting(db.pairs[pairId], slot, commit)
    requires Commit(db.pairs[pairId], OtherSlot(slot)).None? && now < db.pairs[pairId].expiresAt
    ensures AllHold([FillSlot(pairId, slot, commit, PairReady, PairHalf, now)], db)
  {
    hide Inv;
    WaitingShape(db, pairId, slot, commit);
  }

  lemma FreshFullHolds(db: Db, pairId: Id, slot: Slot, commit: PairCommit, now: int)
    requires Inv(db) && PairRead(db, pairId) && Waiting(db.pairs[pairId], slot, commit)
    requires Commit(db.pairs[pairId], OtherSlot(slot)).Some? && now < db.pairs[pairId].expiresAt
    ensures Holds(FillSlot(pairId, slot, commit, PairHalf, PairActive, now), db)
  {
    hide Inv;
    WaitingShape(db, pairId, slot, commit);
  }

  lemma SixHold(a: Write, b: Write, c: Write, d: Write, e: Write, f: Write, db: Db)
    ensures AllHold([a, b, c, d, e, f], db) <==>
              Holds(a, db) && Holds(b, db) && Holds(c, db) && Holds(d, db) && Holds(e, db) && Holds(f, db)
  {
    hide Holds;
    var ws := [a, b, c, d, e, f];
    assert ws[0] in ws && ws[1] in ws && ws[2] in ws && ws[3] in ws && ws[4] in ws && ws[5] in ws;
  }

  lemma EndpointTaken(db: Db, c: PairEndpointCommit, now: int)
    ensures Holds(UpsertEndpoint(NewEndpoint(c, now)), db) <==> Takes(db, c)
  {
  }

  lemma RateHolds(db: Db, key: RateKey, limit: int)
    ensures Holds(RateUpdate(key, limit), db) <==> !UsedUp(db, key, limit)
  {
    hide RateExpiry;
  }

  lemma UsedUpCounts(db: Db, key: RateKey, limit: int)
    ensures UsedUp(db, key, limit) ==> limit <= Count(db, key)
  {
  }

  /** Apart from the pair's own, the conditions of an activation are those that the table must meet for it. */
  lemma ActivationHolds(db: Db, pairId: Id, slot: Slot, commit: PairCommit, first: PairCommit, second: PairCommit,
                        link: Link, sourceKey: Id, now: int)
    requires LinkFromCommits(first, second, now) == Ok(link)
    ensures var fill := FillSlot(pairId, slot, commit, PairHalf, PairActive, now);
            var ws := [fill, PutLink(link, Entry(pairId, first, second, sourceKey, now)),
                       UpsertEndpoint(NewEndpoint(first.self, now)), UpsertEndpoint(NewEndpoint(second.self, now)),
                       RateUpdate(HourKey(sourceKey, now), db.activationLimit),
                       RateUpdate(DayKey(now), ACTIVATIONS_PER_DAY)];
            && (AllHold(ws, db) <==> Holds(fill, db) && Activatable(db, first, second, sourceKey, now))
            && |Verdicts(ws, db)| == 6
            && (Verdicts(ws, db)[SOURCE_RATE_INDEX] <==>
                UsedUp(db, HourKey(sourceKey, now), db.activationLimit))
            && (Verdicts(ws, db)[GLOBAL_RATE_INDEX] <==> UsedUp(db, DayKey(now), ACTIVATIONS_PER_DAY))
  {
    var fill, put := FillSlot(pairId, slot, commit, PairHalf, PairActive, now),
        PutLink(link, Entry(pairId, first, second, sourceKey, now));
    var one, other := UpsertEndpoint(NewEndpoint(first.self, now)), UpsertEndpoint(NewEndpoint(second.self, now));
    var hour, day := RateUpdate(HourKey(sourceKey, now), db.activationLimit),
        RateUpdate(DayKey(now), ACTIVATIONS_PER_DAY);
    assert Holds(put, db) <==> first.linkId !in db.links;
    hide Holds, UsedUp, Takes, HourKey, DayKey, RateUpdate, NewEndpoint;
    SixHold(fill, put, one, other, hour, day, db);
    EndpointTaken(db, first.self, now);
    EndpointTaken(db, second.self, now);
    RateHolds(db, HourKey(sourceKey, now), db.activationLimit);
    RateHolds(db, DayKey(now), ACTIVATIONS_PER_DAY);
  }

  /** The table's answer to a commit that its pair waits for. */
  lemma WaitingAlone(db: Db, pairId: Id, slot: Slot, commit: PairCommit, sourceKey: Id, now: int)
    requires PairRead(db, pairId) && Waiting(db.pairs[pairId], slot, commit) && now < db.pairs[pairId].expiresAt
    requires slot == SlotB ==> !FromSide(commit, db.pairs[pairId].sideA)
    ensures var other := Commit(db.pairs[pairId], OtherSlot(slot));
            var answer := CommitAlone(db, pairId, commit, sourceKey, now);
            if other.None? then answer.None?
            else if !ReciprocalCommits(commit, other.value) then answer == Some(Denial(Conflict, false))
            else if sourceKey == ABSENT then answer == Some(Denial(Internal, true))
            else
              var (first, second) := Ordered(db.pairs[pairId], slot, commit);
              && (answer.None? <==> Activatable(db, first, second, sourceKey, now))
              && (answer.Some? ==> answer.value == if UsedUp(db, HourKey(sourceKey, now), db.activationLimit)
                                                      || UsedUp(db, DayKey(now), ACTIVATIONS_PER_DAY)
                                                   then Denial(RateLimited, false) else Denial(Conflict, true))
              && (Unpairable(db, pairId, commit) <==>
                  !(first.linkId !in db.links && Takes(db, first.self) && Takes(db, second.self)))
  {
    hide UsedUp, Takes, HourKey, DayKey;
  }

  lemma NotActivatable(db: Db, pairId: Id, commit: PairCommit, first: PairCommit, second: PairCommit, sourceKey: Id,
                       now: int)
    requires !Activatable(db, first, second, sourceKey, now)
    requires !UsedUp(db, HourKey(sourceKey, now), db.activationLimit) && !UsedUp(db, DayKey(now), ACTIVATIONS_PER_DAY)
    requires Unpairable(db, pairId, commit) <==>
             !(first.linkId !in db.links && Takes(db, first.self) && Takes(db, second.self))
    ensures Unpairable(db, pairId, commit)
  {
    hide Unpairable, UsedUp, Takes, HourKey, DayKey;
  }

  lemma PutIsFirst(own: seq<Write>, r: Reads, session: Option<Session>, closes: bool, c: Connection, credentialHash: Id,
                   endpoint: Endpoint)
    requires own == OwnConnectWrites(c, credentialHash, endpoint, false)
    ensures PutConnection(c) in OwnTail(own, r, session, closes, c.endpointId, c.connectedAt)
  {
    hide Tail;
    assert own[0] == PutConnection(c);
    assert OwnTail(own, r, session, closes, c.endpointId, c.connectedAt)[0] == PutConnection(c);
  }

  /** What a $connect that committed reports, and what it has done. */
  lemma AttachReported(h: seq<Db>, events: seq<Event>, at: nat, e: Event, own: seq<Write>, r: Reads, atSession: nat,
                       endpoint: Endpoint, session: Option<Session>, closes: bool, c: Connection, credentialHash: Id,
                       same: bool)
    requires own == OwnConnectWrites(c, credentialHash, endpoint, same) && EndsNothing(own)
    requires Ran(h, events, at, e, OwnTail(own, r, session, closes, c.endpointId, c.connectedAt))
    requires AllHold(OwnTail(own, r, session, closes, c.endpointId, c.connectedAt), At(h, at))
    requires atSession <= at && session == SessionRead(endpoint, At(h, atSession)) && Attaches(e, c, credentialHash)
    ensures Reports(h, events, at, ReportOf(session, closes, c.connectedAt))
    ensures OnConnection(At(h, at + 1), c, credentialHash)
    ensures !same ==> !IdUsed(At(h, at), c.connectionId)
  {
    hide ValidRun, ReadsLead, Writes, OwnTail, Reports, SessionRead, ReportOf, OnConnection, Step, EndsNothing, AllHold,
         IdUsed, Leads;
    OwnTailReported(h, events, at, e, own, r, atSession, endpoint, session, closes, c.endpointId, c.connectedAt);
    RunSteps(h, events, at);
    ConnectReported(At(h, at), e, At(h, at + 1), c, credentialHash);
    if !same {
      PutIsFirst(own, r, session, closes, c, credentialHash, endpoint);
      PutIsNew(At(h, at), OwnTail(own, r, session, closes, c.endpointId, c.connectedAt), c);
    }
  }

  lemma AttachIsFresh(before: seq<Db>, h: seq<Db>, events: seq<Event>, c: Connection, credentialHash: Id,
                      endpoint: Endpoint, session: Option<Session>, same: bool, closes: bool, at: nat, t: TailReads)
    requires ValidRun(h, events) && Prefix(before, h) && at + 1 == |h| && at < |before| && TailInOrder(h, at, t)
    requires MayConnect(endpoint, same, session, c, credentialHash)
    requires Lookup(At(before, at).endpoints, c.endpointId) == Some(endpoint)
    requires session == SessionRead(endpoint, At(before, at)) && (same || !IdUsed(Last(h), c.connectionId))
    ensures AllHold(OwnTail(OwnConnectWrites(c, credentialHash, endpoint, same), ReadsAt(h, t), session, closes,
                            c.endpointId, c.connectedAt), Last(h))
  {
    hide ValidRun, MayConnect, OwnTail, OwnConnectWrites, SessionRead, Keyed, AllHold, IdUsed;
    FreshReads(h, at, t);
    TableIsKeyed(h, events, at);
    FreshConnectHolds(Last(h), c, credentialHash, endpoint, session, same);
    FreshOwnTailHolds(Last(h), OwnConnectWrites(c, credentialHash, endpoint, same), endpoint, closes, c.endpointId,
                      c.connectedAt);
  }

  lemma StaysUsed(before: seq<Db>, h: seq<Db>, events: seq<Event>, connectionId: Id)
    requires ValidRun(h, events) && 0 < |before| && Prefix(before, h) && IdUsed(Last(before), connectionId)
    ensures IdUsed(Last(h), connectionId)
  {
    hide ValidRun, PairInv, PairEvolves, LogInv, QuotaInv;
    TablesEvolve(h, events, |before| - 1, |h| - 1);
    assert connectionId in Last(before).connections ==> ConnectionOk(Last(before), connectionId);
  }

  lemma DetachIsFresh(before: seq<Db>, h: seq<Db>, events: seq<Event>, connectionId: Id, c: Connection,
                      endpoint: Endpoint, session: Option<Session>, closes: bool, now: int, at: nat, t: TailReads)
    requires ValidRun(h, events) && Prefix(before, h) && at + 1 == |h| && at < |before| && TailInOrder(h, at, t)
    requires connectionId != ABSENT && Lookup(At(before, at).connections, connectionId) == Some(c)
    requires Lookup(At(before, at).endpoints, c.endpointId) == Some(endpoint) && endpoint.connectionId == connectionId
    requires session == SessionRead(endpoint, At(before, at))
    ensures AllHold(OwnTail(OwnDisconnectWrites(connectionId, c.endpointId, endpoint), ReadsAt(h, t), session, closes,
                            c.endpointId, now), Last(h))
  {
    hide ValidRun, OwnTail, OwnDisconnectWrites, SessionRead, Keyed, AllHold;
    FreshReads(h, at, t);
    TableIsKeyed(h, events, at);
    FreshDisconnectHolds(Last(h), connectionId, c.endpointId, endpoint);
    FreshOwnTailHolds(Last(h), OwnDisconnectWrites(connectionId, c.endpointId, endpoint), endpoint, closes,
                      c.endpointId, now);
  }

  lemma DisconnectDrops(h: seq<Db>, events: seq<Event>, at: nat, connectionId: Id)
    requires ValidRun(h, events) && at < |events| && Disconnects(StepAt(events, at), connectionId)
    ensures DropsRecord(At(h, at), At(h, at + 1), connectionId)
  {
    hide ValidRun, Step, DropsRecord;
    RunSteps(h, events, at);
    DisconnectReported(At(h, at), StepAt(events, at), At(h, at + 1), connectionId);
  }

  lemma DropReported(h: seq<Db>, events: seq<Event>, at: nat, e: Event, ws: seq<Write>, connectionId: Id)
    requires Ran(h, events, at, e, ws) && Disconnects(e, connectionId)
    requires forall w :: w in ws ==> w.DeleteConnection? || w.ClosePair?
    ensures Reports(h, events, at, None) && DropsRecord(At(h, at), At(h, at + 1), connectionId)
  {
    hide ValidRun, Reports, DropsRecord, Leads, Disconnects;
    NothingReported(h, events, at, e, ws);
    DisconnectDrops(h, events, at, connectionId);
  }

  lemma FreshDropHolds(db: Db, pairId: Id, connectionId: Id)
    requires connectionId in db.connections
    ensures AllHold([DeleteConnection(connectionId, true)], db)
    ensures ClosesPair(db, pairId, connectionId) ==>
              AllHold([DeleteConnection(connectionId, true)] + [ClosePair(pairId, connectionId)], db)
  {
  }

  lemma UnseatIsFresh(before: seq<Db>, h: seq<Db>, events: seq<Event>, endpointId: Id, connectionId: Id,
                      endpoint: Endpoint, session: Option<Session>, closes: bool, now: int, at: nat, t: TailReads)
    requires ValidRun(h, events) && Prefix(before, h) && at + 1 == |h| && at < |before| && TailInOrder(h, at, t)
    requires CurrentCaller(At(before, at), endpointId, connectionId)
    requires Lookup(At(before, at).endpoints, endpointId) == Some(endpoint)
    requires session == SessionRead(endpoint, At(before, at))
    ensures AllHold(OwnTail(OwnRevokeEndpointWrites(endpointId, connectionId, endpoint, now), ReadsAt(h, t), session,
                            closes, endpointId, now), Last(h))
  {
    hide ValidRun, OwnTail, OwnRevokeEndpointWrites, SessionRead, Keyed, AllHold, CurrentCaller;
    FreshReads(h, at, t);
    TableIsKeyed(h, events, at);
    FreshRetireHolds(Last(h), endpointId, connectionId, endpoint, now);
    FreshOwnTailHolds(Last(h), OwnRevokeEndpointWrites(endpointId, connectionId, endpoint, now), endpoint, closes,
                      endpointId, now);
  }

  lemma RetireIsFresh(before: seq<Db>, h: seq<Db>, events: seq<Event>, link: Link, session: Option<Session>,
                      endpointId: Id, connectionId: Id, now: int, at: nat, t: TailReads)
    requires ValidRun(h, events) && Prefix(before, h) && at + 1 == |h| && at < |before| && TailInOrder(h, at, t)
    requires MayRevoke(At(before, at), link, endpointId, connectionId) && link.activeSessionId != ABSENT
    requires Lookup(At(before, at).links, link.linkId) == Some(link)
    requires session == Lookup(At(h, at).sessions, link.activeSessionId)
    ensures AllHold([RetireLink(link.linkId, link.activeSessionId, now)]
                    + Tail(ReadsAt(h, t), SessionOfLink(link, session), now, {LinkItem(link.linkId)},
                           Fence(endpointId, connectionId)), Last(h))
  {
    hide ValidRun, Tail, Keyed, AllHold, MayRevoke, SessionOfLink;
    FreshReads(h, at, t);
    TableIsKeyed(h, events, at);
    FreshRevokeTailHolds(Last(h), link, session, endpointId, connectionId, now);
  }

  lemma RotateHolds(db: Db, endpointId: Id, connectionId: Id, credentialHash: Id, now: int)
    requires Inv(db)
    ensures AllHold([RotateCredential(endpointId, connectionId, credentialHash, now)], db)
            <==> CurrentCaller(db, endpointId, connectionId)
  {
    hide PairInv, LogInv, QuotaInv;
    var w := RotateCredential(endpointId, connectionId, credentialHash, now);
    assert w in [w];
    assert endpointId in db.endpoints ==> EndpointOk(db, endpointId);
  }

  /** The put of a record that committed was of a new ID. */
  lemma PutIsNew(db: Db, ws: seq<Write>, c: Connection)
    requires AllHold(ws, db) && PutConnection(c) in ws
    ensures !IdUsed(db, c.connectionId)
  {
    assert Holds(PutConnection(c), db);
  }

  lemma ChargeHolds(db: Db, key: RateKey, limit: int, expiresAt: int)
    ensures AllHold([BumpRate(key, limit, expiresAt)], db) <==> !UsedUp(db, key, limit)
  {
    var w := BumpRate(key, limit, expiresAt);
    assert w in [w];
  }
}
