/** Where the relay falls short of what its clients may take from it: a connect that took for its own a record which
    then expired, and a cancel of a pair whose record had gone.  Each happens only when a record was read within ten
    seconds of its expiry, and can happen whenever it was.  And a disconnect that read its record before a pair was
    on it leaves the pair. */
module Shortfalls {
  import opened Records
  import opened Table
  import opened Routing
  import opened Transitions
  import opened Specs
  import opened Refinement
  import opened Pairing
  import opened ActivationStep
  import opened Runs
  import opened Steps
  import opened Atomicity
  import opened Frames
  import opened RouteTheorems
  import opened PairTheorems
  import opened StoreSteps
  import opened PairMoves
  import opened Expiry

  /** A run that goes on from this one, whatever else happens, until the transaction of `e` commits. */
  ghost predicate Continues(h: seq<Db>, events: seq<Event>, e: Event, longer: seq<Db>, all: seq<Event>) {
    RunOn(h, events, longer, all) && |events| < |all| && StepAt(all, |all| - 1) == e
  }

  // ----- runs that go on

  /** The clock moves on to an item's expiry, and TTL takes the item. */
  lemma Lapses(h: seq<Db>, events: seq<Event>, item: Item, to: int) returns (longer: seq<Db>, all: seq<Event>)
    requires ValidRun(h, events) && Last(h).now <= to && Expired(Last(h).(now := to), item)
    ensures RunOn(h, events, longer, all) && Last(longer) == Dropped(Last(h).(now := to), item)
  {
    hide ValidRun, Expired, Dropped;
    RunSize(h, events);
    var later := Last(h).(now := to);
    assert Follows(h, Tick(to), later);
    AddedFollows(h, events, Tick(to), later);
    longer, all := h + [later], events + [Tick(to)];
    assert Follows(longer, Expire(item), Dropped(later, item));
    hide Follows;
    AddedFollows(longer, all, Expire(item), Dropped(later, item));
    longer, all := longer + [Dropped(later, item)], all + [Expire(item)];
  }

  /** A transaction that a run had come to goes through at the end of a longer one, if its time is not up and its
      conditions hold. */
  lemma GoesThrough(h: seq<Db>, events: seq<Event>, longer: seq<Db>, all: seq<Event>, e: Event)
      returns (further: seq<Db>, more: seq<Event>)
    requires RunOn(h, events, longer, all) && Reaches(h, e) && OnTime(longer, e)
    requires AllHold(Writes(h, e), Last(longer))
    ensures Continues(h, events, e, further, more) && |more| == |all| + 1
    ensures Upto(further, |all|) == longer && At(further, |all|) == Last(longer)
  {
    hide ValidRun, OnTime, ReadsLead, Writes, AllHold, DistinctTargets, Apply;
    RunSize(h, events);
    RunSize(longer, all);
    ReadyToCommit(h, longer, all, e);
    RunGrows(longer, all, e);
    further, more := longer + [Apply(Last(longer), Writes(longer, e))], all + [e];
  }

  // ----- connect

  /** The record is there, with the time of an invocation left to it. */
  predicate Lasts(db: Db, c: Id, from: int) {
    c in db.connections && from + 10 <= db.connections[c].expiresAt
  }

  predicate Lapsing(db: Db, c: Id, from: int) {
    c in db.connections && db.connections[c].expiresAt < from + 10
  }

  /** The record that the connect takes for its own, if it does, outlives the invocation. */
  predicate RecordOutlives(h: seq<Db>, e: Event) {
    TookRecord(h, e) ==> Lasts(At(h, e.atExisting), e.c.connectionId, e.c.connectedAt)
  }

  lemma ConnectFacts(h: seq<Db>, e: Event)
    requires e.ConnectEndpoint? && Reaches(h, e)
    ensures e.atEndpoint < |h| && e.atExisting < |h| && Timely(h, e.c.connectedAt) && e.c.endpointId != ABSENT
    ensures TookRecord(h, e) && !RecordOutlives(h, e) ==>
              Lapsing(At(h, e.atExisting), e.c.connectionId, e.c.connectedAt)
    ensures TookRecord(h, e) && RecordOutlives(h, e) ==>
              && Lasts(At(h, e.atExisting), e.c.connectionId, e.c.connectedAt)
              && At(h, e.atExisting).connections[e.c.connectionId].endpointId == e.c.endpointId
  {
    hide ConnectReaches, NewConnection;
  }

  predicate OnItsPlace(e: Event, db: Db) {
    match e case ConnectEndpoint(c, _, _, _, _) => IsOn(db, c.endpointId, c.connectionId) case _ => false
  }

  /** Whenever a connect is not the step it should be, its endpoint had been on the connection before. */
  lemma MissesOnItsPlace(db: Db, e: Event, next: Db)
    requires Step(db, e, next) && !AtomicStep(db, e, next)
    ensures OnItsPlace(e, db) && OnNoRecord(e, next)
  {
    hide Inv, Keeps, AtomicStep, NewConnection, ReleaseHeld;
  }

  /** A connect whose record, when it read it, had the time of an invocation left is one atomic step. */
  lemma ConnectInTimeIsAtomic(h: seq<Db>, events: seq<Event>, k: nat)
    requires ValidRun(h, events) && k < |events| && StepAt(events, k).ConnectEndpoint?
    requires RecordOutlives(Upto(h, k), StepAt(events, k))
    ensures AtomicStep(At(h, k), StepAt(events, k), At(h, k + 1))
  {
    hide ValidRun, AtomicStep, Sound, Follows, Reaches, Step, RecordOutlives, OnNoRecord, OnTime, Writes, AllHold,
         DistinctTargets, Apply, TookRecord;
    var e, before := StepAt(events, k), Upto(h, k);
    StepFollows(h, events, k);
    RunIsAtomic(h, events, k);
    RunSteps(h, events, k);
    Committed(before, e, At(h, k + 1));
    ConnectFacts(before, e);
    if !AtomicStep(At(h, k), e, At(h, k + 1)) {
      MissesOnItsPlace(At(h, k), e, At(h, k + 1));
      var c := e.c.connectionId;
      RecordStays(h, events, e.atExisting, k, c, e.c.endpointId, At(h, e.atExisting).connections[c].expiresAt);
    }
  }

  // ----- without the time

  /** Tables that differ only in their clock and their connection records. */
  ghost predicate ButPlaces(db: Db, later: Db) {
    later == db.(now := later.now, connections := later.connections)
  }

  predicate OffConnections(w: Write) { !Target(w).ConnectionItem? }

  predicate AllOff(ws: seq<Write>) { forall w :: w in ws ==> OffConnections(w) }

  lemma HoldsOff(w: Write, db: Db, later: Db)
    requires OffConnections(w) && ButPlaces(db, later)
    ensures Holds(w, db) <==> Holds(w, later)
  {
  }

  lemma AllHoldOff(ws: seq<Write>, db: Db, later: Db)
    requires AllOff(ws) && ButPlaces(db, later) && AllHold(ws, db)
    ensures AllHold(ws, later)
  {
    hide ButPlaces, OffConnections, Holds;
    forall w | w in ws ensures Holds(w, later) { HoldsOff(w, db, later); }
  }

  lemma BothOff(a: seq<Write>, b: seq<Write>)
    requires AllOff(a) && AllOff(b)
    ensures AllOff(a + b)
  {
    hide OffConnections;
  }

  lemma TransitionIsOff(s: Session, link: Option<Link>, controller: Option<Endpoint>, companion: Option<Endpoint>,
                        now: int, omit: set<Item>, fence: Fence)
    ensures AllOff(TransitionWrites(s, link, controller, companion, now, omit, fence))
  {
    var w1 := Opt(s.status == SessionActive, EndSession(s.sessionId, now));
    var w2 := Opt(LinkItem(s.linkId) !in omit && LinkPoints(link, s.sessionId), ClearLink(s.linkId, s.sessionId));
    var w3 := Opt(ClearsController(s, controller, omit),
                  ClearEndpoint(s.controllerId, s.sessionId, FenceOn(fence, s.controllerId)));
    var w4 := Opt(ClearsCompanion(s, companion, omit),
                  ClearEndpoint(s.companionId, s.sessionId, FenceOn(fence, s.companionId)));
    var w5 := Opt(FencesAlone(s, controller, companion, omit, fence), FenceCheck(fence));
    assert AllOff(w1) && AllOff(w2) && AllOff(w3) && AllOff(w4) && AllOff(w5);
    hide AllOff, Opt;
    BothOff(w4, w5);
    BothOff(w3, w4 + w5);
    BothOff(w2, w3 + (w4 + w5));
    BothOff(w1, w2 + (w3 + (w4 + w5)));
  }

  lemma TakingWritesOff(h: seq<Db>, e: Event)
    requires ReadsLead(h, e) && TookRecord(h, e)
    ensures AllOff(Writes(h, e))
  {
    var endpoint, r := At(h, e.atEndpoint).endpoints[e.c.endpointId], ReadsAt(h, e.tail);
    var session := SessionRead(endpoint, r.session);
    var s := if session.Some? then session.value else NO_SESSION;
    TransitionIsOff(s, Lookup(r.link.links, s.linkId), Lookup(r.controller.endpoints, s.controllerId),
                    Lookup(r.companion.endpoints, s.companionId), e.c.connectedAt, {EndpointItem(e.c.endpointId)},
                    NoFence);
    hide TransitionWrites, NewConnection;
  }

  lemma SameRecordExpiry(h: seq<Db>, events: seq<Event>, i: nat, j: nat, c: Id, from: int)
    requires ValidRun(h, events) && i <= j < |h| && Lapsing(At(h, i), c, from)
    ensures c in At(h, j).connections ==> Lapsing(At(h, j), c, from)
  {
    hide ValidRun, PairInv, PairEvolves, LogInv, QuotaInv;
    TablesEvolve(h, events, i, j);
    assert ConnectionOk(At(h, i), c);
    if c in At(h, j).connections { assert ConnectionEvolves(At(h, i), At(h, j), c); }
  }

  /** By the end of the invocation its record is gone. */
  lemma RecordLapses(h: seq<Db>, events: seq<Event>, at: nat, c: Id, from: int)
      returns (longer: seq<Db>, all: seq<Event>)
    requires ValidRun(h, events) && at < |h| && Timely(h, from) && Lapsing(At(h, at), c, from)
    ensures RunOn(h, events, longer, all) && Timely(longer, from)
    ensures ButPlaces(Last(h), Last(longer)) && c !in Last(longer).connections
  {
    hide ValidRun;
    var db := Last(h);
    SameRecordExpiry(h, events, at, |h| - 1, c, from);
    longer, all := h, events;
    if c in db.connections {
      var to := if db.now <= db.connections[c].expiresAt then db.connections[c].expiresAt else db.now;
      longer, all := Lapses(h, events, ConnectionItem(c), to);
    }
  }

  lemma TookStill(h: seq<Db>, longer: seq<Db>, e: Event)
    requires Prefix(h, longer) && e.ConnectEndpoint? && e.atEndpoint < |h| && e.atExisting < |h|
    ensures TookRecord(longer, e) <==> TookRecord(h, e)
    ensures RecordOutlives(longer, e) <==> RecordOutlives(h, e)
  {
    hide SameAsRead, Lasts;
  }

  /** A connect that took for its own a record with less than an invocation left to it, and that could commit
      now, can also commit after that record has gone; it is then not the step it should be. */
  lemma ConnectCanLapse(h: seq<Db>, events: seq<Event>, e: Event) returns (longer: seq<Db>, all: seq<Event>)
    requires ValidRun(h, events) && e.ConnectEndpoint? && Reaches(h, e)
    requires Commits(Writes(h, e), Last(h)) && !RecordOutlives(h, e)
    ensures Continues(h, events, e, longer, all)
    ensures !AtomicStep(At(longer, |all| - 1), e, At(longer, |all|))
  {
    hide ValidRun, ReadsLead, Writes, AllHold, DistinctTargets, AllOff, AtomicStep, TookRecord, Lasts, Lapsing, Timely,
         ButPlaces;
    ConnectFacts(h, e);
    TakingWritesOff(h, e);
    var before, steps := RecordLapses(h, events, e.atExisting, e.c.connectionId, e.c.connectedAt);
    AllHoldOff(Writes(h, e), Last(h), Last(before));
    longer, all := GoesThrough(h, events, before, steps, e);
    TookStill(h, before, e);
    RunIsAtomic(longer, all, |all| - 1);
  }

  /** So a connect may rely on its one atomic step, whatever comes before its commit, exactly when the record
      that it read for its own outlives the invocation. */
  lemma ConnectIsAtomicIffRecordOutlives(h: seq<Db>, events: seq<Event>, e: Event)
    requires ValidRun(h, events) && e.ConnectEndpoint? && Reaches(h, e) && Commits(Writes(h, e), Last(h))
    ensures RecordOutlives(h, e) <==>
              forall longer, all :: Continues(h, events, e, longer, all) ==>
                AtomicStep(At(longer, |all| - 1), e, At(longer, |all|))
  {
    hide ValidRun, Reaches, Writes, Commits, AtomicStep, Timely, RecordOutlives, TookRecord;
    if RecordOutlives(h, e) {
      forall longer, all | Continues(h, events, e, longer, all)
        ensures AtomicStep(At(longer, |all| - 1), e, At(longer, |all|))
      {
        ConnectFacts(h, e);
        RunSize(longer, all);
        RunSize(h, events);
        TookStill(h, Upto(longer, |all| - 1), e);
        ConnectInTimeIsAtomic(longer, all, |all| - 1);
      }
    } else {
      var longer, all := ConnectCanLapse(h, events, e);
    }
  }

  /** The endpoint that connected is on a connection that no record is stored of. */
  ghost predicate OnNoRecord(e: Event, next: Db) {
    match e
    case ConnectEndpoint(c, _, _, _, _) =>
      IsOn(next, c.endpointId, c.connectionId) && c.connectionId !in next.connections
    case _ => false
  }

  /** Whenever a connect is not the step it should be, its endpoint is left on a connection without a record. */
  lemma MissedRecord(h: seq<Db>, events: seq<Event>, k: nat)
    requires ValidRun(h, events) && k < |events| && !AtomicStep(At(h, k), StepAt(events, k), At(h, k + 1))
    ensures OnNoRecord(StepAt(events, k), At(h, k + 1))
  {
    hide *;
    RunSteps(h, events, k);
    MissesOnItsPlace(At(h, k), StepAt(events, k), At(h, k + 1));
  }

  // ----- cancel

  ghost predicate Activated(db: Db, pairId: Id) { pairId in LogPairs(db.activations) }

  predicate Cancels(e: Event, pairId: Id) { match e case CancelPair(id, _, _, _) => id == pairId case _ => false }

  ghost predicate HasStub(db: Db, pairId: Id) { pairId in db.pairs && IsStub(db.pairs[pairId]) }

  predicate PairLasts(db: Db, pairId: Id, from: int) {
    pairId in db.pairs && from + 10 <= db.pairs[pairId].expiresAt
  }

  ghost predicate PairLapsing(db: Db, pairId: Id, from: int) {
    Stored(db, pairId) && db.pairs[pairId].expiresAt < from + 10
  }

  /** The pair, as the cancel read it, outlives the invocation. */
  predicate PairOutlives(h: seq<Db>, e: Event) {
    match e case CancelPair(pairId, _, now, atPair) => PairLasts(At(h, atPair), pairId, now) case _ => false
  }

  /** What a cancel leaves of a pair whose record it does not find: an item that says CLOSED and nothing else. */
  ghost predicate Stubs(h: seq<Db>, events: seq<Event>, k: int, pairId: Id) {
    Cancels(StepAt(events, k), pairId) && !Stored(At(h, k), pairId)
  }

  /** A cancel that commits leaves a stub exactly when the pair's record was not there; it always does once the
      pair has been activated. */
  lemma CancelLeavesStub(h: seq<Db>, events: seq<Event>, k: nat, pairId: Id)
    requires ValidRun(h, events) && k < |events| && Cancels(StepAt(events, k), pairId)
    ensures HasStub(At(h, k + 1), pairId) <==> !Stored(At(h, k), pairId)
    ensures Activated(At(h, k), pairId) ==> HasStub(At(h, k + 1), pairId)
  {
    hide ValidRun, RouteInv, PairInv, LogInv, QuotaInv, Keeps, Moves, Activated, Stored, HasStub, Cancels;
    RunSteps(h, events, k);
    CancelEffect(At(h, k), StepAt(events, k), At(h, k + 1), pairId);
    ActivatedIsActive(At(h, k), pairId);
  }

  lemma CancelEffect(db: Db, e: Event, next: Db, pairId: Id)
    requires Step(db, e, next) && Cancels(e, pairId)
    ensures HasStub(next, pairId) <==> !Stored(db, pairId)
    ensures !InStatus(db, pairId, PairActive) && InStatus(next, pairId, PairClosed)
  {
    hide RouteInv, PairInv, LogInv, QuotaInv, Keeps, Moves, RouteMove, AtomicPlain, Shape, FromSide, SpecActivate,
         SpecHalf, SpecJoin, SpecCreate;
    MovesByKind(db, e, next);
    StoredPairOk(db, pairId);
  }

  /** While its record is stored, an activated pair is ACTIVE, and only an activated one is. */
  lemma ActivatedIsActive(db: Db, id: Id)
    requires LogInv(db)
    ensures Activated(db, id) && Stored(db, id) ==> InStatus(db, id, PairActive)
    ensures InStatus(db, id, PairActive) ==> Activated(db, id)
  {
    if Activated(db, id) {
      var n :| 0 <= n < |db.activations| && db.activations[n].pairId == id;
      assert ActivationOk(db, db.activations[n]);
    }
  }

  lemma CancelFacts(h: seq<Db>, pairId: Id, connectionId: Id, now: int, atPair: nat)
    requires Reaches(h, CancelPair(pairId, connectionId, now, atPair))
    ensures atPair < |h| && Stored(At(h, atPair), pairId) && Timely(h, now)
    ensures Writes(h, CancelPair(pairId, connectionId, now, atPair)) == [ClosePair(pairId, ABSENT)]
  {
    hide IsMember;
  }

  /** A cancel that read its pair with the time of an invocation to spare finds the record. */
  lemma CancelInTimeFindsPair(h: seq<Db>, events: seq<Event>, k: nat, pairId: Id)
    requires ValidRun(h, events) && k < |events| && Cancels(StepAt(events, k), pairId)
    requires PairOutlives(h, StepAt(events, k))
    ensures Stored(At(h, k), pairId) && !Activated(At(h, k), pairId)
  {
    hide ValidRun, Sound, Follows, Stored, HasStub, Reaches, Writes, AllHold, DistinctTargets, Apply, Activated;
    var e := StepAt(events, k);
    StepFollows(h, events, k);
    Committed(Upto(h, k), e, At(h, k + 1));
    CancelFacts(Upto(h, k), e.pairId, e.connectionId, e.now, e.atPair);
    PairStays(h, events, e.atPair, k, pairId, At(h, e.atPair).pairs[pairId].expiresAt);
    CancelLeavesStub(h, events, k, pairId);
  }

  lemma NothingToHoldFor(db: Db, pairId: Id)
    requires !Stored(db, pairId)
    ensures AllHold([ClosePair(pairId, ABSENT)], db)
  {
  }

  /** By the end of the invocation the pair's record is gone. */
  lemma PairLapses(h: seq<Db>, events: seq<Event>, at: nat, id: Id, from: int)
      returns (longer: seq<Db>, all: seq<Event>)
    requires ValidRun(h, events) && at < |h| && Timely(h, from) && PairLapsing(At(h, at), id, from)
    ensures RunOn(h, events, longer, all) && Timely(longer, from) && !Stored(Last(longer), id)
  {
    hide ValidRun, CommitShape;
    var db := Last(h);
    PairLifecycle(h, events, at, |h| - 1, id);
    longer, all := h, events;
    if Stored(db, id) {
      var to := if db.now <= db.pairs[id].expiresAt then db.pairs[id].expiresAt else db.now;
      longer, all := Lapses(h, events, PairItem(id), to);
    }
  }

  /** A cancel that read its pair too late can come to write a stub. */
  lemma CancelCanLapse(h: seq<Db>, events: seq<Event>, e: Event, pairId: Id) returns (longer: seq<Db>, all: seq<Event>)
    requires ValidRun(h, events) && Cancels(e, pairId) && Reaches(h, e) && !PairOutlives(h, e)
    ensures Continues(h, events, e, longer, all) && Stubs(longer, all, |all| - 1, pairId)
  {
    hide ValidRun, ReadsLead, Writes, AllHold, Timely, IsStub;
    CancelFacts(h, pairId, e.connectionId, e.now, e.atPair);
    var before, steps := PairLapses(h, events, e.atPair, pairId, e.now);
    hide Stored;
    NothingToHoldFor(Last(before), pairId);
    longer, all := GoesThrough(h, events, before, steps, e);
  }

  /** So a cancel, whatever comes before its commit, leaves no stub exactly when the pair, as it read it,
      outlives the invocation; and once the pair has been activated such a cancel never commits at all. */
  lemma CancelIsSafeIffPairOutlives(h: seq<Db>, events: seq<Event>, e: Event, pairId: Id)
    requires ValidRun(h, events) && Cancels(e, pairId) && Reaches(h, e)
    ensures PairOutlives(h, e) <==>
              forall longer, all :: Continues(h, events, e, longer, all) ==> !Stubs(longer, all, |all| - 1, pairId)
    ensures Activated(Last(h), pairId) ==>
              (PairOutlives(h, e) <==> forall longer, all :: !Continues(h, events, e, longer, all))
  {
    hide ValidRun, Reaches, Activated, Stubs, PairOutlives, Continues, Cancels;
    if PairOutlives(h, e) {
      forall longer, all | Continues(h, events, e, longer, all)
        ensures !Stubs(longer, all, |all| - 1, pairId) && !Activated(Last(h), pairId)
      {
        CancelInTimeIsSafe(h, events, e, pairId, longer, all);
      }
    } else {
      var longer, all := CancelCanLapse(h, events, e, pairId);
    }
  }

  lemma CancelInTimeIsSafe(h: seq<Db>, events: seq<Event>, e: Event, pairId: Id, longer: seq<Db>, all: seq<Event>)
    requires Continues(h, events, e, longer, all) && Cancels(e, pairId) && Reaches(h, e) && PairOutlives(h, e)
    ensures !Stubs(longer, all, |all| - 1, pairId) && !Activated(Last(h), pairId)
  {
    hide ValidRun, Activated, Stored, ReadsLead, OnTime, Writes;
    SameTables(h, events, longer, all);
    CancelFacts(h, pairId, e.connectionId, e.now, e.atPair);
    CancelInTimeFindsPair(longer, all, |all| - 1, pairId);
    ActivatedStays(longer, all, |h| - 1, |all| - 1, pairId);
  }

  lemma ActivatedStays(h: seq<Db>, events: seq<Event>, i: nat, j: nat, pairId: Id)
    requires ValidRun(h, events) && i <= j < |h|
    ensures Activated(At(h, i), pairId) ==> Activated(At(h, j), pairId)
  {
    hide ValidRun, At;
    LogOnlyGrows(h, events, i, j);
    if Activated(At(h, i), pairId) {
      var n :| 0 <= n < |At(h, i).activations| && At(h, i).activations[n].pairId == pairId;
      assert At(h, j).activations[n].pairId == pairId;
    }
  }

  // ----- ACTIVE is final, but for that

  lemma StubStays(h: seq<Db>, events: seq<Event>, i: nat, j: nat, id: Id)
    requires ValidRun(h, events) && i <= j < |h| && HasStub(At(h, i), id)
    ensures id in At(h, j).seenPairs && (id in At(h, j).pairs ==> HasStub(At(h, j), id))
  {
    hide ValidRun, RouteInv, RouteEvolves, LogInv, QuotaInv, Shape, FromSide;
    TablesEvolve(h, events, i, j);
    assert PairOk(At(h, i), id);
    if id in At(h, j).pairs { assert PairOk(At(h, j), id) && PairEvolvesAt(At(h, i), At(h, j), id); }
  }

  /** Only a cancel that misses the record makes a stub. */
  lemma StubIsWritten(db: Db, e: Event, next: Db, id: Id)
    requires Step(db, e, next) && id in db.seenPairs && HasStub(next, id) && !HasStub(db, id)
    ensures Cancels(e, id) && !Stored(db, id)
  {
    hide Step, LogPairs, IsStub;
    StepMovesPair(db, e, next, id);
    if Stored(db, id) { StepWritesNoStub(db, e, next, id); }
  }

  lemma {:induction false} StubIsWrittenSince(h: seq<Db>, events: seq<Event>, i: nat, j: nat, id: Id) returns (k: nat)
    requires ValidRun(h, events) && i <= j < |h| && Stored(At(h, i), id) && HasStub(At(h, j), id)
    ensures i <= k < j && Stubs(h, events, k, id)
    decreases j
  {
    assert i != j;
    hide ValidRun, Step, HasStub, Stored, Cancels;
    if HasStub(At(h, j - 1), id) {
      k := StubIsWrittenSince(h, events, i, j - 1, id);
    } else {
      k := j - 1;
      RunSize(h, events);
      StoredIsSeen(h, events, i, k, id);
      RunSteps(h, events, k);
      StubIsWritten(At(h, k), StepAt(events, k), At(h, k + 1), id);
    }
  }

  lemma StoredIsSeen(h: seq<Db>, events: seq<Event>, i: nat, j: nat, id: Id)
    requires ValidRun(h, events) && i <= j < |h| && Stored(At(h, i), id)
    ensures id in At(h, j).seenPairs
  {
    hide ValidRun, RouteInv, RouteEvolves, LogInv, QuotaInv, PairInv;
    TablesEvolve(h, events, i, j);
    StoredPairOk(At(h, i), id);
  }

  /** An ACTIVE pair that is still stored is unchanged exactly when no cancel has since left a stub in its place. */
  lemma ActiveIsFinal(h: seq<Db>, events: seq<Event>, i: nat, j: nat, id: Id)
    requires ValidRun(h, events) && i <= j < |h| && InStatus(At(h, i), id, PairActive) && id in At(h, j).pairs
    ensures Lookup(At(h, j).pairs, id) == Lookup(At(h, i).pairs, id) <==>
              forall k :: i <= k < j ==> !Stubs(h, events, k, id)
  {
    hide ValidRun, CommitShape, Stubs;
    if HasStub(At(h, j), id) {
      var k := StubIsWrittenSince(h, events, i, j, id);
    } else {
      PairLifecycle(h, events, i, j, id);
      forall k | i <= k < j ensures !Stubs(h, events, k, id) {
        if Stubs(h, events, k, id) { StubbedStays(h, events, k, j, id); }
      }
    }
  }

  lemma StubbedStays(h: seq<Db>, events: seq<Event>, k: nat, j: nat, id: Id)
    requires ValidRun(h, events) && k < j < |h| && Stubs(h, events, k, id) && id in At(h, j).pairs
    ensures HasStub(At(h, j), id)
  {
    hide ValidRun, HasStub, Activated, Stored, Cancels;
    RunSize(h, events);
    CancelLeavesStub(h, events, k, id);
    StubStays(h, events, k + 1, j, id);
  }

  /** Every cancel of the run read its pair with the time of an invocation to spare. */
  predicate CancelsInTime(h: seq<Db>, events: seq<Event>) {
    forall k :: 0 <= k < |events| && StepAt(events, k).CancelPair? ==> PairOutlives(h, StepAt(events, k))
  }

  lemma InTimeNeverStubs(h: seq<Db>, events: seq<Event>, k: int, id: Id)
    requires ValidRun(h, events) && CancelsInTime(h, events)
    ensures !Stubs(h, events, k, id)
  {
    hide ValidRun, Stored, PairOutlives, Activated;
    if 0 <= k < |events| && Cancels(StepAt(events, k), id) { CancelInTimeFindsPair(h, events, k, id); }
  }

  // ----- the pair that a disconnect does not see

  /** Step `k` takes a connection's record and leaves its pair, which is pending, as it is. */
  ghost predicate LeavesPair(h: seq<Db>, events: seq<Event>, k: int, connectionId: Id, pairId: Id) {
    && DisconnectsAt(events, k, connectionId) && ClosesPair(At(h, k), pairId, connectionId)
    && At(h, k + 1).pairs == At(h, k).pairs
  }

  predicate DisconnectsAt(events: seq<Event>, k: int, connectionId: Id) {
    0 <= k < |events| && StepAt(events, k).DisconnectPairing? && StepAt(events, k).connectionId == connectionId
  }

  /** The record was read on this pair, and the pair pending with the connection on one of its sides. */
  predicate SawPair(h: seq<Db>, e: Event, pairId: Id)
    requires e.DisconnectPairing?
  {
    && ClosesPair(At(h, e.atPair), pairId, e.connectionId)
    && e.connectionId in At(h, e.atConnection).connections
    && At(h, e.atConnection).connections[e.connectionId].pairingId == pairId
  }

  lemma DropReads(h: seq<Db>, events: seq<Event>, k: nat, connectionId: Id)
    requires ValidRun(h, events) && DisconnectsAt(events, k, connectionId)
    ensures var e := StepAt(events, k);
            && e.connectionId in At(h, e.atConnection).connections && e.atConnection <= e.atPair <= k
            && var pairId := At(h, e.atConnection).connections[connectionId].pairingId;
            && AllHold([DeleteConnection(connectionId, true)]
                       + Opt(ClosesPair(At(h, e.atPair), pairId, connectionId), ClosePair(pairId, connectionId)),
                       At(h, k))
            && At(h, k + 1) == DropPairing(At(h, k), connectionId, pairId,
                                           ClosesPair(At(h, e.atPair), pairId, connectionId))
  {
    hide ValidRun, Sound, Follows, OnTime, AllHold, DistinctTargets, Apply, ClosesPair, DropPairing;
    StepFollows(h, events, k);
    Committed(Upto(h, k), StepAt(events, k), At(h, k + 1));
    var e := StepAt(events, k);
    var pairId := At(h, e.atConnection).connections[connectionId].pairingId;
    DropPairingApplies(At(h, k), connectionId, pairId, ClosesPair(At(h, e.atPair), pairId, connectionId));
  }

  /** Dropping a record leaves the pair of its connection exactly when it closes no pair, and closes no other. */
  lemma DropLeavesPair(db: Db, connectionId: Id, read: Id, closes: bool, pairId: Id)
    requires PairInv(db) && ClosesPair(db, pairId, connectionId) && connectionId != ABSENT
    requires AllHold([DeleteConnection(connectionId, true)] + Opt(closes, ClosePair(read, connectionId)), db)
    ensures DropPairing(db, connectionId, read, closes).pairs == db.pairs <==> !closes
    ensures closes ==> read == pairId
  {
    if closes {
      var w := ClosePair(read, connectionId);
      assert w in [DeleteConnection(connectionId, true)] + [w];
      assert Holds(w, db);
      assert OneMembership(db, read, pairId, connectionId);
    }
  }

  /** A disconnect leaves a pending pair of its connection as it is if and only if it read the record before the pair
      was on it: otherwise it closes it. */
  lemma DisconnectLeavesPair(h: seq<Db>, events: seq<Event>, k: nat, connectionId: Id, pairId: Id)
    requires ValidRun(h, events) && DisconnectsAt(events, k, connectionId)
    requires ClosesPair(At(h, k), pairId, connectionId)
    ensures LeavesPair(h, events, k, connectionId, pairId) <==> !SawPair(h, StepAt(events, k), pairId)
  {
    hide ValidRun, RouteInv, PairInv, LogInv, QuotaInv, AllHold, ClosesPair, DropPairing;
    RunSize(h, events);
    DropReads(h, events, k, connectionId);
    TableIsSound(h, events, k);
    var e := StepAt(events, k);
    var read := At(h, e.atConnection).connections[connectionId].pairingId;
    assert connectionId != ABSENT by { MembersAreNamed(At(h, k), pairId, connectionId); }
    DropLeavesPair(At(h, k), connectionId, read, ClosesPair(At(h, e.atPair), read, connectionId), pairId);
  }

  lemma MembersAreNamed(db: Db, pairId: Id, connectionId: Id)
    requires ClosesPair(db, pairId, connectionId)
    ensures connectionId != ABSENT
  {
  }
}
