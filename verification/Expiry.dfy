/** What a caller that has read a record with time to spare may rely on until its transaction commits, and
    what may happen to one that has not. */
module Expiry {
  import opened Records
  import opened Table
  import opened Routing
  import opened Specs
  import opened Pairing
  import opened ActivationStep
  import opened Runs
  import opened Steps
  import opened Frames
  import opened RouteTheorems
  import opened PairTheorems
  import opened PairMoves

  // ----- connection records

  /** An endpoint's connection has been put, and its record, where there is one, is that endpoint's. */
  ghost predicate ConnectionsMatch(db: Db) {
    forall id :: id in db.endpoints && db.endpoints[id].connectionId != ABSENT ==>
      var c := db.endpoints[id].connectionId;
      c in db.seenConnections && (c in db.connections ==> db.connections[c].endpointId == id)
  }

  /** No connection record of an endpoint goes but with its endpoint, or by its TTL. */
  ghost predicate GoesWithEndpoint(db: Db, e: Event, next: Db, c: Id) {
    c in db.connections && c !in next.connections && db.connections[c].endpointId != ABSENT ==>
      || e == Expire(ConnectionItem(c))
      || db.connections[c].endpointId !in next.endpoints
      || next.endpoints[db.connections[c].endpointId].connectionId != c
  }

  ghost predicate NoneGoesAlone(db: Db, e: Event, next: Db) {
    forall c :: c in db.connections ==> GoesWithEndpoint(db, e, next, c)
  }

  /** Every stored connection has an ID that has been put. */
  predicate ConnectionsSeen(db: Db) { ABSENT !in db.connections && db.connections.Keys <= db.seenConnections }

  lemma StoredAreSeen(db: Db)
    requires RouteInv(db)
    ensures ConnectionsSeen(db)
  {
    forall x | x in db.connections ensures x != ABSENT && x in db.seenConnections { assert ConnectionOk(db, x); }
  }

  lemma RouteFrameMatches(db: Db, e: Event, next: Db)
    requires ConnectionsMatch(db) && ConnectionsSeen(db) && IsRouteStep(e) && RouteFrame(db, e, next)
    ensures ConnectionsMatch(next) && NoneGoesAlone(db, e, next)
  {
  }

  lemma PairFrameMatches(db: Db, e: Event, next: Db)
    requires ConnectionsMatch(db) && ConnectionsSeen(db) && PairFrame(db, e, next)
    ensures ConnectionsMatch(next) && NoneGoesAlone(db, e, next)
  {
    assert forall c :: c in next.connections ==> next.connections[c].endpointId == db.connections[c].endpointId;
    hide IsMember, Assignable, Joined;
  }

  lemma PlainFrameMatches(db: Db, e: Event, next: Db)
    requires ConnectionsMatch(db) && ConnectionsSeen(db) && PlainFrame(db, e, next)
    ensures ConnectionsMatch(next) && NoneGoesAlone(db, e, next)
  {
  }

  lemma StepMatches(db: Db, e: Event, next: Db)
    requires Step(db, e, next) && ConnectionsMatch(db)
    ensures ConnectionsMatch(next) && NoneGoesAlone(db, e, next)
  {
    hide RouteInv, PairInv, LogInv, QuotaInv, Keeps, Moves, ConnectionsMatch, NoneGoesAlone, RouteFrame, PairFrame,
         PlainFrame, ConnectionsSeen;
    StoredAreSeen(db);
    StepsFrame(db, e, next);
    if IsRouteStep(e) {
      RouteFrameMatches(db, e, next);
    } else if IsPairStep(e) {
      PairFrameMatches(db, e, next);
    } else {
      PlainFrameMatches(db, e, next);
    }
  }

  lemma {:induction false} TablesMatch(h: seq<Db>, events: seq<Event>, i: nat)
    requires ValidRun(h, events) && i < |h|
    ensures ConnectionsMatch(At(h, i))
    decreases i
  {
    hide Follows, Step;
    if 0 < i {
      hide ValidRun, ConnectionsMatch;
      RunSize(h, events);
      TablesMatch(h, events, i - 1);
      RunSteps(h, events, i - 1);
      StepMatches(At(h, i - 1), StepAt(events, i - 1), At(h, i));
    }
  }

  predicate HasRecord(db: Db, c: Id, endpointId: Id, expiresAt: int) {
    && c in db.connections && db.connections[c].endpointId == endpointId && db.connections[c].expiresAt == expiresAt
  }

  predicate IsOn(db: Db, endpointId: Id, c: Id) {
    endpointId in db.endpoints && db.endpoints[endpointId].connectionId == c
  }

  /** A connection that an endpoint has once left it never comes back to. */
  lemma EndpointWasThere(db: Db, e: Event, next: Db, endpointId: Id, c: Id)
    requires Step(db, e, next) && IsOn(next, endpointId, c)
    requires c in db.seenConnections && c != ABSENT && endpointId in db.endpoints
    ensures IsOn(db, endpointId, c)
  {
    hide Inv, Keeps, Moves, IsMember, Assignable, Joined, ConnectionsAfter, SeenAfter;
    StepsFrame(db, e, next);
  }

  lemma RecordStaysAStep(db: Db, e: Event, next: Db, c: Id, endpointId: Id, expiresAt: int)
    requires Step(db, e, next) && ConnectionsMatch(db) && HasRecord(db, c, endpointId, expiresAt)
    requires next.now < expiresAt && endpointId != ABSENT && IsOn(next, endpointId, c)
    ensures HasRecord(next, c, endpointId, expiresAt)
  {
    hide PairInv, PairEvolves, LogInv, QuotaInv, ConnectionsMatch, AtomicRoute, AtomicPair, MissesRecord;
    StepMatches(db, e, next);
    assert GoesWithEndpoint(db, e, next, c) && ConnectionOk(db, c);
    if c in next.connections { assert ConnectionEvolves(db, next, c); }
    if e.Expire? { MovesByKind(db, e, next); }
  }

  lemma RecordIsSeen(h: seq<Db>, events: seq<Event>, i: nat, j: nat, c: Id, endpointId: Id, expiresAt: int)
    requires ValidRun(h, events) && i <= j < |h| && HasRecord(At(h, i), c, endpointId, expiresAt)
             && endpointId != ABSENT
    ensures c in At(h, j).seenConnections && c != ABSENT && endpointId in At(h, j).endpoints
    ensures At(h, i).now <= At(h, j).now
  {
    hide ValidRun, PairInv, PairEvolves, LogInv, QuotaInv;
    TablesEvolve(h, events, i, j);
    assert ConnectionOk(At(h, i), c);
  }

  /** An endpoint's connection record outlasts every commit that comes before its expiry and still finds the
      endpoint on that connection. */
  lemma {:induction false} RecordStays(h: seq<Db>, events: seq<Event>, i: nat, j: nat, c: Id, endpointId: Id,
                                       expiresAt: int)
    requires ValidRun(h, events) && i <= j < |h| && HasRecord(At(h, i), c, endpointId, expiresAt)
    requires At(h, j).now < expiresAt && endpointId != ABSENT && IsOn(At(h, j), endpointId, c)
    ensures HasRecord(At(h, j), c, endpointId, expiresAt)
    decreases j
  {
    hide *;
    if i < j {
      RunSize(h, events);
      RunSteps(h, events, j - 1);
      RecordIsSeen(h, events, i, j - 1, c, endpointId, expiresAt);
      EndpointWasThere(At(h, j - 1), StepAt(events, j - 1), At(h, j), endpointId, c);
      NowGrows(h, events, j - 1, j);
      RecordStays(h, events, i, j - 1, c, endpointId, expiresAt);
      TablesMatch(h, events, j - 1);
      RecordStaysAStep(At(h, j - 1), StepAt(events, j - 1), At(h, j), c, endpointId, expiresAt);
    }
  }

  lemma NowGrows(h: seq<Db>, events: seq<Event>, i: nat, j: nat)
    requires ValidRun(h, events) && i <= j < |h|
    ensures At(h, i).now <= At(h, j).now
  {
    hide ValidRun, Inv, PairEvolves;
    TablesEvolve(h, events, i, j);
  }

  // ----- pair records

  ghost predicate HasPair(db: Db, id: Id, expiresAt: int) { Stored(db, id) && db.pairs[id].expiresAt == expiresAt }

  /** A pair outlasts every commit that comes before its expiry. */
  lemma {:induction false} PairStays(h: seq<Db>, events: seq<Event>, i: nat, j: nat, id: Id, expiresAt: int)
    requires ValidRun(h, events) && i <= j < |h| && HasPair(At(h, i), id, expiresAt) && At(h, j).now < expiresAt
    ensures HasPair(At(h, j), id, expiresAt)
    decreases j
  {
    hide *;
    if i < j {
      RunSize(h, events);
      NowGrows(h, events, j - 1, j);
      PairStays(h, events, i, j - 1, id, expiresAt);
      RunSteps(h, events, j - 1);
      PairStaysAStep(At(h, j - 1), StepAt(events, j - 1), At(h, j), id, expiresAt);
    }
  }

  lemma PairStaysAStep(db: Db, e: Event, next: Db, id: Id, expiresAt: int)
    requires Step(db, e, next) && HasPair(db, id, expiresAt) && next.now < expiresAt
    ensures HasPair(next, id, expiresAt)
  {
    hide RouteInv, PairInv, LogInv, QuotaInv, AtomicRoute, AtomicPair, MissesRecord, LogPairs, CommitShape;
    StoredPairOk(db, id);
    PairGoesOn(db, next, id);
    StepMovesPair(db, e, next, id);
    if e.Expire? { MovesByKind(db, e, next); }
    if id in next.pairs { StepWritesNoStub(db, e, next, id); }
  }

  /** A stored pair becomes no stub. */
  lemma StepWritesNoStub(db: Db, e: Event, next: Db, id: Id)
    requires Step(db, e, next) && Stored(db, id) && id in next.pairs
    ensures Stored(next, id)
  {
    hide RouteInv, PairInv, LogInv, QuotaInv, Keeps, Moves, IsMember, Assignable, Joined, Shape, FromSide;
    StoredPairOk(db, id);
    StepsFrame(db, e, next);
  }
}
