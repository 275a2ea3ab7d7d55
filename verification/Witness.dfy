/** Three runs that the relay can take, step by step, in which it falls short. */
module Witness {
  import opened Records
  import opened Table
  import opened Pairing
  import opened Transitions
  import opened Specs
  import opened Plans
  import opened ActivationStep
  import opened Runs
  import opened Steps
  import opened Atomicity
  import opened Frames
  import opened RouteTheorems
  import opened NamedOnce
  import opened PairTheorems
  import opened StoreSteps
  import opened Shortfalls

  // ----- who takes part

  const PAIR_ID: Id := 21
  const LINK_ID: Id := 31
  const COMPANION_ID: Id := 11
  const CONTROLLER_ID: Id := 12
  const SOURCE: Id := 51
  const LOCATOR: Id := 61

  const SIDE_A := PairSide(1, 71)
  const SIDE_B := PairSide(2, 72)

  function PairingConnection(id: Id): Connection {
    Connection(id, PairingAuth, ABSENT, SOURCE, ABSENT, 1000, 1000 + CONNECTION_SECONDS)
  }

  function CompanionCommit(credentialHash: Id): PairCommit {
    PairCommit(1, 71, LINK_ID, PairEndpointCommit(COMPANION_ID, Companion, credentialHash),
               PairIdentity(CONTROLLER_ID, Controller))
  }

  function ControllerCommit(credentialHash: Id): PairCommit {
    PairCommit(2, 72, LINK_ID, PairEndpointCommit(CONTROLLER_ID, Controller, credentialHash),
               PairIdentity(COMPANION_ID, Companion))
  }

  const FRESH_PAIR := Pair(PAIR_ID, LOCATOR, ABSENT, PairOpen, SIDE_A, None, None, None, 1300)
  const READY_PAIR := FRESH_PAIR.(sideB := Some(SIDE_B), status := PairReady)

  // ----- the tables they pass through

  const START := Db(1000, map[], map[], map[], map[], map[], map[], map[], {}, {}, {}, [], 10)

  const BOTH_HERE :=
    START.(connections := map[1 := PairingConnection(1), 2 := PairingConnection(2)], seenConnections := {1, 2})

  const CREATED :=
    BOTH_HERE.(connections := map[1 := PairingConnection(1).(pairingId := PAIR_ID), 2 := PairingConnection(2)],
               pairs := map[PAIR_ID := FRESH_PAIR], seenPairs := {PAIR_ID},
               admissions := map[LocatorKey(LOCATOR) := Admission(PAIR_ID, LOCATOR, ABSENT, 1300)])

  const JOINED :=
    CREATED.(connections := map[1 := PairingConnection(1).(pairingId := PAIR_ID),
                                2 := PairingConnection(2).(pairingId := PAIR_ID)],
             pairs := map[PAIR_ID := READY_PAIR])

  function HalfPair(a: Id): Pair { READY_PAIR.(commitA := Some(CompanionCommit(a)), status := PairHalf) }

  function HalfTable(a: Id): Db { JOINED.(pairs := map[PAIR_ID := HalfPair(a)]) }

  function AtHalf(a: Id): Db { HalfTable(a).(now := 1295) }

  // ----- one step more

  lemma Extend(h: seq<Db>, events: seq<Event>, e: Event) returns (next: Db)
    requires ValidRun(h, events) && Reaches(h, e) && AllHold(Writes(h, e), Last(h))
    ensures ValidRun(h + [next], events + [e])
    ensures IsRouteStep(e) ==> RouteMove(Last(h), e, next)
    ensures IsPairStep(e) ==> AtomicPair(Last(h), e, next)
    ensures e.ConnectPairing? || e.DisconnectPairing? ==> AtomicPlain(Last(h), e, next)
  {
    hide ValidRun, OnTime, ReadsLead, Writes, AllHold, DistinctTargets, Sound, Inv, Keeps, Moves, Apply, RouteMove,
         AtomicPair, AtomicPlain;
    RunSize(h, events);
    RunIsSound(h, events);
    WritesNameItemsOnce(h, e);
    RunGrows(h, events, e);
    next := Apply(Last(h), Writes(h, e));
    RunSteps(h + [next], events + [e], |events|);
    MovesByKind(Last(h), e, next);
  }

  lemma Connects(h: seq<Db>, events: seq<Event>, id: Id) returns (next: Db)
    requires ValidRun(h, events) && Last(h).now == 1000 && id != ABSENT
    requires id !in Last(h).connections && id !in Last(h).seenConnections
    ensures ValidRun(h + [next], events + [ConnectPairing(PairingConnection(id))])
    ensures next == SpecConnectPairing(Last(h), PairingConnection(id))
  {
    hide ValidRun, RouteMove, AtomicPair;
    RunSize(h, events);
    next := Extend(h, events, ConnectPairing(PairingConnection(id)));
  }

  lemma CreateMoves(next: Db)
    requires AtomicPair(BOTH_HERE, CreatePair(FRESH_PAIR), next)
    ensures next == CREATED
  {
  }

  lemma Creates(h: seq<Db>, events: seq<Event>)
    requires ValidRun(h, events) && Last(h) == BOTH_HERE
    ensures ValidRun(h + [CREATED], events + [CreatePair(FRESH_PAIR)])
  {
    hide ValidRun, RouteMove, AtomicPair, AtomicPlain;
    RunSize(h, events);
    var next := Extend(h, events, CreatePair(FRESH_PAIR));
    CreateMoves(next);
  }

  function Joining(at: nat): Event { JoinPair(PAIR_ID, LocatorKey(LOCATOR), SIDE_B, 1000, at) }

  lemma JoinMoves(at: nat, next: Db)
    requires AtomicPair(CREATED, Joining(at), next)
    ensures next == JOINED
  {
  }

  lemma Joins(h: seq<Db>, events: seq<Event>)
    requires ValidRun(h, events) && Last(h) == CREATED
    ensures ValidRun(h + [JOINED], events + [Joining(Newest(h))])
  {
    hide ValidRun, RouteMove, AtomicPair, AtomicPlain;
    RunSize(h, events);
    var next := Extend(h, events, Joining(Newest(h)));
    JoinMoves(Newest(h), next);
  }

  function FirstCommit(at: nat, a: Id): Event { CommitHalf(PAIR_ID, SlotA, CompanionCommit(a), 1000, at) }

  lemma FirstCommitMoves(at: nat, next: Db, a: Id)
    requires AtomicPair(JOINED, FirstCommit(at, a), next)
    ensures next == HalfTable(a)
  {
  }

  lemma CommitsFirst(h: seq<Db>, events: seq<Event>, a: Id)
    requires ValidRun(h, events) && Last(h) == JOINED
    ensures ValidRun(h + [HalfTable(a)], events + [FirstCommit(Newest(h), a)])
  {
    hide ValidRun, RouteMove, AtomicPair, AtomicPlain;
    RunSize(h, events);
    var next := Extend(h, events, FirstCommit(Newest(h), a));
    FirstCommitMoves(Newest(h), next, a);
  }

  function CompanionEndpoint(a: Id): Endpoint {
    Endpoint(COMPANION_ID, a, Companion, ABSENT, ABSENT, 0, 1295, 1295)
  }

  function ControllerEndpoint(b: Id): Endpoint {
    Endpoint(CONTROLLER_ID, b, Controller, ABSENT, ABSENT, 0, 1295, 1295)
  }

  const LINK := Link(LINK_ID, CONTROLLER_ID, COMPANION_ID, LinkActive, ABSENT, 1295, 0)

  /** What activating the pair makes of the table. */
  ghost predicate IsActivated(db: Db, a: Id, b: Id) {
    && db.now == 1295
    && db.endpoints == map[COMPANION_ID := CompanionEndpoint(a), CONTROLLER_ID := ControllerEndpoint(b)]
    && db.links == map[LINK_ID := LINK] && db.sessions == map[]
    && db.connections == JOINED.connections && db.seenConnections == {1, 2} && db.seenSessions == {}
    && db.pairs == map[PAIR_ID := HalfPair(a).(commitB := Some(ControllerCommit(b)), status := PairActive)]
    && Activated(db, PAIR_ID)
  }

  function LastCommit(at: nat, b: Id): Event { CommitFull(PAIR_ID, SlotB, ControllerCommit(b), SOURCE, 1295, at) }

  function LastWrites(a: Id, b: Id): seq<Write> {
    FullWrites(HalfPair(a), SlotB, ControllerCommit(b), LINK, SOURCE, 10, 1295)
  }

  lemma LastWritesHold(a: Id, b: Id)
    ensures AllHold(LastWrites(a, b), AtHalf(a))
  {
    var db := AtHalf(a);
    assert db.endpoints == map[] && db.links == map[] && db.rates == map[] && db.pairs[PAIR_ID] == HalfPair(a);
    hide AtHalf;
  }

  lemma LastCommitLeads(h: seq<Db>, a: Id, b: Id)
    requires 0 < |h| && Last(h) == AtHalf(a)
    ensures Reaches(h, LastCommit(Newest(h), b)) && Writes(h, LastCommit(Newest(h), b)) == LastWrites(a, b)
  {
    hide FullWrites;
  }

  lemma LastCommitMoves(at: nat, next: Db, a: Id, b: Id)
    requires AtomicPair(AtHalf(a), LastCommit(at, b), next)
    ensures IsActivated(next, a, b)
  {
    assert next.activations[0].pairId == PAIR_ID;
  }

  lemma CommitsLast(h: seq<Db>, events: seq<Event>, a: Id, b: Id) returns (next: Db)
    requires ValidRun(h, events) && Last(h) == AtHalf(a)
    ensures ValidRun(h + [next], events + [LastCommit(Newest(h), b)]) && IsActivated(next, a, b)
  {
    hide ValidRun, RouteMove, AtomicPair, AtomicPlain, ReadsLead, OnTime, Writes, AllHold, IsActivated, AtHalf,
         LastWrites;
    RunSize(h, events);
    LastWritesHold(a, b);
    LastCommitLeads(h, a, b);
    next := Extend(h, events, LastCommit(Newest(h), b));
    LastCommitMoves(Newest(h), next, a, b);
  }

  /** The companion has created a pair, the controller has joined it, the companion has committed and, 295 seconds
      on, so has the controller: table 6 is the one before. */
  ghost predicate Pairs(h: seq<Db>, events: seq<Event>, a: Id, b: Id) {
    && 7 <= |events| < |h|
    && At(h, 6) == AtHalf(a) && StepAt(events, 6).CommitFull? && IsActivated(At(h, 7), a, b)
  }

  lemma PairsStill(h: seq<Db>, events: seq<Event>, longer: seq<Db>, all: seq<Event>, a: Id, b: Id)
    requires Pairs(h, events, a, b) && RunOn(h, events, longer, all)
    ensures Pairs(longer, all, a, b)
  {
    hide ValidRun, IsActivated, AtHalf;
    RunSize(longer, all);
  }

  lemma UntilCreated() returns (h: seq<Db>, events: seq<Event>)
    ensures ValidRun(h, events) && |events| == 3 && |h| == 4 && At(h, 2) == BOTH_HERE && Last(h) == CREATED
  {
    h, events := [START], [];
    assert ValidRun(h, events);
    hide ValidRun;
    var next := Connects(h, events, 1);
    h, events := h + [next], events + [ConnectPairing(PairingConnection(1))];
    next := Connects(h, events, 2);
    h, events := h + [next], events + [ConnectPairing(PairingConnection(2))];
    Creates(h, events);
    h, events := h + [CREATED], events + [CreatePair(FRESH_PAIR)];
  }

  lemma UntilJoined() returns (h: seq<Db>, events: seq<Event>)
    ensures ValidRun(h, events) && |events| == 4 && Last(h) == JOINED
  {
    hide ValidRun, Joining;
    h, events := UntilCreated();
    Joins(h, events);
    h, events := h + [JOINED], events + [Joining(Newest(h))];
  }

  lemma UntilHalf(a: Id) returns (h: seq<Db>, events: seq<Event>)
    ensures ValidRun(h, events) && |events| == 6 && Last(h) == AtHalf(a)
  {
    hide ValidRun, FirstCommit;
    h, events := UntilJoined();
    CommitsFirst(h, events, a);
    h, events := h + [HalfTable(a)], events + [FirstCommit(Newest(h), a)];
    assert Follows(h, Tick(1295), AtHalf(a));
    hide Follows;
    AddedFollows(h, events, Tick(1295), AtHalf(a));
    h, events := h + [AtHalf(a)], events + [Tick(1295)];
  }

  lemma Activates(a: Id, b: Id) returns (h: seq<Db>, events: seq<Event>)
    ensures ValidRun(h, events) && |events| == 7 && |h| == 8 && Pairs(h, events, a, b)
  {
    hide ValidRun, IsActivated, AtHalf;
    h, events := UntilHalf(a);
    RunSize(h, events);
    var next := CommitsLast(h, events, a, b);
    h, events := h + [next], events + [LastCommit(Newest(h), b)];
  }

  // ----- the stub

  /** The cancel read the pair when it was half committed, with five seconds left. */
  const LATE_CANCEL := CancelPair(PAIR_ID, 1, 1295, 6)

  lemma LateCancelReaches(h: seq<Db>, events: seq<Event>, a: Id, b: Id)
    requires Pairs(h, events, a, b) && |h| == 8
    ensures Reaches(h, LATE_CANCEL) && !PairOutlives(h, LATE_CANCEL)
  {
  }

  /** The pair is activated, its record expires, and the cancel leaves a stub in its place. */
  lemma StubIsReached(a: Id, b: Id) returns (h: seq<Db>, events: seq<Event>)
    ensures ValidRun(h, events) && Pairs(h, events, a, b) && 7 < |events|
    ensures StepAt(events, |events| - 1) == LATE_CANCEL
    ensures Stubs(h, events, |events| - 1, PAIR_ID) && Activated(At(h, |events| - 1), PAIR_ID)
  {
    hide ValidRun, Reaches, Stubs, Pairs, PairOutlives, Activated;
    var before, steps := Activates(a, b);
    LateCancelReaches(before, steps, a, b);
    h, events := CancelCanLapse(before, steps, LATE_CANCEL, PAIR_ID);
    PairsStill(before, steps, h, events, a, b);
    RunSize(h, events);
    PairsActivate(h, events, a, b);
    ActivatedStays(h, events, 7, |events| - 1, PAIR_ID);
  }

  lemma PairsActivate(h: seq<Db>, events: seq<Event>, a: Id, b: Id)
    requires Pairs(h, events, a, b)
    ensures Activated(At(h, 7), PAIR_ID) && Stored(At(h, 7), PAIR_ID) && LINK_ID in At(h, 7).links
    ensures Lookup(At(h, 7).pairs, PAIR_ID)
            == Some(HalfPair(a).(commitB := Some(ControllerCommit(b)), status := PairActive))
  {
    hide Activated, AtHalf;
  }

  // ----- the pair left behind

  /** The disconnect of the pair's creator read the creator's record before the pair was created. */
  const EARLY_DISCONNECT := DisconnectPairing(1, 2, 2)

  lemma EarlyDisconnectReaches(h: seq<Db>)
    requires |h| == 4 && At(h, 2) == BOTH_HERE && Last(h) == CREATED
    ensures Reaches(h, EARLY_DISCONNECT) && Writes(h, EARLY_DISCONNECT) == [DeleteConnection(1, true)]
    ensures AllHold(Writes(h, EARLY_DISCONNECT), Last(h))
    ensures ClosesPair(CREATED, PAIR_ID, 1) && BOTH_HERE.connections[1].pairingId == ABSENT
  {
  }

  lemma EarlyDisconnectMoves(next: Db)
    requires AtomicPlain(CREATED, EARLY_DISCONNECT, next)
    ensures 1 !in next.connections
  {
  }

  /** A pair is created, and left OPEN by the disconnect of its creator. */
  lemma DisconnectCanLeavePair() returns (h: seq<Db>, events: seq<Event>)
    ensures ValidRun(h, events) && |events| == 4 && LeavesPair(h, events, 3, 1, PAIR_ID)
    ensures InStatus(At(h, 4), PAIR_ID, PairOpen) && 1 !in At(h, 4).connections
  {
    hide ValidRun, Reaches, ClosesPair, RouteMove, AtomicPair, AtomicPlain, Writes, AllHold;
    h, events := UntilCreated();
    EarlyDisconnectReaches(h);
    var next := Extend(h, events, EARLY_DISCONNECT);
    EarlyDisconnectMoves(next);
    h, events := h + [next], events + [EARLY_DISCONNECT];
    DisconnectLeavesPair(h, events, 3, 1, PAIR_ID);
  }

  // ----- the lapsed connection

  const SESSION_ID: Id := 41

  function EndpointConnection(id: Id, endpointId: Id, at: int): Connection {
    Connection(id, EndpointAuth, endpointId, SOURCE, ABSENT, at, at + CONNECTION_SECONDS)
  }

  /** The endpoint connects, having read everything from one table. */
  function ConnectAt(at: nat, c: Connection, credentialHash: Id): Event {
    ConnectEndpoint(c, credentialHash, at, at, TailReads(at, at, at, at))
  }

  /** An endpoint that has never been connected, and a new connection of its. */
  predicate IsDown(db: Db, c: Connection, credentialHash: Id) {
    && NewConnection(c) && c.authMode == EndpointAuth && c.endpointId != ABSENT && db.now == c.connectedAt > 0
    && c.connectionId !in db.connections && c.connectionId !in db.seenConnections && ABSENT !in db.sessions
    && c.endpointId in db.endpoints
    && var e := db.endpoints[c.endpointId];
    && e.revokedAt == 0 && e.connectionId == ABSENT && e.activeSessionId == ABSENT
    && e.credentialHash == credentialHash != ABSENT
  }

  function Up(db: Db, c: Connection): Db {
    if c.endpointId !in db.endpoints then db
    else db.(endpoints := db.endpoints[c.endpointId := Attached(db.endpoints[c.endpointId], c)],
             connections := db.connections[c.connectionId := c],
             seenConnections := db.seenConnections + {c.connectionId})
  }

  lemma ConnectReaches(h: seq<Db>, c: Connection, credentialHash: Id)
    requires 0 < |h| && IsDown(Last(h), c, credentialHash)
    ensures Reaches(h, ConnectAt(Newest(h), c, credentialHash))
    ensures AllHold(Writes(h, ConnectAt(Newest(h), c, credentialHash)), Last(h))
  {
    hide TransitionWrites;
  }

  lemma ConnectMoves(db: Db, at: nat, c: Connection, credentialHash: Id, next: Db)
    requires RouteMove(db, ConnectAt(at, c, credentialHash), next) && IsDown(db, c, credentialHash)
    ensures next == Up(db, c)
  {
  }

  lemma ComesUp(h: seq<Db>, events: seq<Event>, c: Connection, credentialHash: Id)
    requires ValidRun(h, events) && IsDown(Last(h), c, credentialHash)
    ensures ValidRun(h + [Up(Last(h), c)], events + [ConnectAt(Newest(h), c, credentialHash)])
  {
    hide ValidRun, RouteMove, AtomicPair, AtomicPlain, Reaches, Writes, AllHold, IsDown, Up;
    RunSize(h, events);
    ConnectReaches(h, c, credentialHash);
    var next := Extend(h, events, ConnectAt(Newest(h), c, credentialHash));
    ConnectMoves(Last(h), Newest(h), c, credentialHash, next);
  }

  /** Both ends are up. */
  ghost predicate BothUp(db: Db, a: Id, b: Id) {
    && db.now == 1295 && db.sessions == map[] && db.seenSessions == {} && db.links == map[LINK_ID := LINK]
    && db.endpoints == map[COMPANION_ID := CompanionEndpoint(a).(connectionId := 4),
                           CONTROLLER_ID := ControllerEndpoint(b).(connectionId := 3)]
    && Lookup(db.connections, 3) == Some(FIRST)
  }

  /** The controller's connection, as its first $connect makes it. */
  const FIRST := EndpointConnection(3, CONTROLLER_ID, 1295)

  /** The same, as its second one makes it. */
  const AGAIN := EndpointConnection(3, CONTROLLER_ID, 8790)

  predicate ConnectsFirst(e: Event) { match e case ConnectEndpoint(c, _, _, _, _) => c == FIRST case _ => false }

  const OTHER := EndpointConnection(4, COMPANION_ID, 1295)

  lemma ActivatedComesUp(db: Db, a: Id, b: Id)
    requires IsActivated(db, a, b) && a != ABSENT && b != ABSENT
    ensures IsDown(db, FIRST, b) && IsDown(Up(db, FIRST), OTHER, a) && BothUp(Up(Up(db, FIRST), OTHER), a, b)
  {
    hide Activated;
  }

  lemma BothComeUp(a: Id, b: Id) returns (h: seq<Db>, events: seq<Event>)
    requires a != ABSENT && b != ABSENT
    ensures ValidRun(h, events) && BothUp(Last(h), a, b) && |events| == 9 && ConnectsFirst(StepAt(events, 7))
  {
    hide ValidRun, IsActivated, AtHalf, IsDown, Up, BothUp;
    h, events := Activates(a, b);
    ActivatedComesUp(Last(h), a, b);
    ComesUp(h, events, FIRST, b);
    h, events := h + [Up(Last(h), FIRST)], events + [ConnectAt(Newest(h), FIRST, b)];
    ComesUp(h, events, OTHER, a);
    h, events := h + [Up(Last(h), OTHER)], events + [ConnectAt(Newest(h), OTHER, a)];
  }

  /** The controller's end of a session, before the session's record expires and after. */
  ghost predicate InSession(db: Db, b: Id) {
    && CONTROLLER_ID in db.endpoints
    && db.endpoints[CONTROLLER_ID] == ControllerEndpoint(b).(connectionId := 3, activeSessionId := SESSION_ID)
    && Lookup(db.connections, 3) == Some(FIRST)
  }

  ghost predicate SessionUp(db: Db, b: Id) {
    && db.now == 1295 && db.sessions.Keys == {SESSION_ID} && InSession(db, b)
    && db.sessions[SESSION_ID].expiresAt == 1295 + SESSION_SECONDS
  }

  ghost predicate Stranded(db: Db, b: Id) { db.now == 8790 && db.sessions == map[] && InSession(db, b) }

  function Opening(at: nat): Event {
    OpenSession(LINK_ID, CONTROLLER_ID, 3, SESSION_ID, 1295, at, at, at)
  }

  lemma OpeningReaches(h: seq<Db>, a: Id, b: Id)
    requires 0 < |h| && BothUp(Last(h), a, b)
    ensures Reaches(h, Opening(Newest(h))) && AllHold(Writes(h, Opening(Newest(h))), Last(h))
  {
  }

  lemma OpeningMoves(db: Db, at: nat, next: Db, a: Id, b: Id)
    requires BothUp(db, a, b) && RouteMove(db, Opening(at), next)
    ensures SessionUp(next, b)
  {
  }

  lemma SessionOpens(h: seq<Db>, events: seq<Event>, a: Id, b: Id) returns (next: Db)
    requires ValidRun(h, events) && BothUp(Last(h), a, b)
    ensures ValidRun(h + [next], events + [Opening(Newest(h))]) && SessionUp(next, b)
  {
    hide ValidRun, RouteMove, AtomicPair, AtomicPlain, Reaches, Writes, AllHold, BothUp, SessionUp;
    RunSize(h, events);
    OpeningReaches(h, a, b);
    next := Extend(h, events, Opening(Newest(h)));
    OpeningMoves(Last(h), Newest(h), next, a, b);
  }

  lemma SessionExpires(db: Db, b: Id)
    requires SessionUp(db, b)
    ensures var later := db.(now := 8790);
            db.now <= 8790 && Expired(later, SessionItem(SESSION_ID))
                && Stranded(Dropped(later, SessionItem(SESSION_ID)), b)
  {
  }

  lemma IsStranded(a: Id, b: Id) returns (h: seq<Db>, events: seq<Event>)
    requires a != ABSENT && b != ABSENT
    ensures ValidRun(h, events) && Stranded(Last(h), b) && 9 <= |events| && ConnectsFirst(StepAt(events, 7))
  {
    hide ValidRun, BothUp, SessionUp, Opening, Stranded, Expired, Dropped;
    h, events := BothComeUp(a, b);
    var next := SessionOpens(h, events, a, b);
    h, events := h + [next], events + [Opening(Newest(h))];
    SessionExpires(next, b);
    h, events := Lapses(h, events, SessionItem(SESSION_ID), 8790);
  }

  lemma SecondConnectReaches(h: seq<Db>, b: Id)
    requires 0 < |h| && Stranded(Last(h), b) && b != ABSENT
    ensures var e := ConnectAt(Newest(h), AGAIN, b);
            Reaches(h, e) && AllHold(Writes(h, e), Last(h)) && !RecordOutlives(h, e)
  {
    hide TransitionWrites;
  }

  /** A second $connect of the same endpoint over the same connection, so many seconds after the first. */
  predicate ConnectsAgain(e: Event, again: Event, seconds: int) {
    && e.ConnectEndpoint? && again.ConnectEndpoint?
    && again.c.connectionId == e.c.connectionId && again.c.endpointId == e.c.endpointId
    && again.c.connectedAt == e.c.connectedAt + seconds
  }

  /** Its session gone, the controller's second $connect over the same connection, 7495 seconds after the first,
      takes the stored record for its own; the record expires, and the endpoint ends up on a connection that has
      none. */
  lemma ConnectCanMissItsRecord(a: Id, b: Id) returns (h: seq<Db>, events: seq<Event>, first: nat, k: nat)
    requires a != ABSENT && b != ABSENT
    ensures ValidRun(h, events) && first < k < |events|
    ensures ConnectsAgain(StepAt(events, first), StepAt(events, k), 7495)
    ensures !AtomicStep(At(h, k), StepAt(events, k), At(h, k + 1)) && OnNoRecord(StepAt(events, k), At(h, k + 1))
  {
    hide ValidRun, AtomicStep, OnTime, ReadsLead, Writes, AllHold, DistinctTargets, Sound, RecordOutlives, Stranded,
         OnNoRecord;
    var before, steps := IsStranded(a, b);
    RunSize(before, steps);
    SecondConnectReaches(before, b);
    var e := ConnectAt(Newest(before), AGAIN, b);
    RunIsSound(before, steps);
    WritesNameItemsOnce(before, e);
    h, events := ConnectCanLapse(before, steps, e);
    first, k := 7, |events| - 1;
    MissedRecord(h, events, k);
  }
}
