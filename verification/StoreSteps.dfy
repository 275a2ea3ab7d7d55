/** What each operation of the store has to show for its transaction, and what it may report of it. */
module StoreSteps {
  import opened Records
  import opened Table
  import opened Routing
  import opened Transitions
  import opened Specs
  import opened Plans
  import opened Refinement
  import opened Pairing
  import opened ActivationStep
  import opened Runs
  import opened Steps
  import opened Atomicity
  import opened Frames
  import opened RouteTheorems
  import opened NamedOnce

  const ATTEMPTS := 5

  /** A transaction commits, or is refused with a verdict on each of its conditions, or comes after the
      invocation has run out of time. */
  datatype Outcome = Done | Refused(failed: seq<bool>) | TimedOut

  datatype CloseResult = CloseResult(session: Session, closedNow: bool)

  /** An error, as one table alone calls for it. */
  datatype Denial = Denial(code: ErrorCode, retryable: bool)

  ghost predicate Prefix<T(!new)>(a: seq<T>, b: seq<T>) {
    |a| <= |b| && forall i :: 0 <= i < |a| ==> b[i] == a[i]
  }

  /** One run goes on to the other. */
  ghost predicate RunOn(h: seq<Db>, events: seq<Event>, longer: seq<Db>, more: seq<Event>) {
    ValidRun(h, events) && ValidRun(longer, more) && Prefix(h, longer) && Prefix(events, more)
  }

  lemma SameTables(h: seq<Db>, events: seq<Event>, longer: seq<Db>, more: seq<Event>)
    requires RunOn(h, events, longer, more)
    ensures |h| == |events| + 1 && |longer| == |more| + 1 && |h| <= |longer|
    ensures forall i :: 0 <= i < |h| ==> At(longer, i) == At(h, i) && Upto(longer, i) == Upto(h, i)
    ensures forall k :: 0 <= k < |events| ==> StepAt(more, k) == StepAt(events, k)
  {
    hide ValidRun;
    RunSize(h, events);
    RunSize(longer, more);
  }

  /** Which conditions of a transaction fail, in order: its cancellation reasons. */
  function Verdicts(ws: seq<Write>, db: Db): (failed: seq<bool>)
    ensures |failed| == |ws| && forall i :: 0 <= i < |ws| ==> failed[i] == !Holds(ws[i], db)
  {
    seq(|ws|, i requires 0 <= i < |ws| => !Holds(ws[i], db))
  }

  /** The reads lead to a transaction with this write list. */
  predicate Leads(h: seq<Db>, e: Event, ws: seq<Write>) { ReadsLead(h, e) && Writes(h, e) == ws }

  /** Reads that led to a transaction still do when the run has gone on, and to the same writes. */
  lemma ReadsLater(h: seq<Db>, longer: seq<Db>, e: Event)
    requires Prefix(h, longer) && ReadsLead(h, e) && Last(h).activationLimit == Last(longer).activationLimit
    ensures Leads(longer, e, Writes(h, e))
  {
    hide NewConnection, ConnectReaches, DisconnectReaches, RevokeLinkReaches, RevokeEndpointReaches, OpenReaches,
         PointerRead, CurrentCaller, ConnectPlan, DisconnectPlan, RevokeLinkPlan, RevokeEndpointPlan, Tail, OpenWrites,
         NewSession, OnSession, Vanished, Last, At, TailInOrder, ReadsAt;
    if IsRouteStep(e) { PrefixReads(h, longer); } else { OtherReadsLater(h, longer, e); }
  }

  lemma PrefixReads(h: seq<Db>, longer: seq<Db>)
    requires Prefix(h, longer)
    ensures |h| <= |longer| && forall i :: 0 <= i < |h| ==> At(longer, i) == At(h, i)
    ensures forall from: nat, t :: TailInOrder(h, from, t) ==>
              from <= t.session < |h| && TailInOrder(longer, from, t) && ReadsAt(longer, t) == ReadsAt(h, t)
  {
  }

  lemma OtherReadsLater(h: seq<Db>, longer: seq<Db>, e: Event)
    requires Prefix(h, longer) && ReadsLead(h, e) && Last(h).activationLimit == Last(longer).activationLimit
    requires !IsRouteStep(e)
    ensures Leads(longer, e, Writes(h, e))
  {
    hide At, Last, NewConnection, PairRead, Waiting, CommitIds, NewPair, Pending, IsMember, ReciprocalCommits,
         HalfWrites, FullWrites, ClosesPair, Ordered;
    PrefixReads(h, longer);
  }

  lemma ReadyToCommit(earlier: seq<Db>, h: seq<Db>, events: seq<Event>, e: Event)
    requires 0 < |earlier| && Prefix(earlier, h) && ValidRun(h, events) && ReadsLead(earlier, e)
    ensures Leads(h, e, Writes(earlier, e))
    ensures OnTime(h, e) ==> DistinctTargets(Writes(earlier, e))
  {
    hide ValidRun, ReadsLead, Writes, Inv, RouteEvolves, PairEvolves, DistinctTargets, Sound, OnTime;
    TablesEvolve(h, events, |earlier| - 1, |h| - 1);
    ReadsLater(earlier, h, e);
    if OnTime(h, e) {
      RunIsSound(h, events);
      WritesNameItemsOnce(h, e);
    }
  }

  lemma RunGrows(h: seq<Db>, events: seq<Event>, e: Event)
    requires ValidRun(h, events) && Reaches(h, e) && Commits(Writes(h, e), Last(h))
    ensures ValidRun(h + [Apply(Last(h), Writes(h, e))], events + [e])
    ensures Upto(h + [Apply(Last(h), Writes(h, e))], |h| - 1) == h
  {
    hide OnTime, Writes, Commits, Apply, Empty;
    assert 0 < |h| by { RunSize(h, events); }
    assert Follows(h, e, Apply(Last(h), Writes(h, e)));
    hide Follows, ReadsLead;
    AddedFollows(h, events, e, Apply(Last(h), Writes(h, e)));
  }

  lemma AddedFollows(h: seq<Db>, events: seq<Event>, e: Event, next: Db)
    requires ValidRun(h, events) && Follows(h, e, next)
    ensures ValidRun(h + [next], events + [e]) && Upto(h + [next], |h| - 1) == h
  {
    hide Follows, Empty;
    var longer, steps := h + [next], events + [e];
    assert longer[..|h|] == h;
    forall k | 0 <= k < |steps| ensures Follows(Upto(longer, k), StepAt(steps, k), At(longer, k + 1)) {
      if k < |events| {
        assert longer[..k + 1] == h[..k + 1];
        assert Follows(Upto(h, k), StepAt(events, k), At(h, k + 1));
      }
    }
  }

  /** Step `at` of the run is this event, with this write list. */
  ghost predicate Ran(h: seq<Db>, events: seq<Event>, at: nat, e: Event, ws: seq<Write>) {
    ValidRun(h, events) && at < |events| && StepAt(events, at) == e && Leads(Upto(h, at), e, ws)
  }

  /** What the records of a table say of their own IDs, and of the links that they hold. */
  ghost predicate Keyed(db: Db) {
    && (forall id :: id in db.endpoints ==> db.endpoints[id].endpointId == id)
    && (forall id :: id in db.sessions ==> db.sessions[id].sessionId == id && id != ABSENT)
    && (forall id :: id in db.links ==>
          && db.links[id].linkId == id
          && db.links[id].controllerId in db.endpoints && db.links[id].companionId in db.endpoints
          && (db.links[id].status == LinkRevoked ==> db.links[id].activeSessionId == ABSENT))
    && ABSENT !in db.pairs
  }

  lemma TableIsKeyed(h: seq<Db>, events: seq<Event>, at: nat)
    requires ValidRun(h, events) && at < |h|
    ensures Keyed(At(h, at))
  {
    hide ValidRun, Inv;
    TableIsSound(h, events, at);
    SoundIsKeyed(At(h, at));
  }

  lemma SoundIsKeyed(db: Db)
    requires Inv(db)
    ensures Keyed(db)
  {
    hide LogInv, QuotaInv;
    forall id | id in db.endpoints ensures db.endpoints[id].endpointId == id { assert EndpointOk(db, id); }
    forall id | id in db.sessions ensures db.sessions[id].sessionId == id && id != ABSENT { assert SessionOk(db, id); }
    forall id | id in db.links
      ensures db.links[id].linkId == id
              && db.links[id].controllerId in db.endpoints && db.links[id].companionId in db.endpoints
              && (db.links[id].status == LinkRevoked ==> db.links[id].activeSessionId == ABSENT)
    {
      assert LinkOk(db, id);
    }
    assert ABSENT in db.pairs ==> PairOk(db, ABSENT);
  }

  /** Operations appended one by one, each as its own read calls for it, are the transition's writes. */
  lemma OperationsAreTransition(prefix: seq<Write>, s: Session, link: Option<Link>, controller: Option<Endpoint>,
                                companion: Option<Endpoint>, now: int, omit: set<Item>, fence: Fence, clears: bool,
                                first: seq<Write>, firstFenced: bool, second: seq<Write>, secondFenced: bool,
                                    fenced: bool)
    requires clears <==> LinkItem(s.linkId) !in omit && LinkPoints(link, s.sessionId)
    requires PointerOps(first, firstFenced, s.controllerId, controller, s.sessionId, omit, fence)
    requires PointerOps(second, secondFenced, s.companionId, companion, s.sessionId, omit, fence)
    requires fenced <==> fence.Fence? && ((firstFenced && fence.endpointId == s.controllerId)
                                          || (secondFenced && fence.endpointId == s.companionId))
    ensures ((((prefix + Opt(s.status == SessionActive, EndSession(s.sessionId, now)))
               + Opt(clears, ClearLink(s.linkId, s.sessionId))) + first) + second)
            + Opt(fence.Fence? && fence.connectionId != ABSENT && !fenced && EndpointItem(fence.endpointId) !in omit,
                  FenceCheck(fence))
            == prefix + TransitionWrites(s, link, controller, companion, now, omit, fence)
  {
    hide Opt, EndpointPoints, LinkPoints, FenceCheck;
    var alone := fence.Fence? && fence.connectionId != ABSENT && !fenced && EndpointItem(fence.endpointId) !in omit;
    assert alone <==> FencesAlone(s, controller, companion, omit, fence);
    InOneList(prefix, Opt(s.status == SessionActive, EndSession(s.sessionId, now)),
              Opt(clears, ClearLink(s.linkId, s.sessionId)), first, second, Opt(alone, FenceCheck(fence)));
  }

  lemma InOneList(prefix: seq<Write>, a: seq<Write>, b: seq<Write>, c: seq<Write>, d: seq<Write>, e: seq<Write>)
    ensures ((((prefix + a) + b) + c) + d) + e == prefix + (a + (b + (c + (d + e))))
  {
  }

  /** What the read of one endpoint calls for: its pointer goes, and the caller's fence with it. */
  ghost predicate PointerOps(ops: seq<Write>, fenced: bool, endpointId: Id, endpoint: Option<Endpoint>, sessionId: Id,
                             omit: set<Item>, fence: Fence)
  {
    var clears := endpointId != ABSENT && EndpointItem(endpointId) !in omit && EndpointPoints(endpoint, sessionId);
    && ops == Opt(clears, ClearEndpoint(endpointId, sessionId, FenceOn(fence, endpointId)))
    && (fenced <==> clears && FenceOn(fence, endpointId) != ABSENT)
  }

  // ----- what a step reports

  /** The report of a step that ran: it gives the session that the step ended, if it ended one, as it is
      stored from then on. */
  ghost predicate Reports(h: seq<Db>, events: seq<Event>, at: nat, report: Option<CloseResult>) {
    && at < |events|
    && (report.Some? && report.value.closedNow ==>
          && report.value.session.status == SessionClosed
          && Lookup(At(h, at + 1).sessions, report.value.session.sessionId) == Some(report.value.session))
    && forall id :: ClosedBy(h, events, at, id)
                    <==> report.Some? && report.value.closedNow && report.value.session.sessionId == id
  }

  predicate EndsNothing(ws: seq<Write>) { forall w :: w in ws ==> !w.EndSession? }

  lemma TransitionEnds(s: Session, link: Option<Link>, controller: Option<Endpoint>, companion: Option<Endpoint>,
                       now: int, omit: set<Item>, fence: Fence)
    ensures var tail := TransitionWrites(s, link, controller, companion, now, omit, fence);
            && (forall w :: w in tail && w.EndSession? ==>
                  s.status == SessionActive && w == EndSession(s.sessionId, now))
            && (s.status == SessionActive ==> EndSession(s.sessionId, now) in tail)
  {
    hide LinkPoints, ClearsController, ClearsCompanion, FencesAlone, FenceOn;
    var tail := TransitionWrites(s, link, controller, companion, now, omit, fence);
    assert s.status == SessionActive ==> tail[0] == EndSession(s.sessionId, now);
  }

  /** A transition ends its session exactly when that was read ACTIVE, and ends no other. */
  lemma OwnThenTransitionEnds(own: seq<Write>, s: Session, link: Option<Link>, controller: Option<Endpoint>,
                              companion: Option<Endpoint>, now: int, omit: set<Item>, fence: Fence)
    requires EndsNothing(own)
    ensures var ws := own + TransitionWrites(s, link, controller, companion, now, omit, fence);
            && (forall id :: EndsSession(ws, id) <==> s.status == SessionActive && id == s.sessionId)
            && (s.status == SessionActive ==> EndSession(s.sessionId, now) in ws)
  {
    hide TransitionWrites;
    var tail := TransitionWrites(s, link, controller, companion, now, omit, fence);
    TransitionEnds(s, link, controller, companion, now, omit, fence);
    forall w | w in own + tail ensures w in own || w in tail {}
    assert s.status == SessionActive ==> EndSession(s.sessionId, now) in own + tail;
  }

  /** The session as it was read, once closed, is the stored one closed: nothing else of it ever changes. */
  lemma ReadSessionIsStored(h: seq<Db>, events: seq<Event>, at: nat, e: Event, ws: seq<Write>, atSession: nat,
                            s: Session, now: int)
    requires Ran(h, events, at, e, ws) && EndSession(s.sessionId, now) in ws
    requires atSession <= at && Lookup(At(h, atSession).sessions, s.sessionId) == Some(s)
    ensures Lookup(At(h, at + 1).sessions, s.sessionId) == Some(Closed(s, now))
  {
    hide ValidRun, ReadsLead, WriteList, Reaches, Follows, Sound, AllHold, DistinctTargets, Apply, RouteInv,
         RouteEvolves, PairInv, PairEvolves, LogInv, QuotaInv;
    StepFollows(h, events, at);
    Committed(Upto(h, at), e, At(h, at + 1));
    EachHolds(ws, At(h, at), EndSession(s.sessionId, now));
    TablesEvolve(h, events, atSession, at);
    SessionKeepsEnds(At(h, atSession), At(h, at), s.sessionId);
    EndSessionCloses(At(h, at), ws, s.sessionId, now, At(h, at).sessions[s.sessionId]);
  }

  /** What is reported of a session that was read and, if it was ACTIVE, ended. */
  predicate Tells(report: Option<CloseResult>, s: Session, now: int) {
    if s.status == SessionActive then report == Some(CloseResult(Closed(s, now), true))
    else report.None? || !report.value.closedNow
  }

  lemma TransitionReported(h: seq<Db>, events: seq<Event>, at: nat, e: Event, own: seq<Write>, r: Reads,
                           atSession: nat, s: Session, now: int, omit: set<Item>, fence: Fence,
                           report: Option<CloseResult>)
    requires Ran(h, events, at, e, own + Tail(r, s, now, omit, fence)) && EndsNothing(own) && Tells(report, s, now)
    requires s.status == SessionActive ==> atSession <= at && Lookup(At(h, atSession).sessions, s.sessionId) == Some(s)
    ensures Reports(h, events, at, report)
  {
    hide ValidRun, EndsSession, TransitionWrites, ReadsLead, WriteList, EndsNothing;
    OwnThenTransitionEnds(own, s, Lookup(r.link.links, s.linkId), Lookup(r.controller.endpoints, s.controllerId),
                          Lookup(r.companion.endpoints, s.companionId), now, omit, fence);
    if s.status == SessionActive {
      ReadSessionIsStored(h, events, at, e, own + Tail(r, s, now, omit, fence), atSession, s, now);
    }
  }

  lemma NothingReported(h: seq<Db>, events: seq<Event>, at: nat, e: Event, ws: seq<Write>)
    requires Ran(h, events, at, e, ws) && EndsNothing(ws)
    ensures Reports(h, events, at, None)
  {
    hide ValidRun, ReadsLead, WriteList;
  }

  function ReportOf(session: Option<Session>, closes: bool, now: int): Option<CloseResult> {
    match session
    case Some(s) => if closes && s.status == SessionActive then Some(CloseResult(Closed(s, now), true)) else None
    case None => None
  }

  function OwnTail(own: seq<Write>, r: Reads, session: Option<Session>, closes: bool, endpointId: Id,
                   now: int): seq<Write>
  {
    own + (if closes && session.Some? then Tail(r, session.value, now, {EndpointItem(endpointId)}, NoFence) else [])
  }

  lemma OwnTailReported(h: seq<Db>, events: seq<Event>, at: nat, e: Event, own: seq<Write>, r: Reads, atSession: nat,
                        endpoint: Endpoint, session: Option<Session>, closes: bool, endpointId: Id, now: int)
    requires Ran(h, events, at, e, OwnTail(own, r, session, closes, endpointId, now)) && EndsNothing(own)
    requires atSession <= at && session == SessionRead(endpoint, At(h, atSession))
    ensures Reports(h, events, at, ReportOf(session, closes, now))
  {
    hide ValidRun, ReadsLead, WriteList, Tail, EndsNothing, Reports;
    if closes && session.Some? {
      RunSize(h, events);
      TableIsKeyed(h, events, atSession);
      TransitionReported(h, events, at, e, own, r, atSession, session.value, now, {EndpointItem(endpointId)}, NoFence,
                         ReportOf(session, closes, now));
    } else {
      assert own + [] == own;
      NothingReported(h, events, at, e, own);
    }
  }

  /** A session that was found CLOSED is still the one stored, for as long as it is stored at all. */
  predicate StaysClosed(db: Db, s: Session) {
    s.status == SessionClosed && (s.sessionId in db.sessions ==> db.sessions[s.sessionId] == s)
  }

  lemma ClosedStaysClosed(h: seq<Db>, events: seq<Event>, i: nat, j: nat, s: Session)
    requires ValidRun(h, events) && i <= j < |h|
    requires Lookup(At(h, i).sessions, s.sessionId) == Some(s) && s.status == SessionClosed
    ensures StaysClosed(At(h, j), s)
  {
    hide ValidRun, PairInv, PairEvolves, LogInv, QuotaInv;
    TablesEvolve(h, events, i, j);
    assert SessionOk(At(h, i), s.sessionId);
    if s.sessionId in At(h, j).sessions { assert SessionEvolves(At(h, i), At(h, j), s.sessionId); }
  }

  // ----- sessions

  /** Step `at` opened the session: nothing held its route before, and all of its route holds it after. */
  ghost predicate Opened(h: seq<Db>, events: seq<Event>, at: nat, s: Session) {
    && at < |events| && StepAt(events, at).OpenSession?
    && CanOpen(At(h, at), s)
    && At(h, at + 1) == SpecOpen(At(h, at), s)
  }

  datatype Route = Route(link: Link, controller: Endpoint, companion: Endpoint)

  ghost predicate RouteRead(h: seq<Db>, r: Route, atLink: nat, atController: nat, atCompanion: nat) {
    && atLink <= atController <= atCompanion < |h|
    && Lookup(At(h, atLink).links, r.link.linkId) == Some(r.link)
    && Lookup(At(h, atController).endpoints, r.link.controllerId) == Some(r.controller)
    && Lookup(At(h, atCompanion).endpoints, r.link.companionId) == Some(r.companion)
    && r.controller.endpointId == r.link.controllerId && r.companion.endpointId == r.link.companionId
  }

  function Pointers(r: Route): set<Id> {
    {r.link.activeSessionId, r.controller.activeSessionId, r.companion.activeSessionId} - {ABSENT}
  }

  /** Where the pointer was read. */
  function ReadAt(r: Route, id: Id, atLink: nat, atController: nat, atCompanion: nat): nat {
    if id == r.link.activeSessionId then atLink
    else if id == r.controller.activeSessionId then atController else atCompanion
  }

  lemma RepairLeads(h: seq<Db>, sessionId: Id, link: Link, now: int, atLink: nat, atPointer: nat, t: TailReads)
    requires atLink <= atPointer && TailInOrder(h, atPointer, t)
    requires Lookup(At(h, atLink).links, link.linkId) == Some(link) && PointerRead(At(h, atPointer), link, sessionId)
    requires sessionId !in At(h, t.session).sessions
    ensures Leads(h, Repair(sessionId, link.linkId, now, atLink, atPointer, t),
                  Tail(ReadsAt(h, t), Vanished(sessionId, link), now, {}, NoFence))
  {
    hide Tail;
  }

  /** What an open has found when it gets to its transaction. */
  predicate MayOpen(r: Route, connectionId: Id) {
    && r.link.status == LinkActive
    && r.link.activeSessionId == r.controller.activeSessionId == r.companion.activeSessionId == ABSENT
    && Refusal(r.controller, r.companion, connectionId).None?
  }

  lemma OpenLeads(h: seq<Db>, r: Route, connectionId: Id, sessionId: Id, now: int, atLink: nat, atController: nat,
                  atCompanion: nat)
    requires RouteRead(h, r, atLink, atController, atCompanion) && MayOpen(r, connectionId)
    requires sessionId != ABSENT && connectionId != ABSENT
    ensures Leads(h, OpenSession(r.link.linkId, r.link.controllerId, connectionId, sessionId, now, atLink, atController,
                                 atCompanion),
                  OpenWrites(NewSession(r.link, r.controller, r.companion, connectionId, sessionId, now)))
  {
    hide OpenWrites;
  }

  lemma OpenReported(h: seq<Db>, events: seq<Event>, at: nat, e: Event, s: Session)
    requires Ran(h, events, at, e, OpenWrites(s)) && e.OpenSession?
    ensures Opened(h, events, at, s)
  {
    hide ValidRun, Sound, Follows, CanOpen, SpecOpen, ReadsLead, WriteList, CurrentCaller, OpenedSession;
    StepFollows(h, events, at);
    OpenIsAtomic(Upto(h, at), e, At(h, at + 1));
    var made := OpenedSession(At(h, at), e.linkId, e.connectionId, e.sessionId, e.now);
    assert OpenWrites(made)[0] == OpenWrites(s)[0];
  }

  /** A session that a step has opened is live for two hours from its making. */
  lemma LivesTwoHours(h: seq<Db>, events: seq<Event>, at: nat, s: Session, now: int)
    requires Opened(h, events, at, s) && s.status == SessionActive && s.expiresAt == now + SESSION_SECONDS
    ensures LiveUntil(At(h, at + 1), s.sessionId, now + 7_200)
  {
    hide CanOpen, At;
  }

  lemma NobodyIsAbsent(h: seq<Db>, connectionId: Id)
    ensures forall i :: !CurrentCaller(At(h, i), ABSENT, connectionId)
  {
  }

  function FenceOf(endpointId: Id, connectionId: Id): Fence {
    if endpointId == ABSENT then NoFence else Fence(endpointId, connectionId)
  }

  predicate FenceFound(db: Db, s: Session, fence: Fence) {
    match fence
    case Fence(endpointId, connectionId) => CurrentCaller(db, endpointId, connectionId) && OnSession(s, endpointId)
    case NoFence => true
  }

  lemma CloseLeads(h: seq<Db>, s: Session, sessionId: Id, fence: Fence, now: int, atCaller: nat, t: TailReads)
    requires TailInOrder(h, atCaller, t) && Lookup(At(h, t.session).sessions, sessionId) == Some(s)
    requires FenceFound(At(h, atCaller), s, fence)
    ensures Leads(h, CloseSession(sessionId, fence, now, atCaller, t), Tail(ReadsAt(h, t), s, now, {}, fence))
  {
    hide Tail, CurrentCaller;
  }

  lemma ClosedIsNotActive(db: Db, sessionId: Id, now: int)
    requires Keyed(db)
    ensures !IsActive(SpecClose(db, sessionId, now), sessionId)
  {
    hide ClearLinks, ClearEndpoints;
  }

  predicate IsClose(e: Event, sessionId: Id, fence: Fence, now: int) {
    match e
    case CloseSession(id, f, at, _, _) => id == sessionId && f == fence && at == now
    case _ => false
  }

  /** A close that ran, with the session it closed or found closed. */
  ghost predicate CloseRan(h: seq<Db>, events: seq<Event>, from: nat, result: CloseResult, at: nat, sessionId: Id,
                           fence: Fence, now: int)
  {
    && from <= at < |events| && IsClose(StepAt(events, at), sessionId, fence, now)
    && result.session.sessionId == sessionId && result.session.status == SessionClosed
    && (result.closedNow ==> result.session.closedAt == now)
    && Reports(h, events, at, Some(result))
    && (!result.closedNow ==> StaysClosed(At(h, at), result.session))
  }

  lemma CloseReported(h: seq<Db>, events: seq<Event>, from: nat, at: nat, s: Session, fence: Fence, now: int,
                      atCaller: nat, t: TailReads, seen: seq<Db>, atSession: nat, result: CloseResult)
    requires Ran(h, events, at, CloseSession(s.sessionId, fence, now, atCaller, t),
                 [] + Tail(ReadsAt(seen, t), s, now, {}, fence))
    requires from <= at && atSession <= at && Lookup(At(h, atSession).sessions, s.sessionId) == Some(s)
    requires result == CloseResult(if s.status == SessionActive then Closed(s, now) else s, s.status == SessionActive)
    ensures CloseRan(h, events, from, result, at, s.sessionId, fence, now)
    ensures At(h, at + 1) == SpecClose(At(h, at), s.sessionId, now) && !IsActive(At(h, at + 1), s.sessionId)
  {
    hide ValidRun, ReadsLead, WriteList, Reports, SpecClose, IsActive, StaysClosed, TransitionWrites;
    RunSize(h, events);
    RunLeaves(h, events, at);
    TableIsKeyed(h, events, at);
    ClosedIsNotActive(At(h, at), s.sessionId, now);
    TransitionReported(h, events, at, CloseSession(s.sessionId, fence, now, atCaller, t), [], ReadsAt(seen, t),
                       atSession, s, now, {}, fence, Some(result));
    if s.status != SessionActive { ClosedStaysClosed(h, events, atSession, at, s); }
  }

  /** What a close answers, and the table or step it answers by. */
  ghost predicate CloseAnswer(h: seq<Db>, events: seq<Event>, from: nat, r: Result<Option<CloseResult>>, at: nat,
                              sessionId: Id, endpointId: Id, connectionId: Id, now: int)
  {
    match r
    case Ok(Some(result)) =>
      CloseRan(h, events, from, result, at, sessionId, FenceOf(endpointId, connectionId), now)
      && !IsActive(Last(h), sessionId)
    case Ok(None) => at + 1 == |h| && sessionId !in At(h, at).sessions
    case Err(code, true) => code == Conflict || code == Internal
    case Err(Unauthenticated, false) =>
      at < |h| && !(endpointId == connectionId == ABSENT) && !CurrentCaller(At(h, at), endpointId, connectionId)
    case Err(Forbidden, false) =>
      && at < |h| && !(endpointId == connectionId == ABSENT)
      && sessionId in At(h, at).sessions && !OnSession(At(h, at).sessions[sessionId], endpointId)
    case Err(_, false) => false
  }

  ghost predicate SessionAnswer(h: seq<Db>, from: nat, r: Result<Session>, at: nat, sessionId: Id, now: int) {
    match r
    case Ok(s) =>
      && from <= at + 1 && at < |h| && Lookup(At(h, at).sessions, sessionId) == Some(s)
      && s.status == SessionActive && now < s.expiresAt
    case Err(code, retryable) =>
      !retryable ==> && code == SessionNotFound && at < |h| && !LiveSession(At(h, at), sessionId, now)
                     && !IsActive(Last(h), sessionId)
  }

  // ----- $connect and $disconnect

  /** The endpoint is up on this connection, under this credential. */
  ghost predicate OnConnection(db: Db, c: Connection, credentialHash: Id) {
    && c.endpointId in db.endpoints
    && db.endpoints[c.endpointId].revokedAt == 0
    && db.endpoints[c.endpointId].credentialHash == credentialHash
    && db.endpoints[c.endpointId].connectionId == c.connectionId
  }

  /** The two kinds of connection: an endpoint's own under its credential, or one for pairing. */
  predicate WellFormed(c: Connection, credentialHash: Id) {
    if c.authMode == EndpointAuth then c.endpointId != ABSENT && credentialHash != ABSENT else c.endpointId == ABSENT
  }

  /** The table has no place for the connection: its ID has been used, or its endpoint will not have it. */
  predicate LockedOut(db: Db, c: Connection, credentialHash: Id) {
    if c.endpointId == ABSENT then c.connectionId in db.connections || c.connectionId in db.seenConnections
    else c.endpointId !in db.endpoints || db.endpoints[c.endpointId].revokedAt != 0
         || db.endpoints[c.endpointId].credentialHash != credentialHash
  }

  /** A session was found, and runs to this endpoint or over this connection. */
  predicate FoundOn(session: Option<Session>, endpointId: Id) { session.Some? && OnSession(session.value, endpointId) }

  predicate FoundOver(session: Option<Session>, connectionId: Id) {
    session.Some? && OnConnectionOf(session.value, connectionId)
  }

  /** What a connect has found when it gets to its transaction. */
  predicate MayConnect(endpoint: Endpoint, same: bool, session: Option<Session>, c: Connection, credentialHash: Id) {
    && NewConnection(c) && c.authMode == EndpointAuth && c.endpointId != ABSENT && credentialHash != ABSENT
    && endpoint.revokedAt == 0 && endpoint.credentialHash == credentialHash
    && !(same && (endpoint.activeSessionId == ABSENT
                  || (session.Some? && RunsOn(session.value, c.endpointId, c.connectionId))))
  }

  lemma ConnectLeads(h: seq<Db>, c: Connection, credentialHash: Id, endpoint: Endpoint, same: bool,
                     session: Option<Session>, atEndpoint: nat, atExisting: nat, t: TailReads)
    requires atEndpoint <= atExisting && TailInOrder(h, atExisting, t) && MayConnect(endpoint, same, session, c,
                                                                                     credentialHash)
    requires Lookup(At(h, atEndpoint).endpoints, c.endpointId) == Some(endpoint)
    requires same == SameAsRead(endpoint, At(h, atExisting), c) && session == SessionRead(endpoint, At(h, t.session))
    ensures Leads(h, ConnectEndpoint(c, credentialHash, atEndpoint, atExisting, t),
                  OwnTail(OwnConnectWrites(c, credentialHash, endpoint, same), ReadsAt(h, t), session,
                          FoundOn(session, c.endpointId), c.endpointId, c.connectedAt))
  {
    hide TransitionWrites, OwnConnectWrites, NewConnection;
  }

  predicate Attaches(e: Event, c: Connection, credentialHash: Id) {
    match e case ConnectEndpoint(d, hash, _, _, _) => d == c && hash == credentialHash case _ => false
  }

  lemma ConnectReported(db: Db, e: Event, next: Db, c: Connection, credentialHash: Id)
    requires Step(db, e, next) && Attaches(e, c, credentialHash)
    ensures OnConnection(next, c, credentialHash)
  {
    hide Inv, Keeps, Moves, ReleaseHeld, ConnectionsAfter, SeenAfter, AtomicRoute, MissesRecord;
    MovesByKind(db, e, next);
    var put := ConnectIsReattached(db, e, next);
  }

  ghost predicate ConnectAnswer(h: seq<Db>, events: seq<Event>, from: nat, r: Result<Option<CloseResult>>, at: nat,
                                ran: bool, c: Connection, credentialHash: Id)
  {
    match r
    case Ok(report) =>
      if ran then
        && from <= at && Reports(h, events, at, report)
        && if c.endpointId == ABSENT then StepAt(events, at) == ConnectPairing(c)
           else Attaches(StepAt(events, at), c, credentialHash) && OnConnection(At(h, at + 1), c, credentialHash)
      else c.endpointId != ABSENT && at < |h| && OnConnection(At(h, at), c, credentialHash) && report.None?
    case Err(code, retryable) =>
      !retryable ==> code == Unauthenticated && (!WellFormed(c, credentialHash)
                                                 || (at < |h| && LockedOut(At(h, at), c, credentialHash)))
  }

  predicate OnConnectionOf(s: Session, connectionId: Id) {
    s.controllerConnectionId == connectionId || s.companionConnectionId == connectionId
  }

  lemma DisconnectLeads(h: seq<Db>, c: Connection, connectionId: Id, endpoint: Endpoint, session: Option<Session>,
                        now: int, atConnection: nat, atEndpoint: nat, t: TailReads)
    requires atConnection <= atEndpoint && TailInOrder(h, atEndpoint, t)
    requires Lookup(At(h, atConnection).connections, connectionId) == Some(c) && c.endpointId != ABSENT
    requires Lookup(At(h, atEndpoint).endpoints, c.endpointId) == Some(endpoint)
             && endpoint.connectionId == connectionId
    requires session == SessionRead(endpoint, At(h, t.session))
    ensures Leads(h, DisconnectEndpoint(connectionId, now, atConnection, atEndpoint, t),
                  OwnTail(OwnDisconnectWrites(connectionId, c.endpointId, endpoint), ReadsAt(h, t), session,
                          FoundOver(session, connectionId), c.endpointId, now))
  {
    hide TransitionWrites, OwnDisconnectWrites;
  }

  predicate Disconnects(e: Event, connectionId: Id) {
    match e
    case DisconnectPairing(id, _, _) => id == connectionId
    case DisconnectEndpoint(id, _, _, _, _) => id == connectionId
    case _ => false
  }

  /** The step took the connection record, and no other. */
  ghost predicate DropsRecord(db: Db, next: Db, connectionId: Id) {
    connectionId in db.connections && next.connections == db.connections - {connectionId}
  }

  lemma DisconnectReported(db: Db, e: Event, next: Db, connectionId: Id)
    requires Step(db, e, next) && Disconnects(e, connectionId)
    ensures DropsRecord(db, next, connectionId)
  {
    hide Inv, Keeps, Moves, IsMember, AtomicRoute, AtomicPair, MissesRecord;
    MovesByKind(db, e, next);
    StepsFrame(db, e, next);
  }

  datatype DisconnectResult = DisconnectResult(connection: Connection, session: Option<CloseResult>)

  ghost predicate DisconnectAnswer(h: seq<Db>, events: seq<Event>, from: nat, r: Result<Option<DisconnectResult>>,
                                   at: nat, readAt: nat, connectionId: Id)
  {
    match r
    case Ok(Some(result)) =>
      && from <= at && Reports(h, events, at, result.session)
      && Disconnects(StepAt(events, at), connectionId) && DropsRecord(At(h, at), At(h, at + 1), connectionId)
      && from <= readAt <= at && Lookup(At(h, readAt).connections, connectionId) == Some(result.connection)
    case Ok(None) => from <= at < |h| && connectionId !in At(h, at).connections
    case Err(_, retryable) => retryable
  }

  // ----- the end of the clean-ups

  predicate Connects(e: Event) { e.ConnectPairing? || e.ConnectEndpoint? }

  /** Nobody connects from step `from` on. */
  ghost predicate NoConnects(events: seq<Event>, from: int) {
    forall k :: from <= k < |events| ==> !Connects(StepAt(events, k))
  }

  /** Connection records come only with a connect. */
  lemma StepAddsNoRecord(db: Db, e: Event, next: Db)
    requires Step(db, e, next) && !Connects(e)
    ensures next.connections.Keys <= db.connections.Keys
  {
    hide Inv, Keeps, Moves, RouteOnly, Assignable, Joined, IsMember;
    StepsFrame(db, e, next);
  }

  lemma {:induction false} RecordsOnlyGo(h: seq<Db>, events: seq<Event>, i: nat, j: nat)
    requires ValidRun(h, events) && i <= j < |h| && NoConnects(events, i)
    ensures At(h, j).connections.Keys <= At(h, i).connections.Keys
    decreases j - i
  {
    hide ValidRun, Step, At, StepAt, Connects;
    RunSize(h, events);
    if i == j {
    } else {
      RunSteps(h, events, i);
      StepAddsNoRecord(At(h, i), StepAt(events, i), At(h, i + 1));
      RecordsOnlyGo(h, events, i + 1, j);
    }
  }

  lemma FewerKeys<K, V>(a: map<K, V>, b: map<K, V>)
    requires a.Keys <= b.Keys
    ensures |a| <= |b|
    ensures a.Keys != b.Keys ==> |a| < |b|
  {
    var rest := b.Keys - a.Keys;
    assert b.Keys == a.Keys + rest && a.Keys * rest == {};
  }

  /** If nobody connects on the way from one run to the other, then the records that go, at three each, pay
      for `n`. */
  ghost predicate Pays(h: seq<Db>, events: seq<Event>, longer: seq<Db>, more: seq<Event>, n: int) {
    NoConnects(more, |events|) ==> 3 * |Last(longer).connections| + n <= 3 * |Last(h).connections|
  }

  lemma RunPays(h: seq<Db>, events: seq<Event>, longer: seq<Db>, more: seq<Event>)
    requires RunOn(h, events, longer, more)
    ensures Pays(h, events, longer, more, 0)
  {
    hide ValidRun, NoConnects, At, StepAt, Upto;
    SameTables(h, events, longer, more);
    if NoConnects(more, |events|) {
      RecordsOnlyGo(longer, more, |h| - 1, |longer| - 1);
      FewerKeys(Last(longer).connections, Last(h).connections);
    }
  }

  lemma DropPays(h: seq<Db>, events: seq<Event>, longer: seq<Db>, more: seq<Event>, at: nat, connectionId: Id)
    requires RunOn(h, events, longer, more) && |events| <= at < |more|
    requires DropsRecord(At(longer, at), At(longer, at + 1), connectionId)
    ensures Pays(h, events, longer, more, 3)
  {
    hide ValidRun, At, StepAt, Upto;
    SameTables(h, events, longer, more);
    if NoConnects(more, |events|) {
      RecordsOnlyGo(longer, more, |h| - 1, at);
      RecordsOnlyGo(longer, more, at + 1, |longer| - 1);
      FewerKeys(Last(longer).connections, Last(h).connections);
    }
  }

  lemma PaysOn(h: seq<Db>, events: seq<Event>, mid: seq<Db>, half: seq<Event>, longer: seq<Db>, more: seq<Event>,
               m: int, l: int, n: int)
    requires Prefix(events, half) && Prefix(half, more) && n <= m + l
    requires Pays(h, events, mid, half, m) && Pays(mid, half, longer, more, l)
    ensures Pays(h, events, longer, more, n)
  {
    if NoConnects(more, |events|) {
      forall i | |events| <= i < |half| ensures !Connects(StepAt(half, i)) {
        assert StepAt(more, i) == StepAt(half, i);
      }
    }
  }

  // ----- revocation

  lemma RevokeEndpointLeads(h: seq<Db>, endpointId: Id, connectionId: Id, endpoint: Endpoint, session: Option<Session>,
                            now: int, atEndpoint: nat, t: TailReads)
    requires TailInOrder(h, atEndpoint, t) && CurrentCaller(At(h, atEndpoint), endpointId, connectionId)
    requires Lookup(At(h, atEndpoint).endpoints, endpointId) == Some(endpoint)
    requires session == SessionRead(endpoint, At(h, t.session))
    ensures Leads(h, RevokeEndpoint(endpointId, connectionId, now, atEndpoint, t),
                  OwnTail(OwnRevokeEndpointWrites(endpointId, connectionId, endpoint, now), ReadsAt(h, t), session,
                          FoundOn(session, endpointId), endpointId, now))
  {
    hide TransitionWrites, OwnRevokeEndpointWrites;
  }

  /** An endpoint as it was read, once retired, is the stored one retired. */
  lemma RevokeEndpointReported(h: seq<Db>, events: seq<Event>, at: nat, e: Event, endpointId: Id, connectionId: Id,
                               endpoint: Endpoint, now: int, atEndpoint: nat, t: TailReads)
    requires ValidRun(h, events) && at < |events| && StepAt(events, at) == e && atEndpoint <= at
    requires e == RevokeEndpoint(endpointId, connectionId, now, atEndpoint, t)
    requires Lookup(At(h, atEndpoint).endpoints, endpointId) == Some(endpoint)
    ensures Lookup(At(h, at + 1).endpoints, endpointId) == Some(Retired(endpoint, now))
  {
    hide ValidRun, RouteInv, RouteEvolves, PairInv, PairEvolves, LogInv, QuotaInv, ReleaseHeld, Retired;
    RunSteps(h, events, at);
    TablesEvolve(h, events, atEndpoint, at);
    SameEndpoint(At(h, atEndpoint), At(h, at), endpointId, now);
  }

  lemma SameEndpoint(a: Db, b: Db, id: Id, now: int)
    requires RouteInv(a) && RouteInv(b) && RouteEvolves(a, b) && id in a.endpoints && id in b.endpoints
    ensures Retired(b.endpoints[id], now) == Retired(a.endpoints[id], now)
  {
    assert EndpointOk(a, id) && EndpointOk(b, id) && EndpointEvolves(a, b, id);
  }

  datatype RevokeEndpointResult = RevokeEndpointResult(endpoint: Endpoint, session: Option<CloseResult>)

  ghost predicate RevokeEndpointAnswer(h: seq<Db>, events: seq<Event>, from: nat, r: Result<RevokeEndpointResult>,
                                       at: nat, endpointId: Id, connectionId: Id, now: int)
  {
    match r
    case Ok(result) =>
      && from <= at && StepAt(events, at).RevokeEndpoint? && Reports(h, events, at, result.session)
      && result.endpoint.endpointId == endpointId && result.endpoint.revokedAt == now
      && Lookup(At(h, at + 1).endpoints, endpointId) == Some(result.endpoint)
    case Err(code, retryable) =>
      !retryable ==>
        code == Unauthenticated && at < |h| && !CurrentCaller(At(h, at), endpointId, connectionId)
  }

  /** What a link revocation has found when it gets to its transaction. */
  predicate MayRevoke(db: Db, link: Link, endpointId: Id, connectionId: Id) {
    link.status == LinkActive && OnLink(link, endpointId) && CurrentCaller(db, endpointId, connectionId)
  }

  lemma RevokeLinkLeads(h: seq<Db>, link: Link, endpointId: Id, connectionId: Id, session: Option<Session>, now: int,
                        atCaller: nat, atLink: nat, t: TailReads)
    requires atCaller <= atLink && TailInOrder(h, atLink, t)
             && MayRevoke(At(h, atCaller), link, endpointId, connectionId)
    requires Lookup(At(h, atLink).links, link.linkId) == Some(link)
    requires link.activeSessionId != ABSENT ==> session == Lookup(At(h, t.session).sessions, link.activeSessionId)
    ensures Leads(h, RevokeLink(link.linkId, endpointId, connectionId, now, atCaller, atLink, t),
                  [RetireLink(link.linkId, link.activeSessionId, now)]
                  + (if link.activeSessionId == ABSENT then [CheckEndpoint(endpointId, connectionId)]
                     else Tail(ReadsAt(h, t), SessionOfLink(link, session), now, {LinkItem(link.linkId)},
                               Fence(endpointId, connectionId))))
  {
    hide TransitionWrites;
    var r := ReadsAt(h, t);
    if link.activeSessionId != ABSENT {
      OmittedLinkIsNotRead(r, SessionOfLink(link, session), now, Fence(endpointId, connectionId));
    }
  }

  /** A link as it was read, once revoked, is the stored one revoked. */
  lemma RevokeLinkReported(h: seq<Db>, events: seq<Event>, at: nat, e: Event, link: Link, endpointId: Id,
                           connectionId: Id, now: int, atCaller: nat, atLink: nat, t: TailReads)
    requires ValidRun(h, events) && at < |events| && StepAt(events, at) == e && atLink <= at
    requires e == RevokeLink(link.linkId, endpointId, connectionId, now, atCaller, atLink, t)
    requires Lookup(At(h, atLink).links, link.linkId) == Some(link)
    ensures Lookup(At(h, at + 1).links, link.linkId) == Some(RetiredLink(link, now))
  {
    hide ValidRun, RouteInv, RouteEvolves, PairInv, PairEvolves, LogInv, QuotaInv, Release, CurrentCaller;
    RunSteps(h, events, at);
    TablesEvolve(h, events, atLink, at);
    SameLink(At(h, atLink), At(h, at), link.linkId, now);
  }

  lemma SameLink(a: Db, b: Db, linkId: Id, now: int)
    requires RouteInv(a) && RouteInv(b) && RouteEvolves(a, b) && linkId in a.links && linkId in b.links
    ensures RetiredLink(b.links[linkId], now) == RetiredLink(a.links[linkId], now)
  {
    assert LinkOk(a, linkId) && LinkOk(b, linkId) && LinkEvolves(a, b, linkId);
  }

  datatype RevokeLinkResult = RevokeLinkResult(link: Link, session: Option<CloseResult>)

  ghost predicate RevokeLinkAnswer(h: seq<Db>, events: seq<Event>, from: nat, r: Result<RevokeLinkResult>, at: nat,
                                   ran: bool, linkId: Id, endpointId: Id, connectionId: Id, now: int)
  {
    match r
    case Ok(result) =>
      && result.link.linkId == linkId && result.link.status == LinkRevoked
      && OnLink(result.link, endpointId) && result.link.activeSessionId == ABSENT
      && if ran then
           && from <= at && StepAt(events, at).RevokeLink? && Reports(h, events, at, result.session)
           && Lookup(At(h, at + 1).links, linkId) == Some(result.link) && result.link.revokedAt == now
         else at < |h| && Lookup(At(h, at).links, linkId) == Some(result.link) && result.session.None?
    case Err(code, retryable) =>
      !retryable ==>
        && at < |h|
        && ((code == Unauthenticated && !CurrentCaller(At(h, at), endpointId, connectionId))
            || (code == Forbidden
                && !(linkId in At(h, at).links && OnLink(At(h, at).links[linkId], endpointId))))
  }

  lemma OwnConnectList(c: Connection, credentialHash: Id, endpoint: Endpoint, same: bool, own: seq<Write>)
    requires own == (if same then [] else [PutConnection(c)])
                    + [AttachConnection(c.endpointId, credentialHash, endpoint.connectionId, endpoint.activeSessionId,
                                        c.connectionId, c.connectedAt)]
                    + (if endpoint.connectionId != ABSENT && endpoint.connectionId != c.connectionId
                       then [DeleteConnection(endpoint.connectionId, false)] else [])
    ensures own == OwnConnectWrites(c, credentialHash, endpoint, same) && EndsNothing(own)
  {
  }

  // ----- pairs

  const SOURCE_RATE_INDEX := 4
  const GLOBAL_RATE_INDEX := 5

  datatype CommitPairResult = CommitPairResult(pair: Pair, link: Option<Link>, activatedNow: bool)

  /** A pair as the handler makes it for a pair.create request. */
  predicate OpenPair(pair: Pair) {
    && pair.pairId != ABSENT && pair.sideA.connectionId != ABSENT
    && pair == Pair(pair.pairId, pair.locator, pair.joinTokenHash, PairOpen, pair.sideA, None, None, None,
                    pair.expiresAt)
  }

  /** Its ID or its admission is taken, or its creator is not free to pair. */
  ghost predicate CannotCreate(db: Db, pair: Pair) {
    pair.pairId in db.pairs || pair.pairId in db.seenPairs || Door(pair) in db.admissions
    || !Assignable(db, pair.sideA.connectionId)
  }

  predicate DoorOf(locator: Id, joinTokenHash: Id, door: AdmissionKey) {
    match door
    case LocatorKey(value) => locator == value && joinTokenHash == ABSENT
    case JoinKey(value) => joinTokenHash == value && locator == ABSENT
  }

  function CreateWrites(pair: Pair): seq<Write> {
    [PutPair(pair),
     PutAdmission(Door(pair), Admission(pair.pairId, pair.locator, pair.joinTokenHash, pair.expiresAt)),
     SetPairing(pair.sideA.connectionId, pair.pairId)]
  }

  lemma CreateLeads(h: seq<Db>, pair: Pair)
    requires OpenPair(pair) && (pair.locator == ABSENT) != (pair.joinTokenHash == ABSENT)
    ensures Leads(h, CreatePair(pair), CreateWrites(pair))
  {
  }

  /** What pairing and plain requests leave behind. */
  ghost predicate Leaves(db: Db, e: Event, next: Db) {
    match e
    case CreatePair(pair) => Lookup(next.pairs, pair.pairId) == Some(pair)
    case CancelPair(pairId, _, _, _) => InStatus(next, pairId, PairClosed)
    case Rotate(endpointId, _, credentialHash, _) =>
      HasCredential(next, endpointId, credentialHash)
    case Charge(rate, limit, _) =>
      && (Count(db, rate) < limit || Count(db, rate) == 0) && Count(next, rate) == Count(db, rate) + 1
      && next == db.(rates := next.rates)
    case CloseSession(sessionId, _, now, _, _) => next == SpecClose(db, sessionId, now)
    case Repair(sessionId, linkId, _, _, _, _) =>
      && linkId in db.links
      && next == WithoutPointers(db, sessionId, linkId, {db.links[linkId].controllerId, db.links[linkId].companionId})
    case _ => true
  }

  lemma RouteMoveLeaves(db: Db, e: Event, next: Db)
    requires RouteMove(db, e, next)
    ensures Leaves(db, e, next)
  {
    hide CanConnect, SpecClose, WithoutPointers, CanOpen, Reattached, SpecConnect, SpecOpen, SpecRevokeLink,
         SpecRevokeEndpoint, SpecDisconnect, CurrentCaller, OnSession;
  }

  lemma PairMoveLeaves(db: Db, e: Event, next: Db)
    requires AtomicPair(db, e, next)
    ensures Leaves(db, e, next)
  {
    hide Assignable, Admits, OwnSlot, CanActivate, SpecActivate, SpecJoin, SpecHalf;
  }

  lemma PlainMoveLeaves(db: Db, e: Event, next: Db)
    requires AtomicPlain(db, e, next)
    ensures Leaves(db, e, next)
  {
    hide Expired, Dropped, DropPairing;
  }

  lemma StepLeaves(db: Db, e: Event, next: Db)
    requires Step(db, e, next)
    ensures Leaves(db, e, next)
  {
    hide Inv, Keeps, AtomicRoute, AtomicPair, AtomicPlain, MissesRecord, Leaves;
    if RouteMove(db, e, next) {
      RouteMoveLeaves(db, e, next);
    } else if AtomicPair(db, e, next) {
      PairMoveLeaves(db, e, next);
    } else {
      PlainMoveLeaves(db, e, next);
    }
  }

  lemma RunLeaves(h: seq<Db>, events: seq<Event>, at: nat)
    requires ValidRun(h, events) && at < |events|
    ensures Leaves(At(h, at), StepAt(events, at), At(h, at + 1))
  {
    hide *;
    RunSteps(h, events, at);
    StepLeaves(At(h, at), StepAt(events, at), At(h, at + 1));
  }

  lemma CreateRefused(db: Db, pair: Pair)
    requires !AllHold(CreateWrites(pair), db)
    ensures CannotCreate(db, pair)
  {
  }

  ghost predicate CreateAnswer(h: seq<Db>, events: seq<Event>, from: nat, r: Result<()>, at: nat, pair: Pair) {
    match r
    case Ok(_) => && from <= at < |events| && StepAt(events, at) == CreatePair(pair)
                  && Lookup(At(h, at + 1).pairs, pair.pairId) == Some(pair)
    case Err(InvalidMessage, retryable) => !retryable
    case Err(Conflict, retryable) => retryable && at < |h| && CannotCreate(At(h, at), pair)
    case Err(Internal, retryable) => retryable
    case _ => false
  }

  predicate OutOfTime(db: Db, pairId: Id, now: int) { pairId !in db.pairs || db.pairs[pairId].expiresAt <= now }

  predicate PairByIDAnswer(db: Db, r: Result<Pair>, pairId: Id, now: int) {
    match r
    case Ok(pair) => PairRead(db, pairId) && Lookup(db.pairs, pairId) == Some(pair) && now < pair.expiresAt
    case Err(PairExpired, retryable) => !retryable && OutOfTime(db, pairId, now)
    case Err(PairUnavailable, retryable) =>
      !retryable && !OutOfTime(db, pairId, now) && db.pairs[pairId].pairId != pairId
    case _ => false
  }

  function Entrance(locator: Id, joinTokenHash: Id): AdmissionKey {
    if locator != ABSENT then LocatorKey(locator) else JoinKey(joinTokenHash)
  }

  /** On the last table of a read of the admission and then of its pair, there is no admission in time, or the pair
      that it named is out of time. */
  ghost predicate NoWayIn(h: seq<Db>, from: nat, at: nat, door: AdmissionKey, now: int) {
    || door !in At(h, at).admissions || At(h, at).admissions[door].expiresAt <= now
    || exists k: nat :: from <= k + 1 && k <= at && AdmitsTo(At(h, k), door, now)
                        && OutOfTime(At(h, at), At(h, k).admissions[door].pairId, now)
  }

  predicate AdmitsTo(db: Db, door: AdmissionKey, now: int) {
    door in db.admissions && now < db.admissions[door].expiresAt
  }

  predicate AdmittedTo(db: Db, door: AdmissionKey, pairId: Id) {
    door in db.admissions && db.admissions[door].pairId == pairId
  }

  /** The admission and its pair do not name each other. */
  ghost predicate Mismatched(h: seq<Db>, from: nat, at: nat, door: AdmissionKey, now: int) {
    exists k: nat ::
      && from <= k + 1 && k <= at && AdmitsTo(At(h, k), door, now)
      && var admission := At(h, k).admissions[door];
      && !OutOfTime(At(h, at), admission.pairId, now)
      && var pair := At(h, at).pairs[admission.pairId];
      !(pair.pairId == admission.pairId && DoorOf(admission.locator, admission.joinTokenHash, door)
        && DoorOf(pair.locator, pair.joinTokenHash, door))
  }

  ghost predicate AdmissionAnswer(h: seq<Db>, from: nat, r: Result<Pair>, at: nat, door: AdmissionKey, now: int) {
    && from <= at + 1 && at < |h|
    && match r
       case Ok(pair) => && PairRead(At(h, at), pair.pairId) && Lookup(At(h, at).pairs, pair.pairId) == Some(pair)
                        && DoorOf(pair.locator, pair.joinTokenHash, door) && now < pair.expiresAt
                        && exists k: nat :: from <= k + 1 && k <= at && AdmittedTo(At(h, k), door, pair.pairId)
       case Err(PairExpired, retryable) => !retryable && NoWayIn(h, from, at, door, now)
       case Err(PairUnavailable, retryable) => !retryable && Mismatched(h, from, at, door, now)
       case _ => false
  }

  /** The pair is not to be joined, or not through this door, or not by this connection. */
  ghost predicate CannotJoin(db: Db, pairId: Id, door: AdmissionKey, connectionId: Id, now: int) {
    || !Assignable(db, connectionId)
    || pairId !in db.pairs
    || db.pairs[pairId].status != PairOpen || db.pairs[pairId].sideB.Some?
    || db.pairs[pairId].expiresAt <= now || !Admits(db.pairs[pairId], door)
  }

  /** The pair that table k admits to could not be joined on a later one. */
  ghost predicate Turned(h: seq<Db>, k: nat, at: nat, pairId: Id, door: AdmissionKey, connectionId: Id, now: int) {
    && k <= at < |h| && PairRead(At(h, k), pairId)
    && DoorOf(At(h, k).pairs[pairId].locator, At(h, k).pairs[pairId].joinTokenHash, door)
    && CannotJoin(At(h, at), pairId, door, connectionId, now)
  }

  lemma JoinRefused(db: Db, pairId: Id, side: PairSide, door: AdmissionKey, now: int)
    requires !AllHold([FillSideB(pairId, side, door, now), SetPairing(side.connectionId, pairId)], db)
    ensures CannotJoin(db, pairId, door, side.connectionId, now)
  {
  }

  /** A pair read OPEN and still OPEN has not changed. */
  lemma OpenPairAgrees(a: Db, db: Db, pairId: Id)
    requires PairInv(a) && PairInv(db) && PairEvolves(a, db)
    requires PairRead(a, pairId) && InStatus(db, pairId, PairOpen)
    ensures a.pairs[pairId] == db.pairs[pairId]
  {
    assert PairOk(a, pairId) && PairOk(db, pairId) && PairEvolvesAt(a, db, pairId);
  }

  lemma JoinReported(h: seq<Db>, events: seq<Event>, at: nat, pair: Pair, door: AdmissionKey, side: PairSide, now: int,
                     atPair: nat)
    requires ValidRun(h, events) && at < |events| && atPair <= at && PairRead(At(h, atPair), pair.pairId)
    requires StepAt(events, at) == JoinPair(pair.pairId, door, side, now, atPair)
    requires Lookup(At(h, atPair).pairs, pair.pairId) == Some(pair)
    ensures Lookup(At(h, at + 1).pairs, pair.pairId) == Some(pair.(sideB := Some(side), status := PairReady))
  {
    hide ValidRun, RouteInv, RouteEvolves, PairInv, PairEvolves, LogInv, QuotaInv, Assignable, Admits;
    RunSteps(h, events, at);
    TablesEvolve(h, events, atPair, at);
    OpenPairAgrees(At(h, atPair), At(h, at), pair.pairId);
  }

  ghost predicate JoinAnswer(h: seq<Db>, events: seq<Event>, from: nat, r: Result<Pair>, at: nat, door: AdmissionKey,
                             side: PairSide, now: int)
  {
    match r
    case Ok(pair) =>
      && from <= at + 1 && at < |events| && StepAt(events, at).JoinPair? && pair.sideB == Some(side)
      && Lookup(At(h, at + 1).pairs, pair.pairId) == Some(pair)
    case Err(InvalidMessage, retryable) => !retryable
    case Err(PairExpired, retryable) => !retryable && from <= at + 1 && at < |h| && NoWayIn(h, from, at, door, now)
    case Err(PairUnavailable, retryable) =>
      !retryable && from <= at + 1 && at < |h| && Mismatched(h, from, at, door, now)
    case Err(PairFull, retryable) =>
      !retryable && exists k: nat, pairId ::
        from <= k + 1 && Turned(h, k, at, pairId, door, side.connectionId, now)
    case Err(Internal, retryable) => retryable
    case _ => false
  }

  /** The refusal that a commit meets on one table, None where it is new or is stored already. */
  function CommitRefusal(db: Db, pairId: Id, commit: PairCommit, now: int): Option<ErrorCode> {
    if pairId !in db.pairs || db.pairs[pairId].expiresAt <= now then Some(PairExpired)
    else
      var p := db.pairs[pairId];
      if p.pairId != pairId then Some(PairUnavailable)
      else if !FromSide(commit, p.sideA) && !(p.sideB.Some? && FromSide(commit, p.sideB.value)) then Some(Forbidden)
      else
        var slot := if FromSide(commit, p.sideA) then SlotA else SlotB;
        var own, other := Commit(p, slot), Commit(p, OtherSlot(slot));
        if own.Some? then (if own.value == commit then None else Some(Conflict))
        else if p.status != PairReady && p.status != PairHalf then Some(PairUnavailable)
        else if other.Some? && !ReciprocalCommits(commit, other.value) then Some(Conflict)
        else None
  }

  predicate HoldsCommit(db: Db, pairId: Id, commit: PairCommit) {
    pairId in db.pairs && Some(commit) in {db.pairs[pairId].commitA, db.pairs[pairId].commitB}
  }

  /** What a reply to pair.commit says: `ran` is the step at which its own transaction committed, if it did. */
  ghost predicate CommitReply(h: seq<Db>, pairId: Id, commit: PairCommit, ran: Option<nat>, r: Result<bool>, at: nat) {
    match r
    case Ok(active) =>
      at < |h| && HoldsCommit(At(h, at), pairId, commit) && (active <==> InStatus(At(h, at), pairId, PairActive))
    case Err(_, retryable) => !retryable ==> ran.None?
  }

  /** The step that fills a slot of the pair with this commit. */
  predicate FillsWith(e: Event, pairId: Id, commit: PairCommit) { FillsSlot(e, pairId) && FillingCommit(e) == commit }

  /** The step that fills a slot of the pair; which one, and with what commit. */
  predicate FillsSlot(e: Event, pairId: Id) {
    match e
    case CommitHalf(id, _, _, _, _) => id == pairId
    case CommitFull(id, _, _, _, _, _) => id == pairId
    case _ => false
  }

  function FilledSlot(e: Event): Slot {
    match e case CommitHalf(_, slot, _, _, _) => slot case CommitFull(_, slot, _, _, _, _) => slot case _ => SlotA
  }

  const NO_COMMIT := PairCommit(ABSENT, ABSENT, ABSENT, PairEndpointCommit(ABSENT, Companion, ABSENT),
                                PairIdentity(ABSENT, Controller))

  function FillingCommit(e: Event): PairCommit {
    match e
    case CommitHalf(_, _, commit, _, _) => commit
    case CommitFull(_, _, commit, _, _, _) => commit
    case _ => NO_COMMIT
  }

  lemma HalfLeads(h: seq<Db>, pair: Pair, slot: Slot, commit: PairCommit, now: int, atPair: nat)
    requires atPair < |h| && PairRead(At(h, atPair), pair.pairId) && CommitIds(commit)
    requires Lookup(At(h, atPair).pairs, pair.pairId) == Some(pair) && Waiting(pair, slot, commit)
    requires Commit(pair, OtherSlot(slot)).None?
    ensures Leads(h, CommitHalf(pair.pairId, slot, commit, now, atPair), HalfWrites(pair, slot, commit, now))
  {
    hide Waiting, CommitIds, HalfWrites;
  }

  lemma HalfReported(h: seq<Db>, events: seq<Event>, at: nat, pair: Pair, slot: Slot, commit: PairCommit, now: int,
                     atPair: nat)
    requires ValidRun(h, events) && at < |events| && atPair <= at && PairRead(At(h, atPair), pair.pairId)
    requires StepAt(events, at) == CommitHalf(pair.pairId, slot, commit, now, atPair)
    requires Lookup(At(h, atPair).pairs, pair.pairId) == Some(pair) && Waiting(pair, slot, commit)
    requires Commit(pair, OtherSlot(slot)).None?
    ensures Lookup(At(h, at + 1).pairs, pair.pairId) == Some(Filled(pair, slot, commit, PairHalf))
  {
    hide ValidRun, RouteInv, RouteEvolves, PairInv, PairEvolves, LogInv, QuotaInv, OwnSlot;
    RunSteps(h, events, at);
    TablesEvolve(h, events, atPair, at);
    ReadyPairAgrees(At(h, atPair), At(h, at), pair.pairId, slot);
  }

  /** A waiting pair read without commits, and READY when the first one fills its slot, has not changed. */
  lemma ReadyPairAgrees(a: Db, db: Db, pairId: Id, slot: Slot)
    requires PairInv(a) && PairInv(db) && PairEvolves(a, db)
    requires PairRead(a, pairId) && InStatus(db, pairId, PairReady)
    requires Commit(a.pairs[pairId], slot).None? && Commit(a.pairs[pairId], OtherSlot(slot)).None?
    requires a.pairs[pairId].status == PairReady || a.pairs[pairId].status == PairHalf
    ensures a.pairs[pairId] == db.pairs[pairId]
  {
    assert PairOk(db, pairId);
    hide PairInv, PairEvolves;
    StalePairAgrees(a, db, pairId, slot);
  }

  function RateUpdate(key: RateKey, limit: int): Write { BumpRate(key, limit, RateExpiry(key)) }

  /** The write list of a second commit, as the code builds it. */
  lemma FullLeads(h: seq<Db>, pair: Pair, slot: Slot, commit: PairCommit, first: PairCommit, second: PairCommit,
                  link: Link, sourceKey: Id, now: int, atPair: nat)
    requires atPair < |h| && PairRead(At(h, atPair), pair.pairId) && CommitIds(commit) && sourceKey != ABSENT
    requires Lookup(At(h, atPair).pairs, pair.pairId) == Some(pair) && Waiting(pair, slot, commit)
    requires OrderedAs(pair, slot, commit, first, second)
    requires LinkFromCommits(first, second, now) == Ok(link)
    ensures Leads(h, CommitFull(pair.pairId, slot, commit, sourceKey, now, atPair),
                  [FillSlot(pair.pairId, slot, commit, PairHalf, PairActive, now),
                   PutLink(link, Entry(pair.pairId, first, second, sourceKey, now)),
                   UpsertEndpoint(NewEndpoint(first.self, now)),
                   UpsertEndpoint(NewEndpoint(second.self, now)),
                   RateUpdate(HourKey(sourceKey, now), Last(h).activationLimit),
                   RateUpdate(DayKey(now), ACTIVATIONS_PER_DAY)])
  {
    hide ReciprocalCommits, Waiting, CommitIds;
  }

  lemma FullReported(h: seq<Db>, events: seq<Event>, at: nat, pair: Pair, slot: Slot, commit: PairCommit,
                     first: PairCommit, second: PairCommit, link: Link, sourceKey: Id, now: int, atPair: nat)
    requires ValidRun(h, events) && at < |events| && atPair <= at && PairRead(At(h, atPair), pair.pairId)
    requires StepAt(events, at) == CommitFull(pair.pairId, slot, commit, sourceKey, now, atPair)
    requires Lookup(At(h, atPair).pairs, pair.pairId) == Some(pair) && Waiting(pair, slot, commit)
    requires OrderedAs(pair, slot, commit, first, second)
    requires LinkFromCommits(first, second, now) == Ok(link)
    ensures Lookup(At(h, at + 1).pairs, pair.pairId) == Some(Filled(pair, slot, commit, PairActive))
    ensures Lookup(At(h, at + 1).links, commit.linkId) == Some(link)
  {
    hide ValidRun, RouteInv, RouteEvolves, PairInv, PairEvolves, LogInv, QuotaInv, OwnSlot, Accepts, Upserted, Bumped;
    RunSteps(h, events, at);
    TablesEvolve(h, events, atPair, at);
    HalfPairAgrees(At(h, atPair), At(h, at), pair.pairId, slot);
  }

  predicate OrderedAs(pair: Pair, slot: Slot, commit: PairCommit, first: PairCommit, second: PairCommit) {
    Commit(pair, OtherSlot(slot)).Some? && Ordered(pair, slot, commit) == (first, second)
  }

  lemma HalfPairAgrees(a: Db, db: Db, pairId: Id, slot: Slot)
    requires PairInv(a) && PairInv(db) && PairEvolves(a, db)
    requires PairRead(a, pairId) && InStatus(db, pairId, PairHalf) && Commit(db.pairs[pairId], slot).None?
    requires Commit(a.pairs[pairId], slot).None? && Commit(a.pairs[pairId], OtherSlot(slot)).Some?
    requires a.pairs[pairId].status == PairReady || a.pairs[pairId].status == PairHalf
    ensures a.pairs[pairId] == db.pairs[pairId]
  {
    assert PairOk(db, pairId);
    hide PairInv, PairEvolves;
    StalePairAgrees(a, db, pairId, slot);
  }

  /** An ACTIVE pair's link is stored, then and ever after. */
  lemma ActiveHasLink(h: seq<Db>, events: seq<Event>, i: nat, j: nat, pairId: Id, commit: PairCommit)
    requires ValidRun(h, events) && i <= j < |h| && InStatus(At(h, i), pairId, PairActive)
    requires HoldsCommit(At(h, i), pairId, commit)
    ensures commit.linkId in At(h, j).links
  {
    hide ValidRun, RouteInv, PairInv, PairEvolves, LogInv, QuotaInv;
    TablesEvolve(h, events, i, j);
    ActiveLinkIsStored(At(h, i), pairId, commit);
  }

  lemma ActiveLinkIsStored(db: Db, pairId: Id, commit: PairCommit)
    requires LogInv(db) && InStatus(db, pairId, PairActive) && HoldsCommit(db, pairId, commit)
    ensures commit.linkId in db.links
  {
    assert pairId in LogPairs(db.activations);
    var n :| 0 <= n < |db.activations| && db.activations[n].pairId == pairId;
    assert ActivationOk(db, db.activations[n]);
  }

  /** A refusal by a quota says that the quota was used up. */
  lemma QuotaRefused(db: Db, key: RateKey, limit: int)
    ensures !Holds(RateUpdate(key, limit), db) ==> limit <= Count(db, key)
  {
  }

  ghost predicate CommitAnswer(h: seq<Db>, events: seq<Event>, from: nat, r: Result<CommitPairResult>, at: nat,
                               pairId: Id, commit: PairCommit, sourceKey: Id, now: int)
  {
    && at < |h|
    && match r
       case Ok(CommitPairResult(pair, link, activatedNow)) =>
         && Lookup(At(h, at).pairs, pairId) == Some(pair) && Some(commit) in {pair.commitA, pair.commitB}
         && (link.Some? <==> pair.status == PairActive)
         && (link.Some? ==> exists k: nat :: at <= k < |h| && Lookup(At(h, k).links, commit.linkId) == link)
         && (activatedNow ==>
               && from < at && StepAt(events, at - 1).CommitFull?
               && FillsWith(StepAt(events, at - 1), pairId, commit)
               && link.Some? && Lookup(At(h, at).links, commit.linkId) == link)
       case Err(RateLimited, retryable) =>
         && !retryable
         && (|| At(h, at).activationLimit <= Count(At(h, at), HourKey(sourceKey, now))
             || 10_000 <= Count(At(h, at), DayKey(now)))
       case Err(code, retryable) =>
         if retryable then code == Conflict || code == Internal
         else CommitRefusal(At(h, at), pairId, commit, now) == Some(code)
  }

  /** The pair has the sides of the one stored. */
  predicate SameSides(db: Db, pairId: Id, pair: Pair) {
    pairId in db.pairs && db.pairs[pairId].sideA == pair.sideA && db.pairs[pairId].sideB == pair.sideB
  }

  predicate MayCancel(db: Db, pairId: Id, connectionId: Id, now: int) {
    && pairId in db.pairs && now < db.pairs[pairId].expiresAt
    && IsMember(db.pairs[pairId], connectionId) && Pending(db.pairs[pairId].status)
  }

  lemma CancelRefused(db: Db, pairId: Id)
    requires !AllHold([ClosePair(pairId, ABSENT)], db)
    ensures InStatus(db, pairId, PairActive)
  {
  }

  ghost predicate CancelAnswer(h: seq<Db>, from: nat, r: Result<Option<Pair>>, at: nat, pairId: Id, connectionId: Id,
                               now: int)
  {
    && from <= at + 1 && at < |h|
    && match r
       case Ok(Some(pair)) =>
         && pair.status == PairClosed && pair.pairId == pairId && InStatus(At(h, at), pairId, PairClosed)
         && (exists k: nat :: from <= k + 1 && k <= at && SameSides(At(h, k), pairId, pair))
         && (|| IsMember(pair, connectionId)
             || (PairRead(At(h, at), pairId) && Lookup(At(h, at).pairs, pairId) == Some(pair)))
       case Ok(None) => OutOfTime(At(h, at), pairId, now)
       case Err(Conflict, retryable) => !retryable && InStatus(At(h, at), pairId, PairActive)
       case Err(code, retryable) =>
         if retryable then code == Internal
         else && !OutOfTime(At(h, at), pairId, now)
              && (PairRead(At(h, at), pairId) ==> !HasMember(At(h, at), pairId, connectionId))
  }

  lemma NotOpenCannotJoin(db: Db, pairId: Id, door: AdmissionKey, connectionId: Id, now: int)
    requires pairId in db.pairs && (db.pairs[pairId].status != PairOpen || db.pairs[pairId].sideB.Some?)
    ensures CannotJoin(db, pairId, door, connectionId, now)
  {
  }

  // ----- connections and rates

  predicate AnyInTime(c: Option<Connection>, now: int) { c.Some? && now < c.value.expiresAt }

  predicate HasCredential(db: Db, endpointId: Id, credentialHash: Id) {
    endpointId in db.endpoints && db.endpoints[endpointId].credentialHash == credentialHash
  }

  const MINUTE := 60

  function MinuteKey(sourceKey: Id, action: nat, now: int): RateKey {
    RateKey(FromSource(sourceKey), OtherAction(action), now / MINUTE)
  }

  /** The step charges this record for one more, within this limit; the record is kept until its minute and the next
      are over. */
  predicate ChargesFor(e: Event, key: RateKey, limit: int) {
    match e
    case Charge(rate, l, expiresAt) => rate == key && l == limit && expiresAt == (key.bucket + 2) * 60
    case _ => false
  }

  ghost predicate RateAnswer(h: seq<Db>, from: nat, r: Result<()>, at: nat, key: RateKey, limit: int) {
    match r
    case Ok(_) =>
      && from <= at && at + 1 < |h| && (Count(At(h, at), key) < limit || Count(At(h, at), key) == 0)
      && Count(At(h, at + 1), key) == Count(At(h, at), key) + 1
    case Err(RateLimited, retryable) => retryable && at < |h| && limit <= Count(At(h, at), key)
    case Err(code, retryable) => code == Internal && retryable
  }

  // ----- an invocation that runs alone

  /** The pointers to a session are gone from a link and its two ends, and nothing else that an open
      looks at has changed. */
  ghost predicate Cleared(db: Db, after: Db, id: Id, link: Link) {
    && after.now == db.now && after.seenSessions == db.seenSessions
    && (link.linkId in db.links ==>
          Lookup(after.links, link.linkId) == Some(ClearedLink(db.links[link.linkId], id)))
    && (forall e :: e in {link.controllerId, link.companionId} && e in db.endpoints ==>
          Lookup(after.endpoints, e) == Some(ClearedEndpoint(db.endpoints[e], id)))
    && (forall other :: other != id ==> Lookup(after.sessions, other) == Lookup(db.sessions, other))
  }

  lemma CloseClears(db: Db, id: Id, now: int, link: Link)
    requires Inv(db) && id in db.sessions
    ensures Cleared(db, SpecClose(db, id, now), id, link)
  {
    hide PairInv, LogInv, QuotaInv;
    ClosingClearsEveryPointer(db, id, now);
    hide RouteInv;
  }

  lemma FreshCloseHolds(db: Db, s: Session, now: int, fence: Fence)
    requires Lookup(db.sessions, s.sessionId) == Some(s) && s.sessionId != ABSENT && FenceFound(db, s, fence)
    ensures AllHold(Tail(Reads(db, db, db, db), s, now, {}, fence), db)
  {
    hide AllHold, Tail;
    FreshTransitionHolds(db, s, now, {}, fence);
  }

  lemma RepairClears(h: seq<Db>, events: seq<Event>, at: nat, sessionId: Id, link: Link, now: int, atLink: nat,
                     atPointer: nat, t: TailReads)
    requires ValidRun(h, events) && at < |events| && LinkStands(At(h, at), link)
    requires StepAt(events, at) == Repair(sessionId, link.linkId, now, atLink, atPointer, t)
    ensures Cleared(At(h, at), At(h, at + 1), sessionId, link)
  {
    hide ValidRun;
    RunLeaves(h, events, at);
  }

  /** A transition whose reads are all of the table it commits to meets every one of its conditions. */
  lemma FreshTransitionHolds(db: Db, s: Session, now: int, omit: set<Item>, fence: Fence)
    requires s.sessionId != ABSENT
    requires s.status == SessionActive ==> IsActive(db, s.sessionId)
    requires fence.Fence? ==> CurrentCaller(db, fence.endpointId, fence.connectionId)
    ensures AllHold(Tail(Reads(db, db, db, db), s, now, omit, fence), db)
  {
    var link, controller, companion := Lookup(db.links, s.linkId), Lookup(db.endpoints, s.controllerId),
        Lookup(db.endpoints, s.companionId);
    var clears, clearsOther := ClearsController(s, controller, omit), ClearsCompanion(s, companion, omit);
    var points, alone := LinkItem(s.linkId) !in omit && LinkPoints(link, s.sessionId),
        FencesAlone(s, controller, companion, omit, fence);
    var w1, w2 := EndSession(s.sessionId, now), ClearLink(s.linkId, s.sessionId);
    var w3 := ClearEndpoint(s.controllerId, s.sessionId, FenceOn(fence, s.controllerId));
    var w4 := ClearEndpoint(s.companionId, s.sessionId, FenceOn(fence, s.companionId));
    var w5 := FenceCheck(fence);
    assert (points ==> Holds(w2, db)) && (clears ==> Holds(w3, db)) && (clearsOther ==> Holds(w4, db))
           && (alone ==> Holds(w5, db));
    var five := Opt(alone, w5);
    var four := Opt(clearsOther, w4) + five;
    var three := Opt(clears, w3) + four;
    var two := Opt(points, w2) + three;
    hide AllHold, Holds;
    OptAllHold(db, alone, w5, []);
    assert Opt(alone, w5) + [] == five;
    OptAllHold(db, clearsOther, w4, five);
    OptAllHold(db, clears, w3, four);
    OptAllHold(db, points, w2, three);
    OptAllHold(db, s.status == SessionActive, w1, two);
  }

  lemma OptAllHold(db: Db, condition: bool, w: Write, rest: seq<Write>)
    requires condition ==> Holds(w, db)
    ensures AllHold(rest, db) || rest == [] ==> AllHold(Opt(condition, w) + rest, db)
  {
    hide Holds;
  }

  lemma ClearedIsTimely(before: seq<Db>, h: seq<Db>, sessionId: Id, link: Link, now: int)
    requires Timely(before, now) && Cleared(Last(before), Last(h), sessionId, link)
    ensures Timely(h, now)
  {
  }

  ghost predicate LiveSession(db: Db, id: Id, now: int) {
    IsActive(db, id) && now < db.sessions[id].expiresAt
  }

  ghost predicate LiveUntil(db: Db, id: Id, end: int) { IsActive(db, id) && db.sessions[id].expiresAt == end }

  /** Part of the pointers that the three records hold have been cleared, none of them to a live session. */
  ghost predicate PartlyCleared(db: Db, after: Db, r: Route, left: set<Id>, now: int) {
    && after.now == db.now && after.seenSessions == db.seenSessions
    && Lookup(after.links, r.link.linkId) == Some(WithoutLink(r.link, left))
    && Lookup(after.endpoints, r.link.controllerId) == Some(WithoutEndpoint(r.controller, left))
    && Lookup(after.endpoints, r.link.companionId) == Some(WithoutEndpoint(r.companion, left))
    && (forall id :: id in left ==> Lookup(after.sessions, id) == Lookup(db.sessions, id))
    && (forall id :: id in Pointers(r) - left ==> !LiveSession(db, id, now))
  }

  function WithoutLink(link: Link, left: set<Id>): Link {
    if link.activeSessionId in left then link else link.(activeSessionId := ABSENT)
  }

  function WithoutEndpoint(endpoint: Endpoint, left: set<Id>): Endpoint {
    if endpoint.activeSessionId in left then endpoint else endpoint.(activeSessionId := ABSENT)
  }

  predicate RouteStored(db: Db, r: Route) {
    && Lookup(db.links, r.link.linkId) == Some(r.link)
    && Lookup(db.endpoints, r.link.controllerId) == Some(r.controller)
    && Lookup(db.endpoints, r.link.companionId) == Some(r.companion)
  }

  lemma NothingClearedYet(db: Db, r: Route, now: int)
    requires RouteStored(db, r)
    ensures PartlyCleared(db, db, r, Pointers(r), now)
  {
  }

  lemma ClearedOneMore(db: Db, before: Db, after: Db, r: Route, left: set<Id>, id: Id, now: int)
    requires PartlyCleared(db, before, r, left, now) && id in left && id != ABSENT
    requires Cleared(before, after, id, r.link) && !LiveSession(db, id, now)
    ensures PartlyCleared(db, after, r, left - {id}, now)
  {
    hide LiveSession;
  }

  /** One of the three records points at a session that is ACTIVE and not yet expired. */
  ghost predicate Blocked(db: Db, r: Route, now: int) {
    exists id :: id in Pointers(r) && LiveSession(db, id, now)
  }

  /** How the table alone answers an open, None meaning that it is granted. */
  ghost function OpenAlone(db: Db, linkId: Id, endpointId: Id, connectionId: Id, now: int): Option<Denial> {
    if !OpensBy(db, linkId, endpointId) then Some(Denial(Forbidden, false))
    else
      var link := db.links[linkId];
      if link.controllerId !in db.endpoints || link.companionId !in db.endpoints
      then Some(Denial(Unauthenticated, false))
      else
        var r := Route(link, db.endpoints[link.controllerId], db.endpoints[link.companionId]);
        if Blocked(db, r, now) then Some(Denial(PeerBusy, true)) else Refusal(r.controller, r.companion, connectionId)
  }

  /** Why an open is refused on a route that nothing holds. */
  function Refusal(controller: Endpoint, companion: Endpoint, connectionId: Id): Option<Denial> {
    if controller.revokedAt != 0 || controller.connectionId != connectionId then Some(Denial(Unauthenticated, false))
    else if companion.revokedAt != 0 || companion.connectionId == ABSENT || companion.connectionId == connectionId
    then Some(Denial(PeerOffline, true))
    else None
  }

  /** With every stale pointer cleared, the table answers as before. */
  lemma ClearedAnswersSame(db: Db, after: Db, r: Route, endpointId: Id, connectionId: Id, now: int)
    requires RouteStored(db, r) && PartlyCleared(db, after, r, {}, now)
    ensures OpenAlone(after, r.link.linkId, endpointId, connectionId, now)
            == OpenAlone(db, r.link.linkId, endpointId, connectionId, now)
    ensures NoPointers(after, r.link.linkId) && after.seenSessions == db.seenSessions
    ensures Pointers(r) != {} ==> !NoPointers(db, r.link.linkId)
  {
    hide LiveSession;
  }

  ghost predicate NoPointers(db: Db, linkId: Id) {
    && linkId in db.links && db.links[linkId].activeSessionId == ABSENT
    && var link := db.links[linkId];
    && (link.controllerId in db.endpoints ==> db.endpoints[link.controllerId].activeSessionId == ABSENT)
    && (link.companionId in db.endpoints ==> db.endpoints[link.companionId].activeSessionId == ABSENT)
  }

  /** With fresh reads and nothing in the way, an open under a new ID meets its conditions. */
  lemma FreshOpenHolds(db: Db, r: Route, connectionId: Id, sessionId: Id, now: int)
    requires Inv(db) && sessionId !in db.seenSessions && RouteStored(db, r) && MayOpen(r, connectionId)
    requires r.controller.endpointId == r.link.controllerId && r.companion.endpointId == r.link.companionId
    requires connectionId != ABSENT
    ensures AllHold(OpenWrites(NewSession(r.link, r.controller, r.companion, connectionId, sessionId, now)), db)
  {
    hide PairInv, LogInv, QuotaInv;
    assert sessionId in db.sessions ==> SessionOk(db, sessionId);
    hide RouteInv, SessionOk;
  }

  /** The link is ACTIVE and the endpoint is its controller. */
  predicate OpensBy(db: Db, linkId: Id, endpointId: Id) {
    linkId in db.links && db.links[linkId].status == LinkActive && db.links[linkId].controllerId == endpointId
  }

  /** The companion of the link is revoked, not connected, or on the caller's own connection. */
  predicate CompanionIsOff(db: Db, linkId: Id, connectionId: Id) {
    && linkId in db.links && db.links[linkId].companionId in db.endpoints
    && var companion := db.endpoints[db.links[linkId].companionId];
    companion.revokedAt != 0 || companion.connectionId == ABSENT || companion.connectionId == connectionId
  }

  /** The link is stored with the same two ends, and so are they. */
  predicate LinkStands(db: Db, link: Link) {
    && link.linkId in db.links
    && db.links[link.linkId].controllerId == link.controllerId && db.links[link.linkId].companionId == link.companionId
    && link.controllerId in db.endpoints && link.companionId in db.endpoints
  }

  /** A link is never deleted, and its two ends stay the same. */
  lemma LinkStandsLater(h: seq<Db>, events: seq<Event>, i: nat, j: nat, link: Link)
    requires ValidRun(h, events) && i <= j < |h| && Lookup(At(h, i).links, link.linkId) == Some(link)
    ensures LinkStands(At(h, j), link)
  {
    hide ValidRun, PairInv, PairEvolves, LogInv, QuotaInv;
    TablesEvolve(h, events, i, j);
    assert LinkEvolves(At(h, i), At(h, j), link.linkId) && LinkOk(At(h, j), link.linkId);
  }

  lemma PartlyClearedKeeps(db: Db, after: Db, r: Route, left: set<Id>, id: Id, now: int)
    requires PartlyCleared(db, after, r, left, now) && id in left
    ensures LiveSession(after, id, now) <==> LiveSession(db, id, now)
    ensures LinkStands(after, r.link)
  {
  }

  lemma NoneWasLive(db: Db, after: Db, r: Route, now: int)
    requires PartlyCleared(db, after, r, {}, now)
    ensures forall id :: id in Pointers(r) ==> !LiveSession(db, id, now)
  {
    hide LiveSession;
  }

  /** The answer of the table to an open on this route. */
  lemma ByTheTable(db: Db, r: Route, endpointId: Id, connectionId: Id, now: int)
    requires RouteStored(db, r) && OpensBy(db, r.link.linkId, endpointId)
    ensures OpenAlone(db, r.link.linkId, endpointId, connectionId, now)
            == if Blocked(db, r, now) then Some(Denial(PeerBusy, true))
               else Refusal(r.controller, r.companion, connectionId)
  {
    hide Blocked;
  }

  /** What an open that is refused has to go by, on table `at`. */
  ghost predicate Refuses(h: seq<Db>, at: nat, code: ErrorCode, linkId: Id, endpointId: Id, connectionId: Id,
                          now: int)
  {
    match code
    case Forbidden => at < |h| && !OpensBy(At(h, at), linkId, endpointId)
    case Unauthenticated => at < |h| && !CurrentCaller(At(h, at), endpointId, connectionId)
    case PeerOffline => at < |h| && CompanionIsOff(At(h, at), linkId, connectionId)
    case PeerBusy => at < |h| && exists id :: LiveSession(At(h, at), id, now)
    case Conflict => true
    case Internal => true
    case _ => false
  }

  /** Whether the caller may try again after an open is refused. */
  predicate WorthRetrying(code: ErrorCode) { code != Forbidden && code != Unauthenticated }

  ghost predicate OpenAnswer(h: seq<Db>, events: seq<Event>, from: nat, r: Result<Session>, at: nat, linkId: Id,
                             endpointId: Id, connectionId: Id, sessionId: Id, now: int)
  {
    match r
    case Ok(s) =>
      && from <= at && Opened(h, events, at, s)
      && s.sessionId == sessionId && s.linkId == linkId && s.controllerId == endpointId
      && s.controllerConnectionId == connectionId && s.createdAt == now
      && LiveUntil(At(h, at + 1), sessionId, now + 7_200)
    case Err(code, retryable) =>
      Refuses(h, at, code, linkId, endpointId, connectionId, now) && retryable == WorthRetrying(code)
  }

  lemma ForbiddenByTheTable(db: Db, linkId: Id, endpointId: Id, connectionId: Id, now: int)
    requires !OpensBy(db, linkId, endpointId)
    ensures OpenAlone(db, linkId, endpointId, connectionId, now) == Some(Denial(Forbidden, false))
  {
  }

  lemma BlockedIsLive(db: Db, r: Route, now: int)
    requires Blocked(db, r, now)
    ensures exists id :: LiveSession(db, id, now)
  {
    hide LiveSession;
  }

  lemma NoPointerIsHeld(r: Route)
    requires Pointers(r) == {}
    ensures r.link.activeSessionId == r.controller.activeSessionId == r.companion.activeSessionId == ABSENT
  {
    assert r.link.activeSessionId !in Pointers(r) && r.controller.activeSessionId !in Pointers(r)
           && r.companion.activeSessionId !in Pointers(r);
  }

  /** An answer by a run is one from any earlier start of it. */
  lemma LaterOpens(h: seq<Db>, events: seq<Event>, from: nat, later: nat, r: Result<Session>, at: nat, linkId: Id,
                   endpointId: Id, connectionId: Id, sessionId: Id, now: int)
    requires from <= later && OpenAnswer(h, events, later, r, at, linkId, endpointId, connectionId, sessionId, now)
    ensures OpenAnswer(h, events, from, r, at, linkId, endpointId, connectionId, sessionId, now)
  {
    hide Opened, Refuses;
  }

  /** The result is what the table alone answers. */
  predicate AnswersAs<T>(r: Result<T>, answer: Option<Denial>) {
    match answer
    case None => r.Ok?
    case Some(Denial(code, retryable)) => r.Err? && r.code == code && r.retryable == retryable
  }
}
