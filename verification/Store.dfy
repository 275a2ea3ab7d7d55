/** The store's operations as store.go runs them: one strongly consistent read at a time, then one
    conditional transaction.  Between any two of these, other invocations may do anything they like. */
module RelayStore {
  import opened Records
  import opened Table
  import opened Routing
  import opened Transitions
  import opened Specs
  import opened Plans
  import opened Refinement
  import opened Pairing
  import opened ActivationStep
  import opened Runs
  import opened Steps
  import opened Atomicity
  import opened RouteTheorems
  import opened StoreSteps
  import opened Alone

  class Store {
    /** Every table since the start, the stored one last, and the steps between them. */
    var tables: seq<Db>
    var events: seq<Event>
    /** Whether nobody else is at work. */
    const alone: bool
    /** The steps that operations of this store ran, as against those of others. */
    ghost var mine: seq<nat>

    ghost predicate Valid()
      reads this
    {
      ValidRun(tables, events)
    }

    /** The run has gone on from a shorter one. */
    ghost predicate Extends(t: seq<Db>, e: seq<Event>)
      reads this
    {
      Valid() && Prefix(t, tables) && Prefix(e, events)
    }

    ghost predicate Quiet(t: seq<Db>, e: seq<Event>)
      reads this
    {
      alone ==> tables == t && events == e
    }

    /** The run has gone on, by steps of others, to the table that was read last. */
    ghost predicate HasRead(t: seq<Db>, e: seq<Event>, m: seq<nat>, at: nat)
      reads this
    {
      Extends(t, e) && |t| <= at + 1 == |tables| && Quiet(t, e) && mine == m
    }

    /** None of the steps that operations of this store ran since has opened a session. */
    ghost predicate OpenedNothing(m: seq<nat>)
      reads this
    {
      Prefix(m, mine)
      && forall i :: |m| <= i < |mine| ==> mine[i] < |events| && !StepAt(events, mine[i]).OpenSession?
    }

    /** The last of those steps has, and it alone. */
    ghost predicate OpenedOnly(m: seq<nat>, at: nat)
      reads this
    {
      && |m| < |mine| && Prefix(m, mine) && mine[|mine| - 1] == at
      && forall i :: |m| <= i < |mine| - 1 ==> mine[i] < |events| && !StepAt(events, mine[i]).OpenSession?
    }

    /** Nobody else is at work, and the invocation has just taken its clock reading. */
    ghost predicate Alone(now: int)
      reads this
    {
      alone && Timely(tables, now)
    }

    /** What comes of one attempt at a transaction: it is not carried out only if the time of the invocation is
        over. */
    ghost predicate Tried(outcome: Outcome, at: nat, t: seq<Db>, e: seq<Event>, m: seq<nat>, now: int)
      reads this
    {
      && Extends(t, e) && |e| <= at && mine == (if outcome.Done? then m + [at] else m)
      && (outcome.Done? && alone ==> at == |e|) && (!outcome.Done? ==> Quiet(t, e))
      && (outcome.TimedOut? ==> !Timely(tables, now))
    }

    /** And it is refused only if another's step has come since its first read, which was of table `first`. */
    ghost predicate Attempted(outcome: Outcome, at: nat, t: seq<Db>, e: seq<Event>, m: seq<nat>, first: nat, now: int)
      reads this
    {
      Tried(outcome, at, t, e, m, now) && first <= at && (outcome.Refused? ==> first + 1 < |tables|)
    }

    /** Why a request may fail for no fault of its own: others' steps have overtaken each of its attempts, or its
        time is over. */
    ghost predicate Overtaken(e: seq<Event>, code: ErrorCode, now: int)
      reads this
    {
      (code == Conflict && |e| + 5 <= |events|) || (code == Internal && !Timely(tables, now))
    }

    /** The same for a commit, which is tried once: besides, its link or an endpoint may be taken, or its source
        unknown. */
    ghost predicate CommitHindered(e: seq<Event>, code: ErrorCode, pairId: Id, commit: PairCommit, sourceKey: Id,
                                   now: int)
      reads this
    {
      || (code == Conflict && (|e| < |events| || Unpairable(Last(tables), pairId, commit)))
      || (code == Internal && (!Timely(tables, now) || sourceKey == ABSENT))
    }

    constructor (db: Db, alone: bool)
      requires Empty(db)
      ensures Valid() && tables == [db] && events == [] && this.alone == alone
    {
      tables, events := [db], [];
      this.alone := alone;
      mine := [];
    }

    /** Any number of other invocations, of TTL deletions and of clock ticks. */
    method Interleave()
      requires Valid()
      modifies this
      ensures Extends(old(tables), old(events)) && Quiet(old(tables), old(events)) && mine == old(mine)
    {
      var moreTables: seq<Db> := *;
      var moreEvents: seq<Event> := *;
      var longer, steps := tables + moreTables, events + moreEvents;
      if !alone && ValidRun(longer, steps) {
        tables, events := longer, steps;
      }
    }

    method GetConnection(id: Id) returns (r: Option<Connection>, at: nat)
      requires Valid()
      modifies this
      ensures HasRead(old(tables), old(events), old(mine), at) && r == Lookup(At(tables, at).connections, id)
    {
      hide ValidRun;
      RunSize(tables, events);
      Interleave();
      RunSize(tables, events);
      at := |tables| - 1;
      r := Lookup(tables[at].connections, id);
    }

    method GetEndpoint(id: Id) returns (r: Option<Endpoint>, at: nat)
      requires Valid()
      modifies this
      ensures HasRead(old(tables), old(events), old(mine), at) && r == Lookup(At(tables, at).endpoints, id)
    {
      hide ValidRun;
      RunSize(tables, events);
      Interleave();
      RunSize(tables, events);
      at := |tables| - 1;
      r := Lookup(tables[at].endpoints, id);
    }

    method GetLink(id: Id) returns (r: Option<Link>, at: nat)
      requires Valid()
      modifies this
      ensures HasRead(old(tables), old(events), old(mine), at) && r == Lookup(At(tables, at).links, id)
    {
      hide ValidRun;
      RunSize(tables, events);
      Interleave();
      RunSize(tables, events);
      at := |tables| - 1;
      r := Lookup(tables[at].links, id);
    }

    method GetSession(id: Id) returns (r: Option<Session>, at: nat)
      requires Valid()
      modifies this
      ensures HasRead(old(tables), old(events), old(mine), at) && r == Lookup(At(tables, at).sessions, id)
    {
      hide ValidRun;
      RunSize(tables, events);
      Interleave();
      RunSize(tables, events);
      at := |tables| - 1;
      r := Lookup(tables[at].sessions, id);
    }

    method GetPair(id: Id) returns (r: Option<Pair>, at: nat)
      requires Valid()
      modifies this
      ensures HasRead(old(tables), old(events), old(mine), at) && r == Lookup(At(tables, at).pairs, id)
    {
      hide ValidRun;
      RunSize(tables, events);
      Interleave();
      RunSize(tables, events);
      at := |tables| - 1;
      r := Lookup(tables[at].pairs, id);
    }

    /** TransactWriteItems: all of the writes in one step, or none of them. */
    method Transact(e: Event, ws: seq<Write>) returns (outcome: Outcome, ghost at: nat)
      requires Valid() && Leads(tables, e, ws)
      modifies this
      ensures Extends(old(tables), old(events)) && |old(events)| <= at && |old(tables)| <= at + 1
      ensures outcome.Done? ==> at + 1 == |events| && |tables| == at + 2 && Ran(tables, events, at, e, ws)
                                && AllHold(ws, At(tables, at))
      ensures outcome.Done? && alone ==> at == |old(events)|
      ensures mine == if outcome.Done? then old(mine) + [at] else old(mine)
      ensures !outcome.Done? ==> at + 1 == |tables| && Quiet(old(tables), old(events))
      ensures outcome.TimedOut? ==> Clock(e).Some? && !Timely(tables, Clock(e).value)
      ensures outcome.Refused? ==> !AllHold(ws, At(tables, at)) && outcome == Refused(Verdicts(ws, At(tables, at)))
    {
      hide ValidRun, ReadsLead, Writes, Holds, DistinctTargets, Apply, Timely, Clock;
      RunSize(tables, events);
      Interleave();
      RunSize(tables, events);
      at := |tables| - 1;
      ReadyToCommit(old(tables), tables, events, e);
      if !OnTime(tables, e) {
        return TimedOut, at;
      }
      var db := tables[|tables| - 1];
      if !(forall w :: w in ws ==> Holds(w, db)) {
        return Refused(Verdicts(ws, db)), at;
      }
      RunGrows(tables, events, e);
      tables, events := tables + [Apply(db, ws)], events + [e];
      mine := mine + [at];
      return Done, at;
    }

    // ----- sessions

    /** The caller's own endpoint, if its connection is current. */
    method CurrentEndpoint(endpointId: Id, connectionId: Id) returns (r: Result<Endpoint>, at: nat)
      requires Valid()
      modifies this
      ensures HasRead(old(tables), old(events), old(mine), at)
      ensures r.Ok? <==> CurrentCaller(At(tables, at), endpointId, connectionId)
      ensures r.Ok? ==> r.ToOption() == Lookup(At(tables, at).endpoints, endpointId)
      ensures r.Err? ==> r == Err(Unauthenticated, false)
    {
      hide ValidRun;
      RunSize(tables, events);
      if endpointId == ABSENT || connectionId == ABSENT {
        return Err(Unauthenticated, false), |tables| - 1;
      }
      var endpoint, k := GetEndpoint(endpointId);
      if endpoint.None? || endpoint.value.revokedAt != 0 || endpoint.value.connectionId != connectionId {
        return Err(Unauthenticated, false), k;
      }
      return Ok(endpoint.value), k;
    }

    /** One endpoint of the session being closed: if it points at the session, its pointer goes, and the
        caller's fence with it. */
    method EndpointPointer(endpointId: Id, sessionId: Id, omit: set<Item>, fence: Fence)
        returns (ops: seq<Write>, fenced: bool, at: nat)
      requires Valid()
      modifies this
      ensures HasRead(old(tables), old(events), old(mine), at)
      ensures PointerOps(ops, fenced, endpointId, Lookup(At(tables, at).endpoints, endpointId), sessionId, omit, fence)
    {
      hide ValidRun;
      RunSize(tables, events);
      ops, fenced, at := [], false, |tables| - 1;
      if endpointId == ABSENT || EndpointItem(endpointId) in omit {
        return;
      }
      var endpoint;
      endpoint, at := GetEndpoint(endpointId);
      if endpoint.Some? && endpoint.value.activeSessionId == sessionId {
        fenced := FenceOn(fence, endpointId) != ABSENT;
        ops := [ClearEndpoint(endpointId, sessionId, FenceOn(fence, endpointId))];
      }
    }

    /** The operations of transactSessionTransition, after the caller's own. */
    method TransitionOperations(session: Session, now: int, prefix: seq<Write>, omit: set<Item>, fence: Fence,
                                from: nat)
        returns (ops: seq<Write>, t: TailReads)
      requires Valid() && from < |tables|
      modifies this
      ensures Extends(old(tables), old(events)) && Quiet(old(tables), old(events)) && mine == old(mine)
      ensures TailInOrder(tables, from, t) && t.session == from && |old(tables)| <= t.link + 1
      ensures ops == prefix + Tail(ReadsAt(tables, t), session, now, omit, fence)
    {
      hide ValidRun, TransitionWrites, FenceCheck, Opt, PointerOps;
      RunSize(tables, events);
      ops := prefix + Opt(session.status == SessionActive, EndSession(session.sessionId, now));
      var atLink := |tables| - 1;
      var clears := false;
      if LinkItem(session.linkId) !in omit {
        var link;
        link, atLink := GetLink(session.linkId);
        clears := link.Some? && link.value.activeSessionId == session.sessionId;
      }
      ops := ops + Opt(clears, ClearLink(session.linkId, session.sessionId));
      var first, firstFenced, atController := EndpointPointer(session.controllerId, session.sessionId, omit, fence);
      ops := ops + first;
      var second, secondFenced, atCompanion := EndpointPointer(session.companionId, session.sessionId, omit, fence);
      ops := ops + second;
      t := TailReads(from, atLink, atController, atCompanion);
      var fenced := fence.Fence? && ((firstFenced && fence.endpointId == session.controllerId)
                                     || (secondFenced && fence.endpointId == session.companionId));
      ops := ops + Opt(fence.Fence? && fence.connectionId != ABSENT && !fenced
                       && EndpointItem(fence.endpointId) !in omit,
                       FenceCheck(fence));
      OperationsAreTransition(prefix, session, Lookup(At(tables, atLink).links, session.linkId),
                              Lookup(At(tables, atController).endpoints, session.controllerId),
                              Lookup(At(tables, atCompanion).endpoints, session.companionId), now, omit, fence, clears,
                              first, firstFenced, second, secondFenced, fenced);
    }

    method CloseSession(sessionId: Id, endpointId: Id, connectionId: Id, now: int)
        returns (r: Result<Option<CloseResult>>, ghost at: nat)
      requires Valid() && sessionId != ABSENT
      modifies this
      ensures Extends(old(tables), old(events))
      ensures CloseAnswer(tables, events, |old(events)|, r, at, sessionId, endpointId, connectionId, now)
      ensures mine == if r.Ok? && r.value.Some? then old(mine) + [at] else old(mine)
      ensures OpenedNothing(old(mine))
      ensures r.Err? && r.retryable ==> Overtaken(old(events), r.code, now)
      ensures old(Alone(now)) ==>
                && AnswersAs(r, CloseAlone(Last(old(tables)), sessionId, endpointId, connectionId))
                && (r.Ok? ==> (r.value.Some? <==> sessionId in Last(old(tables)).sessions))
                && (r.Ok? && r.value.Some? ==>
                      |tables| == |old(tables)| + 1 && Last(tables) == SpecClose(Last(old(tables)), sessionId, now))
    {
      hide ValidRun, Reports, StaysClosed, SpecClose, CurrentCaller, IsActive;
      RunSize(tables, events);
      at := 0;
      var fence := FenceOf(endpointId, connectionId);
      ghost var alone := Alone(now);
      for attempt := 0 to ATTEMPTS
        invariant Extends(old(tables), old(events)) && mine == old(mine) && |old(events)| + attempt <= |events|
        invariant alone ==> attempt == 0 && tables == old(tables) && events == old(events)
      {
        RunSize(tables, events);
        var atCaller := |tables| - 1;
        if endpointId != ABSENT {
          var caller;
          caller, atCaller := CurrentEndpoint(endpointId, connectionId);
          if caller.Err? {
            return Err(caller.code, caller.retryable), atCaller;
          }
        } else if connectionId != ABSENT {
          assert !CurrentCaller(At(tables, atCaller), ABSENT, connectionId) by { NobodyIsAbsent(tables, connectionId); }
          return Err(Unauthenticated, false), atCaller;
        }
        var session, atSession := GetSession(sessionId);
        if session.None? {
          return Ok(None), atSession;
        }
        if endpointId != ABSENT && !OnSession(session.value, endpointId) {
          return Err(Forbidden, false), atSession;
        }
        var outcome, result, k := TransactClose(sessionId, session.value, now, fence, atCaller, atSession);
        if outcome.TimedOut? {
          return Err(Internal, true), k;
        }
        if outcome.Done? {
          return Ok(Some(result)), k;
        }
        RunSize(tables, events);
      }
      return Err(Conflict, true), at;
    }

    /** The transaction of one attempt to close a session. */
    method TransactClose(sessionId: Id, session: Session, now: int, fence: Fence, atCaller: nat, atSession: nat)
        returns (outcome: Outcome, result: CloseResult, ghost at: nat)
      requires Valid() && atCaller <= atSession < |tables|
      requires Lookup(At(tables, atSession).sessions, sessionId) == Some(session)
      requires FenceFound(At(tables, atCaller), session, fence)
      modifies this
      ensures Attempted(outcome, at, old(tables), old(events), old(mine), atCaller, now)
      ensures outcome.Done? ==>
                && CloseRan(tables, events, |old(events)|, result, at, sessionId, fence, now)
                && !IsActive(Last(tables), sessionId)
                && |tables| == at + 2 && Last(tables) == SpecClose(At(tables, at), sessionId, now)
    {
      hide ValidRun, ReadsLead, Writes, Tail, CloseRan, SpecClose, AllHold, IsActive, FenceFound;
      RunSize(tables, events);
      TableIsKeyed(tables, events, atSession);
      ghost var before := tables;
      var ops, t := TransitionOperations(session, now, [], {}, fence, atSession);
      var e := Event.CloseSession(sessionId, fence, now, atCaller, t);
      assert [] + Tail(ReadsAt(tables, t), session, now, {}, fence)
             == Tail(ReadsAt(tables, t), session, now, {}, fence);
      CloseLeads(tables, session, sessionId, fence, now, atCaller, t);
      ghost var seen := tables;
      if atCaller + 1 == |tables| {
        SameFence(before, tables, session, fence, atCaller);
        FreshReads(tables, atCaller, t);
        FreshCloseHolds(Last(tables), session, now, fence);
      }
      outcome, at := Transact(e, ops);
      var closed := session.status == SessionActive;
      result := CloseResult(if closed then Closed(session, now) else session, closed);
      if outcome.Done? {
        CloseReported(tables, events, |old(events)|, at, session, fence, now, atCaller, t, seen, atSession, result);
      }
    }

    /** A session that is stored, ACTIVE and unexpired; an expired one is closed on the way. */
    method Session(sessionId: Id, now: int) returns (r: Result<Session>, ghost at: nat)
      requires Valid() && sessionId != ABSENT
      modifies this
      ensures Extends(old(tables), old(events))
      ensures SessionAnswer(tables, |old(tables)|, r, at, sessionId, now)
      ensures r.Ok? ==> Quiet(old(tables), old(events)) && mine == old(mine)
      ensures r.Err? && r.retryable ==> Overtaken(old(events), r.code, now)
      ensures old(Alone(now)) ==> AnswersAs(r, SessionAlone(Last(old(tables)), sessionId, now))
    {
      hide ValidRun, CloseRan, CurrentCaller, SpecClose;
      RunSize(tables, events);
      var session, k := GetSession(sessionId);
      at := k;
      if session.None? || session.value.status != SessionActive {
        return Err(SessionNotFound, false), at;
      }
      if session.value.expiresAt <= now {
        var closed, _ := CloseSession(sessionId, ABSENT, ABSENT, now);
        if closed.Err? {
          return Err(closed.code, closed.retryable), at;
        }
        return Err(SessionNotFound, false), at;
      }
      return Ok(session.value), at;
    }

    /** Clear the way for an open: false means that an unexpired ACTIVE session holds it. */
    method RepairStaleSession(sessionId: Id, link: Link, atLink: nat, atPointer: nat, now: int)
        returns (r: Result<bool>, ghost at: nat)
      requires Valid() && atLink <= atPointer < |tables|
      requires sessionId != ABSENT && Lookup(At(tables, atLink).links, link.linkId) == Some(link)
      requires PointerRead(At(tables, atPointer), link, sessionId)
      modifies this
      ensures Extends(old(tables), old(events)) && OpenedNothing(old(mine))
      ensures r == Ok(false) ==> at < |tables| && LiveSession(At(tables, at), sessionId, now)
      ensures r.Err? ==> r.retryable && Overtaken(old(events), r.code, now)
      ensures old(Alone(now)) && LinkStands(Last(old(tables)), link) ==>
                && r == Ok(!LiveSession(Last(old(tables)), sessionId, now))
                && (r == Ok(true) ==> Cleared(Last(old(tables)), Last(tables), sessionId, link) && Timely(tables, now))
                && (r == Ok(false) ==> tables == old(tables))
    {
      hide ValidRun, CloseRan, SpecClose, Cleared, PointerRead, Inv, LinkStands;
      var session, atSession := GetSession(sessionId);
      at := atSession;
      if session.Some? && session.value.status == SessionActive && session.value.expiresAt > now {
        return Ok(false), at;
      }
      if session.Some? {
        TableIsSound(tables, events, atSession);
        CloseClears(At(tables, atSession), sessionId, now, link);
        var closed, _ := CloseSession(sessionId, ABSENT, ABSENT, now);
        if old(Alone(now)) { ClearedIsTimely(old(tables), tables, sessionId, link, now); }
        return if closed.Err? then Err(closed.code, closed.retryable) else Ok(true), at;
      }
      var outcome := ClearVanished(sessionId, link, atLink, atPointer, atSession, now);
      if old(Alone(now)) && LinkStands(Last(old(tables)), link) {
        ClearedIsTimely(old(tables), tables, sessionId, link, now);
      }
      return if outcome.TimedOut? then Err(Internal, true) else Ok(true), at;
    }

    /** The transaction that takes away the pointers to a session whose record is gone. */
    method ClearVanished(sessionId: Id, link: Link, atLink: nat, atPointer: nat, atSession: nat, now: int)
        returns (outcome: Outcome)
      requires Valid() && atLink <= atPointer <= atSession < |tables|
      requires sessionId != ABSENT && Lookup(At(tables, atLink).links, link.linkId) == Some(link)
      requires PointerRead(At(tables, atPointer), link, sessionId) && sessionId !in At(tables, atSession).sessions
      modifies this
      ensures Extends(old(tables), old(events)) && OpenedNothing(old(mine))
      ensures outcome.TimedOut? ==> !Timely(tables, now)
      ensures old(Alone(now)) && atSession + 1 == |old(tables)| && LinkStands(Last(old(tables)), link) ==>
                outcome.Done? && Cleared(Last(old(tables)), Last(tables), sessionId, link)
    {
      hide ValidRun, ReadsLead, Writes, Tail, Cleared, PointerRead, AllHold, LinkStands;
      RunSize(tables, events);
      var vanished := Vanished(sessionId, link);
      var ops, t := TransitionOperations(vanished, now, [], {}, NoFence, atSession);
      var e := Event.Repair(sessionId, link.linkId, now, atLink, atPointer, t);
      assert [] + Tail(ReadsAt(tables, t), vanished, now, {}, NoFence)
             == Tail(ReadsAt(tables, t), vanished, now, {}, NoFence);
      RepairLeads(tables, sessionId, link, now, atLink, atPointer, t);
      FreshTransitionHolds(Last(tables), vanished, now, {}, NoFence);
      ghost var k;
      outcome, k := Transact(e, ops);
      if outcome.Done? && LinkStands(At(tables, k), link) {
        RepairClears(tables, events, k, sessionId, link, now, atLink, atPointer, t);
      }
    }

    /** Every stale pointer that the three records hold, in no particular order: true means that there was
        one, and the records are to be read again. */
    method RepairAll(route: Route, atLink: nat, atController: nat, atCompanion: nat, now: int)
        returns (r: Result<bool>, ghost at: nat)
      requires Valid() && RouteRead(tables, route, atLink, atController, atCompanion)
      modifies this
      ensures Extends(old(tables), old(events)) && OpenedNothing(old(mine))
      ensures r == Ok(false) ==> tables == old(tables) && events == old(events) && Pointers(route) == {}
      ensures r.Err? ==> (r.retryable && Overtaken(old(events), r.code, now))
                         || (r == Err(PeerBusy, true) && at < |tables| && Blocked(At(tables, at), route, now))
      ensures old(Alone(now)) && atLink == atController == atCompanion == |old(tables)| - 1 ==>
                && (r == Err(PeerBusy, true) <==> Blocked(Last(old(tables)), route, now))
                && (r != Err(PeerBusy, true) ==>
                      && r == Ok(Pointers(route) != {}) && Alone(now)
                      && PartlyCleared(Last(old(tables)), Last(tables), route, {}, now))
    {
      hide ValidRun, LiveSession, PartlyCleared;
      at := 0;
      ghost var alone := Alone(now) && atLink == atController == atCompanion == |tables| - 1;
      ghost var db := Last(tables);
      if alone { NothingClearedYet(db, route, now); }
      var stale := Pointers(route);
      var repaired := false;
      while stale != {}
        invariant Extends(old(tables), old(events)) && OpenedNothing(old(mine)) && stale <= Pointers(route)
        invariant !repaired ==> stale == Pointers(route) && tables == old(tables) && events == old(events)
        invariant repaired ==> Pointers(route) != {}
        invariant alone ==> Alone(now) && PartlyCleared(db, Last(tables), route, stale, now)
        decreases |stale|
      {
        var staleId :| staleId in stale;
        var repair, k := RepairOne(staleId, route, atLink, atController, atCompanion, now, db, stale);
        if repair.Err? {
          return Err(repair.code, repair.retryable), at;
        }
        if !repair.value {
          return Err(PeerBusy, true), k;
        }
        repaired := true;
        stale := stale - {staleId};
      }
      if alone { NoneWasLive(db, Last(tables), route, now); }
      return Ok(repaired), at;
    }

    /** One of those pointers, with the others in `left` still to be cleared. */
    method RepairOne(staleId: Id, route: Route, atLink: nat, atController: nat, atCompanion: nat, now: int,
                     ghost db: Db, ghost left: set<Id>)
        returns (r: Result<bool>, ghost at: nat)
      requires Valid() && RouteRead(tables, route, atLink, atController, atCompanion)
      requires staleId in left && left <= Pointers(route)
      modifies this
      ensures Extends(old(tables), old(events)) && OpenedNothing(old(mine))
      ensures r == Ok(false) ==> at < |tables| && LiveSession(At(tables, at), staleId, now)
      ensures r.Err? ==> r.retryable && Overtaken(old(events), r.code, now)
      ensures old(Alone(now)) && PartlyCleared(db, Last(old(tables)), route, left, now) ==>
                && r == Ok(!LiveSession(db, staleId, now))
                && (r == Ok(true) ==> Alone(now) && PartlyCleared(db, Last(tables), route, left - {staleId}, now))
    {
      hide ValidRun, LiveSession, PartlyCleared, Cleared;
      ghost var alone := Alone(now) && PartlyCleared(db, Last(tables), route, left, now);
      ghost var before := Last(tables);
      if alone { PartlyClearedKeeps(db, before, route, left, staleId, now); }
      r, at := RepairStaleSession(staleId, route.link, atLink,
                                  ReadAt(route, staleId, atLink, atController, atCompanion),
                                  now);
      if alone && r == Ok(true) { ClearedOneMore(db, before, Last(tables), route, left, staleId, now); }
    }

    /** Open a session on the link, from its controller, once whatever stands in the way is cleared. */
    method OpenSession(linkId: Id, endpointId: Id, connectionId: Id, sessionId: Id, now: int)
        returns (r: Result<Session>, ghost at: nat, ghost passes: nat)
      requires Valid() && connectionId != ABSENT && sessionId != ABSENT
      modifies this
      ensures Extends(old(tables), old(events)) && passes <= ATTEMPTS
      ensures if r.Ok? then OpenedOnly(old(mine), at) else OpenedNothing(old(mine))
      ensures || OpenAnswer(tables, events, |old(events)|, r, at, linkId, endpointId, connectionId, sessionId, now)
              || (r == Err(PeerBusy, true) && passes == ATTEMPTS)
      ensures r.Err? && r.code in {Conflict, Internal} ==> Overtaken(old(events), r.code, now)
      ensures old(Alone(now)) && sessionId !in Last(old(tables)).seenSessions ==>
                passes <= 2 && AnswersAs(r, OpenAlone(Last(old(tables)), linkId, endpointId, connectionId, now))
    {
      hide ValidRun, NoPointers, OpenAlone, OpenAnswer;
      at, passes := 0, 0;
      ghost var alone := Alone(now) && sessionId !in Last(tables).seenSessions;
      ghost var answer := OpenAlone(Last(tables), linkId, endpointId, connectionId, now);
      for attempt := 0 to ATTEMPTS
        invariant Extends(old(tables), old(events)) && OpenedNothing(old(mine)) && passes == attempt
        invariant alone ==>
                    && Alone(now) && sessionId !in Last(tables).seenSessions
                    && OpenAlone(Last(tables), linkId, endpointId, connectionId, now) == answer
                    && (attempt == 0 || (attempt == 1 && NoPointers(Last(tables), linkId)))
      {
        passes := passes + 1;
        ghost var before := |events|;
        var answered;
        answered, at := OpenPass(linkId, endpointId, connectionId, sessionId, now);
        if answered.Some? {
          LaterOpens(tables, events, |old(events)|, before, answered.value, at, linkId, endpointId, connectionId,
                     sessionId, now);
          return answered.value, at, passes;
        }
      }
      return Err(PeerBusy, true), at, passes;
    }

    /** One pass at an open: clear what is stale, or try; no answer means that another pass is called for. */
    method OpenPass(linkId: Id, endpointId: Id, connectionId: Id, sessionId: Id, now: int)
        returns (answered: Option<Result<Session>>, ghost at: nat)
      requires Valid() && connectionId != ABSENT && sessionId != ABSENT
      modifies this
      ensures Extends(old(tables), old(events))
      ensures !(answered.Some? && answered.value.Ok?) ==> OpenedNothing(old(mine))
      ensures answered.Some? && answered.value.Ok? ==> OpenedOnly(old(mine), at)
      ensures answered.Some? ==> OpenAnswer(tables, events, |old(events)|, answered.value, at, linkId, endpointId,
                                            connectionId, sessionId, now)
      ensures answered.Some? && answered.value.Err? && answered.value.code in {Conflict, Internal} ==>
                Overtaken(old(events), answered.value.code, now)
      ensures old(Alone(now)) && sessionId !in Last(old(tables)).seenSessions ==>
                var answer := OpenAlone(Last(old(tables)), linkId, endpointId, connectionId, now);
                if answered.Some? then AnswersAs(answered.value, answer)
                else
                  && !NoPointers(Last(old(tables)), linkId)
                  && Alone(now) && sessionId !in Last(tables).seenSessions && NoPointers(Last(tables), linkId)
                  && OpenAlone(Last(tables), linkId, endpointId, connectionId, now) == answer
    {
      hide ValidRun, PartlyCleared, NoPointers, OpenAlone, Blocked, Opened, CurrentCaller, CompanionIsOff, Refusal,
           OpensBy, LiveSession, Pointers;
      ghost var alone := Alone(now) && sessionId !in Last(tables).seenSessions;
      ghost var db := Last(tables);
      var found, atLink, atController, atCompanion := ReadRoute(linkId, endpointId);
      if found.Err? {
        if alone { ForbiddenByTheTable(db, linkId, endpointId, connectionId, now); }
        return Some(Err(found.code, found.retryable)), atLink;
      }
      var route := found.value;
      if alone { ByTheTable(db, route, endpointId, connectionId, now); }
      var repaired, k := RepairAll(route, atLink, atController, atCompanion, now);
      if repaired.Err? {
        if repaired.code == PeerBusy { BlockedIsLive(At(tables, k), route, now); }
        return Some(Err(repaired.code, repaired.retryable)), k;
      }
      if repaired.value {
        if alone { ClearedAnswersSame(db, Last(tables), route, endpointId, connectionId, now); }
        return None, k;
      }
      answered, at := TryOpen(route, connectionId, sessionId, now, atLink, atController, atCompanion);
    }

    /** The link and its two ends, for an open by its controller. */
    method ReadRoute(linkId: Id, endpointId: Id) returns (r: Result<Route>, atLink: nat, atController: nat,
                                                          atCompanion: nat)
      requires Valid()
      modifies this
      ensures Extends(old(tables), old(events)) && Quiet(old(tables), old(events)) && mine == old(mine)
      ensures |old(tables)| <= atLink + 1
      ensures r.Ok? ==>
                && RouteRead(tables, r.value, atLink, atController, atCompanion)
                && r.value.link.linkId == linkId && r.value.link.status == LinkActive
                && r.value.link.controllerId == endpointId
      ensures r.Err? ==> r == Err(Forbidden, false) && atLink < |tables|
      ensures r.Err? <==> !OpensBy(At(tables, atLink), linkId, endpointId)
    {
      hide ValidRun;
      var found;
      found, atLink := GetLink(linkId);
      atController, atCompanion := atLink, atLink;
      if found.None? || found.value.status != LinkActive || found.value.controllerId != endpointId {
        return Err(Forbidden, false), atLink, atController, atCompanion;
      }
      var link := found.value;
      TableIsKeyed(tables, events, atLink);
      var controller, companion;
      controller, atController := GetEndpoint(link.controllerId);
      LinkStandsLater(tables, events, atLink, atController, link);
      TableIsKeyed(tables, events, atController);
      companion, atCompanion := GetEndpoint(link.companionId);
      LinkStandsLater(tables, events, atLink, atCompanion, link);
      TableIsKeyed(tables, events, atCompanion);
      if controller.None? || companion.None? {
        assert false;
      }
      return Ok(Route(link, controller.value, companion.value)), atLink, atController, atCompanion;
    }

    /** One attempt to open a session on a route that nothing holds; no answer means that it is to be tried
        again. */
    method TryOpen(route: Route, connectionId: Id, sessionId: Id, now: int, atLink: nat, atController: nat,
                   atCompanion: nat)
        returns (answered: Option<Result<Session>>, ghost at: nat)
      requires Valid() && connectionId != ABSENT && sessionId != ABSENT
      requires RouteRead(tables, route, atLink, atController, atCompanion)
      requires route.link.status == LinkActive && Pointers(route) == {}
      modifies this
      ensures Extends(old(tables), old(events))
      ensures mine == if answered.Some? && answered.value.Ok? then old(mine) + [at] else old(mine)
      ensures answered.Some? ==> OpenAnswer(tables, events, |old(events)|, answered.value, at, route.link.linkId,
                                            route.link.controllerId, connectionId, sessionId, now)
      ensures answered.Some? && answered.value.Err? && answered.value.code in {Conflict, Internal} ==>
                answered.value.code == Internal && !Timely(tables, now)
      ensures old(Alone(now)) && atLink + 1 == |old(tables)| && sessionId !in Last(old(tables)).seenSessions ==>
                answered.Some? && AnswersAs(answered.value, Refusal(route.controller, route.companion, connectionId))
    {
      hide ValidRun, ReadsLead, Writes, AllHold, Inv, Opened;
      var Route(link, controller, companion) := route;
      if controller.revokedAt != 0 || controller.connectionId != connectionId {
        return Some(Err(Unauthenticated, false)), atController;
      }
      if companion.revokedAt != 0 || companion.connectionId == ABSENT || companion.connectionId == connectionId {
        LinkStandsLater(tables, events, atLink, atCompanion, link);
        return Some(Err(PeerOffline, true)), atCompanion;
      }
      NoPointerIsHeld(route);
      var session := NewSession(link, controller, companion, connectionId, sessionId, now);
      var ops := [PutSession(session), ClaimLink(link.linkId, sessionId),
                  ClaimEndpoint(controller.endpointId, connectionId, sessionId),
                  ClaimEndpoint(companion.endpointId, companion.connectionId, sessionId)];
      var e := Event.OpenSession(link.linkId, link.controllerId, connectionId, sessionId, now, atLink, atController,
                                 atCompanion);
      OpenLeads(tables, route, connectionId, sessionId, now, atLink, atController, atCompanion);
      if atLink + 1 == |tables| && sessionId !in Last(tables).seenSessions {
        TableIsSound(tables, events, atLink);
        FreshOpenHolds(Last(tables), route, connectionId, sessionId, now);
      }
      var outcome, k := Transact(e, ops);
      if outcome.TimedOut? {
        return Some(Err(Internal, true)), k;
      }
      if outcome.Refused? {
        return None, k;
      }
      OpenReported(tables, events, k, e, session);
      LivesTwoHours(tables, events, k, session, now);
      return Some(Ok(session)), k;
    }

    // ----- endpoints

    /** $connect.  `ran` tells a connection that this invocation attached from one already attached. */
    method Connect(c: Connection, credentialHash: Id)
        returns (r: Result<Option<CloseResult>>, ghost at: nat, ghost ran: bool)
      requires Valid() && NewConnection(c)
      modifies this
      ensures Extends(old(tables), old(events))
      ensures ConnectAnswer(tables, events, |old(events)|, r, at, ran, c, credentialHash)
      ensures mine == (if ran then old(mine) + [at] else old(mine)) && (ran ==> r.Ok?)
      ensures r.Err? && r.retryable ==>
                Overtaken(old(events), r.code, c.connectedAt)
                || (r.code == Conflict && IdUsed(Last(tables), c.connectionId))
      ensures old(Alone(c.connectedAt)) ==> AnswersAs(r, ConnectAlone(Last(old(tables)), c, credentialHash))
    {
      hide ValidRun, Reports, RunsOn, OnConnection, NewConnection;
      RunSize(tables, events);
      at, ran := 0, false;
      if (c.authMode == EndpointAuth && (c.endpointId == ABSENT || credentialHash == ABSENT))
         || (c.authMode == PairingAuth && c.endpointId != ABSENT) {
        return Err(Unauthenticated, false), at, ran;
      }
      if c.endpointId == ABSENT {
        var outcome, k := PutPairing(c);
        if !outcome.Done? {
          return if outcome.TimedOut? then Err(Internal, true) else Err(Unauthenticated, false), k, ran;
        }
        return Ok(None), k, true;
      }
      ghost var alone := Alone(c.connectedAt);
      for attempt := 0 to ATTEMPTS
        invariant Extends(old(tables), old(events)) && mine == old(mine) && !ran
        invariant |old(events)| + attempt <= |events| || IdUsed(Last(tables), c.connectionId)
        invariant alone ==>
                    && tables == old(tables) && events == old(events)
                    && (0 < attempt ==>
                          ConnectAlone(Last(tables), c, credentialHash) == Some(Denial(Conflict, true)))
      {
        var answered;
        ghost var before := tables;
        answered, at, ran := TryConnect(c, credentialHash);
        if answered.Some? {
          return answered.value, at, ran;
        }
        if IdUsed(Last(before), c.connectionId) { StaysUsed(before, tables, events, c.connectionId); }
      }
      return Err(Conflict, true), at, ran;
    }

    /** One attempt at the $connect of an endpoint; no answer means that it is to be tried again. */
    method TryConnect(c: Connection, credentialHash: Id)
        returns (answered: Option<Result<Option<CloseResult>>>, ghost at: nat, ghost ran: bool)
      requires Valid() && NewConnection(c) && c.authMode == EndpointAuth && c.endpointId != ABSENT
               && credentialHash != ABSENT
      modifies this
      ensures Extends(old(tables), old(events))
      ensures answered.Some? ==>
                ConnectAnswer(tables, events, |old(events)|, answered.value, at, ran, c, credentialHash)
      ensures mine == (if ran then old(mine) + [at] else old(mine))
      ensures ran ==> answered.Some? && answered.value.Ok?
      ensures answered.Some? && answered.value.Err? && answered.value.retryable ==>
                answered.value.code == Internal && !Timely(tables, c.connectedAt)
      ensures answered.None? ==> |old(events)| < |events| || IdUsed(Last(tables), c.connectionId)
      ensures old(Alone(c.connectedAt)) ==>
                var answer := ConnectAlone(Last(old(tables)), c, credentialHash);
                if answered.Some? then AnswersAs(answered.value, answer)
                else tables == old(tables) && events == old(events) && answer == Some(Denial(Conflict, true))
    {
      hide ValidRun, Reports, RunsOn, NewConnection;
      RunSize(tables, events);
      ran := false;
      var found, atEndpoint := GetEndpoint(c.endpointId);
      if found.None? || found.value.revokedAt != 0 || found.value.credentialHash != credentialHash {
        return Some(Err(Unauthenticated, false)), atEndpoint, ran;
      }
      var endpoint := found.value;
      var sameConnection, atExisting := SameConnectionRead(endpoint, atEndpoint, c);
      var session: Option<Session>, atSession := None, atExisting;
      if endpoint.activeSessionId != ABSENT {
        session, atSession := GetSession(endpoint.activeSessionId);
      }
      if sameConnection && (endpoint.activeSessionId == ABSENT
                            || (session.Some? && RunsOn(session.value, c.endpointId, c.connectionId))) {
        return Some(Ok(None)), atEndpoint, ran;
      }
      var outcome, report, k := Attach(c, credentialHash, endpoint, sameConnection, session, atEndpoint, atExisting,
                                       atSession);
      RunSize(tables, events);
      if outcome.TimedOut? {
        return Some(Err(Internal, true)), k, ran;
      }
      if outcome.Done? {
        return Some(Ok(report)), k, true;
      }
      return None, k, ran;
    }

    /** The one transaction of a $connect for pairing. */
    method PutPairing(c: Connection) returns (outcome: Outcome, ghost at: nat)
      requires Valid() && NewConnection(c) && c.authMode == PairingAuth && c.endpointId == ABSENT
      modifies this
      ensures Tried(outcome, at, old(tables), old(events), old(mine), c.connectedAt) && !outcome.TimedOut?
      ensures outcome.Done? ==> |old(events)| <= at < |events| && StepAt(events, at) == ConnectPairing(c)
                                && Reports(tables, events, at, None) && !LockedOut(At(tables, at), c, ABSENT)
      ensures outcome.Refused? ==> at + 1 == |tables| && LockedOut(At(tables, at), c, ABSENT)
    {
      hide ValidRun, Reports;
      var ops := [PutConnection(c)];
      outcome, at := Transact(ConnectPairing(c), ops);
      if outcome.Done? {
        NothingReported(tables, events, at, ConnectPairing(c), ops);
        PutIsNew(At(tables, at), ops, c);
      }
    }

    /** The transaction of one attempt at $connect. */
    method Attach(c: Connection, credentialHash: Id, endpoint: Endpoint, sameConnection: bool, session: Option<Session>,
                  atEndpoint: nat, atExisting: nat, atSession: nat)
        returns (outcome: Outcome, report: Option<CloseResult>, ghost at: nat)
      requires Valid() && atEndpoint <= atExisting <= atSession < |tables|
      requires MayConnect(endpoint, sameConnection, session, c, credentialHash)
      requires Lookup(At(tables, atEndpoint).endpoints, c.endpointId) == Some(endpoint)
      requires sameConnection == SameAsRead(endpoint, At(tables, atExisting), c)
      requires session == SessionRead(endpoint, At(tables, atSession))
      modifies this
      ensures Tried(outcome, at, old(tables), old(events), old(mine), c.connectedAt)
      ensures outcome.Refused? ==>
                atEndpoint + 1 < |tables| || (!sameConnection && IdUsed(Last(tables), c.connectionId))
      ensures outcome.Done? ==> |old(events)| <= at && Reports(tables, events, at, report)
                                && Attaches(StepAt(events, at), c, credentialHash)
                                && OnConnection(At(tables, at + 1), c, credentialHash)
                                && (!sameConnection ==> !IdUsed(At(tables, at), c.connectionId))
    {
      hide ValidRun, ReadsLead, Writes, Tail, OwnTail, Reports, OnTime, SameAsRead, SessionRead, ReportOf, MayConnect,
           OnConnection, EndsNothing, AllHold, IdUsed, OwnConnectWrites;
      var own := ConnectOperations(c, credentialHash, endpoint, sameConnection);
      var closes := session.Some? && OnSession(session.value, c.endpointId);
      ghost var before := tables;
      var ops, t := OwnThenTransition(own, session, closes, c.endpointId, c.connectedAt, atSession);
      var e := ConnectEndpoint(c, credentialHash, atEndpoint, atExisting, t);
      ghost var seen := tables;
      ConnectLeads(tables, c, credentialHash, endpoint, sameConnection, session, atEndpoint, atExisting, t);
      if atEndpoint + 1 == |tables| && (sameConnection || !IdUsed(Last(tables), c.connectionId)) {
        AttachIsFresh(before, tables, events, c, credentialHash, endpoint, session, sameConnection, closes,
                      atEndpoint, t);
      }
      outcome, at := Transact(e, ops);
      report := ReportOf(session, closes, c.connectedAt);
      if outcome.Done? {
        AttachReported(tables, events, at, e, own, ReadsAt(seen, t), atSession, endpoint, session, closes, c,
                       credentialHash, sameConnection);
      }
    }

    /** The operations of a $connect on its own records. */
    method ConnectOperations(c: Connection, credentialHash: Id, endpoint: Endpoint, sameConnection: bool)
        returns (own: seq<Write>)
      ensures own == OwnConnectWrites(c, credentialHash, endpoint, sameConnection) && EndsNothing(own)
    {
      own := if sameConnection then [] else [PutConnection(c)];
      own := own + [AttachConnection(c.endpointId, credentialHash, endpoint.connectionId, endpoint.activeSessionId,
                                     c.connectionId, c.connectedAt)];
      if endpoint.connectionId != ABSENT && endpoint.connectionId != c.connectionId {
        own := own + [DeleteConnection(endpoint.connectionId, false)];
      }
      OwnConnectList(c, credentialHash, endpoint, sameConnection, own);
    }

    /** Whether $connect finds the connection record that an earlier delivery of it has put. */
    method SameConnectionRead(endpoint: Endpoint, atEndpoint: nat, c: Connection) returns (same: bool, at: nat)
      requires Valid() && atEndpoint < |tables|
      modifies this
      ensures Extends(old(tables), old(events)) && Quiet(old(tables), old(events)) && mine == old(mine)
      ensures atEndpoint <= at < |tables|
      ensures same == SameAsRead(endpoint, At(tables, at), c)
    {
      hide ValidRun;
      same, at := false, atEndpoint;
      if endpoint.connectionId == c.connectionId {
        var existing;
        existing, at := GetConnection(c.connectionId);
        if existing.Some? && existing.value.authMode == c.authMode && existing.value.endpointId == c.endpointId {
          same := true;
        }
      }
    }

    /** The caller's own operations and, where the session it found is to end, the transition's. */
    method OwnThenTransition(own: seq<Write>, session: Option<Session>, closes: bool, endpointId: Id, now: int,
                             from: nat)
        returns (ops: seq<Write>, t: TailReads)
      requires Valid() && from < |tables| && (closes ==> session.Some?)
      modifies this
      ensures Extends(old(tables), old(events)) && Quiet(old(tables), old(events)) && mine == old(mine)
      ensures TailInOrder(tables, from, t) && t.session == from
      ensures ops == OwnTail(own, ReadsAt(tables, t), session, closes, endpointId, now)
    {
      hide ValidRun, Tail;
      if closes {
        ops, t := TransitionOperations(session.value, now, own, {EndpointItem(endpointId)}, NoFence, from);
      } else {
        ops, t := own, TailReads(from, from, from, from);
      }
    }

    /** $disconnect, and the clean-up of a connection that is gone. */
    method Disconnect(connectionId: Id, now: int)
        returns (r: Result<Option<DisconnectResult>>, ghost at: nat, ghost readAt: nat)
      requires Valid() && connectionId != ABSENT
      modifies this
      ensures Extends(old(tables), old(events)) && |old(tables)| <= at + 1
      ensures DisconnectAnswer(tables, events, |old(events)|, r, at, readAt, connectionId)
      ensures mine == if r.Ok? && r.value.Some? then old(mine) + [at] else old(mine)
      ensures r.Err? ==> r.retryable && Overtaken(old(events), r.code, now)
      ensures old(Alone(now)) ==> r.Ok? && (r.value.Some? <==> connectionId in Last(old(tables)).connections)
    {
      hide ValidRun, Reports, DropsRecord;
      RunSize(tables, events);
      at, readAt := |tables| - 1, 0;
      ghost var alone := Alone(now);
      for attempt := 0 to ATTEMPTS
        invariant Extends(old(tables), old(events)) && mine == old(mine) && |old(events)| + attempt <= |events|
        invariant alone ==> attempt == 0 && tables == old(tables) && events == old(events)
        invariant |old(tables)| <= at + 1
      {
        var answered;
        answered, at, readAt := TryDisconnect(connectionId, now);
        if answered.Some? {
          return answered.value, at, readAt;
        }
      }
      return Err(Conflict, true), at, readAt;
    }

    /** One attempt at a disconnect; no answer means that it is to be tried again. */
    method TryDisconnect(connectionId: Id, now: int)
        returns (answered: Option<Result<Option<DisconnectResult>>>, ghost at: nat, ghost readAt: nat)
      requires Valid() && connectionId != ABSENT
      modifies this
      ensures Extends(old(tables), old(events)) && |old(tables)| <= at + 1
      ensures answered.Some? ==> DisconnectAnswer(tables, events, |old(events)|, answered.value, at, readAt,
                                                  connectionId)
      ensures mine == if answered.Some? && answered.value.Ok? && answered.value.value.Some? then old(mine) + [at]
                      else old(mine)
      ensures answered.Some? && answered.value.Err? ==> answered.value == Err(Internal, true) && !Timely(tables, now)
      ensures answered.None? ==> |old(events)| < |events|
      ensures old(Alone(now)) ==>
                && answered.Some? && answered.value.Ok?
                && (answered.value.value.Some? <==> connectionId in Last(old(tables)).connections)
    {
      hide ValidRun, Reports, DropsRecord;
      RunSize(tables, events);
      var connection, atConnection := GetConnection(connectionId);
      at, readAt := atConnection, atConnection;
      if connection.None? {
        return Some(Ok(None)), atConnection, readAt;
      }
      var c := connection.value;
      if c.endpointId == ABSENT {
        var outcome, k := DropPairingRecord(c, connectionId, atConnection, now);
        RunSize(tables, events);
        if outcome.TimedOut? {
          return Some(Err(Internal, true)), k, readAt;
        }
        return if outcome.Done? then Some(Ok(Some(DisconnectResult(c, None)))) else None, k, readAt;
      }
      var found, atEndpoint := GetEndpoint(c.endpointId);
      if found.None? || found.value.connectionId != connectionId {
        var outcome, k := DropStray(c, connectionId, found, atConnection, atEndpoint, now);
        RunSize(tables, events);
        return if outcome.TimedOut? then Some(Err(Internal, true)) else None, k, readAt;
      }
      var endpoint := found.value;
      var session: Option<Session>, atSession := None, atEndpoint;
      if endpoint.activeSessionId != ABSENT {
        session, atSession := GetSession(endpoint.activeSessionId);
      }
      var outcome, report, k := Detach(c, connectionId, endpoint, session, now, atConnection, atEndpoint, atSession);
      RunSize(tables, events);
      if outcome.TimedOut? {
        return Some(Err(Internal, true)), k, readAt;
      }
      return if outcome.Done? then Some(Ok(Some(DisconnectResult(c, report)))) else None, k, readAt;
    }

    /** The transaction that drops a record whose endpoint was read elsewhere.  It never commits. */
    method DropStray(c: Connection, connectionId: Id, found: Option<Endpoint>, atConnection: nat, atEndpoint: nat,
                     ghost now: int)
        returns (outcome: Outcome, ghost at: nat)
      requires Valid() && atConnection <= atEndpoint < |tables| && c.endpointId != ABSENT
      requires Lookup(At(tables, atConnection).connections, connectionId) == Some(c)
      requires Lookup(At(tables, atEndpoint).endpoints, c.endpointId) == found
      requires found.None? || found.value.connectionId != connectionId
      modifies this
      ensures Attempted(outcome, at, old(tables), old(events), old(mine), atConnection, now) && !outcome.Done?
    {
      hide ValidRun, OnTime, AtomicStep, TookRecord, OwnRecordStored, Inv;
      if atConnection + 1 == |tables| {
        TableIsSound(tables, events, atConnection);
        StoredIsAttached(Last(tables), connectionId);
      }
      outcome, at := Transact(DropRecord(connectionId, atConnection, atEndpoint),
                              [DeleteConnection(connectionId, true)]);
      if outcome.Done? { RunIsAtomic(tables, events, at); }
    }

    /** The transaction of one attempt to drop a pairing connection. */
    method DropPairingRecord(c: Connection, connectionId: Id, atConnection: nat, ghost now: int)
        returns (outcome: Outcome, ghost at: nat)
      requires Valid() && atConnection < |tables|
      requires Lookup(At(tables, atConnection).connections, connectionId) == Some(c) && c.endpointId == ABSENT
      modifies this
      ensures Attempted(outcome, at, old(tables), old(events), old(mine), atConnection, now)
      ensures outcome.Done? ==> |old(events)| <= at && Disconnects(StepAt(events, at), connectionId)
                                && DropsRecord(At(tables, at), At(tables, at + 1), connectionId)
                                && Reports(tables, events, at, None)
    {
      hide ValidRun, Reports, ClosesPair, OnTime, DropsRecord, AllHold, EndsNothing;
      var ops := [DeleteConnection(connectionId, true)];
      var closes, atPair := PairToClose(c.pairingId, connectionId, atConnection);
      if closes {
        ops := ops + [ClosePair(c.pairingId, connectionId)];
      }
      var e := DisconnectPairing(connectionId, atConnection, atPair);
      if atConnection + 1 == |tables| { FreshDropHolds(Last(tables), c.pairingId, connectionId); }
      outcome, at := Transact(e, ops);
      if outcome.Done? {
        DropReported(tables, events, at, e, ops, connectionId);
      }
    }

    /** The transaction of one attempt to take an endpoint off its connection. */
    method Detach(c: Connection, connectionId: Id, endpoint: Endpoint, session: Option<Session>, now: int,
                  atConnection: nat, atEndpoint: nat, atSession: nat)
        returns (outcome: Outcome, report: Option<CloseResult>, ghost at: nat)
      requires Valid() && connectionId != ABSENT && atConnection <= atEndpoint <= atSession < |tables|
      requires Lookup(At(tables, atConnection).connections, connectionId) == Some(c) && c.endpointId != ABSENT
      requires Lookup(At(tables, atEndpoint).endpoints, c.endpointId) == Some(endpoint)
               && endpoint.connectionId == connectionId
      requires session == SessionRead(endpoint, At(tables, atSession))
      modifies this
      ensures Attempted(outcome, at, old(tables), old(events), old(mine), atConnection, now)
      ensures outcome.Done? ==> |old(events)| <= at && Disconnects(StepAt(events, at), connectionId)
                                && DropsRecord(At(tables, at), At(tables, at + 1), connectionId)
                                && Reports(tables, events, at, report)
    {
      hide ValidRun, ReadsLead, Writes, Tail, OwnTail, Reports, OnTime, SessionRead, ReportOf, Step, DropsRecord,
           AllHold;
      var own := [DeleteConnection(connectionId, true),
                  DetachConnection(c.endpointId, connectionId, endpoint.activeSessionId)];
      var closes := session.Some? && OnConnectionOf(session.value, connectionId);
      ghost var before := tables;
      var ops, t := OwnThenTransition(own, session, closes, c.endpointId, now, atSession);
      var e := DisconnectEndpoint(connectionId, now, atConnection, atEndpoint, t);
      ghost var seen := tables;
      DisconnectLeads(tables, c, connectionId, endpoint, session, now, atConnection, atEndpoint, t);
      if atConnection + 1 == |tables| {
        DetachIsFresh(before, tables, events, connectionId, c, endpoint, session, closes, now, atConnection, t);
      }
      outcome, at := Transact(e, ops);
      report := ReportOf(session, closes, now);
      if outcome.Done? {
        OwnTailReported(tables, events, at, e, own, ReadsAt(seen, t), atSession, endpoint, session, closes,
                        c.endpointId, now);
        DisconnectDrops(tables, events, at, connectionId);
      }
    }

    /** Whether a pairing connection that goes leaves a pair that it has to close. */
    method PairToClose(pairId: Id, connectionId: Id, from: nat) returns (closes: bool, at: nat)
      requires Valid() && from < |tables|
      modifies this
      ensures Extends(old(tables), old(events)) && Quiet(old(tables), old(events)) && mine == old(mine)
      ensures from <= at < |tables|
      ensures closes == ClosesPair(At(tables, at), pairId, connectionId)
    {
      hide ValidRun;
      closes, at := false, from;
      if pairId != ABSENT {
        var pair;
        pair, at := GetPair(pairId);
        closes := pair.Some? && IsMember(pair.value, connectionId)
                  && pair.value.status != PairActive && pair.value.status != PairClosed;
      }
    }

    method RotateEndpoint(endpointId: Id, connectionId: Id, credentialHash: Id, now: int)
        returns (r: Result<()>, ghost at: nat)
      requires Valid() && connectionId != ABSENT && credentialHash != ABSENT
      modifies this
      ensures Extends(old(tables), old(events))
      ensures r.Ok? ==> |old(events)| <= at < |events|
                        && StepAt(events, at) == Rotate(endpointId, connectionId, credentialHash, now)
                        && HasCredential(At(tables, at + 1), endpointId, credentialHash)
      ensures r.Err? && !r.retryable ==> r.code == Unauthenticated && at < |tables|
                                         && !CurrentCaller(At(tables, at), endpointId, connectionId)
      ensures r.Err? && r.retryable ==> r.code == Internal && !Timely(tables, now)
      ensures mine == if r.Ok? then old(mine) + [at] else old(mine)
      ensures old(Alone(now)) ==> AnswersAs(r, CallerAlone(Last(old(tables)), endpointId, connectionId))
    {
      hide ValidRun, OnTime, Step, AllHold, Inv;
      RunSize(tables, events);
      var e := Rotate(endpointId, connectionId, credentialHash, now);
      var outcome, k := Transact(e, [RotateCredential(endpointId, connectionId, credentialHash, now)]);
      RunSize(tables, events);
      TableIsSound(tables, events, k);
      RotateHolds(At(tables, k), endpointId, connectionId, credentialHash, now);
      if !outcome.Done? {
        return if outcome.TimedOut? then Err(Internal, true) else Err(Unauthenticated, false), k;
      }
      RunLeaves(tables, events, k);
      return Ok(()), k;
    }

    method RevokeEndpoint(endpointId: Id, connectionId: Id, now: int)
        returns (r: Result<RevokeEndpointResult>, ghost at: nat)
      requires Valid()
      modifies this
      ensures Extends(old(tables), old(events))
      ensures RevokeEndpointAnswer(tables, events, |old(events)|, r, at, endpointId, connectionId, now)
      ensures mine == if r.Ok? then old(mine) + [at] else old(mine)
      ensures r.Err? && r.retryable ==> Overtaken(old(events), r.code, now)
      ensures old(Alone(now)) ==> AnswersAs(r, CallerAlone(Last(old(tables)), endpointId, connectionId))
    {
      hide ValidRun, Reports, CurrentCaller;
      RunSize(tables, events);
      at := 0;
      ghost var alone := Alone(now);
      for attempt := 0 to ATTEMPTS
        invariant Extends(old(tables), old(events)) && mine == old(mine) && |old(events)| + attempt <= |events|
        invariant alone ==> attempt == 0 && tables == old(tables) && events == old(events)
      {
        RunSize(tables, events);
        var caller, atEndpoint := CurrentEndpoint(endpointId, connectionId);
        if caller.Err? {
          return Err(caller.code, caller.retryable), atEndpoint;
        }
        var endpoint := caller.value;
        TableIsKeyed(tables, events, atEndpoint);
        var session: Option<Session>, atSession := None, atEndpoint;
        if endpoint.activeSessionId != ABSENT {
          session, atSession := GetSession(endpoint.activeSessionId);
        }
        var outcome, report, k := Unseat(endpointId, connectionId, endpoint, session, now, atEndpoint, atSession);
        if outcome.TimedOut? {
          return Err(Internal, true), k;
        }
        if outcome.Done? {
          return Ok(RevokeEndpointResult(Retired(endpoint, now), report)), k;
        }
        RunSize(tables, events);
      }
      return Err(Conflict, true), at;
    }

    /** The transaction of one attempt to revoke an endpoint, which closes the session that it holds. */
    method Unseat(endpointId: Id, connectionId: Id, endpoint: Endpoint, session: Option<Session>, now: int,
                  atEndpoint: nat, atSession: nat)
        returns (outcome: Outcome, report: Option<CloseResult>, ghost at: nat)
      requires Valid() && atEndpoint <= atSession < |tables|
      requires CurrentCaller(At(tables, atEndpoint), endpointId, connectionId)
      requires Lookup(At(tables, atEndpoint).endpoints, endpointId) == Some(endpoint)
      requires session == SessionRead(endpoint, At(tables, atSession))
      modifies this
      ensures Attempted(outcome, at, old(tables), old(events), old(mine), atEndpoint, now)
      ensures outcome.Done? ==> |old(events)| <= at < |events| && StepAt(events, at).RevokeEndpoint?
                                && Reports(tables, events, at, report)
                                && Lookup(At(tables, at + 1).endpoints, endpointId) == Some(Retired(endpoint, now))
    {
      hide ValidRun, ReadsLead, Writes, Tail, OwnTail, Reports, OnTime, SessionRead, CurrentCaller, ReportOf,
           AllHold;
      var own := [RetireEndpoint(endpointId, connectionId, endpoint.activeSessionId, now),
                  DeleteConnection(connectionId, false)];
      var closes := session.Some? && OnSession(session.value, endpointId);
      ghost var before := tables;
      var ops, t := OwnThenTransition(own, session, closes, endpointId, now, atSession);
      var e := Event.RevokeEndpoint(endpointId, connectionId, now, atEndpoint, t);
      ghost var seen := tables;
      RevokeEndpointLeads(tables, endpointId, connectionId, endpoint, session, now, atEndpoint, t);
      if atEndpoint + 1 == |tables| {
        UnseatIsFresh(before, tables, events, endpointId, connectionId, endpoint, session, closes, now, atEndpoint, t);
      }
      outcome, at := Transact(e, ops);
      report := ReportOf(session, closes, now);
      if outcome.Done? {
        OwnTailReported(tables, events, at, e, own, ReadsAt(seen, t), atSession, endpoint, session, closes, endpointId,
                        now);
        RevokeEndpointReported(tables, events, at, e, endpointId, connectionId, endpoint, now, atEndpoint, t);
      }
    }

    // ----- links

    /** Revoke a link for one of its two ends.  `ran` tells a link that this invocation revoked from one that
        it found REVOKED already. */
    method RevokeLink(linkId: Id, endpointId: Id, connectionId: Id, now: int)
        returns (r: Result<RevokeLinkResult>, ghost at: nat, ghost ran: bool)
      requires Valid()
      modifies this
      ensures Extends(old(tables), old(events))
      ensures RevokeLinkAnswer(tables, events, |old(events)|, r, at, ran, linkId, endpointId, connectionId,
                               now)
      ensures mine == (if ran then old(mine) + [at] else old(mine)) && (ran ==> r.Ok?)
      ensures r.Err? && r.retryable ==> Overtaken(old(events), r.code, now)
      ensures old(Alone(now)) ==> AnswersAs(r, RevokeLinkAlone(Last(old(tables)), linkId, endpointId, connectionId))
    {
      hide ValidRun, Reports, CurrentCaller;
      RunSize(tables, events);
      at, ran := 0, false;
      ghost var alone := Alone(now);
      for attempt := 0 to ATTEMPTS
        invariant Extends(old(tables), old(events)) && mine == old(mine) && !ran
        invariant |old(events)| + attempt <= |events|
        invariant alone ==> attempt == 0 && tables == old(tables) && events == old(events)
      {
        RunSize(tables, events);
        var caller, atCaller := CurrentEndpoint(endpointId, connectionId);
        if caller.Err? {
          return Err(caller.code, caller.retryable), atCaller, ran;
        }
        var found, atLink := GetLink(linkId);
        if found.None? || (found.value.controllerId != endpointId && found.value.companionId != endpointId) {
          return Err(Forbidden, false), atLink, ran;
        }
        var link := found.value;
        TableIsKeyed(tables, events, atLink);
        if link.status == LinkRevoked {
          if link.activeSessionId != ABSENT {
            assert false;
          }
          return Ok(RevokeLinkResult(link, None)), atLink, ran;
        }
        var outcome, report, k := Retire(link, endpointId, connectionId, now, atCaller, atLink);
        if outcome.TimedOut? {
          return Err(Internal, true), k, ran;
        }
        if outcome.Done? {
          return Ok(RevokeLinkResult(RetiredLink(link, now), report)), k, true;
        }
        RunSize(tables, events);
      }
      return Err(Conflict, true), at, ran;
    }

    /** The transaction of one attempt to revoke a link, which closes the session that the link holds. */
    method Retire(link: Link, endpointId: Id, connectionId: Id, now: int, atCaller: nat, atLink: nat)
        returns (outcome: Outcome, report: Option<CloseResult>, ghost at: nat)
      requires Valid() && atCaller <= atLink < |tables|
      requires MayRevoke(At(tables, atCaller), link, endpointId, connectionId)
      requires Lookup(At(tables, atLink).links, link.linkId) == Some(link)
      modifies this
      ensures Attempted(outcome, at, old(tables), old(events), old(mine), atCaller, now)
      ensures outcome.Done? ==> |old(events)| <= at < |events| && StepAt(events, at).RevokeLink?
                                && Reports(tables, events, at, report)
                                && Lookup(At(tables, at + 1).links, link.linkId) == Some(RetiredLink(link, now))
    {
      hide ValidRun, Reports, MayRevoke, RetiredLink;
      if link.activeSessionId == ABSENT {
        report := None;
        outcome, at := RetireIdle(link, endpointId, connectionId, now, atCaller, atLink);
      } else {
        outcome, report, at := RetireBusy(link, endpointId, connectionId, now, atCaller, atLink);
      }
    }

    /** For a link that holds a session. */
    method RetireBusy(link: Link, endpointId: Id, connectionId: Id, now: int, atCaller: nat, atLink: nat)
        returns (outcome: Outcome, report: Option<CloseResult>, ghost at: nat)
      requires Valid() && atCaller <= atLink < |tables| && link.activeSessionId != ABSENT
      requires MayRevoke(At(tables, atCaller), link, endpointId, connectionId)
      requires Lookup(At(tables, atLink).links, link.linkId) == Some(link)
      modifies this
      ensures Attempted(outcome, at, old(tables), old(events), old(mine), atCaller, now)
      ensures outcome.Done? ==> |old(events)| <= at < |events| && StepAt(events, at).RevokeLink?
                                && Reports(tables, events, at, report)
                                && Lookup(At(tables, at + 1).links, link.linkId) == Some(RetiredLink(link, now))
    {
      hide ValidRun, ReadsLead, Writes, Tail, Reports, OnTime, MayRevoke, RetiredLink, AllHold;
      report := None;
      ghost var before := tables;
      var own := [RetireLink(link.linkId, link.activeSessionId, now)];
      var fence := Fence(endpointId, connectionId);
      var stored, atSession := GetSession(link.activeSessionId);
      var session := SessionOfLink(link, stored);
      TableIsKeyed(tables, events, atSession);
      var ops, t := TransitionOperations(session, now, own, {LinkItem(link.linkId)}, fence, atSession);
      var e := Event.RevokeLink(link.linkId, endpointId, connectionId, now, atCaller, atLink, t);
      ghost var seen := tables;
      RevokeLinkLeads(tables, link, endpointId, connectionId, stored, now, atCaller, atLink, t);
      if atCaller + 1 == |tables| {
        RetireIsFresh(before, tables, events, link, stored, endpointId, connectionId, now, atCaller, t);
      }
      outcome, at := Transact(e, ops);
      if session.status == SessionActive {
        report := Some(CloseResult(Closed(session, now), true));
      }
      if outcome.Done? {
        TransitionReported(tables, events, at, e, own, ReadsAt(seen, t), atSession, session, now,
                           {LinkItem(link.linkId)}, fence, report);
        RevokeLinkReported(tables, events, at, e, link, endpointId, connectionId, now, atCaller, atLink, t);
      }
    }

    /** And for one that holds none. */
    method RetireIdle(link: Link, endpointId: Id, connectionId: Id, now: int, atCaller: nat, atLink: nat)
        returns (outcome: Outcome, ghost at: nat)
      requires Valid() && atCaller <= atLink < |tables| && link.activeSessionId == ABSENT
      requires MayRevoke(At(tables, atCaller), link, endpointId, connectionId)
      requires Lookup(At(tables, atLink).links, link.linkId) == Some(link)
      modifies this
      ensures Attempted(outcome, at, old(tables), old(events), old(mine), atCaller, now)
      ensures outcome.Done? ==> |old(events)| <= at < |events| && StepAt(events, at).RevokeLink?
                                && Reports(tables, events, at, None)
                                && Lookup(At(tables, at + 1).links, link.linkId) == Some(RetiredLink(link, now))
    {
      hide ValidRun, ReadsLead, Writes, Reports, OnTime, MayRevoke, RetiredLink, AllHold;
      var ops := [RetireLink(link.linkId, link.activeSessionId, now)] + [FenceCheck(Fence(endpointId, connectionId))];
      var t := TailReads(atLink, atLink, atLink, atLink);
      var e := Event.RevokeLink(link.linkId, endpointId, connectionId, now, atCaller, atLink, t);
      RevokeLinkLeads(tables, link, endpointId, connectionId, None, now, atCaller, atLink, t);
      if atCaller + 1 == |tables| { FreshRevokeHolds(Last(tables), link, endpointId, connectionId, now); }
      outcome, at := Transact(e, ops);
      if outcome.Done? {
        NothingReported(tables, events, at, e, ops);
        RevokeLinkReported(tables, events, at, e, link, endpointId, connectionId, now, atCaller, atLink, t);
      }
    }

    // ----- pairs

    /** Put the pair, its admission record, and the pair's ID on the creator's connection. */
    method CreatePair(pair: Pair) returns (r: Result<()>, ghost at: nat)
      requires Valid() && OpenPair(pair)
      modifies this
      ensures Extends(old(tables), old(events))
      ensures CreateAnswer(tables, events, |old(events)|, r, at, pair)
      ensures (pair.locator == ABSENT) == (pair.joinTokenHash == ABSENT) <==> r == Err(InvalidMessage, false)
      ensures mine == if r.Ok? then old(mine) + [at] else old(mine)
      ensures r.Err? && r.code == Internal ==> !Timely(tables, pair.expiresAt - PAIRING_SECONDS)
      ensures old(Alone(pair.expiresAt - PAIRING_SECONDS)) ==> AnswersAs(r, CreateAlone(Last(old(tables)), pair))
    {
      hide ValidRun, ReadsLead, Writes, OnTime, Step, AllHold, CannotCreate;
      RunSize(tables, events);
      at := 0;
      if (pair.locator == ABSENT) == (pair.joinTokenHash == ABSENT) {
        return Err(InvalidMessage, false), at;
      }
      var door := if pair.joinTokenHash != ABSENT then JoinKey(pair.joinTokenHash) else LocatorKey(pair.locator);
      var ops := [PutPair(pair),
                  PutAdmission(door, Admission(pair.pairId, pair.locator, pair.joinTokenHash, pair.expiresAt)),
                  SetPairing(pair.sideA.connectionId, pair.pairId)];
      CreateLeads(tables, pair);
      var e := Event.CreatePair(pair);
      var outcome, k := Transact(e, ops);
      CreateHolds(At(tables, k), pair);
      if !outcome.Done? {
        return if outcome.TimedOut? then Err(Internal, true) else Err(Conflict, true), k;
      }
      RunLeaves(tables, events, k);
      return Ok(()), k;
    }

    method GetAdmission(door: AdmissionKey) returns (r: Option<Admission>, at: nat)
      requires Valid()
      modifies this
      ensures HasRead(old(tables), old(events), old(mine), at) && r == Lookup(At(tables, at).admissions, door)
    {
      hide ValidRun;
      RunSize(tables, events);
      Interleave();
      RunSize(tables, events);
      at := |tables| - 1;
      r := Lookup(tables[at].admissions, door);
    }

    /** A pair still in time, and stored under its own ID. */
    method PairByID(pairId: Id, now: int) returns (r: Result<Pair>, at: nat)
      requires Valid()
      modifies this
      ensures HasRead(old(tables), old(events), old(mine), at) && PairByIDAnswer(At(tables, at), r, pairId, now)
    {
      hide ValidRun;
      var pair, k := GetPair(pairId);
      if pair.None? || pair.value.expiresAt <= now {
        return Err(PairExpired, false), k;
      }
      if pair.value.pairId != pairId {
        return Err(PairUnavailable, false), k;
      }
      TableIsKeyed(tables, events, k);
      return Ok(pair.value), k;
    }

    /** The pair behind a locator or a join token, which must name each other. */
    method PairByAdmission(door: AdmissionKey, now: int) returns (r: Result<Pair>, at: nat)
      requires Valid()
      modifies this
      ensures Extends(old(tables), old(events)) && AdmissionAnswer(tables, |old(tables)|, r, at, door, now)
      ensures Quiet(old(tables), old(events)) && mine == old(mine)
      ensures alone ==>
                && AnswersAs(r, AdmissionAlone(Last(tables), door, now))
                && (r.Ok? ==> AdmittedTo(Last(tables), door, r.value.pairId))
    {
      hide ValidRun;
      var admission, first := GetAdmission(door);
      if admission.None? || admission.value.expiresAt <= now {
        return Err(PairExpired, false), first;
      }
      assert AdmitsTo(At(tables, first), door, now);
      var pair, k := PairByID(admission.value.pairId, now);
      assert AdmitsTo(At(tables, first), door, now);
      if pair.Err? {
        return Err(pair.code, pair.retryable), k;
      }
      if !DoorOf(admission.value.locator, admission.value.joinTokenHash, door)
         || !DoorOf(pair.value.locator, pair.value.joinTokenHash, door) {
        return Err(PairUnavailable, false), k;
      }
      assert AdmittedTo(At(tables, first), door, pair.value.pairId);
      return Ok(pair.value), k;
    }

    /** Take the other side of the pair that a locator or a join token admits to. */
    method JoinPair(locator: Id, joinTokenHash: Id, side: PairSide, now: int) returns (r: Result<Pair>, ghost at: nat)
      requires Valid() && side.connectionId != ABSENT
      modifies this
      ensures Extends(old(tables), old(events))
      ensures JoinAnswer(tables, events, |old(tables)|, r, at, Entrance(locator, joinTokenHash), side, now)
      ensures (locator == ABSENT) == (joinTokenHash == ABSENT) <==> r == Err(InvalidMessage, false)
      ensures mine == if r.Ok? then old(mine) + [at] else old(mine)
      ensures r.Err? && r.code == Internal ==> !Timely(tables, now)
      ensures old(Alone(now)) ==>
                AnswersAs(r, JoinAlone(Last(old(tables)), locator, joinTokenHash, side.connectionId, now))
    {
      hide ValidRun, OnTime, NoWayIn, Mismatched, CannotJoin, Admits;
      RunSize(tables, events);
      at := 0;
      if (locator == ABSENT) == (joinTokenHash == ABSENT) {
        return Err(InvalidMessage, false), at;
      }
      var door := if locator != ABSENT then LocatorKey(locator) else JoinKey(joinTokenHash);
      var found, atPair := PairByAdmission(door, now);
      at := atPair;
      if found.Err? {
        return Err(found.code, found.retryable), at;
      }
      var pair := found.value;
      if pair.status != PairOpen || pair.sideB.Some? {
        assert Turned(tables, atPair, at, pair.pairId, door, side.connectionId, now) by {
          NotOpenCannotJoin(At(tables, at), pair.pairId, door, side.connectionId, now);
        }
        return Err(PairFull, false), at;
      }
      var outcome;
      outcome, at := FillPair(pair, door, side, now, atPair);
      if outcome.TimedOut? {
        return Err(Internal, true), at;
      }
      if outcome.Refused? {
        assert Turned(tables, atPair, at, pair.pairId, door, side.connectionId, now);
        return Err(PairFull, false), at;
      }
      return Ok(pair.(sideB := Some(side), status := PairReady)), at;
    }

    /** The transaction of a join. */
    method FillPair(pair: Pair, door: AdmissionKey, side: PairSide, now: int, atPair: nat)
        returns (outcome: Outcome, ghost at: nat)
      requires Valid() && atPair < |tables| && side.connectionId != ABSENT
      requires PairRead(At(tables, atPair), pair.pairId) && Lookup(At(tables, atPair).pairs, pair.pairId) == Some(pair)
      modifies this
      ensures Tried(outcome, at, old(tables), old(events), old(mine), now) && atPair <= at
      ensures outcome.Done? ==> !CannotJoin(At(tables, at), pair.pairId, door, side.connectionId, now)
      ensures outcome.Done? ==> at < |events| && StepAt(events, at).JoinPair?
                                && Lookup(At(tables, at + 1).pairs, pair.pairId)
                                   == Some(pair.(sideB := Some(side), status := PairReady))
      ensures outcome.Refused? ==>
                at < |tables| && CannotJoin(At(tables, at), pair.pairId, door, side.connectionId, now)
    {
      hide ValidRun, OnTime, CannotJoin, AllHold;
      RunSize(tables, events);
      var e := Event.JoinPair(pair.pairId, door, side, now, atPair);
      outcome, at := Transact(e, [FillSideB(pair.pairId, side, door, now), SetPairing(side.connectionId, pair.pairId)]);
      JoinHolds(At(tables, at), pair.pairId, side, door, now);
      if outcome.Done? { JoinReported(tables, events, at, pair, door, side, now, atPair); }
    }

    /** One side's commit.  The pair returned is the one stored at table `at`, and it holds the commit. */
    method CommitPair(pairId: Id, commit: PairCommit, sourceKey: Id, now: int)
        returns (r: Result<CommitPairResult>, ghost at: nat)
      requires Valid() && CommitIds(commit)
      modifies this
      ensures Extends(old(tables), old(events))
      ensures CommitAnswer(tables, events, |old(events)|, r, at, pairId, commit, sourceKey, now)
      ensures mine == old(mine) || (r.Ok? && 0 < at && mine == old(mine) + [at - 1])
      ensures mine != old(mine) ==> |old(events)| < at <= |events| && FillsWith(StepAt(events, at - 1), pairId, commit)
      ensures r.Err? && r.retryable ==> CommitHindered(old(events), r.code, pairId, commit, sourceKey, now)
      ensures old(Alone(now)) ==>
                AnswersAs(r, CommitAlone(Last(old(tables)), pairId, commit, sourceKey, now))
    {
      hide ValidRun, ReciprocalCommits, HourKey, DayKey, Count, CommitIds, FillsWith, Unpairable, UsedUp, Takes;
      RunSize(tables, events);
      var found, atPair := PairByID(pairId, now);
      at := atPair;
      if found.Err? {
        return Err(found.code, found.retryable), at;
      }
      var pair := found.value;
      var slot;
      if FromSide(commit, pair.sideA) {
        slot := SlotA;
      } else if pair.sideB.Some? && FromSide(commit, pair.sideB.value) {
        slot := SlotB;
      } else {
        return Err(Forbidden, false), at;
      }
      var own := Commit(pair, slot);
      if pair.status == PairActive && own == Some(commit) {
        var link, atLink := GetLink(commit.linkId);
        ActiveHasLink(tables, events, at, atLink, pairId, commit);
        return Ok(CommitPairResult(pair, link, false)), at;
      }
      if own.Some? {
        if own.value != commit {
          return Err(Conflict, false), at;
        }
        return Ok(CommitPairResult(pair, None, false)), at;
      }
      if pair.status != PairReady && pair.status != PairHalf {
        return Err(PairUnavailable, false), at;
      }
      r, at := CommitWaiting(pairId, pair, slot, commit, sourceKey, now, atPair);
    }

    /** The rest of it, for a pair that was read waiting for this commit. */
    method CommitWaiting(pairId: Id, pair: Pair, slot: Slot, commit: PairCommit, sourceKey: Id, now: int, atPair: nat)
        returns (r: Result<CommitPairResult>, ghost at: nat)
      requires Valid() && CommitIds(commit) && atPair + 1 == |tables| && PairRead(At(tables, atPair), pairId)
      requires Lookup(At(tables, atPair).pairs, pairId) == Some(pair) && Waiting(pair, slot, commit)
      requires now < pair.expiresAt && (slot == SlotB ==> !FromSide(commit, pair.sideA))
      modifies this
      ensures Extends(old(tables), old(events))
      ensures CommitAnswer(tables, events, |old(events)|, r, at, pairId, commit, sourceKey, now)
      ensures mine == old(mine) || (r.Ok? && 0 < at && mine == old(mine) + [at - 1])
      ensures mine != old(mine) ==> |old(events)| < at <= |events| && FillsWith(StepAt(events, at - 1), pairId, commit)
      ensures r.Err? && r.retryable ==> CommitHindered(old(events), r.code, pairId, commit, sourceKey, now)
      ensures old(Alone(now)) ==> AnswersAs(r, CommitAlone(Last(old(tables)), pairId, commit, sourceKey, now))
    {
      hide ValidRun, ReciprocalCommits, HourKey, DayKey, Count, CommitIds, UsedUp, Takes, CommitAlone, Activatable,
           Unpairable;
      RunSize(tables, events);
      at := atPair;
      var other := Commit(pair, OtherSlot(slot));
      WaitingAlone(Last(tables), pairId, slot, commit, sourceKey, now);
      if other.None? {
        var outcome, k := CommitFirst(pairId, pair, slot, commit, now, atPair);
        RunSize(tables, events);
        if !outcome.Done? {
          return if outcome.TimedOut? then Err(Internal, true) else Err(Conflict, true), at;
        }
        return Ok(CommitPairResult(Filled(pair, slot, commit, PairHalf), None, false)), k + 1;
      }
      r, at := CommitLast(pairId, pair, slot, commit, other.value, sourceKey, now, atPair);
    }

    /** And for a pair that waits for this commit only. */
    method CommitLast(pairId: Id, pair: Pair, slot: Slot, commit: PairCommit, other: PairCommit, sourceKey: Id,
                      now: int, atPair: nat)
        returns (r: Result<CommitPairResult>, ghost at: nat)
      requires Valid() && CommitIds(commit) && atPair + 1 == |tables| && PairRead(At(tables, atPair), pairId)
      requires Lookup(At(tables, atPair).pairs, pairId) == Some(pair) && Waiting(pair, slot, commit)
      requires now < pair.expiresAt && (slot == SlotB ==> !FromSide(commit, pair.sideA))
      requires Commit(pair, OtherSlot(slot)) == Some(other)
      modifies this
      ensures Extends(old(tables), old(events))
      ensures CommitAnswer(tables, events, |old(events)|, r, at, pairId, commit, sourceKey, now)
      ensures mine == old(mine) || (r.Ok? && 0 < at && mine == old(mine) + [at - 1])
      ensures mine != old(mine) ==> |old(events)| < at <= |events| && FillsWith(StepAt(events, at - 1), pairId, commit)
      ensures r.Err? && r.retryable ==> CommitHindered(old(events), r.code, pairId, commit, sourceKey, now)
      ensures old(Alone(now)) ==> AnswersAs(r, CommitAlone(Last(old(tables)), pairId, commit, sourceKey, now))
    {
      hide ValidRun, ReciprocalCommits, HourKey, DayKey, Count, CommitIds, UsedUp, Takes, CommitAlone, Activatable,
           Unpairable;
      RunSize(tables, events);
      at := atPair;
      ghost var db := Last(tables);
      WaitingAlone(db, pairId, slot, commit, sourceKey, now);
      var first, second := other, commit;
      if slot == SlotA {
        first, second := commit, other;
      }
      var link := LinkFromCommits(first, second, now);
      ReciprocalEitherWay(first, second);
      if link.Err? {
        return Err(link.code, link.retryable), at;
      }
      if sourceKey == ABSENT {
        return Err(Internal, true), at;
      }
      var outcome, k := Activate(pairId, pair, slot, commit, first, second, link.value, sourceKey, now, atPair);
      RunSize(tables, events);
      if outcome.TimedOut? {
        return Err(Internal, true), at;
      }
      if outcome.Refused? {
        UsedUpCounts(At(tables, k), HourKey(sourceKey, now), At(tables, k).activationLimit);
        UsedUpCounts(At(tables, k), DayKey(now), ACTIVATIONS_PER_DAY);
        if outcome.failed[SOURCE_RATE_INDEX] || outcome.failed[GLOBAL_RATE_INDEX] {
          return Err(RateLimited, false), k;
        }
        if atPair + 1 == |tables| { NotActivatable(db, pairId, commit, first, second, sourceKey, now); }
        return Err(Conflict, true), at;
      }
      return Ok(CommitPairResult(Filled(pair, slot, commit, PairActive), Some(link.value), true)), k + 1;
    }

    /** The transaction of a first commit. */
    method CommitFirst(pairId: Id, pair: Pair, slot: Slot, commit: PairCommit, now: int, atPair: nat)
        returns (outcome: Outcome, ghost at: nat)
      requires Valid() && CommitIds(commit) && atPair < |tables| && PairRead(At(tables, atPair), pairId)
      requires Lookup(At(tables, atPair).pairs, pairId) == Some(pair) && Waiting(pair, slot, commit)
      requires Commit(pair, OtherSlot(slot)).None? && now < pair.expiresAt
      modifies this
      ensures Attempted(outcome, at, old(tables), old(events), old(mine), atPair, now) && at < |tables|
      ensures outcome.Done? ==>
                && |old(events)| <= at < |events| && FillsWith(StepAt(events, at), pairId, commit)
                && Lookup(At(tables, at + 1).pairs, pairId) == Some(Filled(pair, slot, commit, PairHalf))
    {
      hide ValidRun, ReadsLead, Writes, OnTime, Waiting, CommitIds, AllHold, Inv;
      RunSize(tables, events);
      if atPair + 1 == |tables| {
        TableIsSound(tables, events, atPair);
        FreshHalfHolds(Last(tables), pairId, slot, commit, now);
      }
      HalfLeads(tables, pair, slot, commit, now, atPair);
      outcome, at := Transact(CommitHalf(pairId, slot, commit, now, atPair),
                              [FillSlot(pairId, slot, commit, PairReady, PairHalf, now)]);
      if outcome.Done? { HalfReported(tables, events, at, pair, slot, commit, now, atPair); }
    }

    /** The transaction that activates: the second commit, the link, both endpoints and both quotas. */
    method Activate(pairId: Id, pair: Pair, slot: Slot, commit: PairCommit, first: PairCommit, second: PairCommit,
                    link: Link, sourceKey: Id, now: int, atPair: nat)
        returns (outcome: Outcome, ghost at: nat)
      requires Valid() && CommitIds(commit) && sourceKey != ABSENT && atPair < |tables|
      requires PairRead(At(tables, atPair), pairId) && Lookup(At(tables, atPair).pairs, pairId) == Some(pair)
      requires Waiting(pair, slot, commit) && OrderedAs(pair, slot, commit, first, second)
      requires LinkFromCommits(first, second, now) == Ok(link) && now < pair.expiresAt
      modifies this
      ensures Tried(outcome, at, old(tables), old(events), old(mine), now) && at < |tables|
      ensures outcome.Done? ==> Activatable(At(tables, at), first, second, sourceKey, now)
      ensures outcome.Done? ==>
                && |old(events)| <= at < |events| && StepAt(events, at).CommitFull?
                && FillsWith(StepAt(events, at), pairId, commit)
                && Lookup(At(tables, at + 1).pairs, pairId) == Some(Filled(pair, slot, commit, PairActive))
                && Lookup(At(tables, at + 1).links, commit.linkId) == Some(link)
      ensures outcome.Refused? ==>
                && |outcome.failed| == 6 && at + 1 == |tables|
                && (outcome.failed[SOURCE_RATE_INDEX] <==>
                    UsedUp(At(tables, at), HourKey(sourceKey, now), At(tables, at).activationLimit))
                && (outcome.failed[GLOBAL_RATE_INDEX] <==>
                    UsedUp(At(tables, at), DayKey(now), ACTIVATIONS_PER_DAY))
                && (atPair + 1 < |tables| || !Activatable(At(tables, at), first, second, sourceKey, now))
    {
      hide ValidRun, ReadsLead, Writes, ReciprocalCommits, LinkFromCommits, OnTime, HourKey, DayKey, Count, Holds,
           Waiting, CommitIds, Inv, RouteEvolves, PairEvolves, RateUpdate, AllHold, UsedUp, Takes, Verdicts;
      RunSize(tables, events);
      var limit := tables[|tables| - 1].activationLimit;
      var ops := [FillSlot(pairId, slot, commit, PairHalf, PairActive, now),
                  PutLink(link, Entry(pairId, first, second, sourceKey, now)),
                  UpsertEndpoint(NewEndpoint(first.self, now)),
                  UpsertEndpoint(NewEndpoint(second.self, now)),
                  RateUpdate(HourKey(sourceKey, now), limit),
                  RateUpdate(DayKey(now), ACTIVATIONS_PER_DAY)];
      ghost var before := |tables| - 1;
      FullLeads(tables, pair, slot, commit, first, second, link, sourceKey, now, atPair);
      outcome, at := Transact(CommitFull(pairId, slot, commit, sourceKey, now, atPair), ops);
      TablesEvolve(tables, events, before, at);
      ActivationHolds(At(tables, at), pairId, slot, commit, first, second, link, sourceKey, now);
      if atPair + 1 == |tables| {
        TableIsSound(tables, events, atPair);
        FreshFullHolds(Last(tables), pairId, slot, commit, now);
      }
      if outcome.Done? {
        FullReported(tables, events, at, pair, slot, commit, first, second, link, sourceKey, now, atPair);
      }
    }

    /** A member gives the pair up, unless it is ACTIVE already. */
    method CancelPair(pairId: Id, connectionId: Id, now: int) returns (r: Result<Option<Pair>>, ghost at: nat)
      requires Valid() && connectionId != ABSENT
      modifies this
      ensures Extends(old(tables), old(events))
      ensures CancelAnswer(tables, |old(tables)|, r, at, pairId, connectionId, now)
      ensures mine == old(mine) || (r.Ok? && r.value.Some? && 0 < at && mine == old(mine) + [at - 1])
      ensures r.Err? && r.retryable ==> r.code == Internal && !Timely(tables, now)
      ensures old(Alone(now)) ==>
                && AnswersAs(r, CancelAlone(Last(old(tables)), pairId, connectionId, now))
                && (r.Ok? ==> (r.value.None? <==> OutOfTime(Last(old(tables)), pairId, now)))
    {
      hide ValidRun;
      RunSize(tables, events);
      var found, atPair := PairByID(pairId, now);
      at := atPair;
      if found.Err? {
        return if found.code == PairExpired then Ok(None) else Err(found.code, found.retryable), at;
      }
      var pair := found.value;
      assert SameSides(At(tables, atPair), pairId, pair);
      if pair.sideA.connectionId != connectionId && (pair.sideB.None?
                                                     || pair.sideB.value.connectionId != connectionId) {
        return Err(Forbidden, false), at;
      }
      if pair.status == PairActive {
        return Err(Conflict, false), at;
      }
      if pair.status == PairClosed {
        return Ok(Some(pair)), at;
      }
      var outcome, k := ShutPair(pairId, connectionId, now, atPair);
      if outcome.TimedOut? {
        return Err(Internal, true), at;
      }
      if outcome.Refused? {
        ghost var active := At(tables, k);
        var current, atCurrent := PairByID(pairId, now);
        if current.Ok? && current.value.status == PairClosed {
          assert SameSides(At(tables, atCurrent), pairId, current.value);
          return Ok(Some(current.value)), atCurrent;
        }
        assert At(tables, k) == active;
        return Err(Conflict, false), k;
      }
      assert SameSides(At(tables, atPair), pairId, pair);
      return Ok(Some(pair.(status := PairClosed))), k + 1;
    }

    /** The transaction of a cancel. */
    method ShutPair(pairId: Id, connectionId: Id, now: int, atPair: nat) returns (outcome: Outcome, ghost at: nat)
      requires Valid() && atPair < |tables| && PairRead(At(tables, atPair), pairId)
      requires MayCancel(At(tables, atPair), pairId, connectionId, now)
      modifies this
      ensures Attempted(outcome, at, old(tables), old(events), old(mine), atPair, now)
      ensures atPair <= at < |tables| && |old(tables)| <= at + 1
      ensures outcome.Done? ==> at + 1 < |tables| && InStatus(At(tables, at + 1), pairId, PairClosed)
      ensures outcome.Refused? ==> InStatus(At(tables, at), pairId, PairActive)
    {
      hide ValidRun, OnTime;
      RunSize(tables, events);
      outcome, at := Transact(Event.CancelPair(pairId, connectionId, now, atPair), [ClosePair(pairId, ABSENT)]);
      if outcome.Refused? { CancelRefused(At(tables, at), pairId); }
      if outcome.Done? { RunLeaves(tables, events, at); }
    }

    // ----- connections and rates

    method Connection(connectionId: Id, now: int) returns (r: Result<Connection>, at: nat)
      requires Valid()
      modifies this
      ensures HasRead(old(tables), old(events), old(mine), at)
      ensures r.Ok? <==> AnyInTime(Lookup(At(tables, at).connections, connectionId), now)
      ensures r.Ok? ==> r.ToOption() == Lookup(At(tables, at).connections, connectionId)
      ensures r.Err? ==> r == Err(Unauthenticated, false)
    {
      hide ValidRun;
      var connection, k := GetConnection(connectionId);
      if connection.None? || connection.value.expiresAt <= now {
        return Err(Unauthenticated, false), k;
      }
      return Ok(connection.value), k;
    }

    method RateLimit(sourceKey: Id, action: nat, limit: int, now: int) returns (r: Result<()>, ghost at: nat)
      requires Valid()
      modifies this
      ensures Extends(old(tables), old(events))
      ensures RateAnswer(tables, |old(events)|, r, at, MinuteKey(sourceKey, action, now), limit)
      ensures r.Ok? ==> ChargesFor(StepAt(events, at), MinuteKey(sourceKey, action, now), limit)
      ensures alone && r.Ok? ==>
                |tables| == |old(tables)| + 1 && Last(tables) == Last(old(tables)).(rates := Last(tables).rates)
      ensures mine == if r.Ok? then old(mine) + [at] else old(mine)
      ensures alone ==> AnswersAs(r, RateAlone(Last(old(tables)), MinuteKey(sourceKey, action, now), limit))
    {
      hide ValidRun, Step, OnTime;
      RunSize(tables, events);
      var key := MinuteKey(sourceKey, action, now);
      var e := Charge(key, limit, (key.bucket + 2) * MINUTE);
      var outcome, k := Transact(e, [BumpRate(key, limit, (key.bucket + 2) * MINUTE)]);
      ChargeHolds(At(tables, k), key, limit, (key.bucket + 2) * MINUTE);
      if outcome.TimedOut? {
        return Err(Internal, true), k;
      }
      if outcome.Refused? {
        return Err(RateLimited, true), k;
      }
      RunLeaves(tables, events, k);
      return Ok(()), k;
    }
  }
}
