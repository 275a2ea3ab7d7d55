/** What every run of the relay keeps about sessions, links, endpoints and their connections. */
module RouteTheorems {
  import opened Records
  import opened Table
  import opened Routing
  import opened Specs
  import opened Plans
  import opened Pairing
  import opened ActivationStep
  import opened Runs
  import opened Steps
  import opened Atomicity

  /** Step k of a valid run, from the tables before it. */
  lemma StepFollows(h: seq<Db>, events: seq<Event>, k: nat)
    requires ValidRun(h, events) && k < |events|
    ensures |h| == |events| + 1 && Sound(Upto(h, k)) && Last(Upto(h, k)) == At(h, k)
    ensures Follows(Upto(h, k), StepAt(events, k), At(h, k + 1))
  {
    hide Follows, Sound, Empty;
    RunPrefix(h, events, k);
    RunIsSound(h[..k + 1], events[..k]);
  }

  lemma TablesEvolve(h: seq<Db>, events: seq<Event>, i: nat, j: nat)
    requires ValidRun(h, events) && i <= j < |h|
    ensures Inv(At(h, i)) && Inv(At(h, j)) && Evolves(At(h, i), At(h, j))
  {
    hide Inv, Evolves, ValidRun;
    RunIsSound(h, events);
  }

  lemma RunSize(h: seq<Db>, events: seq<Event>)
    requires ValidRun(h, events)
    ensures |h| == |events| + 1
  {
    hide Follows, Empty;
  }

  lemma TableIsSound(h: seq<Db>, events: seq<Event>, i: nat)
    requires ValidRun(h, events) && i < |h|
    ensures Inv(At(h, i))
  {
    hide *;
    TablesEvolve(h, events, i, i);
  }

  /** Every transaction that commits, whatever its reads missed, is one atomic step on the table it
      commits to.  Connect is the exception, and is atomic exactly when a connection record that it took
      for its own is still stored.  A disconnect that read its endpoint elsewhere never commits. */
  lemma RunIsAtomic(h: seq<Db>, events: seq<Event>, k: nat)
    requires ValidRun(h, events) && k < |events|
    ensures !StepAt(events, k).DropRecord?
    ensures AtomicStep(At(h, k), StepAt(events, k), At(h, k + 1))
            <==> (TookRecord(Upto(h, k), StepAt(events, k)) ==> OwnRecordStored(At(h, k), StepAt(events, k)))
  {
    hide ValidRun, Sound, Follows, AtomicRoute, AtomicPair, MissesRecord, TookRecord, OwnRecordStored;
    StepFollows(h, events, k);
    StepIsMove(Upto(h, k), StepAt(events, k), At(h, k + 1));
    if StepAt(events, k).DropRecord? { NeverDrops(Upto(h, k), StepAt(events, k), At(h, k + 1)); }
  }

  lemma RunSteps(h: seq<Db>, events: seq<Event>, k: nat)
    requires ValidRun(h, events) && k < |events|
    ensures |h| == |events| + 1 && Step(At(h, k), StepAt(events, k), At(h, k + 1))
  {
    hide ValidRun, Sound, Follows, Inv, Keeps, Moves;
    StepFollows(h, events, k);
    StepIsMove(Upto(h, k), StepAt(events, k), At(h, k + 1));
    TableIsSound(h, events, k);
    MovesKeep(At(h, k), StepAt(events, k), At(h, k + 1));
  }

  // ----- routes

  ghost predicate Up(db: Db, endpointId: Id, connectionId: Id) {
    && endpointId in db.endpoints
    && db.endpoints[endpointId].revokedAt == 0
    && db.endpoints[endpointId].connectionId == connectionId
    && connectionId != ABSENT
  }

  /** An ACTIVE session is pointed at by its link, its controller and its companion and by nothing else;
      the link is ACTIVE and both ends are up on the connections that the session recorded. */
  ghost predicate Routed(db: Db, id: Id) {
    && id in db.sessions
    && var s := db.sessions[id];
    && (forall l :: l in db.links ==> (db.links[l].activeSessionId == id <==> l == s.linkId))
    && (forall e :: e in db.endpoints ==>
          (db.endpoints[e].activeSessionId == id <==> e == s.controllerId || e == s.companionId))
    && s.linkId in db.links
    && db.links[s.linkId].status == LinkActive
    && db.links[s.linkId].controllerId == s.controllerId
    && db.links[s.linkId].companionId == s.companionId
    && Up(db, s.controllerId, s.controllerConnectionId)
    && Up(db, s.companionId, s.companionConnectionId)
    && s.controllerConnectionId != s.companionConnectionId
  }

  ghost predicate IsActive(db: Db, id: Id) {
    id in db.sessions && db.sessions[id].status == SessionActive
  }

  /** A pointer names an ACTIVE session of the item that holds it, or one whose record has vanished. */
  ghost predicate PointersLive(db: Db) {
    && (forall l :: l in db.links && db.links[l].activeSessionId in db.sessions ==>
          var id := db.links[l].activeSessionId;
          IsActive(db, id) && db.sessions[id].linkId == l)
    && (forall e :: e in db.endpoints && db.endpoints[e].activeSessionId in db.sessions ==>
          var id := db.endpoints[e].activeSessionId;
          IsActive(db, id) && OnSession(db.sessions[id], e))
  }

  /** No two ACTIVE sessions share a link or an endpoint. */
  ghost predicate Disjoint(db: Db) {
    forall id, other ::
      IsActive(db, id) && IsActive(db, other) && Overlap(db.sessions[id], db.sessions[other]) ==> id == other
  }

  ghost predicate Overlap(s: Session, t: Session) {
    || s.linkId == t.linkId
    || OnSession(s, t.controllerId)
    || OnSession(s, t.companionId)
  }

  lemma ActiveIsRouted(db: Db, id: Id)
    requires RouteInv(db) && IsActive(db, id)
    ensures Routed(db, id)
  {
    hide Disjoint;
    var s := db.sessions[id];
    assert SessionOk(db, id);
    forall l | l in db.links ensures db.links[l].activeSessionId == id <==> l == s.linkId {
      assert LinkOk(db, l);
    }
    forall e | e in db.endpoints
      ensures db.endpoints[e].activeSessionId == id <==> e == s.controllerId || e == s.companionId
    {
      assert EndpointOk(db, e);
    }
    assert LinkOk(db, s.linkId);
  }

  lemma PointersAreLive(db: Db)
    requires RouteInv(db)
    ensures PointersLive(db)
  {
    forall l | l in db.links && db.links[l].activeSessionId in db.sessions
      ensures IsActive(db, db.links[l].activeSessionId) && db.sessions[db.links[l].activeSessionId].linkId == l
    {
      assert LinkOk(db, l) && SessionOk(db, db.links[l].activeSessionId);
    }
    forall e | e in db.endpoints && db.endpoints[e].activeSessionId in db.sessions
      ensures IsActive(db, db.endpoints[e].activeSessionId)
              && OnSession(db.sessions[db.endpoints[e].activeSessionId], e)
    {
      assert EndpointOk(db, e) && SessionOk(db, db.endpoints[e].activeSessionId);
    }
  }

  /** In every table of every run the routes are consistent, and no two ACTIVE sessions share a link or
      an endpoint. */
  lemma RoutesAreConsistent(h: seq<Db>, events: seq<Event>, i: nat)
    requires ValidRun(h, events) && i < |h|
    ensures forall id :: IsActive(At(h, i), id) ==> Routed(At(h, i), id)
    ensures PointersLive(At(h, i)) && Disjoint(At(h, i))
  {
    hide ValidRun, RouteInv, PairInv, LogInv, QuotaInv;
    TableIsSound(h, events, i);
    forall id | IsActive(At(h, i), id) ensures Routed(At(h, i), id) { ActiveIsRouted(At(h, i), id); }
    PointersAreLive(At(h, i));
  }

  // ----- revocation

  predicate LinkGone(db: Db, linkId: Id) { linkId in db.links && db.links[linkId].status == LinkRevoked }

  predicate EndpointGone(db: Db, endpointId: Id) {
    endpointId in db.endpoints && db.endpoints[endpointId].revokedAt != 0
  }

  ghost predicate LinkDead(db: Db, linkId: Id) {
    && LinkGone(db, linkId) && db.links[linkId].activeSessionId == ABSENT
    && (forall id :: IsActive(db, id) ==> db.sessions[id].linkId != linkId)
  }

  /** No session, no connection and no credential is left on a dead endpoint. */
  ghost predicate EndpointDead(db: Db, endpointId: Id) {
    && EndpointGone(db, endpointId)
    && db.endpoints[endpointId].connectionId == ABSENT
    && db.endpoints[endpointId].credentialHash == ABSENT
    && (forall id :: IsActive(db, id) ==> !OnSession(db.sessions[id], endpointId))
    && (forall c :: c in db.connections ==> db.connections[c].endpointId != endpointId)
  }

  lemma RevokedLinkStaysDead(a: Db, b: Db, linkId: Id)
    requires RouteInv(b) && RouteEvolves(a, b) && LinkGone(a, linkId)
    ensures LinkDead(b, linkId) && Lookup(b.links, linkId) == Lookup(a.links, linkId)
  {
    assert LinkOk(b, linkId) && LinkEvolves(a, b, linkId);
    forall id | IsActive(b, id) ensures b.sessions[id].linkId != linkId { assert SessionOk(b, id); }
  }

  lemma RevokedEndpointStaysDead(a: Db, b: Db, endpointId: Id)
    requires RouteInv(b) && RouteEvolves(a, b) && EndpointGone(a, endpointId)
    ensures EndpointDead(b, endpointId) && Lookup(b.endpoints, endpointId) == Lookup(a.endpoints, endpointId)
  {
    assert EndpointOk(b, endpointId) && EndpointEvolves(a, b, endpointId);
    forall id | IsActive(b, id) ensures !OnSession(b.sessions[id], endpointId) { assert SessionOk(b, id); }
    forall c | c in b.connections ensures b.connections[c].endpointId != endpointId { assert ConnectionOk(b, c); }
  }

  /** A step that would use the link: open a session on it, revoke it again, or pair it anew. */
  ghost predicate UsesLink(e: Event, linkId: Id) {
    || (e.OpenSession? && e.linkId == linkId)
    || (e.RevokeLink? && e.linkId == linkId)
    || (e.CommitFull? && e.commit.linkId == linkId)
  }

  /** A step that would use the endpoint: connect it, act for it, or pair it. */
  ghost predicate UsesEndpoint(e: Event, endpointId: Id) {
    || (e.ConnectEndpoint? && e.c.endpointId == endpointId)
    || ((e.OpenSession? || e.RevokeLink? || e.Rotate? || e.RevokeEndpoint?) && e.endpointId == endpointId)
    || (e.CloseSession? && e.fence.Fence? && e.fence.endpointId == endpointId)
    || (e.CommitFull? && (e.commit.self.endpointId == endpointId || e.commit.peer.endpointId == endpointId))
  }

  /** Once REVOKED a link never changes again, has no ACTIVE session, and no step uses it. */
  lemma LinkRevocationIsPermanent(h: seq<Db>, events: seq<Event>, i: nat, j: nat, linkId: Id)
    requires ValidRun(h, events) && i <= j < |h| && LinkGone(At(h, i), linkId)
    ensures LinkDead(At(h, j), linkId) && Lookup(At(h, j).links, linkId) == Lookup(At(h, i).links, linkId)
    ensures j < |events| ==> !UsesLink(StepAt(events, j), linkId)
  {
    hide ValidRun, RouteInv, PairInv, LogInv, QuotaInv, RouteEvolves, PairEvolves, Step, UsesLink;
    TablesEvolve(h, events, i, j);
    RevokedLinkStaysDead(At(h, i), At(h, j), linkId);
    if j < |events| {
      RunSteps(h, events, j);
      RevokedLinkIsUnused(At(h, j), StepAt(events, j), At(h, j + 1), linkId);
    }
  }

  /** Once revoked an endpoint never changes again, keeps neither session, connection nor credential, and
      no step uses it. */
  lemma EndpointRevocationIsPermanent(h: seq<Db>, events: seq<Event>, i: nat, j: nat, endpointId: Id)
    requires ValidRun(h, events) && i <= j < |h| && EndpointGone(At(h, i), endpointId)
    ensures EndpointDead(At(h, j), endpointId)
    ensures Lookup(At(h, j).endpoints, endpointId) == Lookup(At(h, i).endpoints, endpointId)
    ensures j < |events| ==> !UsesEndpoint(StepAt(events, j), endpointId)
  {
    hide ValidRun, RouteInv, PairInv, LogInv, QuotaInv, RouteEvolves, PairEvolves, Step, UsesEndpoint;
    TablesEvolve(h, events, i, j);
    RevokedEndpointStaysDead(At(h, i), At(h, j), endpointId);
    if j < |events| {
      RunSteps(h, events, j);
      RevokedEndpointIsUnused(At(h, j), StepAt(events, j), At(h, j + 1), endpointId);
    }
  }

  lemma RevokedLinkIsUnused(db: Db, e: Event, next: Db, linkId: Id)
    requires Step(db, e, next) && LinkDead(db, linkId)
    ensures !UsesLink(e, linkId)
  {
    hide Keeps, PairInv, LogInv, QuotaInv, RouteInv, SpecRevokeLink, SpecOpen, SpecActivate;
    if e.OpenSession? { LinkIsItsKey(db, e.linkId); }
  }

  lemma LinkIsItsKey(db: Db, linkId: Id)
    requires RouteInv(db)
    ensures linkId in db.links ==> db.links[linkId].linkId == linkId != ABSENT
  {
    if linkId in db.links { assert LinkOk(db, linkId); }
  }

  lemma RevokedEndpointIsUnused(db: Db, e: Event, next: Db, endpointId: Id)
    requires Step(db, e, next) && EndpointGone(db, endpointId)
    ensures !UsesEndpoint(e, endpointId)
  {
    hide Inv, Keeps, SpecRevokeLink, SpecOpen, SpecActivate, SpecRotate, SpecRevokeEndpoint, SpecClose, Reattached;
  }

  // ----- closing, fences, and items named once

  /** The session that a transaction ends, as the invocation will report it closed now. */
  ghost predicate EndsSession(ws: seq<Write>, id: Id) { exists now :: EndSession(id, now) in ws }

  lemma EffectLeaves(db: Db, w: Write, id: Id)
    requires Target(w) != SessionItem(id)
    ensures Lookup(Effect(db, w).sessions, id) == Lookup(db.sessions, id)
  {
  }

  lemma {:induction false} ApplyLeaves(db: Db, ws: seq<Write>, id: Id)
    requires forall w :: w in ws ==> Target(w) != SessionItem(id)
    ensures Lookup(Apply(db, ws).sessions, id) == Lookup(db.sessions, id)
    decreases |ws|
  {
    hide Effect, Target;
    if ws != [] {
      EffectLeaves(db, ws[0], id);
      ApplyLeaves(Effect(db, ws[0]), ws[1..], id);
    }
  }

  /** In a transaction that names no item twice, ending a session closes it whatever else is written. */
  lemma {:induction false} EndSessionCloses(db: Db, ws: seq<Write>, id: Id, now: int, s: Session)
    requires DistinctTargets(ws) && EndSession(id, now) in ws && Lookup(db.sessions, id) == Some(s)
    ensures Lookup(Apply(db, ws).sessions, id) == Some(Closed(s, now))
    decreases |ws|
  {
    assert Target(EndSession(id, now)) == SessionItem(id);
    var i: nat :| i < |ws| && ws[i] == EndSession(id, now);
    if i == 0 {
      assert Lookup(Effect(db, ws[0]).sessions, id) == Some(Closed(s, now));
      hide Effect, Target;
      forall w | w in ws[1..] ensures Target(w) != SessionItem(id) {
        var k :| 1 <= k < |ws| && ws[k] == w;
        assert Target(ws[0]) != Target(ws[k]);
      }
      ApplyLeaves(Effect(db, ws[0]), ws[1..], id);
    } else {
      assert Target(ws[0]) != Target(ws[i]);
      EffectLeaves(db, ws[0], id);
      hide Effect, Target;
      assert ws[1..][i - 1] == ws[i];
      EndSessionCloses(Effect(db, ws[0]), ws[1..], id, now, s);
    }
  }

  /** At step k a transaction commits that ends the session. */
  ghost predicate ClosedBy(h: seq<Db>, events: seq<Event>, k: nat, id: Id) {
    k < |events| && EndsSession(Writes(Upto(h, k), StepAt(events, k)), id)
  }

  predicate IsEnded(db: Db, id: Id) { id in db.sessions && db.sessions[id].status == SessionClosed }

  lemma EndingCloses(h: seq<Db>, e: Event, next: Db, id: Id)
    requires Follows(h, e, next) && EndsSession(Writes(h, e), id)
    ensures IsActive(Last(h), id) && IsEnded(next, id)
  {
    hide Follows, OnTime, WriteList, AllHold, Apply, DistinctTargets;
    var ws := Writes(h, e);
    var now :| EndSession(id, now) in ws;
    Committed(h, e, next);
    hide ReadsLead, Writes;
    EachHolds(ws, Last(h), EndSession(id, now));
    EndSessionCloses(Last(h), ws, id, now, Last(h).sessions[id]);
  }

  /** Of all the invocations of a run, at most one closes a given session; it found the session ACTIVE,
      leaves it CLOSED, and no later table has it ACTIVE again. */
  lemma SessionClosesOnce(h: seq<Db>, events: seq<Event>, k: nat, m: nat, id: Id)
    requires ValidRun(h, events) && m < |events| && ClosedBy(h, events, k, id)
    ensures IsActive(At(h, k), id) && IsEnded(At(h, k + 1), id)
    ensures k < m ==> !IsActive(At(h, m), id)
    ensures ClosedBy(h, events, m, id) ==> k == m
  {
    hide ValidRun, EndsSession, Writes;
    assert |h| == |events| + 1 by { RunSize(h, events); }
    ClosingStays(h, events, k, m, id);
    if ClosedBy(h, events, m, id) { ClosingStays(h, events, m, k, id); }
  }

  lemma ClosingStays(h: seq<Db>, events: seq<Event>, k: nat, m: nat, id: Id)
    requires ValidRun(h, events) && m < |h| && ClosedBy(h, events, k, id)
    ensures IsActive(At(h, k), id) && IsEnded(At(h, k + 1), id)
    ensures k < m ==> !IsActive(At(h, m), id)
  {
    hide ValidRun, Follows, Sound, EndsSession, Writes, RouteInv, RouteEvolves, PairInv, PairEvolves, LogInv, QuotaInv;
    StepFollows(h, events, k);
    EndingCloses(Upto(h, k), StepAt(events, k), At(h, k + 1), id);
    if k < m {
      TablesEvolve(h, events, k + 1, m);
      EndedStays(At(h, k + 1), At(h, m), id);
    }
  }

  lemma EndedStays(a: Db, b: Db, id: Id)
    requires RouteInv(a) && RouteEvolves(a, b) && IsEnded(a, id)
    ensures !IsActive(b, id)
  {
    assert SessionOk(a, id);
    assert id in b.sessions ==> SessionEvolves(a, b, id);
  }

  function Caller(e: Event): Option<(Id, Id)> {
    match e
    case RevokeLink(_, endpointId, connectionId, _, _, _, _) => Some((endpointId, connectionId))
    case Rotate(endpointId, connectionId, _, _) => Some((endpointId, connectionId))
    case RevokeEndpoint(endpointId, connectionId, _, _, _) => Some((endpointId, connectionId))
    case OpenSession(_, endpointId, connectionId, _, _, _, _, _) => Some((endpointId, connectionId))
    case CloseSession(_, Fence(endpointId, connectionId), _, _, _) => Some((endpointId, connectionId))
    case _ => None
  }

  ghost predicate CallerIsCurrent(db: Db, e: Event) {
    match Caller(e)
    case Some((endpointId, connectionId)) => CurrentCaller(db, endpointId, connectionId)
    case None => true
  }

  /** What a caller is authorised for commits only while the caller's connection is current and its
      endpoint unrevoked. */
  lemma CallersAreCurrent(h: seq<Db>, events: seq<Event>, k: nat)
    requires ValidRun(h, events) && k < |events|
    ensures CallerIsCurrent(At(h, k), StepAt(events, k))
  {
    hide ValidRun, Inv, Keeps, SpecRevokeLink, SpecOpen, SpecRotate, SpecRevokeEndpoint, SpecClose, CanOpen,
         OpenedSession, CurrentCaller;
    RunSteps(h, events, k);
  }
}
