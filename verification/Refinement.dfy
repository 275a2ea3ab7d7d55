/** Write lists built from stale reads do, whenever they commit, what one atomic step at the instant of
    the commit would do. */
module Refinement {
  import opened Records
  import opened Table
  import opened Routing
  import opened Transitions
  import opened Specs
  import opened Plans

  /** A read of an earlier table: everything since has evolved from it. */
  ghost predicate Earlier(a: Db, b: Db) {
    RouteInv(a) && RouteEvolves(a, b)
  }

  /** The session an endpoint still points at when its own transaction commits was there, ACTIVE and
      on that endpoint, when it was read; if it was not there, it is not there now. */
  lemma HeldSessionAsRead(atSession: Db, db: Db, endpointId: Id, sessionId: Id)
    requires Earlier(atSession, db) && RouteInv(db)
    requires endpointId in db.endpoints && db.endpoints[endpointId].activeSessionId == sessionId
    requires sessionId != ABSENT && sessionId in atSession.seenSessions
    ensures sessionId in atSession.sessions ==>
              && SessionOk(atSession, sessionId)
              && atSession.sessions[sessionId].status == SessionActive
              && OnSession(atSession.sessions[sessionId], endpointId)
              && endpointId in atSession.endpoints
              && atSession.endpoints[endpointId].activeSessionId == sessionId
    ensures sessionId !in atSession.sessions ==> sessionId !in db.sessions
    ensures sessionId in db.sessions ==> SameRoute(atSession.sessions[sessionId], db.sessions[sessionId])
  {
    assert EndpointEvolves(atSession, db, endpointId);
    assert EndpointOk(atSession, endpointId);
    if sessionId in db.sessions { assert SessionEvolves(atSession, db, sessionId); }
    if sessionId in atSession.sessions { assert SessionOk(atSession, sessionId); }
  }

  lemma ReleaseCommutes(db: Db, s: Session, now: int, id: Id, e: Endpoint, connections: map<Id, Connection>,
                        seen: set<Id>)
    requires e.activeSessionId != s.sessionId
    ensures ReleaseSession(ReplaceEndpoint(db, id, e, connections, seen), s, now)
            == ReplaceEndpoint(ReleaseSession(db, s, now), id, e, connections, seen)
  {
    assert ClearEndpoints(db.endpoints[id := e], {s.controllerId, s.companionId}, s.sessionId)
           == ClearEndpoints(db.endpoints, {s.controllerId, s.companionId}, s.sessionId)[id := e];
  }

  lemma ReplaceForgets(db: Db, id: Id, held: Id, e: Endpoint, connections: map<Id, Connection>, seen: set<Id>)
    ensures ReplaceEndpoint(db.(endpoints := ClearEndpoints(db.endpoints, {id}, held)), id, e, connections, seen)
            == ReplaceEndpoint(db, id, e, connections, seen)
  {
    assert ClearEndpoints(db.endpoints, {id}, held)[id := e] == db.endpoints[id := e];
  }

  lemma SameRouteReleasesSame(db: Db, s: Session, t: Session, now: int)
    requires SameRoute(s, t)
    ensures ReleaseSession(db, s, now) == ReleaseSession(db, t, now)
  {
  }

  /** Where the reads of one transition were taken, in the order in which they were taken. */
  datatype Reads = Reads(session: Db, link: Db, controller: Db, companion: Db)

  ghost predicate InOrder(r: Reads, db: Db) {
    && Earlier(r.session, db) && Earlier(r.link, db) && Earlier(r.controller, db) && Earlier(r.companion, db)
    && r.session.seenSessions <= r.link.seenSessions
    && r.session.seenSessions <= r.controller.seenSessions
    && r.session.seenSessions <= r.companion.seenSessions
  }

  function Tail(r: Reads, s: Session, now: int, omit: set<Item>, fence: Fence): seq<Write> {
    TransitionWrites(s, Lookup(r.link.links, s.linkId), Lookup(r.controller.endpoints, s.controllerId),
                     Lookup(r.companion.endpoints, s.companionId), now, omit, fence)
  }

  lemma TailIsRelease(r: Reads, db: Db, start: Db, s: Session, now: int, omit: set<Item>, fence: Fence)
    requires InOrder(r, db) && AsRead(r.session, s)
    requires s.sessionId != ABSENT && s.controllerId != ABSENT && s.companionId != ABSENT
    requires s.controllerId != s.companionId
    requires AllHold(Tail(r, s, now, omit, fence), db)
    requires OmittedCleared(db, start, s, omit)
    ensures Apply(start, Tail(r, s, now, omit, fence)) == ReleaseSession(start, s, now)
  {
    StaleReadsAgree(r.session, r.link, r.controller, r.companion, db, s, now, omit, fence);
    WritesAreRelease(db, start, s, Lookup(r.link.links, s.linkId), Lookup(r.controller.endpoints, s.controllerId),
                     Lookup(r.companion.endpoints, s.companionId), now, omit, fence);
  }

  /** An ACTIVE session as read, still ACTIVE when the transition that ends it commits. */
  lemma EndedSessionIsStored(r: Reads, db: Db, s: Session, now: int, omit: set<Item>, fence: Fence)
    requires InOrder(r, db)
    requires s.sessionId in r.session.sessions && r.session.sessions[s.sessionId] == s && s.status == SessionActive
    requires AllHold(Tail(r, s, now, omit, fence), db)
    ensures s.sessionId in db.sessions && db.sessions[s.sessionId].status == SessionActive
    ensures SameRoute(s, db.sessions[s.sessionId])
    ensures s.sessionId != ABSENT && s.controllerId != s.companionId
    ensures s.controllerId != ABSENT && s.companionId != ABSENT
  {
    assert SessionOk(r.session, s.sessionId);
    hide RouteInv;
    TransitionConditions(db, s, Lookup(r.link.links, s.linkId), Lookup(r.controller.endpoints, s.controllerId),
                         Lookup(r.companion.endpoints, s.companionId), now, omit, fence);
    assert SessionEvolves(r.session, db, s.sessionId);
  }

  lemma PreparedByReplace(db: Db, s: Session, id: Id, e: Endpoint, connections: map<Id, Connection>, seen: set<Id>)
    requires e.activeSessionId != s.sessionId
    ensures OmittedCleared(db, ReplaceEndpoint(db, id, e, connections, seen), s, {EndpointItem(id)})
  {
  }

  /** The caller's own writes on its endpoint, then the transition: one atomic replacement after the
      release of the held session. */
  lemma HeldReleased(r: Reads, db: Db, own: seq<Write>, s: Session, endpointId: Id, e: Endpoint,
                     connections: map<Id, Connection>, seen: set<Id>, now: int)
    requires InOrder(r, db) && RouteInv(db)
    requires endpointId in db.endpoints && db.endpoints[endpointId].activeSessionId == s.sessionId
    requires e.activeSessionId == ABSENT
    requires Apply(db, own) == ReplaceEndpoint(db, endpointId, e, connections, seen)
    requires s.sessionId in r.session.sessions && r.session.sessions[s.sessionId] == s && s.sessionId != ABSENT
    requires AllHold(Tail(r, s, now, {EndpointItem(endpointId)}, NoFence), db)
    ensures Apply(db, own + Tail(r, s, now, {EndpointItem(endpointId)}, NoFence))
            == ReplaceEndpoint(ReleaseHeld(db, endpointId, now), endpointId, e, connections, seen)
  {
    var omit := {EndpointItem(endpointId)};
    var start := ReplaceEndpoint(db, endpointId, e, connections, seen);
    assert s.sessionId in r.session.seenSessions by { assert SessionOk(r.session, s.sessionId); }
    HeldSessionAsRead(r.session, db, endpointId, s.sessionId);
    PreparedByReplace(db, s, endpointId, e, connections, seen);
    hide RouteInv, RouteEvolves, AllHold, TransitionWrites, OmittedCleared, ReplaceEndpoint, Apply, ReleaseSession;
    EndedSessionIsStored(r, db, s, now, omit, NoFence);
    TailIsRelease(r, db, start, s, now, omit, NoFence);
    ApplyConcat(db, own, Tail(r, s, now, omit, NoFence));
    ReleaseCommutes(db, s, now, endpointId, e, connections, seen);
    SameRouteReleasesSame(db, s, db.sessions[s.sessionId], now);
  }

  /** The same with a held session that was gone when it was read, or with none. */
  lemma NothingHeld(db: Db, own: seq<Write>, endpointId: Id, e: Endpoint,
                    connections: map<Id, Connection>, seen: set<Id>, now: int)
    requires endpointId in db.endpoints && db.endpoints[endpointId].activeSessionId !in db.sessions
    requires Apply(db, own) == ReplaceEndpoint(db, endpointId, e, connections, seen)
    ensures Apply(db, own + [])
            == ReplaceEndpoint(ReleaseHeld(db, endpointId, now), endpointId, e, connections, seen)
  {
    assert own + [] == own;
    ReplaceForgets(db, endpointId, db.endpoints[endpointId].activeSessionId, e, connections, seen);
  }

  // ----- Connect

  /** What $connect found when it looked for a connection record of its own. */
  predicate SameAsRead(endpoint: Endpoint, atExisting: Db, c: Connection) {
    endpoint.connectionId == c.connectionId && SameConnection(atExisting, c)
  }

  function SessionRead(endpoint: Endpoint, atSession: Db): Option<Session> {
    if endpoint.activeSessionId == ABSENT then None else Lookup(atSession.sessions, endpoint.activeSessionId)
  }

  /** The session already runs on this very connection. */
  predicate RunsOn(s: Session, endpointId: Id, connectionId: Id) {
    && s.status == SessionActive
    && ((s.controllerId == endpointId && s.controllerConnectionId == connectionId)
        || (s.companionId == endpointId && s.companionConnectionId == connectionId))
  }

  predicate ConnectReaches(atEndpoint: Db, atExisting: Db, atSession: Db, c: Connection, credentialHash: Id) {
    && c.endpointId in atEndpoint.endpoints
    && var endpoint := atEndpoint.endpoints[c.endpointId];
    && endpoint.revokedAt == 0
    && endpoint.credentialHash == credentialHash
    && !(&& SameAsRead(endpoint, atExisting, c)
         && (endpoint.activeSessionId == ABSENT
             || (SessionRead(endpoint, atSession).Some?
                 && RunsOn(SessionRead(endpoint, atSession).value, c.endpointId, c.connectionId))))
  }

  function ConnectPlan(atEndpoint: Db, atExisting: Db, r: Reads, c: Connection, credentialHash: Id): seq<Write>
    requires c.endpointId in atEndpoint.endpoints
  {
    var endpoint := atEndpoint.endpoints[c.endpointId];
    var session := SessionRead(endpoint, r.session);
    var s := if session.Some? then session.value else NO_SESSION;
    ConnectWrites(c, credentialHash, endpoint, SameAsRead(endpoint, atExisting, c), session,
                  Lookup(r.link.links, s.linkId), Lookup(r.controller.endpoints, s.controllerId),
                  Lookup(r.companion.endpoints, s.companionId))
  }

  lemma OwnConnectApplies(db: Db, c: Connection, credentialHash: Id, endpoint: Endpoint, same: bool)
    requires AllHold(OwnConnectWrites(c, credentialHash, endpoint, same), db)
    requires same ==> endpoint.connectionId == c.connectionId
    ensures EndpointTakes(db, c, credentialHash, !same)
    ensures endpoint.activeSessionId == db.endpoints[c.endpointId].activeSessionId
    ensures endpoint.connectionId == db.endpoints[c.endpointId].connectionId
    ensures Apply(db, OwnConnectWrites(c, credentialHash, endpoint, same))
            == ReplaceEndpoint(db, c.endpointId, Attached(db.endpoints[c.endpointId], c),
                               ConnectionsAfter(db, c, endpoint.connectionId, !same), SeenAfter(db, c, !same))
  {
    var put := PutConnection(c);
    var attach := AttachConnection(c.endpointId, credentialHash, endpoint.connectionId, endpoint.activeSessionId,
                                   c.connectionId, c.connectedAt);
    var drop := DeleteConnection(endpoint.connectionId, false);
    var dropping := endpoint.connectionId != ABSENT && endpoint.connectionId != c.connectionId;
    var own := OwnConnectWrites(c, credentialHash, endpoint, same);
    assert attach in own;
    assert !same ==> put in own;
    ApplyOpt(db, !same, put, [attach] + Opt(dropping, drop));
    var d1 := if same then db else Effect(db, put);
    ApplyOpt(d1, true, attach, Opt(dropping, drop));
    ApplyOpt(Effect(d1, attach), dropping, drop, []);
    assert Opt(dropping, drop) + [] == Opt(dropping, drop);
  }

  lemma ConnectRefines(atEndpoint: Db, atExisting: Db, r: Reads, db: Db, c: Connection, credentialHash: Id)
    requires Earlier(atEndpoint, db) && InOrder(r, db) && RouteInv(db)
    requires atEndpoint.seenSessions <= r.session.seenSessions
    requires ConnectReaches(atEndpoint, atExisting, r.session, c, credentialHash)
    requires AllHold(ConnectPlan(atEndpoint, atExisting, r, c, credentialHash), db)
    ensures var same := SameAsRead(atEndpoint.endpoints[c.endpointId], atExisting, c);
            && EndpointTakes(db, c, credentialHash, !same)
            && Apply(db, ConnectPlan(atEndpoint, atExisting, r, c, credentialHash)) == Reattached(db, c, !same)
  {
    var endpoint := atEndpoint.endpoints[c.endpointId];
    var same := SameAsRead(endpoint, atExisting, c);
    var session := SessionRead(endpoint, r.session);
    var own := OwnConnectWrites(c, credentialHash, endpoint, same);
    var plan := ConnectPlan(atEndpoint, atExisting, r, c, credentialHash);
    var held := endpoint.activeSessionId;
    assert plan[..|own|] == own;
    AllHoldConcat(db, own, plan[|own|..]);
    assert own + plan[|own|..] == plan;
    OwnConnectApplies(db, c, credentialHash, endpoint, same);
    var e := Attached(db.endpoints[c.endpointId], c);
    var connections := ConnectionsAfter(db, c, endpoint.connectionId, !same);
    var seen := SeenAfter(db, c, !same);
    assert held != ABSENT ==> held in atEndpoint.seenSessions by { assert EndpointOk(atEndpoint, c.endpointId); }
    if held != ABSENT {
      HeldSessionAsRead(r.session, db, c.endpointId, held);
    } else {
      forall id | id in db.sessions ensures id != ABSENT { assert SessionOk(db, id); }
    }
    hide RouteInv, RouteEvolves, AllHold, TransitionWrites, OwnConnectWrites, Apply, ReplaceEndpoint, ConnectionsAfter;
    if session.Some? {
      HeldReleased(r, db, own, session.value, c.endpointId, e, connections, seen, c.connectedAt);
    } else {
      NothingHeld(db, own, c.endpointId, e, connections, seen, c.connectedAt);
    }
  }

  /** Connect is atomic exactly when a connection record it took for its own is still stored: one that
      its TTL takes between that read and the commit is not put again. */
  lemma ConnectExact(db: Db, c: Connection, same: bool)
    requires c.endpointId in db.endpoints
    requires if same then SameConnection(db, c) <==> c.connectionId in db.connections else !SameConnection(db, c)
    requires same ==> db.endpoints[c.endpointId].connectionId == c.connectionId
    ensures Reattached(db, c, !same) == SpecConnect(db, c)
            <==> (same ==> c.connectionId in db.connections)
  {
    hide ReleaseHeld, Attached;
    if same && c.connectionId !in db.connections {
      assert c.connectionId in SpecConnect(db, c).connections;
    }
  }

  lemma SameConnectionStays(atExisting: Db, db: Db, c: Connection)
    requires Earlier(atExisting, db) && SameConnection(atExisting, c)
    ensures SameConnection(db, c) <==> c.connectionId in db.connections
  {
    assert ConnectionOk(atExisting, c.connectionId);
    if c.connectionId in db.connections {
      assert ConnectionEvolves(atExisting, db, c.connectionId);
    }
  }

  // ----- Disconnect of an endpoint

  predicate DisconnectReaches(atConnection: Db, atEndpoint: Db, connectionId: Id) {
    && connectionId in atConnection.connections
    && var endpointId := atConnection.connections[connectionId].endpointId;
    && endpointId != ABSENT
    && endpointId in atEndpoint.endpoints
    && atEndpoint.endpoints[endpointId].connectionId == connectionId
  }

  function DisconnectPlan(atConnection: Db, atEndpoint: Db, r: Reads, connectionId: Id, now: int): seq<Write>
    requires DisconnectReaches(atConnection, atEndpoint, connectionId)
  {
    var endpointId := atConnection.connections[connectionId].endpointId;
    var endpoint := atEndpoint.endpoints[endpointId];
    var session := SessionRead(endpoint, r.session);
    var s := if session.Some? then session.value else NO_SESSION;
    DisconnectWrites(connectionId, endpointId, endpoint, session, Lookup(r.link.links, s.linkId),
                     Lookup(r.controller.endpoints, s.controllerId), Lookup(r.companion.endpoints, s.companionId), now)
  }

  const NO_SESSION := Session(ABSENT, ABSENT, ABSENT, ABSENT, ABSENT, ABSENT, SessionClosed, 0, 0, 0)

  lemma OwnDisconnectApplies(db: Db, connectionId: Id, endpointId: Id, endpoint: Endpoint)
    requires AllHold(OwnDisconnectWrites(connectionId, endpointId, endpoint), db)
    ensures endpointId in db.endpoints && Equals(db.endpoints[endpointId].connectionId, connectionId)
    ensures endpoint.activeSessionId == db.endpoints[endpointId].activeSessionId
    ensures Apply(db, OwnDisconnectWrites(connectionId, endpointId, endpoint))
            == ReplaceEndpoint(db, endpointId, Detached(db.endpoints[endpointId]),
                               db.connections - {connectionId}, db.seenConnections)
  {
    var drop := DeleteConnection(connectionId, true);
    var detach := DetachConnection(endpointId, connectionId, endpoint.activeSessionId);
    assert detach in OwnDisconnectWrites(connectionId, endpointId, endpoint);
    ApplyOpt(db, true, drop, [detach]);
    ApplyOpt(Effect(db, drop), true, detach, []);
  }

  /** The session found through the disconnecting endpoint always runs on the disconnecting connection,
      so a found session is always closed along with it. */
  lemma HeldSessionRunsOnConnection(atEndpoint: Db, atSession: Db, endpointId: Id, sessionId: Id)
    requires Earlier(atEndpoint, atSession) && RouteInv(atSession)
    requires endpointId in atEndpoint.endpoints && atEndpoint.endpoints[endpointId].activeSessionId == sessionId
    requires sessionId != ABSENT && sessionId in atSession.sessions
    ensures var s := atSession.sessions[sessionId];
            && OnSession(s, endpointId)
            && atEndpoint.endpoints[endpointId].connectionId
               == (if s.controllerId == endpointId then s.controllerConnectionId else s.companionConnectionId)
  {
    assert EndpointOk(atEndpoint, endpointId);
    assert SessionEvolves(atEndpoint, atSession, sessionId);
    assert SessionOk(atEndpoint, sessionId);
  }

  lemma DisconnectRefines(atConnection: Db, atEndpoint: Db, r: Reads, db: Db, connectionId: Id, now: int)
    requires Earlier(atEndpoint, r.session) && Earlier(atEndpoint, db) && InOrder(r, db) && RouteInv(db)
    requires DisconnectReaches(atConnection, atEndpoint, connectionId)
    requires AllHold(DisconnectPlan(atConnection, atEndpoint, r, connectionId, now), db)
    ensures var endpointId := atConnection.connections[connectionId].endpointId;
            && endpointId in db.endpoints
            && Equals(db.endpoints[endpointId].connectionId, connectionId)
            && Apply(db, DisconnectPlan(atConnection, atEndpoint, r, connectionId, now))
               == SpecDisconnect(db, connectionId, endpointId, now)
  {
    var endpointId := atConnection.connections[connectionId].endpointId;
    var endpoint := atEndpoint.endpoints[endpointId];
    var session := SessionRead(endpoint, r.session);
    var own := OwnDisconnectWrites(connectionId, endpointId, endpoint);
    var plan := DisconnectPlan(atConnection, atEndpoint, r, connectionId, now);
    var held := endpoint.activeSessionId;
    assert plan[..|own|] == own && own + plan[|own|..] == plan;
    AllHoldConcat(db, own, plan[|own|..]);
    OwnDisconnectApplies(db, connectionId, endpointId, endpoint);
    var e := Detached(db.endpoints[endpointId]);
    var connections := db.connections - {connectionId};
    assert held != ABSENT ==> held in atEndpoint.seenSessions by { assert EndpointOk(atEndpoint, endpointId); }
    if held != ABSENT {
      HeldSessionAsRead(r.session, db, endpointId, held);
      if session.Some? { HeldSessionRunsOnConnection(atEndpoint, r.session, endpointId, held); }
    } else {
      forall id | id in db.sessions ensures id != ABSENT { assert SessionOk(db, id); }
    }
    hide RouteInv, RouteEvolves, AllHold, TransitionWrites, OwnDisconnectWrites, Apply, ReplaceEndpoint;
    if session.Some? {
      HeldReleased(r, db, own, session.value, endpointId, e, connections, db.seenConnections, now);
    } else {
      NothingHeld(db, own, endpointId, e, connections, db.seenConnections, now);
    }
  }

  /** A disconnect that found its endpoint gone or on another connection only wants to delete its own
      record; but then that record is gone already, and the delete does not commit. */
  lemma StaleDisconnectNeverCommits(atConnection: Db, atEndpoint: Db, db: Db, connectionId: Id)
    requires Earlier(atConnection, atEndpoint) && Earlier(atEndpoint, db)
    requires connectionId in atConnection.connections
    requires var endpointId := atConnection.connections[connectionId].endpointId;
             && endpointId != ABSENT
             && (endpointId !in atEndpoint.endpoints || atEndpoint.endpoints[endpointId].connectionId != connectionId)
    ensures !AllHold([DeleteConnection(connectionId, true)], db)
  {
    assert DeleteConnection(connectionId, true) in [DeleteConnection(connectionId, true)];
    if connectionId in db.connections {
      StoredConnectionIsCurrent(atConnection, atEndpoint, db, connectionId);
    }
  }

  lemma StoredConnectionIsCurrent(a: Db, b: Db, db: Db, connectionId: Id)
    requires Earlier(a, b) && Earlier(b, db)
    requires connectionId in a.connections && connectionId in db.connections
    requires a.connections[connectionId].endpointId != ABSENT
    ensures var endpointId := a.connections[connectionId].endpointId;
            endpointId in b.endpoints && b.endpoints[endpointId].connectionId == connectionId
  {
    assert ConnectionOk(a, connectionId);
    assert ConnectionEvolves(b, db, connectionId);
    assert ConnectionOk(b, connectionId);
    assert ConnectionEvolves(a, b, connectionId);
  }

  // ----- RevokeEndpoint

  predicate RevokeEndpointReaches(atEndpoint: Db, endpointId: Id, connectionId: Id) {
    && endpointId != ABSENT && connectionId != ABSENT
    && endpointId in atEndpoint.endpoints
    && atEndpoint.endpoints[endpointId].revokedAt == 0
    && atEndpoint.endpoints[endpointId].connectionId == connectionId
  }

  function RevokeEndpointPlan(atEndpoint: Db, r: Reads, endpointId: Id, connectionId: Id, now: int): seq<Write>
    requires endpointId in atEndpoint.endpoints
  {
    var endpoint := atEndpoint.endpoints[endpointId];
    var session := SessionRead(endpoint, r.session);
    var s := if session.Some? then session.value else NO_SESSION;
    RevokeEndpointWrites(endpointId, connectionId, endpoint, session, Lookup(r.link.links, s.linkId),
                         Lookup(r.controller.endpoints, s.controllerId), Lookup(r.companion.endpoints, s.companionId),
                             now)
  }

  lemma OwnRevokeEndpointApplies(db: Db, endpointId: Id, connectionId: Id, endpoint: Endpoint, now: int)
    requires AllHold(OwnRevokeEndpointWrites(endpointId, connectionId, endpoint, now), db)
    ensures endpointId in db.endpoints && Equals(db.endpoints[endpointId].connectionId, connectionId)
    ensures db.endpoints[endpointId].revokedAt == 0
    ensures endpoint.activeSessionId == db.endpoints[endpointId].activeSessionId
    ensures Apply(db, OwnRevokeEndpointWrites(endpointId, connectionId, endpoint, now))
            == ReplaceEndpoint(db, endpointId, Retired(db.endpoints[endpointId], now),
                               db.connections - {connectionId}, db.seenConnections)
  {
    var retire := RetireEndpoint(endpointId, connectionId, endpoint.activeSessionId, now);
    var drop := DeleteConnection(connectionId, false);
    assert retire in OwnRevokeEndpointWrites(endpointId, connectionId, endpoint, now);
    ApplyOpt(db, true, retire, [drop]);
    ApplyOpt(Effect(db, retire), true, drop, []);
  }

  lemma RevokeEndpointRefines(atEndpoint: Db, r: Reads, db: Db, endpointId: Id, connectionId: Id, now: int)
    requires Earlier(atEndpoint, db) && InOrder(r, db) && RouteInv(db)
    requires atEndpoint.seenSessions <= r.session.seenSessions
    requires RevokeEndpointReaches(atEndpoint, endpointId, connectionId)
    requires AllHold(RevokeEndpointPlan(atEndpoint, r, endpointId, connectionId, now), db)
    ensures endpointId in db.endpoints
    ensures db.endpoints[endpointId].revokedAt == 0 && Equals(db.endpoints[endpointId].connectionId, connectionId)
    ensures Apply(db, RevokeEndpointPlan(atEndpoint, r, endpointId, connectionId, now))
            == SpecRevokeEndpoint(db, endpointId, now)
  {
    var endpoint := atEndpoint.endpoints[endpointId];
    var session := SessionRead(endpoint, r.session);
    var own := OwnRevokeEndpointWrites(endpointId, connectionId, endpoint, now);
    var plan := RevokeEndpointPlan(atEndpoint, r, endpointId, connectionId, now);
    var held := endpoint.activeSessionId;
    assert plan[..|own|] == own && own + plan[|own|..] == plan;
    AllHoldConcat(db, own, plan[|own|..]);
    OwnRevokeEndpointApplies(db, endpointId, connectionId, endpoint, now);
    var e := Retired(db.endpoints[endpointId], now);
    var connections := db.connections - {connectionId};
    assert held != ABSENT ==> held in atEndpoint.seenSessions by { assert EndpointOk(atEndpoint, endpointId); }
    if held != ABSENT {
      HeldSessionAsRead(r.session, db, endpointId, held);
    } else {
      forall id | id in db.sessions ensures id != ABSENT { assert SessionOk(db, id); }
    }
    hide RouteInv, RouteEvolves, AllHold, TransitionWrites, OwnRevokeEndpointWrites, Apply, ReplaceEndpoint;
    if session.Some? {
      HeldReleased(r, db, own, session.value, endpointId, e, connections, db.seenConnections, now);
    } else {
      NothingHeld(db, own, endpointId, e, connections, db.seenConnections, now);
    }
  }

  // ----- RevokeLink

  predicate RevokeLinkReaches(atCaller: Db, atLink: Db, linkId: Id, endpointId: Id, connectionId: Id) {
    && endpointId != ABSENT && connectionId != ABSENT
    && linkId in atLink.links
    && (atLink.links[linkId].controllerId == endpointId || atLink.links[linkId].companionId == endpointId)
    && atLink.links[linkId].status == LinkActive
    && endpointId in atCaller.endpoints
    && atCaller.endpoints[endpointId].revokedAt == 0
    && atCaller.endpoints[endpointId].connectionId == connectionId
  }

  function RevokeLinkPlan(atLink: Db, r: Reads, linkId: Id, endpointId: Id, connectionId: Id, now: int): seq<Write>
    requires linkId in atLink.links
  {
    var link := atLink.links[linkId];
    var s := SessionOfLink(link, Lookup(r.session.sessions, link.activeSessionId));
    RevokeLinkWrites(link, endpointId, connectionId, Lookup(r.session.sessions, link.activeSessionId),
                     Lookup(r.controller.endpoints, s.controllerId), Lookup(r.companion.endpoints, s.companionId), now)
  }

  /** The session a link points at, when it is found, is on that link and still has its ends. */
  lemma FoundSessionIsOnLink(atLink: Db, atSession: Db, linkId: Id)
    requires Earlier(atLink, atSession) && RouteInv(atSession)
    requires linkId in atLink.links && atLink.links[linkId].activeSessionId in atSession.sessions
    ensures var s := atSession.sessions[atLink.links[linkId].activeSessionId];
            && s.sessionId == atLink.links[linkId].activeSessionId
            && s.linkId == linkId
            && s.controllerId == atLink.links[linkId].controllerId
            && s.companionId == atLink.links[linkId].companionId
  {
    var held := atLink.links[linkId].activeSessionId;
    assert LinkOk(atLink, linkId);
    assert SessionOk(atSession, held);
    assert SessionEvolves(atLink, atSession, held);
    assert SessionOk(atLink, held);
  }

  lemma ReleaseCommutesLink(db: Db, s: Session, now: int, l: Link)
    requires l.activeSessionId != s.sessionId
    ensures ReleaseSession(WithLink(db, s.linkId, l), s, now) == WithLink(ReleaseSession(db, s, now), s.linkId, l)
  {
    assert ClearLinks(db.links[s.linkId := l], s.linkId, s.sessionId)
           == ClearLinks(db.links, s.linkId, s.sessionId)[s.linkId := l];
  }

  /** The session an ACTIVE link points at, closed or cleaned up along with the link. */
  lemma RevokeLinkTail(atLink: Db, r: Reads, db: Db, linkId: Id, fence: Fence, retired: Link, now: int)
    requires Earlier(atLink, r.session) && Earlier(atLink, db) && InOrder(r, db)
    requires linkId in atLink.links && atLink.links[linkId].activeSessionId != ABSENT
    requires retired.activeSessionId == ABSENT
    requires var s := SessionOfLink(atLink.links[linkId],
                                    Lookup(r.session.sessions, atLink.links[linkId].activeSessionId));
             AllHold(TransitionWrites(s, None, Lookup(r.controller.endpoints, s.controllerId),
                                      Lookup(r.companion.endpoints, s.companionId), now, {LinkItem(linkId)}, fence), db)
    ensures var link := atLink.links[linkId];
            var s := SessionOfLink(link, Lookup(r.session.sessions, link.activeSessionId));
            Apply(WithLink(db, linkId, retired),
                  TransitionWrites(s, None, Lookup(r.controller.endpoints, s.controllerId),
                                   Lookup(r.companion.endpoints, s.companionId), now, {LinkItem(linkId)}, fence))
            == WithLink(Release(db, link.activeSessionId, linkId, link.controllerId, link.companionId, now), linkId,
                        retired)
  {
    var link := atLink.links[linkId];
    var held := link.activeSessionId;
    var s := SessionOfLink(link, Lookup(r.session.sessions, held));
    var start := WithLink(db, linkId, retired);
    assert LinkOk(atLink, linkId);
    assert EndpointOk(atLink, link.controllerId) && EndpointOk(atLink, link.companionId);
    if held in r.session.sessions { FoundSessionIsOnLink(atLink, r.session, linkId); }
    assert s.sessionId == held && s.linkId == linkId && s.controllerId == link.controllerId
           && s.companionId == link.companionId;
    assert AsRead(r.session, s);
    PreparedByLink(db, s, retired);
    hide RouteInv, RouteEvolves, AllHold, AsRead, Apply, OmittedCleared, TransitionWrites, SessionOfLink, EndpointOk,
         LinkOk;
    OmittedLinkIsNotRead(r, s, now, fence);
    TailIsRelease(r, db, start, s, now, {LinkItem(linkId)}, fence);
    ReleaseCommutesLink(db, s, now, retired);
  }

  lemma PreparedByLink(db: Db, s: Session, l: Link)
    requires l.activeSessionId != s.sessionId
    ensures OmittedCleared(db, WithLink(db, s.linkId, l), s, {LinkItem(s.linkId)})
  {
  }

  lemma OmittedLinkIsNotRead(r: Reads, s: Session, now: int, fence: Fence)
    ensures Tail(r, s, now, {LinkItem(s.linkId)}, fence)
            == TransitionWrites(s, None, Lookup(r.controller.endpoints, s.controllerId),
                                Lookup(r.companion.endpoints, s.companionId), now, {LinkItem(s.linkId)}, fence)
  {
  }

  function RetiredLink(l: Link, now: int): Link {
    l.(status := LinkRevoked, revokedAt := now, activeSessionId := ABSENT)
  }

  lemma RetireApplies(db: Db, linkId: Id, sessionId: Id, now: int, rest: seq<Write>)
    requires AllHold([RetireLink(linkId, sessionId, now)] + rest, db)
    ensures linkId in db.links && db.links[linkId].status == LinkActive && db.links[linkId].activeSessionId == sessionId
    ensures AllHold(rest, db)
    ensures Apply(db, [RetireLink(linkId, sessionId, now)] + rest)
            == Apply(WithLink(db, linkId, RetiredLink(db.links[linkId], now)), rest)
  {
    var retire := RetireLink(linkId, sessionId, now);
    assert retire in [retire] + rest;
    AllHoldConcat(db, [retire], rest);
    ApplyOpt(db, true, retire, rest);
  }

  lemma EarlierLink(atLink: Db, db: Db, linkId: Id)
    requires Earlier(atLink, db) && linkId in atLink.links
    ensures atLink.links[linkId].linkId == linkId && linkId != ABSENT
    ensures linkId in db.links && db.links[linkId].controllerId == atLink.links[linkId].controllerId
            && db.links[linkId].companionId == atLink.links[linkId].companionId
  {
    assert LinkOk(atLink, linkId) && LinkEvolves(atLink, db, linkId);
  }

  lemma RevokeLinkRefines(atCaller: Db, atLink: Db, r: Reads, db: Db, linkId: Id, endpointId: Id, connectionId: Id,
                          now: int)
    requires Earlier(atLink, r.session) && Earlier(atLink, db) && InOrder(r, db) && RouteInv(db)
    requires RevokeLinkReaches(atCaller, atLink, linkId, endpointId, connectionId)
    requires AllHold(RevokeLinkPlan(atLink, r, linkId, endpointId, connectionId, now), db)
    ensures linkId in db.links && db.links[linkId].status == LinkActive
    ensures Apply(db, RevokeLinkPlan(atLink, r, linkId, endpointId, connectionId, now))
            == SpecRevokeLink(db, linkId, now)
  {
    var link := atLink.links[linkId];
    var rest := RevokeLinkRest(link, r, endpointId, connectionId, now);
    EarlierLink(atLink, db, linkId);
    RevokeLinkParts(atLink, r, linkId, endpointId, connectionId, now);
    hide RouteInv, RouteEvolves, AllHold, TransitionWrites, WithLink, Release, Lookup, Apply, Holds, InOrder,
         RevokeLinkPlan, RevokeLinkReaches, SessionOfLink;
    RetireApplies(db, linkId, link.activeSessionId, now, rest);
    if link.activeSessionId == ABSENT {
      FenceWritesNothing(WithLink(db, linkId, RetiredLink(db.links[linkId], now)), Fence(endpointId, connectionId),
                         true);
    } else {
      RevokeLinkTail(atLink, r, db, linkId, Fence(endpointId, connectionId), RetiredLink(db.links[linkId], now), now);
    }
  }

  /** What follows the write that retires the link. */
  function RevokeLinkRest(link: Link, r: Reads, endpointId: Id, connectionId: Id, now: int): seq<Write> {
    if link.activeSessionId == ABSENT then [FenceCheck(Fence(endpointId, connectionId))]
    else
      var s := SessionOfLink(link, Lookup(r.session.sessions, link.activeSessionId));
      TransitionWrites(s, None, Lookup(r.controller.endpoints, s.controllerId),
                       Lookup(r.companion.endpoints, s.companionId),
                       now, {LinkItem(link.linkId)}, Fence(endpointId, connectionId))
  }

  lemma RevokeLinkParts(atLink: Db, r: Reads, linkId: Id, endpointId: Id, connectionId: Id, now: int)
    requires linkId in atLink.links && atLink.links[linkId].linkId == linkId
    ensures var link := atLink.links[linkId];
            RevokeLinkPlan(atLink, r, linkId, endpointId, connectionId, now)
            == [RetireLink(linkId, link.activeSessionId, now)] + RevokeLinkRest(link, r, endpointId, connectionId, now)
  {
    hide TransitionWrites, Lookup, SessionOfLink;
  }

  // ----- CloseSession, and the repair of a pointer whose session is gone

  /** Nothing points at a session that was read CLOSED, then or ever after. */
  lemma ClosedIsUnreferenced(atSession: Db, db: Db, sessionId: Id)
    requires Earlier(atSession, db) && RouteInv(db)
    requires sessionId in atSession.sessions && atSession.sessions[sessionId].status == SessionClosed
    ensures Unreferenced(db, sessionId)
    ensures sessionId in db.sessions ==> db.sessions[sessionId] == atSession.sessions[sessionId]
  {
    assert SessionOk(atSession, sessionId);
    if sessionId in db.sessions { assert SessionEvolves(atSession, db, sessionId); }
    forall id | id in db.links ensures db.links[id].activeSessionId != sessionId {
      assert LinkEvolves(atSession, db, id);
      if id in atSession.links { assert LinkOk(atSession, id); }
    }
    forall id | id in db.endpoints ensures db.endpoints[id].activeSessionId != sessionId {
      assert EndpointEvolves(atSession, db, id);
      if id in atSession.endpoints { assert EndpointOk(atSession, id); }
    }
  }

  lemma ReleasingUnreferencedIsNothing(db: Db, s: Session, now: int)
    requires Unreferenced(db, s.sessionId)
    requires s.sessionId in db.sessions ==> db.sessions[s.sessionId].status == SessionClosed
    ensures ReleaseSession(db, s, now) == db
  {
    assert EndSessions(db.sessions, s.sessionId, now) == db.sessions;
    assert ClearLinks(db.links, s.linkId, s.sessionId) == db.links;
    assert ClearEndpoints(db.endpoints, {s.controllerId, s.companionId}, s.sessionId) == db.endpoints;
  }

  lemma CloseRefines(r: Reads, db: Db, sessionId: Id, now: int, fence: Fence)
    requires InOrder(r, db) && RouteInv(db)
    requires sessionId in r.session.sessions
    requires AllHold(Tail(r, r.session.sessions[sessionId], now, {}, fence), db)
    ensures Apply(db, Tail(r, r.session.sessions[sessionId], now, {}, fence)) == SpecClose(db, sessionId, now)
  {
    var s := r.session.sessions[sessionId];
    assert SessionOk(r.session, sessionId);
    if s.status == SessionClosed { ClosedIsUnreferenced(r.session, db, sessionId); }
    hide RouteInv, RouteEvolves, AllHold, TransitionWrites, Apply, ReleaseSession, Unreferenced;
    TailIsRelease(r, db, db, s, now, {}, fence);
    if s.status == SessionActive {
      EndedSessionIsStored(r, db, s, now, {}, fence);
      SameRouteReleasesSame(db, s, db.sessions[sessionId], now);
    } else {
      ReleasingUnreferencedIsNothing(db, s, now);
    }
  }

  lemma LinkHasEnds(db: Db, linkId: Id)
    requires RouteInv(db) && linkId in db.links
    ensures db.links[linkId].linkId == linkId
    ensures db.links[linkId].controllerId != ABSENT && db.links[linkId].companionId != ABSENT
    ensures db.links[linkId].controllerId != db.links[linkId].companionId
  {
    assert LinkOk(db, linkId);
    assert EndpointOk(db, db.links[linkId].controllerId) && EndpointOk(db, db.links[linkId].companionId);
  }

  lemma GoneStaysGone(atSession: Db, db: Db, sessionId: Id, now: int)
    requires RouteEvolves(atSession, db) && sessionId in atSession.seenSessions && sessionId !in atSession.sessions
    ensures sessionId !in db.sessions && EndSessions(db.sessions, sessionId, now) == db.sessions
  {
    assert sessionId in db.sessions ==> SessionEvolves(atSession, db, sessionId);
  }

  lemma VanishedAsRead(db: Db, sessionId: Id, link: Link)
    requires sessionId in db.seenSessions && sessionId !in db.sessions
    ensures AsRead(db, Vanished(sessionId, link))
  {
  }

  lemma PreparedAlready(db: Db, s: Session)
    ensures OmittedCleared(db, db, s, {})
  {
  }

  /** The repair of a pointer whose session was gone when it was read, through a link as read before. */
  lemma RepairRefines(atLink: Db, r: Reads, db: Db, sessionId: Id, linkId: Id, now: int)
    requires InOrder(r, db) && RouteInv(atLink) && linkId in atLink.links
    requires sessionId != ABSENT && sessionId in r.session.seenSessions && sessionId !in r.session.sessions
    requires AllHold(Tail(r, Vanished(sessionId, atLink.links[linkId]), now, {}, NoFence), db)
    ensures sessionId !in db.sessions
    ensures var link := atLink.links[linkId];
            Apply(db, Tail(r, Vanished(sessionId, link), now, {}, NoFence))
            == db.(links := ClearLinks(db.links, linkId, sessionId),
                   endpoints := ClearEndpoints(db.endpoints, {link.controllerId, link.companionId}, sessionId))
  {
    var link := atLink.links[linkId];
    hide RouteInv, RouteEvolves, AllHold, TransitionWrites, Apply, AsRead, OmittedCleared, EndSessions, ClearLinks,
         ClearEndpoints;
    LinkHasEnds(atLink, linkId);
    GoneStaysGone(r.session, db, sessionId, now);
    PreparedAlready(db, Vanished(sessionId, link));
    assert AsRead(r.session, Vanished(sessionId, link)) by { VanishedAsRead(r.session, sessionId, link); }
    TailIsRelease(r, db, db, Vanished(sessionId, link), now, {}, NoFence);
  }

  // ----- OpenSession

  lemma OpenApplies(db: Db, s: Session)
    requires s.linkId in db.links && s.controllerId in db.endpoints && s.companionId in db.endpoints
    requires s.controllerId != s.companionId
    ensures Apply(db, OpenWrites(s)) == SpecOpen(db, s)
  {
    var w1, w2 := PutSession(s), ClaimLink(s.linkId, s.sessionId);
    var w3 := ClaimEndpoint(s.controllerId, s.controllerConnectionId, s.sessionId);
    var w4 := ClaimEndpoint(s.companionId, s.companionConnectionId, s.sessionId);
    var d1, d2 := Effect(db, w1), Effect(Effect(db, w1), w2);
    hide Effect, SpecOpen;
    OpenEffects(db, s);
    ApplyOpt(db, true, w1, [w2, w3, w4]);
    ApplyOpt(d1, true, w2, [w3, w4]);
    ApplyOpt(d2, true, w3, [w4]);
    ApplyOpt(Effect(d2, w3), true, w4, []);
  }

  lemma ClaimedEndpoint(db: Db, id: Id, connectionId: Id, sessionId: Id)
    requires id in db.endpoints
    ensures Effect(db, ClaimEndpoint(id, connectionId, sessionId))
            == db.(endpoints := db.endpoints[id := db.endpoints[id].(activeSessionId := sessionId)])
  {
  }

  lemma ClaimedLink(db: Db, s: Session)
    requires s.linkId in db.links
    ensures Effect(Effect(db, PutSession(s)), ClaimLink(s.linkId, s.sessionId))
            == db.(sessions := db.sessions[s.sessionId := s], seenSessions := db.seenSessions + {s.sessionId},
                   links := db.links[s.linkId := db.links[s.linkId].(activeSessionId := s.sessionId)])
  {
  }

  lemma OpenEffects(db: Db, s: Session)
    requires s.linkId in db.links && s.controllerId in db.endpoints && s.companionId in db.endpoints
    requires s.controllerId != s.companionId
    ensures Effect(Effect(Effect(Effect(db, PutSession(s)), ClaimLink(s.linkId, s.sessionId)),
                          ClaimEndpoint(s.controllerId, s.controllerConnectionId, s.sessionId)),
                   ClaimEndpoint(s.companionId, s.companionConnectionId, s.sessionId))
            == SpecOpen(db, s)
  {
    hide Effect;
    ClaimedLink(db, s);
    var d2 := Effect(Effect(db, PutSession(s)), ClaimLink(s.linkId, s.sessionId));
    ClaimedEndpoint(d2, s.controllerId, s.controllerConnectionId, s.sessionId);
    var d3 := Effect(d2, ClaimEndpoint(s.controllerId, s.controllerConnectionId, s.sessionId));
    ClaimedEndpoint(d3, s.companionId, s.companionConnectionId, s.sessionId);
  }

  lemma OpenRefines(db: Db, s: Session)
    requires AllHold(OpenWrites(s), db)
    requires s.controllerId != s.companionId
    ensures s.linkId in db.links && s.controllerId in db.endpoints && s.companionId in db.endpoints
    ensures Idle(db, s.controllerId, s.controllerConnectionId) && Idle(db, s.companionId, s.companionConnectionId)
    ensures db.links[s.linkId].status == LinkActive && db.links[s.linkId].activeSessionId == ABSENT
    ensures s.sessionId !in db.sessions && s.sessionId !in db.seenSessions
    ensures Apply(db, OpenWrites(s)) == SpecOpen(db, s)
  {
    var w1, w2 := PutSession(s), ClaimLink(s.linkId, s.sessionId);
    var w3 := ClaimEndpoint(s.controllerId, s.controllerConnectionId, s.sessionId);
    var w4 := ClaimEndpoint(s.companionId, s.companionConnectionId, s.sessionId);
    var ws := OpenWrites(s);
    assert w1 in ws && w2 in ws && w3 in ws && w4 in ws;
    assert Holds(w1, db) && Holds(w2, db) && Holds(w3, db) && Holds(w4, db);
    hide Apply, SpecOpen;
    OpenApplies(db, s);
  }
}
