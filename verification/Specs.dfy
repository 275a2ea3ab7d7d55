/** The operations on routes as single atomic steps that see the whole table at the instant they
    commit, and what each of them keeps. */
module Specs {
  import opened Records
  import opened Table
  import opened Routing
  import opened Transitions

  /** Give up whatever session an endpoint points at. */
  function ReleaseHeld(db: Db, endpointId: Id, now: int): Db
    requires endpointId in db.endpoints
  {
    var held := db.endpoints[endpointId].activeSessionId;
    if held in db.sessions then ReleaseSession(db, db.sessions[held], now)
    else db.(endpoints := ClearEndpoints(db.endpoints, {endpointId}, held))
  }

  function ReplaceEndpoint(db: Db, id: Id, e: Endpoint, connections: map<Id, Connection>, seen: set<Id>): Db {
    db.(endpoints := db.endpoints[id := e], connections := connections, seenConnections := seen)
  }

  function SpecConnectPairing(db: Db, c: Connection): Db {
    db.(connections := db.connections[c.connectionId := c], seenConnections := db.seenConnections + {c.connectionId})
  }

  /** A connection record that the same $connect put before: delivered twice, it is put once. */
  predicate SameConnection(db: Db, c: Connection) {
    && c.connectionId in db.connections
    && db.connections[c.connectionId].authMode == c.authMode
    && db.connections[c.connectionId].endpointId == c.endpointId
  }

  function ConnectionsAfter(db: Db, c: Connection, previous: Id, put: bool): map<Id, Connection> {
    (if put then db.connections[c.connectionId := c] else db.connections)
    - (if previous != ABSENT && previous != c.connectionId then {previous} else {})
  }

  function SeenAfter(db: Db, c: Connection, put: bool): set<Id> {
    if put then db.seenConnections + {c.connectionId} else db.seenConnections
  }

  function Attached(e: Endpoint, c: Connection): Endpoint {
    e.(connectionId := c.connectionId, updatedAt := c.connectedAt, activeSessionId := ABSENT)
  }

  /** The endpoint takes the connection under its credential: one whose record is new and is put, or the one
      that it is on already. */
  predicate EndpointTakes(db: Db, c: Connection, credentialHash: Id, put: bool) {
    && c.endpointId in db.endpoints
    && db.endpoints[c.endpointId].revokedAt == 0
    && db.endpoints[c.endpointId].credentialHash == credentialHash
    && if put then c.connectionId !in db.connections && c.connectionId !in db.seenConnections
       else db.endpoints[c.endpointId].connectionId == c.connectionId
  }

  /** The endpoint on its new connection, whether its record is put or was already there. */
  function Reattached(db: Db, c: Connection, put: bool): Db
    requires c.endpointId in db.endpoints
  {
    var e := db.endpoints[c.endpointId];
    ReplaceEndpoint(ReleaseHeld(db, c.endpointId, c.connectedAt), c.endpointId, Attached(e, c),
                    ConnectionsAfter(db, c, e.connectionId, put), SeenAfter(db, c, put))
  }

  /** The endpoint moves to the new connection, its old connection record goes, its session closes. */
  function SpecConnect(db: Db, c: Connection): Db
    requires c.endpointId in db.endpoints
  {
    Reattached(db, c, !SameConnection(db, c))
  }

  function Detached(e: Endpoint): Endpoint {
    e.(connectionId := ABSENT, activeSessionId := ABSENT)
  }

  /** A connected endpoint goes offline: record and connection go, its session closes. */
  function SpecDisconnect(db: Db, connectionId: Id, endpointId: Id, now: int): Db
    requires endpointId in db.endpoints
  {
    var e := db.endpoints[endpointId];
    ReplaceEndpoint(ReleaseHeld(db, endpointId, now), endpointId,
                    Detached(e),
                    db.connections - {connectionId}, db.seenConnections)
  }

  function Retired(e: Endpoint, now: int): Endpoint {
    e.(revokedAt := now, updatedAt := now, connectionId := ABSENT, activeSessionId := ABSENT, credentialHash := ABSENT)
  }

  function SpecRevokeEndpoint(db: Db, endpointId: Id, now: int): Db
    requires endpointId in db.endpoints
  {
    var e := db.endpoints[endpointId];
    ReplaceEndpoint(ReleaseHeld(db, endpointId, now), endpointId,
                    Retired(e, now),
                    db.connections - {e.connectionId}, db.seenConnections)
  }

  function SpecRevokeLink(db: Db, linkId: Id, now: int): Db
    requires linkId in db.links
  {
    var l := db.links[linkId];
    var released := if l.activeSessionId == ABSENT then db
                    else Release(db, l.activeSessionId, linkId, l.controllerId, l.companionId, now);
    WithLink(released, linkId, l.(status := LinkRevoked, revokedAt := now, activeSessionId := ABSENT))
  }

  function SpecClose(db: Db, sessionId: Id, now: int): Db {
    if sessionId in db.sessions then ReleaseSession(db, db.sessions[sessionId], now) else db
  }

  function SpecOpen(db: Db, s: Session): Db
    requires s.linkId in db.links && s.controllerId in db.endpoints && s.companionId in db.endpoints
  {
    db.(sessions := db.sessions[s.sessionId := s],
        seenSessions := db.seenSessions + {s.sessionId},
        links := db.links[s.linkId := db.links[s.linkId].(activeSessionId := s.sessionId)],
        endpoints := db.endpoints
          [s.controllerId := db.endpoints[s.controllerId].(activeSessionId := s.sessionId)]
          [s.companionId := db.endpoints[s.companionId].(activeSessionId := s.sessionId)])
  }

  function SpecRotate(db: Db, endpointId: Id, credentialHash: Id, now: int): Db
    requires endpointId in db.endpoints
  {
    WithEndpoint(db, endpointId, db.endpoints[endpointId].(credentialHash := credentialHash, updatedAt := now))
  }

  // ----- closing

  /** Nothing points at the session any more. */
  ghost predicate Unreferenced(db: Db, sessionId: Id) {
    && (forall id :: id in db.links ==> db.links[id].activeSessionId != sessionId)
    && (forall id :: id in db.endpoints ==> db.endpoints[id].activeSessionId != sessionId)
  }

  /** What closing a session, and taking every pointer off it, does to the table. */
  ghost predicate IsClosing(db: Db, after: Db, sessionId: Id, now: int) {
    && after == db.(sessions := after.sessions, links := after.links, endpoints := after.endpoints)
    && after.sessions == EndSessions(db.sessions, sessionId, now)
    && after.links.Keys == db.links.Keys
    && after.endpoints.Keys == db.endpoints.Keys
    && (forall id :: id in db.links ==> after.links[id] == ClearedLink(db.links[id], sessionId))
    && (forall id :: id in db.endpoints ==> after.endpoints[id] == ClearedEndpoint(db.endpoints[id], sessionId))
  }

  /** A stored session's own link, controller and companion are the only items that can point at it. */
  lemma ClosingClearsEveryPointer(db: Db, sessionId: Id, now: int)
    requires RouteInv(db) && sessionId in db.sessions
    ensures IsClosing(db, SpecClose(db, sessionId, now), sessionId, now)
  {
    var s := db.sessions[sessionId];
    assert SessionOk(db, sessionId);
    forall id | id in db.links ensures id == s.linkId || ClearedLink(db.links[id], sessionId) == db.links[id] {
      assert LinkOk(db, id);
    }
    forall id | id in db.endpoints
      ensures id == s.controllerId || id == s.companionId
              || ClearedEndpoint(db.endpoints[id], sessionId) == db.endpoints[id]
    {
      assert EndpointOk(db, id);
    }
  }

  lemma ClosingKeepsSession(db: Db, after: Db, sessionId: Id, now: int, id: Id)
    requires IsClosing(db, after, sessionId, now) && id in db.sessions && SessionOk(db, id) && sessionId != ABSENT
    ensures id in after.sessions && SessionOk(after, id) && SessionEvolves(db, after, id)
  {
  }

  lemma ClosingKeepsPointers(db: Db, after: Db, sessionId: Id, now: int)
    requires RouteInv(db) && IsClosing(db, after, sessionId, now) && sessionId != ABSENT
    ensures forall id :: id in after.links ==> LinkOk(after, id) && LinkEvolves(db, after, id)
    ensures forall id :: id in after.endpoints ==> EndpointOk(after, id) && EndpointEvolves(db, after, id)
    ensures Unreferenced(after, sessionId)
  {
    forall id | id in after.links ensures LinkOk(after, id) && LinkEvolves(db, after, id) {
      assert LinkOk(db, id);
    }
    forall id | id in after.endpoints ensures EndpointOk(after, id) && EndpointEvolves(db, after, id) {
      assert EndpointOk(db, id);
    }
  }

  lemma ClosingKeeps(db: Db, after: Db, sessionId: Id, now: int)
    requires RouteInv(db) && IsClosing(db, after, sessionId, now) && sessionId != ABSENT
    ensures RouteInv(after) && RouteEvolves(db, after) && Unreferenced(after, sessionId)
  {
    hide LinkOk, EndpointOk, LinkEvolves, EndpointEvolves, SessionOk, SessionEvolves, Unreferenced, ClearedLink;
    ClosingKeepsPointers(db, after, sessionId, now);
    forall id | id in after.sessions ensures SessionOk(after, id) && SessionEvolves(db, after, id) {
      ClosingKeepsSession(db, after, sessionId, now, id);
    }
    forall id | id in after.connections ensures ConnectionOk(after, id) && ConnectionEvolves(db, after, id) {
      assert ConnectionOk(db, id);
    }
  }

  lemma SpecCloseKeeps(db: Db, sessionId: Id, now: int)
    requires RouteInv(db)
    ensures RouteInv(SpecClose(db, sessionId, now)) && RouteEvolves(db, SpecClose(db, sessionId, now))
    ensures sessionId in db.sessions ==> Unreferenced(SpecClose(db, sessionId, now), sessionId)
  {
    RouteEvolvesReflexive(db);
    if sessionId in db.sessions {
      assert SessionOk(db, sessionId);
      ClosingClearsEveryPointer(db, sessionId, now);
      ClosingKeeps(db, SpecClose(db, sessionId, now), sessionId, now);
    }
  }

  function WithoutPointers(db: Db, sessionId: Id, linkId: Id, ids: set<Id>): Db {
    db.(links := ClearLinks(db.links, linkId, sessionId), endpoints := ClearEndpoints(db.endpoints, ids, sessionId))
  }

  lemma ClearingVanishedKeepsPointers(db: Db, sessionId: Id, linkId: Id, ids: set<Id>)
    requires RouteInv(db) && sessionId !in db.sessions
    ensures var after := WithoutPointers(db, sessionId, linkId, ids);
            && (forall id :: id in after.links ==> LinkOk(after, id) && LinkEvolves(db, after, id))
            && (forall id :: id in after.endpoints ==> EndpointOk(after, id) && EndpointEvolves(db, after, id))
  {
    var after := WithoutPointers(db, sessionId, linkId, ids);
    forall id | id in after.links ensures LinkOk(after, id) && LinkEvolves(db, after, id) {
      assert LinkOk(db, id);
    }
    forall id | id in after.endpoints ensures EndpointOk(after, id) && EndpointEvolves(db, after, id) {
      assert EndpointOk(db, id);
    }
  }

  /** Taking pointers to a session that is gone off any items is always right. */
  lemma ClearingVanishedKeeps(db: Db, sessionId: Id, linkId: Id, ids: set<Id>)
    requires RouteInv(db) && sessionId !in db.sessions
    ensures var after := WithoutPointers(db, sessionId, linkId, ids);
            RouteInv(after) && RouteEvolves(db, after)
  {
    hide LinkOk, EndpointOk, LinkEvolves, EndpointEvolves;
    var after := WithoutPointers(db, sessionId, linkId, ids);
    ClearingVanishedKeepsPointers(db, sessionId, linkId, ids);
    forall id | id in after.sessions ensures SessionOk(after, id) && SessionEvolves(db, after, id) {
      assert SessionOk(db, id);
    }
    forall id | id in after.connections ensures ConnectionOk(after, id) && ConnectionEvolves(db, after, id) {
      assert ConnectionOk(db, id);
    }
  }

  lemma ReleaseVanishedKeeps(db: Db, endpointId: Id)
    requires RouteInv(db) && endpointId in db.endpoints && db.endpoints[endpointId].activeSessionId !in db.sessions
    ensures var held := db.endpoints[endpointId].activeSessionId;
            var after := db.(endpoints := ClearEndpoints(db.endpoints, {endpointId}, held));
            RouteInv(after) && RouteEvolves(db, after)
  {
    var held := db.endpoints[endpointId].activeSessionId;
    forall id | id in db.links ensures id != ABSENT { assert LinkOk(db, id); }
    hide RouteInv, RouteEvolves, LinkOk;
    ClearingVanishedKeeps(db, held, ABSENT, {endpointId});
    assert ClearLinks(db.links, ABSENT, held) == db.links;
  }

  lemma ReleaseStoredKeeps(db: Db, endpointId: Id, now: int)
    requires RouteInv(db) && endpointId in db.endpoints && db.endpoints[endpointId].activeSessionId in db.sessions
    ensures var after := SpecClose(db, db.endpoints[endpointId].activeSessionId, now);
            && RouteInv(after) && RouteEvolves(db, after) && endpointId in after.endpoints
            && after.endpoints[endpointId] == db.endpoints[endpointId].(activeSessionId := ABSENT)
  {
    var held := db.endpoints[endpointId].activeSessionId;
    assert EndpointOk(db, endpointId) && SessionOk(db, held);
    hide RouteInv, RouteEvolves, EndSessions, ClearLinks;
    SpecCloseKeeps(db, held, now);
  }

  lemma ReleaseHeldKeeps(db: Db, endpointId: Id, now: int)
    requires RouteInv(db) && endpointId in db.endpoints
    ensures var after := ReleaseHeld(db, endpointId, now);
            && RouteInv(after) && RouteEvolves(db, after)
            && endpointId in after.endpoints
            && after.endpoints[endpointId] == db.endpoints[endpointId].(activeSessionId := ABSENT)
            && after.connections == db.connections && after.seenConnections == db.seenConnections
            && after.now == db.now
  {
    hide RouteInv, RouteEvolves, EndSessions, ClearLinks;
    if db.endpoints[endpointId].activeSessionId in db.sessions {
      hide ClearEndpoints;
      ReleaseStoredKeeps(db, endpointId, now);
    } else {
      ReleaseVanishedKeeps(db, endpointId);
    }
  }

  // ----- endpoints that come, go and retire

  /** A connection record set that a replaced endpoint may leave behind. */
  ghost predicate ConnectionsFollow(db: Db, after: Db, id: Id) {
    && id in after.endpoints
    && db.seenConnections <= after.seenConnections
    && (forall c :: c in after.connections ==>
          && (c in db.connections ==> after.connections[c] == db.connections[c])
          && (c in db.seenConnections ==> c in db.connections)
          && (c !in db.connections ==>
                var added := after.connections[c];
                c != ABSENT && added.connectionId == c && c in after.seenConnections
                && added.authMode == EndpointAuth && added.endpointId == id && id != ABSENT)
          && (after.connections[c].endpointId == id ==> after.endpoints[id].connectionId == c))
  }

  lemma ReplaceKeeps(db: Db, after: Db, id: Id, e: Endpoint)
    requires RouteInv(db) && id in db.endpoints
    requires after == ReplaceEndpoint(db, id, e, after.connections, after.seenConnections)
    requires ConnectionsFollow(db, after, id)
    requires var was := db.endpoints[id];
             && was.activeSessionId == ABSENT && was.revokedAt == 0
             && e.endpointId == id && e.role == was.role && e.createdAt == was.createdAt
             && e.activeSessionId == ABSENT
             && (e.revokedAt != 0 ==> e.connectionId == ABSENT && e.credentialHash == ABSENT)
    ensures RouteInv(after) && RouteEvolves(db, after)
  {
    assert EndpointOk(db, id);
    forall l | l in after.links ensures LinkOk(after, l) && LinkEvolves(db, after, l) {
      assert LinkOk(db, l);
    }
    forall x | x in after.endpoints ensures EndpointOk(after, x) && EndpointEvolves(db, after, x) {
      if x != id { assert EndpointOk(db, x); }
    }
    forall s | s in after.sessions ensures SessionOk(after, s) && SessionEvolves(db, after, s) {
      assert SessionOk(db, s);
    }
    forall c | c in after.connections ensures ConnectionOk(after, c) && ConnectionEvolves(db, after, c) {
      if c in db.connections { assert ConnectionOk(db, c); }
    }
  }

  lemma SpecDisconnectKeeps(db: Db, connectionId: Id, endpointId: Id, now: int)
    requires RouteInv(db) && endpointId in db.endpoints
    requires connectionId != ABSENT && db.endpoints[endpointId].connectionId == connectionId
    ensures var after := SpecDisconnect(db, connectionId, endpointId, now);
            RouteInv(after) && RouteEvolves(db, after)
  {
    var released := ReleaseHeld(db, endpointId, now);
    var after := SpecDisconnect(db, connectionId, endpointId, now);
    ReleaseHeldKeeps(db, endpointId, now);
    assert EndpointOk(db, endpointId);
    assert ConnectionsFollow(released, after, endpointId) by {
      forall c | c in after.connections ensures after.connections[c].endpointId != endpointId && c in db.connections {
        assert ConnectionOk(db, c);
      }
    }
    ReplaceKeeps(released, after, endpointId, after.endpoints[endpointId]);
    RouteEvolvesTransitive(db, released, after);
  }

  lemma SpecRevokeEndpointKeeps(db: Db, endpointId: Id, now: int)
    requires RouteInv(db) && endpointId in db.endpoints && db.endpoints[endpointId].revokedAt == 0
    ensures var after := SpecRevokeEndpoint(db, endpointId, now);
            RouteInv(after) && RouteEvolves(db, after)
  {
    var released := ReleaseHeld(db, endpointId, now);
    var after := SpecRevokeEndpoint(db, endpointId, now);
    ReleaseHeldKeeps(db, endpointId, now);
    assert EndpointOk(db, endpointId);
    assert ConnectionsFollow(released, after, endpointId) by {
      forall c | c in after.connections ensures after.connections[c].endpointId != endpointId && c in db.connections {
        assert ConnectionOk(db, c);
      }
    }
    ReplaceKeeps(released, after, endpointId, after.endpoints[endpointId]);
    RouteEvolvesTransitive(db, released, after);
  }

  lemma ReattachedKeeps(db: Db, c: Connection, credentialHash: Id, put: bool)
    requires RouteInv(db) && EndpointTakes(db, c, credentialHash, put)
    requires c.connectionId != ABSENT && c.authMode == EndpointAuth && c.pairingId == ABSENT
    ensures RouteInv(Reattached(db, c, put)) && RouteEvolves(db, Reattached(db, c, put))
  {
    var endpointId := c.endpointId;
    var released := ReleaseHeld(db, endpointId, c.connectedAt);
    var after := Reattached(db, c, put);
    ReleaseHeldKeeps(db, endpointId, c.connectedAt);
    assert EndpointOk(db, endpointId);
    assert ConnectionsFollow(released, after, endpointId) by {
      forall x | x in db.connections ensures ConnectionOk(db, x) {}
    }
    ReplaceKeeps(released, after, endpointId, after.endpoints[endpointId]);
    RouteEvolvesTransitive(db, released, after);
  }

  lemma SpecConnectPairingKeeps(db: Db, c: Connection)
    requires RouteInv(db)
    requires c.connectionId != ABSENT && c.authMode == PairingAuth && c.endpointId == ABSENT
    requires c.connectionId !in db.connections && c.connectionId !in db.seenConnections
    ensures RouteInv(SpecConnectPairing(db, c)) && RouteEvolves(db, SpecConnectPairing(db, c))
  {
    var after := SpecConnectPairing(db, c);
    assert forall id :: id in db.endpoints ==> EndpointOk(db, id) && EndpointOk(after, id);
    assert forall id :: id in db.links ==> LinkOk(db, id) && LinkOk(after, id);
    assert forall id :: id in db.sessions ==> SessionOk(db, id) && SessionOk(after, id);
    assert forall id :: id in db.connections ==> ConnectionOk(db, id) && ConnectionOk(after, id);
  }

  // ----- links and sessions

  lemma RetireLinkKeeps(db: Db, linkId: Id, now: int)
    requires RouteInv(db) && linkId in db.links
    requires db.links[linkId].activeSessionId == ABSENT && db.links[linkId].status == LinkActive
    ensures var after := WithLink(db, linkId, db.links[linkId].(status := LinkRevoked, revokedAt := now));
            RouteInv(after) && RouteEvolves(db, after)
  {
    var after := WithLink(db, linkId, db.links[linkId].(status := LinkRevoked, revokedAt := now));
    assert LinkOk(db, linkId);
    forall id | id in after.links ensures LinkOk(after, id) && LinkEvolves(db, after, id) {
      assert LinkOk(db, id);
    }
    forall id | id in after.endpoints ensures EndpointOk(after, id) {
      assert EndpointOk(db, id);
    }
    forall id | id in after.sessions ensures SessionOk(after, id) {
      assert SessionOk(db, id);
    }
    forall id | id in after.connections ensures ConnectionOk(after, id) {
      assert ConnectionOk(db, id);
    }
  }

  lemma SpecRevokeLinkKeeps(db: Db, linkId: Id, now: int)
    requires RouteInv(db) && linkId in db.links && db.links[linkId].status == LinkActive
    ensures RouteInv(SpecRevokeLink(db, linkId, now)) && RouteEvolves(db, SpecRevokeLink(db, linkId, now))
  {
    var l := db.links[linkId];
    var held := l.activeSessionId;
    assert LinkOk(db, linkId);
    if held == ABSENT {
      RetireLinkKeeps(db, linkId, now);
    } else {
      var released := Release(db, held, linkId, l.controllerId, l.companionId, now);
      if held in db.sessions {
        assert SessionOk(db, held);
        SpecCloseKeeps(db, held, now);
      } else {
        assert EndSessions(db.sessions, held, now) == db.sessions;
        ClearingVanishedKeeps(db, held, linkId, {l.controllerId, l.companionId});
      }
      RetireLinkKeeps(released, linkId, now);
      RouteEvolvesTransitive(db, released, SpecRevokeLink(db, linkId, now));
    }
  }

  /** Where a session may open: the link is ACTIVE and nothing on the route holds another session. */
  ghost predicate CanOpen(db: Db, s: Session) {
    && s.sessionId != ABSENT && s.sessionId !in db.sessions && s.sessionId !in db.seenSessions
    && s.status == SessionActive
    && s.controllerConnectionId != s.companionConnectionId
    && s.linkId in db.links
    && db.links[s.linkId].status == LinkActive
    && db.links[s.linkId].activeSessionId == ABSENT
    && db.links[s.linkId].controllerId == s.controllerId
    && db.links[s.linkId].companionId == s.companionId
    && Idle(db, s.controllerId, s.controllerConnectionId)
    && Idle(db, s.companionId, s.companionConnectionId)
  }

  ghost predicate Idle(db: Db, endpointId: Id, connectionId: Id) {
    && endpointId in db.endpoints
    && db.endpoints[endpointId].revokedAt == 0
    && Equals(db.endpoints[endpointId].connectionId, connectionId)
    && db.endpoints[endpointId].activeSessionId == ABSENT
  }

  lemma SpecOpenKeepsPointers(db: Db, s: Session)
    requires RouteInv(db) && CanOpen(db, s)
    ensures var after := SpecOpen(db, s);
            && (forall id :: id in after.links ==> LinkOk(after, id) && LinkEvolves(db, after, id))
            && (forall id :: id in after.endpoints ==> EndpointOk(after, id) && EndpointEvolves(db, after, id))
  {
    var after := SpecOpen(db, s);
    assert LinkOk(db, s.linkId);
    forall id | id in after.links ensures LinkOk(after, id) && LinkEvolves(db, after, id) {
      assert LinkOk(db, id);
    }
    forall id | id in after.endpoints ensures EndpointOk(after, id) && EndpointEvolves(db, after, id) {
      assert EndpointOk(db, id);
    }
  }

  lemma SpecOpenKeepsRecords(db: Db, s: Session)
    requires RouteInv(db) && CanOpen(db, s)
    ensures var after := SpecOpen(db, s);
            && (forall id :: id in after.sessions ==> SessionOk(after, id) && SessionEvolves(db, after, id))
            && (forall id :: id in after.connections ==> ConnectionOk(after, id))
  {
    var after := SpecOpen(db, s);
    assert LinkOk(db, s.linkId);
    assert EndpointOk(db, s.controllerId) && EndpointOk(db, s.companionId);
    forall id | id in after.sessions ensures SessionOk(after, id) && SessionEvolves(db, after, id) {
      if id != s.sessionId { assert SessionOk(db, id); }
    }
    forall id | id in after.connections ensures ConnectionOk(after, id) {
      assert ConnectionOk(db, id);
    }
  }

  lemma SpecOpenKeeps(db: Db, s: Session)
    requires RouteInv(db) && CanOpen(db, s)
    ensures RouteInv(SpecOpen(db, s)) && RouteEvolves(db, SpecOpen(db, s))
  {
    hide LinkOk, EndpointOk, SessionOk, LinkEvolves, EndpointEvolves, SessionEvolves;
    SpecOpenKeepsRecords(db, s);
    SpecOpenKeepsPointers(db, s);
  }

  lemma SpecRotateKeeps(db: Db, endpointId: Id, credentialHash: Id, now: int)
    requires RouteInv(db) && endpointId in db.endpoints && db.endpoints[endpointId].revokedAt == 0
    ensures RouteInv(SpecRotate(db, endpointId, credentialHash, now))
    ensures RouteEvolves(db, SpecRotate(db, endpointId, credentialHash, now))
  {
    var after := SpecRotate(db, endpointId, credentialHash, now);
    forall id | id in after.links ensures LinkOk(after, id) {
      assert LinkOk(db, id);
    }
    forall id | id in after.endpoints ensures EndpointOk(after, id) && EndpointEvolves(db, after, id) {
      assert EndpointOk(db, id);
    }
    forall id | id in after.sessions ensures SessionOk(after, id) {
      assert SessionOk(db, id);
    }
    forall id | id in after.connections ensures ConnectionOk(after, id) {
      assert ConnectionOk(db, id);
    }
  }
}
