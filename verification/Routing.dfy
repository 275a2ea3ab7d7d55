/** What holds of the stored connections, endpoints, links and sessions between any two transactions,
    and what can only ever change one way. */
module Routing {
  import opened Records
  import opened Table

  ghost predicate SameRoute(s: Session, t: Session) {
    s.(status := t.status, closedAt := t.closedAt) == t
  }

  ghost predicate EndpointOk(db: Db, id: Id)
    requires id in db.endpoints
  {
    var e := db.endpoints[id];
    && id != ABSENT
    && e.endpointId == id
    && (e.revokedAt != 0 ==>
          e.connectionId == ABSENT && e.activeSessionId == ABSENT && e.credentialHash == ABSENT)
    && (e.activeSessionId != ABSENT ==>
          && e.activeSessionId in db.seenSessions
          && (e.activeSessionId in db.sessions ==>
                var s := db.sessions[e.activeSessionId];
                s.status == SessionActive && (s.controllerId == id || s.companionId == id)))
  }

  ghost predicate LinkOk(db: Db, id: Id)
    requires id in db.links
  {
    var l := db.links[id];
    && id != ABSENT
    && l.linkId == id
    && l.controllerId != l.companionId
    && l.controllerId in db.endpoints && db.endpoints[l.controllerId].role == Controller
    && l.companionId in db.endpoints && db.endpoints[l.companionId].role == Companion
    && (l.status == LinkRevoked ==> l.activeSessionId == ABSENT)
    && (l.activeSessionId != ABSENT ==>
          && l.activeSessionId in db.seenSessions
          && (l.activeSessionId in db.sessions ==>
                var s := db.sessions[l.activeSessionId];
                s.status == SessionActive && s.linkId == id))
  }

  /** An endpoint that is up on the connection the session recorded, and points at the session. */
  ghost predicate Carries(db: Db, endpointId: Id, connectionId: Id, sessionId: Id) {
    && endpointId in db.endpoints
    && db.endpoints[endpointId].activeSessionId == sessionId
    && db.endpoints[endpointId].revokedAt == 0
    && db.endpoints[endpointId].connectionId == connectionId
    && connectionId != ABSENT
  }

  ghost predicate SessionOk(db: Db, id: Id)
    requires id in db.sessions
  {
    var s := db.sessions[id];
    && id != ABSENT
    && s.sessionId == id
    && id in db.seenSessions
    && s.controllerId != ABSENT && s.companionId != ABSENT
    && s.controllerId != s.companionId
    && s.controllerConnectionId != s.companionConnectionId
    && (s.status == SessionActive ==>
          && s.linkId in db.links
          && db.links[s.linkId].activeSessionId == id
          && db.links[s.linkId].controllerId == s.controllerId
          && db.links[s.linkId].companionId == s.companionId
          && Carries(db, s.controllerId, s.controllerConnectionId, id)
          && Carries(db, s.companionId, s.companionConnectionId, id))
  }

  ghost predicate ConnectionOk(db: Db, id: Id)
    requires id in db.connections
  {
    var c := db.connections[id];
    && id != ABSENT
    && c.connectionId == id
    && id in db.seenConnections
    && (c.authMode == PairingAuth <==> c.endpointId == ABSENT)
    && (c.endpointId != ABSENT ==>
          c.endpointId in db.endpoints && db.endpoints[c.endpointId].connectionId == id)
  }

  ghost predicate RouteInv(db: Db) {
    && 0 < db.now
    && (forall id :: id in db.endpoints ==> EndpointOk(db, id))
    && (forall id :: id in db.links ==> LinkOk(db, id))
    && (forall id :: id in db.sessions ==> SessionOk(db, id))
    && (forall id :: id in db.connections ==> ConnectionOk(db, id))
  }

  /** An endpoint is never dropped, keeps its role, and stays revoked; it comes to point only at
      sessions opened since. */
  ghost predicate EndpointEvolves(a: Db, b: Db, id: Id)
    requires id in b.endpoints
  {
    && (id in a.endpoints ==>
          && a.endpoints[id].role == b.endpoints[id].role
          && a.endpoints[id].createdAt == b.endpoints[id].createdAt
          && (a.endpoints[id].revokedAt != 0 ==> b.endpoints[id] == a.endpoints[id]))
    && (b.endpoints[id].activeSessionId != ABSENT && b.endpoints[id].activeSessionId in a.seenSessions ==>
          id in a.endpoints && a.endpoints[id].activeSessionId == b.endpoints[id].activeSessionId)
  }

  ghost predicate LinkEvolves(a: Db, b: Db, id: Id)
    requires id in b.links
  {
    && (id in a.links ==>
          && a.links[id].controllerId == b.links[id].controllerId
          && a.links[id].companionId == b.links[id].companionId
          && a.links[id].createdAt == b.links[id].createdAt
          && (a.links[id].status == LinkRevoked ==> b.links[id] == a.links[id]))
    && (b.links[id].activeSessionId != ABSENT && b.links[id].activeSessionId in a.seenSessions ==>
          id in a.links && a.links[id].activeSessionId == b.links[id].activeSessionId)
  }

  /** A session is never reopened or put a second time, and only its status ever changes. */
  ghost predicate SessionEvolves(a: Db, b: Db, id: Id)
    requires id in b.sessions
  {
    id in a.seenSessions ==>
      && id in a.sessions
      && SameRoute(a.sessions[id], b.sessions[id])
      && (a.sessions[id].status == SessionClosed ==> b.sessions[id] == a.sessions[id])
  }

  ghost predicate ConnectionEvolves(a: Db, b: Db, id: Id)
    requires id in b.connections
  {
    id in a.seenConnections ==>
      && id in a.connections
      && a.connections[id].(pairingId := b.connections[id].pairingId) == b.connections[id]
      && (a.connections[id].pairingId != ABSENT ==> a.connections[id] == b.connections[id])
  }

  ghost predicate RouteEvolves(a: Db, b: Db) {
    && a.now <= b.now
    && a.seenSessions <= b.seenSessions
    && a.seenConnections <= b.seenConnections
    && a.endpoints.Keys <= b.endpoints.Keys
    && a.links.Keys <= b.links.Keys
    && (forall id :: id in b.endpoints ==> EndpointEvolves(a, b, id))
    && (forall id :: id in b.links ==> LinkEvolves(a, b, id))
    && (forall id :: id in b.sessions ==> SessionEvolves(a, b, id))
    && (forall id :: id in b.connections ==> ConnectionEvolves(a, b, id))
  }

  lemma RouteEvolvesReflexive(a: Db)
    ensures RouteEvolves(a, a)
  {
  }

  lemma RouteEvolvesTransitive(a: Db, b: Db, c: Db)
    requires RouteEvolves(a, b) && RouteEvolves(b, c)
    ensures RouteEvolves(a, c)
  {
    forall id | id in c.endpoints ensures EndpointEvolves(a, c, id) {
      if id in b.endpoints { assert EndpointEvolves(a, b, id); }
      assert EndpointEvolves(b, c, id);
    }
    forall id | id in c.links ensures LinkEvolves(a, c, id) {
      if id in b.links { assert LinkEvolves(a, b, id); }
      assert LinkEvolves(b, c, id);
    }
    forall id | id in c.sessions ensures SessionEvolves(a, c, id) {
      assert SessionEvolves(b, c, id);
      if id in b.sessions { assert SessionEvolves(a, b, id); }
    }
    forall id | id in c.connections ensures ConnectionEvolves(a, c, id) {
      assert ConnectionEvolves(b, c, id);
      if id in b.connections { assert ConnectionEvolves(a, b, id); }
    }
  }
}
