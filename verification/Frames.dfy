/** What each kind of step leaves alone, and what it changes of connections, endpoints and pairs. */
module Frames {
  import opened Records
  import opened Table
  import opened Routing
  import opened Transitions
  import opened Specs
  import opened Pairing
  import opened ActivationStep
  import opened Runs
  import opened Steps

  predicate IsRouteStep(e: Event) {
    || e.ConnectEndpoint? || e.DisconnectEndpoint? || e.RevokeEndpoint? || e.RevokeLink? || e.CloseSession?
    || e.OpenSession? || e.Repair?
  }

  predicate IsPairStep(e: Event) {
    e.CreatePair? || e.JoinPair? || e.CommitHalf? || e.CommitFull? || e.CancelPair?
  }

  // ----- routes

  /** Endpoints keep their connections, and no connection record changes. */
  ghost predicate PlacesStay(db: Db, next: Db) {
    && next.connections == db.connections && next.seenConnections == db.seenConnections
    && next.endpoints.Keys == db.endpoints.Keys
    && (forall id :: id in db.endpoints ==> next.endpoints[id].connectionId == db.endpoints[id].connectionId)
  }

  /** One endpoint comes off its connection, whose record goes with it. */
  ghost predicate Unplaces(db: Db, next: Db, endpointId: Id, connectionId: Id) {
    && endpointId in db.endpoints && db.endpoints[endpointId].connectionId == connectionId && connectionId != ABSENT
    && next.connections == db.connections - {connectionId} && next.seenConnections == db.seenConnections
    && next.endpoints.Keys == db.endpoints.Keys
    && (forall id :: id in db.endpoints ==>
          next.endpoints[id].connectionId == if id == endpointId then ABSENT else db.endpoints[id].connectionId)
  }

  /** An endpoint comes to a connection; its old one goes. */
  ghost predicate Places(db: Db, next: Db, c: Connection, put: bool) {
    && c.endpointId in db.endpoints
    && next.connections == ConnectionsAfter(db, c, db.endpoints[c.endpointId].connectionId, put)
    && next.seenConnections == SeenAfter(db, c, put)
    && next.endpoints.Keys == db.endpoints.Keys
    && (forall id :: id in db.endpoints ==>
          next.endpoints[id].connectionId == if id == c.endpointId then c.connectionId
              else db.endpoints[id].connectionId)
  }

  /** A connect either finds its record on the endpoint, or puts a new one. */
  ghost predicate ConnectPlaces(db: Db, c: Connection, next: Db) {
    exists put :: Places(db, next, c, put) && NewConnection(c)
                  && if put then c.connectionId !in db.seenConnections
                     else db.endpoints[c.endpointId].connectionId == c.connectionId
  }

  /** Endpoints come to a connection only by a connect, and off one, unless somebody connects, only by a
      disconnect or a revocation. */
  ghost predicate RouteFrame(db: Db, e: Event, next: Db) {
    && RouteOnly(db, next)
    && match e
       case ConnectEndpoint(c, _, _, _, _) => ConnectPlaces(db, c, next)
       case DisconnectEndpoint(connectionId, _, _, _, _) =>
         connectionId in db.connections && Unplaces(db, next, db.connections[connectionId].endpointId, connectionId)
       case RevokeEndpoint(endpointId, connectionId, _, _, _) => Unplaces(db, next, endpointId, connectionId)
       case _ => PlacesStay(db, next)
  }

  lemma HeldKeepsPlaces(db: Db, endpointId: Id, now: int)
    requires endpointId in db.endpoints
    ensures PlacesStay(db, ReleaseHeld(db, endpointId, now))
  {
    hide EndSessions, ClearLinks;
  }

  lemma ConnectFrame(db: Db, e: Event, next: Db)
    requires e.ConnectEndpoint? && RouteMove(db, e, next)
    ensures ConnectPlaces(db, e.c, next)
  {
    hide ReleaseHeld, ConnectionsAfter, SeenAfter, SameConnection, AtomicRoute, MissesRecord;
    var put := ConnectIsReattached(db, e, next);
    HeldKeepsPlaces(db, e.c.endpointId, e.c.connectedAt);
    assert Places(db, next, e.c, put);
  }

  lemma UnplacingFrame(db: Db, e: Event, next: Db)
    requires (e.DisconnectEndpoint? || e.RevokeEndpoint?) && AtomicRoute(db, e, next) && RouteOnly(db, next)
    requires ABSENT !in db.connections
    ensures RouteFrame(db, e, next)
  {
    hide ReleaseHeld, RouteOnly;
    match e
    case DisconnectEndpoint(c, now, _, _, _) => HeldKeepsPlaces(db, db.connections[c].endpointId, now);
    case RevokeEndpoint(id, _, now, _, _) => HeldKeepsPlaces(db, id, now);
  }

  lemma AbsentIsNotStored(db: Db)
    requires RouteInv(db)
    ensures ABSENT !in db.connections
  {
    assert ABSENT in db.connections ==> ConnectionOk(db, ABSENT);
  }

  lemma SessionStepsKeepPlaces(db: Db, e: Event, next: Db)
    requires AtomicRoute(db, e, next) && (e.CloseSession? || e.Repair? || e.RevokeLink? || e.OpenSession?)
    ensures PlacesStay(db, next)
  {
    hide EndSessions, ClearLinks, CurrentCaller, OnLink;
  }

  lemma RouteMovesFrame(db: Db, e: Event, next: Db)
    requires RouteInv(db) && IsRouteStep(e) && RouteMove(db, e, next)
    ensures RouteFrame(db, e, next)
  {
    hide RouteInv, AtomicRoute, RouteOnly, ConnectPlaces, PlacesStay, Unplaces;
    RouteMovesAreRouteOnly(db, e, next);
    AbsentIsNotStored(db);
    if e.ConnectEndpoint? {
      ConnectFrame(db, e, next);
    } else if e.DisconnectEndpoint? || e.RevokeEndpoint? {
      UnplacingFrame(db, e, next);
    } else {
      SessionStepsKeepPlaces(db, e, next);
    }
  }

  // ----- pairs

  /** The connection that a step assigns to a pair. */
  function Assignee(e: Event): Id {
    match e
    case CreatePair(pair) => pair.sideA.connectionId
    case JoinPair(_, _, side, _, _) => side.connectionId
    case _ => ABSENT
  }

  ghost predicate PairFrame(db: Db, e: Event, next: Db) {
    && next.seenConnections == db.seenConnections && next.connections.Keys == db.connections.Keys
    && (forall c :: c in next.connections ==>
          || next.connections[c] == db.connections[c]
          || (c == Assignee(e) && Assignable(db, c)
              && next.connections[c] == db.connections[c].(pairingId := next.connections[c].pairingId)
              && Joined(next, c, next.connections[c].pairingId)))
    && (forall id :: id in next.endpoints && id in db.endpoints ==>
          next.endpoints[id].connectionId == db.endpoints[id].connectionId)
    && (forall id :: id in next.endpoints && id !in db.endpoints ==> next.endpoints[id].connectionId == ABSENT)
    && (forall id, c :: id in next.pairs && c != ABSENT && IsMember(next.pairs[id], c) ==>
          (id in db.pairs && IsMember(db.pairs[id], c)) || Assignable(db, c))
    && (forall id :: id in next.pairs && id in db.pairs && id in db.seenPairs ==>
          next.pairs[id].pairId == db.pairs[id].pairId)
    && (forall id :: id in next.seenPairs && id !in db.seenPairs ==>
          id in next.pairs && next.pairs[id].status == PairOpen)
    && (!e.CommitFull? ==> next.links == db.links && next.activations == db.activations)
  }

  /** The pair is stored with the connection on one of its sides. */
  ghost predicate Joined(db: Db, c: Id, pairId: Id) {
    pairId in db.seenPairs && pairId in db.pairs && IsMember(db.pairs[pairId], c)
  }

  lemma CreateFrame(db: Db, e: Event, next: Db)
    requires e.CreatePair? && AtomicPair(db, e, next)
    ensures PairFrame(db, e, next)
  {
  }

  lemma JoinFrame(db: Db, e: Event, next: Db)
    requires e.JoinPair? && AtomicPair(db, e, next) && PairInv(db) && RouteInv(db)
    ensures PairFrame(db, e, next)
  {
    assert PairOk(db, e.pairId) && ConnectionOk(db, e.side.connectionId);
    hide PairInv, RouteInv;
  }

  lemma ShortFrame(db: Db, e: Event, next: Db)
    requires (e.CommitHalf? || e.CancelPair?) && AtomicPair(db, e, next)
    ensures PairFrame(db, e, next)
  {
    hide Assignable, OwnSlot;
  }

  lemma FullFrame(db: Db, e: Event, next: Db)
    requires e.CommitFull? && AtomicPair(db, e, next)
    ensures PairFrame(db, e, next)
  {
    hide Assignable, OwnSlot, Bumped, ReciprocalCommits, Accepts;
  }

  lemma PairMovesFrame(db: Db, e: Event, next: Db)
    requires IsPairStep(e) && AtomicPair(db, e, next) && PairInv(db) && RouteInv(db)
    ensures PairFrame(db, e, next)
  {
    hide AtomicPair, PairFrame, PairInv, RouteInv;
    match e
    case CreatePair(_) => CreateFrame(db, e, next);
    case JoinPair(_, _, _, _, _) => JoinFrame(db, e, next);
    case CommitFull(_, _, _, _, _, _) => FullFrame(db, e, next);
    case _ => ShortFrame(db, e, next);
  }

  // ----- the rest

  ghost predicate PlainFrame(db: Db, e: Event, next: Db) {
    && next.links == db.links && next.activations == db.activations && db.seenConnections <= next.seenConnections
    && next.endpoints.Keys == db.endpoints.Keys
    && (forall id :: id in db.endpoints ==> next.endpoints[id].connectionId == db.endpoints[id].connectionId)
    && (forall c :: c in next.connections ==>
          || (c in db.connections && next.connections[c] == db.connections[c])
          || (e.ConnectPairing? && c == e.c.connectionId && next.connections[c] == e.c && e.c.pairingId == ABSENT
              && c !in db.seenConnections))
    && (forall c :: c in db.connections && c !in next.connections ==>
          e == Expire(ConnectionItem(c)) || db.connections[c].endpointId == ABSENT)
    && (forall id :: id in next.pairs ==>
          id in db.pairs && next.pairs[id].sideA == db.pairs[id].sideA && next.pairs[id].sideB == db.pairs[id].sideB)
    && (!e.Expire? && !e.DisconnectPairing? ==> next.pairs == db.pairs)
    && next.seenPairs == db.seenPairs
  }

  lemma DroppedLeaves(db: Db, item: Item)
    ensures var next := Dropped(db, item);
            && next.links == db.links && next.activations == db.activations
            && next.seenConnections == db.seenConnections && next.seenPairs == db.seenPairs
            && next.endpoints == db.endpoints
            && next.connections == (if item.ConnectionItem? then db.connections - {item.id} else db.connections)
            && next.pairs == (if item.PairItem? then db.pairs - {item.id} else db.pairs)
  {
  }

  lemma ExpiryFrame(db: Db, e: Event, next: Db)
    requires e.Expire? && AtomicPlain(db, e, next)
    ensures PlainFrame(db, e, next)
  {
    hide Expired, Dropped;
    DroppedLeaves(db, e.item);
  }

  /** A pairing connection goes; at most its pair's status changes. */
  ghost predicate DropsOne(db: Db, next: Db, connectionId: Id) {
    && next.connections == db.connections - {connectionId}
    && next == db.(connections := next.connections, pairs := next.pairs)
    && (forall id :: id in next.pairs ==>
          id in db.pairs && next.pairs[id].sideA == db.pairs[id].sideA && next.pairs[id].sideB == db.pairs[id].sideB)
  }

  lemma DroppingOne(db: Db, connectionId: Id, pairId: Id, closes: bool)
    requires closes ==> pairId in db.pairs
    ensures DropsOne(db, DropPairing(db, connectionId, pairId, closes), connectionId)
  {
  }

  lemma DropsOneIsPlain(db: Db, e: Event, next: Db, connectionId: Id)
    requires e.DisconnectPairing? && DropsOne(db, next, connectionId)
    requires connectionId in db.connections ==> db.connections[connectionId].endpointId == ABSENT
    ensures PlainFrame(db, e, next)
  {
  }

  lemma DropPairingFrame(db: Db, e: Event, next: Db)
    requires e.DisconnectPairing? && AtomicPlain(db, e, next)
    ensures PlainFrame(db, e, next)
  {
    hide IsMember, DropPairing, DropsOne, PlainFrame;
    var pairId := db.connections[e.connectionId].pairingId;
    DroppingOne(db, e.connectionId, pairId, next != DropPairing(db, e.connectionId, pairId, false));
    DropsOneIsPlain(db, e, next, e.connectionId);
  }

  lemma PlainMovesFrame(db: Db, e: Event, next: Db)
    requires AtomicPlain(db, e, next)
    ensures PlainFrame(db, e, next)
  {
    hide IsMember, Expired, Dropped, DropPairing;
    if e.Expire? {
      ExpiryFrame(db, e, next);
    } else if e.DisconnectPairing? {
      DropPairingFrame(db, e, next);
    }
  }

  // ----- all of them

  ghost predicate Frame(db: Db, e: Event, next: Db) {
    if IsRouteStep(e) then RouteFrame(db, e, next)
    else if IsPairStep(e) then PairFrame(db, e, next)
    else PlainFrame(db, e, next)
  }

  lemma MovesByKind(db: Db, e: Event, next: Db)
    requires Moves(db, e, next)
    ensures if IsRouteStep(e) then RouteMove(db, e, next)
            else if IsPairStep(e) then AtomicPair(db, e, next) else AtomicPlain(db, e, next)
  {
    hide CanConnect, Reattached, SpecConnect, SpecDisconnect, SpecRevokeLink, SpecRevokeEndpoint, SpecOpen, SpecClose,
         WithoutPointers, CanOpen, OpenedSession, CurrentCaller, SpecCreate, SpecJoin, SpecHalf, SpecActivate,
         SpecClosePair, CanActivate, Assignable, Admits, OwnSlot, IsMember, Expired, Dropped, DropPairing, SpecRotate,
         SpecConnectPairing;
  }

  lemma StepsFrame(db: Db, e: Event, next: Db)
    requires Step(db, e, next)
    ensures Frame(db, e, next)
  {
    hide Keeps, Moves, AtomicRoute, AtomicPair, AtomicPlain, MissesRecord, RouteFrame, PairFrame, PlainFrame, RouteInv,
         PairInv, LogInv, QuotaInv;
    MovesByKind(db, e, next);
    if IsRouteStep(e) {
      RouteMovesFrame(db, e, next);
    } else if IsPairStep(e) {
      PairMovesFrame(db, e, next);
    } else {
      PlainMovesFrame(db, e, next);
    }
  }
}
