/** The relay's single table, and its conditional writes.  A transaction commits only when every item
    it names is named once and every condition holds of the table before the transaction. */
module Table {
  import opened Records

  datatype AdmissionKey = LocatorKey(locator: Id) | JoinKey(joinTokenHash: Id)

  datatype Admission = Admission(pairId: Id, locator: Id, joinTokenHash: Id, expiresAt: int)

  datatype Source = GlobalSource | FromSource(key: Id)

  datatype Action = PairActivate | OtherAction(name: nat)

  datatype RateKey = RateKey(source: Source, action: Action, bucket: int)

  datatype Rate = Rate(count: nat, expiresAt: int)

  /** One line of the activation log, a history variable. */
  datatype Activation = Activation(
    pairId: Id, linkId: Id, first: PairCommit, second: PairCommit, sourceKey: Id, at: int)

  /** The stored items, the clock, and what has ever been stored: `seenConnections`, `seenSessions` and
      `seenPairs` hold every ID ever put, `activations` every activation in commit order.
      `activationLimit` is the deployment's pair activations per source and hour. */
  datatype Db = Db(
    now: int,
    connections: map<Id, Connection>,
    endpoints: map<Id, Endpoint>,
    links: map<Id, Link>,
    sessions: map<Id, Session>,
    pairs: map<Id, Pair>,
    admissions: map<AdmissionKey, Admission>,
    rates: map<RateKey, Rate>,
    seenConnections: set<Id>,
    seenSessions: set<Id>,
    seenPairs: set<Id>,
    activations: seq<Activation>,
    activationLimit: int)

  datatype Slot = SlotA | SlotB

  datatype Write =
    | PutConnection(connection: Connection)
    | DeleteConnection(connectionId: Id, mustExist: bool)
    | SetPairing(connectionId: Id, pairId: Id)
    | AttachConnection(endpointId: Id, credentialHash: Id, oldConnectionId: Id, oldSessionId: Id,
                       connectionId: Id, now: int)
    | DetachConnection(endpointId: Id, connectionId: Id, oldSessionId: Id)
    | RetireEndpoint(endpointId: Id, connectionId: Id, oldSessionId: Id, now: int)
    | ClaimEndpoint(endpointId: Id, connectionId: Id, sessionId: Id)
    | ClearEndpoint(endpointId: Id, sessionId: Id, fence: Id)
    | CheckEndpoint(endpointId: Id, connectionId: Id)
    | RotateCredential(endpointId: Id, connectionId: Id, credentialHash: Id, now: int)
    | UpsertEndpoint(endpoint: Endpoint)
    | PutLink(link: Link, entry: Activation)
    | RetireLink(linkId: Id, oldSessionId: Id, now: int)
    | ClaimLink(linkId: Id, sessionId: Id)
    | ClearLink(linkId: Id, sessionId: Id)
    | PutSession(session: Session)
    | EndSession(sessionId: Id, now: int)
    | PutPair(pair: Pair)
    | PutAdmission(door: AdmissionKey, admission: Admission)
    | FillSideB(pairId: Id, side: PairSide, door: AdmissionKey, now: int)
    | FillSlot(pairId: Id, slot: Slot, commit: PairCommit, from: PairStatus, to: PairStatus, now: int)
    | ClosePair(pairId: Id, memberId: Id)
    | BumpRate(rate: RateKey, limit: int, expiresAt: int)

  datatype Item =
    | ConnectionItem(id: Id) | EndpointItem(id: Id) | LinkItem(id: Id) | SessionItem(id: Id)
    | PairItem(id: Id) | AdmissionItem(key: AdmissionKey) | RateItem(rate: RateKey)

  function Target(w: Write): Item {
    match w
    case PutConnection(c) => ConnectionItem(c.connectionId)
    case DeleteConnection(id, _) => ConnectionItem(id)
    case SetPairing(id, _) => ConnectionItem(id)
    case AttachConnection(id, _, _, _, _, _) => EndpointItem(id)
    case DetachConnection(id, _, _) => EndpointItem(id)
    case RetireEndpoint(id, _, _, _) => EndpointItem(id)
    case ClaimEndpoint(id, _, _) => EndpointItem(id)
    case ClearEndpoint(id, _, _) => EndpointItem(id)
    case CheckEndpoint(id, _) => EndpointItem(id)
    case RotateCredential(id, _, _, _) => EndpointItem(id)
    case UpsertEndpoint(e) => EndpointItem(e.endpointId)
    case PutLink(l, _) => LinkItem(l.linkId)
    case RetireLink(id, _, _) => LinkItem(id)
    case ClaimLink(id, _) => LinkItem(id)
    case ClearLink(id, _) => LinkItem(id)
    case PutSession(s) => SessionItem(s.sessionId)
    case EndSession(id, _) => SessionItem(id)
    case PutPair(p) => PairItem(p.pairId)
    case PutAdmission(key, _) => AdmissionItem(key)
    case FillSideB(id, _, _, _) => PairItem(id)
    case FillSlot(id, _, _, _, _, _) => PairItem(id)
    case ClosePair(id, _) => PairItem(id)
    case BumpRate(key, _, _) => RateItem(key)
  }

  /** `attribute = :value` is false of an attribute that is not there. */
  predicate Equals(attribute: Id, value: Id) {
    attribute != ABSENT && attribute == value
  }

  predicate Admits(pair: Pair, key: AdmissionKey) {
    match key
    case LocatorKey(value) => Equals(pair.locator, value) && pair.joinTokenHash == ABSENT
    case JoinKey(value) => Equals(pair.joinTokenHash, value) && pair.locator == ABSENT
  }

  function Commit(pair: Pair, slot: Slot): Option<PairCommit> {
    match slot case SlotA => pair.commitA case SlotB => pair.commitB
  }

  predicate IsMember(pair: Pair, connectionId: Id) {
    || Equals(pair.sideA.connectionId, connectionId)
    || (pair.sideB.Some? && Equals(pair.sideB.value.connectionId, connectionId))
  }

  /** The condition expression of each write.  The put of a connection, a session or a
      pair also carries the assumption that its generated ID was never used before. */
  predicate Holds(w: Write, db: Db) {
    match w
    case PutConnection(c) =>
      c.connectionId !in db.connections && c.connectionId !in db.seenConnections
    case DeleteConnection(id, mustExist) => mustExist ==> id in db.connections
    case SetPairing(id, _) =>
      id in db.connections && db.connections[id].authMode == PairingAuth && db.connections[id].pairingId == ABSENT
    case AttachConnection(id, credentialHash, oldConnectionId, oldSessionId, _, _) =>
      && id in db.endpoints
      && db.endpoints[id].revokedAt == 0
      && Equals(db.endpoints[id].credentialHash, credentialHash)
      && db.endpoints[id].connectionId == oldConnectionId
      && db.endpoints[id].activeSessionId == oldSessionId
    case DetachConnection(id, connectionId, oldSessionId) =>
      && id in db.endpoints
      && Equals(db.endpoints[id].connectionId, connectionId)
      && db.endpoints[id].activeSessionId == oldSessionId
    case RetireEndpoint(id, connectionId, oldSessionId, _) =>
      && id in db.endpoints
      && db.endpoints[id].revokedAt == 0
      && Equals(db.endpoints[id].connectionId, connectionId)
      && db.endpoints[id].activeSessionId == oldSessionId
    case ClaimEndpoint(id, connectionId, _) =>
      && id in db.endpoints
      && db.endpoints[id].revokedAt == 0
      && Equals(db.endpoints[id].connectionId, connectionId)
      && db.endpoints[id].activeSessionId == ABSENT
    case ClearEndpoint(id, sessionId, fence) =>
      && id in db.endpoints
      && Equals(db.endpoints[id].activeSessionId, sessionId)
      && (fence != ABSENT ==>
            db.endpoints[id].connectionId == fence && db.endpoints[id].revokedAt == 0)
    case CheckEndpoint(id, connectionId) =>
      && id in db.endpoints
      && Equals(db.endpoints[id].connectionId, connectionId)
      && db.endpoints[id].revokedAt == 0
    case RotateCredential(id, connectionId, _, _) =>
      && id in db.endpoints
      && db.endpoints[id].revokedAt == 0
      && Equals(db.endpoints[id].connectionId, connectionId)
    case UpsertEndpoint(e) =>
      e.endpointId in db.endpoints ==>
        && Equals(db.endpoints[e.endpointId].credentialHash, e.credentialHash)
        && db.endpoints[e.endpointId].role == e.role
        && db.endpoints[e.endpointId].revokedAt == 0
    case PutLink(l, _) => l.linkId !in db.links
    case RetireLink(id, oldSessionId, _) =>
      && id in db.links
      && db.links[id].status == LinkActive
      && db.links[id].activeSessionId == oldSessionId
    case ClaimLink(id, _) =>
      id in db.links && db.links[id].status == LinkActive && db.links[id].activeSessionId == ABSENT
    case ClearLink(id, sessionId) => id in db.links && Equals(db.links[id].activeSessionId, sessionId)
    case PutSession(s) => s.sessionId !in db.sessions && s.sessionId !in db.seenSessions
    case EndSession(id, _) => id in db.sessions && db.sessions[id].status == SessionActive
    case PutPair(p) => p.pairId !in db.pairs && p.pairId !in db.seenPairs
    case PutAdmission(key, _) => key !in db.admissions
    case FillSideB(id, _, key, now) =>
      && id in db.pairs
      && db.pairs[id].status == PairOpen
      && db.pairs[id].expiresAt > now
      && db.pairs[id].sideB.None?
      && Admits(db.pairs[id], key)
    case FillSlot(id, slot, _, from, _, now) =>
      && id in db.pairs
      && db.pairs[id].status == from
      && db.pairs[id].expiresAt > now
      && Commit(db.pairs[id], slot).None?
    case ClosePair(id, memberId) =>
      // `status <> :active` is true of an item that is not there; a membership condition is not.
      && (id in db.pairs ==> db.pairs[id].status != PairActive)
      && (memberId != ABSENT ==> id in db.pairs && IsMember(db.pairs[id], memberId))
    case BumpRate(key, limit, _) => key in db.rates ==> db.rates[key].count < limit
  }

  /** What an update that closes a pair writes when the pair item has already gone: an item with a
      status and nothing else. */
  const CLOSED_STUB := Pair(ABSENT, ABSENT, ABSENT, PairClosed, PairSide(ABSENT, ABSENT), None, None, None, 0)

  /** The update expression of each write.  An update of an item that is not there does nothing here:
      its condition fails, except for the three writes that create their item. */
  function Effect(db: Db, w: Write): Db {
    match Target(w)
    case ConnectionItem(id) =>
      (match w
       case PutConnection(c) =>
         db.(connections := db.connections[id := c],
             seenConnections := db.seenConnections + {id})
       case SetPairing(_, pairId) =>
         if id in db.connections
         then db.(connections := db.connections[id := db.connections[id].(pairingId := pairId)]) else db
       case _ => db.(connections := db.connections - {id}))
    case EndpointItem(id) =>
      if id in db.endpoints then WithEndpoint(db, id, EndpointAfter(db.endpoints[id], w))
      else if w.UpsertEndpoint? then WithEndpoint(db, id, w.endpoint)
      else db
    case LinkItem(id) =>
      if w.PutLink? then WithLink(db, id, w.link).(activations := db.activations + [w.entry])
      else if id in db.links then WithLink(db, id, LinkAfter(db.links[id], w))
      else db
    case SessionItem(id) =>
      (match w
       case PutSession(s) => db.(sessions := db.sessions[id := s], seenSessions := db.seenSessions + {id})
       case EndSession(_, now) =>
         if id in db.sessions then db.(sessions := db.sessions[id := Closed(db.sessions[id], now)]) else db
       case _ => db)
    case PairItem(id) =>
      if w.PutPair? then db.(pairs := db.pairs[id := w.pair], seenPairs := db.seenPairs + {id})
      else if id in db.pairs then WithPair(db, id, PairAfter(db.pairs[id], w))
      else if w.ClosePair? then WithPair(db, id, CLOSED_STUB)
      else db
    case AdmissionItem(key) =>
      if w.PutAdmission? then db.(admissions := db.admissions[key := w.admission]) else db
    case RateItem(key) =>
      if w.BumpRate? then db.(rates := db.rates[key := Rate(1 + Count(db, key), w.expiresAt)]) else db
  }

  function EndpointAfter(e: Endpoint, w: Write): Endpoint {
    match w
    case AttachConnection(_, _, _, _, connectionId, now) =>
      e.(connectionId := connectionId, updatedAt := now, activeSessionId := ABSENT)
    case DetachConnection(_, _, _) => e.(connectionId := ABSENT, activeSessionId := ABSENT)
    case RetireEndpoint(_, _, _, now) =>
      e.(revokedAt := now, updatedAt := now, connectionId := ABSENT, activeSessionId := ABSENT,
         credentialHash := ABSENT)
    case ClaimEndpoint(_, _, sessionId) => e.(activeSessionId := sessionId)
    case ClearEndpoint(_, _, _) => e.(activeSessionId := ABSENT)
    case RotateCredential(_, _, credentialHash, now) => e.(credentialHash := credentialHash, updatedAt := now)
    case _ => e
  }

  function LinkAfter(l: Link, w: Write): Link {
    match w
    case RetireLink(_, _, now) => l.(status := LinkRevoked, revokedAt := now, activeSessionId := ABSENT)
    case ClaimLink(_, sessionId) => l.(activeSessionId := sessionId)
    case ClearLink(_, _) => l.(activeSessionId := ABSENT)
    case _ => l
  }

  function PairAfter(p: Pair, w: Write): Pair {
    match w
    case FillSideB(_, side, _, _) => p.(sideB := Some(side), status := PairReady)
    case FillSlot(_, SlotA, commit, _, to, _) => p.(commitA := Some(commit), status := to)
    case FillSlot(_, SlotB, commit, _, to, _) => p.(commitB := Some(commit), status := to)
    case ClosePair(_, _) => p.(status := PairClosed)
    case _ => p
  }

  function Count(db: Db, key: RateKey): nat {
    if key in db.rates then db.rates[key].count else 0
  }

  function WithEndpoint(db: Db, id: Id, e: Endpoint): Db { db.(endpoints := db.endpoints[id := e]) }

  function WithLink(db: Db, id: Id, l: Link): Db { db.(links := db.links[id := l]) }

  function WithPair(db: Db, id: Id, p: Pair): Db { db.(pairs := db.pairs[id := p]) }

  predicate DistinctTargets(ws: seq<Write>) {
    forall i, j :: 0 <= i < j < |ws| ==> Target(ws[i]) != Target(ws[j])
  }

  predicate AllHold(ws: seq<Write>, db: Db) {
    forall w :: w in ws ==> Holds(w, db)
  }

  /** A transaction goes through only when it names no item twice and every condition holds. */
  predicate Commits(ws: seq<Write>, db: Db) {
    DistinctTargets(ws) && AllHold(ws, db)
  }

  function Apply(db: Db, ws: seq<Write>): Db
    decreases |ws|
  {
    if ws == [] then db else Apply(Effect(db, ws[0]), ws[1..])
  }
}
