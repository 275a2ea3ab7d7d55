/** Pair records: what holds of them between transactions, how they move on, and the pairing operations
    as atomic steps. */
module Pairing {
  import opened Records
  import opened Table
  import opened Routing

  predicate IsStub(p: Pair) { p == CLOSED_STUB }

  predicate InStatus(db: Db, id: Id, status: PairStatus) { id in db.pairs && db.pairs[id].status == status }

  predicate HasMember(db: Db, id: Id, connectionId: Id) { id in db.pairs && IsMember(db.pairs[id], connectionId) }

  /** The commits that a pair may hold in each status. */
  ghost predicate Shape(p: Pair) {
    match p.status
    case PairOpen => p.sideB.None? && p.commitA.None? && p.commitB.None?
    case PairReady => p.sideB.Some? && p.commitA.None? && p.commitB.None?
    case PairHalf => p.sideB.Some? && (p.commitA.Some? != p.commitB.Some?)
    case PairActive =>
      && p.sideB.Some? && p.commitA.Some? && p.commitB.Some?
      && ReciprocalCommits(p.commitA.value, p.commitB.value)
    case PairClosed => p.commitA.None? || p.commitB.None?
  }

  predicate FromSide(commit: PairCommit, side: PairSide) {
    commit.connectionId == side.connectionId && commit.sideId == side.sideId
  }

  ghost predicate PairOk(db: Db, id: Id)
    requires id in db.pairs
  {
    var p := db.pairs[id];
    && id != ABSENT
    && id in db.seenPairs
    && (!IsStub(p) ==>
        && p.pairId == id
        && Shape(p)
        && p.sideA.connectionId != ABSENT
        && (p.sideB.Some? ==>
              p.sideB.value.connectionId != ABSENT && p.sideB.value.connectionId != p.sideA.connectionId)
        && (p.commitA.Some? ==> FromSide(p.commitA.value, p.sideA))
        && (p.commitB.Some? ==> p.sideB.Some? && FromSide(p.commitB.value, p.sideB.value)))
  }

  /** A member's connection was assigned to this pair, for as long as its record is stored. */
  ghost predicate MemberOk(db: Db, id: Id, connectionId: Id)
    requires id in db.pairs
  {
    IsMember(db.pairs[id], connectionId) ==>
      && connectionId in db.seenConnections
      && (connectionId in db.connections ==> db.connections[connectionId].pairingId == id)
  }

  /** A connection is a member of at most one pair. */
  ghost predicate OneMembership(db: Db, id: Id, other: Id, connectionId: Id)
    requires id in db.pairs && other in db.pairs
  {
    IsMember(db.pairs[id], connectionId) && IsMember(db.pairs[other], connectionId) ==> id == other
  }

  ghost predicate PairInv(db: Db) {
    && (forall id :: id in db.pairs ==> PairOk(db, id))
    && (forall id, c :: id in db.pairs ==> MemberOk(db, id, c))
    && (forall id, other, c :: id in db.pairs && other in db.pairs ==> OneMembership(db, id, other, c))
  }

  function Rank(status: PairStatus): nat {
    match status
    case PairOpen => 0
    case PairReady => 1
    case PairHalf => 2
    case PairActive => 3
    case PairClosed => 3
  }

  /** A stored pair was put once; its sides and commits are only ever filled in, its status only moves
      forward, and once ACTIVE or CLOSED it never changes again. */
  ghost predicate PairEvolves1(p: Pair, q: Pair) {
    && p.pairId == q.pairId && p.locator == q.locator && p.joinTokenHash == q.joinTokenHash
    && p.sideA == q.sideA && p.expiresAt == q.expiresAt
    && (p.sideB.Some? ==> q.sideB == p.sideB)
    && (p.commitA.Some? ==> q.commitA == p.commitA)
    && (p.commitB.Some? ==> q.commitB == p.commitB)
    && Rank(p.status) <= Rank(q.status)
    && (Rank(p.status) == 3 ==> q == p)
  }

  ghost predicate PairEvolvesAt(a: Db, b: Db, id: Id)
    requires id in b.pairs
  {
    id in a.seenPairs && !IsStub(b.pairs[id]) ==> id in a.pairs && PairEvolves1(a.pairs[id], b.pairs[id])
  }

  ghost predicate PairEvolves(a: Db, b: Db) {
    && a.seenPairs <= b.seenPairs
    && (forall id :: id in b.pairs ==> PairEvolvesAt(a, b, id))
  }

  lemma PairEvolvesTransitive(a: Db, b: Db, c: Db)
    requires PairEvolves(a, b) && PairEvolves(b, c) && PairInv(b)
    ensures PairEvolves(a, c)
  {
    forall id | id in c.pairs ensures PairEvolvesAt(a, c, id) {
      assert PairEvolvesAt(b, c, id);
      if id in b.pairs {
        assert PairOk(b, id);
        assert PairEvolvesAt(a, b, id);
      }
    }
  }

  /** Steps on routes leave pairs alone: a member's connection record never changes but to go. */
  lemma RouteStepKeepsPairs(a: Db, b: Db)
    requires PairInv(a) && RouteEvolves(a, b) && b.pairs == a.pairs && b.seenPairs == a.seenPairs
    ensures PairInv(b) && PairEvolves(a, b)
  {
    forall id | id in b.pairs ensures PairOk(b, id) {
      assert PairOk(a, id);
    }
    forall id, c | id in b.pairs ensures MemberOk(b, id, c) {
      assert PairOk(a, id) && MemberOk(a, id, c);
      if c in b.connections { assert ConnectionEvolves(a, b, c); }
    }
    forall id, other, c | id in b.pairs && other in b.pairs ensures OneMembership(b, id, other, c) {
      assert OneMembership(a, id, other, c);
    }
  }

  // ----- the pairing operations as atomic steps

  function Assigned(db: Db, connectionId: Id, pairId: Id): map<Id, Connection>
    requires connectionId in db.connections
  {
    db.connections[connectionId := db.connections[connectionId].(pairingId := pairId)]
  }

  function SpecCreate(db: Db, p: Pair, door: AdmissionKey, admission: Admission): Db
    requires p.sideA.connectionId in db.connections
  {
    db.(pairs := db.pairs[p.pairId := p], seenPairs := db.seenPairs + {p.pairId},
        admissions := db.admissions[door := admission],
        connections := Assigned(db, p.sideA.connectionId, p.pairId))
  }

  function SpecJoin(db: Db, pairId: Id, side: PairSide): Db
    requires pairId in db.pairs && side.connectionId in db.connections
  {
    db.(pairs := db.pairs[pairId := db.pairs[pairId].(sideB := Some(side), status := PairReady)],
        connections := Assigned(db, side.connectionId, pairId))
  }

  function Filled(p: Pair, slot: Slot, commit: PairCommit, status: PairStatus): Pair {
    match slot
    case SlotA => p.(commitA := Some(commit), status := status)
    case SlotB => p.(commitB := Some(commit), status := status)
  }

  function SpecHalf(db: Db, pairId: Id, slot: Slot, commit: PairCommit): Db
    requires pairId in db.pairs
  {
    WithPair(db, pairId, Filled(db.pairs[pairId], slot, commit, PairHalf))
  }

  function SpecClosePair(db: Db, pairId: Id): Db {
    WithPair(db, pairId, if pairId in db.pairs then db.pairs[pairId].(status := PairClosed) else CLOSED_STUB)
  }

  ghost predicate Assignable(db: Db, connectionId: Id) {
    && connectionId in db.connections
    && db.connections[connectionId].authMode == PairingAuth
    && db.connections[connectionId].pairingId == ABSENT
  }

  lemma AssignableIsNoMember(db: Db, connectionId: Id, id: Id)
    requires PairInv(db) && Assignable(db, connectionId) && id in db.pairs
    ensures !IsMember(db.pairs[id], connectionId)
  {
    assert PairOk(db, id);
    assert MemberOk(db, id, connectionId);
  }

  lemma AssignKeepsRoute(db: Db, after: Db, connectionId: Id, pairId: Id)
    requires RouteInv(db) && Assignable(db, connectionId)
    requires after.connections == Assigned(db, connectionId, pairId)
    requires after.endpoints == db.endpoints && after.links == db.links && after.sessions == db.sessions
    requires after.seenConnections == db.seenConnections && after.seenSessions == db.seenSessions && after.now == db.now
    ensures RouteInv(after) && RouteEvolves(db, after)
  {
    forall id | id in after.connections ensures ConnectionOk(after, id) && ConnectionEvolves(db, after, id) {
      assert ConnectionOk(db, id);
    }
    assert forall id :: id in db.endpoints ==> EndpointOk(db, id) && EndpointOk(after, id);
    assert forall id :: id in db.links ==> LinkOk(db, id) && LinkOk(after, id);
    assert forall id :: id in db.sessions ==> SessionOk(db, id) && SessionOk(after, id);
  }

  /** A pair step that adds at most one member, an assignable connection that it assigns. */
  lemma AssigningKeepsPairs(db: Db, after: Db, pairId: Id, connectionId: Id)
    requires PairInv(db) && RouteInv(db) && Assignable(db, connectionId) && pairId != ABSENT
    requires after.connections == Assigned(db, connectionId, pairId)
    requires after.seenConnections == db.seenConnections
    requires pairId in after.pairs && after.pairs == db.pairs[pairId := after.pairs[pairId]]
    requires after.seenPairs == db.seenPairs + {pairId}
    requires PairOk(after, pairId)
    requires forall c :: IsMember(after.pairs[pairId], c) ==>
               c == connectionId || (pairId in db.pairs && IsMember(db.pairs[pairId], c))
    ensures PairInv(after)
  {
    assert ConnectionOk(db, connectionId);
    forall id | id in after.pairs ensures PairOk(after, id) {
      if id != pairId { assert PairOk(db, id); }
    }
    forall id | id in db.pairs ensures !IsMember(db.pairs[id], connectionId) {
      AssignableIsNoMember(db, connectionId, id);
    }
    forall id, c | id in after.pairs ensures MemberOk(after, id, c) {
      if id in db.pairs { assert MemberOk(db, id, c); }
    }
    forall id, other, c | id in after.pairs && other in after.pairs ensures OneMembership(after, id, other, c) {
      if id in db.pairs && other in db.pairs { assert OneMembership(db, id, other, c); }
      if pairId in db.pairs {
        if id in db.pairs { assert OneMembership(db, id, pairId, c); }
        if other in db.pairs { assert OneMembership(db, pairId, other, c); }
      }
    }
  }

  lemma ReplacingKeepsPairs(db: Db, after: Db, pairId: Id)
    requires PairInv(db)
    requires after.connections == db.connections && after.seenConnections == db.seenConnections
    requires after.seenPairs == db.seenPairs
    requires pairId in after.pairs && after.pairs == db.pairs[pairId := after.pairs[pairId]]
    requires PairOk(after, pairId)
    requires forall c :: IsMember(after.pairs[pairId], c) ==> pairId in db.pairs && IsMember(db.pairs[pairId], c)
    ensures PairInv(after)
  {
    forall id | id in after.pairs ensures PairOk(after, id) {
      if id != pairId { assert PairOk(db, id); }
    }
    forall id, c | id in after.pairs ensures MemberOk(after, id, c) {
      if id in db.pairs { assert MemberOk(db, id, c); }
    }
    forall id, other, c | id in after.pairs && other in after.pairs ensures OneMembership(after, id, other, c) {
      if id in db.pairs && other in db.pairs { assert OneMembership(db, id, other, c); }
    }
  }

  lemma ReplacingEvolves(db: Db, after: Db, pairId: Id)
    requires PairInv(db)
    requires db.seenPairs <= after.seenPairs
    requires pairId in after.pairs && after.pairs == db.pairs[pairId := after.pairs[pairId]]
    requires pairId in db.seenPairs && !IsStub(after.pairs[pairId]) ==>
               pairId in db.pairs && PairEvolves1(db.pairs[pairId], after.pairs[pairId])
    ensures PairEvolves(db, after)
  {
  }

  lemma SpecCreateKeeps(db: Db, p: Pair, door: AdmissionKey, admission: Admission)
    requires RouteInv(db) && PairInv(db) && Assignable(db, p.sideA.connectionId)
    requires p.pairId != ABSENT && p.pairId !in db.seenPairs && p.status == PairOpen && Shape(p)
    ensures var after := SpecCreate(db, p, door, admission);
            RouteInv(after) && RouteEvolves(db, after) && PairInv(after) && PairEvolves(db, after)
  {
    var after := SpecCreate(db, p, door, admission);
    assert ConnectionOk(db, p.sideA.connectionId);
    assert p.pairId in db.pairs ==> PairOk(db, p.pairId);
    AssignKeepsRoute(db, after, p.sideA.connectionId, p.pairId);
    hide RouteInv, RouteEvolves;
    AssigningKeepsPairs(db, after, p.pairId, p.sideA.connectionId) by { assert RouteInv(db); }
    ReplacingEvolves(db, after, p.pairId);
  }

  lemma SpecJoinKeeps(db: Db, pairId: Id, side: PairSide)
    requires RouteInv(db) && PairInv(db) && Assignable(db, side.connectionId)
    requires pairId in db.pairs && db.pairs[pairId].status == PairOpen
    ensures var after := SpecJoin(db, pairId, side);
            RouteInv(after) && RouteEvolves(db, after) && PairInv(after) && PairEvolves(db, after)
  {
    var after := SpecJoin(db, pairId, side);
    assert ConnectionOk(db, side.connectionId);
    assert PairOk(db, pairId);
    AssignableIsNoMember(db, side.connectionId, pairId);
    AssignKeepsRoute(db, after, side.connectionId, pairId);
    hide RouteInv, RouteEvolves;
    AssigningKeepsPairs(db, after, pairId, side.connectionId) by { assert RouteInv(db); }
    ReplacingEvolves(db, after, pairId);
  }

  lemma SpecClosePairKeeps(db: Db, pairId: Id)
    requires PairInv(db) && pairId != ABSENT && pairId in db.seenPairs
    requires pairId in db.pairs ==> db.pairs[pairId].status != PairActive
    ensures PairInv(SpecClosePair(db, pairId)) && PairEvolves(db, SpecClosePair(db, pairId))
  {
    var after := SpecClosePair(db, pairId);
    if pairId in db.pairs { assert PairOk(db, pairId); }
    ReplacingKeepsPairs(db, after, pairId);
    ReplacingEvolves(db, after, pairId);
  }

  predicate OwnSlot(p: Pair, slot: Slot, commit: PairCommit) {
    match slot
    case SlotA => FromSide(commit, p.sideA)
    case SlotB => p.sideB.Some? && FromSide(commit, p.sideB.value)
  }

  lemma FillingKeeps(db: Db, after: Db, pairId: Id, slot: Slot, commit: PairCommit, status: PairStatus)
    requires PairInv(db) && pairId in db.pairs && OwnSlot(db.pairs[pairId], slot, commit)
    requires Commit(db.pairs[pairId], slot).None?
    requires Rank(db.pairs[pairId].status) < 3 && Rank(db.pairs[pairId].status) <= Rank(status)
    requires after.pairs == db.pairs[pairId := Filled(db.pairs[pairId], slot, commit, status)]
    requires after.connections == db.connections && after.seenConnections == db.seenConnections
    requires after.seenPairs == db.seenPairs
    requires Shape(after.pairs[pairId])
    ensures PairInv(after) && PairEvolves(db, after)
  {
    assert PairOk(db, pairId);
    ReplacingKeepsPairs(db, after, pairId);
    ReplacingEvolves(db, after, pairId);
  }

  lemma SpecHalfKeeps(db: Db, pairId: Id, slot: Slot, commit: PairCommit)
    requires PairInv(db) && pairId in db.pairs && OwnSlot(db.pairs[pairId], slot, commit)
    requires db.pairs[pairId].status == PairReady
    ensures PairInv(SpecHalf(db, pairId, slot, commit)) && PairEvolves(db, SpecHalf(db, pairId, slot, commit))
  {
    assert PairOk(db, pairId);
    FillingKeeps(db, SpecHalf(db, pairId, slot, commit), pairId, slot, commit, PairHalf);
  }
}
