/** Activation: two reciprocal commits become a link and two endpoints, within quota, in one step. */
module ActivationStep {
  import opened Records
  import opened Table
  import opened Routing
  import opened Pairing
  import opened Transitions

  const HOUR := 60 * 60
  const DAY := 24 * 60 * 60
  const ACTIVATIONS_PER_DAY := 10_000

  /** A relay invocation lasts at most ten seconds, so its clock reading is at most that old. */
  const INVOCATION_SECONDS := 10

  function HourKey(sourceKey: Id, at: int): RateKey { RateKey(FromSource(sourceKey), PairActivate, at / HOUR) }

  function DayKey(at: int): RateKey { RateKey(GlobalSource, PairActivate, at / DAY) }

  function Window(key: RateKey): int { if key.source.GlobalSource? then DAY else HOUR }

  function Limit(db: Db, key: RateKey): int {
    if key.source.GlobalSource? then ACTIVATIONS_PER_DAY else db.activationLimit
  }

  function RateExpiry(key: RateKey): int { (key.bucket + 2) * Window(key) }

  function NewEndpoint(commit: PairEndpointCommit, now: int): Endpoint {
    Endpoint(commit.endpointId, commit.credentialHash, commit.role, ABSENT, ABSENT, 0, now, now)
  }

  function OtherSlot(slot: Slot): Slot { if slot == SlotA then SlotB else SlotA }

  // ----- what CommitPair writes, from the pair as read

  function Ordered(pair: Pair, slot: Slot, commit: PairCommit): (PairCommit, PairCommit)
    requires Commit(pair, OtherSlot(slot)).Some?
  {
    var other := Commit(pair, OtherSlot(slot)).value;
    if slot == SlotA then (commit, other) else (other, commit)
  }

  function Entry(pairId: Id, first: PairCommit, second: PairCommit, sourceKey: Id, now: int): Activation {
    Activation(pairId, first.linkId, first, second, sourceKey, now)
  }

  function HalfWrites(pair: Pair, slot: Slot, commit: PairCommit, now: int): seq<Write> {
    [FillSlot(pair.pairId, slot, commit, PairReady, PairHalf, now)]
  }

  function FullWrites(pair: Pair, slot: Slot, commit: PairCommit, link: Link, sourceKey: Id, activationLimit: int,
                      now: int): seq<Write>
    requires Commit(pair, OtherSlot(slot)).Some?
  {
    var (first, second) := Ordered(pair, slot, commit);
    [FillSlot(pair.pairId, slot, commit, PairHalf, PairActive, now),
     PutLink(link, Entry(pair.pairId, first, second, sourceKey, now)),
     UpsertEndpoint(NewEndpoint(first.self, now)),
     UpsertEndpoint(NewEndpoint(second.self, now)),
     BumpRate(HourKey(sourceKey, now), activationLimit, RateExpiry(HourKey(sourceKey, now))),
     BumpRate(DayKey(now), ACTIVATIONS_PER_DAY, RateExpiry(DayKey(now)))]
  }

  // ----- the atomic step

  function Upserted(endpoints: map<Id, Endpoint>, e: Endpoint): map<Id, Endpoint> {
    if e.endpointId in endpoints then endpoints else endpoints[e.endpointId := e]
  }

  function Bumped(rates: map<RateKey, Rate>, key: RateKey): map<RateKey, Rate> {
    rates[key := Rate(1 + (if key in rates then rates[key].count else 0), RateExpiry(key))]
  }

  /** Both commits of the pair as stored, once `commit` fills its slot. */
  function SpecActivate(db: Db, pairId: Id, slot: Slot, commit: PairCommit, sourceKey: Id, now: int): Db
    requires pairId in db.pairs && Commit(db.pairs[pairId], OtherSlot(slot)).Some?
    requires var (first, second) := Ordered(db.pairs[pairId], slot, commit); ReciprocalCommits(first, second)
  {
    var (first, second) := Ordered(db.pairs[pairId], slot, commit);
    var link := LinkFromCommits(first, second, now).value;
    db.(pairs := db.pairs[pairId := Filled(db.pairs[pairId], slot, commit, PairActive)],
        links := db.links[link.linkId := link],
        endpoints := Upserted(Upserted(db.endpoints, NewEndpoint(first.self, now)), NewEndpoint(second.self, now)),
        activations := db.activations + [Entry(pairId, first, second, sourceKey, now)],
        rates := Bumped(Bumped(db.rates, HourKey(sourceKey, now)), DayKey(now)))
  }

  // ----- the log and the quota

  ghost predicate ActivationOk(db: Db, a: Activation) {
    && ReciprocalCommits(a.first, a.second)
    && a.first.linkId == a.linkId
    && a.linkId in db.links
    && (var made := LinkFromCommits(a.first, a.second, a.at).value;
        var link := db.links[a.linkId];
        link.controllerId == made.controllerId && link.companionId == made.companionId && link.createdAt == a.at)
    && a.first.connectionId != a.second.connectionId
    && a.pairId in db.seenPairs
    && (a.pairId in db.pairs && !IsStub(db.pairs[a.pairId]) ==>
          var p := db.pairs[a.pairId];
          p.status == PairActive && p.commitA == Some(a.first) && p.commitB == Some(a.second))
    && 0 < a.at <= db.now
  }

  function LogLinks(log: seq<Activation>): set<Id> { set i | 0 <= i < |log| :: log[i].linkId }

  function LogPairs(log: seq<Activation>): set<Id> { set i | 0 <= i < |log| :: log[i].pairId }

  ghost predicate LogInv(db: Db) {
    && (forall i :: 0 <= i < |db.activations| ==> ActivationOk(db, db.activations[i]))
    && (forall i, j :: 0 <= i < j < |db.activations| ==>
          db.activations[i].linkId != db.activations[j].linkId && db.activations[i].pairId != db.activations[j].pairId)
    && db.links.Keys == LogLinks(db.activations)
    && (forall id :: id in db.pairs && db.pairs[id].status == PairActive ==> id in LogPairs(db.activations))
  }

  predicate Charges(a: Activation, key: RateKey) {
    key == HourKey(a.sourceKey, a.at) || key == DayKey(a.at)
  }

  /** How many activations count against a rate record. */
  function Tally(log: seq<Activation>, key: RateKey): nat {
    if log == [] then 0
    else Tally(log[..|log| - 1], key) + (if Charges(log[|log| - 1], key) then 1 else 0)
  }

  ghost predicate QuotaOk(db: Db, key: RateKey) {
    key.action == PairActivate ==>
      && Tally(db.activations, key) <= Limit(db, key)
      && (if key in db.rates
          then db.rates[key] == Rate(Tally(db.activations, key), RateExpiry(key))
          else Tally(db.activations, key) == 0 || RateExpiry(key) <= db.now)
  }

  ghost predicate QuotaInv(db: Db) {
    && 1 <= db.activationLimit <= ACTIVATIONS_PER_DAY
    && (forall key :: QuotaOk(db, key))
  }

  // ----- what the step keeps

  /** The conditions of the activating transaction, on the table at its commit. */
  ghost predicate CanActivate(db: Db, pairId: Id, slot: Slot, commit: PairCommit, sourceKey: Id, now: int) {
    && pairId in db.pairs
    && db.pairs[pairId].status == PairHalf
    && OwnSlot(db.pairs[pairId], slot, commit)
    && Commit(db.pairs[pairId], slot).None?
    && Commit(db.pairs[pairId], OtherSlot(slot)).Some?
    && (var (first, second) := Ordered(db.pairs[pairId], slot, commit);
        && ReciprocalCommits(first, second)
        && first.linkId != ABSENT && first.self.endpointId != ABSENT && second.self.endpointId != ABSENT
        && first.linkId !in db.links
        && Accepts(db, first.self) && Accepts(db, second.self))
    && Count(db, HourKey(sourceKey, now)) < db.activationLimit
    && Count(db, DayKey(now)) < ACTIVATIONS_PER_DAY
    && 0 < now <= db.now < now + INVOCATION_SECONDS
  }

  ghost predicate Accepts(db: Db, c: PairEndpointCommit) {
    c.endpointId in db.endpoints ==>
      && db.endpoints[c.endpointId].credentialHash == c.credentialHash
      && db.endpoints[c.endpointId].role == c.role
      && db.endpoints[c.endpointId].revokedAt == 0
  }

  /** Activation leaves both endpoints usable under the committed credential and role, old or new. */
  lemma ActivationEndpoints(db: Db, pairId: Id, slot: Slot, commit: PairCommit, sourceKey: Id, now: int)
    requires CanActivate(db, pairId, slot, commit, sourceKey, now)
    ensures var after := SpecActivate(db, pairId, slot, commit, sourceKey, now);
            var (first, second) := Ordered(db.pairs[pairId], slot, commit);
            forall c :: c == first.self || c == second.self ==>
              && c.endpointId in after.endpoints
              && after.endpoints[c.endpointId].credentialHash == c.credentialHash
              && after.endpoints[c.endpointId].role == c.role
              && after.endpoints[c.endpointId].revokedAt == 0
  {
  }

  lemma ActivationKeepsEnds(db: Db, pairId: Id, slot: Slot, commit: PairCommit, sourceKey: Id, now: int)
    requires RouteInv(db) && CanActivate(db, pairId, slot, commit, sourceKey, now)
    ensures var after := SpecActivate(db, pairId, slot, commit, sourceKey, now);
            && (forall id :: id in after.endpoints ==> EndpointOk(after, id) && EndpointEvolves(db, after, id))
            && (forall id :: id in after.links ==> LinkOk(after, id) && LinkEvolves(db, after, id))
  {
    var after := SpecActivate(db, pairId, slot, commit, sourceKey, now);
    var (first, second) := Ordered(db.pairs[pairId], slot, commit);
    hide Bumped, Filled;
    ActivationEndpoints(db, pairId, slot, commit, sourceKey, now);
    LinkJoinsBothCommits(first, second, now);
    forall id | id in after.endpoints ensures EndpointOk(after, id) && EndpointEvolves(db, after, id) {
      if id in db.endpoints { assert EndpointOk(db, id); }
    }
    forall id | id in after.links ensures LinkOk(after, id) && LinkEvolves(db, after, id) {
      if id in db.links { assert LinkOk(db, id); }
    }
  }

  /** Sessions, connections, and the links and endpoints that there were, are left alone. */
  ghost predicate OnlyAdds(db: Db, after: Db) {
    && after == db.(pairs := after.pairs, links := after.links, endpoints := after.endpoints,
                    activations := after.activations, rates := after.rates)
    && (forall id :: id in db.links ==> id in after.links && after.links[id] == db.links[id])
    && (forall id :: id in db.endpoints ==> id in after.endpoints && after.endpoints[id] == db.endpoints[id])
  }

  lemma ActivationLeaves(db: Db, pairId: Id, slot: Slot, commit: PairCommit, sourceKey: Id, now: int)
    requires CanActivate(db, pairId, slot, commit, sourceKey, now)
    ensures OnlyAdds(db, SpecActivate(db, pairId, slot, commit, sourceKey, now))
  {
    hide Bumped, Filled, ReciprocalCommits, Accepts;
  }

  lemma AddingKeepsRoute(db: Db, after: Db)
    requires RouteInv(db) && OnlyAdds(db, after)
    requires forall id :: id in after.endpoints ==> EndpointOk(after, id) && EndpointEvolves(db, after, id)
    requires forall id :: id in after.links ==> LinkOk(after, id) && LinkEvolves(db, after, id)
    ensures RouteInv(after) && RouteEvolves(db, after)
  {
    hide EndpointOk, EndpointEvolves, LinkOk, LinkEvolves;
    forall id | id in after.sessions ensures SessionOk(after, id) && SessionEvolves(db, after, id) {
      assert SessionOk(db, id);
    }
    forall id | id in after.connections ensures ConnectionOk(after, id) && ConnectionEvolves(db, after, id) {
      assert ConnectionOk(db, id);
    }
  }

  lemma SpecActivateKeepsRoute(db: Db, pairId: Id, slot: Slot, commit: PairCommit, sourceKey: Id, now: int)
    requires RouteInv(db) && CanActivate(db, pairId, slot, commit, sourceKey, now)
    ensures var after := SpecActivate(db, pairId, slot, commit, sourceKey, now);
            RouteInv(after) && RouteEvolves(db, after)
  {
    ActivationKeepsEnds(db, pairId, slot, commit, sourceKey, now);
    ActivationLeaves(db, pairId, slot, commit, sourceKey, now);
    hide RouteInv, RouteEvolves, EndpointOk, EndpointEvolves, LinkOk, LinkEvolves, SpecActivate, OnlyAdds, Accepts;
    AddingKeepsRoute(db, SpecActivate(db, pairId, slot, commit, sourceKey, now));
  }

  lemma SpecActivateKeepsPairs(db: Db, pairId: Id, slot: Slot, commit: PairCommit, sourceKey: Id, now: int)
    requires PairInv(db) && CanActivate(db, pairId, slot, commit, sourceKey, now)
    ensures var after := SpecActivate(db, pairId, slot, commit, sourceKey, now);
            PairInv(after) && PairEvolves(db, after)
  {
    assert PairOk(db, pairId);
    FillingKeeps(db, SpecActivate(db, pairId, slot, commit, sourceKey, now), pairId, slot, commit, PairActive);
  }

  lemma TallyAppend(log: seq<Activation>, a: Activation, key: RateKey)
    ensures Tally(log + [a], key) == Tally(log, key) + (if Charges(a, key) then 1 else 0)
  {
    assert (log + [a])[..|log|] == log;
  }

  /** One more activation is logged, and charged to its two records, neither of them used up. */
  ghost predicate Charged(db: Db, after: Db, a: Activation) {
    && after.activations == db.activations + [a] && after.activationLimit == db.activationLimit
    && after.rates == Bumped(Bumped(db.rates, HourKey(a.sourceKey, a.at)), DayKey(a.at))
    && Count(db, HourKey(a.sourceKey, a.at)) < db.activationLimit && Count(db, DayKey(a.at)) < ACTIVATIONS_PER_DAY
    && 0 < a.at <= db.now == after.now && db.now < a.at + INVOCATION_SECONDS
  }

  lemma ChargingKeeps(db: Db, after: Db, a: Activation, key: RateKey)
    requires QuotaOk(db, key) && Charged(db, after, a)
    ensures QuotaOk(after, key)
  {
    TallyAppend(db.activations, a, key);
    if Charges(a, key) { ChargedRecordLives(db, key, a.at); }
    hide Tally, Window, RateExpiry;
  }

  lemma SpecActivateKeepsQuota(db: Db, pairId: Id, slot: Slot, commit: PairCommit, sourceKey: Id, now: int)
    requires QuotaInv(db) && CanActivate(db, pairId, slot, commit, sourceKey, now)
    ensures QuotaInv(SpecActivate(db, pairId, slot, commit, sourceKey, now))
  {
    hide QuotaOk, Bumped, Filled, Upserted, Accepts, ReciprocalCommits;
    var after := SpecActivate(db, pairId, slot, commit, sourceKey, now);
    var (first, second) := Ordered(db.pairs[pairId], slot, commit);
    forall key ensures QuotaOk(after, key) {
      assert QuotaOk(db, key);
      ChargingKeeps(db, after, Entry(pairId, first, second, sourceKey, now), key);
    }
  }

  /** A clock reading at most ten seconds old is charged to a record that cannot have expired yet. */
  lemma ChargedRecordLives(db: Db, key: RateKey, now: int)
    requires 0 < now <= db.now < now + INVOCATION_SECONDS
    requires key.bucket == now / Window(key)
    ensures db.now < RateExpiry(key)
  {
  }

  lemma LogAppend(log: seq<Activation>, a: Activation)
    ensures LogLinks(log + [a]) == LogLinks(log) + {a.linkId}
    ensures LogPairs(log + [a]) == LogPairs(log) + {a.pairId}
  {
    var longer := log + [a];
    assert longer[|log|] == a;
    assert forall i :: 0 <= i < |log| ==> longer[i] == log[i];
    forall id | id in LogLinks(log) + {a.linkId} ensures id in LogLinks(longer) {
      if id in LogLinks(log) { var i :| 0 <= i < |log| && log[i].linkId == id; assert longer[i].linkId == id; }
    }
    forall id | id in LogPairs(log) + {a.pairId} ensures id in LogPairs(longer) {
      if id in LogPairs(log) { var i :| 0 <= i < |log| && log[i].pairId == id; assert longer[i].pairId == id; }
    }
  }

  /** An activation already logged stays right: its link never changes ends, its pair never changes. */
  lemma ActivationStays(db: Db, after: Db, a: Activation)
    requires ActivationOk(db, a) && PairInv(db)
    requires RouteEvolves(db, after) && PairEvolves(db, after)
    ensures ActivationOk(after, a)
  {
    assert LinkEvolves(db, after, a.linkId);
    if a.pairId in after.pairs { assert PairEvolvesAt(db, after, a.pairId); }
  }

  lemma LogStays(db: Db, after: Db)
    requires LogInv(db) && PairInv(db) && RouteEvolves(db, after) && PairEvolves(db, after)
    requires after.activations == db.activations && after.links.Keys == db.links.Keys
    requires forall id :: id in after.pairs && after.pairs[id].status == PairActive ==>
               id in db.pairs && db.pairs[id].status == PairActive
    ensures LogInv(after)
  {
    forall i | 0 <= i < |after.activations| ensures ActivationOk(after, after.activations[i]) {
      ActivationStays(db, after, db.activations[i]);
    }
  }

  lemma NewEntryOk(db: Db, pairId: Id, slot: Slot, commit: PairCommit, sourceKey: Id, now: int)
    requires PairOkIfStored(db, pairId)
    requires CanActivate(db, pairId, slot, commit, sourceKey, now)
    ensures var after := SpecActivate(db, pairId, slot, commit, sourceKey, now);
            var (first, second) := Ordered(db.pairs[pairId], slot, commit);
            && ActivationOk(after, Entry(pairId, first, second, sourceKey, now))
            && after.links.Keys == db.links.Keys + {first.linkId}
            && (forall id :: id in after.pairs && after.pairs[id].status == PairActive ==>
                  id == pairId || (id in db.pairs && db.pairs[id].status == PairActive))
  {
    hide Upserted, Bumped;
  }

  ghost predicate PairOkIfStored(db: Db, pairId: Id) { pairId in db.pairs ==> PairOk(db, pairId) }

  lemma SpecActivateKeepsLog(db: Db, pairId: Id, slot: Slot, commit: PairCommit, sourceKey: Id, now: int)
    requires RouteInv(db) && PairInv(db) && LogInv(db)
    requires CanActivate(db, pairId, slot, commit, sourceKey, now)
    ensures LogInv(SpecActivate(db, pairId, slot, commit, sourceKey, now))
  {
    var after := SpecActivate(db, pairId, slot, commit, sourceKey, now);
    var (first, second) := Ordered(db.pairs[pairId], slot, commit);
    var entry := Entry(pairId, first, second, sourceKey, now);
    NewEntryOk(db, pairId, slot, commit, sourceKey, now);
    SpecActivateKeepsRoute(db, pairId, slot, commit, sourceKey, now);
    SpecActivateKeepsPairs(db, pairId, slot, commit, sourceKey, now);
    assert after.activations == db.activations + [entry];
    hide RouteInv, RouteEvolves, PairInv, PairEvolves, CanActivate, SpecActivate, ActivationOk, LogLinks, LogPairs;
    forall i | 0 <= i < |db.activations|
      ensures ActivationOk(after, db.activations[i])
      ensures db.activations[i].linkId != entry.linkId && db.activations[i].pairId != entry.pairId
    {
      OldEntryDiffers(db, pairId, slot, commit, sourceKey, now, db.activations[i]);
    }
    LogGrows(db, after, entry);
  }

  lemma LogGrows(db: Db, after: Db, entry: Activation)
    requires LogInv(db) && after.activations == db.activations + [entry] && ActivationOk(after, entry)
    requires forall i :: 0 <= i < |db.activations| ==>
               && ActivationOk(after, db.activations[i])
               && db.activations[i].linkId != entry.linkId && db.activations[i].pairId != entry.pairId
    requires after.links.Keys == db.links.Keys + {entry.linkId}
    requires forall id :: id in after.pairs && after.pairs[id].status == PairActive ==>
               id == entry.pairId || (id in db.pairs && db.pairs[id].status == PairActive)
    ensures LogInv(after)
  {
    hide ActivationOk, LogLinks, LogPairs;
    LogAppend(db.activations, entry);
  }

  lemma OldEntryDiffers(db: Db, pairId: Id, slot: Slot, commit: PairCommit, sourceKey: Id, now: int, a: Activation)
    requires ActivationOk(db, a) && PairInv(db)
    requires CanActivate(db, pairId, slot, commit, sourceKey, now)
    requires RouteEvolves(db, SpecActivate(db, pairId, slot, commit, sourceKey, now))
    requires PairEvolves(db, SpecActivate(db, pairId, slot, commit, sourceKey, now))
    ensures ActivationOk(SpecActivate(db, pairId, slot, commit, sourceKey, now), a)
    ensures a.pairId != pairId
    ensures var (first, second) := Ordered(db.pairs[pairId], slot, commit); a.linkId != first.linkId
  {
    hide RouteEvolves, PairEvolves, PairInv, SpecActivate;
    ActivationStays(db, SpecActivate(db, pairId, slot, commit, sourceKey, now), a);
  }

  /** A step that leaves the log alone, and the activation rates but for records whose time is up. */
  lemma QuotaStays(db: Db, after: Db)
    requires QuotaInv(db)
    requires after.activations == db.activations && after.activationLimit == db.activationLimit && db.now <= after.now
    requires forall key :: key in after.rates && key.action == PairActivate ==>
               key in db.rates && after.rates[key] == db.rates[key]
    requires forall key :: key in db.rates && key !in after.rates ==> db.rates[key].expiresAt <= after.now
    ensures QuotaInv(after)
  {
    forall key ensures QuotaOk(after, key) {
      assert QuotaOk(db, key);
    }
  }

  // ----- the writes are the atomic step

  lemma SlotWriteApplies(db: Db, pairId: Id, slot: Slot, commit: PairCommit, from: PairStatus, to: PairStatus, now: int)
    requires Holds(FillSlot(pairId, slot, commit, from, to, now), db)
    ensures Effect(db, FillSlot(pairId, slot, commit, from, to, now))
            == db.(pairs := db.pairs[pairId := Filled(db.pairs[pairId], slot, commit, to)])
  {
  }

  /** What a pair read earlier and still waiting for `commit` says of the stored pair: the same members,
      the same deadline, and the same other commit. */
  lemma StalePairAgrees(atPair: Db, db: Db, pairId: Id, slot: Slot)
    requires PairInv(atPair) && PairEvolves(atPair, db)
    requires pairId in atPair.pairs && atPair.pairs[pairId].pairId == pairId && pairId != ABSENT
    requires Commit(atPair.pairs[pairId], slot).None?
    requires pairId in db.pairs && Commit(db.pairs[pairId], slot).None?
    requires db.pairs[pairId].status == PairReady || db.pairs[pairId].status == PairHalf
    requires atPair.pairs[pairId].status == PairReady || atPair.pairs[pairId].status == PairHalf
    requires Commit(atPair.pairs[pairId], OtherSlot(slot)).Some? <==> db.pairs[pairId].status == PairHalf
    requires Shape(db.pairs[pairId])
    ensures atPair.pairs[pairId] == db.pairs[pairId]
  {
    assert PairOk(atPair, pairId);
    assert PairEvolvesAt(atPair, db, pairId);
  }

  lemma HalfRefines(atPair: Db, db: Db, pairId: Id, slot: Slot, commit: PairCommit, now: int)
    requires PairInv(atPair) && PairInv(db) && PairEvolves(atPair, db)
    requires pairId in atPair.pairs && atPair.pairs[pairId].pairId == pairId && pairId != ABSENT
    requires var p := atPair.pairs[pairId];
             && OwnSlot(p, slot, commit) && Commit(p, slot).None? && Commit(p, OtherSlot(slot)).None?
             && (p.status == PairReady || p.status == PairHalf)
    requires AllHold(HalfWrites(atPair.pairs[pairId], slot, commit, now), db)
    ensures pairId in db.pairs && db.pairs[pairId].status == PairReady && OwnSlot(db.pairs[pairId], slot, commit)
    ensures Apply(db, HalfWrites(atPair.pairs[pairId], slot, commit, now)) == SpecHalf(db, pairId, slot, commit)
    ensures SpecHalf(db, pairId, slot, commit).pairs[pairId] == Filled(atPair.pairs[pairId], slot, commit, PairHalf)
  {
    var w := FillSlot(pairId, slot, commit, PairReady, PairHalf, now);
    assert HalfWrites(atPair.pairs[pairId], slot, commit, now) == [w] && w in [w];
    assert PairOk(db, pairId);
    StalePairAgrees(atPair, db, pairId, slot);
    SlotWriteApplies(db, pairId, slot, commit, PairReady, PairHalf, now);
    ApplyOpt(db, true, w, []);
  }

  lemma UpsertEffect(d: Db, e: Endpoint)
    ensures Effect(d, UpsertEndpoint(e)) == d.(endpoints := Upserted(d.endpoints, e))
  {
    assert e.endpointId in d.endpoints ==> d.endpoints[e.endpointId := d.endpoints[e.endpointId]] == d.endpoints;
  }

  lemma BumpEffect(d: Db, key: RateKey, limit: int)
    ensures Effect(d, BumpRate(key, limit, RateExpiry(key))) == d.(rates := Bumped(d.rates, key))
  {
  }

  lemma FullApplies(db: Db, pairId: Id, slot: Slot, commit: PairCommit, sourceKey: Id, now: int)
    requires pairId in db.pairs && db.pairs[pairId].pairId == pairId
    requires Commit(db.pairs[pairId], OtherSlot(slot)).Some?
    requires var (first, second) := Ordered(db.pairs[pairId], slot, commit); ReciprocalCommits(first, second)
    requires Holds(FillSlot(pairId, slot, commit, PairHalf, PairActive, now), db)
    ensures var (first, second) := Ordered(db.pairs[pairId], slot, commit);
            Apply(db, FullWrites(db.pairs[pairId], slot, commit, LinkFromCommits(first, second, now).value,
                                 sourceKey, db.activationLimit, now))
            == SpecActivate(db, pairId, slot, commit, sourceKey, now)
    ensures SpecActivate(db, pairId, slot, commit, sourceKey, now).pairs[pairId]
            == Filled(db.pairs[pairId], slot, commit, PairActive)
  {
    var (first, second) := Ordered(db.pairs[pairId], slot, commit);
    var link := LinkFromCommits(first, second, now).value;
    var hour, day := HourKey(sourceKey, now), DayKey(now);
    var ws := FullWrites(db.pairs[pairId], slot, commit, link, sourceKey, db.activationLimit, now);
    SlotWriteApplies(db, pairId, slot, commit, PairHalf, PairActive, now);
    var d1 := db.(pairs := db.pairs[pairId := Filled(db.pairs[pairId], slot, commit, PairActive)]);
    var d2 := WithLink(d1, link.linkId, link).(activations :=
                                               d1.activations + [Entry(pairId, first, second, sourceKey, now)]);
    assert Effect(d1, ws[1]) == d2;
    var d3 := d2.(endpoints := Upserted(d2.endpoints, NewEndpoint(first.self, now)));
    var d4 := d3.(endpoints := Upserted(d3.endpoints, NewEndpoint(second.self, now)));
    var d5 := d4.(rates := Bumped(d4.rates, hour));
    UpsertEffect(d2, NewEndpoint(first.self, now));
    UpsertEffect(d3, NewEndpoint(second.self, now));
    BumpEffect(d4, hour, db.activationLimit);
    BumpEffect(d5, day, ACTIVATIONS_PER_DAY);
    assert d5.(rates := Bumped(d5.rates, day)) == SpecActivate(db, pairId, slot, commit, sourceKey, now);
    hide Effect, SpecActivate, Upserted, Bumped, Filled;
    ApplySix(db, ws);
  }

  lemma ApplySix(db: Db, ws: seq<Write>)
    requires |ws| == 6
    ensures Apply(db, ws)
            == Effect(Effect(Effect(Effect(Effect(Effect(db, ws[0]), ws[1]), ws[2]), ws[3]), ws[4]), ws[5])
  {
    hide Effect;
    var d3 := Effect(Effect(Effect(db, ws[0]), ws[1]), ws[2]);
    assert Apply(db, ws) == Apply(d3, ws[3..]) by {
      assert ws[1..][1..] == ws[2..] && ws[2..][1..] == ws[3..];
      assert Apply(Effect(db, ws[0]), ws[1..]) == Apply(Effect(Effect(db, ws[0]), ws[1]), ws[2..]);
    }
    assert ws[3..][1..] == ws[4..] && ws[4..][1..] == ws[5..] && ws[5..][1..] == [];
    assert Apply(d3, ws[3..]) == Apply(Effect(d3, ws[3]), ws[4..]);
    assert Apply(Effect(Effect(d3, ws[3]), ws[4]), ws[5..])
           == Apply(Effect(Effect(Effect(d3, ws[3]), ws[4]), ws[5]), []);
  }

  /** The conditions of the activating writes, one by one. */
  lemma FullConditions(db: Db, pair: Pair, slot: Slot, commit: PairCommit, link: Link, sourceKey: Id, now: int)
    requires Commit(pair, OtherSlot(slot)).Some?
    requires AllHold(FullWrites(pair, slot, commit, link, sourceKey, db.activationLimit, now), db)
    requires 1 <= db.activationLimit
    ensures Holds(FillSlot(pair.pairId, slot, commit, PairHalf, PairActive, now), db)
    ensures var (first, second) := Ordered(pair, slot, commit);
            Accepts(db, first.self) && Accepts(db, second.self)
    ensures link.linkId !in db.links
    ensures Count(db, HourKey(sourceKey, now)) < db.activationLimit && Count(db, DayKey(now)) < ACTIVATIONS_PER_DAY
  {
    hide AllHold, RateExpiry, HourKey, DayKey, LinkFromCommits;
    var ws := FullWrites(pair, slot, commit, link, sourceKey, db.activationLimit, now);
    HoldsEach(ws, db);
    assert Holds(ws[0], db) && Holds(ws[1], db) && Holds(ws[2], db) && Holds(ws[3], db) && Holds(ws[4], db)
           && Holds(ws[5], db);
  }

  lemma HoldsEach(ws: seq<Write>, db: Db)
    requires AllHold(ws, db)
    ensures forall i :: 0 <= i < |ws| ==> Holds(ws[i], db)
  {
    assert forall i :: 0 <= i < |ws| ==> ws[i] in ws;
  }

  /** The pair that the full commit finds is the pair that it read. */
  lemma FullAgrees(atPair: Db, db: Db, pairId: Id, slot: Slot, commit: PairCommit, now: int)
    requires PairInv(atPair) && PairInv(db) && PairEvolves(atPair, db)
    requires pairId in atPair.pairs && atPair.pairs[pairId].pairId == pairId && pairId != ABSENT
    requires var p := atPair.pairs[pairId];
             && Commit(p, slot).None? && Commit(p, OtherSlot(slot)).Some?
             && (p.status == PairReady || p.status == PairHalf)
    requires Holds(FillSlot(pairId, slot, commit, PairHalf, PairActive, now), db)
    ensures pairId in db.pairs && db.pairs[pairId] == atPair.pairs[pairId] && db.pairs[pairId].status == PairHalf
    ensures now < db.pairs[pairId].expiresAt
  {
    assert pairId in db.pairs ==> PairOk(db, pairId);
    hide PairInv, PairEvolves;
    StalePairAgrees(atPair, db, pairId, slot);
  }

  lemma FullRefines(atPair: Db, db: Db, pairId: Id, slot: Slot, commit: PairCommit, sourceKey: Id, now: int)
    requires PairInv(atPair) && PairInv(db) && PairEvolves(atPair, db)
    requires pairId in atPair.pairs && atPair.pairs[pairId].pairId == pairId && pairId != ABSENT
    requires var p := atPair.pairs[pairId];
             && OwnSlot(p, slot, commit) && Commit(p, slot).None? && Commit(p, OtherSlot(slot)).Some?
             && (p.status == PairReady || p.status == PairHalf)
    requires var (first, second) := Ordered(atPair.pairs[pairId], slot, commit);
             && LinkFromCommits(first, second, now).Ok?
             && commit.linkId != ABSENT && commit.self.endpointId != ABSENT && commit.peer.endpointId != ABSENT
             && AllHold(FullWrites(atPair.pairs[pairId], slot, commit, LinkFromCommits(first, second, now).value,
                                   sourceKey, db.activationLimit, now), db)
    requires 0 < now <= db.now < now + INVOCATION_SECONDS && 1 <= db.activationLimit
    ensures CanActivate(db, pairId, slot, commit, sourceKey, now) && now < db.pairs[pairId].expiresAt
    ensures var (first, second) := Ordered(atPair.pairs[pairId], slot, commit);
            Apply(db, FullWrites(atPair.pairs[pairId], slot, commit, LinkFromCommits(first, second, now).value,
                                 sourceKey, db.activationLimit, now))
            == SpecActivate(db, pairId, slot, commit, sourceKey, now)
    ensures SpecActivate(db, pairId, slot, commit, sourceKey, now).pairs[pairId]
            == Filled(atPair.pairs[pairId], slot, commit, PairActive)
  {
    var (first, second) := Ordered(atPair.pairs[pairId], slot, commit);
    var link := LinkFromCommits(first, second, now).value;
    hide PairInv, PairEvolves, AllHold, FullWrites, Apply, SpecActivate, Holds, Accepts;
    FullConditions(db, atPair.pairs[pairId], slot, commit, link, sourceKey, now);
    FullAgrees(atPair, db, pairId, slot, commit, now);
    FullApplies(db, pairId, slot, commit, sourceKey, now);
  }
}
