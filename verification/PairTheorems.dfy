/** What every run of the relay keeps about pairs, the links they make and the quota they are charged to. */
module PairTheorems {
  import opened Records
  import opened Table
  import opened Routing
  import opened Pairing
  import opened ActivationStep
  import opened Runs
  import opened Steps
  import opened Frames
  import opened RouteTheorems

  // ----- the life of a pair

  /** The commits of a pair, by status. */
  ghost predicate CommitShape(p: Pair) {
    && (p.status == PairOpen || p.status == PairReady ==> p.commitA.None? && p.commitB.None?)
    && (p.status == PairHalf ==> (p.commitA.Some? <==> p.commitB.None?))
    && (p.status == PairActive ==>
          && p.commitA.Some? && p.commitB.Some?
          && ReciprocalCommits(p.commitA.value, p.commitB.value)
          && p.commitA.value.connectionId != p.commitB.value.connectionId)
    && (p.status == PairClosed ==> p.commitA.None? || p.commitB.None?)
  }

  ghost predicate Stored(db: Db, id: Id) { id in db.pairs && !IsStub(db.pairs[id]) }

  /** The pair has the commits its status calls for; a later table holds it further on or not at all, and
      unchanged once it is ACTIVE or CLOSED. */
  ghost predicate GoesOn(a: Db, b: Db, id: Id) {
    && Stored(a, id) && CommitShape(a.pairs[id])
    && (Stored(b, id) ==> PairEvolves1(a.pairs[id], b.pairs[id]))
    && (InStatus(b, id, PairActive) ==> Stored(b, id))
  }

  lemma PairGoesOn(a: Db, b: Db, id: Id)
    requires PairInv(a) && PairEvolves(a, b) && Stored(a, id)
    ensures GoesOn(a, b, id)
  {
    assert PairOk(a, id);
    if Stored(b, id) { assert PairEvolvesAt(a, b, id); }
  }

  lemma PairLifecycle(h: seq<Db>, events: seq<Event>, i: nat, j: nat, id: Id)
    requires ValidRun(h, events) && i <= j < |h| && Stored(At(h, i), id)
    ensures GoesOn(At(h, i), At(h, j), id)
  {
    hide ValidRun, RouteInv, RouteEvolves, PairInv, PairEvolves, LogInv, QuotaInv, Stored, GoesOn;
    TablesEvolve(h, events, i, j);
    PairGoesOn(At(h, i), At(h, j), id);
  }

  /** A connection that is spoken for: whatever pair it is a member of is `pairId`. */
  ghost predicate SpokenFor(db: Db, connectionId: Id, pairId: Id) {
    && connectionId in db.seenConnections && connectionId != ABSENT
    && (connectionId in db.connections ==> !Assignable(db, connectionId))
    && (forall id :: HasMember(db, id, connectionId) ==> id == pairId)
  }

  lemma SpokenForStays(db: Db, e: Event, next: Db, connectionId: Id, pairId: Id)
    requires Step(db, e, next) && SpokenFor(db, connectionId, pairId)
    ensures SpokenFor(next, connectionId, pairId)
  {
    hide Inv, Moves, PairInv, LogInv, QuotaInv, RouteInv, PairEvolves, Places, Unplaces, PlacesStay, Joined;
    StepsFrame(db, e, next);
    if connectionId in next.connections { assert ConnectionEvolves(db, next, connectionId); }
    hide RouteEvolves;
    forall id | HasMember(next, id, connectionId)
      ensures HasMember(db, id, connectionId) || Assignable(db, connectionId) {}
  }

  ghost predicate SidesDiffer(db: Db, id: Id) {
    id in db.pairs && db.pairs[id].sideB.Some? ==>
      db.pairs[id].sideA.connectionId != db.pairs[id].sideB.value.connectionId
  }

  lemma MemberIsSpokenFor(db: Db, id: Id, connectionId: Id)
    requires PairInv(db) && HasMember(db, id, connectionId)
    ensures SpokenFor(db, connectionId, id) && SidesDiffer(db, id)
  {
    assert PairOk(db, id) && MemberOk(db, id, connectionId);
    assert forall q :: q in db.pairs ==> OneMembership(db, id, q, connectionId);
    hide PairInv;
  }

  /** Over a whole run, each connection is a member of at most one pair, on one of its sides. */
  lemma OneMembershipForever(h: seq<Db>, events: seq<Event>, i: nat, j: nat, id: Id, other: Id, connectionId: Id)
    requires ValidRun(h, events) && i <= j < |h|
    requires HasMember(At(h, i), id, connectionId) && HasMember(At(h, j), other, connectionId)
    ensures id == other && SidesDiffer(At(h, i), id)
  {
    hide ValidRun, RouteInv, PairInv, LogInv, QuotaInv, HasMember, SidesDiffer;
    TableIsSound(h, events, i);
    MemberIsSpokenFor(At(h, i), id, connectionId);
    SpokenForUntil(h, events, i, j, connectionId, id);
  }

  lemma {:induction false} SpokenForUntil(h: seq<Db>, events: seq<Event>, i: nat, j: nat, connectionId: Id, pairId: Id)
    requires ValidRun(h, events) && i <= j < |h| && SpokenFor(At(h, i), connectionId, pairId)
    ensures SpokenFor(At(h, j), connectionId, pairId)
    decreases j
  {
    hide *;
    if i < j {
      RunSize(h, events);
      SpokenForUntil(h, events, i, j - 1, connectionId, pairId);
      RunSteps(h, events, j - 1);
      SpokenForStays(At(h, j - 1), StepAt(events, j - 1), At(h, j), connectionId, pairId);
    }
  }

  /** The pair that a connection was assigned to, for as long as it is stored, has it as a member. */
  ghost predicate Belongs(db: Db, connectionId: Id, pairId: Id) {
    && pairId in db.seenPairs
    && (Stored(db, pairId) ==> IsMember(db.pairs[pairId], connectionId))
  }

  predicate AssignedTo(db: Db, connectionId: Id, pairId: Id) {
    && connectionId in db.connections && connectionId != ABSENT
    && db.connections[connectionId].pairingId == pairId && pairId != ABSENT
  }

  lemma BelongingStays(a: Db, b: Db, connectionId: Id, pairId: Id)
    requires PairInv(a) && PairInv(b) && PairEvolves(a, b) && Belongs(a, connectionId, pairId)
    ensures Belongs(b, connectionId, pairId)
  {
    if pairId in a.pairs { assert PairOk(a, pairId); }
    if Stored(b, pairId) { assert PairOk(b, pairId) && PairEvolvesAt(a, b, pairId); }
  }

  /** A connection that is assigned was so before, or becomes a member of its pair in this step. */
  lemma AssigningIsJoining(db: Db, e: Event, next: Db, connectionId: Id, pairId: Id)
    requires Step(db, e, next) && AssignedTo(next, connectionId, pairId)
    ensures AssignedTo(db, connectionId, pairId) || Belongs(next, connectionId, pairId)
  {
    hide Inv, Keeps, Moves, IsMember, Assignable;
    StepsFrame(db, e, next);
  }

  /** Whatever pair a stored connection is assigned to has it as a member, or is no longer stored. */
  lemma {:induction false} AssignedBelongs(h: seq<Db>, events: seq<Event>, i: nat, connectionId: Id, pairId: Id)
    requires ValidRun(h, events) && i < |h| && AssignedTo(At(h, i), connectionId, pairId)
    ensures Belongs(At(h, i), connectionId, pairId)
    decreases i
  {
    hide Follows, Inv, Evolves, PairInv, PairEvolves, Step, Belongs;
    if 0 < i {
      hide ValidRun, AssignedTo;
      RunSize(h, events);
      RunSteps(h, events, i - 1);
      AssigningIsJoining(At(h, i - 1), StepAt(events, i - 1), At(h, i), connectionId, pairId);
      if AssignedTo(At(h, i - 1), connectionId, pairId) {
        AssignedBelongs(h, events, i - 1, connectionId, pairId);
        BelongingGoesOn(h, events, i - 1, i, connectionId, pairId);
      }
    }
  }

  lemma BelongingGoesOn(h: seq<Db>, events: seq<Event>, i: nat, j: nat, connectionId: Id, pairId: Id)
    requires ValidRun(h, events) && i <= j < |h| && Belongs(At(h, i), connectionId, pairId)
    ensures Belongs(At(h, j), connectionId, pairId)
  {
    hide ValidRun, RouteInv, RouteEvolves, PairInv, PairEvolves, LogInv, QuotaInv, Belongs;
    TablesEvolve(h, events, i, j);
    BelongingStays(At(h, i), At(h, j), connectionId, pairId);
  }

  /** So whenever such a connection cancels its pair, it is not turned away. */
  lemma MembersStayMembers(h: seq<Db>, events: seq<Event>, i: nat, j: nat, connectionId: Id, pairId: Id)
    requires ValidRun(h, events) && i <= j < |h| && AssignedTo(At(h, i), connectionId, pairId)
    ensures Belongs(At(h, j), connectionId, pairId)
  {
    hide *;
    AssignedBelongs(h, events, i, connectionId, pairId);
    BelongingGoesOn(h, events, i, j, connectionId, pairId);
  }

  // ----- the links that pairs make

  predicate Makes(e: Event, linkId: Id) { e.CommitFull? && e.commit.linkId == linkId }

  /** A step adds a link, or a line to the log, only by activating a pair. */
  ghost predicate Adds(db: Db, e: Event, next: Db) {
    if e.CommitFull? then
      && next.links.Keys == db.links.Keys + {e.commit.linkId} && e.commit.linkId !in db.links
      && |next.activations| == |db.activations| + 1 && db.activations <= next.activations
      && next.activations[|db.activations|].linkId == e.commit.linkId
      && next.activations[|db.activations|].pairId == e.pairId
    else next.links.Keys == db.links.Keys && next.activations == db.activations
  }

  lemma StepAdds(db: Db, e: Event, next: Db)
    requires Step(db, e, next)
    ensures Adds(db, e, next)
  {
    hide Inv, Keeps, Moves, IsMember, Assignable, Joined;
    if e.CommitFull? {
      MovesByKind(db, e, next);
      ActivationAdds(db, e, next);
    } else {
      StepsFrame(db, e, next);
    }
    hide AtomicPair, AtomicRoute, AtomicPlain;
  }

  lemma ActivationAdds(db: Db, e: Event, next: Db)
    requires e.CommitFull? && AtomicPair(db, e, next)
    ensures Adds(db, e, next)
  {
    hide Upserted, Bumped, Filled, Accepts, OwnSlot;
  }

  /** The log is a history: it only ever grows at its end. */
  lemma {:induction false} LogOnlyGrows(h: seq<Db>, events: seq<Event>, i: nat, j: nat)
    requires ValidRun(h, events) && i <= j < |h|
    ensures At(h, i).activations <= At(h, j).activations
    ensures At(h, i).links.Keys <= At(h, j).links.Keys
    decreases j
  {
    hide ValidRun, Step;
    if i < j {
      RunSize(h, events);
      LogOnlyGrows(h, events, i, j - 1);
      RunSteps(h, events, j - 1);
      StepAdds(At(h, j - 1), StepAt(events, j - 1), At(h, j));
    }
  }

  lemma {:induction false} LinkIsMade(h: seq<Db>, events: seq<Event>, i: nat, linkId: Id) returns (k: nat)
    requires ValidRun(h, events) && i < |h| && linkId in At(h, i).links
    ensures k < i && Makes(StepAt(events, k), linkId)
    decreases i
  {
    hide Follows, Step;
    if 0 < i {
      hide ValidRun;
      RunSize(h, events);
      RunSteps(h, events, i - 1);
      StepAdds(At(h, i - 1), StepAt(events, i - 1), At(h, i));
      if Makes(StepAt(events, i - 1), linkId) {
        k := i - 1;
      } else {
        k := LinkIsMade(h, events, i - 1, linkId);
      }
    }
  }

  /** The log line of a link: two reciprocal commits, from different connections, that make this link. */
  ghost predicate MadeBy(link: Link, a: Activation) {
    && a.linkId == link.linkId
    && ReciprocalCommits(a.first, a.second)
    && a.first.connectionId != a.second.connectionId
    && var made := LinkFromCommits(a.first, a.second, a.at).value;
       link.(status := LinkActive, activeSessionId := ABSENT, revokedAt := 0) == made
  }

  /** Line n of the log, and no other, is the link's. */
  ghost predicate HasEntry(db: Db, linkId: Id, n: nat) {
    && linkId in db.links && n < |db.activations| && MadeBy(db.links[linkId], db.activations[n])
    && forall m :: 0 <= m < |db.activations| && db.activations[m].linkId == linkId ==> m == n
  }

  lemma LinkHasEntry(db: Db, linkId: Id) returns (n: nat)
    requires RouteInv(db) && LogInv(db) && linkId in db.links
    ensures HasEntry(db, linkId, n)
  {
    assert linkId in LogLinks(db.activations);
    n :| 0 <= n < |db.activations| && db.activations[n].linkId == linkId;
    assert ActivationOk(db, db.activations[n]) && LinkOk(db, linkId);
  }

  /** Once made a link is stored for good, so no later step makes it again. */
  lemma MadeOnce(h: seq<Db>, events: seq<Event>, k: nat, m: nat, linkId: Id)
    requires ValidRun(h, events) && k < m < |events| && Makes(StepAt(events, k), linkId)
    ensures !Makes(StepAt(events, m), linkId)
  {
    hide ValidRun, Step;
    RunSteps(h, events, k);
    RunSteps(h, events, m);
    StepAdds(At(h, k), StepAt(events, k), At(h, k + 1));
    StepAdds(At(h, m), StepAt(events, m), At(h, m + 1));
    LogOnlyGrows(h, events, k + 1, m);
  }

  /** The link joins the same two endpoints in both tables: one a controller, the other a companion. */
  ghost predicate SameEnds(a: Db, b: Db, linkId: Id) {
    && linkId in a.links && linkId in b.links
    && var link, later := a.links[linkId], b.links[linkId];
    && link.controllerId == later.controllerId && link.companionId == later.companionId
    && link.controllerId != link.companionId
    && link.controllerId in b.endpoints && b.endpoints[link.controllerId].role == Controller
    && link.companionId in b.endpoints && b.endpoints[link.companionId].role == Companion
  }

  lemma EndsStay(a: Db, b: Db, linkId: Id)
    requires RouteInv(b) && RouteEvolves(a, b) && linkId in a.links
    ensures SameEnds(a, b, linkId)
  {
    assert LinkOk(b, linkId) && LinkEvolves(a, b, linkId);
  }

  /** Every link of every table was made by exactly one step, which activated a pair of two reciprocal
      commits, and it joins the same two endpoints in every later table: one a controller, the other a
      companion, whatever else those endpoints pair with. */
  lemma LinksComeFromOneActivation(h: seq<Db>, events: seq<Event>, i: nat, j: nat, linkId: Id) returns (n: nat, k: nat)
    requires ValidRun(h, events) && i <= j < |h| && linkId in At(h, i).links
    ensures HasEntry(At(h, j), linkId, n) && SameEnds(At(h, i), At(h, j), linkId)
    ensures k < i && Makes(StepAt(events, k), linkId)
    ensures forall m :: 0 <= m < |events| && Makes(StepAt(events, m), linkId) ==> m == k
  {
    hide ValidRun, RouteInv, LogInv, RouteEvolves, PairEvolves, PairInv, QuotaInv, HasEntry, Makes;
    RunSize(h, events);
    TablesEvolve(h, events, i, j);
    EndsStay(At(h, i), At(h, j), linkId);
    n := LinkHasEntry(At(h, j), linkId);
    k := LinkIsMade(h, events, i, linkId);
    forall m | 0 <= m < |events| && Makes(StepAt(events, m), linkId) ensures m == k {
      if k < m { MadeOnce(h, events, k, m, linkId); }
      if m < k { MadeOnce(h, events, m, k, linkId); }
    }
  }

  // ----- quota

  /** The links whose activation counts against a rate record. */
  function ChargedLinks(log: seq<Activation>, key: RateKey): set<Id> {
    set n | 0 <= n < |log| && Charges(log[n], key) :: log[n].linkId
  }

  lemma ChargedGrows(log: seq<Activation>, key: RateKey)
    requires 0 < |log| && forall m, n :: 0 <= m < n < |log| ==> log[m].linkId != log[n].linkId
    ensures var last := log[|log| - 1];
            var added := if Charges(last, key) then {last.linkId} else {};
            && ChargedLinks(log, key) == ChargedLinks(log[..|log| - 1], key) + added
            && last.linkId !in ChargedLinks(log[..|log| - 1], key)
  {
    var last := |log| - 1;
    var before := log[..last];
    var added := if Charges(log[last], key) then {log[last].linkId} else {};
    hide Charges;
    forall id | id in ChargedLinks(before, key) + added ensures id in ChargedLinks(log, key) {
      if id in ChargedLinks(before, key) {
        var n :| 0 <= n < last && Charges(before[n], key) && before[n].linkId == id;
        assert Charges(log[n], key) && log[n].linkId == id;
      } else {
        assert Charges(log[last], key) && log[last].linkId == id;
      }
    }
  }

  lemma {:induction false} TallyCountsLinks(log: seq<Activation>, key: RateKey)
    requires forall m, n :: 0 <= m < n < |log| ==> log[m].linkId != log[n].linkId
    ensures Tally(log, key) == |ChargedLinks(log, key)|
  {
    if log == [] {
      assert ChargedLinks(log, key) == {};
    } else {
      ChargedGrows(log, key);
      hide ChargedLinks, Charges;
      TallyCountsLinks(log[..|log| - 1], key);
    }
  }

  /** The bucket of the record, and the next, are over. */
  predicate BucketsOver(key: RateKey, now: int) { key.bucket + 2 <= now / Window(key) }

  lemma ExpiredIsOver(key: RateKey, now: int)
    requires RateExpiry(key) <= now
    ensures BucketsOver(key, now)
  {
  }

  /** While a rate record lives its count is the number of links activated in its bucket; with or without
      a record, no bucket ever goes over its limit. */
  lemma QuotaIsConserved(h: seq<Db>, events: seq<Event>, i: nat, key: RateKey)
    requires ValidRun(h, events) && i < |h| && key.action == PairActivate
    ensures |ChargedLinks(At(h, i).activations, key)| <= Limit(At(h, 0), key)
    ensures ChargedLinks(At(h, i).activations, key) <= At(h, i).links.Keys
    ensures key in At(h, i).rates ==> Count(At(h, i), key) == |ChargedLinks(At(h, i).activations, key)|
    ensures key !in At(h, i).rates && ChargedLinks(At(h, i).activations, key) != {} ==> BucketsOver(key, At(h, i).now)
  {
    hide ValidRun, RouteInv, RouteEvolves, PairInv, PairEvolves, LogInv, QuotaInv, ChargedLinks, RateExpiry,
         BucketsOver;
    TablesEvolve(h, events, 0, i);
    QuotaOfTable(At(h, i), key);
  }

  lemma QuotaOfTable(db: Db, key: RateKey)
    requires LogInv(db) && QuotaInv(db) && key.action == PairActivate
    ensures |ChargedLinks(db.activations, key)| <= Limit(db, key) && ChargedLinks(db.activations, key) <= db.links.Keys
    ensures key in db.rates ==> Count(db, key) == |ChargedLinks(db.activations, key)|
    ensures key !in db.rates && ChargedLinks(db.activations, key) != {} ==> BucketsOver(key, db.now)
  {
    hide ActivationOk, ChargedLinks, Tally, RateExpiry, Window, LogPairs;
    assert QuotaOk(db, key);
    TallyCountsLinks(db.activations, key);
    LogLinksAreStored(db, key);
    if RateExpiry(key) <= db.now { ExpiredIsOver(key, db.now); }
    assert ChargedLinks(db.activations, key) != {} ==> |ChargedLinks(db.activations, key)| != 0;
  }

  lemma LogLinksAreStored(db: Db, key: RateKey)
    requires LogInv(db)
    ensures ChargedLinks(db.activations, key) <= db.links.Keys
  {
    hide ActivationOk;
    forall id | id in ChargedLinks(db.activations, key) ensures id in db.links {
      var n :| 0 <= n < |db.activations| && db.activations[n].linkId == id;
      assert id in LogLinks(db.activations);
    }
  }

  /** TTL takes an activation record only once its bucket, and the one after it, are over. */
  lemma CurrentQuotaIsNeverDropped(h: seq<Db>, events: seq<Event>, k: nat, key: RateKey)
    requires ValidRun(h, events) && k < |events| && StepAt(events, k) == Expire(RateItem(key))
    requires key.action == PairActivate
    ensures BucketsOver(key, At(h, k).now)
  {
    hide ValidRun, RouteInv, PairInv, LogInv, Keeps, RateExpiry, Window, Tally, Moves, BucketsOver, AtomicRoute,
         AtomicPair;
    RunSteps(h, events, k);
    MovesByKind(At(h, k), StepAt(events, k), At(h, k + 1));
    assert QuotaOk(At(h, k), key);
    ExpiredIsOver(key, At(h, k).now);
  }

  predicate During(a: Activation, source: Source, from: int, length: int) {
    from <= a.at < from + length && (source.FromSource? ==> a.sourceKey == source.key)
  }

  /** The activations of a source, or of all sources, in a stretch of time. */
  function CountDuring(log: seq<Activation>, source: Source, from: int, length: int): nat {
    if log == [] then 0
    else CountDuring(log[..|log| - 1], source, from, length)
         + (if During(log[|log| - 1], source, from, length) then 1 else 0)
  }

  function SourceLength(source: Source): int { if source.GlobalSource? then DAY else HOUR }

  lemma {:induction false} DuringTwoBuckets(log: seq<Activation>, source: Source, from: int)
    ensures var length := SourceLength(source);
            CountDuring(log, source, from, length)
            <= Tally(log, RateKey(source, PairActivate, from / length))
               + Tally(log, RateKey(source, PairActivate, from / length + 1))
  {
    if log != [] {
      DuringTwoBuckets(log[..|log| - 1], source, from);
      var a, length := log[|log| - 1], SourceLength(source);
      if During(a, source, from, length) { TwoBuckets(a.at, from, source); }
    }
  }

  lemma TwoBuckets(at: int, from: int, source: Source)
    requires from <= at < from + SourceLength(source)
    ensures var length := SourceLength(source);
            at / length == from / length || at / length == from / length + 1
  {
  }

  /** Wherever the stretch of one window falls, it admits at most twice the limit. */
  lemma AnyWindowAdmitsTwiceTheLimit(h: seq<Db>, events: seq<Event>, i: nat, source: Source, from: int)
    requires ValidRun(h, events) && i < |h|
    ensures CountDuring(At(h, i).activations, source, from, if source.GlobalSource? then 86_400 else 3_600)
            <= if source.GlobalSource? then 20_000 else 2 * At(h, 0).activationLimit
  {
    hide ValidRun, RouteInv, RouteEvolves, PairInv, PairEvolves, LogInv, Tally, CountDuring;
    var bucket := from / SourceLength(source);
    TablesEvolve(h, events, 0, i);
    DuringTwoBuckets(At(h, i).activations, source, from);
    assert QuotaOk(At(h, i), RateKey(source, PairActivate, bucket));
    assert QuotaOk(At(h, i), RateKey(source, PairActivate, bucket + 1));
  }
}
