/** When the clients lose the credentials of a link: over a run of the relay they can exactly when a cancel leaves a
    stub of a pair that was activated, and there is a run in which one does. */
module Losses {
  import opened Records
  import opened Table
  import opened Routing
  import opened Pairing
  import opened ActivationStep
  import opened Runs
  import opened Steps
  import opened Frames
  import opened RouteTheorems
  import opened PairTheorems
  import opened StoreSteps
  import opened PairMoves
  import opened Shortfalls
  import opened Witness
  import opened RelayHandler
  import opened Checkpoint
  import opened Enrolments

  // ----- an activated pair's past

  /** A pair that a step makes seen is OPEN. */
  lemma NewlyStoredIsOpen(db: Db, e: Event, next: Db, id: Id)
    requires Step(db, e, next) && id !in db.seenPairs && Stored(next, id)
    ensures InStatus(next, id, PairOpen)
  {
    hide RouteInv, PairInv, LogInv, QuotaInv, Moves, IsMember, Assignable, Joined, PlacesStay, Places, Unplaces, Shape;
    StepsFrame(db, e, next);
    SeenIfStored(next, id);
  }

  ghost predicate StoredThrough(h: seq<Db>, from: nat, to: int, id: Id) {
    forall i :: from <= i <= to ==> Stored(At(h, i), id)
  }

  /** A stored pair began OPEN, and has been stored ever since. */
  lemma {:induction false} BeganOpen(h: seq<Db>, events: seq<Event>, last: nat, id: Id) returns (from: nat)
    requires ValidRun(h, events) && last < |h| && Stored(At(h, last), id)
    ensures from <= last && StoredThrough(h, from, last, id) && InStatus(At(h, from), id, PairOpen)
    decreases last
  {
    hide Follows, Inv, Keeps, Moves, InStatus, IsStub;
    assert 0 < last || At(h, last).pairs == map[];
    hide ValidRun, Stored, At;
    from := last;
    if !InStatus(At(h, last), id, PairOpen) {
      RunSize(h, events);
      RunSteps(h, events, last - 1);
      if id !in At(h, last - 1).seenPairs {
        NewlyStoredIsOpen(At(h, last - 1), StepAt(events, last - 1), At(h, last), id);
      }
      SideStays(At(h, last - 1), At(h, last), id);
      from := BeganOpen(h, events, last - 1, id);
    }
  }

  predicate Activates(e: Event, id: Id) {
    match e case CommitFull(pairId, _, _, _, _, _) => pairId == id case _ => false
  }

  lemma ActivatesItsPair(db: Db, e: Event, next: Db, id: Id)
    requires Step(db, e, next) && !Activated(db, id) && Activated(next, id)
    ensures Activates(e, id)
  {
    hide Step;
    StepAdds(db, e, next);
    if e.CommitFull? {
      var a, b := db.activations, next.activations;
      assert b == a + [b[|a|]];
      LogAppend(a, b[|a|]);
    }
  }

  /** The step that activated the pair. */
  lemma {:induction false} WasActivatedAt(h: seq<Db>, events: seq<Event>, k: nat, id: Id) returns (m: nat)
    requires ValidRun(h, events) && k < |h| && Activated(At(h, k), id)
    ensures m < k && Activates(StepAt(events, m), id) && Activated(At(h, m + 1), id)
    decreases k
  {
    hide Follows, Step;
    assert 0 < k || At(h, k).activations == [];
    hide ValidRun, Activated;
    m := k - 1;
    if Activated(At(h, m), id) {
      m := WasActivatedAt(h, events, m, id);
    } else {
      RunSize(h, events);
      RunSteps(h, events, m);
      ActivatesItsPair(At(h, m), StepAt(events, m), At(h, k), id);
    }
  }

  /** The pair is ACTIVE, with these commits from its two sides. */
  ghost predicate Sealed(db: Db, id: Id, a: PairCommit, b: PairCommit) {
    && Stored(db, id) && InStatus(db, id, PairActive) && HoldsBoth(db, id, a, b)
    && HasSideA(db, id, a.connectionId) && HasMember(db, id, b.connectionId) && a.connectionId != b.connectionId
  }

  lemma ActivationSeals(db: Db, e: Event, next: Db, id: Id) returns (a: PairCommit, b: PairCommit)
    requires Step(db, e, next) && Activates(e, id)
    ensures Sealed(next, id, a, b)
  {
    hide RouteInv, PairInv, LogInv, QuotaInv, RouteEvolves, PairEvolves, Moves, LogPairs, ReciprocalCommits;
    FillIsFromSide(db, e, next, id);
    SeenIfStored(db, id);
    StepMovesPair(db, e, next, id);
    StoredPairOk(next, id);
    a, b := next.pairs[id].commitA.value, next.pairs[id].commitB.value;
  }

  // ----- two clients that wait while it happens

  /** The moment that a run has come to. */
  function Now(js: seq<Joint>): Joint { Moment(js, |js| - 1) }

  lemma JointGoesOn(hash: Id -> Id, h: seq<Db>, events: seq<Event>, pairId: Id, js: seq<Joint>, ds: seq<Course>,
                    d: Course, k: Joint)
    requires JointRun(hash, h, events, pairId, js, ds) && JointStep(hash, h, events, pairId, Now(js), d, k)
    ensures JointRun(hash, h, events, pairId, js + [k], ds + [d]) && Now(js + [k]) == k
  {
    hide ValidRun, JointStart, JointStep;
    var longer, more := js + [k], ds + [d];
    forall i | 0 <= i < |more|
      ensures JointStep(hash, h, events, pairId, Moment(longer, i), CourseAt(more, i), Moment(longer, i + 1))
    {
      if i < |ds| { assert JointStep(hash, h, events, pairId, Moment(js, i), CourseAt(ds, i), Moment(js, i + 1)); }
    }
  }

  function Saved(commit: PairCommit, secret: Id): Record {
    Record(commit.linkId, commit.self.endpointId, secret, true)
  }

  function Waits(commit: PairCommit, secret: Id): Client {
    Client(Committing, Some(Saved(commit, secret)), commit, Running, None, {})
  }

  /** One client saves its credentials, and its commit is sent and begins to be handled. */
  lemma SendsCommit(hash: Id -> Id, h: seq<Db>, events: seq<Event>, pairId: Id, js: seq<Joint>, ds: seq<Course>,
                    who: Slot, commit: PairCommit, secret: Id)
      returns (longer: seq<Joint>, more: seq<Course>)
    requires JointRun(hash, h, events, pairId, js, ds)
    requires Of(Now(js), who) == NewClient(commit) && hash(secret) == commit.self.credentialHash
    ensures JointRun(hash, h, events, pairId, longer, more)
    ensures Now(longer) == With(Now(js), who, Waits(commit, secret))
  {
    hide JointRun, Answered, Posted, ValidRun, Now;
    var j, record := Now(js), Saved(commit, secret);
    var c1 := NewClient(commit).(phase := Staged, record := Some(record));
    var c2 := c1.(phase := Committing, commitment := InFlight);
    assert JointStep(hash, h, events, pairId, j, Acts(who, Persist(record)), With(j, who, c1));
    assert JointStep(hash, h, events, pairId, With(j, who, c1), Acts(who, Send), With(j, who, c2));
    assert JointStep(hash, h, events, pairId, With(j, who, c2), Acts(who, Deliver),
                     With(j, who, Waits(commit, secret)));
    hide JointStep;
    JointGoesOn(hash, h, events, pairId, js, ds, Acts(who, Persist(record)), With(j, who, c1));
    longer, more := js + [With(j, who, c1)], ds + [Acts(who, Persist(record))];
    JointGoesOn(hash, h, events, pairId, longer, more, Acts(who, Send), With(j, who, c2));
    longer, more := longer + [With(j, who, c2)], more + [Acts(who, Send)];
    JointGoesOn(hash, h, events, pairId, longer, more, Acts(who, Deliver), With(j, who, Waits(commit, secret)));
    longer, more := longer + [With(j, who, Waits(commit, secret))], more + [Acts(who, Deliver)];
  }

  // ----- and the relay goes on

  /** What a step does to the commits that a pair stored throughout holds. */
  lemma SlotsMove(db: Db, e: Event, next: Db, id: Id)
    requires Step(db, e, next) && Stored(db, id) && Stored(next, id)
    ensures var v, w := ViewOf(db, id), ViewOf(next, id);
            if FillsSlot(e, id) then
              && var slot := FilledSlot(e);
              && SlotOf(v, slot).None? && SlotOf(w, slot) == Some(FillingCommit(e))
              && SlotOf(w, OtherSlot(slot)) == SlotOf(v, OtherSlot(slot))
            else w.commitA == v.commitA && w.commitB == v.commitB
  {
    hide RouteInv, PairInv, LogInv, QuotaInv, Keeps, Moves, LogPairs, ReciprocalCommits, IsStub, MoveOf, FilledSlot,
         FillingCommit, FillsSlot;
    SeenIfStored(db, id);
    StepMovesPair(db, e, next, id);
    FillingIsMove(db, e, next, id);
  }

  /** A client waits for the reply to its commit, which is the one that the activated pair will hold. */
  ghost predicate AwaitsReply(c: Client, commit: Option<PairCommit>) {
    c.phase == Committing && c.commitment == Running && c.record.Some? && commit == Some(c.commit)
  }

  /** Both clients wait, and what has run is what the pair holds. */
  ghost predicate InStep(h: seq<Db>, pairId: Id, m: int, j: Joint) {
    && var last, v := ViewOf(At(h, m + 1), pairId), ViewOf(At(h, j.at), pairId);
    && AwaitsReply(j.companion, last.commitA) && AwaitsReply(j.controller, last.commitB)
    && (j.at <= m ==>
          && (j.companion.ran.None? <==> v.commitA.None?)
          && (j.controller.ran.None? <==> v.commitB.None?))
  }

  lemma FillKept(h: seq<Db>, events: seq<Event>, t: nat, m: nat, id: Id)
    requires ValidRun(h, events) && t <= m < |events| && FillsSlot(StepAt(events, t), id)
    requires StoredThrough(h, t, m + 1, id)
    ensures SlotOf(ViewOf(At(h, m + 1), id), FilledSlot(StepAt(events, t))) == Some(FillingCommit(StepAt(events, t)))
  {
    hide ValidRun, CommitShape, LogPairs, IsStub, Step, FillsSlot, FilledSlot, FillingCommit;
    RunSteps(h, events, t);
    SlotsMove(At(h, t), StepAt(events, t), At(h, t + 1), id);
    PairLifecycle(h, events, t + 1, m + 1, id);
    assert Stored(At(h, m + 1), id);
  }

  lemma NextInStep(hash: Id -> Id, h: seq<Db>, events: seq<Event>, pairId: Id, from: nat, m: nat, j: Joint)
      returns (k: Joint)
    requires ValidRun(h, events) && m < |events| && from <= j.at < |events|
    requires StoredThrough(h, from, m + 1, pairId) && Activated(At(h, m + 1), pairId) && InStep(h, pairId, m, j)
    ensures k.at == j.at + 1 && InStep(h, pairId, m, k)
    ensures JointStep(hash, h, events, pairId, j, RelayGoesOn, k)
  {
    hide ValidRun, Step, ViewOf, Stored, Activated, ClientActs, Said, InStatus, FillsSlot, FilledSlot, FillingCommit;
    var db, e, next := At(h, j.at), StepAt(events, j.at), At(h, j.at + 1);
    RunSteps(h, events, j.at);
    k := j.(at := j.at + 1);
    if j.at <= m {
      SlotsMove(db, e, next, pairId);
      if FillsSlot(e, pairId) {
        FillKept(h, events, j.at, m, pairId);
        k := AfterRun(j, FilledSlot(e));
        assert RunsNow(Of(j, FilledSlot(e)), FillingCommit(e));
      }
    } else if FillsSlot(e, pairId) {
      ActivatedStays(h, events, m + 1, j.at, pairId);
      FillIsFromSide(db, e, next, pairId);
      TableIsSound(h, events, j.at);
      ActivatedIsActive(db, pairId);
    }
  }

  /** The clients wait while the relay goes on to table `end`. */
  lemma {:induction false} Wait(hash: Id -> Id, h: seq<Db>, events: seq<Event>, pairId: Id, js: seq<Joint>,
                                ds: seq<Course>, from: nat, m: nat, end: nat)
      returns (longer: seq<Joint>, more: seq<Course>)
    requires ValidRun(h, events) && JointRun(hash, h, events, pairId, js, ds) && m < |events|
    requires from <= Now(js).at <= end <= |events|
    requires StoredThrough(h, from, m + 1, pairId) && Activated(At(h, m + 1), pairId) && InStep(h, pairId, m, Now(js))
    ensures JointRun(hash, h, events, pairId, longer, more)
    ensures Now(longer).at == end && InStep(h, pairId, m, Now(longer))
    decreases end - Now(js).at
  {
    hide JointRun, JointStep, ValidRun, InStep, StoredThrough, Activated, Now;
    longer, more := js, ds;
    if Now(js).at < end {
      var k := NextInStep(hash, h, events, pairId, from, m, Now(js));
      JointGoesOn(hash, h, events, pairId, js, ds, RelayGoesOn, k);
      longer, more := Wait(hash, h, events, pairId, js + [k], ds + [RelayGoesOn], from, m, end);
    }
  }

  // ----- until it is told that the pair is closed

  lemma ClosedIsPosted(h: seq<Db>, events: seq<Event>, pairId: Id, m: nat, at: nat, c: Client)
    requires m <= at < |h| && InStatus(At(h, at), pairId, PairClosed)
    requires HasMember(At(h, m), pairId, c.commit.connectionId)
    ensures Posted(h, events, pairId, at, c, ClosedNote)
  {
    hide InStatus, HasMember;
    var message := PairClosedNote(pairId, Cancelled);
    assert Grounds(h, events, Post(c.commit.connectionId, message), at);
    assert NoteOf(message, pairId) == Some(ClosedNote);
  }

  lemma HearsClosed(hash: Id -> Id, h: seq<Db>, events: seq<Event>, pairId: Id, js: seq<Joint>, ds: seq<Course>, m: nat)
      returns (longer: seq<Joint>, more: seq<Course>)
    requires JointRun(hash, h, events, pairId, js, ds) && m <= Now(js).at < |h|
    requires InStatus(At(h, Now(js).at), pairId, PairClosed) && Now(js).controller.phase == Committing
    requires HasMember(At(h, m), pairId, Now(js).controller.commit.connectionId)
    ensures JointRun(hash, h, events, pairId, longer, more)
    ensures Now(longer).at == Now(js).at && Now(longer).controller.record.None?
  {
    hide ValidRun, JointRun, Posted, Answered, InStatus, HasMember, Now;
    var j := Now(js);
    ClosedIsPosted(h, events, pairId, m, j.at, j.controller);
    var told := j.(controller := j.controller.(inbox := j.controller.inbox + {ClosedNote}));
    var over := told.(controller := told.controller.(phase := Over, record := None));
    assert JointStep(hash, h, events, pairId, j, Acts(SlotB, Note(ClosedNote)), told);
    assert JointStep(hash, h, events, pairId, told, Acts(SlotB, Receive(ClosedNote, true)), over);
    hide JointStep;
    JointGoesOn(hash, h, events, pairId, js, ds, Acts(SlotB, Note(ClosedNote)), told);
    longer, more := js + [told], ds + [Acts(SlotB, Note(ClosedNote))];
    JointGoesOn(hash, h, events, pairId, longer, more, Acts(SlotB, Receive(ClosedNote, true)), over);
    longer, more := longer + [over], more + [Acts(SlotB, Receive(ClosedNote, true))];
  }

  /** The secrets whose hashes the pair's two commits carried. */
  ghost predicate SecretsOf(hash: Id -> Id, db: Db, pairId: Id, secretA: Id, secretB: Id) {
    forall a :: a in db.activations && a.pairId == pairId ==>
      hash(secretA) == a.first.self.credentialHash && hash(secretB) == a.second.self.credentialHash
  }

  /** The pair's only line in the log. */
  ghost predicate OnlyEntry(db: Db, id: Id, entry: Activation) {
    && entry in db.activations && entry.pairId == id
    && forall other :: other in db.activations && other.pairId == id ==> other == entry
  }

  /** A pair is logged once, with the commits it held. */
  lemma LoggedOnce(a: Db, b: Db, id: Id) returns (entry: Activation)
    requires LogInv(a) && LogInv(b) && a.activations <= b.activations && Stored(a, id) && Activated(a, id)
    ensures OnlyEntry(b, id, entry) && HoldsBoth(a, id, entry.first, entry.second)
  {
    hide LogLinks, Stored, ReciprocalCommits;
    var n :| 0 <= n < |a.activations| && a.activations[n].pairId == id;
    entry := a.activations[n];
    assert b.activations[n] == entry;
    EntryOfPair(a, entry);
    hide ActivationOk, LogPairs;
    forall other | other in b.activations && other.pairId == id ensures other == entry {
      var m :| 0 <= m < |b.activations| && b.activations[m] == other;
      assert b.activations[m].pairId == b.activations[n].pairId;
    }
  }

  lemma EntryOfPair(db: Db, entry: Activation)
    requires LogInv(db) && entry in db.activations && Stored(db, entry.pairId)
    ensures HoldsBoth(db, entry.pairId, entry.first, entry.second)
  {
    hide LogLinks, LogPairs, ReciprocalCommits;
    assert ActivationOk(db, entry);
  }

  lemma LoggedInRun(h: seq<Db>, events: seq<Event>, i: nat, j: nat, id: Id) returns (entry: Activation)
    requires ValidRun(h, events) && i <= j < |h| && Stored(At(h, i), id) && Activated(At(h, i), id)
    ensures OnlyEntry(At(h, j), id, entry) && HoldsBoth(At(h, i), id, entry.first, entry.second)
  {
    hide ValidRun, RouteInv, PairInv, QuotaInv, LogInv, Activated, Stored, OnlyEntry, HoldsBoth;
    TablesEvolve(h, events, i, j);
    LogOnlyGrows(h, events, i, j);
    entry := LoggedOnce(At(h, i), At(h, j), id);
  }

  /** From the table in which the pair was OPEN, both clients have sent the commits that it will hold. */
  lemma BothWait(hash: Id -> Id, h: seq<Db>, events: seq<Event>, pairId: Id, from: nat, m: nat, a: PairCommit,
                 b: PairCommit, secretA: Id, secretB: Id)
      returns (js: seq<Joint>, ds: seq<Course>)
    requires ValidRun(h, events) && from <= m + 1 < |h| && StoredThrough(h, from, m + 1, pairId)
    requires InStatus(At(h, from), pairId, PairOpen) && Sealed(At(h, m + 1), pairId, a, b)
    requires hash(secretA) == a.self.credentialHash && hash(secretB) == b.self.credentialHash
    ensures JointRun(hash, h, events, pairId, js, ds) && Now(js).at == from && InStep(h, pairId, m, Now(js))
  {
    hide ValidRun, CommitShape, LogPairs, JointStep, Activated;
    PairLifecycle(h, events, from, m + 1, pairId);
    OpenIsUncommitted(h, events, from, pairId);
    var v := ViewOf(At(h, from), pairId);
    assert SlotOf(v, SlotA).None? && SlotOf(v, SlotB).None?;
    var j := Joint(from, NewClient(a), NewClient(b));
    js, ds := [j], [];
    assert JointRun(hash, h, events, pairId, js, ds) && Now(js) == j;
    hide JointRun, Now, Stored;
    js, ds := SendsCommit(hash, h, events, pairId, js, ds, SlotA, a, secretA);
    js, ds := SendsCommit(hash, h, events, pairId, js, ds, SlotB, b, secretB);
  }

  /** Once a cancel has left a stub of an activated pair, the controller may have lost the credentials of the link: it
      was waiting for its reply, is told that the pair is closed, and discards them. */
  lemma StubLosesCredentials(hash: Id -> Id, h: seq<Db>, events: seq<Event>, k: nat, pairId: Id, secretA: Id,
                             secretB: Id)
      returns (js: seq<Joint>, ds: seq<Course>)
    requires ValidRun(h, events) && k < |events| && Stubs(h, events, k, pairId) && Activated(At(h, k), pairId)
    requires SecretsOf(hash, Last(h), pairId, secretA, secretB)
    ensures JointRun(hash, h, events, pairId, js, ds)
    ensures Now(js).at == k + 1 && Activated(At(h, k + 1), pairId) && Now(js).controller.record.None?
  {
    hide ValidRun, Activated, Stored, JointRun, InStep, Step, StoredThrough, Cancels, Now, InStatus, Activates,
         HasSideA, HasMember;
    RunSize(h, events);
    var m := WasActivatedAt(h, events, k, pairId);
    RunSteps(h, events, m);
    var a, b := ActivationSeals(At(h, m), StepAt(events, m), At(h, m + 1), pairId);
    var entry := LoggedInRun(h, events, m + 1, |h| - 1, pairId);
    var from := BeganOpen(h, events, m + 1, pairId);
    js, ds := BothWait(hash, h, events, pairId, from, m, a, b, secretA, secretB);
    js, ds := Wait(hash, h, events, pairId, js, ds, from, m, k + 1);
    ControllerWaits(h, pairId, m, Now(js), a, b);
    RunSteps(h, events, k);
    CancelEffect(At(h, k), StepAt(events, k), At(h, k + 1), pairId);
    js, ds := HearsClosed(hash, h, events, pairId, js, ds, m + 1);
    ActivatedStays(h, events, k, k + 1, pairId);
  }

  lemma ControllerWaits(h: seq<Db>, pairId: Id, m: nat, j: Joint, a: PairCommit, b: PairCommit)
    requires InStep(h, pairId, m, j) && Sealed(At(h, m + 1), pairId, a, b)
    ensures j.controller.phase == Committing && HasMember(At(h, m + 1), pairId, j.controller.commit.connectionId)
  {
    hide LogPairs, At, HasMember, HasSideA;
  }

  /** Some client does not hold the credentials of a link that exists. */
  ghost predicate Loses(hash: Id -> Id, h: seq<Db>, events: seq<Event>, pairId: Id, js: seq<Joint>, ds: seq<Course>,
                        k: int)
  {
    && JointRun(hash, h, events, pairId, js, ds) && 0 <= k < |js| && Activated(TableAt(h, js, k), pairId)
    && !(HoldsCredentials(hash, Moment(js, k).companion) && HoldsCredentials(hash, Moment(js, k).controller))
  }

  /** Over a run of the relay, credentials of an existing link can be lost exactly when some cancel of the run leaves a
      stub of the pair after it was activated. */
  lemma CredentialsAreLostIffStubbed(hash: Id -> Id, h: seq<Db>, events: seq<Event>, pairId: Id, secretA: Id,
                                     secretB: Id)
    requires ValidRun(h, events) && SecretsOf(hash, Last(h), pairId, secretA, secretB)
    ensures (exists js, ds, k :: Loses(hash, h, events, pairId, js, ds, k)) <==> Stubbed(h, events, pairId, |events|)
  {
    hide ValidRun, Activated, Stubs, JointStart, JointStep, HoldsCredentials, SecretsOf, EnrolmentOk, Covered,
         SidesMatch;
    RunSize(h, events);
    if js: seq<Joint>, ds: seq<Course>, k: int :| Loses(hash, h, events, pairId, js, ds, k) {
      JointIsOk(hash, h, events, pairId, js, ds, k);
      if !Stubbed(h, events, pairId, Moment(js, k).at) { ActivatedIsBacked(hash, h, events, pairId, js, ds, k); }
    }
    if k :| 0 <= k < |events| && Stubs(h, events, k, pairId) && Activated(At(h, k), pairId) {
      var js, ds := StubLosesCredentials(hash, h, events, k, pairId, secretA, secretB);
      LostIsLost(hash, h, events, pairId, js, ds);
    }
  }

  lemma LostIsLost(hash: Id -> Id, h: seq<Db>, events: seq<Event>, pairId: Id, js: seq<Joint>, ds: seq<Course>)
    requires JointRun(hash, h, events, pairId, js, ds) && Activated(At(h, Now(js).at), pairId)
    requires Now(js).controller.record.None?
    ensures Loses(hash, h, events, pairId, js, ds, |ds|)
  {
    hide ValidRun, JointStart, JointStep, Activated, Backs;
  }

  /** And there is a run in which that happens. */
  lemma SomeRunLosesCredentials(hash: Id -> Id, secretA: Id, secretB: Id)
      returns (h: seq<Db>, events: seq<Event>, js: seq<Joint>, ds: seq<Course>)
    ensures JointRun(hash, h, events, PAIR_ID, js, ds) && Now(js).at == |events|
    ensures Activated(At(h, |events|), PAIR_ID) && LINK_ID in At(h, |events|).links
    ensures Now(js).controller.record.None?
  {
    hide ValidRun, Stubs, Activated, Stored, JointRun, Now, Pairs;
    h, events := StubIsReached(hash(secretA), hash(secretB));
    RunSize(h, events);
    PairsActivate(h, events, hash(secretA), hash(secretB));
    var entry := LoggedInRun(h, events, 7, |h| - 1, PAIR_ID);
    LogOnlyGrows(h, events, 7, |events|);
    js, ds := StubLosesCredentials(hash, h, events, |events| - 1, PAIR_ID, secretA, secretB);
  }
}
