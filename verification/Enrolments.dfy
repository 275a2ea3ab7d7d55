/** Both clients beside a run of the relay: what the relay answers and posts is what its handler does, so what the
    clients may take from it is proved of its runs. */
module Enrolments {
  import opened Records
  import opened Table
  import opened Routing
  import opened Pairing
  import opened ActivationStep
  import opened Runs
  import opened Steps
  import opened Frames
  import opened RouteTheorems
  import opened PairTheorems
  import opened StoreSteps
  import opened PairMoves
  import opened Shortfalls
  import opened RelayHandler
  import opened Checkpoint

  /** The clients when the relay's table is the run's table `at`. */
  datatype Joint = Joint(at: nat, companion: Client, controller: Client)

  function Of(j: Joint, who: Slot): Client { if who == SlotA then j.companion else j.controller }

  function With(j: Joint, who: Slot, c: Client): Joint {
    if who == SlotA then j.(companion := c) else j.(controller := c)
  }

  datatype Course = Acts(who: Slot, action: ClientAction) | RelayGoesOn

  function NewClient(commit: PairCommit): Client { Client(Preparing, None, commit, Unsent, None, {}) }

  /** One moment of a joint run, and what is done then. */
  function Moment(js: seq<Joint>, k: int): Joint {
    if 0 <= k < |js| then js[k] else Joint(0, NewClient(NO_COMMIT), NewClient(NO_COMMIT))
  }

  function CourseAt(ds: seq<Course>, k: int): Course { if 0 <= k < |ds| then ds[k] else RelayGoesOn }

  /** The table at that moment. */
  function TableAt(h: seq<Db>, js: seq<Joint>, k: int): Db { At(h, Moment(js, k).at) }

  // ----- what the relay says

  /** How the client takes the handler's reply to its pair.commit. */
  function ReplyOf(r: Result<bool>): Reply {
    match r
    case Ok(active) => if active then Active else Pending
    case Err(_, retryable) => if retryable then Unsure else RefusedForGood
  }

  function NoteOf(m: Message, pairId: Id): Option<Reply> {
    match m
    case PairClosedNote(id, _) => if id == pairId then Some(ClosedNote) else None
    case PairCompleted(id, _, _) => if id == pairId then Some(Completed) else None
    case _ => None
  }

  /** The handler of the client's request gives this reply. */
  ghost predicate Answered(h: seq<Db>, pairId: Id, at: nat, c: Client, reply: Reply) {
    exists r: Result<bool>, i: nat :: i <= at && CommitReply(h, pairId, c.commit, c.ran, r, i) && reply == ReplyOf(r)
  }

  /** A handler posts this to the client's connection. */
  ghost predicate Posted(h: seq<Db>, events: seq<Event>, pairId: Id, at: nat, c: Client, reply: Reply) {
    exists m: Message, i: nat ::
      i <= at && Grounds(h, events, Post(c.commit.connectionId, m), i) && NoteOf(m, pairId) == Some(reply)
  }

  // ----- runs of the three of them

  predicate RunsNow(c: Client, commit: PairCommit) { c.commitment == Running && c.ran.None? && c.commit == commit }

  ghost predicate JointStart(h: seq<Db>, pairId: Id, j: Joint) {
    && j.at < |h| && InStatus(At(h, j.at), pairId, PairOpen)
    && Begins(j.companion) && Begins(j.controller)
    && At(h, j.at).pairs[pairId].sideA.connectionId == j.companion.commit.connectionId
    && j.companion.commit.connectionId != j.controller.commit.connectionId
  }

  /** A client does something, or the relay takes its next step.  A commit to this pair is one that a client has
      sent and that has not run before. */
  ghost predicate JointStep(hash: Id -> Id, h: seq<Db>, events: seq<Event>, pairId: Id, j: Joint, d: Course, k: Joint) {
    match d
    case Acts(who, a) =>
      && k == With(j, who, Of(k, who)) && ClientActs(hash, who, Of(j, who), a, Of(k, who))
      && Said(h, events, pairId, j.at, Of(j, who), a)
    case RelayGoesOn =>
      && j.at < |events|
      && if FillsSlot(StepAt(events, j.at), pairId) then
           exists who :: RunsNow(Of(j, who), FillingCommit(StepAt(events, j.at))) && k == AfterRun(j, who)
         else k == Later(j)
  }

  /** What a client is told, the relay says. */
  ghost predicate Said(h: seq<Db>, events: seq<Event>, pairId: Id, at: nat, c: Client, a: ClientAction) {
    match a
    case Answer(reply) => Answered(h, pairId, at, c, reply)
    case Note(reply) => Posted(h, events, pairId, at, c, reply)
    case _ => true
  }

  function Later(j: Joint): Joint { j.(at := j.at + 1) }

  /** The client's commit has run, in the relay's next step. */
  function AfterRun(j: Joint, who: Slot): Joint { Later(With(j, who, Of(j, who).(ran := Some(j.at)))) }

  ghost predicate JointRun(hash: Id -> Id, h: seq<Db>, events: seq<Event>, pairId: Id, js: seq<Joint>,
                           ds: seq<Course>) {
    && ValidRun(h, events)
    && |js| == |ds| + 1 && JointStart(h, pairId, Moment(js, 0))
    && forall k :: 0 <= k < |ds| ==> JointStep(hash, h, events, pairId, Moment(js, k), CourseAt(ds, k),
                                               Moment(js, k + 1))
  }

  // ----- as an enrolment

  /** A cancel has left a stub of the pair after it was activated. */
  ghost predicate Stubbed(h: seq<Db>, events: seq<Event>, pairId: Id, at: int) {
    exists k :: 0 <= k < at && Stubs(h, events, k, pairId) && Activated(At(h, k), pairId)
  }

  ghost predicate SeenClosed(h: seq<Db>, pairId: Id, at: int) {
    exists i :: 0 <= i <= at && InStatus(At(h, i), pairId, PairClosed)
  }

  ghost function AsEnrolment(h: seq<Db>, events: seq<Event>, pairId: Id, j: Joint): Enrolment {
    Enrolment(ViewOf(At(h, j.at), pairId), j.companion, j.controller, Stubbed(h, events, pairId, j.at),
              SeenClosed(h, pairId, j.at))
  }

  /** Who takes the turn, and how: a commit moves the pair for the side that sent it. */
  ghost function AsTurn(h: seq<Db>, events: seq<Event>, pairId: Id, at: nat, d: Course): (Slot, Turn) {
    match d
    case Acts(who, a) => (who, OfClient(a))
    case RelayGoesOn =>
      var e := StepAt(events, at);
      (FilledSlot(e), OfRelay(MoveOf(At(h, at), e, At(h, at + 1), pairId)))
  }

  /** Every commit that any table so far has held for the pair is one of the two clients', and has run. */
  ghost predicate Covered(h: seq<Db>, pairId: Id, j: Joint) {
    forall i, slot :: 0 <= i <= j.at && SlotOf(ViewOf(At(h, i), pairId), slot).Some? ==>
      Of(j, slot).ran.Some? && SlotOf(ViewOf(At(h, i), pairId), slot).value == Of(j, slot).commit
  }

  ghost predicate SidesMatch(db: Db, pairId: Id, j: Joint) {
    && j.companion.commit.connectionId != j.controller.commit.connectionId
    && (Stored(db, pairId) ==> db.pairs[pairId].sideA.connectionId == j.companion.commit.connectionId)
  }

  ghost predicate JointOk(hash: Id -> Id, h: seq<Db>, events: seq<Event>, pairId: Id, j: Joint) {
    && ValidRun(h, events) && j.at < |h| && EnrolmentOk(hash, AsEnrolment(h, events, pairId, j))
    && Covered(h, pairId, j) && SidesMatch(At(h, j.at), pairId, j) && pairId in At(h, j.at).seenPairs
  }

  // ----- the relay's next step moves the pair as it should

  /** The relay closes an activated pair only by leaving a stub. */
  lemma ClosingActivatedStubs(db: Db, e: Event, next: Db, id: Id)
    requires Step(db, e, next) && id in db.seenPairs
    ensures ClosesActivated(ViewOf(db, id), MoveOf(db, e, next, id)) <==>
              Cancels(e, id) && !Stored(db, id) && Activated(db, id)
  {
    hide RouteInv, PairInv, LogInv, QuotaInv, Keeps, Moves, LogPairs;
    ActivatedIsActive(db, id);
    if Cancels(e, id) {
      CancelEffect(db, e, next, id);
    } else {
      StepMovesPair(db, e, next, id);
      StubIsLeftAlone(db, next, id);
    }
  }

  lemma StubIsLeftAlone(db: Db, next: Db, id: Id)
    requires Keeps(db, next) && Inv(db)
    ensures HasStub(db, id) && id in next.pairs ==> HasStub(next, id)
  {
    hide RouteInv, LogInv, QuotaInv, RouteEvolves, Shape;
    if HasStub(db, id) && id in next.pairs { assert PairEvolvesAt(db, next, id) && PairOk(next, id) && PairOk(db, id); }
  }

  predicate SameSideA(db: Db, next: Db, id: Id) {
    id in db.pairs && id in next.pairs && db.pairs[id].sideA == next.pairs[id].sideA
  }

  lemma SideStays(db: Db, next: Db, id: Id)
    requires Keeps(db, next) && id in db.seenPairs
    ensures id in next.seenPairs && (Stored(next, id) ==> Stored(db, id) && SameSideA(db, next, id))
  {
    hide RouteInv, LogInv, QuotaInv, RouteEvolves, Shape;
    if Stored(next, id) { assert PairEvolvesAt(db, next, id) && PairOk(next, id); }
  }

  predicate HasSideA(db: Db, pairId: Id, connectionId: Id) {
    pairId in db.pairs && db.pairs[pairId].sideA.connectionId == connectionId
  }

  /** The slot that a commit fills is that of the side that sent it. */
  lemma FillIsFromSide(db: Db, e: Event, next: Db, pairId: Id)
    requires Step(db, e, next) && FillsSlot(e, pairId)
    ensures Stored(db, pairId) && !InStatus(db, pairId, PairActive)
    ensures FilledSlot(e) == SlotA <==> HasSideA(db, pairId, FillingCommit(e).connectionId)
  {
    hide RouteInv, PairInv, LogInv, QuotaInv, Keeps, Moves, AtomicRoute, AtomicPlain, MissesRecord, Shape,
         ReciprocalCommits, Upserted, Bumped;
    MovesByKind(db, e, next);
    StoredPairOk(db, pairId);
  }

  // ----- what the relay says is true

  lemma ActiveWasActivated(h: seq<Db>, events: seq<Event>, i: nat, at: nat, pairId: Id)
    requires ValidRun(h, events) && i <= at < |h| && InStatus(At(h, i), pairId, PairActive)
    ensures Activated(At(h, at), pairId)
  {
    hide ValidRun, RouteInv, PairInv, LogInv, QuotaInv, Activated;
    TableIsSound(h, events, i);
    ActivatedIsActive(At(h, i), pairId);
    ActivatedStays(h, events, i, at, pairId);
  }

  lemma AnswersAreTruthful(h: seq<Db>, events: seq<Event>, pairId: Id, j: Joint, who: Slot, reply: Reply)
    requires ValidRun(h, events) && j.at < |h| && Covered(h, pairId, j)
    requires j.companion.commit.connectionId != j.controller.commit.connectionId
    requires Answered(h, pairId, j.at, Of(j, who), reply)
    ensures Truthful(AsEnrolment(h, events, pairId, j), Of(j, who), Answer(reply))
  {
    hide ValidRun, LogPairs, Covered, HoldsCommit, Stubbed, SeenClosed;
    var c := Of(j, who);
    var r: Result<bool>, i: nat :| i <= j.at && CommitReply(h, pairId, c.commit, c.ran, r, i) && reply == ReplyOf(r);
    if r.Ok? {
      SaidToHaveRun(h, pairId, j, who, i);
      if r.value { ActiveWasActivated(h, events, i, j.at, pairId); }
    }
  }

  /** A commit that a table holds is known to have run. */
  lemma SaidToHaveRun(h: seq<Db>, pairId: Id, j: Joint, who: Slot, i: nat)
    requires i <= j.at && Covered(h, pairId, j) && HoldsCommit(At(h, i), pairId, Of(j, who).commit)
    requires j.companion.commit.connectionId != j.controller.commit.connectionId
    ensures Of(j, who).ran.Some?
  {
    hide LogPairs, At;
    var slot := if At(h, i).pairs[pairId].commitA == Some(Of(j, who).commit) then SlotA else SlotB;
    assert SlotOf(ViewOf(At(h, i), pairId), slot) == Some(Of(j, who).commit);
    assert Of(j, slot).commit == Of(j, who).commit;
  }

  lemma NotesAreTruthful(h: seq<Db>, events: seq<Event>, pairId: Id, j: Joint, who: Slot, reply: Reply)
    requires ValidRun(h, events) && j.at < |h| && Posted(h, events, pairId, j.at, Of(j, who), reply)
    ensures Truthful(AsEnrolment(h, events, pairId, j), Of(j, who), Note(reply))
  {
    hide ValidRun, LogPairs, Stubbed, InStatus, HasMember, CommitIs;
    var c := Of(j, who);
    var m: Message, i: nat :| i <= j.at && Grounds(h, events, Post(c.commit.connectionId, m), i)
        && NoteOf(m, pairId) == Some(reply);
    if reply == Completed { ActiveWasActivated(h, events, i, j.at, pairId); }
  }

  // ----- so the three of them run as an enrolment

  /** No table up to here has held a commit for an OPEN pair, or held it CLOSED, or activated it. */
  lemma OpenIsUncommitted(h: seq<Db>, events: seq<Event>, at: nat, pairId: Id)
    requires ValidRun(h, events) && at < |h| && InStatus(At(h, at), pairId, PairOpen)
    ensures forall i, slot :: 0 <= i <= at ==> SlotOf(ViewOf(At(h, i), pairId), slot).None?
    ensures forall i :: 0 <= i <= at ==> !InStatus(At(h, i), pairId, PairClosed) && !Activated(At(h, i), pairId)
  {
    hide *;
    forall i | 0 <= i <= at
      ensures !InStatus(At(h, i), pairId, PairClosed) && !Activated(At(h, i), pairId)
      ensures forall slot :: SlotOf(ViewOf(At(h, i), pairId), slot).None?
    {
      TablesEvolve(h, events, i, at);
      ActivatedStays(h, events, i, at, pairId);
      OpenWasOpen(At(h, i), At(h, at), pairId);
    }
  }

  lemma OpenWasOpen(a: Db, b: Db, pairId: Id)
    requires Inv(a) && Inv(b) && Evolves(a, b) && InStatus(b, pairId, PairOpen)
    requires Activated(a, pairId) ==> Activated(b, pairId)
    ensures !InStatus(a, pairId, PairClosed) && !Activated(a, pairId)
    ensures forall slot :: SlotOf(ViewOf(a, pairId), slot).None?
  {
    hide RouteInv, RouteEvolves, PairInv, LogInv, QuotaInv, LogPairs, FromSide;
    ActivatedIsActive(b, pairId);
    StoredPairOk(a, pairId);
    StoredPairOk(b, pairId);
    assert PairEvolvesAt(a, b, pairId);
  }

  lemma StartIsJointOk(hash: Id -> Id, h: seq<Db>, events: seq<Event>, pairId: Id, j: Joint)
    requires ValidRun(h, events) && JointStart(h, pairId, j)
    ensures JointOk(hash, h, events, pairId, j) && Starts(AsEnrolment(h, events, pairId, j))
  {
    hide ValidRun, RouteInv, PairInv, LogInv, QuotaInv, Stubs, EnrolmentOk, PairOk, LogPairs;
    TableIsSound(h, events, j.at);
    StoredPairOk(At(h, j.at), pairId);
    OpenIsUncommitted(h, events, j.at, pairId);
    var v := ViewOf(At(h, j.at), pairId);
    assert SlotOf(v, SlotA).None? && SlotOf(v, SlotB).None? && !Activated(At(h, j.at), pairId);
    SeenIfStored(At(h, j.at), pairId);
    StartIsOk(hash, AsEnrolment(h, events, pairId, j));
  }

  lemma SeenIfStored(db: Db, id: Id)
    requires PairInv(db)
    ensures id in db.pairs ==> id in db.seenPairs
  {
    if id in db.pairs { assert PairOk(db, id); }
  }

  lemma ClientTurnProjects(hash: Id -> Id, h: seq<Db>, events: seq<Event>, pairId: Id, j: Joint, who: Slot,
                           a: ClientAction, k: Joint)
    requires JointOk(hash, h, events, pairId, j) && JointStep(hash, h, events, pairId, j, Acts(who, a), k)
    ensures k.at == j.at
    ensures Turns(hash, AsEnrolment(h, events, pairId, j), who, OfClient(a), AsEnrolment(h, events, pairId, k))
  {
    hide ValidRun, EnrolmentOk, ClientActs, Covered, Answered, Posted, Stubbed, SeenClosed, ViewOf, Stored;
    assert a.Answer? || a.Note? || Truthful(AsEnrolment(h, events, pairId, j), Of(j, who), a);
    hide Truthful;
    if a.Answer? { AnswersAreTruthful(h, events, pairId, j, who, a.reply); }
    if a.Note? { NotesAreTruthful(h, events, pairId, j, who, a.reply); }
  }

  /** The history that an enrolment carries is that of the run. */
  lemma HistoryGrows(h: seq<Db>, events: seq<Event>, pairId: Id, at: nat)
    requires ValidRun(h, events) && at < |events| && pairId in At(h, at).seenPairs
    ensures Stubbed(h, events, pairId, at + 1) <==>
              Stubbed(h, events, pairId, at)
              || ClosesActivated(ViewOf(At(h, at), pairId),
                                 MoveOf(At(h, at), StepAt(events, at), At(h, at + 1), pairId))
    ensures SeenClosed(h, pairId, at + 1) <==>
              SeenClosed(h, pairId, at) || InStatus(At(h, at + 1), pairId, PairClosed)
  {
    hide ValidRun, Step, Activated, MoveOf, ViewOf, ClosesActivated, InStatus, Cancels, Stored, At, StepAt;
    RunSteps(h, events, at);
    ClosingActivatedStubs(At(h, at), StepAt(events, at), At(h, at + 1), pairId);
    assert InStatus(At(h, at + 1), pairId, PairClosed) ==> SeenClosed(h, pairId, at + 1);
    assert Stubs(h, events, at, pairId) && Activated(At(h, at), pairId) ==> Stubbed(h, events, pairId, at + 1);
  }

  /** How a commit moves its pair, and that nothing else fills a slot. */
  predicate FillsBy(m: Move, fills: bool, slot: Slot, commit: PairCommit) {
    if fills then m == FillsHalf(slot, commit) || m == FillsLast(slot, commit) else !m.FillsHalf? && !m.FillsLast?
  }

  lemma FillingIsMove(db: Db, e: Event, next: Db, pairId: Id)
    ensures FillsBy(MoveOf(db, e, next, pairId), FillsSlot(e, pairId), FilledSlot(e), FillingCommit(e))
    ensures ViewOf(db, pairId).state == Kept(PairClosed) <==> InStatus(db, pairId, PairClosed)
  {
    hide LogPairs;
  }

  /** The commit that runs is the one that the client of its slot has sent. */
  lemma FillerIsKnown(db: Db, e: Event, next: Db, pairId: Id, j: Joint, k: Joint)
    requires Step(db, e, next) && FillsSlot(e, pairId) && SidesMatch(db, pairId, j)
    requires exists who :: RunsNow(Of(j, who), FillingCommit(e)) && k == AfterRun(j, who)
    ensures RunsNow(Of(j, FilledSlot(e)), FillingCommit(e)) && k == AfterRun(j, FilledSlot(e))
  {
    hide Step, IsStub, FillingCommit, FilledSlot;
    FillIsFromSide(db, e, next, pairId);
  }

  lemma RelayTurnProjects(hash: Id -> Id, h: seq<Db>, events: seq<Event>, pairId: Id, j: Joint, k: Joint)
    requires JointOk(hash, h, events, pairId, j) && JointStep(hash, h, events, pairId, j, RelayGoesOn, k)
    ensures k.at == j.at + 1 && j.at < |events| && Onward(j, k)
    ensures var (who, turn) := AsTurn(h, events, pairId, j.at, RelayGoesOn);
            Turns(hash, AsEnrolment(h, events, pairId, j), who, turn, AsEnrolment(h, events, pairId, k))
  {
    hide ValidRun, Step, EnrolmentOk, Covered, Moved, MoveOf, ViewOf, Stubbed, SeenClosed, ClosesActivated, SidesMatch,
         InStatus, FillsSlot;
    var db, e, next := At(h, j.at), StepAt(events, j.at), At(h, j.at + 1);
    RunSteps(h, events, j.at);
    StepMovesPair(db, e, next, pairId);
    HistoryGrows(h, events, pairId, j.at);
    FillingIsMove(db, e, next, pairId);
    FillingIsMove(next, e, next, pairId);
    if FillsSlot(e, pairId) { FillerIsKnown(db, e, next, pairId, j, k); }
  }

  /** The two clients' commits have not changed, and what has run has run. */
  ghost predicate Onward(j: Joint, k: Joint) {
    && k.companion.commit == j.companion.commit && k.controller.commit == j.controller.commit
    && (j.companion.ran.Some? ==> k.companion.ran == j.companion.ran)
    && (j.controller.ran.Some? ==> k.controller.ran == j.controller.ran)
  }

  lemma ActsKeepCommit(hash: Id -> Id, who: Slot, c: Client, a: ClientAction, d: Client)
    requires ClientActs(hash, who, c, a, d)
    ensures d.ran == c.ran && d.commit == c.commit
  {
    hide Backs;
  }

  lemma SlotsAreHeld(hash: Id -> Id, w: Enrolment, slot: Slot)
    requires EnrolmentOk(hash, w) && SlotOf(w.relay, slot).Some?
    ensures ClientOf(w, slot).ran.Some? && SlotOf(w.relay, slot).value == ClientOf(w, slot).commit
  {
    hide Backs;
  }

  lemma CoverGrows(hash: Id -> Id, h: seq<Db>, events: seq<Event>, pairId: Id, j: Joint, k: Joint)
    requires j.at <= k.at <= j.at + 1 && Covered(h, pairId, j) && Onward(j, k)
    requires EnrolmentOk(hash, AsEnrolment(h, events, pairId, k))
    ensures Covered(h, pairId, k)
  {
    hide EnrolmentOk, ViewOf, SlotOf, Stubbed, SeenClosed, At;
    forall i, slot | 0 <= i <= k.at && SlotOf(ViewOf(At(h, i), pairId), slot).Some?
      ensures Of(k, slot).ran.Some? && SlotOf(ViewOf(At(h, i), pairId), slot).value == Of(k, slot).commit
    {
      if i <= j.at {
        assert Of(j, slot).ran.Some?;
      } else {
        SlotsAreHeld(hash, AsEnrolment(h, events, pairId, k), slot);
      }
    }
  }

  /** Every turn of the three of them is a turn of the enrolment, and keeps what it keeps. */
  lemma StepKeepsJoint(hash: Id -> Id, h: seq<Db>, events: seq<Event>, pairId: Id, j: Joint, d: Course, k: Joint)
    requires JointOk(hash, h, events, pairId, j) && JointStep(hash, h, events, pairId, j, d, k)
    ensures JointOk(hash, h, events, pairId, k) && j.at <= k.at
    ensures var (who, turn) := AsTurn(h, events, pairId, j.at, d);
            Turns(hash, AsEnrolment(h, events, pairId, j), who, turn, AsEnrolment(h, events, pairId, k))
  {
    hide ValidRun, EnrolmentOk, ClientActs, Covered, Turns, AsEnrolment, Answered, Posted, Stored, Keeps, Inv, Moves,
         MoveOf, FillsSlot;
    if d.Acts? {
      ActsKeepCommit(hash, d.who, Of(j, d.who), d.action, Of(k, d.who));
      ClientTurnProjects(hash, h, events, pairId, j, d.who, d.action, k);
    } else {
      RelayTurnProjects(hash, h, events, pairId, j, k);
      RunSteps(h, events, j.at);
      SideStays(At(h, j.at), At(h, k.at), pairId);
    }
    var (who, turn) := AsTurn(h, events, pairId, j.at, d);
    TurnKeeps(hash, AsEnrolment(h, events, pairId, j), who, turn, AsEnrolment(h, events, pairId, k));
    CoverGrows(hash, h, events, pairId, j, k);
  }

  lemma {:induction false} JointIsOk(hash: Id -> Id, h: seq<Db>, events: seq<Event>, pairId: Id, js: seq<Joint>,
                                     ds: seq<Course>, k: nat)
    requires JointRun(hash, h, events, pairId, js, ds) && k < |js|
    ensures JointOk(hash, h, events, pairId, Moment(js, k))
    decreases k
  {
    hide ValidRun, JointStart, JointStep, JointOk;
    if k == 0 {
      StartIsJointOk(hash, h, events, pairId, Moment(js, 0));
    } else {
      JointIsOk(hash, h, events, pairId, js, ds, k - 1);
      assert JointStep(hash, h, events, pairId, Moment(js, k - 1), CourseAt(ds, k - 1), Moment(js, k - 1 + 1));
      StepKeepsJoint(hash, h, events, pairId, Moment(js, k - 1), CourseAt(ds, k - 1), Moment(js, k));
    }
  }

  /** The enrolment of a run: at every moment its pair is that of the run's table, and its clients are these; their
      turns are those they took. */
  ghost predicate Shows(h: seq<Db>, events: seq<Event>, pairId: Id, js: seq<Joint>, ds: seq<Course>,
                        ws: seq<Enrolment>, turns: seq<(Slot, Turn)>)
  {
    && |js| == |ds| + 1 == |ws| == |turns| + 1
    && (forall k :: 0 <= k < |js| ==>
          ws[k] == AsEnrolment(h, events, pairId, Moment(js, k)) && ws[k].relay == ViewOf(TableAt(h, js, k), pairId))
    && (forall k :: 0 <= k < |ds| ==> turns[k] == AsTurn(h, events, pairId, Moment(js, k).at, CourseAt(ds, k)))
  }

  /** Any run of the relay, with any course of the two clients beside it, is an enrolment that shows it. */
  lemma RunsAreEnrolments(hash: Id -> Id, h: seq<Db>, events: seq<Event>, pairId: Id, js: seq<Joint>, ds: seq<Course>)
      returns (ws: seq<Enrolment>, turns: seq<(Slot, Turn)>)
    requires JointRun(hash, h, events, pairId, js, ds)
    ensures EnrolmentRun(hash, ws, turns) && Shows(h, events, pairId, js, ds, ws, turns)
  {
    hide ValidRun, JointStart, JointStep, JointOk, Turns, Starts, ViewOf, Stubbed, SeenClosed, AsTurn;
    ws := seq(|js|, k requires 0 <= k < |js| => AsEnrolment(h, events, pairId, Moment(js, k)));
    turns := seq(|ds|, k requires 0 <= k < |ds| => AsTurn(h, events, pairId, Moment(js, k).at, CourseAt(ds, k)));
    StartIsJointOk(hash, h, events, pairId, Moment(js, 0));
    forall k | 0 <= k < |ds| ensures Turns(hash, ws[k], turns[k].0, turns[k].1, ws[k + 1]) {
      JointIsOk(hash, h, events, pairId, js, ds, k);
      StepKeepsJoint(hash, h, events, pairId, Moment(js, k), CourseAt(ds, k), Moment(js, k + 1));
    }
  }

  // ----- what the clients may take from any run of the relay

  /** The pair holds both commits. */
  predicate HoldsBoth(db: Db, pairId: Id, a: PairCommit, b: PairCommit) {
    pairId in db.pairs && db.pairs[pairId].commitA == Some(a) && db.pairs[pairId].commitB == Some(b)
  }

  /** Whatever crashed or was lost on the way: while the pair is ACTIVE it holds both clients' commits, and both
      durable stores hold the link with the secrets that were committed. */
  lemma ActiveIsBacked(hash: Id -> Id, h: seq<Db>, events: seq<Event>, pairId: Id, js: seq<Joint>, ds: seq<Course>,
                       k: nat)
    requires JointRun(hash, h, events, pairId, js, ds) && k < |js| && InStatus(TableAt(h, js, k), pairId, PairActive)
    ensures HoldsBoth(TableAt(h, js, k), pairId, Moment(js, k).companion.commit, Moment(js, k).controller.commit)
    ensures HoldsCredentials(hash, Moment(js, k).companion) && HoldsCredentials(hash, Moment(js, k).controller)
  {
    hide ValidRun, JointRun, Covered, SidesMatch, RouteInv, PairInv, LogInv, QuotaInv, Stubbed, SeenClosed, EnrolmentOk,
         HoldsCredentials, LogPairs, ReciprocalCommits, FromSide;
    JointIsOk(hash, h, events, pairId, js, ds, k);
    TableIsSound(h, events, Moment(js, k).at);
    StoredPairOk(TableAt(h, js, k), pairId);
    ActiveIsHeld(hash, AsEnrolment(h, events, pairId, Moment(js, k)));
  }

  lemma ActiveIsHeld(hash: Id -> Id, w: Enrolment)
    requires EnrolmentOk(hash, w) && w.relay.state == Kept(PairActive) && w.relay.commitA.Some? && w.relay.commitB.Some?
    ensures w.relay.commitA.value == w.companion.commit && w.relay.commitB.value == w.controller.commit
    ensures HoldsCredentials(hash, w.companion) && HoldsCredentials(hash, w.controller)
  {
    hide Backs;
  }

  lemma EnrolledHold(hash: Id -> Id, w: Enrolment)
    requires EnrolmentOk(hash, w) && w.relay.activated && !w.stubbed
    ensures HoldsCredentials(hash, w.companion) && HoldsCredentials(hash, w.controller)
  {
    hide Backs;
  }

  /** An activated link outlives its pair's record, and so do both clients' credentials, unless a cancel has left a
      stub in the record's place. */
  lemma ActivatedIsBacked(hash: Id -> Id, h: seq<Db>, events: seq<Event>, pairId: Id, js: seq<Joint>, ds: seq<Course>,
                          k: nat)
    requires JointRun(hash, h, events, pairId, js, ds) && k < |js|
    requires Activated(TableAt(h, js, k), pairId) && !Stubbed(h, events, pairId, Moment(js, k).at)
    ensures HoldsCredentials(hash, Moment(js, k).companion) && HoldsCredentials(hash, Moment(js, k).controller)
  {
    hide ValidRun, JointRun, Covered, SidesMatch, Stubbed, SeenClosed, EnrolmentOk, HoldsCredentials, LogPairs;
    JointIsOk(hash, h, events, pairId, js, ds, k);
    EnrolledHold(hash, AsEnrolment(h, events, pairId, Moment(js, k)));
  }

  /** A client discards its credentials only when the pair is not, and never will be, ACTIVE; and the link is not,
      and never will be, unless a stub of it had been left by then. */
  lemma DiscardsAreSafe(hash: Id -> Id, h: seq<Db>, events: seq<Event>, pairId: Id, js: seq<Joint>, ds: seq<Course>,
                        k: nat, j: nat, who: Slot)
    requires JointRun(hash, h, events, pairId, js, ds) && k < |ds| && k < j < |js|
    requires Of(Moment(js, k), who).record.Some? && Of(Moment(js, k + 1), who).record.None?
    ensures !InStatus(TableAt(h, js, j), pairId, PairActive)
    ensures Activated(TableAt(h, js, j), pairId) ==> Stubbed(h, events, pairId, Moment(js, k + 1).at)
  {
    hide ValidRun, JointStart, JointStep, Turns, EnrolmentOk, Starts, Settled, NeverRuns, Stubbed, SeenClosed, LogPairs,
         AsTurn;
    var ws, turns := RunsAreEnrolments(hash, h, events, pairId, js, ds);
    ReachableIsOk(hash, ws, turns, k);
    ReachableIsOk(hash, ws, turns, k + 1);
    assert Turns(hash, ws[k], turns[k].0, turns[k].1, ws[k + 1]);
    DiscardDooms(hash, ws[k], who, turns[k].1, turns[k].0, ws[k + 1]);
    DoomIsForever(hash, ws, turns, k + 1, j);
  }

  /** A client takes the relay's answer for what it is: it is confirmed by an activation alone, goes on waiting only
      while the other commit is missing, and lets its record go at an error that is for good and at no other. */
  lemma AnswersAreTaken(hash: Id -> Id, who: Slot, c: Client, r: Result<bool>, discards: bool, d: Client)
    requires c.record.Some? && ClientActs(hash, who, c, Receive(ReplyOf(r), discards), d)
    ensures d.phase == Confirmed <==> r == Ok(true)
    ensures d == c <==> r == Ok(false)
    ensures d.record.None? <==> discards && r.Err? && !r.retryable
  {
    RecordGoes(hash, who, c, Receive(ReplyOf(r), discards), d);
  }

  /** The client has let its record go between two moments. */
  predicate LetGo(js: seq<Joint>, ds: seq<Course>, i: nat, j: nat, who: Slot) {
    exists k :: i <= k < j && CourseAt(ds, k).Acts? && CourseAt(ds, k).who == who
                && LetsGo(who, Of(Moment(js, k), who), CourseAt(ds, k).action)
  }

  /** A client that has saved its credentials holds them until it is definitely refused, or told that the pair is
      closed, or gives up before it has sent its commit; and then it holds none for good. */
  lemma {:induction false} RecordsGoWhenRefused(hash: Id -> Id, h: seq<Db>, events: seq<Event>, pairId: Id,
                                                js: seq<Joint>, ds: seq<Course>, i: nat, j: nat, who: Slot)
    requires JointRun(hash, h, events, pairId, js, ds) && i <= j < |js| && Of(Moment(js, i), who).record.Some?
    ensures Of(Moment(js, j), who).record.None? <==> LetGo(js, ds, i, j, who)
    ensures LetGo(js, ds, i, j, who) ==> Of(Moment(js, j), who).phase == Over
    decreases j
  {
    hide ValidRun, JointStart, ClientActs, Said, LetsGo, FillsSlot;
    if i < j {
      RecordsGoWhenRefused(hash, h, events, pairId, js, ds, i, j - 1, who);
      var d := CourseAt(ds, j - 1);
      var a, b := Moment(js, j - 1), Moment(js, j - 1 + 1);
      assert JointStep(hash, h, events, pairId, a, d, b);
      if d.Acts? { RecordGoes(hash, d.who, Of(a, d.who), d.action, Of(b, d.who)); }
      assert LetGo(js, ds, i, j, who) <==>
             LetGo(js, ds, i, j - 1, who) || (d.Acts? && d.who == who && LetsGo(who, Of(a, who), d.action));
    }
  }

  /** A client that takes its enrolment for confirmed is right, and so is a record that says so. */
  lemma ConfirmationsAreTrue(hash: Id -> Id, h: seq<Db>, events: seq<Event>, pairId: Id, js: seq<Joint>,
                             ds: seq<Course>, k: nat, who: Slot)
    requires JointRun(hash, h, events, pairId, js, ds) && k < |js|
    requires || Of(Moment(js, k), who).phase == Confirmed
             || (Of(Moment(js, k), who).record.Some? && !Of(Moment(js, k), who).record.value.activationPending)
    ensures Activated(TableAt(h, js, k), pairId)
  {
    hide ValidRun, JointRun, Covered, SidesMatch, Stubbed, SeenClosed, LogPairs, Backs;
    JointIsOk(hash, h, events, pairId, js, ds, k);
  }

  /** Where every cancel reads its pair with the time of an invocation to spare, nobody ever loses the credentials of a
      link. */
  lemma InTimeNothingIsLost(hash: Id -> Id, h: seq<Db>, events: seq<Event>, pairId: Id, js: seq<Joint>, ds: seq<Course>,
                            k: nat)
    requires JointRun(hash, h, events, pairId, js, ds) && k < |js| && CancelsInTime(h, events)
    requires Activated(TableAt(h, js, k), pairId)
    ensures HoldsCredentials(hash, Moment(js, k).companion) && HoldsCredentials(hash, Moment(js, k).controller)
  {
    hide ValidRun, CancelsInTime, Activated, Stubs, HoldsCredentials, JointStart, JointStep;
    forall i ensures !Stubs(h, events, i, pairId) { InTimeNeverStubs(h, events, i, pairId); }
    ActivatedIsBacked(hash, h, events, pairId, js, ds, k);
  }
}
