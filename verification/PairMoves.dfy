/** One pair of the relay as its clients can tell it, and how every step of a run moves it. */
module PairMoves {
  import opened Records
  import opened Table
  import opened Routing
  import opened Pairing
  import opened ActivationStep
  import opened Runs
  import opened Steps
  import opened Frames
  import opened RouteTheorems
  import opened PairTheorems

  datatype PairState = Kept(status: PairStatus) | Missing

  /** A pair as its clients can tell: its commits, and whether it has been activated. */
  datatype View = View(state: PairState, commitA: Option<PairCommit>, commitB: Option<PairCommit>, activated: bool)

  ghost function ViewOf(db: Db, pairId: Id): View {
    var activated := pairId in LogPairs(db.activations);
    if pairId in db.pairs then
      View(Kept(db.pairs[pairId].status), db.pairs[pairId].commitA, db.pairs[pairId].commitB, activated)
    else View(Missing, None, None, activated)
  }

  datatype Move = Stays | Joins | FillsHalf(slot: Slot, commit: PairCommit) | FillsLast(slot: Slot, commit: PairCommit)
                | Closes | Vanishes

  function SlotOf(v: View, slot: Slot): Option<PairCommit> { if slot == SlotA then v.commitA else v.commitB }

  function WithCommit(v: View, slot: Slot, commit: PairCommit): View {
    if slot == SlotA then v.(commitA := Some(commit)) else v.(commitB := Some(commit))
  }

  ghost predicate Moved(v: View, m: Move, w: View) {
    match m
    case Stays => w == v
    case Joins => v.state == Kept(PairOpen) && w == v.(state := Kept(PairReady))
    case FillsHalf(slot, commit) =>
      && v.state == Kept(PairReady) && SlotOf(v, slot).None?
      && w == WithCommit(v, slot, commit).(state := Kept(PairHalf))
    case FillsLast(slot, commit) =>
      && v.state == Kept(PairHalf) && SlotOf(v, slot).None? && SlotOf(v, OtherSlot(slot)).Some?
      && ReciprocalCommits(commit, SlotOf(v, OtherSlot(slot)).value)
      && w == WithCommit(v, slot, commit).(state := Kept(PairActive), activated := true)
    case Closes => v.state != Kept(PairActive) && w == v.(state := Kept(PairClosed))
    case Vanishes => v.state.Kept? && w == View(Missing, None, None, v.activated)
  }

  /** How a step of the relay moves one pair. */
  function MoveOf(db: Db, e: Event, next: Db, pairId: Id): Move {
    match e
    case JoinPair(id, _, _, _, _) => if id == pairId then Joins else Stays
    case CommitHalf(id, slot, commit, _, _) => if id == pairId then FillsHalf(slot, commit) else Stays
    case CommitFull(id, slot, commit, _, _, _) => if id == pairId then FillsLast(slot, commit) else Stays
    case CancelPair(id, _, _, _) => if id == pairId then Closes else Stays
    case DisconnectPairing(_, _, _) =>
      if pairId in next.pairs && pairId in db.pairs && next.pairs[pairId] != db.pairs[pairId] then Closes else Stays
    case Expire(item) => if item == PairItem(pairId) then Vanishes else Stays
    case _ => Stays
  }

  lemma ActivationMovesPair(db: Db, e: Event, next: Db, pairId: Id)
    requires e.CommitFull? && AtomicPair(db, e, next) && pairId in db.seenPairs
    ensures Moved(ViewOf(db, pairId), MoveOf(db, e, next, pairId), ViewOf(next, pairId))
  {
    hide Upserted, Bumped, ReciprocalCommits, LogPairs, Accepts, OwnSlot;
    var (first, second) := Ordered(db.pairs[e.pairId], e.slot, e.commit);
    LogAppend(db.activations, Entry(e.pairId, first, second, e.sourceKey, e.now));
    ReciprocalEitherWay(first, second);
  }

  lemma PairingMovesPair(db: Db, e: Event, next: Db, pairId: Id)
    requires IsPairStep(e) && !e.CommitFull? && AtomicPair(db, e, next) && next.activations == db.activations
    requires pairId in db.seenPairs && (pairId in db.pairs ==> PairOk(db, pairId))
    ensures Moved(ViewOf(db, pairId), MoveOf(db, e, next, pairId), ViewOf(next, pairId))
  {
    hide Assignable, IsMember, LogPairs, ReciprocalCommits, Admits;
  }

  /** A step on other things leaves the pairs alone. */
  lemma UnmovedStays(db: Db, e: Event, next: Db, pairId: Id)
    requires !IsPairStep(e) && !(e.Expire? && e.item.PairItem?)
    requires next.activations == db.activations && next.pairs == db.pairs
    ensures Moved(ViewOf(db, pairId), MoveOf(db, e, next, pairId), ViewOf(next, pairId))
  {
    hide LogPairs;
  }

  lemma PlainStepMoves(db: Db, e: Event, next: Db, pairId: Id)
    requires AtomicPlain(db, e, next) && next.activations == db.activations
    requires e.Expire? || (e.DisconnectPairing? && next.pairs != db.pairs)
    ensures Moved(ViewOf(db, pairId), MoveOf(db, e, next, pairId), ViewOf(next, pairId))
  {
    hide LogPairs, IsMember, Dropped;
    if e.Expire? { DroppedLeaves(db, e.item); }
  }

  lemma StoredPairOk(db: Db, pairId: Id)
    requires PairInv(db)
    ensures pairId in db.pairs ==> PairOk(db, pairId)
  {
    hide PairOk;
  }

  /** Every step of the relay moves every pair it has ever stored along this automaton; only the step that
      commits for a side fills that side's slot. */
  lemma StepMovesPair(db: Db, e: Event, next: Db, pairId: Id)
    requires Step(db, e, next) && pairId in db.seenPairs
    ensures Moved(ViewOf(db, pairId), MoveOf(db, e, next, pairId), ViewOf(next, pairId))
  {
    hide RouteInv, PairInv, LogInv, QuotaInv, Keeps, Moves, AtomicRoute, AtomicPair, AtomicPlain, Moved, ViewOf, MoveOf,
         PairOk, PairFrame, MissesRecord;
    StoredPairOk(db, pairId);
    StepsFrame(db, e, next);
    MovesByKind(db, e, next);
    StepAdds(db, e, next);
    if e.CommitFull? {
      ActivationMovesPair(db, e, next, pairId);
    } else if IsPairStep(e) {
      PairingMovesPair(db, e, next, pairId);
    } else if e.Expire? || next.pairs != db.pairs {
      PlainStepMoves(db, e, next, pairId);
    } else {
      UnmovedStays(db, e, next, pairId);
    }
  }

  lemma RunMovesPair(h: seq<Db>, events: seq<Event>, k: nat, pairId: Id)
    requires ValidRun(h, events) && k < |events| && pairId in At(h, k).seenPairs
    ensures Moved(ViewOf(At(h, k), pairId), MoveOf(At(h, k), StepAt(events, k), At(h, k + 1), pairId),
                  ViewOf(At(h, k + 1), pairId))
  {
    hide *;
    RunSteps(h, events, k);
    StepMovesPair(At(h, k), StepAt(events, k), At(h, k + 1), pairId);
  }
}
