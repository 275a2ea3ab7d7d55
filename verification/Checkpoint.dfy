/** Activation as the two clients see it: each saves its credentials before it commits, and discards them only
    on a definite refusal.  Clients crash, invocations die and replies are lost at any point; each
    pair.commit is delivered at most once. */
module Checkpoint {
  import opened Records
  import opened Table
  import opened PairMoves

  // ----- the two clients

  /** What a client keeps in its durable store. */
  datatype Record = Record(linkId: Id, endpointId: Id, secret: Id, activationPending: bool)

  datatype EnrolPhase = Preparing | Staged | Committing | Confirmed | Over

  /** The client's pair.commit on its way: not sent, sent, being handled, or spent. */
  datatype Commitment = Unsent | InFlight | Running | Spent

  datatype Reply = Active | Pending | RefusedForGood | Unsure | Completed | ClosedNote

  /** `ran` is the step of the relay by which it has taken the commit; `inbox` holds every reply ever sent, any
      of which may come late or not at all. */
  datatype Client = Client(phase: EnrolPhase, record: Option<Record>, commit: PairCommit, commitment: Commitment,
                           ran: Option<nat>, inbox: set<Reply>)

  /** `stubbed`: a cancel has written a CLOSED stub for a pair that had been activated and whose record had
      already expired away.  `closed`: the pair has been seen CLOSED. */
  datatype Enrolment = Enrolment(relay: View, companion: Client, controller: Client, stubbed: bool, closed: bool)

  /** The companion created the pair and the controller joined it. */
  function ClientOf(w: Enrolment, who: Slot): Client { if who == SlotA then w.companion else w.controller }

  function WithClient(w: Enrolment, who: Slot, c: Client): Enrolment {
    if who == SlotA then w.(companion := c) else w.(controller := c)
  }

  // ----- what a client does with what it is told

  datatype Disposition = Delete | Retain

  /** Why an enrolment ends without success. */
  datatype EnrolError = PairClosedError | RelayError(retryable: bool) | AnyOtherError

  /** pairingCheckpointDisposition, on the controller. */
  function ControllerDisposition(commitStarted: bool, error: EnrolError): Disposition {
    if !commitStarted then Delete
    else
      match error
      case PairClosedError => Delete
      case RelayError(retryable) => if retryable then Retain else Delete
      case AnyOtherError => Retain
  }

  /** resolveCommitFailure, on the companion, which has begun its commit whenever it gets there. */
  function CompanionDisposition(error: EnrolError): Disposition {
    if error == PairClosedError || error == RelayError(false) then Delete else Retain
  }

  function ErrorOf(reply: Reply): EnrolError {
    match reply
    case ClosedNote => PairClosedError
    case RefusedForGood => RelayError(false)
    case Unsure => RelayError(true)
    case _ => AnyOtherError
  }

  function DispositionOf(who: Slot, commitStarted: bool, error: EnrolError): Disposition {
    if who == SlotB then ControllerDisposition(commitStarted, error)
    else if commitStarted then CompanionDisposition(error) else Retain
  }

  datatype ClientAction =
    | Persist(record: Record)        // save the record, before anything is sent
    | GiveUp(discards: bool)         // an error before the commit is sent
    | Send | SendFails(sent: bool)
    | Deliver | Lose                 // the commit reaches the relay, or never does
    | Answer(reply: Reply)           // the running commit is answered
    | Die                            // the running commit ends without a word
    | Note(reply: Reply)             // pair.completed or pair.closed
    | Receive(reply: Reply, discards: bool)
    | BreakOff(discards: bool)       // any other error while the reply is awaited
    | Finish(persisted: bool)
    | Crash

  predicate Backs(hash: Id -> Id, c: Client, record: Record) {
    && record.linkId == c.commit.linkId && record.endpointId == c.commit.self.endpointId
    && hash(record.secret) == c.commit.self.credentialHash
  }

  /** A disposition of Delete removes the record, unless the store refuses. */
  function Discarded(c: Client, disposition: Disposition, discards: bool): Client {
    c.(phase := Over, record := if disposition == Delete && discards then None else c.record)
  }

  /** What one client does, or what happens to its commit. */
  predicate ClientActs(hash: Id -> Id, who: Slot, c: Client, a: ClientAction, d: Client) {
    match a
    case Persist(record) =>
      c.phase == Preparing && Backs(hash, c, record) && record.activationPending
      && d == c.(phase := Staged, record := Some(record))
    case GiveUp(discards) =>
      || (c.phase == Preparing && d == c.(phase := Over))
      || (c.phase == Staged && d == Discarded(c, DispositionOf(who, false, AnyOtherError), discards))
    case Send => c.phase == Staged && d == c.(phase := Committing, commitment := InFlight)
    case SendFails(sent) =>
      c.phase == Staged && d == Discarded(c, DispositionOf(who, true, AnyOtherError), true)
                                .(commitment := if sent then InFlight else Unsent)
    case Deliver => c.commitment == InFlight && d == c.(commitment := Running)
    case Lose => c.commitment == InFlight && d == c.(commitment := Spent)
    case Answer(reply) =>
      && c.commitment == Running && reply != Completed && reply != ClosedNote
      && d == c.(commitment := Spent, inbox := c.inbox + {reply})
    case Die => c.commitment == Running && d == c.(commitment := Spent)
    case Note(reply) => (reply == Completed || reply == ClosedNote) && d == c.(inbox := c.inbox + {reply})
    case Receive(reply, discards) =>
      && c.phase == Committing && reply in c.inbox
      && d == (if reply == Active || reply == Completed then c.(phase := Confirmed)
               else if reply == Pending then c
               else Discarded(c, DispositionOf(who, true, ErrorOf(reply)), discards))
    case BreakOff(discards) =>
      c.phase == Committing && d == Discarded(c, DispositionOf(who, true, AnyOtherError), discards)
    case Finish(persisted) =>
      && c.phase == Confirmed && c.record.Some?
      && d == c.(phase := Over,
                 record := if persisted then Some(c.record.value.(activationPending := false)) else c.record)
    case Crash => d == c.(phase := Over)
  }

  /** What makes a client's record go: a definite refusal of its commit or the closing of its pair, once it has sent
      its commit, and on the controller any error before that; each unless the store refuses. */
  predicate LetsGo(who: Slot, c: Client, a: ClientAction) {
    match a
    case Receive(reply, discards) => discards && (reply == RefusedForGood || reply == ClosedNote)
    case GiveUp(discards) => discards && who == SlotB && c.phase == Staged
    case _ => false
  }

  /** Nothing else makes it go, and it does not change but for being completed; and it does not come back. */
  lemma RecordGoes(hash: Id -> Id, who: Slot, c: Client, a: ClientAction, d: Client)
    requires ClientActs(hash, who, c, a, d)
    ensures c.record.Some? ==> (d.record.None? <==> LetsGo(who, c, a))
    ensures c.record.Some? && d.record.Some? && c.phase != Preparing ==>
              d.record.value in {c.record.value, c.record.value.(activationPending := false)}
    ensures c.phase == Over ==> d.phase == Over && d.record == c.record
    ensures LetsGo(who, c, a) ==> d.phase == Over && d.record.None?
    ensures a == Finish(true) ==> d.record == Some(c.record.value.(activationPending := false))
  {
    hide Backs;
  }

  // ----- what they may take from the relay

  /** What is true of the pair when a client is told something. */
  predicate Truthful(w: Enrolment, c: Client, a: ClientAction) {
    match a
    case Answer(reply) =>
      && (reply == RefusedForGood ==> c.ran.None?)
      && (reply == Pending ==> c.ran.Some?)
      && (reply == Active ==> c.ran.Some? && w.relay.activated)
    case Note(reply) => (reply == Completed ==> w.relay.activated) && (reply == ClosedNote ==> w.closed)
    case _ => true
  }

  predicate ClosesActivated(v: View, move: Move) { move.Closes? && v.activated }

  /** The relay moves the pair; a slot is filled by the running commit of its own side, once. */
  predicate RelayActs(w: Enrolment, move: Move, who: Slot, u: Enrolment) {
    var c := ClientOf(w, who);
    var v := w.(relay := u.relay, stubbed := w.stubbed || ClosesActivated(w.relay, move),
                closed := w.closed || u.relay.state == Kept(PairClosed));
    if move.FillsHalf? || move.FillsLast? then
      && move.slot == who && c.commitment == Running && c.ran.None? && c.commit == move.commit
      && ClientOf(u, who).ran.Some?
      && u == WithClient(v, who, c.(ran := ClientOf(u, who).ran))
    else u == v
  }

  datatype Turn = OfClient(action: ClientAction) | OfRelay(move: Move)

  ghost predicate Turns(hash: Id -> Id, w: Enrolment, who: Slot, turn: Turn, u: Enrolment) {
    match turn
    case OfRelay(move) => Moved(w.relay, move, u.relay) && RelayActs(w, move, who, u)
    case OfClient(a) =>
      && ClientActs(hash, who, ClientOf(w, who), a, ClientOf(u, who)) && Truthful(w, ClientOf(w, who), a)
      && u == WithClient(w, who, ClientOf(u, who))
  }

  predicate Begins(c: Client) {
    c.phase == Preparing && c.record.None? && c.commitment == Unsent && c.ran.None? && c.inbox == {}
  }

  predicate Starts(w: Enrolment) {
    && w.relay == View(Kept(PairOpen), None, None, false) && !w.stubbed && !w.closed
    && Begins(w.companion) && Begins(w.controller)
  }

  ghost predicate EnrolmentRun(hash: Id -> Id, ws: seq<Enrolment>, turns: seq<(Slot, Turn)>) {
    && |ws| == |turns| + 1 && Starts(ws[0])
    && forall k :: 0 <= k < |turns| ==> Turns(hash, ws[k], turns[k].0, turns[k].1, ws[k + 1])
  }

  // ----- what every reachable enrolment keeps

  /** The pair is not ACTIVE and never will be again. */
  predicate Settled(v: View) {
    v.state == Missing || v.state == Kept(PairClosed)
  }

  /** The client's commit is not stored and never will be. */
  predicate NeverRuns(c: Client) {
    c.ran.None? && (c.commitment == Spent || (c.commitment == Unsent && c.phase == Over))
  }

  predicate ClientOk(hash: Id -> Id, relay: View, stubbed: bool, slot: Slot, c: Client) {
    && (c.commitment != Unsent ==> c.phase == Committing || c.phase == Confirmed || c.phase == Over)
    && (c.ran.Some? ==> c.commitment != Unsent && c.commitment != InFlight)
    && (SlotOf(relay, slot).Some? ==> c.ran.Some? && SlotOf(relay, slot).value == c.commit)
    && (relay.activated ==> c.ran.Some?)
    && (c.record.Some? ==> Backs(hash, c, c.record.value))
    && (c.phase == Staged || c.phase == Committing || c.phase == Confirmed ==> c.record.Some?)
    && (c.phase == Preparing || c.phase == Staged ==> c.commitment == Unsent)
    && (RefusedForGood in c.inbox ==> c.commitment == Spent && c.ran.None?)
    && (ClosedNote in c.inbox ==> Settled(relay) && (relay.activated ==> stubbed))
    && (Active in c.inbox || Completed in c.inbox ==> relay.activated)
    && (c.phase == Confirmed ==> relay.activated)
    && (c.record.Some? && !c.record.value.activationPending ==> relay.activated)
    && (c.phase == Over && c.record.None? ==> NeverRuns(c) || (Settled(relay) && (relay.activated ==> stubbed)))
  }

  predicate RelayOk(v: View, stubbed: bool, closed: bool) {
    && (v.state == Kept(PairActive) ==> v.activated)
    && (v.activated ==> v.state == Kept(PairActive) || v.state == Missing || stubbed)
    && (v.activated ==> v.state == Kept(PairActive) || Settled(v))
    && (v.state == Kept(PairOpen) || v.state == Kept(PairReady) ==> v.commitA.None? && v.commitB.None?)
    && (stubbed ==> v.activated)
    && (closed ==> Settled(v) && (v.activated ==> stubbed))
  }

  predicate EnrolmentOk(hash: Id -> Id, w: Enrolment) {
    && RelayOk(w.relay, w.stubbed, w.closed)
    && ClientOk(hash, w.relay, w.stubbed, SlotA, w.companion)
    && ClientOk(hash, w.relay, w.stubbed, SlotB, w.controller)
  }

  lemma ClientTurnKeeps(hash: Id -> Id, w: Enrolment, who: Slot, turn: Turn, u: Enrolment)
    requires EnrolmentOk(hash, w) && Turns(hash, w, who, turn, u) && turn.OfClient?
    ensures EnrolmentOk(hash, u)
  {
    hide ClientOk, ClientActs, Truthful, RelayOk;
    ActingKeeps(hash, w, who, turn.action, ClientOf(u, who));
  }

  lemma ActingKeeps(hash: Id -> Id, w: Enrolment, who: Slot, a: ClientAction, d: Client)
    requires RelayOk(w.relay, w.stubbed, w.closed) && ClientOk(hash, w.relay, w.stubbed, who, ClientOf(w, who))
    requires ClientActs(hash, who, ClientOf(w, who), a, d) && Truthful(w, ClientOf(w, who), a)
    ensures ClientOk(hash, w.relay, w.stubbed, who, d)
  {
    var c := ClientOf(w, who);
    assert d.commit == c.commit && d.ran == c.ran;
    if d.record.Some? { assert Backs(hash, d, d.record.value); }
    hide Backs;
  }

  lemma RelayMoveOk(hash: Id -> Id, w: Enrolment, who: Slot, turn: Turn, u: Enrolment)
    requires EnrolmentOk(hash, w) && Turns(hash, w, who, turn, u) && turn.OfRelay?
    ensures RelayOk(u.relay, u.stubbed, u.closed)
  {
    hide ReciprocalCommits, ClientOk;
  }

  lemma RelayMoveKeepsClient(hash: Id -> Id, w: Enrolment, who: Slot, turn: Turn, u: Enrolment, slot: Slot)
    requires EnrolmentOk(hash, w) && Turns(hash, w, who, turn, u) && turn.OfRelay?
    ensures ClientOk(hash, u.relay, u.stubbed, slot, ClientOf(u, slot))
  {
    hide ReciprocalCommits;
  }

  lemma RelayTurnKeeps(hash: Id -> Id, w: Enrolment, who: Slot, turn: Turn, u: Enrolment)
    requires EnrolmentOk(hash, w) && Turns(hash, w, who, turn, u) && turn.OfRelay?
    ensures EnrolmentOk(hash, u)
  {
    hide RelayOk, ClientOk, Turns;
    RelayMoveOk(hash, w, who, turn, u);
    RelayMoveKeepsClient(hash, w, who, turn, u, SlotA);
    RelayMoveKeepsClient(hash, w, who, turn, u, SlotB);
  }

  lemma TurnKeeps(hash: Id -> Id, w: Enrolment, who: Slot, turn: Turn, u: Enrolment)
    requires EnrolmentOk(hash, w) && Turns(hash, w, who, turn, u)
    ensures EnrolmentOk(hash, u)
  {
    hide Turns, EnrolmentOk;
    if turn.OfRelay? { RelayTurnKeeps(hash, w, who, turn, u); } else { ClientTurnKeeps(hash, w, who, turn, u); }
  }

  lemma StartIsOk(hash: Id -> Id, w: Enrolment)
    requires Starts(w)
    ensures EnrolmentOk(hash, w)
  {
  }

  lemma {:induction false} ReachableIsOk(hash: Id -> Id, ws: seq<Enrolment>, turns: seq<(Slot, Turn)>, k: nat)
    requires EnrolmentRun(hash, ws, turns) && k < |ws|
    ensures EnrolmentOk(hash, ws[k])
    decreases k
  {
    if k == 0 {
      StartIsOk(hash, ws[0]);
    } else {
      ReachableIsOk(hash, ws, turns, k - 1);
      assert Turns(hash, ws[k - 1], turns[k - 1].0, turns[k - 1].1, ws[k - 1 + 1]);
      hide EnrolmentRun, Turns, EnrolmentOk;
      TurnKeeps(hash, ws[k - 1], turns[k - 1].0, turns[k - 1].1, ws[k]);
    }
  }

  /** The client's durable store holds this link, with the secret whose hash it committed. */
  ghost predicate HoldsCredentials(hash: Id -> Id, c: Client) {
    c.record.Some? && Backs(hash, c, c.record.value)
  }

  /** What keeps a pair from ever being ACTIVE. */
  predicate Doomed(w: Enrolment) {
    w.relay.state != Kept(PairActive) && (Settled(w.relay) || NeverRuns(w.companion) || NeverRuns(w.controller))
  }

  lemma DoomStays(hash: Id -> Id, w: Enrolment, who: Slot, turn: Turn, u: Enrolment)
    requires EnrolmentOk(hash, w) && Doomed(w) && Turns(hash, w, who, turn, u)
    ensures Doomed(u) && u.relay.activated == w.relay.activated
  {
    hide Backs, ReciprocalCommits;
  }

  lemma {:induction false} DoomIsForever(hash: Id -> Id, ws: seq<Enrolment>, turns: seq<(Slot, Turn)>, i: nat, j: nat)
    requires EnrolmentRun(hash, ws, turns) && i <= j < |ws| && Doomed(ws[i])
    ensures Doomed(ws[j]) && ws[j].relay.activated == ws[i].relay.activated
    decreases j
  {
    if i < j {
      DoomIsForever(hash, ws, turns, i, j - 1);
      ReachableIsOk(hash, ws, turns, j - 1);
      assert Turns(hash, ws[j - 1], turns[j - 1].0, turns[j - 1].1, ws[j - 1 + 1]);
      hide EnrolmentRun, Turns, EnrolmentOk, Doomed;
      DoomStays(hash, ws[j - 1], turns[j - 1].0, turns[j - 1].1, ws[j]);
    }
  }

  /** A client that lets its credentials go has lost nothing: the pair is not ACTIVE and never will be, and unless
      a stub has taken its place it has not been activated. */
  lemma DiscardDooms(hash: Id -> Id, w: Enrolment, who: Slot, turn: Turn, mover: Slot, u: Enrolment)
    requires EnrolmentOk(hash, w) && EnrolmentOk(hash, u) && Turns(hash, w, mover, turn, u)
    requires ClientOf(w, who).record.Some? && ClientOf(u, who).record.None?
    ensures Doomed(u) && (u.relay.activated ==> u.stubbed)
  {
    hide Backs, ReciprocalCommits;
  }
}
