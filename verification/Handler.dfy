/** The handler's side of the relay: what it posts to connections, and the cascade of clean-ups that a
    post to a connection that is gone sets off (handler.go). */
module RelayHandler {
  import opened Records
  import opened Table
  import opened Routing
  import opened Specs
  import opened Pairing
  import opened ActivationStep
  import opened Runs
  import opened Steps
  import opened RouteTheorems
  import opened PairTheorems
  import opened StoreSteps
  import opened Alone
  import opened RelayStore

  datatype Reason = PeerDisconnected | Replaced | Revoked | Requested | Cancelled

  /** `began` is no part of a frame: it records how many tables there were when its request came in. */
  datatype Message =
    | SessionOpened(sessionId: Id, linkId: Id, peerEndpointId: Id)
    | SessionClosedNote(sessionId: Id, reason: Reason)
    | SessionFrame(sessionId: Id, payload: nat, began: nat)
    | PairClosedNote(pairId: Id, reason: Reason)
    | PairCompleted(pairId: Id, linkId: Id, peerEndpointId: Id)
    | PairFrame(pairId: Id, payload: nat, began: nat)
    | LinkRevokedNote(linkId: Id)

  datatype Post = Post(connectionId: Id, message: Message)

  datatype PostResult = Delivered | Gone | Failed

  /** An invocation replies, or runs out of time and dies without a word. */
  datatype Ended<+T> = Replies(result: Result<T>) | Dies {
    predicate Fine() { Replies? && result.Ok? }
  }

  // ----- what a post must have behind it

  /** Table or step `at` of the run is the reason for a post. */
  ghost predicate Grounds(h: seq<Db>, events: seq<Event>, p: Post, at: nat) {
    match p.message
    case SessionOpened(sessionId, linkId, peer) =>
      exists s: Session :: Opened(h, events, at, s) && Announces(s, p.connectionId, sessionId, linkId, peer)
    case SessionClosedNote(sessionId, _) =>
      && at < |events| && ClosedBy(h, events, at, sessionId) && ConnectionOn(At(h, at + 1), sessionId, p.connectionId)
    case SessionFrame(sessionId, _, began) =>
      && began <= at + 1 && at < |h| && IsActive(At(h, at), sessionId) && Routed(At(h, at), sessionId)
      && ConnectionOn(At(h, at), sessionId, p.connectionId)
    case PairClosedNote(pairId, _) =>
      && at < |h| && InStatus(At(h, at), pairId, PairClosed)
      && exists k: nat :: k <= at && HasMember(At(h, k), pairId, p.connectionId)
    case PairCompleted(pairId, linkId, peer) =>
      && at < |h| && InStatus(At(h, at), pairId, PairActive)
      && exists slot :: CommitIs(At(h, at).pairs[pairId], slot, p.connectionId, linkId, peer)
    case PairFrame(pairId, _, began) =>
      && began <= at + 1 && at < |h| && Forming(At(h, at), pairId) && HasMember(At(h, at), pairId, p.connectionId)
    case LinkRevokedNote(linkId) =>
      && at < |h| && LinkGone(At(h, at), linkId)
      && exists endpointId :: OnLink(At(h, at).links[linkId], endpointId)
                              && Up(At(h, at), endpointId, p.connectionId)
  }

  predicate Announces(s: Session, connectionId: Id, sessionId: Id, linkId: Id, peer: Id) {
    && s.sessionId == sessionId && s.linkId == linkId
    && ((connectionId == s.controllerConnectionId && peer == s.companionId)
        || (connectionId == s.companionConnectionId && peer == s.controllerId))
  }

  predicate ConnectionOn(db: Db, sessionId: Id, connectionId: Id) {
    sessionId in db.sessions && OnConnectionOf(db.sessions[sessionId], connectionId)
  }

  /** The pair is between join and activation. */
  predicate Forming(db: Db, pairId: Id) { InStatus(db, pairId, PairReady) || InStatus(db, pairId, PairHalf) }

  predicate CommitIs(p: Pair, slot: Slot, connectionId: Id, linkId: Id, peer: Id) {
    && Commit(p, slot).Some? && Commit(p, slot).value.connectionId == connectionId
    && Commit(p, slot).value.linkId == linkId && Commit(p, slot).value.peer.endpointId == peer
  }

  ghost predicate Grounded(h: seq<Db>, events: seq<Event>, p: Post) { exists at: nat :: Grounds(h, events, p, at) }

  ghost predicate AllGrounded(h: seq<Db>, events: seq<Event>, posts: seq<Post>) {
    forall p :: p in posts ==> Grounded(h, events, p)
  }

  /** What a clean-up posts. */
  predicate IsNote(p: Post) { p.message.SessionClosedNote? || p.message.PairClosedNote? }

  /** All that was posted since are notes, but for the one post. */
  ghost predicate NotesBut(before: seq<Post>, after: seq<Post>, p: Post) {
    forall i :: |before| <= i < |after| ==> after[i] == p || IsNote(after[i])
  }

  ghost predicate Notes(before: seq<Post>, after: seq<Post>) {
    forall i :: |before| <= i < |after| ==> IsNote(after[i])
  }

  /** The post was handed to the gateway since, unless there was nobody to address. */
  ghost predicate Addressed(before: seq<Post>, after: seq<Post>, p: Post) {
    p.connectionId == ABSENT || exists i :: |before| <= i < |after| && after[i] == p
  }

  /** What grounded a post grounds it for as long as the run goes on. */
  lemma GroundsStay(h: seq<Db>, events: seq<Event>, longer: seq<Db>, more: seq<Event>, posts: seq<Post>)
    requires RunOn(h, events, longer, more) && AllGrounded(h, events, posts)
    ensures AllGrounded(longer, more, posts)
  {
    hide At, StepAt, Upto, Writes, EndsSession, RunOn, Routed, IsActive, OnConnectionOf, IsMember, CommitIs, SpecOpen,
         CanOpen, Announces, LinkGone, OnLink, Up, InStatus, ConnectionOn, HasMember, Forming;
    SameTables(h, events, longer, more);
    forall p | p in posts ensures Grounded(longer, more, p) {
      assert Grounded(h, events, p);
      var at: nat :| Grounds(h, events, p, at);
      if p.message.SessionOpened? {
        var s: Session :| Opened(h, events, at, s)
            && Announces(s, p.connectionId, p.message.sessionId, p.message.linkId, p.message.peerEndpointId);
        assert Opened(longer, more, at, s);
      }
      assert Grounds(longer, more, p, at);
    }
  }

  lemma ReportsStay(h: seq<Db>, events: seq<Event>, longer: seq<Db>, more: seq<Event>, at: nat,
                    report: Option<CloseResult>)
    requires RunOn(h, events, longer, more) && Reports(h, events, at, report)
    ensures Reports(longer, more, at, report)
  {
    hide At, StepAt, Upto, Writes, EndsSession, RunOn;
    SameTables(h, events, longer, more);
    forall id ensures ClosedBy(h, events, at, id) <==> ClosedBy(longer, more, at, id) {}
  }

  lemma ClosedGrounds(h: seq<Db>, events: seq<Event>, at: nat, result: CloseResult, connectionId: Id, reason: Reason)
    requires Reports(h, events, at, Some(result)) && result.closedNow && OnConnectionOf(result.session, connectionId)
    ensures Grounded(h, events, Post(connectionId, SessionClosedNote(result.session.sessionId, reason)))
  {
    hide ClosedBy, OnConnectionOf;
    assert Grounds(h, events, Post(connectionId, SessionClosedNote(result.session.sessionId, reason)), at);
  }

  lemma PairClosedGrounds(h: seq<Db>, events: seq<Event>, at: nat, pairId: Id, pair: Pair, peer: Id, reason: Reason)
    requires at < |h| && InStatus(At(h, at), pairId, PairClosed)
    requires IsMember(pair, peer) && exists k: nat :: k <= at && SameSides(At(h, k), pairId, pair)
    ensures Grounded(h, events, Post(peer, PairClosedNote(pairId, reason)))
  {
    hide InStatus;
    var k: nat :| k <= at && SameSides(At(h, k), pairId, pair);
    assert HasMember(At(h, k), pairId, peer);
    assert Grounds(h, events, Post(peer, PairClosedNote(pairId, reason)), at);
  }

  lemma PairFrameGrounds(h: seq<Db>, events: seq<Event>, at: nat, pairId: Id, peer: Id, payload: nat, began: nat)
    requires began <= at + 1 && at < |h| && Forming(At(h, at), pairId) && HasMember(At(h, at), pairId, peer)
    ensures Grounded(h, events, Post(peer, PairFrame(pairId, payload, began)))
  {
    hide Forming, HasMember;
    assert Grounds(h, events, Post(peer, PairFrame(pairId, payload, began)), at);
  }

  lemma SessionFrameGrounds(h: seq<Db>, events: seq<Event>, at: nat, sessionId: Id, peer: Id, payload: nat, began: nat)
    requires ValidRun(h, events) && began <= at + 1 && at < |h|
    requires IsActive(At(h, at), sessionId) && ConnectionOn(At(h, at), sessionId, peer)
    ensures Grounded(h, events, Post(peer, SessionFrame(sessionId, payload, began))) && peer != ABSENT
  {
    hide ValidRun, IsActive, PointersLive, Disjoint;
    RoutesAreConsistent(h, events, at);
    assert Routed(At(h, at), sessionId);
    assert Grounds(h, events, Post(peer, SessionFrame(sessionId, payload, began)), at);
  }

  lemma OpenedGrounds(h: seq<Db>, events: seq<Event>, at: nat, s: Session, connectionId: Id, peer: Id)
    requires Opened(h, events, at, s) && Announces(s, connectionId, s.sessionId, s.linkId, peer)
    ensures Grounded(h, events, Post(connectionId, SessionOpened(s.sessionId, s.linkId, peer)))
  {
    hide Opened, Announces;
    assert Grounds(h, events, Post(connectionId, SessionOpened(s.sessionId, s.linkId, peer)), at);
  }

  /** The note that a commit's own side gets of an activated pair. */
  function CompletedNote(pairId: Id, c: PairCommit): Post {
    Post(c.connectionId, PairCompleted(pairId, c.linkId, c.peer.endpointId))
  }

  lemma CompletedGrounds(h: seq<Db>, events: seq<Event>, at: nat, pair: Pair, pairId: Id, slot: Slot, c: PairCommit)
    requires at < |h| && Lookup(At(h, at).pairs, pairId) == Some(pair) && pair.status == PairActive
    requires Commit(pair, slot) == Some(c)
    ensures Grounded(h, events, CompletedNote(pairId, c))
  {
    assert CommitIs(At(h, at).pairs[pairId], slot, c.connectionId, c.linkId, c.peer.endpointId);
    hide CommitIs;
    assert Grounds(h, events, CompletedNote(pairId, c), at);
  }

  lemma RevokedGrounds(h: seq<Db>, events: seq<Event>, i: nat, at: nat, link: Link, endpointId: Id, connectionId: Id)
    requires ValidRun(h, events) && i <= at < |h| && Lookup(At(h, i).links, link.linkId) == Some(link)
    requires link.status == LinkRevoked && OnLink(link, endpointId) && Up(At(h, at), endpointId, connectionId)
    ensures Grounded(h, events, Post(connectionId, LinkRevokedNote(link.linkId)))
  {
    hide ValidRun, OnLink, Up, IsActive, UsesLink;
    LinkRevocationIsPermanent(h, events, i, at, link.linkId);
    assert Grounds(h, events, Post(connectionId, LinkRevokedNote(link.linkId)), at);
  }

  // ----- the decisions

  /** The other side of a pair, ABSENT while nobody has joined. */
  function PeerConnection(pair: Pair, connectionId: Id): (r: Result<Id>)
    ensures connectionId != ABSENT ==> (r.Ok? <==> IsMember(pair, connectionId))
    ensures r.Ok? && r.value != ABSENT ==> IsMember(pair, r.value)
    ensures r.Ok? && pair.sideB.Some? ==>
              {connectionId, r.value} == {pair.sideA.connectionId, pair.sideB.value.connectionId}
    ensures r.Ok? && pair.sideB.None? ==> connectionId == pair.sideA.connectionId && r.value == ABSENT
  {
    if pair.sideA.connectionId == connectionId then Ok(if pair.sideB.None? then ABSENT
                                                       else pair.sideB.value.connectionId)
    else if pair.sideB.Some? && pair.sideB.value.connectionId == connectionId then Ok(pair.sideA.connectionId)
    else Err(Forbidden, false)
  }

  function SessionPeer(session: Session, connectionId: Id): (r: Result<Id>)
    ensures r.Ok? <==> OnConnectionOf(session, connectionId)
    ensures r.Ok? && session.controllerConnectionId != session.companionConnectionId ==>
              {connectionId, r.value} == {session.controllerConnectionId, session.companionConnectionId}
  {
    if session.controllerConnectionId == connectionId then Ok(session.companionConnectionId)
    else if session.companionConnectionId == connectionId then Ok(session.controllerConnectionId)
    else Err(Forbidden, false)
  }

  // ----- what the methods below rest on

  lemma ClockIsPositive(h: seq<Db>, events: seq<Event>)
    requires ValidRun(h, events)
    ensures 0 < |h| && 0 < Last(h).now
  {
    hide ValidRun, PairInv, LogInv, QuotaInv;
    RunSize(h, events);
    TableIsSound(h, events, |h| - 1);
  }

  /** A connection that was assigned to a pair is a member of it for as long as it is stored, so a cancel on
      its behalf is never forbidden. */
  lemma MemberIsHeard(h: seq<Db>, events: seq<Event>, readAt: nat, at: nat, connectionId: Id, pairId: Id)
    requires ValidRun(h, events) && readAt < |h| && at < |h| && AssignedTo(At(h, readAt), connectionId, pairId)
    ensures readAt <= at && PairRead(At(h, at), pairId) ==> HasMember(At(h, at), pairId, connectionId)
    ensures OutOfTime(At(h, at), pairId, 0) || PairRead(At(h, at), pairId)
  {
    hide ValidRun, RouteInv, PairInv, LogInv, QuotaInv, AssignedTo, Shape, FromSide;
    TableIsSound(h, events, at);
    StoredIsPairRead(At(h, at), pairId);
    if readAt <= at { MembersStayMembers(h, events, readAt, at, connectionId, pairId); }
  }

  lemma StoredIsPairRead(db: Db, pairId: Id)
    requires PairInv(db)
    ensures OutOfTime(db, pairId, 0) || PairRead(db, pairId)
  {
    if pairId in db.pairs { assert PairOk(db, pairId); }
  }

  const SESSION_FRAMES_PER_MINUTE := 3_600
  const PAIR_FRAMES_PER_MINUTE := 120
  const SESSION_FRAME: nat := 0
  const PAIR_FRAME: nat := 1

  /** The session is ACTIVE, the sender is on it, and the peer is on its other end. */
  predicate FrameTo(db: Db, sessionId: Id, sender: Id, peer: Id) {
    && sessionId in db.sessions && db.sessions[sessionId].status == SessionActive
    && var s := db.sessions[sessionId];
    || (sender == s.controllerConnectionId && peer == s.companionConnectionId)
    || (sender == s.companionConnectionId && peer == s.controllerConnectionId)
  }

  /** The pair is between join and activation, and sender and peer are its two sides. */
  predicate PairFrameTo(db: Db, pairId: Id, sender: Id, peer: Id) {
    && Forming(db, pairId) && HasMember(db, pairId, sender) && HasMember(db, pairId, peer)
    && PeerConnection(db.pairs[pairId], sender) == Ok(peer)
  }

  /** The sender was an endpoint's unexpired connection on a table of the call, and a step of the call charged that
      endpoint for a frame, of which it has 3600 a minute. */
  ghost predicate SenderCharged(h: seq<Db>, events: seq<Event>, from: nat, sender: Id, now: int) {
    exists i: nat, k: nat ::
      && from <= i <= k && AnyInTime(Lookup(At(h, i).connections, sender), now)
      && var endpointId := At(h, i).connections[sender].endpointId;
      && endpointId != ABSENT
      && ChargesFor(StepAt(events, k), RateKey(FromSource(endpointId), OtherAction(SESSION_FRAME), now / 60), 3_600)
  }

  /** Likewise a step of the call charged the source, which has 120 pairing frames a minute. */
  ghost predicate SourceCharged(events: seq<Event>, from: nat, sourceKey: Id, now: int) {
    exists k: nat ::
      from <= k && ChargesFor(StepAt(events, k), RateKey(FromSource(sourceKey), OtherAction(PAIR_FRAME), now / 60), 120)
  }

  lemma SenderStaysCharged(h: seq<Db>, events: seq<Event>, longer: seq<Db>, more: seq<Event>, from: nat, sender: Id,
                           now: int)
    requires RunOn(h, events, longer, more) && SenderCharged(h, events, from, sender, now)
    ensures SenderCharged(longer, more, from, sender, now)
  {
    hide ValidRun;
    SameTables(h, events, longer, more);
    hide RunOn, At, StepAt;
    var i: nat, k: nat :|
      && from <= i <= k && AnyInTime(Lookup(At(h, i).connections, sender), now)
      && var endpointId := At(h, i).connections[sender].endpointId;
      && endpointId != ABSENT
      && ChargesFor(StepAt(events, k), RateKey(FromSource(endpointId), OtherAction(SESSION_FRAME), now / 60), 3_600);
    assert At(longer, i) == At(h, i) && StepAt(more, k) == StepAt(events, k);
  }

  lemma SourceStaysCharged(h: seq<Db>, events: seq<Event>, longer: seq<Db>, more: seq<Event>, from: nat,
                           sourceKey: Id, now: int)
    requires RunOn(h, events, longer, more) && SourceCharged(events, from, sourceKey, now)
    ensures SourceCharged(more, from, sourceKey, now)
  {
    hide ValidRun;
    SameTables(h, events, longer, more);
  }

  /** Why a table alone does not take a session frame from the sender. */
  function SenderAlone(db: Db, sender: Id): Option<Denial> {
    if !AnyInTime(Lookup(db.connections, sender), db.now) then Some(Denial(Unauthenticated, false))
    else if db.connections[sender].endpointId == ABSENT then Some(Denial(Forbidden, false))
    else if UsedUp(db, MinuteKey(db.connections[sender].endpointId, SESSION_FRAME, db.now), 3_600)
    then Some(Denial(RateLimited, true))
    else None
  }

  /** Why it does not pass on a session frame, None where the frame is handed to the gateway. */
  ghost function FrameAlone(db: Db, sender: Id, sessionId: Id): Option<Denial> {
    if SenderAlone(db, sender).Some? then SenderAlone(db, sender)
    else if !LiveSession(db, sessionId, db.now) then Some(Denial(SessionNotFound, false))
    else if !OnConnectionOf(db.sessions[sessionId], sender) then Some(Denial(Forbidden, false))
    else None
  }

  /** A stored connection is an endpoint's exactly when it names one. */
  lemma EndpointsOwnTheirs(h: seq<Db>, events: seq<Event>, at: nat, connectionId: Id)
    requires ValidRun(h, events) && at < |h| && connectionId in At(h, at).connections
    ensures At(h, at).connections[connectionId].authMode == PairingAuth
            <==> At(h, at).connections[connectionId].endpointId == ABSENT
  {
    hide ValidRun, PairInv, LogInv, QuotaInv;
    TableIsSound(h, events, at);
    assert ConnectionOk(At(h, at), connectionId);
  }

  ghost function PairFrameAlone(db: Db, sender: Id, sourceKey: Id, pairId: Id): Option<Denial> {
    if UsedUp(db, MinuteKey(sourceKey, PAIR_FRAME, db.now), 120) then Some(Denial(RateLimited, true))
    else if OutOfTime(db, pairId, db.now) then Some(Denial(PairExpired, false))
    else if db.pairs[pairId].pairId != pairId || !Forming(db, pairId) then Some(Denial(PairUnavailable, false))
    else if !IsMember(db.pairs[pairId], sender) then Some(Denial(Forbidden, false))
    else if PeerConnection(db.pairs[pairId], sender) == Ok(ABSENT) then Some(Denial(PeerOffline, true))
    else None
  }

  /** One of the first `n` steps closed the session. */
  ghost predicate WasClosed(h: seq<Db>, events: seq<Event>, n: nat, sessionId: Id) {
    exists k: nat :: k < n && ClosedBy(h, events, k, sessionId)
  }

  /** A session that some step has closed is never read ACTIVE after it. */
  lemma NoFrameAfterClose(h: seq<Db>, events: seq<Event>, n: nat, at: nat, sessionId: Id)
    requires ValidRun(h, events) && n <= at < |h| && WasClosed(h, events, n, sessionId)
    ensures !IsActive(At(h, at), sessionId)
  {
    hide ValidRun, ClosedBy, IsActive;
    var k: nat :| k < n && ClosedBy(h, events, k, sessionId);
    ClosingStays(h, events, k, at, sessionId);
  }

  /** A step that opened a session, for as long as the run goes on. */
  lemma OpenedStays(h: seq<Db>, events: seq<Event>, longer: seq<Db>, more: seq<Event>, at: nat, s: Session)
    requires RunOn(h, events, longer, more) && Opened(h, events, at, s)
    ensures Opened(longer, more, at, s)
  {
    hide At, StepAt, Upto, CanOpen, SpecOpen, RunOn;
    SameTables(h, events, longer, more);
  }

  lemma OpenedIsStored(h: seq<Db>, events: seq<Event>, at: nat, s: Session)
    requires Opened(h, events, at, s)
    ensures at < |events|
    ensures IsActive(At(h, at + 1), s.sessionId) && Lookup(At(h, at + 1).sessions, s.sessionId) == Some(s)
  {
    hide Idle;
  }

  /** Both ends, but for the one to be skipped, have been addressed with the closing of the session. */
  ghost predicate EndsAddressed(before: seq<Post>, after: seq<Post>, session: Session, reason: Reason, skip: Id) {
    forall c :: c in [session.controllerConnectionId, session.companionConnectionId] && c != skip ==>
      Addressed(before, after, Post(c, SessionClosedNote(session.sessionId, reason)))
  }

  /** The other end of the link, if it was up on the table, has been addressed. */
  ghost predicate PeerAddressed(before: seq<Post>, after: seq<Post>, db: Db, link: Link, endpointId: Id) {
    var peer := if link.controllerId == endpointId then link.companionId else link.controllerId;
    forall c :: Up(db, peer, c) ==> Addressed(before, after, Post(c, LinkRevokedNote(link.linkId)))
  }

  /** Each side that has committed has been told of the activated pair. */
  ghost predicate SideAddressed(before: seq<Post>, after: seq<Post>, pair: Pair, pairId: Id, slot: Slot) {
    match Commit(pair, slot)
    case Some(c) => Addressed(before, after, CompletedNote(pairId, c))
    case None => true
  }

  ghost predicate SidesAddressed(before: seq<Post>, after: seq<Post>, db: Db, pairId: Id) {
    pairId in db.pairs && forall slot :: SideAddressed(before, after, db.pairs[pairId], pairId, slot)
  }

  /** What has been addressed stays so; what is addressed later is addressed. */
  lemma AddressedStays(start: seq<Post>, before: seq<Post>, after: seq<Post>)
    requires Prefix(start, before) && Prefix(before, after)
    ensures forall p :: Addressed(start, before, p) || Addressed(before, after, p) ==> Addressed(start, after, p)
  {
  }

  lemma EndsStayAddressed(start: seq<Post>, before: seq<Post>, after: seq<Post>, session: Session, reason: Reason)
    requires Prefix(start, before) && Prefix(before, after) && EndsAddressed(start, before, session, reason, ABSENT)
    ensures EndsAddressed(start, after, session, reason, ABSENT)
  {
    AddressedStays(start, before, after);
    hide Addressed;
  }

  lemma PeerStaysAddressed(start: seq<Post>, before: seq<Post>, after: seq<Post>, db: Db, link: Link, endpointId: Id)
    requires Prefix(start, before) && Prefix(before, after)
    ensures PeerAddressed(before, after, db, link, endpointId) ==> PeerAddressed(start, after, db, link, endpointId)
  {
    AddressedStays(start, before, after);
    hide Addressed;
  }

  lemma PrefixKeeps(a: seq<Post>, b: seq<Post>, p: Post)
    requires Prefix(a, b) && p in a
    ensures p in b
  {
  }

  /** A session that a close reported is over for good. */
  lemma ReportedIsOver(h: seq<Db>, events: seq<Event>, at: nat, result: CloseResult)
    requires ValidRun(h, events) && Reports(h, events, at, Some(result)) && result.closedNow
    ensures !IsActive(Last(h), result.session.sessionId)
  {
    hide ValidRun, ClosedBy, IsActive;
    RunSize(h, events);
    ClosingStays(h, events, at, |h| - 1, result.session.sessionId);
  }

  // ----- what a clean-up is for

  /** Some table of a call that began with `from` tables does not store the connection. */
  ghost predicate RecordGone(h: seq<Db>, from: nat, connectionId: Id) {
    exists k: nat :: from <= k + 1 && k < |h| && connectionId !in At(h, k).connections
  }

  /** The other side of the pair, as some table of the call held it, has been addressed with its closing. */
  ghost predicate OtherSideTold(a: Point, b: Point, at: nat, pairId: Id, connectionId: Id, reason: Reason) {
    exists k: nat, pair: Pair ::
      && |a.tables| <= k + 1 && k <= at && SameSides(At(b.tables, k), pairId, pair)
      && PeerConnection(pair, connectionId).Ok?
      && Addressed(a.tried, b.tried, Post(PeerConnection(pair, connectionId).value, PairClosedNote(pairId, reason)))
  }

  /** On a table of the call the pair is over, one way or another; if it is CLOSED and that is called for, its other
      side has been told. */
  ghost predicate PairSettled(a: Point, b: Point, pairId: Id, connectionId: Id, reason: Reason, sendPairEvent: bool) {
    exists at: nat ::
      && |a.tables| <= at + 1 && at < |b.tables|
      && (|| OutOfTime(At(b.tables, at), pairId, Last(b.tables).now)
          || InStatus(At(b.tables, at), pairId, PairActive)
          || (InStatus(At(b.tables, at), pairId, PairClosed)
              && (sendPairEvent ==> OtherSideTold(a, b, at, pairId, connectionId, reason))))
  }

  /** What a clean-up has done: if its own step took the record, then the session that this step closed is announced to
      its other end, and the pair that the record was read in is settled. */
  ghost predicate CleanedUp(a: Point, b: Point, at: nat, result: DisconnectResult, connectionId: Id, reason: Reason,
                            sendPairEvent: bool)
  {
    && |a.events| <= at < |b.events| && Disconnects(StepAt(b.events, at), connectionId)
    && DropsRecord(At(b.tables, at), At(b.tables, at + 1), connectionId)
    && Reports(b.tables, b.events, at, result.session)
    && (result.session.Some? && result.session.value.closedNow ==>
          EndsAddressed(a.tried, b.tried, result.session.value.session, reason, connectionId))
    && (exists k: nat :: |a.tables| <= k + 1 && k <= at
                         && Lookup(At(b.tables, k).connections, connectionId) == Some(result.connection))
    && (result.connection.pairingId != ABSENT ==>
          PairSettled(a, b, result.connection.pairingId, connectionId, reason, sendPairEvent))
  }

  function NotTold(delivered: Ended<bool>): Ended<()> {
    match delivered
    case Dies => Dies
    case Replies(Ok(_)) => Replies(Err(PeerOffline, true))
    case Replies(Err(code, retryable)) => Replies(Err(code, retryable))
  }

  /** How far an invocation has got: the run, what it has handed to the gateway and what was delivered, and
      how many more clean-ups it has time for. */
  datatype Point = Point(tables: seq<Db>, events: seq<Event>, tried: seq<Post>, posted: seq<Post>, cleanups: nat)

  /** The run and the posts have gone on. */
  ghost predicate Onto(a: Point, b: Point) {
    && RunOn(a.tables, a.events, b.tables, b.events) && Prefix(a.tried, b.tried) && Prefix(a.posted, b.posted)
    && b.cleanups <= a.cleanups
  }

  /** And if nobody connected on the way, then of the clean-ups spent all but `k` are paid for by the connection
      records that went, at three each. */
  ghost predicate Went(a: Point, b: Point, k: int) {
    Onto(a, b) && Pays(a.tables, a.events, b.tables, b.events, a.cleanups - b.cleanups - k)
  }

  lemma WentNowhere(a: Point, k: nat)
    requires ValidRun(a.tables, a.events)
    ensures Went(a, a, k)
  {
    hide ValidRun;
  }

  lemma WentOn(a: Point, b: Point, c: Point, j: int, k: int, l: int)
    requires Went(a, b, j) && Went(b, c, k) && j + k <= l
    ensures Went(a, c, l)
  {
    hide ValidRun, Pays;
    PaysOn(a.tables, a.events, b.tables, b.events, c.tables, c.events, a.cleanups - b.cleanups - j,
           b.cleanups - c.cleanups - k, a.cleanups - c.cleanups - l);
  }

  /** Nobody connected on the way, and there was time for three clean-ups for each record, and `k` more. */
  ghost predicate LastsOut(a: Point, b: Point, k: int) {
    NoConnects(b.events, |a.events|) && 3 * |Last(a.tables).connections| + k < a.cleanups
  }

  /** The stretch from `m` to `b` is part of that from `a` to `c`. */
  ghost predicate Within(a: Point, m: Point, b: Point, c: Point) { Onto(a, m) && Onto(m, b) && Onto(b, c) }

  /** A table without the connection is one for as long as the run goes on. */
  lemma StaysGone(h: seq<Db>, events: seq<Event>, longer: seq<Db>, more: seq<Event>, from: nat, connectionId: Id)
    requires RunOn(h, events, longer, more) && RecordGone(h, from, connectionId)
    ensures RecordGone(longer, from, connectionId)
  {
    hide ValidRun;
    var k: nat :| from <= k + 1 && k < |h| && connectionId !in At(h, k).connections;
    assert At(longer, k) == At(h, k);
  }

  lemma GoneSince(h: seq<Db>, later: nat, from: nat, connectionId: Id)
    requires RecordGone(h, later, connectionId) && from <= later
    ensures RecordGone(h, from, connectionId)
  {
  }

  /** What was addressed on a stretch of the call was so on all of it. */
  lemma AddressedWithin(a: Point, m: Point, b: Point, c: Point)
    requires Within(a, m, b, c)
    ensures forall p :: Addressed(m.tried, b.tried, p) ==> Addressed(a.tried, c.tried, p)
  {
    hide RunOn;
    AddressedStays(a.tried, m.tried, b.tried);
    AddressedStays(a.tried, b.tried, c.tried);
  }

  lemma ToldWithin(a: Point, m: Point, b: Point, c: Point, at: nat, pairId: Id, connectionId: Id, reason: Reason)
    requires Within(a, m, b, c) && at < |b.tables| && OtherSideTold(m, b, at, pairId, connectionId, reason)
    ensures OtherSideTold(a, c, at, pairId, connectionId, reason)
  {
    hide ValidRun, PeerConnection, SameSides, Addressed;
    var i: nat, pair: Pair :| |m.tables| <= i + 1 && i <= at && SameSides(At(b.tables, i), pairId, pair)
        && PeerConnection(pair, connectionId).Ok?
        && Addressed(m.tried, b.tried, Post(PeerConnection(pair, connectionId).value, PairClosedNote(pairId, reason)));
    AddressedWithin(a, m, b, c);
    assert At(c.tables, i) == At(b.tables, i);
  }

  lemma SettledWithin(a: Point, m: Point, b: Point, c: Point, pairId: Id, connectionId: Id, reason: Reason,
                      sendPairEvent: bool)
    requires Within(a, m, b, c) && PairSettled(m, b, pairId, connectionId, reason, sendPairEvent)
    ensures PairSettled(a, c, pairId, connectionId, reason, sendPairEvent)
  {
    hide ValidRun, OtherSideTold, InStatus;
    var at: nat :|
      && |m.tables| <= at + 1 && at < |b.tables|
      && (|| OutOfTime(At(b.tables, at), pairId, Last(b.tables).now)
          || InStatus(At(b.tables, at), pairId, PairActive)
          || (InStatus(At(b.tables, at), pairId, PairClosed)
              && (sendPairEvent ==> OtherSideTold(m, b, at, pairId, connectionId, reason))));
    if sendPairEvent && OtherSideTold(m, b, at, pairId, connectionId, reason) {
      ToldWithin(a, m, b, c, at, pairId, connectionId, reason);
    }
    ClockGoesOn(b.tables, b.events, c.tables, c.events);
    assert At(c.tables, at) == At(b.tables, at);
  }

  /** A cancel on behalf of a connection assigned to the pair is heard: the pair is over, or it is returned CLOSED with
      the connection on one of its sides. */
  lemma HeardOrOver(a: Point, b: Point, readAt: nat, at: nat, connectionId: Id, pairId: Id, r: Result<Option<Pair>>,
                    reason: Reason, sendPairEvent: bool)
    requires Onto(a, b) && connectionId != ABSENT
    requires readAt < |a.tables| && AssignedTo(At(a.tables, readAt), connectionId, pairId)
    requires CancelAnswer(b.tables, |a.tables|, r, at, pairId, connectionId, Last(a.tables).now)
    ensures r.Err? && r.code != Conflict ==> r.retryable && r.code == Internal
    ensures r.Ok? && r.value.Some? ==>
              && r.value.value.status == PairClosed && IsMember(r.value.value, connectionId)
              && at < |b.tables| && InStatus(At(b.tables, at), pairId, PairClosed)
              && (exists k: nat :: |a.tables| <= k + 1 && k <= at && SameSides(At(b.tables, k), pairId, r.value.value))
    ensures !(r.Err? && r.code != Conflict) && !(r.Ok? && r.value.Some? && sendPairEvent) ==>
              PairSettled(a, b, pairId, connectionId, reason, sendPairEvent)
  {
    hide ValidRun, AssignedTo, InStatus, OtherSideTold;
    RunSize(a.tables, a.events);
    ClockIsPositive(a.tables, a.events);
    MemberIsHeard(b.tables, b.events, readAt, at, connectionId, pairId);
    ClockGoesOn(a.tables, a.events, b.tables, b.events);
  }

  lemma OtherIsTold(a: Point, m: Point, b: Point, at: nat, pairId: Id, pair: Pair, connectionId: Id, reason: Reason,
                    sendPairEvent: bool)
    requires Onto(a, m) && Onto(m, b) && a.tried == m.tried && |a.tables| <= at + 1 && at < |m.tables|
    requires InStatus(At(m.tables, at), pairId, PairClosed) && PeerConnection(pair, connectionId).Ok?
    requires exists k: nat :: |a.tables| <= k + 1 && k <= at && SameSides(At(m.tables, k), pairId, pair)
    requires Addressed(m.tried, b.tried, Post(PeerConnection(pair, connectionId).value, PairClosedNote(pairId, reason)))
    ensures PairSettled(a, b, pairId, connectionId, reason, sendPairEvent)
  {
    hide ValidRun, PeerConnection, SameSides, Addressed, InStatus;
    var k: nat :| |a.tables| <= k + 1 && k <= at && SameSides(At(m.tables, k), pairId, pair);
    assert At(b.tables, k) == At(m.tables, k) && At(b.tables, at) == At(m.tables, at);
    assert OtherSideTold(a, b, at, pairId, connectionId, reason);
  }

  lemma GoneBy(a: Point, b: Point, r: Result<Option<DisconnectResult>>, at: nat, readAt: nat, connectionId: Id)
    requires Onto(a, b) && DisconnectAnswer(b.tables, b.events, |a.events|, r, at, readAt, connectionId) && r.Ok?
    ensures RecordGone(b.tables, |a.tables|, connectionId)
  {
    hide ValidRun, Reports;
    RunSize(a.tables, a.events);
    RunSize(b.tables, b.events);
    var k := if r.value.Some? then at + 1 else at;
    assert connectionId !in At(b.tables, k).connections;
  }

  /** The steps of a clean-up, put together: the disconnect up to `m`, the pair from there to `n`, and the session. */
  lemma HasCleanedUp(a: Point, m: Point, n: Point, b: Point, at: nat, readAt: nat, result: DisconnectResult,
                     connectionId: Id, reason: Reason, sendPairEvent: bool)
    requires Onto(a, m) && Onto(m, n) && Onto(n, b) && RecordGone(m.tables, |a.tables|, connectionId)
    requires DisconnectAnswer(m.tables, m.events, |a.events|, Ok(Some(result)), at, readAt, connectionId)
    requires result.connection.pairingId != ABSENT ==>
               PairSettled(m, n, result.connection.pairingId, connectionId, reason, sendPairEvent)
    requires result.session.Some? && result.session.value.closedNow ==>
               EndsAddressed(n.tried, b.tried, result.session.value.session, reason, connectionId)
    ensures RecordGone(b.tables, |a.tables|, connectionId)
    ensures CleanedUp(a, b, at, result, connectionId, reason, sendPairEvent)
  {
    hide ValidRun, Reports, DropsRecord, RecordGone, PairSettled, Addressed;
    OntoIsTransitive(a, m, n);
    OntoIsTransitive(a, n, b);
    OntoIsTransitive(m, n, b);
    OntoIsReflexive(b);
    StaysGone(m.tables, m.events, b.tables, b.events, |a.tables|, connectionId);
    AddressedWithin(a, n, b, b);
    ReportsStay(m.tables, m.events, b.tables, b.events, at, result.session);
    SameTables(m.tables, m.events, b.tables, b.events);
    RunSize(a.tables, a.events);
    if result.connection.pairingId != ABSENT {
      SettledWithin(a, m, n, b, result.connection.pairingId, connectionId, reason, sendPairEvent);
    }
  }

  lemma OntoIsTransitive(a: Point, m: Point, b: Point)
    requires Onto(a, m) && Onto(m, b)
    ensures Onto(a, b)
  {
    hide ValidRun;
  }

  lemma OntoIsReflexive(a: Point)
    requires ValidRun(a.tables, a.events)
    ensures Onto(a, a)
  {
    hide ValidRun;
  }

  lemma ClockGoesOn(h: seq<Db>, events: seq<Event>, longer: seq<Db>, more: seq<Event>)
    requires RunOn(h, events, longer, more)
    ensures Last(h).now <= Last(longer).now
  {
    hide ValidRun, Inv, PairEvolves;
    RunSize(h, events);
    RunSize(longer, more);
    TablesEvolve(longer, more, |h| - 1, |longer| - 1);
  }

  class Handler {
    const store: Store
    /** Every message handed to the gateway so far, and every message delivered. */
    var tried: seq<Post>
    var posted: seq<Post>
    /** How many more clean-ups the invocation has time for. */
    var cleanups: nat

    /** Every message ever delivered had its reason in the run. */
    ghost predicate Valid()
      reads this, store
    {
      store.Valid() && AllGrounded(store.tables, store.events, posted)
    }

    ghost function Now(): Point
      reads this, store
    {
      Point(store.tables, store.events, tried, posted, cleanups)
    }

    /** An operation of the store keeps the grounds of all posts, and spends nothing. */
    lemma StoreWent(a: Point)
      requires ValidRun(a.tables, a.events) && AllGrounded(a.tables, a.events, a.posted)
      requires store.Extends(a.tables, a.events)
      requires a.tried == tried && a.posted == posted && a.cleanups == cleanups
      ensures Valid() && Went(a, Now(), 0)
    {
      hide ValidRun, Grounded, NoConnects;
      GroundsStay(a.tables, a.events, store.tables, store.events, posted);
      RunPays(a.tables, a.events, store.tables, store.events);
    }

    function ReadClock(): int
      reads store
    {
      Last(store.tables).now
    }

    constructor (store: Store, cleanups: nat)
      requires store.Valid()
      ensures Valid() && this.store == store && tried == posted == [] && this.cleanups == cleanups
    {
      this.store := store;
      this.cleanups := cleanups;
      tried, posted := [], [];
    }

    /** The connection may take the message, be gone, or fail to answer. */
    method PostMessage(connectionId: Id, message: Message) returns (r: PostResult)
      requires Valid() && Grounded(store.tables, store.events, Post(connectionId, message))
      modifies this
      ensures Valid() && cleanups == old(cleanups)
      ensures tried == old(tried) + [Post(connectionId, message)]
      ensures posted == if r.Delivered? then old(posted) + [Post(connectionId, message)] else old(posted)
    {
      hide ValidRun, Grounded;
      tried := tried + [Post(connectionId, message)];
      var taken: bool := *;
      var answered: bool := *;
      if taken {
        posted := posted + [Post(connectionId, message)];
        return Delivered;
      }
      return if answered then Gone else Failed;
    }

    /** Post; a connection that turns out to be gone is cleaned up. */
    method Notify(connectionId: Id, message: Message, sendPairEvent: bool) returns (r: Ended<bool>)
      requires Valid()
      requires connectionId != ABSENT ==> Grounded(store.tables, store.events, Post(connectionId, message))
      modifies this, store
      ensures Valid() && Went(old(Now()), Now(), 1)
      ensures r.Dies? ==> cleanups == 0
      ensures NotesBut(old(posted), posted, Post(connectionId, message))
      ensures Addressed(old(tried), tried, Post(connectionId, message))
      ensures r == Replies(Ok(true)) ==> Post(connectionId, message) in posted && connectionId != ABSENT
      ensures r.Replies? && r.result.Err? ==> r.result.retryable && r.result.code in {Conflict, Internal}
      ensures connectionId != ABSENT && r == Replies(Ok(false)) ==>
                RecordGone(store.tables, |old(store.tables)|, connectionId)
      decreases cleanups, 2
    {
      hide ValidRun, Grounded, NoConnects, RecordGone;
      if connectionId == ABSENT {
        return Replies(Ok(false));
      }
      var result := PostMessage(connectionId, message);
      assert tried[|old(tried)|] == Post(connectionId, message);
      match result {
        case Delivered =>
          return Replies(Ok(true));
        case Failed =>
          return Replies(Err(Internal, true));
        case Gone =>
          var cleaned, _, _ := Cleanup(connectionId, PeerDisconnected, sendPairEvent);
          return if cleaned.Dies? then Dies
              else if cleaned.result.Err? then Replies(Err(cleaned.result.code, cleaned.result.retryable))
              else Replies(Ok(false));
      }
    }

    /** Disconnect a connection that is gone, and tell whoever was on the other end. */
    method Cleanup(connectionId: Id, reason: Reason, sendPairEvent: bool)
        returns (r: Ended<()>, ghost dropped: Option<DisconnectResult>, ghost at: nat)
      requires Valid() && connectionId != ABSENT
      modifies this, store
      ensures Valid() && Went(old(Now()), Now(), 1)
      ensures r.Dies? ==> cleanups == 0
      ensures LastsOut(old(Now()), Now(), 1) ==> r.Replies?
      ensures Notes(old(posted), posted)
      ensures r.Replies? && r.result.Err? ==> r.result.retryable && r.result.code in {Conflict, Internal}
      ensures r.Fine() ==> RecordGone(store.tables, |old(store.tables)|, connectionId)
      ensures dropped.None? ==> store.mine == old(store.mine)
      ensures r.Fine() && dropped.Some? ==>
                CleanedUp(old(Now()), Now(), at, dropped.value, connectionId, reason, sendPairEvent)
      decreases cleanups, 1
    {
      hide ValidRun, AllGrounded, Reports, DropsRecord, EndsAddressed, NoConnects, RunOn, RecordGone, CleanedUp,
           PairSettled;
      ghost var start := Now();
      WentNowhere(start, 0);
      at, dropped := 0, None;
      if cleanups == 0 {
        return Dies, dropped, at;
      }
      cleanups := cleanups - 1;
      ghost var m := Now();
      var found, k, readAt := store.Disconnect(connectionId, ReadClock());
      StoreWent(m);
      at := k;
      if found.Err? {
        return Replies(Err(found.code, found.retryable)), dropped, at;
      }
      GoneBy(start, Now(), found, at, readAt, connectionId);
      if found.value.None? {
        return Replies(Ok(())), dropped, at;
      }
      var result := found.value.value;
      dropped := found.value;
      ghost var m1 := Now();
      OntoIsReflexive(m1);
      DropPays(m.tables, m.events, m1.tables, m1.events, at, connectionId);
      if result.connection.pairingId != ABSENT {
        var told := CancelFor(result.connection.pairingId, connectionId, reason, sendPairEvent, readAt);
        WentOn(m, m1, Now(), -3, 1, -2);
        ReportsStay(m1.tables, m1.events, store.tables, store.events, at, result.session);
        if !told.Fine() {
          return told, dropped, at;
        }
      }
      ghost var m2 := Now();
      r := NotifyClosedSession(result.session, reason, connectionId, at);
      WentOn(m, m2, Now(), -2, 2, 0);
      if r.Fine() {
        HasCleanedUp(start, m1, m2, Now(), at, readAt, result, connectionId, reason, sendPairEvent);
      }
    }

    /** Close the pair that a gone connection was in, and tell the other side where that is called for. */
    method CancelFor(pairId: Id, connectionId: Id, reason: Reason, sendPairEvent: bool, ghost readAt: nat)
        returns (r: Ended<()>)
      requires Valid() && connectionId != ABSENT
      requires readAt < |store.tables| && AssignedTo(At(store.tables, readAt), connectionId, pairId)
      modifies this, store
      ensures Valid() && Went(old(Now()), Now(), 1)
      ensures r.Dies? ==> cleanups == 0
      ensures Notes(old(posted), posted)
      ensures r.Replies? && r.result.Err? ==> r.result.retryable && r.result.code in {Conflict, Internal}
      ensures r.Fine() ==> PairSettled(old(Now()), Now(), pairId, connectionId, reason, sendPairEvent)
      decreases cleanups, 4
    {
      hide ValidRun, AllGrounded, AssignedTo, NoConnects, RunOn, PairSettled, CancelAnswer;
      ghost var m := Now();
      ClockIsPositive(m.tables, m.events);
      var pair, at := store.CancelPair(pairId, connectionId, ReadClock());
      StoreWent(m);
      HeardOrOver(m, Now(), readAt, at, connectionId, pairId, pair, reason, sendPairEvent);
      if pair.Err? && pair.code != Conflict {
        return Replies(Err(pair.code, pair.retryable));
      }
      if sendPairEvent && pair.Ok? && pair.value.Some? && pair.value.value.status == PairClosed {
        var peer := PeerConnection(pair.value.value, connectionId);
        if peer.Err? {
          assert false;
        }
        if peer.value != ABSENT {
          PairClosedGrounds(store.tables, store.events, at, pairId, pair.value.value, peer.value, reason);
        }
        ghost var m1 := Now();
        var sent := Notify(peer.value, PairClosedNote(pairId, reason), false);
        WentOn(m, m1, Now(), 0, 1, 1);
        if !sent.Fine() {
          return if sent.Dies? then Dies else Replies(Err(sent.result.code, sent.result.retryable));
        }
        OtherIsTold(m, m1, Now(), at, pairId, pair.value.value, connectionId, reason, sendPairEvent);
      }
      return Replies(Ok(()));
    }

    /** Tell both ends of a session that step `at` closed, but for the one to be skipped. */
    method NotifyClosedSession(result: Option<CloseResult>, reason: Reason, skip: Id, ghost at: nat)
        returns (r: Ended<()>)
      requires Valid() && Reports(store.tables, store.events, at, result)
      modifies this, store
      ensures Valid() && Went(old(Now()), Now(), 2)
      ensures r.Dies? ==> cleanups == 0
      ensures Notes(old(posted), posted)
      ensures r.Fine() && result.Some? && result.value.closedNow ==>
                EndsAddressed(old(tried), tried, result.value.session, reason, skip)
      ensures !(result.Some? && result.value.closedNow) ==> store.tables == old(store.tables)
      ensures r.Replies? && r.result.Err? ==> r.result.retryable && r.result.code in {Conflict, Internal}
      decreases cleanups, 3
    {
      hide ValidRun, Grounded, Reports, NoConnects, RunOn;
      ghost var m := Now();
      WentNowhere(m, 0);
      if result.None? || !result.value.closedNow {
        return Replies(Ok(()));
      }
      var session := result.value.session;
      var message := SessionClosedNote(session.sessionId, reason);
      var targets := [session.controllerConnectionId, session.companionConnectionId];
      for i := 0 to 2
        invariant Valid() && Went(old(Now()), Now(), i)
        invariant Notes(old(posted), posted)
        invariant forall j :: 0 <= j < i && targets[j] != skip ==>
                    Addressed(old(tried), tried, Post(targets[j], message))
      {
        if targets[i] != skip {
          ReportsStay(m.tables, m.events, store.tables, store.events, at, result);
          ClosedGrounds(store.tables, store.events, at, result.value, targets[i], reason);
          ghost var m1 := Now();
          var sent := Notify(targets[i], message, false);
          WentOn(m, m1, Now(), i, 1, i + 1);
          AddressedStays(m.tried, m1.tried, tried);
          if !sent.Fine() {
            return if sent.Dies? then Dies else Replies(Err(sent.result.code, sent.result.retryable));
          }
        }
      }
      return Replies(Ok(()));
    }

    // ----- frames

    /** Whether the sender of a session frame may send one more: its endpoint is charged for it. */
    method AdmitFrame(sender: Id, timestamp: int) returns (r: Result<()>)
      requires Valid() && sender != ABSENT && timestamp == Last(store.tables).now
      modifies store
      ensures Valid() && Went(old(Now()), Now(), 0)
      ensures r.Ok? ==> SenderCharged(store.tables, store.events, |old(store.events)|, sender, timestamp)
      ensures r.Err? ==> r.code != PeerOffline
      ensures store.alone ==>
                && AnswersAs(r, SenderAlone(Last(old(store.tables)), sender))
                && (r.Ok? ==> Last(store.tables) == Last(old(store.tables)).(rates := Last(store.tables).rates))
    {
      hide ValidRun, AllGrounded, Grounded, Pays, UsedUp;
      ghost var m := Now();
      RunSize(m.tables, m.events);
      var connection, i := store.Connection(sender, timestamp);
      StoreWent(m);
      if connection.Err? {
        return Err(connection.code, connection.retryable);
      }
      EndpointsOwnTheirs(store.tables, store.events, i, sender);
      if connection.value.authMode != EndpointAuth || connection.value.endpointId == ABSENT {
        return Err(Forbidden, false);
      }
      ghost var h := store.tables;
      RunSize(store.tables, store.events);
      var limited, k := store.RateLimit(connection.value.endpointId, SESSION_FRAME, SESSION_FRAMES_PER_MINUTE,
                                        timestamp);
      StoreWent(m);
      if limited.Err? {
        return Err(limited.code, limited.retryable);
      }
      assert At(store.tables, i) == At(h, i);
      return Ok(());
    }

    /** A session frame's own way: read, decide, post.  If it is posted it goes to the other side of a session
        that was read ACTIVE and unexpired after the request came in. */
    method PostSessionFrame(sender: Id, sessionId: Id, payload: nat)
        returns (r: Result<(Id, PostResult)>, ghost at: nat)
      requires Valid() && sender != ABSENT && sessionId != ABSENT
      modifies this, store
      ensures Valid() && Went(old(Now()), Now(), 0)
      ensures r.Ok? ==> |old(store.tables)| <= at + 1 && at < |store.tables| && r.value.0 != ABSENT
                        && FrameTo(At(store.tables, at), sessionId, sender, r.value.0)
      ensures r.Ok? ==>
                SenderCharged(store.tables, store.events, |old(store.events)|, sender, Last(old(store.tables)).now)
      ensures r.Err? ==> r.code != PeerOffline
      ensures store.alone ==> AnswersAs(r, FrameAlone(Last(old(store.tables)), sender, sessionId))
      ensures posted == if r.Ok? && r.value.1.Delivered?
                        then old(posted) + [Post(r.value.0,
                                                 Message.SessionFrame(sessionId, payload, |old(store.tables)|))]
                        else old(posted)
      ensures WasClosed(store.tables, store.events, |old(store.events)|, sessionId) ==> r.Err? && posted == old(posted)
    {
      hide ValidRun, AllGrounded, Grounded, WasClosed, Pays, SenderCharged, SenderAlone;
      at := 0;
      ghost var m := Now();
      RunSize(m.tables, m.events);
      var began := |store.tables|;
      var timestamp := ReadClock();
      var admitted := AdmitFrame(sender, timestamp);
      if admitted.Err? {
        return Err(admitted.code, admitted.retryable), at;
      }
      ghost var t, e := store.tables, store.events;
      ClockIsPositive(t, e);
      var session;
      session, at := store.Session(sessionId, timestamp);
      StoreWent(m);
      SenderStaysCharged(t, e, store.tables, store.events, |m.events|, sender, timestamp);
      if session.Err? {
        return Err(session.code, session.retryable), at;
      }
      var peer := SessionPeer(session.value, sender);
      if peer.Err? {
        return Err(peer.code, peer.retryable), at;
      }
      if WasClosed(store.tables, store.events, |m.events|, sessionId) {
        NoFrameAfterClose(store.tables, store.events, |m.events|, at, sessionId);
      }
      SessionFrameGrounds(store.tables, store.events, at, sessionId, peer.value, payload, began);
      var result := PostMessage(peer.value, Message.SessionFrame(sessionId, payload, began));
      return Ok((peer.value, result)), at;
    }

    /** session.frame: and if the other side turns out to be gone, it is cleaned up. */
    method RelaySessionFrame(sender: Id, sessionId: Id, payload: nat) returns (r: Ended<()>, ghost at: nat)
      requires Valid() && sender != ABSENT && sessionId != ABSENT
      modifies this, store
      ensures Valid() && Went(old(Now()), Now(), 1)
      ensures r.Dies? ==> cleanups == 0
      ensures LastsOut(old(Now()), Now(), 1) ==> r.Replies?
      ensures r.Fine() ==>
                |old(store.tables)| <= at + 1 && at < |store.tables|
                && exists peer :: FrameTo(At(store.tables, at), sessionId, sender, peer)
                     && posted == old(posted)
                        + [Post(peer, Message.SessionFrame(sessionId, payload, |old(store.tables)|))]
      ensures !r.Fine() ==> Notes(old(posted), posted)
      ensures r.Replies? && r.result.Err? && r.result.code == PeerOffline ==>
                at < |store.tables|
                && exists peer :: FrameTo(At(store.tables, at), sessionId, sender, peer)
                                  && RecordGone(store.tables, |old(store.tables)|, peer)
      ensures WasClosed(store.tables, store.events, |old(store.events)|, sessionId) ==> !r.Fine()
    {
      hide ValidRun, AllGrounded, FrameTo, WasClosed, NoConnects, RecordGone;
      ghost var m := Now();
      var sent;
      sent, at := PostSessionFrame(sender, sessionId, payload);
      if sent.Err? {
        return Replies(Err(sent.code, sent.retryable)), at;
      }
      match sent.value.1 {
        case Delivered =>
          return Replies(Ok(())), at;
        case Failed =>
          return Replies(Err(Internal, true)), at;
        case Gone =>
          ghost var m1 := Now();
          var cleaned, _, _ := Cleanup(sent.value.0, PeerDisconnected, false);
          WentOn(m, m1, Now(), 0, 1, 1);
          if cleaned.Fine() {
            GoneSince(store.tables, |m1.tables|, |m.tables|, sent.value.0);
            assert FrameTo(At(store.tables, at), sessionId, sender, sent.value.0);
          }
          return if cleaned.Dies? then Dies
              else if cleaned.result.Err? then Replies(Err(cleaned.result.code, cleaned.result.retryable))
              else Replies(Err(PeerOffline, true)), at;
      }
    }

    /** A pairing frame's own way, likewise: to the other side of a pair that was read between join and
        activation. */
    method PostPairFrame(sender: Id, sourceKey: Id, pairId: Id, payload: nat)
        returns (r: Result<(Id, PostResult)>, ghost at: nat)
      requires Valid() && sender != ABSENT
      modifies this, store
      ensures Valid() && Went(old(Now()), Now(), 0)
      ensures r.Ok? ==> |old(store.tables)| <= at + 1 && at < |store.tables| && r.value.0 != ABSENT
                        && PairFrameTo(At(store.tables, at), pairId, sender, r.value.0)
      ensures r.Ok? ==> SourceCharged(store.events, |old(store.events)|, sourceKey, Last(old(store.tables)).now)
      ensures store.alone ==> AnswersAs(r, PairFrameAlone(Last(old(store.tables)), sender, sourceKey, pairId))
      ensures posted == if r.Ok? && r.value.1.Delivered?
                        then old(posted) + [Post(r.value.0, Message.PairFrame(pairId, payload, |old(store.tables)|))]
                        else old(posted)
    {
      hide ValidRun, AllGrounded, Grounded, Pays, UsedUp;
      RunSize(store.tables, store.events);
      at := 0;
      ghost var m := Now();
      var began := |store.tables|;
      var limited, k := store.RateLimit(sourceKey, PAIR_FRAME, PAIR_FRAMES_PER_MINUTE, ReadClock());
      StoreWent(m);
      if limited.Err? {
        return Err(limited.code, limited.retryable), at;
      }
      ghost var t, e := store.tables, store.events;
      var pair;
      pair, at := store.PairByID(pairId, ReadClock());
      StoreWent(m);
      SourceStaysCharged(t, e, store.tables, store.events, |m.events|, sourceKey, Last(m.tables).now);
      if pair.Err? {
        return Err(pair.code, pair.retryable), at;
      }
      if pair.value.status != PairReady && pair.value.status != PairHalf {
        return Err(PairUnavailable, false), at;
      }
      var peer := PeerConnection(pair.value, sender);
      if peer.Err? {
        return Err(peer.code, peer.retryable), at;
      }
      if peer.value == ABSENT {
        return Err(PeerOffline, true), at;
      }
      PairFrameGrounds(store.tables, store.events, at, pairId, peer.value, payload, began);
      var result := PostMessage(peer.value, Message.PairFrame(pairId, payload, began));
      return Ok((peer.value, result)), at;
    }

    /** pair.frame, with the clean-up of a side that is gone. */
    method RelayPairFrame(sender: Id, sourceKey: Id, pairId: Id, payload: nat) returns (r: Ended<()>, ghost at: nat)
      requires Valid() && sender != ABSENT
      modifies this, store
      ensures Valid() && Went(old(Now()), Now(), 1)
      ensures r.Dies? ==> cleanups == 0
      ensures LastsOut(old(Now()), Now(), 1) ==> r.Replies?
      ensures r.Fine() ==>
                |old(store.tables)| <= at + 1 && at < |store.tables|
                && exists peer :: PairFrameTo(At(store.tables, at), pairId, sender, peer)
                     && posted == old(posted)
                        + [Post(peer, Message.PairFrame(pairId, payload, |old(store.tables)|))]
      ensures !r.Fine() ==> Notes(old(posted), posted)
    {
      hide ValidRun, AllGrounded, PairFrameTo, NoConnects, RunOn;
      ghost var m := Now();
      var sent;
      sent, at := PostPairFrame(sender, sourceKey, pairId, payload);
      if sent.Err? {
        return Replies(Err(sent.code, sent.retryable)), at;
      }
      match sent.value.1 {
        case Delivered =>
          return Replies(Ok(())), at;
        case Failed =>
          return Replies(Err(Internal, true)), at;
        case Gone =>
          ghost var m1 := Now();
          var cleaned, _, _ := Cleanup(sent.value.0, PeerDisconnected, false);
          WentOn(m, m1, Now(), 0, 1, 1);
          return if cleaned.Dies? then Dies
              else if cleaned.result.Err? then Replies(Err(cleaned.result.code, cleaned.result.retryable))
              else Replies(Err(PeerOffline, true)), at;
      }
    }

    // ----- requests

    /** session.open: both ends are told, or the session is closed again. */
    method OpenSessionRequest(connection: Connection, linkId: Id, sessionId: Id) returns (r: Ended<Id>, ghost at: nat)
      requires Valid() && connection.connectionId != ABSENT && sessionId != ABSENT
      modifies this, store
      ensures Valid() && Went(old(Now()), Now(), 4)
      ensures r.Dies? ==> cleanups == 0
      ensures LastsOut(old(Now()), Now(), 4) ==> r.Replies?
      ensures r.Fine() ==> r.result.value == sessionId && IsAnnounced(at, sessionId, linkId)
      ensures store.alone && r.Replies? && r.result.Err? && sessionId !in Last(old(store.tables)).seenSessions ==>
                || connection.endpointId == ABSENT
                || (|old(store.events)| <= at && StepAt(store.events, at).OpenSession? && r.result.retryable)
                || AnswersAs(r.result, OpenAlone(Last(old(store.tables)), linkId, connection.endpointId,
                                                 connection.connectionId, Last(old(store.tables)).now))
      ensures store.alone && r.Replies? && r.result.Err? ==>
                store.OpenedNothing(old(store.mine)) || !IsActive(Last(store.tables), sessionId)
    {
      hide ValidRun, AllGrounded, Announces, NoConnects, CanOpen, SpecOpen, OpenAlone;
      at := 0;
      ghost var m := Now();
      ClockIsPositive(m.tables, m.events);
      WentNowhere(m, 0);
      if connection.endpointId == ABSENT {
        return Replies(Err(Forbidden, false)), at;
      }
      var session, k, _ := store.OpenSession(linkId, connection.endpointId, connection.connectionId, sessionId,
                                             ReadClock());
      at := k;
      StoreWent(m);
      if session.Err? {
        return Replies(Err(session.code, session.retryable)), at;
      }
      ghost var m1 := Now();
      var told := NotifyOpenedSession(session.value, at);
      WentOn(m, m1, Now(), 0, 2, 2);
      if told.Dies? {
        return Dies, at;
      }
      if told.result.Err? {
        ghost var m2 := Now();
        var closed, _, _ := CloseAndNotify(sessionId, ABSENT, ABSENT, PeerDisconnected);
        WentOn(m, m2, Now(), 2, 2, 4);
        return if closed.Dies? then Dies else Replies(Err(told.result.code, told.result.retryable)), at;
      }
      return Replies(Ok(sessionId)), at;
    }

    /** Step `at` has made the session, and each end has been told it with the other end's endpoint. */
    ghost predicate IsAnnounced(at: nat, sessionId: Id, linkId: Id)
      reads this, store
    {
      && at < |store.events| && IsActive(At(store.tables, at + 1), sessionId)
      && var s := At(store.tables, at + 1).sessions[sessionId];
      && Post(s.controllerConnectionId, SessionOpened(sessionId, linkId, s.companionId)) in posted
      && Post(s.companionConnectionId, SessionOpened(sessionId, linkId, s.controllerId)) in posted
    }

    method NotifyOpenedSession(session: Session, ghost at: nat) returns (r: Ended<()>)
      requires Valid() && Opened(store.tables, store.events, at, session)
      modifies this, store
      ensures Valid() && Went(old(Now()), Now(), 2)
      ensures r.Dies? ==> cleanups == 0
      ensures r.Replies? && r.result.Err? ==> r.result.retryable
      ensures r.Fine() ==> IsAnnounced(at, session.sessionId, session.linkId)
    {
      hide ValidRun, Grounded, Opened, NoConnects, RunOn;
      ghost var m := Now();
      OpenedGrounds(store.tables, store.events, at, session, session.companionConnectionId, session.controllerId);
      var delivered := Notify(session.companionConnectionId,
                              SessionOpened(session.sessionId, session.linkId, session.controllerId), false);
      if delivered.Dies? || delivered.result != Ok(true) {
        return NotTold(delivered);
      }
      ghost var m1 := Now();
      OpenedStays(m.tables, m.events, store.tables, store.events, at, session);
      OpenedGrounds(store.tables, store.events, at, session, session.controllerConnectionId, session.companionId);
      delivered := Notify(session.controllerConnectionId,
                          SessionOpened(session.sessionId, session.linkId, session.companionId), false);
      WentOn(m, m1, Now(), 1, 1, 2);
      if delivered.Dies? || delivered.result != Ok(true) {
        return NotTold(delivered);
      }
      OpenedStays(m.tables, m.events, store.tables, store.events, at, session);
      OpenedIsStored(store.tables, store.events, at, session);
      PrefixKeeps(m1.posted, posted, Post(session.companionConnectionId,
                                          SessionOpened(session.sessionId, session.linkId, session.controllerId)));
      return Replies(Ok(()));
    }

    /** session.close, and the closing of a session that could not be announced. */
    method CloseAndNotify(sessionId: Id, endpointId: Id, connectionId: Id, reason: Reason)
        returns (r: Ended<()>, ghost closed: Option<CloseResult>, ghost at: nat)
      requires Valid() && sessionId != ABSENT
      modifies this, store
      ensures Valid() && Went(old(Now()), Now(), 2)
      ensures r.Dies? ==> cleanups == 0
      ensures LastsOut(old(Now()), Now(), 2) ==> r.Replies?
      ensures Notes(old(posted), posted)
      ensures closed.Some? ==> |old(store.events)| <= at && Reports(store.tables, store.events, at, closed)
      ensures closed.None? ==> store.mine == old(store.mine)
      ensures store.alone && r.Replies? && r.result.Err? ==>
                closed.Some?
                || AnswersAs(r.result, CloseAlone(Last(old(store.tables)), sessionId, endpointId, connectionId))
      ensures r.Fine() || closed.Some? ==> !IsActive(Last(store.tables), sessionId)
      ensures store.alone && endpointId == connectionId == ABSENT ==> !IsActive(Last(store.tables), sessionId)
      ensures r.Fine() && closed.Some? && closed.value.closedNow ==>
                EndsAddressed(old(tried), tried, closed.value.session, reason, ABSENT)
    {
      hide ValidRun, AllGrounded, Reports, EndsAddressed, CurrentCaller, NoConnects, RunOn;
      ghost var m := Now();
      ClockIsPositive(m.tables, m.events);
      var result;
      result, at := store.CloseSession(sessionId, endpointId, connectionId, ReadClock());
      closed := None;
      StoreWent(m);
      if result.Err? {
        return Replies(Err(result.code, result.retryable)), closed, at;
      }
      if result.value.None? {
        return Replies(Ok(())), closed, at;
      }
      closed := result.value;
      ghost var m1 := Now();
      r := NotifyClosedSession(result.value, reason, ABSENT, at);
      WentOn(m, m1, Now(), 0, 2, 2);
      ReportsStay(m1.tables, m1.events, store.tables, store.events, at, closed);
      if closed.value.closedNow { ReportedIsOver(store.tables, store.events, at, closed.value); }
    }

    /** pair.commit: once the pair is ACTIVE, both sides are told the link that it made. */
    method CommitRequest(pairId: Id, commit: PairCommit, sourceKey: Id)
        returns (r: Ended<bool>, ghost at: nat, ghost ran: Option<nat>)
      requires Valid() && CommitIds(commit)
      modifies this, store
      ensures Valid() && Went(old(Now()), Now(), 2)
      ensures r.Dies? ==> cleanups == 0
      ensures LastsOut(old(Now()), Now(), 2) ==> r.Replies?
      ensures r.Replies? ==> CommitReply(store.tables, pairId, commit, ran, r.result, at)
      ensures ran.Some? ==> |old(store.events)| <= ran.value < |store.events|
                            && FillsWith(StepAt(store.events, ran.value), pairId, commit)
      ensures r.Replies? && r.result.Err? && !r.result.retryable ==> store.mine == old(store.mine)
      ensures store.alone && r.Replies? && r.result.Err? ==>
                || (r.result.retryable && InStatus(At(store.tables, at), pairId, PairActive))
                || AnswersAs(r.result, CommitAlone(Last(old(store.tables)), pairId, commit, sourceKey,
                                                   Last(old(store.tables)).now))
      ensures r == Replies(Ok(true)) ==> SidesAddressed(old(tried), tried, At(store.tables, at), pairId)
    {
      hide ValidRun, Grounded, CommitIds, NoConnects, CommitAlone;
      ghost var m := Now();
      ClockIsPositive(m.tables, m.events);
      var result;
      result, at := store.CommitPair(pairId, commit, sourceKey, ReadClock());
      ran := if store.mine == old(store.mine) then None else Some(at - 1);
      StoreWent(m);
      if result.Err? {
        return Replies(Err(result.code, result.retryable)), at, ran;
      }
      if result.value.link.None? {
        return Replies(Ok(false)), at, ran;
      }
      ghost var m1 := Now();
      var told := NotifyCompleted(pairId, result.value.pair, at);
      WentOn(m, m1, Now(), 0, 2, 2);
      if !told.Fine() {
        return if told.Dies? then Dies else Replies(Err(told.result.code, told.result.retryable)), at, ran;
      }
      return Replies(Ok(true)), at, ran;
    }

    /** Tell both sides of an activated pair. */
    method NotifyCompleted(pairId: Id, pair: Pair, ghost at: nat) returns (r: Ended<()>)
      requires Valid() && at < |store.tables| && Lookup(At(store.tables, at).pairs, pairId) == Some(pair)
      requires pair.status == PairActive
      modifies this, store
      ensures Valid() && Went(old(Now()), Now(), 2)
      ensures r.Dies? ==> cleanups == 0
      ensures r.Fine() ==> SidesAddressed(old(tried), tried, At(store.tables, at), pairId)
      ensures r.Replies? && r.result.Err? ==> r.result.retryable
    {
      hide ValidRun, Grounded, NoConnects;
      ghost var m := Now();
      WentNowhere(m, 0);
      var slots := [SlotA, SlotB];
      for i := 0 to 2
        invariant Valid() && Went(old(Now()), Now(), i)
        invariant forall j :: 0 <= j < i ==> SideAddressed(old(tried), tried, pair, pairId, slots[j])
      {
        var value := Commit(pair, slots[i]);
        if value.Some? {
          CompletedGrounds(store.tables, store.events, at, pair, pairId, slots[i], value.value);
          ghost var m1 := Now();
          var note := CompletedNote(pairId, value.value);
          var sent := Notify(note.connectionId, note.message, false);
          WentOn(m, m1, Now(), i, 1, i + 1);
          AddressedStays(m.tried, m1.tried, tried);
          if !sent.Fine() {
            return if sent.Dies? then Dies else Replies(Err(sent.result.code, sent.result.retryable));
          }
        }
      }
      assert SideAddressed(old(tried), tried, pair, pairId, slots[0]);
      assert SideAddressed(old(tried), tried, pair, pairId, slots[1]);
      return Replies(Ok(()));
    }

    /** link.revoke: the session it ended is announced, and the other end of the link is told. */
    method RevokeLinkRequest(connection: Connection, linkId: Id)
        returns (r: Ended<()>, ghost at: nat, ghost link: Link, ghost closed: Option<CloseResult>, ghost readAt: nat)
      requires Valid()
      modifies this, store
      ensures Valid() && Went(old(Now()), Now(), 3)
      ensures r.Dies? ==> cleanups == 0
      ensures LastsOut(old(Now()), Now(), 3) ==> r.Replies?
      ensures r.Fine() ==>
                && at <= readAt < |store.tables| && Lookup(At(store.tables, at).links, linkId) == Some(link)
                && link.status == LinkRevoked && OnLink(link, connection.endpointId)
                && PeerAddressed(old(tried), tried, At(store.tables, readAt), link, connection.endpointId)
                && (closed.Some? && closed.value.closedNow ==>
                      EndsAddressed(old(tried), tried, closed.value.session, Revoked, ABSENT))
      ensures store.alone && r.Replies? && r.result.Err? ==>
                || connection.endpointId == ABSENT
                || (r.result.retryable && link.status == LinkRevoked
                    && Lookup(At(store.tables, at).links, linkId) == Some(link))
                || AnswersAs(r.result, RevokeLinkAlone(Last(old(store.tables)), linkId, connection.endpointId,
                                                       connection.connectionId))
      ensures closed.Some? ==> 0 < at && |old(store.events)| < at && Reports(store.tables, store.events, at - 1, closed)
    {
      hide ValidRun, AllGrounded, Reports, CurrentCaller, EndsAddressed, NoConnects, RevokeLinkAlone;
      at, readAt, closed := 0, 0, None;
      link := Link(ABSENT, ABSENT, ABSENT, LinkActive, ABSENT, 0, 0);
      if connection.endpointId == ABSENT {
        return Replies(Err(Forbidden, false)), at, link, closed, readAt;
      }
      ghost var m := Now();
      ClockIsPositive(m.tables, m.events);
      var revoked, k, ran := store.RevokeLink(linkId, connection.endpointId, connection.connectionId, ReadClock());
      at := if ran then k + 1 else k;
      StoreWent(m);
      if revoked.Err? {
        return Replies(Err(revoked.code, revoked.retryable)), at, link, closed, readAt;
      }
      link := revoked.value.link;
      ghost var m1 := Now();
      RunSize(m1.tables, m1.events);
      if revoked.value.session.Some? {
        closed := revoked.value.session;
        var told := NotifyClosedSession(revoked.value.session, Reason.Revoked, ABSENT, k);
        WentOn(m, m1, Now(), 0, 2, 2);
        ReportsStay(m1.tables, m1.events, store.tables, store.events, k, closed);
        if !told.Fine() {
          return told, at, link, closed, readAt;
        }
      }
      ghost var m2 := Now();
      r, readAt := NotifyPeer(revoked.value.link, connection.endpointId, at);
      WentOn(m, m2, Now(), 2, 1, 3);
      if closed.Some? {
        ReportsStay(m2.tables, m2.events, store.tables, store.events, k, closed);
        if closed.value.closedNow { EndsStayAddressed(m.tried, m2.tried, tried, closed.value.session, Revoked); }
      }
      PeerStaysAddressed(m.tried, m2.tried, tried, At(store.tables, readAt), link, connection.endpointId);
    }

    /** Tell the other end of a revoked link, if it is up. */
    method NotifyPeer(link: Link, endpointId: Id, ghost at: nat) returns (r: Ended<()>, ghost readAt: nat)
      requires Valid() && at < |store.tables| && Lookup(At(store.tables, at).links, link.linkId) == Some(link)
      requires link.status == LinkRevoked
      modifies this, store
      ensures Valid() && Went(old(Now()), Now(), 1)
      ensures r.Dies? ==> cleanups == 0
      ensures at <= readAt < |store.tables|
      ensures r.Replies? && r.result.Err? ==> r.result.retryable
      ensures r.Fine() ==> PeerAddressed(old(tried), tried, At(store.tables, readAt), link, endpointId)
    {
      hide ValidRun, AllGrounded, Grounded, NoConnects;
      ghost var m := Now();
      var peer := if link.controllerId == endpointId then link.companionId else link.controllerId;
      var endpoint, k := store.GetEndpoint(peer);
      readAt := k;
      StoreWent(m);
      if endpoint.Some? && endpoint.value.connectionId != ABSENT && endpoint.value.revokedAt == 0 {
        RevokedGrounds(store.tables, store.events, at, k, link, peer, endpoint.value.connectionId);
        ghost var m1 := Now();
        var sent := Notify(endpoint.value.connectionId, LinkRevokedNote(link.linkId), false);
        WentOn(m, m1, Now(), 0, 1, 1);
        if !sent.Fine() {
          return if sent.Dies? then Dies else Replies(Err(sent.result.code, sent.result.retryable)), readAt;
        }
      }
      return Replies(Ok(())), readAt;
    }
  }
}
