/** Closing a session: the write list that transactSessionTransition builds from its own reads, and the
    one atomic step it stands for. */
module Transitions {
  import opened Records
  import opened Table
  import opened Routing

  /** The caller's connection, where the caller must still own its endpoint at the commit. */
  datatype Fence = NoFence | Fence(endpointId: Id, connectionId: Id)

  function Opt(condition: bool, w: Write): seq<Write> {
    if condition then [w] else []
  }

  predicate LinkPoints(link: Option<Link>, sessionId: Id) {
    link.Some? && link.value.activeSessionId == sessionId
  }

  predicate EndpointPoints(endpoint: Option<Endpoint>, sessionId: Id) {
    endpoint.Some? && endpoint.value.activeSessionId == sessionId
  }

  function FenceOn(fence: Fence, endpointId: Id): Id {
    if fence.Fence? && fence.endpointId == endpointId then fence.connectionId else ABSENT
  }

  predicate ClearsController(s: Session, controller: Option<Endpoint>, omit: set<Item>) {
    s.controllerId != ABSENT && EndpointItem(s.controllerId) !in omit && EndpointPoints(controller, s.sessionId)
  }

  predicate ClearsCompanion(s: Session, companion: Option<Endpoint>, omit: set<Item>) {
    s.companionId != ABSENT && EndpointItem(s.companionId) !in omit && EndpointPoints(companion, s.sessionId)
  }

  function FenceCheck(fence: Fence): Write {
    match fence
    case Fence(endpointId, connectionId) => CheckEndpoint(endpointId, connectionId)
    case NoFence => CheckEndpoint(ABSENT, ABSENT)
  }

  /** A fence that no cleared endpoint carries becomes a condition check of its own. */
  predicate FencesAlone(s: Session, controller: Option<Endpoint>, companion: Option<Endpoint>,
                        omit: set<Item>, fence: Fence)
  {
    && fence.Fence?
    && fence.connectionId != ABSENT
    && EndpointItem(fence.endpointId) !in omit
    && !(fence.endpointId == s.controllerId && ClearsController(s, controller, omit))
    && !(fence.endpointId == s.companionId && ClearsCompanion(s, companion, omit))
  }

  /** The writes that follow the caller's own, from the session as read and then its link, controller
      and companion as read after it. */
  function TransitionWrites(s: Session, link: Option<Link>, controller: Option<Endpoint>,
                            companion: Option<Endpoint>, now: int, omit: set<Item>, fence: Fence): seq<Write>
  {
    Opt(s.status == SessionActive, EndSession(s.sessionId, now))
    + (Opt(LinkItem(s.linkId) !in omit && LinkPoints(link, s.sessionId), ClearLink(s.linkId, s.sessionId))
    + (Opt(ClearsController(s, controller, omit),
           ClearEndpoint(s.controllerId, s.sessionId, FenceOn(fence, s.controllerId)))
    + (Opt(ClearsCompanion(s, companion, omit),
           ClearEndpoint(s.companionId, s.sessionId, FenceOn(fence, s.companionId)))
    + Opt(FencesAlone(s, controller, companion, omit, fence), FenceCheck(fence)))))
  }

  // ----- the atomic step

  function EndSessions(sessions: map<Id, Session>, sessionId: Id, now: int): map<Id, Session> {
    map id | id in sessions ::
      if id == sessionId && sessions[id].status == SessionActive then Closed(sessions[id], now) else sessions[id]
  }

  function ClearedLink(l: Link, sessionId: Id): Link {
    if l.activeSessionId == sessionId then l.(activeSessionId := ABSENT) else l
  }

  function ClearedEndpoint(e: Endpoint, sessionId: Id): Endpoint {
    if e.activeSessionId == sessionId then e.(activeSessionId := ABSENT) else e
  }

  function ClearLinks(links: map<Id, Link>, linkId: Id, sessionId: Id): map<Id, Link> {
    map id | id in links :: if id == linkId then ClearedLink(links[id], sessionId) else links[id]
  }

  function ClearEndpoints(endpoints: map<Id, Endpoint>, ids: set<Id>, sessionId: Id): map<Id, Endpoint> {
    map id | id in endpoints :: if id in ids then ClearedEndpoint(endpoints[id], sessionId) else endpoints[id]
  }

  /** End the session if it is there and ACTIVE, and take its pointer off one link and two endpoints. */
  function Release(db: Db, sessionId: Id, linkId: Id, controllerId: Id, companionId: Id, now: int): Db {
    db.(sessions := EndSessions(db.sessions, sessionId, now),
        links := ClearLinks(db.links, linkId, sessionId),
        endpoints := ClearEndpoints(db.endpoints, {controllerId, companionId}, sessionId))
  }

  function ReleaseSession(db: Db, s: Session, now: int): Db {
    Release(db, s.sessionId, s.linkId, s.controllerId, s.companionId, now)
  }

  // ----- the writes are the atomic step

  lemma ApplyOpt(db: Db, condition: bool, w: Write, rest: seq<Write>)
    ensures Apply(db, Opt(condition, w) + rest) == Apply(if condition then Effect(db, w) else db, rest)
  {
    if condition {
      assert ([w] + rest)[1..] == rest;
    } else {
      assert [] + rest == rest;
    }
  }

  lemma ApplyOne(db: Db, w: Write)
    ensures Apply(db, [w]) == Effect(db, w)
  {
    assert [w][1..] == [];
    assert Apply(db, [w]) == Apply(Effect(db, w), []);
  }

  lemma {:induction false} ApplyConcat(db: Db, first: seq<Write>, rest: seq<Write>)
    ensures Apply(db, first + rest) == Apply(Apply(db, first), rest)
    decreases |first|
  {
    if first == [] {
      assert first + rest == rest;
    } else {
      ApplyConcat(Effect(db, first[0]), first[1..], rest);
      assert (first + rest)[1..] == first[1..] + rest;
    }
  }

  lemma AllHoldConcat(db: Db, first: seq<Write>, rest: seq<Write>)
    ensures AllHold(first + rest, db) <==> AllHold(first, db) && AllHold(rest, db)
  {
    forall w ensures w in first + rest <==> w in first || w in rest {}
  }

  /** What the reads must have found, for the writes to be right at the commit. */
  ghost predicate ReadsAgree(db: Db, s: Session, link: Option<Link>, controller: Option<Endpoint>,
                       companion: Option<Endpoint>, omit: set<Item>)
  {
    && (s.status == SessionActive <==> s.sessionId in db.sessions && db.sessions[s.sessionId].status == SessionActive)
    && (LinkItem(s.linkId) !in omit ==>
          (LinkPoints(link, s.sessionId) <==> LinkPoints(Lookup(db.links, s.linkId), s.sessionId)))
    && (EndpointItem(s.controllerId) !in omit ==>
          (EndpointPoints(controller, s.sessionId) <==>
           EndpointPoints(Lookup(db.endpoints, s.controllerId), s.sessionId)))
    && (EndpointItem(s.companionId) !in omit ==>
          (EndpointPoints(companion, s.sessionId) <==> EndpointPoints(Lookup(db.endpoints, s.companionId),
                                                                      s.sessionId)))
  }

  /** The omitted items are the caller's: its own writes have already taken the pointer off them. */
  ghost predicate OmittedCleared(db: Db, start: Db, s: Session, omit: set<Item>) {
    && start.sessions == db.sessions
    && (if LinkItem(s.linkId) in omit then !LinkPoints(Lookup(start.links, s.linkId), s.sessionId)
        else Lookup(start.links, s.linkId) == Lookup(db.links, s.linkId))
    && (if EndpointItem(s.controllerId) in omit
        then !EndpointPoints(Lookup(start.endpoints, s.controllerId), s.sessionId)
        else Lookup(start.endpoints, s.controllerId) == Lookup(db.endpoints, s.controllerId))
    && (if EndpointItem(s.companionId) in omit
        then !EndpointPoints(Lookup(start.endpoints, s.companionId), s.sessionId)
        else Lookup(start.endpoints, s.companionId) == Lookup(db.endpoints, s.companionId))
  }

  lemma EndStep(d: Db, sessionId: Id, now: int, ends: bool)
    requires ends <==> sessionId in d.sessions && d.sessions[sessionId].status == SessionActive
    ensures (if ends then Effect(d, EndSession(sessionId, now)) else d)
            == d.(sessions := EndSessions(d.sessions, sessionId, now))
  {
    assert ends ==> EndSessions(d.sessions, sessionId, now)
                    == d.sessions[sessionId := Closed(d.sessions[sessionId], now)];
    assert !ends ==> EndSessions(d.sessions, sessionId, now) == d.sessions;
  }

  lemma LinkStep(d: Db, linkId: Id, sessionId: Id, clears: bool)
    requires clears <==> LinkPoints(Lookup(d.links, linkId), sessionId)
    ensures (if clears then Effect(d, ClearLink(linkId, sessionId)) else d)
            == d.(links := ClearLinks(d.links, linkId, sessionId))
  {
    assert clears ==> ClearLinks(d.links, linkId, sessionId)
                      == d.links[linkId := d.links[linkId].(activeSessionId := ABSENT)];
    assert !clears ==> ClearLinks(d.links, linkId, sessionId) == d.links;
  }

  lemma EndpointStep(d: Db, endpointId: Id, sessionId: Id, fence: Id, clears: bool)
    requires clears <==> EndpointPoints(Lookup(d.endpoints, endpointId), sessionId)
    ensures (if clears then Effect(d, ClearEndpoint(endpointId, sessionId, fence)) else d)
            == d.(endpoints := ClearEndpoints(d.endpoints, {endpointId}, sessionId))
  {
    assert clears ==> ClearEndpoints(d.endpoints, {endpointId}, sessionId)
                      == d.endpoints[endpointId := d.endpoints[endpointId].(activeSessionId := ABSENT)];
    assert !clears ==> ClearEndpoints(d.endpoints, {endpointId}, sessionId) == d.endpoints;
  }

  lemma ClearBoth(endpoints: map<Id, Endpoint>, first: Id, second: Id, sessionId: Id)
    ensures ClearEndpoints(ClearEndpoints(endpoints, {first}, sessionId), {second}, sessionId)
            == ClearEndpoints(endpoints, {first, second}, sessionId)
  {
  }

  lemma WritesAreRelease(db: Db, start: Db, s: Session, link: Option<Link>, controller: Option<Endpoint>,
                         companion: Option<Endpoint>, now: int, omit: set<Item>, fence: Fence)
    requires ReadsAgree(db, s, link, controller, companion, omit)
    requires OmittedCleared(db, start, s, omit)
    requires s.sessionId != ABSENT && s.controllerId != ABSENT && s.companionId != ABSENT
    requires s.controllerId != s.companionId
    ensures Apply(start, TransitionWrites(s, link, controller, companion, now, omit, fence))
            == ReleaseSession(start, s, now)
  {
    var ends := s.status == SessionActive;
    var clearsLink := LinkItem(s.linkId) !in omit && LinkPoints(link, s.sessionId);
    var clearsController := ClearsController(s, controller, omit);
    var clearsCompanion := ClearsCompanion(s, companion, omit);
    var alone := Opt(FencesAlone(s, controller, companion, omit, fence), FenceCheck(fence));
    var w1 := EndSession(s.sessionId, now);
    var w2 := ClearLink(s.linkId, s.sessionId);
    var w3 := ClearEndpoint(s.controllerId, s.sessionId, FenceOn(fence, s.controllerId));
    var w4 := ClearEndpoint(s.companionId, s.sessionId, FenceOn(fence, s.companionId));
    var d1 := start.(sessions := EndSessions(start.sessions, s.sessionId, now));
    var d2 := d1.(links := ClearLinks(d1.links, s.linkId, s.sessionId));
    var d3 := d2.(endpoints := ClearEndpoints(d2.endpoints, {s.controllerId}, s.sessionId));
    var d4 := d3.(endpoints := ClearEndpoints(d3.endpoints, {s.companionId}, s.sessionId));
    var rest4 := Opt(clearsCompanion, w4) + alone;
    var rest3 := Opt(clearsController, w3) + rest4;
    var rest2 := Opt(clearsLink, w2) + rest3;
    ApplyOpt(start, ends, w1, rest2);
    EndStep(start, s.sessionId, now, ends);
    ApplyOpt(d1, clearsLink, w2, rest3);
    LinkStep(d1, s.linkId, s.sessionId, clearsLink);
    ApplyOpt(d2, clearsController, w3, rest4);
    EndpointStep(d2, s.controllerId, s.sessionId, FenceOn(fence, s.controllerId), clearsController);
    ApplyOpt(d3, clearsCompanion, w4, alone);
    EndpointStep(d3, s.companionId, s.sessionId, FenceOn(fence, s.companionId), clearsCompanion);
    FenceWritesNothing(d4, fence, FencesAlone(s, controller, companion, omit, fence));
    ClearBoth(d2.endpoints, s.controllerId, s.companionId, s.sessionId);
    hide Apply, Effect, EndSessions, ClearLinks;
  }

  lemma FenceWritesNothing(d: Db, fence: Fence, alone: bool)
    ensures Apply(d, Opt(alone, FenceCheck(fence))) == d
  {
    if alone {
      assert [FenceCheck(fence)][1..] == [];
      assert Effect(d, FenceCheck(fence)) == d;
      assert Apply(d, [FenceCheck(fence)]) == Apply(d, []);
    }
  }

  /** The session as its own read gave it: the stored record, or, when it was gone, a stand-in that
      carries its ID and counts as CLOSED. */
  ghost predicate AsRead(db: Db, s: Session) {
    if s.sessionId in db.sessions then db.sessions[s.sessionId] == s
    else s.status == SessionClosed && s.sessionId in db.seenSessions
  }

  lemma StatusAgrees(atSession: Db, db: Db, s: Session)
    requires AsRead(atSession, s) && RouteInv(atSession) && RouteEvolves(atSession, db)
    requires s.status == SessionActive ==> s.sessionId in db.sessions
                                           && db.sessions[s.sessionId].status == SessionActive
    ensures s.status == SessionActive <==> s.sessionId in db.sessions
                                           && db.sessions[s.sessionId].status == SessionActive
    ensures s.sessionId in atSession.seenSessions
  {
    if s.sessionId in atSession.sessions { assert SessionOk(atSession, s.sessionId); }
    if s.sessionId in db.sessions { assert SessionEvolves(atSession, db, s.sessionId); }
  }

  lemma LinkReadAgrees(atLink: Db, db: Db, linkId: Id, sessionId: Id)
    requires RouteEvolves(atLink, db) && sessionId in atLink.seenSessions && sessionId != ABSENT
    ensures LinkPoints(Lookup(db.links, linkId), sessionId) ==> LinkPoints(Lookup(atLink.links, linkId), sessionId)
  {
    if linkId in db.links { assert LinkEvolves(atLink, db, linkId); }
  }

  lemma EndpointReadAgrees(atEndpoint: Db, db: Db, endpointId: Id, sessionId: Id)
    requires RouteEvolves(atEndpoint, db) && sessionId in atEndpoint.seenSessions && sessionId != ABSENT
    ensures EndpointPoints(Lookup(db.endpoints, endpointId), sessionId)
            ==> EndpointPoints(Lookup(atEndpoint.endpoints, endpointId), sessionId)
  {
    if endpointId in db.endpoints { assert EndpointEvolves(atEndpoint, db, endpointId); }
  }

  lemma EndHolds(db: Db, sessionId: Id, now: int)
    requires Holds(EndSession(sessionId, now), db)
    ensures sessionId in db.sessions && db.sessions[sessionId].status == SessionActive
  {
  }

  lemma ClearHolds(db: Db, id: Id, sessionId: Id, fence: Id)
    ensures Holds(ClearLink(id, sessionId), db) ==> LinkPoints(Lookup(db.links, id), sessionId)
    ensures Holds(ClearEndpoint(id, sessionId, fence), db) ==> EndpointPoints(Lookup(db.endpoints, id), sessionId)
  {
  }

  /** The conditions that the transition's writes put on the table at the commit. */
  lemma TransitionConditions(db: Db, s: Session, link: Option<Link>, controller: Option<Endpoint>,
                             companion: Option<Endpoint>, now: int, omit: set<Item>, fence: Fence)
    requires AllHold(TransitionWrites(s, link, controller, companion, now, omit, fence), db)
    ensures s.status == SessionActive ==> Holds(EndSession(s.sessionId, now), db)
    ensures LinkItem(s.linkId) !in omit && LinkPoints(link, s.sessionId)
            ==> Holds(ClearLink(s.linkId, s.sessionId), db)
    ensures ClearsController(s, controller, omit)
            ==> Holds(ClearEndpoint(s.controllerId, s.sessionId, FenceOn(fence, s.controllerId)), db)
    ensures ClearsCompanion(s, companion, omit)
            ==> Holds(ClearEndpoint(s.companionId, s.sessionId, FenceOn(fence, s.companionId)), db)
    ensures FencesAlone(s, controller, companion, omit, fence) ==> Holds(FenceCheck(fence), db)
  {
    var alone := Opt(FencesAlone(s, controller, companion, omit, fence), FenceCheck(fence));
    var rest4 := Opt(ClearsCompanion(s, companion, omit),
                     ClearEndpoint(s.companionId, s.sessionId, FenceOn(fence, s.companionId)));
    var rest3 := Opt(ClearsController(s, controller, omit),
                     ClearEndpoint(s.controllerId, s.sessionId, FenceOn(fence, s.controllerId)));
    var rest2 := Opt(LinkItem(s.linkId) !in omit && LinkPoints(link, s.sessionId), ClearLink(s.linkId, s.sessionId));
    var rest1 := Opt(s.status == SessionActive, EndSession(s.sessionId, now));
    AllHoldConcat(db, rest1, rest2 + (rest3 + (rest4 + alone)));
    AllHoldConcat(db, rest2, rest3 + (rest4 + alone));
    AllHoldConcat(db, rest3, rest4 + alone);
    AllHoldConcat(db, rest4, alone);
    OptHolds(db, rest1); OptHolds(db, rest2); OptHolds(db, rest3); OptHolds(db, rest4); OptHolds(db, alone);
  }

  lemma OptHolds(db: Db, ws: seq<Write>)
    requires AllHold(ws, db)
    ensures |ws| == 1 ==> Holds(ws[0], db)
  {
    if |ws| == 1 { assert ws[0] in ws; }
  }

  /** Read late enough, pointers to a session already seen can only have been taken away since, so the
      writes that still hold at the commit are the ones that fresh reads would have called for. */
  lemma StaleReadsAgree(atSession: Db, atLink: Db, atController: Db, atCompanion: Db, db: Db,
                        s: Session, now: int, omit: set<Item>, fence: Fence)
    requires AsRead(atSession, s) && RouteInv(atSession) && RouteEvolves(atSession, db)
    requires s.sessionId != ABSENT && s.controllerId != ABSENT && s.companionId != ABSENT
    requires atSession.seenSessions <= atLink.seenSessions && RouteEvolves(atLink, db)
    requires atSession.seenSessions <= atController.seenSessions && RouteEvolves(atController, db)
    requires atSession.seenSessions <= atCompanion.seenSessions && RouteEvolves(atCompanion, db)
    requires AllHold(TransitionWrites(s, Lookup(atLink.links, s.linkId), Lookup(atController.endpoints, s.controllerId),
                                      Lookup(atCompanion.endpoints, s.companionId), now, omit, fence), db)
    ensures ReadsAgree(db, s, Lookup(atLink.links, s.linkId), Lookup(atController.endpoints, s.controllerId),
                       Lookup(atCompanion.endpoints, s.companionId), omit)
  {
    hide RouteInv, RouteEvolves, AllHold, TransitionWrites, AsRead, Holds, LinkPoints, EndpointPoints, FencesAlone;
    var link := Lookup(atLink.links, s.linkId);
    var controller := Lookup(atController.endpoints, s.controllerId);
    var companion := Lookup(atCompanion.endpoints, s.companionId);
    TransitionConditions(db, s, link, controller, companion, now, omit, fence);
    if s.status == SessionActive { EndHolds(db, s.sessionId, now); }
    ClearHolds(db, s.linkId, s.sessionId, ABSENT);
    ClearHolds(db, s.controllerId, s.sessionId, FenceOn(fence, s.controllerId));
    ClearHolds(db, s.companionId, s.sessionId, FenceOn(fence, s.companionId));
    StatusAgrees(atSession, db, s);
    LinkReadAgrees(atLink, db, s.linkId, s.sessionId);
    EndpointReadAgrees(atController, db, s.controllerId, s.sessionId);
    EndpointReadAgrees(atCompanion, db, s.companionId, s.sessionId);
  }
}
