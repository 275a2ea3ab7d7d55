/** No transaction names the same item twice: DynamoDB would refuse it outright, whatever the table. */
module NamedOnce {
  import opened Records
  import opened Table
  import opened Routing
  import opened Transitions
  import opened Plans
  import opened Refinement
  import opened Pairing
  import opened ActivationStep
  import opened Runs
  import opened Atomicity

  function Targets(ws: seq<Write>): set<Item> { set w | w in ws :: Target(w) }

  lemma TargetsConcat(first: seq<Write>, rest: seq<Write>)
    ensures Targets(first + rest) == Targets(first) + Targets(rest)
  {
    forall w ensures w in first + rest <==> w in first || w in rest {}
  }

  lemma DistinctConcat(first: seq<Write>, rest: seq<Write>)
    requires DistinctTargets(first) && DistinctTargets(rest) && Targets(first) !! Targets(rest)
    ensures DistinctTargets(first + rest)
    ensures Targets(first + rest) == Targets(first) + Targets(rest)
  {
    var all := first + rest;
    TargetsConcat(first, rest);
    forall i, j | 0 <= i < j < |all| ensures Target(all[i]) != Target(all[j]) {
      if i < |first| <= j {
        assert first[i] in first && rest[j - |first|] in rest;
        assert Target(first[i]) in Targets(first) && Target(rest[j - |first|]) in Targets(rest);
      } else if j < |first| {
        assert Target(first[i]) != Target(first[j]);
      } else {
        assert Target(rest[i - |first|]) != Target(rest[j - |first|]);
      }
    }
  }

  function OptTarget(condition: bool, item: Item): set<Item> { if condition then {item} else {} }

  lemma OptOnce(condition: bool, w: Write)
    ensures DistinctTargets(Opt(condition, w)) && Targets(Opt(condition, w)) == OptTarget(condition, Target(w))
  {
    assert condition ==> Opt(condition, w) == [w];
  }

  /** The transition's own writes are on different items, none of them one that the caller writes. */
  lemma TransitionNamesOnce(s: Session, link: Option<Link>, controller: Option<Endpoint>, companion: Option<Endpoint>,
                            now: int, omit: set<Item>, fence: Fence)
    requires s.controllerId != s.companionId && SessionItem(s.sessionId) !in omit
    ensures DistinctTargets(TransitionWrites(s, link, controller, companion, now, omit, fence))
    ensures Targets(TransitionWrites(s, link, controller, companion, now, omit, fence)) !! omit
    ensures forall item :: item in Targets(TransitionWrites(s, link, controller, companion, now, omit, fence)) ==>
              !item.ConnectionItem?
  {
    var alone := FencesAlone(s, controller, companion, omit, fence);
    var clears4, clears3 := ClearsCompanion(s, companion, omit), ClearsController(s, controller, omit);
    var clears2 := LinkItem(s.linkId) !in omit && LinkPoints(link, s.sessionId);
    var w5, w4 := FenceCheck(fence), ClearEndpoint(s.companionId, s.sessionId, FenceOn(fence, s.companionId));
    var w3 := ClearEndpoint(s.controllerId, s.sessionId, FenceOn(fence, s.controllerId));
    var w2, w1 := ClearLink(s.linkId, s.sessionId), EndSession(s.sessionId, now);
    OptOnce(alone, w5); OptOnce(clears4, w4); OptOnce(clears3, w3); OptOnce(clears2, w2);
    OptOnce(s.status == SessionActive, w1);
    hide DistinctTargets, Targets, Opt;
    DistinctConcat(Opt(clears4, w4), Opt(alone, w5));
    DistinctConcat(Opt(clears3, w3), Opt(clears4, w4) + Opt(alone, w5));
    DistinctConcat(Opt(clears2, w2), Opt(clears3, w3) + (Opt(clears4, w4) + Opt(alone, w5)));
    DistinctConcat(Opt(s.status == SessionActive, w1),
                   Opt(clears2, w2) + (Opt(clears3, w3) + (Opt(clears4, w4) + Opt(alone, w5))));
  }

  /** A caller's own writes: connection records, and one endpoint. */
  ghost predicate Owns(own: seq<Write>, endpointId: Id) {
    && DistinctTargets(own)
    && (forall w :: w in own ==> Target(w).ConnectionItem? || Target(w) == EndpointItem(endpointId))
  }

  lemma OwnWritesOnce(c: Connection, credentialHash: Id, endpoint: Endpoint, same: bool)
    ensures Owns(OwnConnectWrites(c, credentialHash, endpoint, same), c.endpointId)
  {
  }

  lemma OwnRemovalsOnce(connectionId: Id, endpointId: Id, endpoint: Endpoint, now: int)
    ensures Owns(OwnDisconnectWrites(connectionId, endpointId, endpoint), endpointId)
    ensures Owns(OwnRevokeEndpointWrites(endpointId, connectionId, endpoint, now), endpointId)
  {
  }

  /** The caller's own writes, and a tail that omits the one item of them that a tail could name. */
  lemma OwnThenTail(own: seq<Write>, tail: seq<Write>, omit: set<Item>)
    requires DistinctTargets(own) && DistinctTargets(tail) && Targets(tail) !! omit
    requires forall item :: item in Targets(tail) ==> !item.ConnectionItem?
    requires forall w :: w in own ==> Target(w).ConnectionItem? || Target(w) in omit
    ensures DistinctTargets(own + tail)
  {
    assert Targets(own) !! Targets(tail);
    hide Targets;
    DistinctConcat(own, tail);
  }

  lemma ReadSessionEnds(r: Reads, db: Db, id: Id)
    requires InOrder(r, db) && id in r.session.sessions
    ensures r.session.sessions[id].controllerId != r.session.sessions[id].companionId
  {
    assert SessionOk(r.session, id);
  }

  /** The three requests whose own endpoint write comes before whatever session the endpoint holds. */
  lemma OwnEndpointOnce(own: seq<Write>, session: Option<Session>, closes: bool, link: Option<Link>,
                        controller: Option<Endpoint>, companion: Option<Endpoint>, endpointId: Id, now: int)
    requires Owns(own, endpointId)
    requires closes ==> session.Some? && session.value.controllerId != session.value.companionId
    ensures DistinctTargets(own + (if closes then TransitionWrites(session.value, link, controller, companion, now,
                                                                   {EndpointItem(endpointId)}, NoFence)
                                   else []))
  {
    hide DistinctTargets, TransitionWrites, Targets;
    if closes {
      TransitionNamesOnce(session.value, link, controller, companion, now, {EndpointItem(endpointId)}, NoFence);
      OwnThenTail(own, TransitionWrites(session.value, link, controller, companion, now, {EndpointItem(endpointId)},
                                        NoFence), {EndpointItem(endpointId)});
    } else {
      assert own + [] == own;
    }
  }

  lemma ConnectOnce(h: seq<Db>, e: Event)
    requires Sound(h) && e.ConnectEndpoint? && Reaches(h, e)
    ensures DistinctTargets(Writes(h, e))
  {
    hide Sound, InOrder, TransitionWrites, DistinctTargets, Owns, OwnConnectWrites, SameAsRead, OnTime, RouteInv,
         RouteEvolves, NewConnection;
    var c, endpoint, r := e.c, At(h, e.atEndpoint).endpoints[e.c.endpointId], ReadsAt(h, e.tail);
    var same := SameAsRead(endpoint, At(h, e.atExisting), c);
    var session := SessionRead(endpoint, r.session);
    var s := if session.Some? then session.value else NO_SESSION;
    TailSound(h, e.atExisting, e.tail);
    if session.Some? { ReadSessionEnds(r, Last(h), endpoint.activeSessionId); }
    OwnWritesOnce(c, e.credentialHash, endpoint, same);
    OwnEndpointOnce(OwnConnectWrites(c, e.credentialHash, endpoint, same), session,
                    session.Some? && OnSession(session.value, c.endpointId), Lookup(r.link.links, s.linkId),
                    Lookup(r.controller.endpoints, s.controllerId), Lookup(r.companion.endpoints, s.companionId),
                    c.endpointId, c.connectedAt);
  }

  lemma DisconnectOnce(h: seq<Db>, e: Event)
    requires Sound(h) && e.DisconnectEndpoint? && Reaches(h, e)
    ensures DistinctTargets(Writes(h, e))
  {
    hide Sound, InOrder, TransitionWrites, DistinctTargets, Owns, OwnDisconnectWrites, OnTime, RouteInv, RouteEvolves;
    var endpointId := At(h, e.atConnection).connections[e.connectionId].endpointId;
    var endpoint, r := At(h, e.atEndpoint).endpoints[endpointId], ReadsAt(h, e.tail);
    var session := SessionRead(endpoint, r.session);
    var s := if session.Some? then session.value else NO_SESSION;
    TailSound(h, e.atEndpoint, e.tail);
    if session.Some? { ReadSessionEnds(r, Last(h), endpoint.activeSessionId); }
    OwnRemovalsOnce(e.connectionId, endpointId, endpoint, e.now);
    OwnEndpointOnce(OwnDisconnectWrites(e.connectionId, endpointId, endpoint), session,
                    session.Some? && (session.value.controllerConnectionId == e.connectionId
                                      || session.value.companionConnectionId == e.connectionId),
                    Lookup(r.link.links, s.linkId), Lookup(r.controller.endpoints, s.controllerId),
                    Lookup(r.companion.endpoints, s.companionId), endpointId, e.now);
  }

  lemma RevokeEndpointOnce(h: seq<Db>, e: Event)
    requires Sound(h) && e.RevokeEndpoint? && Reaches(h, e)
    ensures DistinctTargets(Writes(h, e))
  {
    hide Sound, InOrder, TransitionWrites, DistinctTargets, Owns, OwnRevokeEndpointWrites, OnTime, RouteInv,
         RouteEvolves;
    var endpoint, r := At(h, e.atEndpoint).endpoints[e.endpointId], ReadsAt(h, e.tail);
    var session := SessionRead(endpoint, r.session);
    var s := if session.Some? then session.value else NO_SESSION;
    TailSound(h, e.atEndpoint, e.tail);
    if session.Some? { ReadSessionEnds(r, Last(h), endpoint.activeSessionId); }
    OwnRemovalsOnce(e.connectionId, e.endpointId, endpoint, e.now);
    OwnEndpointOnce(OwnRevokeEndpointWrites(e.endpointId, e.connectionId, endpoint, e.now), session,
                    session.Some? && OnSession(session.value, e.endpointId), Lookup(r.link.links, s.linkId),
                    Lookup(r.controller.endpoints, s.controllerId), Lookup(r.companion.endpoints, s.companionId),
                    e.endpointId, e.now);
  }

  lemma RevokeLinkOnce(h: seq<Db>, e: Event)
    requires Sound(h) && e.RevokeLink? && Reaches(h, e)
    ensures DistinctTargets(Writes(h, e))
  {
    hide Sound, TransitionWrites, InOrder, RouteInv, PairInv, LogInv, QuotaInv, RouteEvolves, PairEvolves,
         DistinctTargets, OnTime, RevokeLinkWrites;
    var link, r := At(h, e.atLink).links[e.linkId], ReadsAt(h, e.tail);
    var session := Lookup(r.session.sessions, link.activeSessionId);
    var s := SessionOfLink(link, session);
    SoundAt(h, e.atLink);
    LinkHasEnds(At(h, e.atLink), e.linkId);
    TailSound(h, e.atLink, e.tail);
    if session.Some? { ReadSessionEnds(r, Last(h), link.activeSessionId); }
    RevokeLinkWritesOnce(link, e.endpointId, e.connectionId, session,
                         Lookup(r.controller.endpoints, s.controllerId), Lookup(r.companion.endpoints, s.companionId),
                         e.now);
  }

  lemma RevokeLinkWritesOnce(link: Link, endpointId: Id, connectionId: Id, session: Option<Session>,
                             controller: Option<Endpoint>, companion: Option<Endpoint>, now: int)
    requires SessionOfLink(link, session).controllerId != SessionOfLink(link, session).companionId
    ensures DistinctTargets(RevokeLinkWrites(link, endpointId, connectionId, session, controller, companion, now))
  {
    var s, fence := SessionOfLink(link, session), Fence(endpointId, connectionId);
    var own := [RetireLink(link.linkId, link.activeSessionId, now)];
    if link.activeSessionId != ABSENT {
      hide TransitionWrites;
      TransitionNamesOnce(s, None, controller, companion, now, {LinkItem(link.linkId)}, fence);
      OwnThenTail(own, TransitionWrites(s, None, controller, companion, now, {LinkItem(link.linkId)}, fence),
                  {LinkItem(link.linkId)});
    }
  }

  lemma PlainTransitionOnce(h: seq<Db>, e: Event)
    requires Sound(h) && (e.CloseSession? || e.Repair?) && Reaches(h, e)
    ensures DistinctTargets(Writes(h, e))
  {
    hide Sound, TransitionWrites, RouteInv, RouteEvolves, PairInv, PairEvolves, LogInv, QuotaInv, InOrder, OnTime,
         DistinctTargets;
    var r := ReadsAt(h, e.tail);
    var s := if e.CloseSession? then r.session.sessions[e.sessionId]
        else Vanished(e.sessionId, At(h, e.atLink).links[e.linkId]);
    if e.CloseSession? {
      TailSound(h, e.atCaller, e.tail);
      ReadSessionEnds(r, Last(h), e.sessionId);
    } else {
      SoundAt(h, e.atLink);
      LinkHasEnds(At(h, e.atLink), e.linkId);
    }
    TransitionNamesOnce(s, Lookup(r.link.links, s.linkId), Lookup(r.controller.endpoints, s.controllerId),
                        Lookup(r.companion.endpoints, s.companionId), e.now, {},
                        if e.CloseSession? then e.fence else NoFence);
  }

  lemma OpenOnce(h: seq<Db>, e: Event)
    requires Sound(h) && e.OpenSession? && Reaches(h, e)
    ensures DistinctTargets(Writes(h, e))
  {
    hide Sound, RouteInv, PairInv, LogInv, QuotaInv, RouteEvolves, PairEvolves, DistinctTargets, OnTime, OpenWrites;
    SoundAt(h, e.atLink); SoundAt(h, e.atController); SoundAt(h, e.atCompanion);
    var link := At(h, e.atLink).links[e.linkId];
    var controller, companion := At(h, e.atController).endpoints[link.controllerId],
        At(h, e.atCompanion).endpoints[link.companionId];
    LinkHasEnds(At(h, e.atLink), e.linkId);
    EndpointIsItsKey(At(h, e.atController), link.controllerId);
    EndpointIsItsKey(At(h, e.atCompanion), link.companionId);
    OpenWritesOnce(NewSession(link, controller, companion, e.connectionId, e.sessionId, e.now));
  }

  lemma OpenWritesOnce(s: Session)
    requires s.controllerId != s.companionId
    ensures DistinctTargets(OpenWrites(s))
  {
  }

  lemma FullOnce(h: seq<Db>, e: Event)
    requires e.CommitFull? && Reaches(h, e)
    ensures DistinctTargets(Writes(h, e))
  {
    hide FullWrites, DistinctTargets, LinkFromCommits, Waiting, OnTime, ReciprocalCommits;
    var (first, second) := Ordered(At(h, e.atPair).pairs[e.pairId], e.slot, e.commit);
    FullWritesOnce(At(h, e.atPair).pairs[e.pairId], e.slot, e.commit, LinkFromCommits(first, second, e.now).value,
                   e.sourceKey, Last(h).activationLimit, e.now);
  }

  lemma FullWritesOnce(pair: Pair, slot: Slot, commit: PairCommit, link: Link, sourceKey: Id, activationLimit: int,
                       now: int)
    requires Commit(pair, OtherSlot(slot)).Some?
    requires var (first, second) := Ordered(pair, slot, commit); ReciprocalCommits(first, second)
    ensures DistinctTargets(FullWrites(pair, slot, commit, link, sourceKey, activationLimit, now))
  {
    var (first, second) := Ordered(pair, slot, commit);
    assert first.self.endpointId != second.self.endpointId;
  }

  lemma ShortOnce(h: seq<Db>, e: Event)
    requires Reaches(h, e)
    requires e.ConnectPairing? || e.DisconnectPairing? || e.DropRecord? || e.CreatePair? || e.JoinPair?
             || e.CommitHalf? || e.CancelPair? || e.Rotate? || e.Charge?
    ensures DistinctTargets(Writes(h, e))
  {
    hide OnTime, NewPair, NewConnection, Waiting, ClosesPair, IsMember, Pending, CommitIds, Admits;
  }

  /** Whether it commits or not, and whatever it read: every write list names each item once. */
  lemma WritesNameItemsOnce(h: seq<Db>, e: Event)
    requires Sound(h) && Reaches(h, e)
    ensures DistinctTargets(Writes(h, e))
  {
    hide Sound, OnTime, WriteList, DistinctTargets;
    if e.ConnectEndpoint? { ConnectOnce(h, e); }
    else if e.DisconnectEndpoint? { DisconnectOnce(h, e); }
    else if e.RevokeEndpoint? { RevokeEndpointOnce(h, e); }
    else if e.RevokeLink? { RevokeLinkOnce(h, e); }
    else if e.CloseSession? || e.Repair? { PlainTransitionOnce(h, e); }
    else if e.OpenSession? { OpenOnce(h, e); }
    else if e.CommitFull? { FullOnce(h, e); }
    else { ShortOnce(h, e); }
  }
}
