/** The write lists that the store's operations build from what they read (store.go). */
module Plans {
  import opened Records
  import opened Table
  import opened Transitions

  predicate OnSession(s: Session, endpointId: Id) {
    s.controllerId == endpointId || s.companionId == endpointId
  }

  // ----- Connect

  function OwnConnectWrites(c: Connection, credentialHash: Id, endpoint: Endpoint, same: bool): seq<Write> {
    Opt(!same, PutConnection(c))
    + ([AttachConnection(c.endpointId, credentialHash, endpoint.connectionId, endpoint.activeSessionId,
                         c.connectionId, c.connectedAt)]
    + Opt(endpoint.connectionId != ABSENT && endpoint.connectionId != c.connectionId,
          DeleteConnection(endpoint.connectionId, false)))
  }

  function ConnectWrites(c: Connection, credentialHash: Id, endpoint: Endpoint, same: bool, session: Option<Session>,
                         link: Option<Link>, controller: Option<Endpoint>, companion: Option<Endpoint>): seq<Write>
  {
    OwnConnectWrites(c, credentialHash, endpoint, same)
    + (if endpoint.activeSessionId != ABSENT && session.Some? && OnSession(session.value, c.endpointId)
       then TransitionWrites(session.value, link, controller, companion, c.connectedAt,
                             {EndpointItem(c.endpointId)}, NoFence)
       else [])
  }

  // ----- Disconnect

  function OwnDisconnectWrites(connectionId: Id, endpointId: Id, endpoint: Endpoint): seq<Write> {
    [DeleteConnection(connectionId, true), DetachConnection(endpointId, connectionId, endpoint.activeSessionId)]
  }

  function DisconnectWrites(connectionId: Id, endpointId: Id, endpoint: Endpoint, session: Option<Session>,
                            link: Option<Link>, controller: Option<Endpoint>, companion: Option<Endpoint>,
                            now: int): seq<Write>
  {
    OwnDisconnectWrites(connectionId, endpointId, endpoint)
    + (if && endpoint.activeSessionId != ABSENT
          && session.Some?
          && (session.value.controllerConnectionId == connectionId
              || session.value.companionConnectionId == connectionId)
       then TransitionWrites(session.value, link, controller, companion, now, {EndpointItem(endpointId)}, NoFence)
       else [])
  }

  // ----- RevokeEndpoint

  function OwnRevokeEndpointWrites(endpointId: Id, connectionId: Id, endpoint: Endpoint, now: int): seq<Write> {
    [RetireEndpoint(endpointId, connectionId, endpoint.activeSessionId, now), DeleteConnection(connectionId, false)]
  }

  function RevokeEndpointWrites(endpointId: Id, connectionId: Id, endpoint: Endpoint, session: Option<Session>,
                                link: Option<Link>, controller: Option<Endpoint>, companion: Option<Endpoint>,
                                now: int): seq<Write>
  {
    OwnRevokeEndpointWrites(endpointId, connectionId, endpoint, now)
    + (if endpoint.activeSessionId != ABSENT && session.Some? && OnSession(session.value, endpointId)
       then TransitionWrites(session.value, link, controller, companion, now, {EndpointItem(endpointId)}, NoFence)
       else [])
  }

  // ----- RevokeLink

  /** The session a link points at as its own read gave it, or a CLOSED stand-in when it was not there
      or belonged to another link. */
  function SessionOfLink(link: Link, session: Option<Session>): Session {
    if session.Some? && session.value.linkId == link.linkId then session.value
    else Session(link.activeSessionId, link.linkId, link.controllerId, link.companionId, ABSENT, ABSENT,
                 SessionClosed, 0, 0, 0)
  }

  function RevokeLinkWrites(link: Link, endpointId: Id, connectionId: Id, session: Option<Session>,
                            controller: Option<Endpoint>, companion: Option<Endpoint>, now: int): seq<Write>
  {
    [RetireLink(link.linkId, link.activeSessionId, now)]
    + (if link.activeSessionId == ABSENT then [CheckEndpoint(endpointId, connectionId)]
       else TransitionWrites(SessionOfLink(link, session), None, controller, companion, now,
                             {LinkItem(link.linkId)}, Fence(endpointId, connectionId)))
  }

  // ----- the repair of a pointer whose session is gone

  function Vanished(sessionId: Id, link: Link): Session {
    Session(sessionId, link.linkId, link.controllerId, link.companionId, ABSENT, ABSENT, SessionClosed, 0, 0, 0)
  }

  // ----- OpenSession

  const SESSION_SECONDS := 2 * 60 * 60

  function NewSession(link: Link, controller: Endpoint, companion: Endpoint, connectionId: Id, sessionId: Id,
                      now: int): Session
  {
    Session(sessionId, link.linkId, controller.endpointId, companion.endpointId, connectionId,
            companion.connectionId, SessionActive, now, now + SESSION_SECONDS, 0)
  }

  function OpenWrites(s: Session): seq<Write> {
    [PutSession(s), ClaimLink(s.linkId, s.sessionId),
     ClaimEndpoint(s.controllerId, s.controllerConnectionId, s.sessionId),
     ClaimEndpoint(s.companionId, s.companionConnectionId, s.sessionId)]
  }
}
