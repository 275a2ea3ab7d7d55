# Remote Davinci: a verified model of its relay and of both clients

Remote Davinci lets a controller app drive an editing program on another computer through a relay. This
project models the parts in which the order of events decides: the relay's one table with its conditional
transactions, the handler around it, both clients' enrolment, their reorder buffers, the Noise initiators,
the exact reading of JSON numbers, and the companion's control processor. `dafny verify dfyconfig.toml`
checks all of it.

## What is modelled

**The relay.** `Table` is the single table with its conditional writes; a transaction commits when it names no
item twice and all its conditions hold. `Plans`, `Transitions` and `ActivationStep` are the write lists that the
operations build from what they read. `Runs.ValidRun` is any interleaving of any number of invocations: each
event is the clock, a TTL deletion, or one committed transaction together with the indices of the earlier tables
that its reads saw, so a read may be arbitrarily stale. `Specs`, `Pairing` and `Steps` say what each request
does as one step on the table at its commit, and `Atomicity` proves that the committed transactions are those
steps. `RouteTheorems`, `PairTheorems`, `Expiry` and `Shortfalls` hold the theorems over whole runs.
`RelayStore.Store` runs the operations as the code does, one read at a time, retry loops included, with
arbitrary steps of others between any two reads, and each method's result is tied to the table that justifies
it; `Alone` says what the table alone calls for when nobody else is at work. `RelayHandler.Handler` adds the
posts and the clean-up cascade: `tried` is every message handed to the gateway, `posted` every one delivered,
and `RelayHandler.Went` says what an invocation has spent on clean-ups in terms of the connection records that
went.

**The clients.** `Checkpoint` is the enrolment of both clients as an automaton. `Enrolments` puts two clients
beside a run of the relay: what they are answered is what the handler's contracts allow, and every such run is
shown to be a run of the automaton. `Losses` says when credentials of an existing link can be lost.

**The rest.** `Reorder` and `Buffers` are the three receivers of numbered frames. `Noise` is the token
interpreter of the Noise Protocol Framework, revision 34 (sections 5.1 to 5.3, 7.5 and 9), and `NoiseInitiators`
the two hand-written initiators; `NoiseBinding` is what a handshake rules out. `JsonNumbers`, `JsonMarking` and
`JsonIntegers` read numbers by the grammar of section 6 of RFC 8259. `Control` is the control processor.

## What is taken for granted

- Reads are strongly consistent and transactions are atomic and isolated. A transaction over an empty write list
  is an empty step.
- Generated connection, session, pair and side IDs are never used before; the put of such a record carries that
  as part of its condition.
- There is one clock that does not turn back. Every invocation that writes its clock reading commits within ten
  seconds of taking it (infra/cdk/lib/rendezvous-relay-stack.ts:141) and never reads ahead of the table's clock
  (`Runs.OnTime`). This is part of every run, so every theorem over runs is stated under it; what turns on it is
  the quota, the order of expiries, and the two failures below.
- TTL may delete a connection, session, pair, admission or rate record at any time after its `expiresAt`, or
  never. Links and endpoints have no expiry.
- A connection record lives for 7500 seconds from its connect, a pair for 300 from its creation.
- Each `pair.commit` reaches the relay at most once, and only the two clients commit to their pair, each over
  its own connection.
- An invocation has time for finitely many clean-ups, any number of them, and dies without a reply only when they
  are used up (`RelayHandler.Ended`). This is needed only while others keep connecting: where nobody connects the
  cascade ends by itself (`RelayHandler.Handler.Cleanup`).
- Hashes, MACs, AEAD and DH are functions of which only the laws of `Noise.Lawful` are used, and, where a result
  says so, those of `Noise.Ideal`: inputs do not collide, and nothing opens but what was sealed so.

## What does not hold

- A connect is not always one atomic step. It may take a stored connection record for its own
  (services/rendezvous-relay/internal/relay/store.go:193-203) and then not put one; the record can expire before
  the commit, and the endpoint is left on a connection that has no record. `Witness.ConnectCanMissItsRecord`
  is a run in which that happens; it needs a second `$connect` event for one connection ID, 7495 seconds after
  the first. `RouteTheorems.RunIsAtomic` says that it is the only way any request differs
  from its atomic step, and `Shortfalls.ConnectIsAtomicIffRecordOutlives` says when a caller may rely on it: if
  and only if the record, as it was read, has the ten seconds of an invocation left.
- ACTIVE is not always final. A cancel that read its pair before it was activated writes `CLOSED` to whatever is
  there (services/rendezvous-relay/internal/relay/store.go:772-782); if the record of the activated pair has
  expired meanwhile, the update creates an item with a status and nothing else, and both sides are told that the
  pair is closed. `Witness.StubIsReached` is such a run, `Shortfalls.ActiveIsFinal` the exact condition over runs
  and `Shortfalls.CancelIsSafeIffPairOutlives` the exact condition for the caller. A client still waiting for
  its reply then deletes the credentials of a link that exists: `Losses.CredentialsAreLostIffStubbed` and
  `Losses.SomeRunLosesCredentials`.
- A disconnect does not always close its connection's pair: a create or a join can commit between its read of the
  record and its delete, and then neither it nor the clean-up after it closes the pair, which stays until it is out
  of time. `Witness.DisconnectCanLeavePair` is such a run and `Shortfalls.DisconnectLeavesPair` the exact condition.
  Likewise a side that joins between the read of a cancel and its write is not told of the closing.
- Four branches are never of any effect, all in services/rendezvous-relay/internal/relay/store.go: a disconnect
  whose endpoint was read elsewhere never commits (331-337), its last branch never has a session (383-387), a
  revoked link never has one either (831-841), and an open never finds an endpoint of its link missing
  (1017-1019). On the handler's side, a clean-up that cancels for a connection assigned to the pair is never
  refused as a stranger's (services/rendezvous-relay/internal/relay/handler.go:303-305).

## Model

| member | source | states |
|---|---|---|
| `Records.LinkJoinsBothCommits` | services/rendezvous-relay/internal/relay/model.go:127-149 | Two commits make a link if and only if each names the other's endpoint and role under the same link ID; in either order it is the same link, which has that ID, is ACTIVE, new and without a session, and joins the two committed endpoints, each under the role its own and its peer's commit give it. |
| `RouteTheorems.RunIsAtomic` | services/rendezvous-relay/internal/relay/store.go:166-1261 | Whatever its reads missed, every transaction that commits in any run is the atomic step of its request, with guard and effect read off the table at the commit alone; the one exception is a connect that took a stored record for its own, which is atomic exactly when that record is still there. A disconnect that read its endpoint elsewhere never commits. |
| `Atomicity.RevokeLinkIsAtomic` | services/rendezvous-relay/internal/relay/store.go:817-904 | A committed link revocation, built from stale reads, is one step: its caller is current on the table at the commit, the link is ACTIVE and the caller's, and the link ends REVOKED with its session closed and every pointer to that session gone. |
| `Atomicity.RevokeEndpointIsAtomic` | services/rendezvous-relay/internal/relay/store.go:925-998 | The same for an endpoint: current caller, and its credential, connection and session go in the one step. |
| `Atomicity.OpenIsAtomic` | services/rendezvous-relay/internal/relay/store.go:1046-1092 | A committed open is one step that finds link ACTIVE and idle, both ends up, idle and unrevoked, and makes the session that fresh reads would make. |
| `Atomicity.CloseIsAtomic` | services/rendezvous-relay/internal/relay/store.go:1139-1173 | A committed close is one step that ends the session as stored at the commit and takes every pointer to it; a fenced one finds its caller current and, if the session is still stored, an end of it. |
| `Atomicity.DisconnectIsAtomic` | services/rendezvous-relay/internal/relay/store.go:327-387 | A committed disconnect of an endpoint is one step on the table at the commit: endpoint off its connection, record gone, session closed. |
| `Atomicity.JoinIsAtomic` | services/rendezvous-relay/internal/relay/store.go:530-587 | A committed join fills the second side of a pair that is OPEN, in time and admitted at the commit, and assigns a connection that no pair has. |
| `Atomicity.FullIsAtomic` | services/rendezvous-relay/internal/relay/store.go:673-751 | A committed second commit activates, in one step, a pair that is HALF and in time at the commit: pair, link, both endpoints, both quotas and log. |
| `Transitions.WritesAreRelease` | services/rendezvous-relay/internal/relay/store.go:1189-1255 | Where the reads found what fresh reads would find, applying the write list ends the session if it is ACTIVE, takes its pointer off its link and both its endpoints, and changes nothing else. |
| `Transitions.StaleReadsAgree` | services/rendezvous-relay/internal/relay/store.go:1202-1245 | If the conditions of the write list hold at the commit then reads made in the store's order called for the same writes that fresh reads would. |
| `Refinement.HeldSessionRunsOnConnection` | services/rendezvous-relay/internal/relay/store.go:363-387 | A session found through the pointer of an endpoint read on this connection runs on this connection, so the last branch of the disconnect is taken only when no session is found. |
| `Refinement.FoundSessionIsOnLink` | services/rendezvous-relay/internal/relay/store.go:877-887 | A session found through a link's pointer belongs to that link, so the stand-in is used only when none is found. |
| `Refinement.StaleDisconnectNeverCommits` | services/rendezvous-relay/internal/relay/store.go:331-337 | The transaction of a disconnect whose endpoint was read elsewhere never meets its condition. |
| `NamedOnce.WritesNameItemsOnce` | services/rendezvous-relay/internal/relay/store.go:166-1261 | No transaction that any operation can reach in any run names the same item twice. |
| `RouteTheorems.RoutesAreConsistent` | services/rendezvous-relay/internal/relay/store.go:166-1261 | In every table of every run an ACTIVE session is pointed at by its link, its controller and its companion and by nothing else, the link is ACTIVE, both ends are unrevoked and up on the connections it recorded; every pointer names an ACTIVE session of its item or a vanished record; two ACTIVE sessions share neither link nor endpoint. |
| `RouteTheorems.LinkRevocationIsPermanent` | services/rendezvous-relay/internal/relay/store.go:817-904 | From any table with a REVOKED link on, that link never changes, has no ACTIVE session, and no step opens on it, revokes it or pairs it anew. |
| `RouteTheorems.EndpointRevocationIsPermanent` | services/rendezvous-relay/internal/relay/store.go:925-998 | From any table with a revoked endpoint on, it never changes, keeps neither session, connection record nor credential, and no step connects it, acts for it or pairs it. |
| `RouteTheorems.SessionClosesOnce` | services/rendezvous-relay/internal/relay/store.go:1139-1261 | Of all steps of a run at most one closes a given session; it found it ACTIVE and left it CLOSED, and no later table has it ACTIVE. |
| `RouteTheorems.CallersAreCurrent` | services/rendezvous-relay/internal/relay/store.go:805-1096 | Every committed open, rotation, revocation or fenced close has its caller's connection current and its endpoint unrevoked on the table at the commit. |
| `PairTheorems.PairLifecycle` | services/rendezvous-relay/internal/relay/store.go:448-794 | OPEN and READY pairs hold no commit, HALF ones exactly one, ACTIVE ones both, reciprocal and from two connections; in later tables a pair's sides and commits are only filled in, its status only moves forward, and ACTIVE or CLOSED it stays as it is while it is stored. |
| `PairTheorems.OneMembershipForever` | services/rendezvous-relay/internal/relay/store.go:448-587 | Over a whole run a connection is on at most one side of at most one pair. |
| `PairTheorems.MembersStayMembers` | services/rendezvous-relay/internal/relay/store.go:754-770 | A connection assigned to a pair is a member of it in every later table that stores the pair, so its cancel is not refused as a stranger's. |
| `PairTheorems.LinksComeFromOneActivation` | services/rendezvous-relay/internal/relay/store.go:673-751 | Every link of every table was made by exactly one step, the activation of two reciprocal commits from two connections, and in every later table joins the same endpoint that is a controller to the same other that is a companion. |
| `PairTheorems.QuotaIsConserved` | services/rendezvous-relay/internal/relay/store.go:408-439 | While a pair.activate record lives its count is the number of links activated in its bucket; no bucket exceeds its limit, and a bucket with activations but no record is over. |
| `PairTheorems.CurrentQuotaIsNeverDropped` | services/rendezvous-relay/internal/relay/store.go:408-423 | TTL takes such a record only when its bucket and the next are over. |
| `PairTheorems.AnyWindowAdmitsTwiceTheLimit` | services/rendezvous-relay/internal/relay/store.go:408-439 | Any stretch of one window's length, wherever it starts, holds at most twice the limit of activations. |
| `PairMoves.RunMovesPair` | services/rendezvous-relay/internal/relay/store.go:448-794 | Every step of every run moves every pair it has stored along one automaton: only an activation by reciprocal commits makes it ACTIVE, only the committing side's slot is filled, and nothing but a cancel or a gone member closes it. |
| `Expiry.RecordStays` | infra/cdk/lib/rendezvous-relay-stack.ts:121-121 | A connection record outlasts every commit before its expiry that still finds the endpoint on that connection. |
| `Expiry.PairStays` | infra/cdk/lib/rendezvous-relay-stack.ts:121-121 | A pair record outlasts every commit before its expiry, whatever happens to the pair. |
| `Shortfalls.ConnectIsAtomicIffRecordOutlives` | services/rendezvous-relay/internal/relay/store.go:195-279 | A connect at its transaction is the atomic step in every continuation if and only if the record it took for its own, as read, has an invocation's ten seconds left. |
| `Shortfalls.MissedRecord` | services/rendezvous-relay/internal/relay/store.go:195-279 | Whenever a step of a run is not atomic it is a connect that leaves its endpoint on a connection without a record. |
| `Witness.ConnectCanMissItsRecord` | services/rendezvous-relay/internal/relay/store.go:195-279 | Failure: a run from the empty table in which a second connect of one endpoint over one connection ID, 7495 seconds after the first, is not the atomic step and leaves the endpoint on a connection without a record. |
| `Shortfalls.CancelLeavesStub` | services/rendezvous-relay/internal/relay/store.go:772-794 | A committed cancel leaves an item that says CLOSED and nothing else if and only if the pair's record was not stored at the write; once the pair has been activated it always does. |
| `Shortfalls.CancelIsSafeIffPairOutlives` | services/rendezvous-relay/internal/relay/store.go:754-794 | A cancel leaves no such stub in any continuation if and only if the pair, as read, has ten seconds left. For a pair that is activated already, that is also exactly when the cancel never commits at all. |
| `Shortfalls.ActiveIsFinal` | services/rendezvous-relay/internal/relay/store.go:614-794 | An ACTIVE pair that is still stored is unchanged if and only if no cancel in between has left a stub in its place. |
| `Shortfalls.InTimeNeverStubs` | services/rendezvous-relay/internal/relay/store.go:754-794 | In a run whose cancels all read their pair with ten seconds left, no cancel leaves a stub. |
| `Witness.StubIsReached` | services/rendezvous-relay/internal/relay/store.go:754-794 | Failure: a run from the empty table in which a cancel reads a half-committed pair five seconds before its expiry, the pair is activated by reciprocal commits, its record expires, and the cancel leaves a stub. |
| `Shortfalls.DisconnectLeavesPair` | services/rendezvous-relay/internal/relay/store.go:283-326 | A disconnect that takes the record of a connection on a pending pair leaves the pair as it is if and only if it did not read the record on that pair and the pair pending with the connection on it; otherwise it closes the pair. |
| `Witness.DisconnectCanLeavePair` | services/rendezvous-relay/internal/relay/store.go:283-326 | Failure: a run from the empty table in which the creator's disconnect read its record before the pair was created, commits after it, and leaves the pair OPEN without its creator. |
| `RelayStore.Store.Connect` | services/rendezvous-relay/internal/relay/store.go:166-281 | Ok means that this invocation attached the connection, and the reported session is the one its step closed, or that the endpoint was found on it with nothing to do; a final refusal means malformed input or a table in which credential or revocation shuts it out. An error means that nothing of this invocation has committed; a retryable one that others' steps overtook all five of its attempts or that its time is up, or that the connection's ID has been used before; run alone it answers exactly as the table it starts from calls for (`Alone.ConnectAlone`). |
| `RelayStore.Store.Disconnect` | services/rendezvous-relay/internal/relay/store.go:283-390 | A result means that one step took exactly this connection record, returns the record that was read and reports the session that the step closed; no result means that the record was not there; every error is retryable. An error means that nothing of this invocation has committed; it then means that others' steps overtook all five of its attempts or that its time is up; run alone it never errs, and has a result if and only if the record is stored. |
| `RelayStore.Store.Connection` | services/rendezvous-relay/internal/relay/store.go:392-402 | Ok if and only if the record is stored and unexpired on the table read, and then it is that record. |
| `RelayStore.Store.RateLimit` | services/rendezvous-relay/internal/relay/store.go:404-439 | Ok means that this minute's count was below the limit and is one higher; RateLimited means that it was not below. Ok has charged this minute's record, to be kept until the next is over; run alone it is refused exactly when the count has reached the limit. |
| `RelayStore.Store.CreatePair` | services/rendezvous-relay/internal/relay/store.go:448-484 | Ok means that the pair is stored as given by one step; InvalidMessage if and only if not exactly one of locator and join token is given; the retryable Conflict only on a table that cannot take the pair. An error means that nothing of this invocation has committed; run alone it is refused exactly as the table calls for. |
| `RelayStore.Store.PairByAdmission` | services/rendezvous-relay/internal/relay/store.go:494-513 | The pair returned is stored, in time, and names the locator or join token it was found by. Expired means that the last table read has no admission in time, or has the pair that an admission read in time names missing or out of time; unavailable means that the two do not name each other. Run alone it answers exactly as the table calls for. |
| `RelayStore.Store.PairByID` | services/rendezvous-relay/internal/relay/store.go:515-528 | Expired if and only if the pair is missing or out of time on the table read; otherwise it is the stored pair, or unavailable because the item is not a pair of that ID. |
| `RelayStore.Store.JoinPair` | services/rendezvous-relay/internal/relay/store.go:530-587 | Ok returns the pair as its own step stored it, with this side; expired and unavailable mean what they mean of the admission; PairFull means a table on which the pair that was admitted to is not open to this side; InvalidMessage if and only if not exactly one of locator and join token is given. An error means that nothing of this invocation has committed; run alone it is refused exactly as the table calls for. |
| `RelayStore.Store.CommitPair` | services/rendezvous-relay/internal/relay/store.go:614-752 | Ok returns the pair stored at a table, which holds this very commit, with a link if and only if the pair is ACTIVE, and then the link as a table from there on stores it; it says activated-now only if its own step activated the pair and stored the link; RateLimited only when a quota is used up; every other final refusal is one that the table justifies, and no refusal comes from an invocation whose commit ran. A retryable error means that another's step came in between, that the time is up, that the source is unknown, or that the link or an endpoint is taken; run alone it answers exactly as the table calls for (`Alone.CommitAlone`). |
| `RelayStore.Store.CancelPair` | services/rendezvous-relay/internal/relay/store.go:754-794 | A pair returned is CLOSED on some table and has the sides of the stored one; none means missing or expired; Conflict means ACTIVE; any other final refusal means a stored pair in time that either does not have the caller as a member or is no pair of that ID. An error means that nothing of this invocation has committed; a retryable one that its time is up; run alone it answers exactly as the table calls for. |
| `RelayStore.Store.CurrentEndpoint` | services/rendezvous-relay/internal/relay/store.go:152-164 | Ok if and only if the caller is current on the table read, and then it is the stored endpoint. |
| `RelayStore.Store.RevokeLink` | services/rendezvous-relay/internal/relay/store.go:817-904 | Ok returns the link as stored, REVOKED and without a session, with the session that its own step closed; a final refusal means a table on which the caller is not current or the link not its own. The branch for a revoked link that still has a session is not taken. An error means that nothing of this invocation has committed; a retryable one that others' steps overtook all five of its attempts or that its time is up; run alone it is Ok if and only if the caller is current and the link stored with the caller as an end, and otherwise exactly the refusal that this calls for. |
| `RelayStore.Store.RotateEndpoint` | services/rendezvous-relay/internal/relay/store.go:906-923 | Ok means that one step stored the new credential; a final refusal means that the caller is not current at the write. An error means that nothing of this invocation has committed; a retryable one that its time is up; run alone it is Ok if and only if the caller is current. |
| `RelayStore.Store.RevokeEndpoint` | services/rendezvous-relay/internal/relay/store.go:925-998 | Ok returns the endpoint as stored by its own step and the session that step closed. An error means that nothing of this invocation has committed; a retryable one that others' steps overtook all five of its attempts or that its time is up; run alone it is Ok if and only if the caller is current. |
| `RelayStore.Store.OpenSession` | services/rendezvous-relay/internal/relay/store.go:1000-1096 | Ok means that one step opened this session on an idle route; every error is one that a table justifies, PeerBusy by an unexpired ACTIVE session or by passes run out. Run alone it needs at most two passes and errs exactly as the table it starts from says. The session opened is live for exactly 7200 seconds from the clock reading. An error means that no step of this invocation has opened one. |
| `RelayStore.Store.RepairAll` | services/rendezvous-relay/internal/relay/store.go:1021-1037 | Run alone, one pass clears every stale pointer of link, controller and companion, and is refused if and only if an unexpired ACTIVE session holds one of them. |
| `RelayStore.Store.RepairStaleSession` | services/rendezvous-relay/internal/relay/store.go:1098-1119 | false means an unexpired ACTIVE session; run alone it is false exactly then, and otherwise the session is ended and its pointers are gone. |
| `RelayStore.Store.Session` | services/rendezvous-relay/internal/relay/store.go:1121-1137 | Ok returns a session that is ACTIVE on a table read in this call and unexpired; SessionNotFound means a table on which it is not, and leaves it ACTIVE no more: an expired one has been closed. Run alone it is Ok if and only if the session is stored, ACTIVE and unexpired, and errs with SessionNotFound otherwise. |
| `RelayStore.Store.CloseSession` | services/rendezvous-relay/internal/relay/store.go:1139-1173 | A result means that a step of this call committed; closed-now if and only if that step closed the session, which is returned as stored; otherwise it had been closed and stays so. No result means no record. A final refusal means a caller not current or not on the session. An error means that nothing of this invocation has committed; a retryable one that others' steps overtook all five of its attempts or that its time is up; run alone it is refused exactly when the caller, if there is one, is not current or not on the stored session, and otherwise it is the one-step close. |
| `RelayStore.Store.TransitionOperations` | services/rendezvous-relay/internal/relay/store.go:1180-1255 | The list appended read by read is the caller's prefix followed by the transition's writes for exactly those reads, each made after the session's. |
| `StoreSteps.TransitionReported` | services/rendezvous-relay/internal/relay/store.go:1256-1260 | A committed list of this shape closes its session if and only if the session was read ACTIVE, and the closed session reported is the one stored. |
| `StoreSteps.RecordsOnlyGo` | services/rendezvous-relay/internal/relay/store.go:166-281 | In a run in which nobody connects from some table on, the connection records of a later table are among those of the earlier one, whatever else is requested. |
| `RelayHandler.PeerConnection` | services/rendezvous-relay/internal/relay/handler.go:129-140 | Ok if and only if the connection is a side of the pair, and then it is the other side, or none while nobody has joined. |
| `RelayHandler.SessionPeer` | services/rendezvous-relay/internal/relay/handler.go:142-150 | Ok if and only if the connection is an end of the session, and then it is the other end. |
| `RelayHandler.Handler.Notify` | services/rendezvous-relay/internal/relay/handler.go:175-193 | Whatever others do, the message is handed to the gateway unless there is nobody to address, whatever else is posted is a note of the clean-up it sets off, true means that it was delivered, and all that was ever posted keeps its grounds in the run. Where nobody connects meanwhile it costs no more clean-ups than three for each connection record that goes, and one. False for a connection means that some table of the call no longer stores its record. |
| `RelayHandler.Handler.NotifyClosedSession` | services/rendezvous-relay/internal/relay/handler.go:206-219 | Success means that both ends of the session that a step closed, but for the one to be skipped, have been addressed with it; nothing but close notes is posted, each to an end of a session that a step closed or to a member of a pair that a table has CLOSED; any error is retryable. Where nobody connects meanwhile it costs no more clean-ups than three for each connection record that goes, and two. |
| `RelayHandler.Handler.NotifyOpenedSession` | services/rendezvous-relay/internal/relay/handler.go:221-240 | Ok means that each end was told the session and its peer's endpoint. |
| `RelayHandler.Handler.CloseAndNotify` | services/rendezvous-relay/internal/relay/handler.go:283-292 | Ok means that the session is ACTIVE no more and, if a step of this call closed it, that both its ends have been addressed; nothing but grounded close notes is posted. Run alone it errs only as the table calls for or because an end could not be told, and without a fence it always leaves the session ACTIVE no more. |
| `RelayHandler.Handler.Cleanup` | services/rendezvous-relay/internal/relay/handler.go:294-319 | Success means that some table of the call no longer stores the connection; and if a step of this call took the record, that the other end of the session which that step closed has been addressed with it, that the pair on which the record was read is CLOSED, ACTIVE or out of time on a table of the call, and, where that is called for and it is CLOSED, that its other side as read has been addressed. The cascade ends by itself where nobody connects meanwhile: then no more clean-ups are made, nested ones included, than three for each connection record that goes, and one; so with time for more than three for each stored record, and one, it replies and never dies, and the requests that set it off reply likewise. Whatever others do, it dies only with no time left, posts only grounded close notes, and any error is retryable. |
| `RelayHandler.Handler.PostPairFrame` | services/rendezvous-relay/internal/relay/handler.go:321-348 | Posts at most one frame, to the other side of a pair that was between join and activation on a table read in this call, whatever others do; on an early error it posts nothing. The source has been charged for it, 120 a minute; run alone it is handed to the gateway if and only if the table allows it. |
| `RelayHandler.Handler.PostSessionFrame` | services/rendezvous-relay/internal/relay/handler.go:350-382 | Posts at most one frame, to the other end of a session that was ACTIVE and unexpired on a table read in this call, whatever others do; for a session closed before the call began it errs and posts nothing. The sender was an endpoint's unexpired connection on a table of the call and its endpoint has been charged, 3600 a minute; run alone it is handed to the gateway if and only if the table allows it. |
| `RelayHandler.NoFrameAfterClose` | services/rendezvous-relay/internal/relay/handler.go:350-382 | A session that some step has closed is ACTIVE on no later table, so no frame whose session read comes after the close is posted. |
| `RelayHandler.Handler.RelaySessionFrame` | services/rendezvous-relay/internal/relay/handler.go:350-382 | With the clean-up of an end that is gone, and whatever others do: Ok means that this one frame was posted and nothing else; anything short of Ok posts close notes at most; for a session closed before the call began it is not Ok. PeerOffline means that the other end's record is gone. |
| `RelayHandler.Handler.RelayPairFrame` | services/rendezvous-relay/internal/relay/handler.go:321-348 | Likewise for pair.frame. |
| `RelayHandler.Handler.CommitRequest` | services/rendezvous-relay/internal/relay/handler.go:463-495 | Whatever others do: Ok means that a table holds this commit for the pair, true if and only if the pair is ACTIVE in it, and then each side that committed has been addressed; an error that is not retryable means that this request committed nothing; otherwise the invocation dies without a reply, and not that where nobody connects meanwhile and there is time for more than three clean-ups for each stored connection record, and two. Run alone it errs only as the table calls for, or with the pair ACTIVE because a side could not be told. |
| `RelayHandler.Handler.RevokeLinkRequest` | services/rendezvous-relay/internal/relay/handler.go:549-573 | Ok means that the link, which has the caller as an end, is REVOKED on a table of this run, that both ends of the session that its own step closed have been addressed, and that the other end of the link has been addressed with link.revoked if it was up when it was read after that. Run alone it errs only as the table calls for, or with the link REVOKED because an end could not be told. |
| `RelayHandler.Handler.OpenSessionRequest` | services/rendezvous-relay/internal/relay/handler.go:610-626 | Ok means that a step opened the session on this link and that both its ends were told it, each with the other's endpoint. Run alone it errs only as the table calls for or because an end could not be told, and an error leaves no session behind: the one that could not be announced is ACTIVE no more. |
| `Enrolments.RunsAreEnrolments` | internal/companion/pairing.go:578-668 | Every run of the relay with any course of both clients beside it, replies as the handler gives them and each commit delivered at most once, is a run of the enrolment automaton in which the pair is, at every moment, the pair of the run's table, and each client takes the turns it took. |
| `Enrolments.AnswersAreTruthful` | services/rendezvous-relay/internal/relay/handler.go:463-495 | What the relay's replies tell a client is so: a definite refusal means that its commit has not run, pending that it has, active that the pair is activated as well. |
| `Enrolments.ActiveIsBacked` | internal/companion/pairing.go:389-427 | In every reachable state, through crashes and lost replies, an ACTIVE pair holds both clients' commits and both durable stores hold the link with the secrets that were committed. |
| `Enrolments.ActivatedIsBacked` | internal/companion/pairing.go:389-427 | The same of an activated link after its pair record has gone, unless a cancel has left a stub. |
| `Enrolments.DiscardsAreSafe` | apps/controller/RemoteDavinciController.swiftpm/Sources/ControllerCore/Pairing.swift:129-143 | A client discards its credentials only when the pair is not and never will be ACTIVE, and when the link does not and never will exist, unless a stub had been left by then. |
| `Enrolments.RecordsGoWhenRefused` | apps/controller/RemoteDavinciController.swiftpm/Sources/ControllerCore/Pairing.swift:129-143 | Between any two moments of a joint run a saved record goes if and only if in between its client, having sent its commit, is told a final refusal or that the pair is closed, or, on the controller, gives up before sending, with a store that obeys; on every other error it stays, and once gone it is gone for good. |
| `Enrolments.AnswersAreTaken` | internal/companion/pairing.go:419-427 | A client takes the relay's answer to its commit for what it is: it is confirmed by Ok active alone, goes on waiting only at Ok pending, and lets its record go exactly at an error that is not retryable, with a store that obeys. |
| `Enrolments.ConfirmationsAreTrue` | apps/controller/RemoteDavinciController.swiftpm/Sources/ControllerCore/Pairing.swift:465-509 | A client that takes its enrolment for confirmed is right, and so is a record that is no longer marked as pending: the pair has been activated. |
| `Enrolments.InTimeNothingIsLost` | internal/companion/pairing.go:389-427 | Where all cancels read their pair with ten seconds left, both stores hold the credentials of every activated link. |
| `Losses.CredentialsAreLostIffStubbed` | internal/companion/pairing.go:654-668 | Over a given run of the relay some course of the clients leaves an existing link without credentials if and only if some cancel left a stub of its pair after activation. |
| `Losses.SomeRunLosesCredentials` | apps/controller/RemoteDavinciController.swiftpm/Sources/ControllerCore/Pairing.swift:307-372 | Failure: a run from the empty table at whose end the link exists and the controller has deleted its credentials. |
| `Buffers.SecureChannel.Receive` | internal/companion/relay.go:397-441 | A frame is refused, changing nothing, if and only if it is not new, not in the window or too large; otherwise it is taken and all that has become contiguous is opened, and the channel breaks only if some of that does not open. |
| `Buffers.SecureChannel.ReceivePacket` | internal/companion/relay.go:443-481 | A packet is taken if and only if it is the handshake, when that is due, or sealed under the key and the next nonce; otherwise nothing changes. |
| `Reorder.CapacityNeverBinds` | internal/companion/relay.go:404-421 | Given the window and the size limit, the checks on count and bytes of the pending packets never refuse a frame. |
| `Buffers.PairReader.NextPairPacket` | internal/companion/pairing.go:476-523 | The next packet is returned once the frames read so far contain it; frames are taken exactly while they are acceptable, and it waits only with every frame read. |
| `Buffers.RelayFrameBuffer.Insert` | apps/controller/RemoteDavinciController.swiftpm/Sources/ControllerCore/Controller.swift:364-401 | A frame is taken if and only if it is acceptable, and what is handed over is exactly what it made contiguous. |
| `Buffers.QueuedReader.ReceivePairFrame` | apps/controller/RemoteDavinciController.swiftpm/Sources/ControllerCore/Pairing.swift:431-463 | Packets come one at a time in the order of their numbers, reading on only when none is ready. |
| `Buffers.PullAll` | internal/companion/pairing.go:476-523 | On any trace the lazy Go buffer hands over the contiguous prefix that the common contract accepts, and stops at the first frame that the contract refuses, or takes the trace whole. |
| `Buffers.QueueAll` | apps/controller/RemoteDavinciController.swiftpm/Sources/ControllerCore/Pairing.swift:431-463 | The Swift pairing reader hands over the same packets of the same trace and stops at the same frame. |
| `Buffers.InsertAll` | apps/controller/RemoteDavinciController.swiftpm/Sources/ControllerCore/Controller.swift:364-401 | So does the Swift session buffer behind the check on empty payloads. |
| `Buffers.ReceiveAll` | internal/companion/relay.go:397-441 | The eager Go buffer takes the same frames until one does not open. |
| `Reorder.ReceiversAgree` | internal/companion/relay.go:404-421 | The session's contract and the stricter one of pairing take the same trace alike if and only if the session would take no empty frame of it. |
| `Reorder.AcceptedIsWindowed` | internal/companion/relay.go:397-441 | A trace of frames of admissible size is taken whole if and only if no number repeats and each frame comes within eight of the first one missing. |
| `Reorder.WindowedIsComplete` | internal/companion/relay.go:397-441 | Frames 1 to n in any such order are all taken, none is left over, and they are handed over in order. |
| `Buffers.HonestSession` | internal/companion/relay.go:397-481 | On an honest sender's frames in any such order the session never refuses or breaks, ends with nothing pending and has every plaintext in order. |
| `Buffers.Sender.SendPacket` | internal/companion/relay.go:511-525 | Frames are numbered one after the other from the handshake on, and packets sealed under nonces one after the other. |
| `JsonNumbers.NumberEndIsLongest` | apps/controller/RemoteDavinciController.swiftpm/Sources/ControllerCore/ProtocolJSON.swift:85-117 | The scan finds the longest prefix that the grammar of section 6 of RFC 8259 accepts, or there is none. |
| `JsonNumbers.ScanNumber` | apps/controller/RemoteDavinciController.swiftpm/Sources/ControllerCore/ProtocolJSON.swift:85-117 | The scanner's loops compute that end. |
| `JsonNumbers.NumberWithinLimits` | apps/controller/RemoteDavinciController.swiftpm/Sources/ControllerCore/ProtocolJSON.swift:65-83 | Accepts if and only if the literal has at most 128 bytes and its exponent, read as a number, is at most 4096. |
| `JsonMarking.MarkingNumbers` | apps/controller/RemoteDavinciController.swiftpm/Sources/ControllerCore/ProtocolJSON.swift:19-63 | The marking loop accepts exactly the documents whose numbers outside strings are within the limits, and gives them with each such literal as a marked string and every other byte untouched. |
| `JsonMarking.MarkingLosesNothing` | apps/controller/RemoteDavinciController.swiftpm/Sources/ControllerCore/ProtocolJSON.swift:19-63 | For every byte string accepted, and a marker not in it, taking the marked strings back out gives the input again. |
| `JsonMarking.LiteralsAreNumbers` | apps/controller/RemoteDavinciController.swiftpm/Sources/ControllerCore/ProtocolJSON.swift:19-63 | Every literal that is marked is a number of the grammar within the limits. |
| `JsonIntegers.ExactSafeInt64` | apps/controller/RemoteDavinciController.swiftpm/Sources/ControllerCore/ProtocolJSON.swift:171-230 | Returns n exactly when the literal's rational value is the integer n between -(2^53-1) and 2^53-1, clamped exponent notwithstanding. |
| `JsonIntegers.NormalizedIsExact` | protocol/validate.go:256-273 | The rational normalisation gives n if and only if the literal's value is the integer n of 64 bits. |
| `JsonIntegers.BothSidesAgree` | protocol/validate.go:229-273 | On the safe range both sides read the same integer off every literal. |
| `Noise.HkdfIsRfc5869` | apps/controller/RemoteDavinciController.swiftpm/Sources/ControllerCore/Noise.swift:342-366 | The two derivations are the first two and three blocks of HKDF of RFC 5869, with the chaining key for salt. |
| `Noise.SplitsApart` | apps/controller/RemoteDavinciController.swiftpm/Sources/ControllerCore/Noise.swift:290-293 | Over primitives without collisions the two directions never share a key, and the keys of two handshakes are the same only for the same chaining key and direction. |
| `Noise.MessageMatches` | apps/controller/RemoteDavinciController.swiftpm/Sources/ControllerCore/Noise.swift:64-138 | For any token pattern, what one end writes the other reads, and both stay in step. |
| `NoiseInitiators.NoiseIKInitiator.constructor` | apps/controller/RemoteDavinciController.swiftpm/Sources/ControllerCore/Noise.swift:41-62 | Starts in the state in which section 5.3 of the framework starts an IK initiator. |
| `NoiseInitiators.NoiseIKInitiator.WriteMessage1` | apps/controller/RemoteDavinciController.swiftpm/Sources/ControllerCore/Noise.swift:64-88 | The unrolled first message is the one that the token interpreter writes for e, es, s, ss, and fails exactly when it does. |
| `NoiseInitiators.NoiseIKInitiator.ReadMessage2` | apps/controller/RemoteDavinciController.swiftpm/Sources/ControllerCore/Noise.swift:90-114 | Accepts exactly the responses that the interpreter reads for e, ee, se without payload and whose key is not zero, and takes its two transport keys; a failure leaves phase and ciphers. It sends under the first key of the split and receives under the second, which without collisions is another. |
| `NoiseInitiators.NoiseIKInitiator.EncryptTransport` | apps/controller/RemoteDavinciController.swiftpm/Sources/ControllerCore/Noise.swift:116-126 | Seals under a nonce that this key has never been used with; a failure changes nothing. |
| `NoiseInitiators.NoiseIKInitiator.DecryptTransport` | apps/controller/RemoteDavinciController.swiftpm/Sources/ControllerCore/Noise.swift:128-138 | A message that does not open changes nothing. |
| `NoiseInitiators.NoiseNNpsk0Initiator.WriteMessage1` | apps/controller/RemoteDavinciController.swiftpm/Sources/ControllerCore/Noise.swift:169-189 | The unrolled first message is the one that the token interpreter writes for psk, e, and fails exactly when it does. |
| `NoiseInitiators.NoiseNNpsk0Initiator.ReadMessage2` | apps/controller/RemoteDavinciController.swiftpm/Sources/ControllerCore/Noise.swift:191-215 | Accepts exactly the responses that the interpreter reads for e, ee without payload and whose key is not zero, and takes its two transport keys; a failure leaves phase and ciphers. It sends under the first key of the split and receives under the second, which without collisions is another. |
| `NoiseInitiators.NoiseNNpsk0Initiator.EncryptTransport` | apps/controller/RemoteDavinciController.swiftpm/Sources/ControllerCore/Noise.swift:217-227 | Seals under a nonce that this key has never been used with; a failure changes nothing. |
| `NoiseInitiators.NoiseNNpsk0Initiator.DecryptTransport` | apps/controller/RemoteDavinciController.swiftpm/Sources/ControllerCore/Noise.swift:229-239 | A message that does not open changes nothing. |
| `NoiseInitiators.IKEndsAgree` | apps/controller/RemoteDavinciController.swiftpm/Sources/ControllerCore/Noise.swift:64-138 | An initiator that knows the responder's key and the responder that holds it reach the same hash and chaining key whenever their DH results are usable, and what one sends under is what the other receives under. |
| `NoiseInitiators.PskEndsAgree` | apps/controller/RemoteDavinciController.swiftpm/Sources/ControllerCore/Noise.swift:169-239 | Two ends with the same PSK and prologue, likewise. |
| `NoiseInitiators.TransportInOrder` | apps/controller/RemoteDavinciController.swiftpm/Sources/ControllerCore/Noise.swift:296-331 | What one end seals in order the other opens in order, each message under a nonce of its own. |
| `NoiseInitiators.NoNonceTwice` | apps/controller/RemoteDavinciController.swiftpm/Sources/ControllerCore/Noise.swift:296-331 | Whatever the two ends of a handshake seal, over primitives without collisions no key is used with one nonce twice, in either direction. |
| `NoiseBinding.MessageBinds` | apps/controller/RemoteDavinciController.swiftpm/Sources/ControllerCore/Noise.swift:64-114 | For any token pattern, over ideal primitives, a sealed message is read only by an end with the same chaining key and hash as its writer had. |
| `NoiseBinding.IKIsReadByItsResponder` | apps/controller/RemoteDavinciController.swiftpm/Sources/ControllerCore/Noise.swift:41-88 | Over ideal primitives a responder reads the first IK message if and only if it holds the static key that the initiator was given and has the same prologue. |
| `NoiseBinding.PskIsReadByItsHolder` | apps/controller/RemoteDavinciController.swiftpm/Sources/ControllerCore/Noise.swift:157-189 | Over ideal primitives the first NNpsk0 message is read if and only if the other end has the same PSK and the same prologue. |
| `Control.AtMostOnce` | internal/companion/companion.go:788-859 | Whatever a controller sends, a session executes each request ID at most once, at most 256 in all, each within the grant, and all its replies to one ID are the same. |
| `Control.ExecutionsAreRequested` | internal/companion/companion.go:788-830 | A session executes exactly the operations of those messages that it comes to and that are first requests of their ID, in time, granted, after a controller's hello and within 256 IDs; each once and in order. |
| `Control.RepliesAreRight` | internal/companion/companion.go:788-859 | Every request that the session takes without ending is replied to, in order: with the outcome of its own operation if that ran, invalid if and only if its first request was not in time, forbidden if and only if that was in time and not granted. The session ends exactly at the first message that is neither a controller's first hello nor a request it can take. |
| `Control.OutcomesAreReported` | internal/companion/companion.go:824-859 | Every execution is answered with the outcome given at its own step, in every reply to its ID, and it is answered unless no ID for the response could be had. |
| `Control.ControlProcessor.Handle` | internal/companion/companion.go:788-859 | The processor's imperative handling of any message, which executes an operation by a call of its own and by nothing else, is one transition of the session whose runs the two rows above speak of: reply, cache, executions and replies. |

## Left out

- The SDK's marshalling and expression strings, API Gateway posting, retries and throttling: conditions are
  predicates, and a post is delivered, gone or failed.
- Real cryptography, randomness and base64: functions and fresh values. The responder's library is not part of
  this model; it is taken from the framework's specification.
- JSON Schema validation, URL, UUID and label checks, HTTP, the user interface, Keychain and file access, and
  the subprocess that drives the editor.
- A user's reset or forget, and the 401 reasoning of internal/companion/companion.go:391-400: they speak of
  single moments, not of runs.
- That an accepted `stop` rules out a commit: only the locked phase checks exclude each other.
- The waiting time that a rate limit error suggests, logging, metrics and status codes of the handler, and the
  routing of requests to operations.
- Slices and maps that the Go and Swift code alias: lists and tables are values here, reassigned where the code
  updates them.
- The handler's replies to pair.create, pair.join, pair.cancel, link.get, endpoint.rotate and endpoint.revoke; the
  operations of the store behind them are modelled.
- Enrolments.RunsAreEnrolments: one enrolment at a time, in which the companion creates the pair and the
  controller joins it.
