/** The companion's control processor: what a session's decrypted messages make it do. */
module Control {
  import opened Records

  const MAX_REQUESTS := 256
  const MAX_SKEW_MILLIS := 30_000

  /** A decrypted message as the control parser leaves it. */
  datatype ControlMessage =
    | Malformed
    | Hello(decodes: bool, role: Role)
    | Request(id: Id, decodes: bool, operation: Id, sentAt: int, expiresAt: int, args: nat)
    | OtherMessage

  datatype Answer = Succeeded(result: nat) | Failure(code: FailureCode)

  datatype FailureCode = RequestInvalid | OperationForbidden | OperationFailed(code: nat)

  /** The encoded response, under an ID of its own. */
  datatype Response = Response(responseId: Id, replyTo: Id, answer: Answer)

  /** What the world answers while one message is handled: the clock, the operation if it is executed, and
      the random ID of the response, which may fail to come. */
  datatype Outside = Outside(nowMillis: int, outcome: Answer, responseId: Option<Id>)

  datatype Input = Input(message: ControlMessage, world: Outside)

  datatype Handled = Replied(response: Response) | NoReply | Ends

  /** One execution of an operation: for which request, and by which of the session's messages. */
  datatype Execution = Execution(id: Id, operation: Id, step: nat)

  /** A session's processor, with what it has done so far: `executions` and `replies` are histories, and
      `over` says that an error has ended the session. */
  datatype Processor = Processor(
    allowed: set<Id>, peerHello: bool, cache: map<Id, Response>,
    steps: nat, executions: seq<Execution>, replies: seq<Response>, over: bool)

  function Fresh(allowed: set<Id>): Processor {
    Processor(allowed, false, map[], 0, [], [], false)
  }

  /** A request in time, from a clock not too far ahead, and without arguments. */
  predicate InTime(m: ControlMessage, nowMillis: int)
    requires m.Request?
  {
    nowMillis < m.expiresAt && m.sentAt <= nowMillis + 30_000 && m.args == 0
  }

  predicate Executes(p: Processor, m: ControlMessage, nowMillis: int) {
    && m.Request? && m.id !in p.cache && |p.cache| < MAX_REQUESTS && m.decodes && p.peerHello
    && InTime(m, nowMillis) && m.operation in p.allowed
  }

  function AnswerTo(p: Processor, m: ControlMessage, world: Outside): Answer
    requires m.Request?
  {
    if !InTime(m, world.nowMillis) then Failure(RequestInvalid)
    else if m.operation !in p.allowed then Failure(OperationForbidden)
    else world.outcome
  }

  function Ended(p: Processor): Processor { p.(over := true) }

  /** The first answer to a request: remembered and sent, unless it cannot be given an ID. */
  function Respond(p: Processor, id: Id, answer: Answer, responseId: Option<Id>): (Processor, Handled) {
    match responseId
    case None => (Ended(p), Ends)
    case Some(value) =>
      var response := Response(value, id, answer);
      (p.(cache := p.cache[id := response], replies := p.replies + [response]), Replied(response))
  }

  /** One message.  What it is answered is what is put on record. */
  function HandleOne(p: Processor, input: Input): (r: (Processor, Handled))
    requires !p.over
    ensures r.1.Ends? <==> r.0.over
    ensures r.0.replies == if r.1.Replied? then p.replies + [r.1.response] else p.replies
  {
    var q := p.(steps := p.steps + 1);
    match input.message
    case Hello(decodes, role) =>
      if p.peerHello || !decodes || role != Controller then (Ended(q), Ends) else (q.(peerHello := true), NoReply)
    case Request(id, decodes, operation, _, _, _) =>
      if id in p.cache then (q.(replies := q.replies + [p.cache[id]]), Replied(p.cache[id]))
      else if |p.cache| >= MAX_REQUESTS || !decodes || !p.peerHello then (Ended(q), Ends)
      else
        var ran := if Executes(p, input.message, input.world.nowMillis)
                   then q.(executions := q.executions + [Execution(id, operation, p.steps)]) else q;
        Respond(ran, id, AnswerTo(p, input.message, input.world), input.world.responseId)
    case _ => (Ended(q), Ends)
  }

  /** A whole session: messages are handled until one of them ends it. */
  function Run(p: Processor, inputs: seq<Input>): Processor
    decreases |inputs|
  {
    if inputs == [] || p.over then p else Run(HandleOne(p, inputs[0]).0, inputs[1..])
  }

  // ----- what a session keeps

  ghost predicate Consistent(p: Processor) {
    && ExecutionsConsistent(p)
    && |p.executions| <= |p.cache| + (if p.over then 1 else 0)
    && |p.executions| <= MAX_REQUESTS && |p.cache| <= MAX_REQUESTS
    && (!p.peerHello ==> p.executions == [] && p.replies == [] && p.cache == map[])
    && (forall id :: id in p.cache ==> p.cache[id].replyTo == id)
    && (forall i :: 0 <= i < |p.replies| ==>
          p.replies[i].replyTo in p.cache && p.replies[i] == p.cache[p.replies[i].replyTo])
  }

  /** What has been executed is answered and remembered, but for what an error interrupted. */
  ghost predicate ExecutionsConsistent(p: Processor) {
    && (forall i, j :: 0 <= i < j < |p.executions| ==> p.executions[i].id != p.executions[j].id)
    && (!p.over ==> forall i :: 0 <= i < |p.executions| ==> p.executions[i].id in p.cache)
    && (forall i :: 0 <= i < |p.executions| ==> p.executions[i].operation in p.allowed
                                                && p.executions[i].step < p.steps)
  }

  lemma CacheGrows(cache: map<Id, Response>, id: Id, response: Response)
    requires id !in cache
    ensures |cache[id := response]| == |cache| + 1
  {
    assert cache[id := response].Keys == cache.Keys + {id};
    assert |cache[id := response]| == |cache[id := response].Keys| && |cache| == |cache.Keys|;
  }

  lemma HandlingKeepsExecutions(p: Processor, input: Input)
    requires !p.over && ExecutionsConsistent(p)
    ensures ExecutionsConsistent(HandleOne(p, input).0)
  {
  }

  lemma HandlingKeeps(p: Processor, input: Input)
    requires !p.over && Consistent(p)
    ensures Consistent(HandleOne(p, input).0)
  {
    var m := input.message;
    HandlingKeepsExecutions(p, input);
    hide ExecutionsConsistent, InTime;
    if m.Request? && m.id !in p.cache && input.world.responseId.Some? {
      CacheGrows(p.cache, m.id, Response(input.world.responseId.value, m.id, AnswerTo(p, m, input.world)));
    }
  }

  lemma {:induction false} RunKeeps(p: Processor, inputs: seq<Input>)
    requires Consistent(p)
    ensures Consistent(Run(p, inputs)) && Run(p, inputs).allowed == p.allowed
    decreases |inputs|
  {
    if inputs != [] && !p.over {
      HandlingKeeps(p, inputs[0]);
      RunKeeps(HandleOne(p, inputs[0]).0, inputs[1..]);
    }
  }

  /** Whatever a controller sends, a session executes each request ID at most once and no more than 256 in
      all, each within the grant; and every reply to one ID is the same. */
  lemma AtMostOnce(allowed: set<Id>, inputs: seq<Input>)
    ensures var p := Run(Fresh(allowed), inputs);
            && |p.executions| <= 256
            && (forall i, j :: 0 <= i < j < |p.executions| ==> p.executions[i].id != p.executions[j].id)
            && (forall i :: 0 <= i < |p.executions| ==> p.executions[i].operation in allowed)
            && (forall i, j :: 0 <= i < j < |p.replies| && p.replies[i].replyTo == p.replies[j].replyTo ==>
                  p.replies[i] == p.replies[j])
  {
    RunKeeps(Fresh(allowed), inputs);
  }

  // ----- what a session answers, read off its messages alone

  function RequestAt(inputs: seq<Input>, k: int): Option<Id> {
    if 0 <= k < |inputs| && inputs[k].message.Request? then Some(inputs[k].message.id) else None
  }

  /** The IDs that the first `k` messages have requested, and how many requests there were among them. */
  function RequestedBy(inputs: seq<Input>, k: nat): set<Id> {
    set i | 0 <= i < k && RequestAt(inputs, i).Some? :: RequestAt(inputs, i).value
  }

  function RequestCount(inputs: seq<Input>, k: nat): nat {
    if k == 0 then 0 else RequestCount(inputs, k - 1) + (if RequestAt(inputs, k - 1).Some? then 1 else 0)
  }

  predicate HelloAt(inputs: seq<Input>, k: int) {
    0 <= k < |inputs| && inputs[k].message.Hello? && inputs[k].message.role == Controller
  }

  predicate Greeted(inputs: seq<Input>, k: nat) { exists i :: 0 <= i < k && HelloAt(inputs, i) }

  /** Message `k` is the first request of its ID. */
  predicate IsNew(inputs: seq<Input>, k: nat) {
    RequestAt(inputs, k).Some? && RequestAt(inputs, k).value !in RequestedBy(inputs, k)
  }

  /** A session takes a controller's hello once, and requests after it: any number of duplicates, but no more than
      256 IDs, each with a body that decodes and an ID for the response.  Anything else ends it. */
  predicate Fatal(inputs: seq<Input>, k: nat)
    requires k < |inputs|
  {
    match inputs[k].message
    case Hello(decodes, role) => Greeted(inputs, k) || !decodes || role != Controller
    case Request(_, decodes, _, _, _, _) =>
      IsNew(inputs, k) && (|RequestedBy(inputs, k)| >= 256 || !decodes || !Greeted(inputs, k)
                           || inputs[k].world.responseId.None?)
    case _ => true
  }

  /** The session has come to message `n`: none before it was fatal. */
  predicate ComesTo(inputs: seq<Input>, n: nat) { forall k :: 0 <= k < n ==> k < |inputs| && !Fatal(inputs, k) }

  /** Message `k` runs an operation: it is new, in time, granted, after a hello, and within the 256 IDs. */
  predicate RunsAt(allowed: set<Id>, inputs: seq<Input>, k: nat)
    requires k < |inputs|
  {
    && IsNew(inputs, k) && inputs[k].message.decodes && Greeted(inputs, k)
    && |RequestedBy(inputs, k)| < 256
    && InTime(inputs[k].message, inputs[k].world.nowMillis) && inputs[k].message.operation in allowed
  }

  /** The execution of the operation that message `k` requests. */
  function ExecutionAt(inputs: seq<Input>, k: nat): Execution {
    if RequestAt(inputs, k).Some? then Execution(inputs[k].message.id, inputs[k].message.operation, k)
    else Execution(ABSENT, ABSENT, k)
  }

  /** What the first request of an ID is answered: the outcome of its own operation if that ran; that it is invalid
      if and only if it was not in time; and that it is forbidden if and only if it was in time and not granted. */
  predicate AnswersRequest(allowed: set<Id>, input: Input, r: Response)
    requires input.message.Request?
  {
    var inTime, granted := InTime(input.message, input.world.nowMillis), input.message.operation in allowed;
    && r.replyTo == input.message.id && Some(r.responseId) == input.world.responseId
    && (inTime && granted ==> r.answer == input.world.outcome)
    && (!inTime ==> r.answer == Failure(RequestInvalid))
    && (inTime && !granted ==> r.answer == Failure(OperationForbidden))
  }

  /** The reply to message `k` is the answer to the first request of its ID. */
  predicate RepliesTo(allowed: set<Id>, inputs: seq<Input>, k: nat, r: Response)
    requires k < |inputs|
  {
    exists first :: 0 <= first <= k && IsNew(inputs, first) && RequestAt(inputs, first) == RequestAt(inputs, k)
                    && AnswersRequest(allowed, inputs[first], r)
  }

  /** What a processor has on record is what the messages that it has taken call for. */
  ghost predicate OnRecord(p: Processor, inputs: seq<Input>, n: nat)
    requires n <= |inputs|
  {
    && p.steps == n && (p.peerHello <==> Greeted(inputs, n)) && p.cache.Keys == RequestedBy(inputs, n)
    && (forall id :: id in p.cache ==> CachedRight(p.allowed, inputs, n, p.cache[id], id))
    && RepliedRight(p, inputs, n) && ExecutedRight(p, inputs, n)
  }

  ghost predicate RepliedRight(p: Processor, inputs: seq<Input>, n: nat)
    requires n <= |inputs|
  {
    && |p.replies| == RequestCount(inputs, n)
    && forall k :: 0 <= k < n && RequestAt(inputs, k).Some? ==>
         RequestCount(inputs, k) < |p.replies|
         && RepliesTo(p.allowed, inputs, k, p.replies[RequestCount(inputs, k)])
  }

  predicate CachedRight(allowed: set<Id>, inputs: seq<Input>, n: nat, r: Response, id: Id) {
    exists first :: 0 <= first < n && first < |inputs| && IsNew(inputs, first) && RequestAt(inputs, first) == Some(id)
                    && AnswersRequest(allowed, inputs[first], r)
  }

  /** The operations that ran are those of the messages that run one, each once and in order. */
  ghost predicate ExecutedRight(p: Processor, inputs: seq<Input>, n: nat)
    requires n <= |inputs|
  {
    && (forall i :: 0 <= i < |p.executions| ==> IsExecution(p.allowed, inputs, n, p.executions[i]))
    && (forall k :: 0 <= k < n && RunsAt(p.allowed, inputs, k) ==>
          ExecutionAt(inputs, k) in p.executions)
    && (forall i, j :: 0 <= i < j < |p.executions| ==> p.executions[i].step < p.executions[j].step)
  }

  predicate IsExecution(allowed: set<Id>, inputs: seq<Input>, n: nat, e: Execution) {
    e.step < n <= |inputs| && RunsAt(allowed, inputs, e.step) && e == ExecutionAt(inputs, e.step)
  }

  lemma RequestedNext(inputs: seq<Input>, k: nat)
    requires k < |inputs|
    ensures RequestedBy(inputs, k + 1)
            == RequestedBy(inputs, k) + (if RequestAt(inputs, k).Some? then {RequestAt(inputs, k).value} else {})
  {
    forall id | id in RequestedBy(inputs, k + 1)
      ensures id in RequestedBy(inputs, k) || RequestAt(inputs, k) == Some(id)
    {
      var i :| 0 <= i < k + 1 && RequestAt(inputs, i) == Some(id);
    }
    forall id | id in RequestedBy(inputs, k) || RequestAt(inputs, k) == Some(id)
      ensures id in RequestedBy(inputs, k + 1)
    {
      var i :| 0 <= i < k + 1 && RequestAt(inputs, i) == Some(id);
    }
  }

  lemma GreetedNext(inputs: seq<Input>, k: nat)
    requires k < |inputs|
    ensures Greeted(inputs, k + 1) <==> Greeted(inputs, k) || HelloAt(inputs, k)
  {
    if Greeted(inputs, k) { var i :| 0 <= i < k && HelloAt(inputs, i); assert HelloAt(inputs, i); }
    if HelloAt(inputs, k) { assert HelloAt(inputs, k); }
  }

  /** The first request of an ID is new, and no other is. */
  lemma SomeFirst(p: Processor, inputs: seq<Input>, n: nat)
    requires n < |inputs| && OnRecord(p, inputs, n) && RequestAt(inputs, n).Some?
    ensures IsNew(inputs, n) <==> inputs[n].message.id !in p.cache
    ensures !IsNew(inputs, n) ==> RepliesTo(p.allowed, inputs, n, p.cache[inputs[n].message.id])
  {
    hide AnswersRequest, RequestedBy, RepliedRight, ExecutedRight;
  }

  lemma FatalEnds(p: Processor, inputs: seq<Input>, n: nat)
    requires !p.over && n < |inputs| && OnRecord(p, inputs, n)
    ensures var q := HandleOne(p, inputs[n]).0;
            && (q.over <==> Fatal(inputs, n)) && q.allowed == p.allowed && q.steps == n + 1
            && (!q.over ==> (q.peerHello <==> Greeted(inputs, n) || HelloAt(inputs, n)))
  {
    hide RepliedRight, ExecutedRight, CachedRight, RepliesTo, Greeted, RequestedBy, AnswersRequest, InTime, AnswerTo;
    if RequestAt(inputs, n).Some? { SomeFirst(p, inputs, n); }
    assert |p.cache| == |p.cache.Keys|;
  }

  lemma ExecutesOne(p: Processor, inputs: seq<Input>, n: nat)
    requires !p.over && n < |inputs| && OnRecord(p, inputs, n)
    ensures HandleOne(p, inputs[n]).0.executions ==
              p.executions + (if RunsAt(p.allowed, inputs, n)
                              then [ExecutionAt(inputs, n)] else [])
  {
    hide RepliedRight, ExecutedRight, CachedRight, RepliesTo, Greeted, RequestedBy, AnswersRequest, InTime, AnswerTo;
    if RequestAt(inputs, n).Some? { SomeFirst(p, inputs, n); }
    assert |p.cache| == |p.cache.Keys|;
  }

  lemma HandlingExecutes(p: Processor, inputs: seq<Input>, n: nat)
    requires !p.over && n < |inputs| && OnRecord(p, inputs, n)
    ensures ExecutedRight(HandleOne(p, inputs[n]).0, inputs, n + 1)
  {
    hide RepliedRight, CachedRight, Greeted, RequestedBy, AnswersRequest, InTime, RunsAt;
    ExecutesOne(p, inputs, n);
    var q := HandleOne(p, inputs[n]).0;
    assert q.allowed == p.allowed;
    hide HandleOne;
    forall k | 0 <= k < n + 1 && RunsAt(p.allowed, inputs, k)
      ensures ExecutionAt(inputs, k) in q.executions
    {
      if k == n { assert q.executions[|p.executions|] == ExecutionAt(inputs, n); }
    }
  }

  /** The response that a request gets is remembered and sent. */
  lemma RepliesOne(p: Processor, inputs: seq<Input>, n: nat)
    requires !p.over && n < |inputs| && OnRecord(p, inputs, n) && !HandleOne(p, inputs[n]).0.over
    ensures var q, m := HandleOne(p, inputs[n]).0, inputs[n].message;
            if m.Request? then
              && m.id in q.cache && q.replies == p.replies + [q.cache[m.id]]
              && q.cache == p.cache[m.id := q.cache[m.id]]
              && (IsNew(inputs, n) ==> AnswersRequest(p.allowed, inputs[n], q.cache[m.id]))
              && (!IsNew(inputs, n) ==> q.cache == p.cache)
            else q.cache == p.cache && q.replies == p.replies
  {
    hide RepliedRight, ExecutedRight, CachedRight, RepliesTo, Greeted, RequestedBy, InTime;
    if RequestAt(inputs, n).Some? { SomeFirst(p, inputs, n); }
  }

  lemma HandlingReplies(p: Processor, inputs: seq<Input>, n: nat)
    requires !p.over && n < |inputs| && OnRecord(p, inputs, n) && !HandleOne(p, inputs[n]).0.over
    ensures RepliedRight(HandleOne(p, inputs[n]).0, inputs, n + 1)
  {
    hide HandleOne, ExecutedRight, Greeted, RequestedBy, AnswersRequest, CachedRight, InTime, IsNew, RepliedRight,
         RepliesTo;
    var q, m := HandleOne(p, inputs[n]).0, inputs[n].message;
    FatalEnds(p, inputs, n);
    RepliesOne(p, inputs, n);
    if m.Request? {
      assert RepliesTo(p.allowed, inputs, n, q.cache[m.id]) by { ItsOwnReply(p, q, inputs, n); }
      OneMoreReply(p, q, inputs, n, q.cache[m.id]);
    } else {
      NoMoreReplies(p, q, inputs, n);
    }
  }

  lemma ItsOwnReply(p: Processor, q: Processor, inputs: seq<Input>, n: nat)
    requires n < |inputs| && OnRecord(p, inputs, n) && RequestAt(inputs, n).Some? && inputs[n].message.id in q.cache
    requires IsNew(inputs, n) ==> AnswersRequest(p.allowed, inputs[n], q.cache[inputs[n].message.id])
    requires !IsNew(inputs, n) ==> q.cache == p.cache
    ensures RepliesTo(p.allowed, inputs, n, q.cache[inputs[n].message.id])
  {
    hide ExecutedRight, RepliedRight, Greeted, RequestedBy, AnswersRequest, CachedRight, InTime, IsNew;
    SomeFirst(p, inputs, n);
  }

  lemma OneMoreReply(p: Processor, q: Processor, inputs: seq<Input>, n: nat, r: Response)
    requires n < |inputs| && RepliedRight(p, inputs, n) && q.replies == p.replies + [r] && q.allowed == p.allowed
    requires RequestAt(inputs, n).Some? && RepliesTo(p.allowed, inputs, n, r)
    ensures RepliedRight(q, inputs, n + 1)
  {
    hide RepliesTo;
  }

  lemma NoMoreReplies(p: Processor, q: Processor, inputs: seq<Input>, n: nat)
    requires n < |inputs| && RepliedRight(p, inputs, n) && q.replies == p.replies && q.allowed == p.allowed
    requires RequestAt(inputs, n).None?
    ensures RepliedRight(q, inputs, n + 1)
  {
    hide RepliesTo;
  }

  lemma HandlingCaches(p: Processor, inputs: seq<Input>, n: nat)
    requires !p.over && n < |inputs| && OnRecord(p, inputs, n) && !HandleOne(p, inputs[n]).0.over
    ensures var q := HandleOne(p, inputs[n]).0;
            && q.cache.Keys == p.cache.Keys + (if RequestAt(inputs, n).Some? then {inputs[n].message.id} else {})
            && forall id :: id in q.cache ==> CachedRight(p.allowed, inputs, n + 1, q.cache[id], id)
  {
    hide HandleOne, ExecutedRight, RepliedRight, Greeted, RequestedBy, AnswersRequest, InTime;
    var q, m := HandleOne(p, inputs[n]).0, inputs[n].message;
    RepliesOne(p, inputs, n);
    if m.Request? {
      SomeFirst(p, inputs, n);
      if IsNew(inputs, n) { assert CachedRight(p.allowed, inputs, n + 1, q.cache[m.id], m.id); }
    }
  }

  /** One message is put on record as it calls for. */
  lemma HandlingRecords(p: Processor, inputs: seq<Input>, n: nat)
    requires !p.over && n < |inputs| && OnRecord(p, inputs, n)
    ensures var q := HandleOne(p, inputs[n]).0;
            && (q.over <==> Fatal(inputs, n)) && q.allowed == p.allowed && q.steps == n + 1
            && ExecutedRight(q, inputs, n + 1)
            && (if q.over then q.replies == p.replies else OnRecord(q, inputs, n + 1))
  {
    RequestedNext(inputs, n);
    GreetedNext(inputs, n);
    FatalEnds(p, inputs, n);
    HandlingExecutes(p, inputs, n);
    if !HandleOne(p, inputs[n]).0.over { 
      HandlingReplies(p, inputs, n);
      HandlingCaches(p, inputs, n);
    }
    hide Fatal, ExecutedRight, RepliedRight, CachedRight, Greeted, RequestedBy, InTime;
  }

  lemma FreshIsRecorded(allowed: set<Id>, inputs: seq<Input>)
    ensures OnRecord(Fresh(allowed), inputs, 0)
  {
  }

  /** The session that was on record after `n` messages is so after any number more, up to a fatal one. */
  lemma {:induction false} RunRecords(p: Processor, inputs: seq<Input>, n: nat) returns (m: nat)
    requires n <= |inputs| && !p.over && OnRecord(p, inputs, n) && ComesTo(inputs, n)
    ensures var q := Run(p, inputs[n..]);
            && n <= m <= |inputs| && ComesTo(inputs, m) && RepliedRight(q, inputs, m) && q.allowed == p.allowed
            && (if q.over then m < |inputs| && Fatal(inputs, m) && q.steps == m + 1 && ExecutedRight(q, inputs, m + 1)
                else m == |inputs| && q.steps == m && ExecutedRight(q, inputs, m))
    decreases |inputs| - n
  {
    hide Fatal, ExecutedRight, CachedRight, RepliesTo, Greeted, RequestedBy;
    m := n;
    if n < |inputs| {
      var q := HandleOne(p, inputs[n]).0;
      assert inputs[n..][0] == inputs[n] && inputs[n..][1..] == inputs[n + 1..];
      HandlingRecords(p, inputs, n);
      hide HandleOne;
      if q.over {
        assert Run(q, inputs[n + 1..]) == q;
      } else {
        m := RunRecords(q, inputs, n + 1);
      }
    }
  }

  /** Message `k` is one that the session comes to. */
  predicate Taken(inputs: seq<Input>, k: nat) { k < |inputs| && ComesTo(inputs, k) }

  /** A session executes exactly the operations of those messages that it comes to and that run one, in order:
      whatever else a controller sends, nothing else runs and none of these fails to. */
  lemma ExecutionsAreRequested(allowed: set<Id>, inputs: seq<Input>)
    ensures var p := Run(Fresh(allowed), inputs);
            && (forall e :: e in p.executions <==> Taken(inputs, e.step) && RunsAt(allowed, inputs, e.step)
                                                   && e == ExecutionAt(inputs, e.step))
            && (forall i, j :: 0 <= i < j < |p.executions| ==> p.executions[i].step < p.executions[j].step)
  {
    hide RunsAt, Fatal, OnRecord, RepliedRight;
    assert inputs[0..] == inputs;
    FreshIsRecorded(allowed, inputs);
    var m := RunRecords(Fresh(allowed), inputs, 0);
    hide Run;
  }

  /** Every request that the session takes without ending is replied to, in order, and every reply is such a one:
      with the outcome of its own operation, or with the reason why that did not run. */
  lemma RepliesAreRight(allowed: set<Id>, inputs: seq<Input>)
    ensures var p := Run(Fresh(allowed), inputs);
            && (forall k: nat :: Taken(inputs, k) && !Fatal(inputs, k) && RequestAt(inputs, k).Some? ==>
                  RequestCount(inputs, k) < |p.replies|
                  && RepliesTo(allowed, inputs, k, p.replies[RequestCount(inputs, k)]))
            && (p.over <==> exists k: nat :: Taken(inputs, k) && Fatal(inputs, k))
            && exists m: nat :: ComesTo(inputs, m) && (m < |inputs| ==> Fatal(inputs, m))
                           && |p.replies| == RequestCount(inputs, m)
  {
    hide RunsAt, Fatal, OnRecord, ExecutedRight, RepliesTo;
    assert inputs[0..] == inputs;
    FreshIsRecorded(allowed, inputs);
    var m := RunRecords(Fresh(allowed), inputs, 0);
    hide Run;
    if m < |inputs| { assert Taken(inputs, m); }
  }

  /** The request behind a reply. */
  lemma {:induction false} RequestCounted(inputs: seq<Input>, n: nat, i: nat) returns (k: nat)
    requires i < RequestCount(inputs, n)
    ensures k < n && RequestAt(inputs, k).Some? && RequestCount(inputs, k) == i
  {
    if i < RequestCount(inputs, n - 1) { k := RequestCounted(inputs, n - 1, i); } else { k := n - 1; }
  }

  lemma WasRequested(inputs: seq<Input>, i: nat, n: nat)
    ensures i < n && RequestAt(inputs, i).Some? ==> RequestAt(inputs, i).value in RequestedBy(inputs, n)
  {
  }

  lemma OneIsNew(inputs: seq<Input>, j: nat, k: nat)
    requires IsNew(inputs, j) && IsNew(inputs, k) && RequestAt(inputs, j) == RequestAt(inputs, k)
    ensures j == k
  {
    WasRequested(inputs, j, k);
    WasRequested(inputs, k, j);
  }

  lemma ReplyIsOutcome(allowed: set<Id>, inputs: seq<Input>, k: nat, r: Response, at: nat)
    requires k < |inputs| && RepliesTo(allowed, inputs, k, r)
    requires at < |inputs| && RunsAt(allowed, inputs, at) && r.replyTo == inputs[at].message.id
    ensures r.answer == inputs[at].world.outcome
  {
    hide RequestedBy, Greeted, InTime;
    var first :| 0 <= first <= k && IsNew(inputs, first) && RequestAt(inputs, first) == RequestAt(inputs, k)
        && AnswersRequest(allowed, inputs[first], r);
    OneIsNew(inputs, first, at);
  }

  /** An operation that ran is answered with its own outcome, however often its ID is repeated, and it is answered
      unless the session ended there for want of an ID. */
  lemma OutcomesAreReported(allowed: set<Id>, inputs: seq<Input>, e: Execution)
    requires e in Run(Fresh(allowed), inputs).executions
    ensures e.step < |inputs|
    ensures var p := Run(Fresh(allowed), inputs);
            && (forall r :: r in p.replies && r.replyTo == e.id ==> r.answer == inputs[e.step].world.outcome)
            && (inputs[e.step].world.responseId.Some? ==> exists r :: r in p.replies && r.replyTo == e.id)
  {
    hide Fatal, Run, OnRecord, ExecutedRight, RequestedBy, Greeted, RunsAt, RepliesTo, IsNew;
    var p := Run(Fresh(allowed), inputs);
    assert inputs[0..] == inputs;
    FreshIsRecorded(allowed, inputs);
    ExecutionsAreRequested(allowed, inputs);
    RunningIsNew(allowed, inputs, e.step);
    var m := RunRecords(Fresh(allowed), inputs, 0);
    forall r | r in p.replies && r.replyTo == e.id ensures r.answer == inputs[e.step].world.outcome {
      var i :| 0 <= i < |p.replies| && p.replies[i] == r;
      var k := RequestCounted(inputs, m, i);
      ReplyIsOutcome(allowed, inputs, k, r, e.step);
    }
    if inputs[e.step].world.responseId.Some? {
      RunningIsNotFatal(allowed, inputs, e.step);
      var r := p.replies[RequestCount(inputs, e.step)];
      ReplyIsToRequest(allowed, inputs, e.step, r);
    }
  }

  lemma ReplyIsToRequest(allowed: set<Id>, inputs: seq<Input>, k: nat, r: Response)
    requires k < |inputs| && RepliesTo(allowed, inputs, k, r)
    ensures RequestAt(inputs, k) == Some(r.replyTo)
  {
    hide RequestedBy;
  }

  lemma RunningIsNew(allowed: set<Id>, inputs: seq<Input>, k: nat)
    requires k < |inputs| && RunsAt(allowed, inputs, k)
    ensures RequestAt(inputs, k).Some?
  {
    hide RequestedBy, Greeted, InTime;
  }

  lemma RunningIsNotFatal(allowed: set<Id>, inputs: seq<Input>, k: nat)
    requires k < |inputs| && RunsAt(allowed, inputs, k) && inputs[k].world.responseId.Some?
    ensures !Fatal(inputs, k)
  {
    hide RequestedBy, Greeted, InTime;
  }

  // ----- the processor itself

  class ControlProcessor {
    const allowed: set<Id>
    var peerHello: bool
    var cache: map<Id, Response>
    /** What the processor has done so far: messages taken, operations executed, replies given, and whether an
        error has ended the session. */
    ghost var steps: nat
    ghost var executions: seq<Execution>
    ghost var replies: seq<Response>
    ghost var over: bool

    ghost function State(): Processor
      reads this
    {
      Processor(allowed, peerHello, cache, steps, executions, replies, over)
    }

    ghost predicate Valid()
      reads this
    {
      Consistent(State())
    }

    constructor (allowed: set<Id>)
      ensures Valid() && State() == Fresh(allowed)
    {
      this.allowed, peerHello, cache := allowed, false, map[];
      steps, executions, replies, over := 0, [], [], false;
    }

    /** The operation runs on the host: nothing else in this class makes it run. */
    method Execute(id: Id, operation: Id, outcome: Answer) returns (answer: Answer)
      requires 0 < steps
      modifies this`executions
      ensures executions == old(executions) + [Execution(id, operation, steps - 1)] && answer == outcome
    {
      executions := executions + [Execution(id, operation, steps - 1)];
      answer := outcome;
    }

    /** An error ends the session. */
    method Fail() returns (r: Handled)
      modifies this`over
      ensures over && r == Ends
    {
      over := true;
      r := Ends;
    }

    /** A duplicate gets the first response again; anything new is checked, and executed at most here. */
    method Handle(message: ControlMessage, world: Outside) returns (r: Handled)
      requires Valid() && !over
      modifies this
      ensures Valid() && (State(), r) == HandleOne(old(State()), Input(message, world))
    {
      hide Consistent;
      HandlingKeeps(State(), Input(message, world));
      steps := steps + 1;
      match message {
        case Hello(decodes, role) =>
          if peerHello || !decodes || role != Controller {
            r := Fail();
            return;
          }
          peerHello := true;
          return NoReply;
        case Request(id, decodes, operation, sentAt, expiresAt, args) =>
          if id in cache {
            replies := replies + [cache[id]];
            return Replied(cache[id]);
          }
          if |cache| >= MAX_REQUESTS || !decodes || !peerHello {
            r := Fail();
            return;
          }
          if expiresAt <= world.nowMillis || sentAt > world.nowMillis + MAX_SKEW_MILLIS || args != 0 {
            r := MakeResponse(id, Failure(RequestInvalid), world.responseId);
            return;
          }
          if operation !in allowed {
            r := MakeResponse(id, Failure(OperationForbidden), world.responseId);
            return;
          }
          var answer := Execute(id, operation, world.outcome);
          r := MakeResponse(id, answer, world.responseId);
        case Malformed =>
          r := Fail();
        case OtherMessage =>
          r := Fail();
      }
    }

    /** Remember the response and reply with it, or fail for want of an ID. */
    method MakeResponse(replyTo: Id, answer: Answer, responseId: Option<Id>) returns (r: Handled)
      modifies this
      ensures steps == old(steps) && executions == old(executions) && peerHello == old(peerHello)
      ensures responseId.None? ==> r == Ends && over && cache == old(cache) && replies == old(replies)
      ensures responseId.Some? ==>
                var response := Response(responseId.value, replyTo, answer);
                && r == Replied(response) && over == old(over)
                && cache == old(cache)[replyTo := response] && replies == old(replies) + [response]
    {
      if responseId.None? {
        r := Fail();
        return;
      }
      var response := Response(responseId.value, replyTo, answer);
      cache := cache[replyTo := response];
      replies := replies + [response];
      return Replied(response);
    }
  }
}
