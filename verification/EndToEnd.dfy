/** Any number of clients calling one server: what a successful synchronous request returns, although
    all requests pass through one message buffer.

    The server's part is the worker of ServerModel, the clients' part the frames and the copying back of
    FreshClient; the kernel queues messages, stamps them and routes each reply by its message id. */
module EndToEnd {
  import opened Words
  import opened PortMessage
  import opened ProcessMemory
  import opened ServerModel
  import opened FreshClient

  /** A client blocked in, or returned from, UaSendSynchronousRequest. */
  datatype Progress = Waiting | Returned(success: bool, data: Bytes)
  datatype Request = Request(payload: Bytes, progress: Progress)

  /** The requests so far by message id, the messages waiting for the server, and the server. */
  datatype System = System(requests: map<Word32, Request>, queue: seq<Bytes>, world: World)

  datatype Step =
    | Submit(id: Word32, kind: Word16, payload: Bytes)      // a client calls; the kernel assigns id and type
    | Arrive(message: Bytes)                                // any message that is not a request
    | Process(i: nat, d: Delivery, delivered: bool)         // the worker serves a waiting message
    | Fail(id: Word32)                                      // the kernel ends a waiting call with an error

  ghost predicate Enabled(l: Layout, handler: Bytes -> Bytes, s: System, step: Step) {
    match step
    case Submit(id, kind, payload) =>
      && id !in s.requests && kind % TWO8 == LPC_REQUEST
      && l.HeaderSize() + |payload| <= l.MaxLength()
    case Arrive(m) => IsMessage(l, m) && Kind(m) != LPC_REQUEST
    case Process(i, d, _) =>
      && i < |s.queue| && d.message == s.queue[i] && Plausible(l, s.world, d)
      && d.onRequest == handler
    case Fail(id) => id in s.requests && s.requests[id].progress.Waiting?
  }

  /** A reply reaches the client that waits under its message id; the client copies the body back. */
  function Deliver(l: Layout, requests: map<Word32, Request>, reply: Bytes): map<Word32, Request>
    requires |reply| >= l.HeaderSize()
  {
    var id := MessageId(l, reply);
    if id in requests && requests[id].progress.Waiting?
       && l.HeaderSize() + |requests[id].payload| < TWO16
       && |reply| <= l.HeaderSize() + |requests[id].payload| then
      requests[id := requests[id].(progress := Returned(true, CopiedBack(l, requests[id].payload, reply)))]
    else requests
  }

  /** The message of a call as it reaches the server's queue: the client's frame, stamped by the kernel. */
  function Submitted(l: Layout, id: Word32, kind: Word16, payload: Bytes): Bytes
    requires l.HeaderSize() + |payload| < TWO16
  {
    Stamp(l, NewFrame(l, payload), kind, id)
  }

  function Next(l: Layout, handler: Bytes -> Bytes, s: System, step: Step): (t: System)
    requires Ready(l, s.world) && Enabled(l, handler, s, step)
    ensures Ready(l, t.world)
  {
    match step
    case Submit(id, kind, payload) =>
      s.(requests := s.requests[id := Request(payload, Waiting)],
         queue := s.queue + [Submitted(l, id, kind, payload)])
    case Arrive(m) =>
      s.(queue := s.queue + [m])
    case Process(i, d, delivered) =>
      var world := Serve(l, s.world, d, true).0;
      // what the worker sent as its reply, if this was a request
      var requests :=
        if Kind(d.message) == LPC_REQUEST && delivered then
          ServedRequest(l, s.world, d);
          Deliver(l, s.requests, world.calls[|world.calls| - 1].message)
        else s.requests;
      System(requests, s.queue[..i] + s.queue[i + 1..], world)
    case Fail(id) =>
      s.(requests := s.requests[id := s.requests[id].(progress := Returned(false, s.requests[id].payload))])
  }

  ghost predicate IsRun(l: Layout, handler: Bytes -> Bytes, s: System, steps: seq<Step>)
    requires Ready(l, s.world)
    decreases |steps|
  {
    |steps| == 0 ||
    (Enabled(l, handler, s, steps[0]) && IsRun(l, handler, Next(l, handler, s, steps[0]), steps[1..]))
  }

  function After(l: Layout, handler: Bytes -> Bytes, s: System, steps: seq<Step>): (t: System)
    requires Ready(l, s.world) && IsRun(l, handler, s, steps)
    ensures Ready(l, t.world)
    decreases |steps|
  {
    if |steps| == 0 then s else After(l, handler, Next(l, handler, s, steps[0]), steps[1..])
  }

  /** The message is a request of the table, carrying its payload. */
  predicate Carries(l: Layout, requests: map<Word32, Request>, m: Bytes) {
    && IsMessage(l, m)
    && MessageId(l, m) in requests
    && Body(l, m) == requests[MessageId(l, m)].payload
  }

  /** A returned call has what it should: the transformed payload, or on failure its own bytes. */
  predicate Answered(r: Request, handler: Bytes -> Bytes) {
    match r.progress
    case Waiting => true
    case Returned(success, data) => data == if success then handler(r.payload) else r.payload
  }

  /** Every request waiting for the server belongs to a call. */
  ghost predicate QueueCarries(l: Layout, requests: map<Word32, Request>, queue: seq<Bytes>) {
    forall m :: m in queue && |m| >= 24 && Kind(m) == LPC_REQUEST ==> Carries(l, requests, m)
  }

  ghost predicate AllAnswered(requests: map<Word32, Request>, handler: Bytes -> Bytes) {
    forall id :: id in requests ==> Answered(requests[id], handler)
  }

  ghost predicate Correct(l: Layout, handler: Bytes -> Bytes, s: System) {
    QueueCarries(l, s.requests, s.queue) && AllAnswered(s.requests, handler)
  }

  lemma SubmittedCarries(l: Layout, requests: map<Word32, Request>, id: Word32, kind: Word16, payload: Bytes)
    requires l.HeaderSize() + |payload| <= l.MaxLength()
    requires id in requests && requests[id].payload == payload
    ensures Carries(l, requests, Submitted(l, id, kind, payload))
  {
  }

  lemma DeliverKeepsAnswers(l: Layout, handler: Bytes -> Bytes, requests: map<Word32, Request>, m: Bytes)
    requires KeepsLength(handler) && Carries(l, requests, m)
    requires AllAnswered(requests, handler)
    ensures AllAnswered(Deliver(l, requests, Answer(l, m, handler)), handler)
  {
  }

  /** A waiting message keeps belonging to its call while requests only come and payloads stay. */
  lemma StillCarries(l: Layout, before: map<Word32, Request>, after: map<Word32, Request>,
                     queue: seq<Bytes>, left: seq<Bytes>)
    requires QueueCarries(l, before, queue) && before.Keys <= after.Keys
    requires forall id :: id in before ==> after[id].payload == before[id].payload
    requires forall m :: m in left ==> m in queue
    ensures QueueCarries(l, after, left)
  {
  }

  lemma SubmitKeepsCorrect(l: Layout, handler: Bytes -> Bytes, s: System, id: Word32, kind: Word16, payload: Bytes)
    requires id !in s.requests && l.HeaderSize() + |payload| <= l.MaxLength() && Correct(l, handler, s)
    ensures var requests := s.requests[id := Request(payload, Waiting)];
      && QueueCarries(l, requests, s.queue + [Submitted(l, id, kind, payload)])
      && AllAnswered(requests, handler)
  {
    var requests := s.requests[id := Request(payload, Waiting)];
    StillCarries(l, s.requests, requests, s.queue, s.queue);
    SubmittedCarries(l, requests, id, kind, payload);
  }

  /** Whatever the server's buffer held before, a request is handed to the handler as it was sent, and what
      the client gets is the handler's answer to it. */
  lemma ProcessDelivers(l: Layout, handler: Bytes -> Bytes, s: System, i: nat, d: Delivery, delivered: bool)
    requires Ready(l, s.world) && Enabled(l, handler, s, Process(i, d, delivered))
    ensures IsMessage(l, s.queue[i])
    ensures var t := Next(l, handler, s, Process(i, d, delivered));
      var m, isRequest := s.queue[i], Kind(s.queue[i]) == LPC_REQUEST;
      && t.queue == s.queue[..i] + s.queue[i + 1..]
      && (isRequest ==> t.world.calls == s.world.calls + [OnRequest(m), Reply(Answer(l, m, handler))])
      && t.requests == if isRequest && delivered then Deliver(l, s.requests, Answer(l, m, handler)) else s.requests
  {
    if Kind(d.message) == LPC_REQUEST {
      ServedRequest(l, s.world, d);
    }
  }

  // What the steps do to the table of calls and to the queue, on the bytes of the messages.

  /** A call of the largest length or less is accepted whatever its bytes: it waits, and its message, with the
      id, a request's type and the caller's bytes, is queued behind all others. */
  lemma SubmitEffect(l: Layout, handler: Bytes -> Bytes, s: System, id: Word32, kind: Word16, payload: Bytes)
    requires Ready(l, s.world) && id !in s.requests && kind % 0x100 == 1
    requires if l.Layout32? then 24 + |payload| <= 0xFFEF else 40 + |payload| <= 0xFFFF
    ensures Enabled(l, handler, s, Submit(id, kind, payload))
    ensures var t := Next(l, handler, s, Submit(id, kind, payload));
      var m := Submitted(l, id, kind, payload);
      && t == s.(requests := s.requests[id := Request(payload, Waiting)], queue := s.queue + [m])
      && IsMessage(l, m) && m[4] == 1 && MessageId(l, m) == id && m[l.HeaderSize()..] == payload
  {
    var m := Submitted(l, id, kind, payload);
    SubmittedCarries(l, map[id := Request(payload, Waiting)], id, kind, payload);
    TypeBytes(m);
    assert Body(l, m) == m[l.HeaderSize()..];
  }

  /** A failed call leaves the table with the caller's own bytes, and nothing else changes. */
  lemma FailEffect(l: Layout, handler: Bytes -> Bytes, s: System, id: Word32)
    requires Ready(l, s.world) && id in s.requests && s.requests[id].progress == Waiting
    ensures Enabled(l, handler, s, Fail(id))
    ensures var payload := s.requests[id].payload;
      Next(l, handler, s, Fail(id)) == s.(requests := s.requests[id := Request(payload, Returned(false, payload))])
  {
  }

  /** A delivered reply makes the call that waits for it return success with the handler's answer to its own
      bytes, and no other entry changes; nor does any entry when another message is served, the reply is lost
      or the call does not wait any more. */
  lemma ReplyReturnsCall(l: Layout, handler: Bytes -> Bytes, s: System, i: nat, d: Delivery, delivered: bool)
    requires KeepsLength(handler) && Ready(l, s.world) && Correct(l, handler, s)
    requires Enabled(l, handler, s, Process(i, d, delivered))
    ensures var m, t := s.queue[i], Next(l, handler, s, Process(i, d, delivered));
      && |m| >= l.HeaderSize() && t.queue == s.queue[..i] + s.queue[i + 1..]
      && (m[4] == 1 ==> MessageId(l, m) in s.requests)
      && t.requests ==
           if m[4] == 1 && delivered && s.requests[MessageId(l, m)].progress == Waiting then
             var payload := s.requests[MessageId(l, m)].payload;
             s.requests[MessageId(l, m) := Request(payload, Returned(true, handler(payload)))]
           else s.requests
  {
    var m := s.queue[i];
    ProcessDelivers(l, handler, s, i, d, delivered);
    TypeBytes(m);
    if m[4] == 1 {
      assert Carries(l, s.requests, m);
      AnswerIsReply(l, m, handler);
      AnswerReturns(l, handler, s.requests, m);
    }
  }

  lemma AnswerReturns(l: Layout, handler: Bytes -> Bytes, requests: map<Word32, Request>, m: Bytes)
    requires KeepsLength(handler) && Carries(l, requests, m)
    ensures |Answer(l, m, handler)| >= l.HeaderSize()
    ensures var id := MessageId(l, m);
      Deliver(l, requests, Answer(l, m, handler)) ==
        if requests[id].progress == Waiting then
          requests[id := Request(requests[id].payload, Returned(true, handler(requests[id].payload)))]
        else requests
  {
    AnswerIsReply(l, m, handler);
    var payload := requests[MessageId(l, m)].payload;
    CopiedBackIsReplyBody(l, payload, Answer(l, m, handler));
  }

  lemma AnsweringKeepsCorrect(l: Layout, handler: Bytes -> Bytes, requests: map<Word32, Request>,
                              queue: seq<Bytes>, i: nat)
    requires KeepsLength(handler) && i < |queue| && IsMessage(l, queue[i]) && Kind(queue[i]) == LPC_REQUEST
    requires QueueCarries(l, requests, queue) && AllAnswered(requests, handler)
    ensures |Answer(l, queue[i], handler)| >= l.HeaderSize()
    ensures var n := Deliver(l, requests, Answer(l, queue[i], handler));
      QueueCarries(l, n, queue[..i] + queue[i + 1..]) && AllAnswered(n, handler)
  {
    assert Carries(l, requests, queue[i]);
    DeliverKeepsAnswers(l, handler, requests, queue[i]);
  }

  lemma ProcessKeepsCorrect(l: Layout, handler: Bytes -> Bytes, s: System, i: nat, d: Delivery, delivered: bool)
    requires KeepsLength(handler) && Ready(l, s.world) && Correct(l, handler, s)
    requires Enabled(l, handler, s, Process(i, d, delivered))
    ensures Correct(l, handler, Next(l, handler, s, Process(i, d, delivered)))
  {
    ProcessDelivers(l, handler, s, i, d, delivered);
    if Kind(s.queue[i]) == LPC_REQUEST && delivered {
      AnsweringKeepsCorrect(l, handler, s.requests, s.queue, i);
    }
  }

  lemma FailKeepsCorrect(l: Layout, handler: Bytes -> Bytes, s: System, id: Word32)
    requires id in s.requests && Correct(l, handler, s)
    ensures var requests := s.requests[id := s.requests[id].(progress := Returned(false, s.requests[id].payload))];
      QueueCarries(l, requests, s.queue) && AllAnswered(requests, handler)
  {
  }

  lemma StepKeepsCorrect(l: Layout, handler: Bytes -> Bytes, s: System, step: Step)
    requires KeepsLength(handler) && Ready(l, s.world) && Enabled(l, handler, s, step) && Correct(l, handler, s)
    ensures Correct(l, handler, Next(l, handler, s, step))
  {
    match step
    case Submit(id, kind, payload) => SubmitKeepsCorrect(l, handler, s, id, kind, payload);
    case Arrive(m) =>
    case Process(i, d, delivered) => ProcessKeepsCorrect(l, handler, s, i, d, delivered);
    case Fail(id) => FailKeepsCorrect(l, handler, s, id);
  }

  /** In every run, whatever the order of requests, other messages, failures and lost replies: every
      call that returned success gave its caller the handler's transformation of the caller's own bytes,
      and every call that returned failure left them as they were. */
  lemma {:induction false} RequestsMeanTheirAnswers(l: Layout, handler: Bytes -> Bytes, s: System, steps: seq<Step>)
    requires KeepsLength(handler) && Ready(l, s.world) && IsRun(l, handler, s, steps) && Correct(l, handler, s)
    ensures Correct(l, handler, After(l, handler, s, steps))
    decreases |steps|
  {
    if |steps| != 0 {
      StepKeepsCorrect(l, handler, s, steps[0]);
      RequestsMeanTheirAnswers(l, handler, Next(l, handler, s, steps[0]), steps[1..]);
    }
  }

  /** The same for a system that starts with no request: the answer of one call depends on no other. */
  lemma SuccessfulRequest(l: Layout, handler: Bytes -> Bytes, s: System, steps: seq<Step>, id: Word32)
    requires KeepsLength(handler) && Ready(l, s.world) && s.requests == map[] && s.queue == []
    requires IsRun(l, handler, s, steps)
    ensures var t := After(l, handler, s, steps);
      id in t.requests && t.requests[id].progress.Returned? && t.requests[id].progress.success ==>
        t.requests[id].progress.data == handler(t.requests[id].payload)
  {
    RequestsMeanTheirAnswers(l, handler, s, steps);
  }

  // A call that is submitted and served returns, whatever else happens.

  /** The first step of a run, and the rest. */
  lemma RunBegins(l: Layout, handler: Bytes -> Bytes, s: System, step: Step, rest: seq<Step>)
    requires Ready(l, s.world)
    ensures IsRun(l, handler, s, [step] + rest) <==>
      Enabled(l, handler, s, step) && IsRun(l, handler, Next(l, handler, s, step), rest)
    ensures IsRun(l, handler, s, [step] + rest) ==>
      After(l, handler, s, [step] + rest) == After(l, handler, Next(l, handler, s, step), rest)
  {
    assert ([step] + rest)[0] == step && ([step] + rest)[1..] == rest;
  }

  lemma FirstOfConcat(a: seq<Step>, b: seq<Step>)
    requires |a| != 0
    ensures a == [a[0]] + a[1..] && a + b == [a[0]] + (a[1..] + b)
  {
  }

  /** A run of `a` and then `b` is a run of `b` after a run of `a`. */
  lemma {:induction false} RunSplits(l: Layout, handler: Bytes -> Bytes, s: System, a: seq<Step>, b: seq<Step>)
    requires Ready(l, s.world) && IsRun(l, handler, s, a + b)
    ensures IsRun(l, handler, s, a)
    ensures IsRun(l, handler, After(l, handler, s, a), b)
    ensures After(l, handler, s, a + b) == After(l, handler, After(l, handler, s, a), b)
    decreases |a|
  {
    if |a| == 0 {
      assert a + b == b;
    } else {
      FirstOfConcat(a, b);
      RunBegins(l, handler, s, a[0], a[1..] + b);
      RunBegins(l, handler, s, a[0], a[1..]);
      RunSplits(l, handler, Next(l, handler, s, a[0]), a[1..], b);
    }
  }

  lemma StepKeepsReturned(l: Layout, handler: Bytes -> Bytes, s: System, step: Step, id: Word32)
    requires KeepsLength(handler) && Ready(l, s.world) && Enabled(l, handler, s, step) && Correct(l, handler, s)
    requires id in s.requests && s.requests[id].progress.Returned?
    ensures id in Next(l, handler, s, step).requests
    ensures Next(l, handler, s, step).requests[id] == s.requests[id]
  {
    if step.Process? {
      ReplyReturnsCall(l, handler, s, step.i, step.d, step.delivered);
    }
  }

  /** What a call has returned is never touched again. */
  lemma {:induction false} ReturnedStays(l: Layout, handler: Bytes -> Bytes, s: System, steps: seq<Step>, id: Word32)
    requires KeepsLength(handler) && Ready(l, s.world) && IsRun(l, handler, s, steps) && Correct(l, handler, s)
    requires id in s.requests && s.requests[id].progress.Returned?
    ensures id in After(l, handler, s, steps).requests
    ensures After(l, handler, s, steps).requests[id] == s.requests[id]
    decreases |steps|
  {
    if |steps| != 0 {
      StepKeepsReturned(l, handler, s, steps[0], id);
      StepKeepsCorrect(l, handler, s, steps[0]);
      ReturnedStays(l, handler, Next(l, handler, s, steps[0]), steps[1..], id);
    }
  }

  /** A step that neither fails the call `id` nor serves a request under that id. */
  predicate Spares(l: Layout, step: Step, id: Word32) {
    match step
    case Submit(_, _, _) => true
    case Arrive(_) => true
    case Process(_, d, _) => |d.message| >= l.HeaderSize() && d.message[4] == 1 ==> MessageId(l, d.message) != id
    case Fail(other) => other != id
  }

  lemma StepKeepsWaiting(l: Layout, handler: Bytes -> Bytes, s: System, step: Step, id: Word32, m: Bytes)
    requires KeepsLength(handler) && Ready(l, s.world) && Enabled(l, handler, s, step) && Correct(l, handler, s)
    requires Spares(l, step, id) && id in s.requests && s.requests[id].progress == Waiting
    requires m in s.queue && |m| >= l.HeaderSize() && m[4] == 1 && MessageId(l, m) == id
    ensures var t := Next(l, handler, s, step);
      id in t.requests && t.requests[id] == s.requests[id] && m in t.queue
  {
    if step.Process? {
      ReplyReturnsCall(l, handler, s, step.i, step.d, step.delivered);
      StaysQueued(s.queue, step.i, m);
    }
  }

  lemma StaysQueued(queue: seq<Bytes>, i: nat, m: Bytes)
    requires m in queue && i < |queue| && queue[i] != m
    ensures m in queue[..i] + queue[i + 1..]
  {
    var k :| 0 <= k < |queue| && queue[k] == m;
    assert m == if k < i then queue[..i][k] else queue[i + 1..][k - i - 1];
  }

  /** A call that nobody fails or serves keeps waiting, and its message stays in the queue. */
  lemma {:induction false} UnservedKeepsWaiting(l: Layout, handler: Bytes -> Bytes, s: System, steps: seq<Step>,
                                                id: Word32, m: Bytes)
    requires KeepsLength(handler) && Ready(l, s.world) && IsRun(l, handler, s, steps) && Correct(l, handler, s)
    requires forall step :: step in steps ==> Spares(l, step, id)
    requires id in s.requests && s.requests[id].progress == Waiting
    requires m in s.queue && |m| >= l.HeaderSize() && m[4] == 1 && MessageId(l, m) == id
    ensures var t := After(l, handler, s, steps);
      id in t.requests && t.requests[id] == s.requests[id] && m in t.queue
    decreases |steps|
  {
    if |steps| != 0 {
      assert steps[0] in steps;
      StepKeepsWaiting(l, handler, s, steps[0], id, m);
      StepKeepsCorrect(l, handler, s, steps[0]);
      UnservedKeepsWaiting(l, handler, Next(l, handler, s, steps[0]), steps[1..], id, m);
    }
  }

  /** The same from the moment the call waits. */
  lemma ServedInTheEnd(l: Layout, handler: Bytes -> Bytes, s: System, id: Word32, m: Bytes,
                       between: seq<Step>, i: nat, d: Delivery, after: seq<Step>)
    requires KeepsLength(handler) && Ready(l, s.world) && Correct(l, handler, s)
    requires IsRun(l, handler, s, between + ([Process(i, d, true)] + after))
    requires forall step :: step in between ==> Spares(l, step, id)
    requires id in s.requests && s.requests[id].progress == Waiting
    requires m in s.queue && |m| >= l.HeaderSize() && m[4] == 1 && MessageId(l, m) == id
    requires |d.message| >= l.HeaderSize() && d.message[4] == 1 && MessageId(l, d.message) == id
    ensures var t := After(l, handler, s, between + ([Process(i, d, true)] + after));
      var payload := s.requests[id].payload;
      id in t.requests && t.requests[id] == Request(payload, Returned(true, handler(payload)))
  {
    var serve := Process(i, d, true);
    RunSplits(l, handler, s, between, [serve] + after);
    UnservedKeepsWaiting(l, handler, s, between, id, m);
    RequestsMeanTheirAnswers(l, handler, s, between);
    var n := After(l, handler, s, between);
    RunBegins(l, handler, n, serve, after);
    ReplyReturnsCall(l, handler, n, i, d, true);
    StepKeepsCorrect(l, handler, n, serve);
    ReturnedStays(l, handler, Next(l, handler, n, serve), after, id);
  }

  /** In every run: a call that is submitted, served when some time has passed, and sent its reply, has returned
      the handler's answer to its own bytes in the end, whatever other calls, messages and failures there are
      before, in between and after. */
  lemma ServedCallReturns(l: Layout, handler: Bytes -> Bytes, s: System, id: Word32, kind: Word16, payload: Bytes,
                          between: seq<Step>, i: nat, d: Delivery, after: seq<Step>)
    requires KeepsLength(handler) && Ready(l, s.world) && Correct(l, handler, s)
    requires IsRun(l, handler, s, [Submit(id, kind, payload)] + (between + ([Process(i, d, true)] + after)))
    requires forall step :: step in between ==> Spares(l, step, id)
    requires |d.message| >= l.HeaderSize() && d.message[4] == 1 && MessageId(l, d.message) == id
    ensures var t := After(l, handler, s, [Submit(id, kind, payload)] + (between + ([Process(i, d, true)] + after)));
      id in t.requests && t.requests[id] == Request(payload, Returned(true, handler(payload)))
  {
    var submit, serve := Submit(id, kind, payload), Process(i, d, true);
    var rest := between + ([serve] + after);
    RunBegins(l, handler, s, submit, rest);
    StepKeepsCorrect(l, handler, s, submit);
    SubmitEffect(l, handler, s, id, kind, payload);
    ServedInTheEnd(l, handler, Next(l, handler, s, submit), id, Submitted(l, id, kind, payload), between, i, d, after);
  }
}
