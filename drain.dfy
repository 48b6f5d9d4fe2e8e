/** `unqueue(timeout, should_wait)` as a function on the state of its loop. Time advances only
    while the loop sleeps, one tick per 0.25 s sleep; the messages the polling thread queues
    meanwhile are given as `arrivals[k]`, the batch that is in the queue after the `k`-th sleep.
    Decoding a message (`json.loads`) is the parameter `decode`, `None` standing for the error it
    raises on malformed text. */
module Drain {
  import opened Wrappers
  import opened Json

  /** One call of the response handler: the message's `callId` if it has one, and its payload. */
  datatype Dispatch = Dispatch(callId: Option<Json>, payload: Json)

  /** The loop's variables: the queue, the batches still to arrive, the ticks slept since the
      window last restarted, the `wait` flag, the handler calls so far, and whether an error was
      raised (which leaves `unqueue` at once). */
  datatype Drainer = Drainer(
    queue: seq<string>,
    arrivals: seq<seq<string>>,
    elapsed: nat,
    wait: bool,
    dispatched: seq<Dispatch>,
    raised: bool)

  /** How one message is handled: a handler call, nothing (a falsy payload), or an error. */
  datatype Outcome = Handle(call: Option<Dispatch>) | Raise

  /** Messages that are dropped unread: empty ones and the literal `nil`. */
  predicate Skipped(m: string)
  {
    m == "" || m == "nil"
  }

  /** Reading a message that is not skipped: it must decode to a JSON object (anything else fails
      on `.get`), which must have a `payload` (indexing it raises `KeyError` otherwise); the
      handler is called only when the payload is truthy. */
  function Decode(m: string, decode: string -> Option<Json>): Outcome
  {
    match decode(m)
    case None => Raise
    case Some(j) =>
      if !j.Obj? || "payload" !in j.fields then Raise
      else
        var f := j.fields;
        var callId := CallIdOf(f);
        Handle(if Truthy(f["payload"]) then Some(Dispatch(callId, f["payload"])) else None)
  }

  /** `_json.get("callId")`: Python's `None` both for a missing call id and for `null`. */
  function CallIdOf(f: map<string, Json>): Option<Json>
  {
    if "callId" in f && f["callId"] != Null then Some(f["callId"]) else None
  }

  /** The loop's state on entry: `wait` is set only when asked for and the queue is empty. */
  function Start(queue: seq<string>, arrivals: seq<seq<string>>, shouldWait: bool): Drainer
  {
    Drainer(queue, arrivals, 0, queue == [] && shouldWait, [], false)
  }

  /** The loop condition: something to read or a reply to wait for, and time left. */
  predicate Active(d: Drainer, timeout: nat)
  {
    !d.raised && (d.queue != [] || d.wait) && d.elapsed < timeout
  }

  /** One iteration: sleep when waiting on an empty queue, otherwise take the oldest message. A
      skipped message changes nothing else; any other message clears `wait` and restarts the
      window before it is decoded. */
  function Step(d: Drainer, decode: string -> Option<Json>): (r: Drainer)
    requires d.queue != [] || d.wait
  {
    if d.wait && d.queue == [] then
      d.(queue := if d.arrivals == [] then [] else d.arrivals[0],
         arrivals := if d.arrivals == [] then [] else d.arrivals[1..],
         elapsed := d.elapsed + 1)
    else
      var m, rest := d.queue[0], d.queue[1..];
      if Skipped(m) then d.(queue := rest)
      else
        match Decode(m, decode)
        case Raise => d.(queue := rest, wait := false, elapsed := 0, raised := true)
        case Handle(call) =>
          d.(queue := rest, wait := false, elapsed := 0,
             dispatched := d.dispatched + (if call.Some? then [call.value] else []))
  }

  /** Messages still to be read, queued or yet to arrive. */
  function Pending(d: Drainer): nat
  {
    |d.queue| + Total(d.arrivals)
  }

  function Total(batches: seq<seq<string>>): nat
  {
    if batches == [] then 0 else |batches[0]| + Total(batches[1..])
  }

  /** A step reads a message, or sleeps and brings the window one tick nearer its end. */
  lemma StepProgress(d: Drainer, timeout: nat, decode: string -> Option<Json>)
    requires Active(d, timeout)
    ensures var r := Step(d, decode);
      || Pending(r) < Pending(d)
      || (Pending(r) == Pending(d) && d.elapsed < r.elapsed <= timeout)
  {
  }

  /** The whole loop. */
  function Run(d: Drainer, timeout: nat, decode: string -> Option<Json>): (r: Drainer)
    ensures !Active(r, timeout)
    ensures d.dispatched <= r.dispatched
    decreases Pending(d), timeout - d.elapsed
  {
    if Active(d, timeout) then
      StepProgress(d, timeout, decode);
      Run(Step(d, decode), timeout, decode)
    else d
  }

  /** `unqueue`: the handler calls it makes, in order, and what is left of the queue. */
  function Unqueue(queue: seq<string>, arrivals: seq<seq<string>>, timeout: nat, shouldWait: bool,
                   decode: string -> Option<Json>): Drainer
  {
    Run(Start(queue, arrivals, shouldWait), timeout, decode)
  }

  /** The handler calls a list of messages makes when each is read in turn and none fails. */
  function Dispatches(ms: seq<string>, decode: string -> Option<Json>): seq<Dispatch>
  {
    if ms == [] then []
    else
      var o := Decode(ms[0], decode);
      (if !Skipped(ms[0]) && o.Handle? && o.call.Some? then [o.call.value] else [])
        + Dispatches(ms[1..], decode)
  }

  /** Whether a message, once read, does not raise. */
  predicate Readable(m: string, decode: string -> Option<Json>)
  {
    Skipped(m) || Decode(m, decode).Handle?
  }

  /** Without waiting, the loop reads what is queued oldest first, never sleeps, and calls the
      handler for exactly the messages with a truthy payload, in queue order. */
  lemma {:induction false} DrainInOrder(d: Drainer, timeout: nat, decode: string -> Option<Json>)
    requires !d.wait && !d.raised && d.elapsed == 0 && timeout > 0
    requires forall i :: 0 <= i < |d.queue| ==> Readable(d.queue[i], decode)
    ensures var r := Run(d, timeout, decode);
      && r.queue == [] && !r.raised && r.elapsed == 0 && r.arrivals == d.arrivals
      && r.dispatched == d.dispatched + Dispatches(d.queue, decode)
    decreases |d.queue|
  {
    if d.queue != [] {
      var r := Step(d, decode);
      assert r.queue == d.queue[1..];
      assert forall i :: 0 <= i < |r.queue| ==> r.queue[i] == d.queue[i + 1];
      DrainInOrder(r, timeout, decode);
    }
  }

  /** `unqueue` without waiting, on a queue of messages that decode: it empties the queue and
      dispatches in arrival order. */
  lemma UnqueueDispatchesInOrder(queue: seq<string>, arrivals: seq<seq<string>>, timeout: nat,
                                  decode: string -> Option<Json>)
    requires timeout > 0
    requires forall i :: 0 <= i < |queue| ==> Readable(queue[i], decode)
    ensures var r := Unqueue(queue, arrivals, timeout, false, decode);
      r.queue == [] && !r.raised && r.dispatched == Dispatches(queue, decode)
  {
    DrainInOrder(Start(queue, arrivals, false), timeout, decode);
  }

  /** An empty queue without waiting is left at once: no handler call, no sleep. */
  lemma EmptyQueueReturnsAtOnce(arrivals: seq<seq<string>>, timeout: nat, decode: string -> Option<Json>)
    ensures Unqueue([], arrivals, timeout, false, decode) == Start([], arrivals, false)
  {
  }

  /** A skipped message is dropped without touching `wait`, the window or the handler calls. */
  lemma SkippedLeavesTimer(d: Drainer, decode: string -> Option<Json>)
    requires d.queue != [] && Skipped(d.queue[0])
    ensures Step(d, decode) == d.(queue := d.queue[1..])
  {
  }

  /** Any other message clears `wait` and restarts the window, whether or not it is dispatched. */
  lemma MessageRestartsTimer(d: Drainer, decode: string -> Option<Json>)
    requires d.queue != [] && !Skipped(d.queue[0])
    ensures var r := Step(d, decode); !r.wait && r.elapsed == 0 && r.queue == d.queue[1..]
  {
  }

  /** Whether every message of every batch is skipped. */
  predicate AllSkipped(batches: seq<seq<string>>)
  {
    forall k, i :: 0 <= k < |batches| && 0 <= i < |batches[k]| ==> Skipped(batches[k][i])
  }

  /** Waiting while only empty and `nil` messages come: the loop never calls the handler, keeps
      waiting, and ends when the window runs out. */
  lemma {:induction false} WaitingOnNilTimesOut(d: Drainer, timeout: nat, decode: string -> Option<Json>)
    requires d.wait && !d.raised && d.elapsed <= timeout
    requires forall i :: 0 <= i < |d.queue| ==> Skipped(d.queue[i])
    requires AllSkipped(d.arrivals)
    ensures var r := Run(d, timeout, decode);
      && r.dispatched == d.dispatched && r.wait && !r.raised && r.elapsed == timeout
    decreases Pending(d), timeout - d.elapsed
  {
    if Active(d, timeout) {
      var r := Step(d, decode);
      StepProgress(d, timeout, decode);
      if d.queue == [] {
        if d.arrivals != [] {
          assert forall i :: 0 <= i < |r.queue| ==> r.queue[i] == d.arrivals[0][i];
          assert forall k :: 0 <= k < |r.arrivals| ==> r.arrivals[k] == d.arrivals[k + 1];
        }
      } else {
        assert forall i :: 0 <= i < |r.queue| ==> r.queue[i] == d.queue[i + 1];
      }
      WaitingOnNilTimesOut(r, timeout, decode);
    }
  }

  /** `unqueue(timeout, should_wait=True)` on an empty queue, while only empty and `nil` messages
      arrive, calls no handler and runs for the whole window. */
  lemma NilNeverEndsTheWait(arrivals: seq<seq<string>>, timeout: nat, decode: string -> Option<Json>)
    requires AllSkipped(arrivals)
    ensures var r := Unqueue([], arrivals, timeout, true, decode);
      r.dispatched == [] && r.elapsed == timeout
  {
    WaitingOnNilTimesOut(Start([], arrivals, true), timeout, decode);
  }

  /** One response with a call id and a truthy payload, queued before `unqueue` is called with a
      positive timeout, reaches the handler exactly once with that call id and payload. */
  lemma SingleResponseDispatched(m: string, fields: map<string, Json>, arrivals: seq<seq<string>>,
                                  timeout: nat, decode: string -> Option<Json>)
    requires !Skipped(m) && decode(m) == Some(Obj(fields)) && timeout > 0
    requires "callId" in fields && fields["callId"] != Null
    requires "payload" in fields && Truthy(fields["payload"])
    ensures var r := Unqueue([m], arrivals, timeout, false, decode);
      r.dispatched == [Dispatch(Some(fields["callId"]), fields["payload"])] && r.queue == []
  {
    UnqueueDispatchesInOrder([m], arrivals, timeout, decode);
    assert Dispatches([m], decode) == [Dispatch(Some(fields["callId"]), fields["payload"])] + Dispatches([], decode);
  }

  /** A response without a call id, or whose call id is `null`, reaches the handler with none. */
  lemma NoCallIdDispatchedWithNone(d: Drainer, fields: map<string, Json>, decode: string -> Option<Json>)
    requires d.queue != [] && !Skipped(d.queue[0]) && decode(d.queue[0]) == Some(Obj(fields))
    requires "callId" !in fields || fields["callId"] == Null
    requires "payload" in fields && Truthy(fields["payload"])
    ensures Step(d, decode).dispatched == d.dispatched + [Dispatch(None, fields["payload"])]
  {
  }

  /** A response whose payload is falsy (`null`, `false`, `0`, empty) calls no handler and raises
      nothing, though it still restarts the window. */
  lemma FalsyPayloadNotDispatched(d: Drainer, fields: map<string, Json>, decode: string -> Option<Json>)
    requires d.queue != [] && !Skipped(d.queue[0]) && decode(d.queue[0]) == Some(Obj(fields))
    requires "payload" in fields && !Truthy(fields["payload"])
    ensures var r := Step(d, decode); r.dispatched == d.dispatched && r.raised == d.raised && r.elapsed == 0
  {
  }

  /** A message that is not valid JSON, not an object, or has no `payload` ends `unqueue` with an
      error at once: no handler call, and the messages behind it stay queued. */
  lemma MissingPayloadRaises(m: string, rest: seq<string>, arrivals: seq<seq<string>>, timeout: nat,
                             shouldWait: bool, decode: string -> Option<Json>)
    requires !Skipped(m) && timeout > 0
    requires decode(m).None? || !decode(m).value.Obj? || "payload" !in decode(m).value.fields
    ensures var r := Unqueue([m] + rest, arrivals, timeout, shouldWait, decode);
      r.raised && r.dispatched == [] && r.queue == rest
  {
    var d := Start([m] + rest, arrivals, shouldWait);
    assert d.queue[0] == m && d.queue[1..] == rest;
    var r := Step(d, decode);
    assert r == d.(queue := rest, wait := false, elapsed := 0, raised := true);
    assert Run(d, timeout, decode) == Run(r, timeout, decode) == r;
  }

  /** Asking to wait changes nothing when the queue already holds messages. */
  lemma ShouldWaitOnlyWhenEmpty(queue: seq<string>, arrivals: seq<seq<string>>, timeout: nat,
                                decode: string -> Option<Json>)
    requires queue != []
    ensures Unqueue(queue, arrivals, timeout, true, decode) == Unqueue(queue, arrivals, timeout, false, decode)
  {
  }
}
