/**
 * The match-callback protocol between the engine, the binding's C handler
 * and the Python callback.
 *
 * For every match the engine calls the handler; the handler calls the
 * Python callback with (id, from, to, flags[, captures], context) and
 * answers the engine with a halt value: 0 to go on, anything else to stop.
 * It also records in the shared context whether the call returned
 * normally (`success`), and a raising call leaves a Python exception
 * pending on the thread.
 *
 * The engine is opaque: what it reports is an `EngineRun` parameter, and
 * what the Python callback does on its k-th call is the k-th entry of a
 * `Script`. The engine's side of the protocol is the one Hyperscan's
 * documentation promises: it stops at the first non-zero halt and then
 * reports termination (a scan) or nothing special (closing a stream).
 * Chimera documents only the halt values 0 (go on), 1 (stop) and 2 (skip
 * the pattern); the handler never answers 2, and the -1 it answers when a
 * reply's truth test raises is assumed to stop a Chimera scan as 1 does.
 */
module Callbacks {
  import opened PyRuntime
  import opened EngineErrors

  /** A capture group the Chimera engine reports with a match. */
  datatype Capture = Capture(flags: uint32, from: uint64, to: uint64)

  /** One match the engine reports; `captures` is present for Chimera only. */
  datatype Match = Match(id: uint32, from: uint64, to: uint64, flags: uint32, captures: Option<seq<Capture>>)

  /** What one call of the Python callback does. */
  datatype Reply =
    | Raises(exc: PyExc)                  // the call raises
    | Returns(value: PyObj)               // the call returns an object
    | ReturnsUntestable(exc: PyExc)       // it returns an object whose truth test raises

  /** The replies a callable gives to its successive calls during one scan. */
  type Script = seq<Reply>

  /** One call of the Python callback, with the arguments it received. */
  datatype Invocation = Invocation(callee: PyObj, event: Match, context: PyObj)

  /** What the handler answers the engine and what it leaves behind. */
  datatype HandlerStep = HandlerStep(halt: int, success: bool, raised: Option<PyExc>)

  predicate IsCallable(o: PyObj) { o.PyFunction? }

  /**
   * The reply of the k-th call of `callee`: an object that is not callable
   * raises TypeError on every call; calls past the end of the script
   * return None.
   */
  function ReplyAt(callee: PyObj, script: Script, k: nat): (r: Reply)
    ensures !IsCallable(callee) ==> r == Raises(NotCallable)
    ensures IsCallable(callee) && k < |script| ==> r == script[k]
  {
    if !IsCallable(callee) then Raises(NotCallable)
    else if k < |script| then script[k]
    else Returns(PyNone)
  }

  /**
   * The handler's decision for one reply: None continues; any other
   * returned object halts exactly when it is truthy; a raising call halts
   * and clears `success`; a normal return sets it; a failing truth test
   * answers -1 with the exception pending. The Hyperscan and the Chimera
   * handler decide alike.
   */
  function Handler(reply: Reply): (s: HandlerStep)
    ensures reply.Returns? && reply.value == PyNone ==> s.halt == 0
    ensures reply.Returns? ==> (s.halt != 0 <==> IsTrue(reply.value)) && s.halt in {0, 1}
    ensures reply.Raises? ==> s.halt == 1
    ensures s.success <==> !reply.Raises?
    ensures s.raised.Some? <==> !reply.Returns?
    ensures s.raised.Some? ==> s.raised.value == reply.exc
    ensures s.halt == 0 ==> s.success && s.raised.None?
  {
    match reply
    case Raises(e) => HandlerStep(1, false, Some(e))
    case Returns(v) => HandlerStep(if v == PyNone then 0 else if IsTrue(v) then 1 else 0, true, None)
    case ReturnsUntestable(e) => HandlerStep(-1, true, Some(e))
  }

  /** The k-th call of the callback makes the engine stop. */
  predicate Halts(callee: PyObj, script: Script, k: nat) {
    Handler(ReplyAt(callee, script, k)).halt != 0
  }

  /** The handler's trail over a run of matches. */
  datatype Walked = Walked(halted: bool, success: bool, raised: Option<PyExc>, calls: seq<Invocation>)

  /**
   * The engine reporting `ms` to the handler, the first report being the
   * callback's k-th call, with `success` the context's flag so far.
   */
  function Walk(ms: seq<Match>, callee: PyObj, script: Script, ctx: PyObj, k: nat, success: bool): (w: Walked)
    decreases |ms|
    ensures |w.calls| <= |ms|
    ensures forall j :: 0 <= j < |w.calls| ==> w.calls[j] == Invocation(callee, ms[j], ctx)
    ensures forall j :: k <= j < k + |w.calls| - 1 ==> !Halts(callee, script, j)
    ensures w.halted <==> |w.calls| > 0 && Halts(callee, script, k + |w.calls| - 1)
    ensures !w.halted ==> |w.calls| == |ms|
    ensures w.raised == (if w.halted then Handler(ReplyAt(callee, script, k + |w.calls| - 1)).raised else None)
    ensures w.success == (if |w.calls| == 0 then success else Handler(ReplyAt(callee, script, k + |w.calls| - 1)).success)
  {
    if |ms| == 0 then Walked(false, success, None, [])
    else
      var step := Handler(ReplyAt(callee, script, k));
      var call := Invocation(callee, ms[0], ctx);
      if step.halt != 0 then Walked(true, step.success, step.raised, [call])
      else
        var rest := Walk(ms[1..], callee, script, ctx, k + 1, step.success);
        Walked(rest.halted, rest.success, rest.raised, [call] + rest.calls)
  }

  /** What the engine reports for one call, supplied from outside the model. */
  datatype EngineRun =
    | Refuses(status: ErrorCode)          // fails before reporting anything
    | Reports(matches: seq<Match>)        // reports these matches in order

  /** The matches an engine run reports: none when it refuses. */
  function MatchesOf(run: EngineRun): seq<Match> {
    if run.Reports? then run.matches else []
  }

  /**
   * The callback was called on the run's first matches, in order, each
   * time with the same context.
   */
  predicate InOrder(calls: seq<Invocation>, run: EngineRun, callee: PyObj, ctx: PyObj) {
    && |calls| <= |MatchesOf(run)|
    && forall j :: 0 <= j < |calls| ==> calls[j] == Invocation(callee, MatchesOf(run)[j], ctx)
  }

  /** The result of one engine call that may reach the handler. */
  datatype Driven = Driven(status: int, success: bool, pending: Option<PyExc>, calls: seq<Invocation>)

  /**
   * One engine call. With no handler installed nothing reaches Python.
   * With one, the engine stops at the first non-zero halt; a scan then
   * returns SCAN_TERMINATED, while closing a stream (`reportsTermination`
   * false) still returns SUCCESS.
   */
  function Drive(run: EngineRun, handler: bool, callee: PyObj, script: Script, ctx: PyObj,
                 success0: bool, reportsTermination: bool): (d: Driven)
    ensures !handler || run.Refuses? ==> d.calls == [] && d.pending.None? && d.success == success0
    ensures run.Refuses? ==> d.status == run.status
    ensures run.Reports? ==> d.status in {SUCCESS, SCAN_TERMINATED}
    ensures run.Reports? && handler ==> |d.calls| <= |run.matches|
    ensures InOrder(d.calls, run, callee, ctx)
    ensures run.Reports? && handler && reportsTermination && d.status == SUCCESS ==> |d.calls| == |run.matches|
    ensures d.pending.Some? ==> |d.calls| > 0 && Handler(ReplyAt(callee, script, |d.calls| - 1)).raised == d.pending
    ensures reportsTermination && d.pending.Some? ==> d.status == SCAN_TERMINATED
    ensures reportsTermination && success0 && d.status == SUCCESS ==> d.success && d.pending.None?
  {
    match run
    case Refuses(s) => Driven(s, success0, None, [])
    case Reports(ms) =>
      if !handler then Driven(SUCCESS, success0, None, [])
      else
        var w := Walk(ms, callee, script, ctx, 0, success0);
        Driven(if w.halted && reportsTermination then SCAN_TERMINATED else SUCCESS, w.success, w.raised, w.calls)
  }

  /**
   * A first reply that halts (a truthy return, a raise, a failing truth
   * test) ends a scan after exactly one call, with termination reported.
   */
  lemma HaltingFirstReplyCallsOnce(ms: seq<Match>, callee: PyObj, script: Script, ctx: PyObj, success0: bool)
    requires |ms| > 0 && Halts(callee, script, 0)
    ensures var d := Drive(Reports(ms), true, callee, script, ctx, success0, true);
      |d.calls| == 1 && d.status == SCAN_TERMINATED && d.calls[0] == Invocation(callee, ms[0], ctx)
  {
  }

  /** A callback that always returns None sees every match and the scan succeeds. */
  lemma {:induction false} ContinuingCallbackSeesEveryMatch(ms: seq<Match>, callee: PyObj, script: Script, ctx: PyObj, k: nat, success: bool)
    requires IsCallable(callee)
    requires forall j :: 0 <= j < |script| ==> script[j] == Returns(PyNone)
    ensures var w := Walk(ms, callee, script, ctx, k, success);
      !w.halted && |w.calls| == |ms| && w.raised.None?
  {
    if |ms| > 0 {
      assert !Halts(callee, script, k);
      ContinuingCallbackSeesEveryMatch(ms[1..], callee, script, ctx, k + 1, true);
    }
  }

  /** A handler given a callee that is not callable halts at the first match with TypeError pending. */
  lemma NonCallableCalleeRaisesOnFirstMatch(ms: seq<Match>, callee: PyObj, script: Script, ctx: PyObj, success0: bool, reportsTermination: bool)
    requires |ms| > 0 && !IsCallable(callee)
    ensures var d := Drive(Reports(ms), true, callee, script, ctx, success0, reportsTermination);
      |d.calls| == 1 && d.pending == Some(NotCallable) && !d.success
  {
  }

  /**
   * The falsy-argument fallback of Stream.scan and Stream.close: a truthy
   * argument is used, anything falsy (None included) gives way to the
   * value stored on the stream.
   */
  function Fallback(arg: PyObj, stored: PyObj): (r: PyObj)
    ensures IsTrue(arg) ==> r == arg
    ensures !IsTrue(arg) ==> r == stored
  {
    if IsTrue(arg) then arg else stored
  }
}
