/**
 * `hyperscan.Stream`: created by `Database.stream`, opened by entering a
 * `with` block, fed by `scan`, finished by `close` (or by leaving the
 * block), measured by `len()` and `size()`.
 *
 * The stream keeps its database, the engine's stream identifier (NULL
 * until the stream is entered), the flags and the default callback and
 * context. Closing does not clear the identifier; nothing in the object
 * records whether the stream was closed.
 */
module Streams {
  import opened PyRuntime
  import opened EngineErrors
  import opened Callbacks
  import opened EngineCalls
  import opened Binding

  const CHIMERA_STREAMS: PyExc := RuntimeError("chimera does not support streams")
  const NOT_A_SCRATCH: PyExc := TypeError("scratch must be a hyperscan.Scratch instance")

  /** A stream the heap holds, on a live database. */
  predicate LiveStream(h: Heap, t: nat) {
    t in h.streams && h.streams[t].database in h.dbs
  }

  /**
   * `Database.stream(match_event_handler, flags=0, context=None)`, creating
   * the stream `t`: the "I" flags, then a Stream that remembers the
   * database, the flags and the callback and context as given, with no
   * engine stream yet.
   */
  function DatabaseStream(h: Heap, d: nat, t: nat, callback: PyObj, flags: PyObj := PyInt(0),
                          context: PyObj := PyNone): (r: Step<nat>)
    requires d in h.dbs && t !in h.streams
    ensures r.calls == [] && r.invocations == []
    ensures r.heap.dbs == h.dbs && r.heap.scratches == h.scratches
    ensures r.result.Ok? <==> IsInt(flags)
    ensures !IsInt(flags) ==> r.heap == h && r.result == Raised(ArgumentTypeError)
    ensures r.result.Ok? ==> (
      && r.result.value == t && LiveStream(r.heap, t)
      && r.heap.streams == h.streams[t := r.heap.streams[t]]
      && var st := r.heap.streams[t];
      && st.database == d && st.identifier.None? && st.flags == ToUint32(IntValue(flags))
      && st.callback == callback && st.context == context)
  {
    match AsMask32(flags)
    case Fail(f) => Step(h, Fail(f), [], [])
    case Ok(fl) => Step(h.(streams := h.streams[t := Stream(d, None, fl, callback, context)]), Ok(t), [], [])
  }

  /**
   * `Stream.__enter__()`: refused for Chimera; otherwise the engine opens a
   * stream on the database's program (with flags 0, not the stream's) and
   * its identifier is stored; the result is the stream itself.
   */
  function StreamEnter(h: Heap, e: Engine, t: nat): (r: Step<nat>)
    requires LiveStream(h, t)
    ensures r.invocations == [] && r.heap.dbs == h.dbs && r.heap.scratches == h.scratches
    ensures t in r.heap.streams && r.heap.streams == h.streams[t := r.heap.streams[t]]
    ensures r.heap.streams[t] == h.streams[t].(identifier := r.heap.streams[t].identifier)
    ensures r.result.Ok? ==> r.result.value == t
  {
    var st := h.streams[t];
    var db := h.dbs[st.database];
    if db.chimera then Step(h, Raised(CHIMERA_STREAMS), [], [])
    else
      match e.openStream(db.program)
      case Produced(x) => Step(h.(streams := h.streams[t := st.(identifier := Some(x))]), Ok(t), [OpenStream(db.program)], [])
      case Refused(status) => Step(h, Fail(EngineFailure(status)), [OpenStream(db.program)], [])
  }

  /**
   * Entering a Hyperscan stream asks the engine for a stream on the
   * database's program and keeps exactly the identifier it hands back; a
   * refusal raises from the error table and leaves the stream as it was.
   */
  lemma StreamEnterOpens(h: Heap, e: Engine, t: nat)
    requires LiveStream(h, t) && !h.dbs[h.streams[t].database].chimera
    ensures var r := StreamEnter(h, e, t); var program := h.dbs[h.streams[t].database].program;
      && r.calls == [OpenStream(program)]
      && (r.result.Ok? <==> e.openStream(program).Produced?)
      && (e.openStream(program).Produced? ==> r.heap.streams[t].identifier == Some(e.openStream(program).handle))
      && (e.openStream(program).Refused? ==> r.result == Fail(EngineFailure(e.openStream(program).status)) && r.heap == h)
  {
  }

  /** Entering a stream on a Chimera database raises before any engine call. */
  lemma StreamEnterChimeraRefused(h: Heap, e: Engine, t: nat)
    requires LiveStream(h, t) && h.dbs[h.streams[t].database].chimera
    ensures StreamEnter(h, e, t) == Step(h, Raised(CHIMERA_STREAMS), [], [])
  {
  }

  /** The "s#" argument: a str as its UTF-8 bytes, or a bytes object. */
  function TextBytes(data: PyObj): (r: Outcome<seq<byte>>)
    ensures r.Ok? <==> data.PyStr? || data.PyBytes?
    ensures data.PyStr? ==> r == Ok(Utf8(data.chars))
    ensures data.PyBytes? ==> r == Ok(data.bytes)
    ensures r.Fail? ==> r == Raised(ArgumentTypeError)
  {
    match data
    case PyStr(s) => Ok(Utf8(s))
    case PyBytes(b) => Ok(b)
    case _ => Raised(ArgumentTypeError)
  }

  /** The optional "I" argument: an omitted one leaves the C variable unset. */
  function OptionalFlags(flags: Option<PyObj>): (r: Outcome<Option<uint32>>)
    ensures flags.None? ==> r == Ok(None)
    ensures flags.Some? ==> (r.Ok? <==> IsInt(flags.value))
    ensures flags.Some? && r.Ok? ==> r.value == Some(ToUint32(IntValue(flags.value)))
    ensures r.Fail? ==> r == Raised(ArgumentTypeError)
  {
    match flags
    case None => Ok(None)
    case Some(o) =>
      var fl :- AsMask32(o);
      Ok(Some(fl))
  }

  /**
   * The engine call of `Stream.scan(data, flags=<unset>, scratch=None,
   * match_event_handler=None, context=None)`, or the error that stops it
   * first: the arguments, then the scratch choice (a falsy scratch means
   * the database's, a truthy one must be a Scratch), then the Chimera
   * refusal, then the scratch handle. Falsy callback or context give way
   * to the stream's; the handler is installed when the callback in use is
   * not None.
   */
  function StreamScanRequest(h: Heap, t: nat, data: PyObj, flags: Option<PyObj>, scratch: PyObj, callback: PyObj): (r: Outcome<StreamScanCall>)
    requires LiveStream(h, t)
    ensures r.Ok? ==> (
      && var st := h.streams[t]; var db := h.dbs[st.database];
      && !db.chimera && TextBytes(data) == Ok(r.value.data) && OptionalFlags(flags) == Ok(r.value.flags)
      && r.value.identifier == st.identifier
      && r.value.handler == (Fallback(callback, st.callback) != PyNone)
      && (IsTrue(scratch) ==> scratch.ScratchObj?)
      && ScanScratch(h, if IsTrue(scratch) then scratch else db.scratch, false) == Ok(r.value.scratch))
  {
    var bytes :- TextBytes(data);
    var fl :- OptionalFlags(flags);
    var st := h.streams[t];
    var db := h.dbs[st.database];
    var cb := Fallback(callback, st.callback);
    if IsTrue(scratch) && !scratch.ScratchObj? then Raised(NOT_A_SCRATCH)
    else if db.chimera then Raised(CHIMERA_STREAMS)
    else
      var sc :- ScanScratch(h, if IsTrue(scratch) then scratch else db.scratch, false);
      Ok(StreamScanCall(st.identifier, bytes, fl, sc, cb != PyNone))
  }

  /**
   * `Stream.scan`: the engine scans the next piece of the stream; only the
   * status is checked, so a callback that raised or stopped the scan
   * surfaces as ScanTerminated. A call is made exactly when the request is
   * valid; the callback in use sees the engine's matches in order, from
   * the first, with the context in use; a scan that succeeds has shown it
   * every match; an engine refusal raises its status class.
   */
  function StreamScan(h: Heap, e: Engine, script: Script, t: nat, data: PyObj, flags: Option<PyObj> := None,
                      scratch: PyObj := PyNone, callback: PyObj := PyNone, context: PyObj := PyNone): (r: Run<()>)
    requires LiveStream(h, t)
    ensures r.calls == [] <==> StreamScanRequest(h, t, data, flags, scratch, callback).Fail?
    ensures StreamScanRequest(h, t, data, flags, scratch, callback).Ok? ==>
      var call := StreamScanRequest(h, t, data, flags, scratch, callback).value;
      var callee := Fallback(callback, h.streams[t].callback);
      && InOrder(r.invocations, e.scanStream(call), callee, Fallback(context, h.streams[t].context))
      && (callee == PyNone ==> r.invocations == [])
      && (e.scanStream(call).Refuses? ==> r.result == Fail(EngineFailure(e.scanStream(call).status)))
      && (r.result.Ok? ==> e.scanStream(call).Reports? && (callee != PyNone ==> |r.invocations| == |e.scanStream(call).matches|))
    ensures StreamScanRequest(h, t, data, flags, scratch, callback).Fail? ==>
      r == Run(Fail(StreamScanRequest(h, t, data, flags, scratch, callback).failure), [], [])
    ensures StreamScanRequest(h, t, data, flags, scratch, callback).Ok? ==>
      var call := StreamScanRequest(h, t, data, flags, scratch, callback).value;
      var run := Drive(e.scanStream(call), call.handler, Fallback(callback, h.streams[t].callback), script,
                       Fallback(context, h.streams[t].context), true, true);
      && r.calls == [ScanStream(call)] && r.invocations == run.calls
      && r.result == Check(run.status)
  {
    match StreamScanRequest(h, t, data, flags, scratch, callback)
    case Fail(f) => Run(Fail(f), [], [])
    case Ok(call) =>
      var st := h.streams[t];
      var run := Drive(e.scanStream(call), call.handler, Fallback(callback, st.callback), script,
                       Fallback(context, st.context), true, true);
      Run(Check(run.status), [ScanStream(call)], run.calls)
  }

  /**
   * Called without a callback, a stream scan reports matches to the
   * callback and context the stream was created with; a str is scanned
   * as its UTF-8 encoding.
   */
  lemma StreamScanDefaults(h: Heap, e: Engine, script: Script, t: nat, text: string)
    requires LiveStream(h, t)
    requires StreamScanRequest(h, t, PyStr(text), None, PyNone, PyNone).Ok?
    ensures var call := StreamScanRequest(h, t, PyStr(text), None, PyNone, PyNone).value;
      var r := StreamScan(h, e, script, t, PyStr(text));
      && call.data == Utf8(text) && call.flags.None?
      && call.handler == (h.streams[t].callback != PyNone)
      && forall j :: 0 <= j < |r.invocations| ==>
           r.invocations[j].callee == h.streams[t].callback && r.invocations[j].context == h.streams[t].context
  {
    var call := StreamScanRequest(h, t, PyStr(text), None, PyNone, PyNone).value;
    var st := h.streams[t];
    var run := Drive(e.scanStream(call), call.handler, st.callback, script, st.context, true, true);
    if call.handler && e.scanStream(call).Reports? {
      var w := Walk(e.scanStream(call).matches, st.callback, script, st.context, 0, true);
      assert run.calls == w.calls;
    }
  }

  /** A callback exception in a stream scan is reported as ScanTerminated, not as itself. */
  lemma StreamScanCallbackException(h: Heap, e: Engine, script: Script, t: nat, data: PyObj, callback: PyObj, x: PyExc)
    requires LiveStream(h, t) && IsCallable(callback)
    requires StreamScanRequest(h, t, data, None, PyNone, callback).Ok?
    requires var call := StreamScanRequest(h, t, data, None, PyNone, callback).value;
      e.scanStream(call).Reports? && |e.scanStream(call).matches| > 0
    requires |script| > 0 && script[0] == Raises(x)
    ensures StreamScan(h, e, script, t, data, None, PyNone, callback).result
      == Raised(EngineExc(ScanTerminated, CodeMsg(SCAN_TERMINATED)))
  {
    var call := StreamScanRequest(h, t, data, None, PyNone, callback).value;
    HaltingFirstReplyCallsOnce(e.scanStream(call).matches, callback, script, Fallback(PyNone, h.streams[t].context), true);
    TerminationRaisesScanTerminated();
  }

  /** A stream scan on a Chimera database is refused once its arguments are read. */
  lemma StreamScanChimeraRefused(h: Heap, e: Engine, script: Script, t: nat, data: PyObj)
    requires LiveStream(h, t) && h.dbs[h.streams[t].database].chimera
    requires data.PyStr? || data.PyBytes?
    ensures StreamScan(h, e, script, t, data) == Run(Raised(CHIMERA_STREAMS), [], [])
  {
  }

  /**
   * The engine call of `Stream.close(scratch=None, match_event_handler=None,
   * context=None)`: a scratch, when given, must be a Scratch ("O!"); the
   * scratch handle comes from it or from the database's scratch. There is
   * no Chimera check.
   */
  function StreamCloseRequest(h: Heap, t: nat, scratch: Option<PyObj>): (r: Outcome<StreamCloseCall>)
    requires LiveStream(h, t)
    ensures scratch.Some? && !scratch.value.ScratchObj? ==> r == Raised(ArgumentTypeError)
    ensures r.Ok? ==> r.value.identifier == h.streams[t].identifier
    ensures r.Ok? ==>
      var chosen := if scratch.Some? then scratch.value else h.dbs[h.streams[t].database].scratch;
      ScanScratch(h, chosen, false) == Ok(r.value.scratch)
  {
    if scratch.Some? && !scratch.value.ScratchObj? then Raised(ArgumentTypeError)
    else
      var db := h.dbs[h.streams[t].database];
      var sc :- ScanScratch(h, if scratch.Some? then scratch.value else db.scratch, false);
      Ok(StreamCloseCall(h.streams[t].identifier, sc))
  }

  /**
   * `Stream.close`: the engine flushes the stream through the binding's
   * handler, always installed; falsy callback or context give way to the
   * stream's. The engine does not report a halted close as a failure, so
   * an exception the callback left pending makes the method return None
   * with an exception set.
   */
  function StreamClose(h: Heap, e: Engine, script: Script, t: nat, scratch: Option<PyObj> := None,
                       callback: PyObj := PyNone, context: PyObj := PyNone): (r: Run<()>)
    requires LiveStream(h, t)
    ensures StreamCloseRequest(h, t, scratch).Fail? ==> r == Run(Fail(StreamCloseRequest(h, t, scratch).failure), [], [])
    ensures StreamCloseRequest(h, t, scratch).Ok? ==> |r.calls| == 1 && r.calls[0] == CloseStream(StreamCloseRequest(h, t, scratch).value)
    ensures r.result.Ok? ==> StreamCloseRequest(h, t, scratch).Ok?
  {
    match StreamCloseRequest(h, t, scratch)
    case Fail(f) => Run(Fail(f), [], [])
    case Ok(call) =>
      var st := h.streams[t];
      var run := Drive(e.closeStream(call), true, Fallback(callback, st.callback), script, Fallback(context, st.context), true, false);
      var result := if run.status != SUCCESS then Fail(EngineFailure(run.status))
                    else if run.pending.Some? then Raised(ResultWithException)
                    else Ok(());
      Run(result, [CloseStream(call)], run.calls)
  }

  /**
   * Closing reports the matches still pending in the stream to the
   * callback in use; the result is the engine's status, except that a
   * callback exception with a successful status becomes a SystemError
   * (a result returned with an exception set).
   */
  lemma StreamCloseOutcome(h: Heap, e: Engine, script: Script, t: nat, scratch: Option<PyObj>, callback: PyObj, context: PyObj)
    requires LiveStream(h, t) && StreamCloseRequest(h, t, scratch).Ok?
    ensures var call := StreamCloseRequest(h, t, scratch).value; var st := h.streams[t];
      var run := Drive(e.closeStream(call), true, Fallback(callback, st.callback), script, Fallback(context, st.context), true, false);
      var r := StreamClose(h, e, script, t, scratch, callback, context);
      && r.invocations == run.calls
      && (run.status != SUCCESS ==> r.result == Fail(EngineFailure(run.status)))
      && (run.status == SUCCESS ==> (r.result.Ok? <==> run.pending.None?))
      && (run.status == SUCCESS && run.pending.Some? ==> r.result == Raised(ResultWithException))
  {
  }

  /**
   * A callback that raises during close, on a stream the engine closes
   * successfully, yields SystemError: the callback's exception is left
   * set under a normal return.
   */
  lemma StreamCloseCallbackException(h: Heap, e: Engine, script: Script, t: nat, callback: PyObj, x: PyExc)
    requires LiveStream(h, t) && IsCallable(callback) && StreamCloseRequest(h, t, None).Ok?
    requires var run := e.closeStream(StreamCloseRequest(h, t, None).value); run.Reports? && |run.matches| > 0
    requires |script| > 0 && script[0] == Raises(x)
    ensures StreamClose(h, e, script, t, None, callback).result == Raised(ResultWithException)
    ensures |StreamClose(h, e, script, t, None, callback).invocations| == 1
  {
    var call := StreamCloseRequest(h, t, None).value;
    var ms := e.closeStream(call).matches;
    assert Walk(ms, callback, script, Fallback(PyNone, h.streams[t].context), 0, true).halted;
  }

  /**
   * Closing leaves the stream object as it was: the identifier is not
   * cleared, so a second close hands the engine the same identifier again,
   * although the first close freed the stream state behind it. The engine
   * parameter does not track freed handles, so that use after free is not
   * a `Crashed` outcome here.
   */
  lemma StreamCloseTwice(h: Heap, e: Engine, script1: Script, script2: Script, t: nat)
    requires LiveStream(h, t) && StreamCloseRequest(h, t, None).Ok?
    ensures StreamClose(h, e, script1, t).calls == StreamClose(h, e, script2, t).calls
    ensures StreamClose(h, e, script1, t).calls[0].close.identifier == h.streams[t].identifier
  {
  }

  /**
   * `Stream.__exit__(*exc_info)`: `close()` with no arguments, whose
   * exception propagates.
   */
  function StreamExit(h: Heap, e: Engine, script: Script, t: nat): (r: Run<()>)
    requires LiveStream(h, t)
    ensures r.result.Ok? ==> r.calls != [] && r.calls[0].CloseStream?
  {
    var closed := StreamClose(h, e, script, t);
    Run(if closed.result.Ok? then Ok(()) else Fail(closed.result.failure), closed.calls, closed.invocations)
  }

  /**
   * Leaving the `with` block closes the stream with the database's
   * scratch, reporting to the callback and context the stream was created
   * with.
   */
  lemma StreamExitUsesStoredCallback(h: Heap, e: Engine, script: Script, t: nat)
    requires LiveStream(h, t)
    ensures var r := StreamExit(h, e, script, t); var st := h.streams[t]; var db := h.dbs[st.database];
      && (ScanScratch(h, db.scratch, false).Ok? ==>
           r.calls == [CloseStream(StreamCloseCall(st.identifier, ScanScratch(h, db.scratch, false).value))])
      && (ScanScratch(h, db.scratch, false).Fail? ==> r == Run(Fail(ScanScratch(h, db.scratch, false).failure), [], []))
      && forall j :: 0 <= j < |r.invocations| ==> r.invocations[j].callee == st.callback && r.invocations[j].context == st.context
  {
    var st := h.streams[t];
    var r := StreamExit(h, e, script, t);
    if StreamCloseRequest(h, t, None).Ok? {
      var call := StreamCloseRequest(h, t, None).value;
      var ms := e.closeStream(call);
      if ms.Reports? {
        var w := Walk(ms.matches, st.callback, script, st.context, 0, true);
        assert r.invocations == w.calls;
      }
    }
  }

  /**
   * What `len(stream)` (the sequence length slot) returns. Chimera and a
   * refused size set an exception and return 0, which Python reports as
   * the result-with-exception SystemError; a refusal whose code has no
   * registered class reads an empty slot of the error table first.
   */
  function StreamLength(h: Heap, e: Engine, t: nat): (r: Run<nat>)
    requires LiveStream(h, t)
    ensures r.invocations == []
    ensures h.dbs[h.streams[t].database].chimera ==> r == Run(Raised(ResultWithException), [], [])
    ensures !h.dbs[h.streams[t].database].chimera ==> r.calls == [StreamSize(h.dbs[h.streams[t].database].program)]
    ensures r.result.Ok? <==> !h.dbs[h.streams[t].database].chimera && e.streamSize(h.dbs[h.streams[t].database].program).Sized?
    ensures r.result.Ok? ==> r.result.value == e.streamSize(h.dbs[h.streams[t].database].program).size
    ensures !h.dbs[h.streams[t].database].chimera && e.streamSize(h.dbs[h.streams[t].database].program).SizeRefused? ==>
      var f := EngineFailure(e.streamSize(h.dbs[h.streams[t].database].program).status);
      r.result == if f.Raise? then Raised(ResultWithException) else Fail(f)
  {
    var db := h.dbs[h.streams[t].database];
    if db.chimera then Run(Raised(ResultWithException), [], [])
    else
      match e.streamSize(db.program)
      case Sized(n) => Run(Ok(n), [StreamSize(db.program)], [])
      case SizeRefused(status) =>
        var f := EngineFailure(status);
        Run(if f.Raise? then Raised(ResultWithException) else Fail(f), [StreamSize(db.program)], [])
  }

  /**
   * `Stream.size()` as the current module registers it: the C function
   * returns a long but is called as if it returned an object, so 0 reads
   * as NULL (raising whatever is set, else SystemError) and any other
   * value is read as an object pointer.
   */
  function SizeOfStreamAsWritten(h: Heap, e: Engine, t: nat): (r: Run<nat>)
    requires LiveStream(h, t)
    ensures r.invocations == []
    ensures h.dbs[h.streams[t].database].chimera ==> r == Run(Raised(CHIMERA_STREAMS), [], [])
    ensures r.result.Ok? ==> false
  {
    var db := h.dbs[h.streams[t].database];
    if db.chimera then Run(Raised(CHIMERA_STREAMS), [], [])
    else
      match e.streamSize(db.program)
      case Sized(n) => Run(if n == 0 then Raised(NullWithoutException) else Crashed(IntegerAsObject), [StreamSize(db.program)], [])
      case SizeRefused(status) => Run(Fail(EngineFailure(status)), [StreamSize(db.program)], [])
  }

  /** As written, a stream with a non-empty state crashes `size()`; an empty one raises SystemError. */
  lemma SizeOfStreamAsWrittenNeverReturns(h: Heap, e: Engine, t: nat)
    requires LiveStream(h, t) && !h.dbs[h.streams[t].database].chimera
    requires e.streamSize(h.dbs[h.streams[t].database].program).Sized?
    ensures var n := e.streamSize(h.dbs[h.streams[t].database].program).size;
      && (n > 0 ==> SizeOfStreamAsWritten(h, e, t).result == Crashed(IntegerAsObject))
      && (n == 0 ==> SizeOfStreamAsWritten(h, e, t).result == Raised(NullWithoutException))
  {
  }

  /**
   * `Stream.size()` as evidently intended: the size of the stream state
   * as an int, with Chimera and engine errors raised.
   */
  function SizeOfStream(h: Heap, e: Engine, t: nat): (r: Run<nat>)
    requires LiveStream(h, t)
    ensures r.invocations == []
    ensures h.dbs[h.streams[t].database].chimera ==> r == Run(Raised(CHIMERA_STREAMS), [], [])
    ensures !h.dbs[h.streams[t].database].chimera && e.streamSize(h.dbs[h.streams[t].database].program).SizeRefused? ==>
      r.result == Fail(EngineFailure(e.streamSize(h.dbs[h.streams[t].database].program).status))
  {
    var db := h.dbs[h.streams[t].database];
    if db.chimera then Run(Raised(CHIMERA_STREAMS), [], [])
    else
      match e.streamSize(db.program)
      case Sized(n) => Run(Ok(n), [StreamSize(db.program)], [])
      case SizeRefused(status) => Run(Fail(EngineFailure(status)), [StreamSize(db.program)], [])
  }

  /** Corrected, `size()` and `len()` agree whenever either returns, and make the same call. */
  lemma SizeOfStreamAgreesWithLength(h: Heap, e: Engine, t: nat)
    requires LiveStream(h, t)
    ensures SizeOfStream(h, e, t).result.Ok? <==> StreamLength(h, e, t).result.Ok?
    ensures SizeOfStream(h, e, t).result.Ok? ==> SizeOfStream(h, e, t).result == StreamLength(h, e, t).result
    ensures SizeOfStream(h, e, t).calls == StreamLength(h, e, t).calls
  {
  }
}
