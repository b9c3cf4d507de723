/**
 * `Database.scan(data, match_event_handler=None, flags=0, context=None,
 * scratch=None)`: a block scan of one bytes object, or, for a database in
 * vectored mode, a scan of a sequence of buffers.
 *
 * The scan is split in two: `ScanRequest` checks the arguments and
 * assembles the engine call; `ScanDatabase` makes the call, lets the
 * engine report to the callback, and turns what is left into the Python
 * result. Nothing changes on the heap.
 */
module Scanning {
  import opened PyRuntime
  import opened EngineErrors
  import opened Callbacks
  import opened EngineCalls
  import opened Binding

  const NOT_A_BUFFER: PyExc := TypeError("obj doesn't support buffer interface")
  const NOT_BYTES: PyExc := TypeError("a bytes-like object is required")
  const CHIMERA_VECTORED: PyExc := RuntimeError("chimera does not support vectored scanning")

  /** PyObject_CheckBuffer: bytes and bytearray export a buffer. */
  predicate IsBuffer(o: PyObj) { o.PyBytes? || o.PyByteArray? }

  /** The bytes a buffer exports. */
  function BufferBytes(o: PyObj): seq<byte>
    requires IsBuffer(o)
  {
    if o.PyBytes? then o.bytes else o.content
  }

  /** The loop over the items: each must export a buffer, and the first that does not stops it. */
  function CollectBuffers(items: seq<PyObj>): (r: Outcome<seq<seq<byte>>>)
    ensures r.Ok? <==> forall i :: 0 <= i < |items| ==> IsBuffer(items[i])
    ensures r.Ok? ==> |r.value| == |items| && forall i :: 0 <= i < |items| ==> r.value[i] == BufferBytes(items[i])
    ensures r.Fail? ==> r == Raised(NOT_A_BUFFER)
  {
    if |items| == 0 then Ok([])
    else if !IsBuffer(items[0]) then Raised(NOT_A_BUFFER)
    else
      var rest :- CollectBuffers(items[1..]);
      Ok([BufferBytes(items[0])] + rest)
  }

  /**
   * The buffers of a vectored scan. PySequence_Fast of something that
   * cannot be iterated returns NULL, whose size is then read.
   */
  function Buffers(data: PyObj): (r: Outcome<seq<seq<byte>>>)
    ensures !IsSequence(data) ==> r == Crashed(NullObject)
    ensures IsSequence(data) ==> r == CollectBuffers(Items(data))
  {
    if !IsSequence(data) then Crashed(NullObject) else CollectBuffers(Items(data))
  }

  /** The lengths array of a vectored scan, one entry per buffer. */
  function VectorLengths(buffers: seq<seq<byte>>): (lens: seq<int>)
    ensures |lens| == |buffers|
    ensures forall i :: 0 <= i < |buffers| ==> lens[i] == |buffers[i]|
  {
    seq(|buffers|, i requires 0 <= i < |buffers| => |buffers[i]|)
  }

  /**
   * The lengths the engine reads as the current module is written: the
   * array holds 64-bit Py_ssize_t values but is handed over as an array
   * of 32-bit words, so length i is the i-th little-endian half-word.
   */
  function VectorLengthsAsWritten(lengths: seq<nat>): (words: seq<int>)
    ensures |words| == |lengths|
    ensures forall j :: 0 <= j < |lengths| && j % 2 == 0 ==> words[j] == lengths[j / 2] % UINT32_LIMIT
    ensures forall j :: 0 <= j < |lengths| && j % 2 == 1 ==> words[j] == lengths[j / 2] / UINT32_LIMIT
  {
    seq(|lengths|, j requires 0 <= j < |lengths| =>
      if j % 2 == 0 then lengths[j / 2] % UINT32_LIMIT else lengths[j / 2] / UINT32_LIMIT)
  }

  /** The byte lengths of the buffers, as the C loop stores them. */
  function ByteLengths(buffers: seq<seq<byte>>): (lens: seq<nat>)
    ensures |lens| == |buffers| && forall i :: 0 <= i < |buffers| ==> lens[i] == |buffers[i]|
  {
    seq(|buffers|, i requires 0 <= i < |buffers| => |buffers[i]|)
  }

  /**
   * Three buffers of nine bytes each: as written the engine is told
   * 9, 0 and 9 bytes, where the intended lengths are 9, 9 and 9.
   */
  lemma VectorLengthsAsWrittenMisreads()
    ensures var bufs := [seq(9, _ => 0 as byte), seq(9, _ => 0 as byte), seq(9, _ => 0 as byte)];
      && VectorLengthsAsWritten(ByteLengths(bufs)) == [9, 0, 9]
      && VectorLengths(bufs) == [9, 9, 9]
  {
    var bufs := [seq(9, _ => 0 as byte), seq(9, _ => 0 as byte), seq(9, _ => 0 as byte)];
    var words := VectorLengthsAsWritten(ByteLengths(bufs));
    assert words[0] == 9 && words[1] == 0 && words[2] == 9;
    assert VectorLengths(bufs)[1] == 9;
  }

  /**
   * As written, with buffers under 4 GiB every odd-numbered buffer is
   * read as empty and buffer 2k gets the length of buffer k.
   */
  lemma VectorLengthsAsWrittenShape(buffers: seq<seq<byte>>, j: nat)
    requires j < |buffers|
    requires forall i :: 0 <= i < |buffers| ==> |buffers[i]| < UINT32_LIMIT
    ensures j % 2 == 1 ==> VectorLengthsAsWritten(ByteLengths(buffers))[j] == 0
    ensures j % 2 == 0 ==> VectorLengthsAsWritten(ByteLengths(buffers))[j] == |buffers[j / 2]|
  {
  }

  /**
   * How the lengths of a vectored scan reach the engine: as the module is
   * written, through the cast to 32-bit words, or as evidently intended,
   * one entry per buffer holding its length.
   */
  datatype LengthRule = CastToWords | OwnLengths

  /** The lengths array the engine reads under a rule. */
  function PassedLengths(rule: LengthRule, buffers: seq<seq<byte>>): (lens: seq<int>)
    ensures |lens| == |buffers|
  {
    match rule
    case CastToWords => VectorLengthsAsWritten(ByteLengths(buffers))
    case OwnLengths => VectorLengths(buffers)
  }

  /**
   * The engine call a scan makes, or the error that stops it first: the
   * "I" flags, then the buffers (vectored) or the exact-bytes check
   * (block), then for vectored mode the Chimera refusal, then the scratch
   * handle read through the given scratch or, when None was given, the
   * database's.
   */
  function ScanRequestUsing(rule: LengthRule, h: Heap, d: nat, data: PyObj, callback: PyObj, flags: PyObj, scratch: PyObj): (r: Outcome<ScanCall>)
    requires d in h.dbs
    ensures r.Ok? ==> r.value.handler == (callback != PyNone) && r.value.program == h.dbs[d].program
    ensures r.Ok? ==> IsInt(flags) && r.value.flags == ToUint32(IntValue(flags))
    ensures r.Ok? ==> (r.value.VectorScan? <==> h.dbs[d].mode == HS_MODE_VECTORED)
    ensures r.Ok? && r.value.BlockScan? ==> data.PyBytes? && r.value.data == data.bytes && r.value.chimera == h.dbs[d].chimera
    ensures r.Ok? && r.value.VectorScan? ==> (
      && !h.dbs[d].chimera && Buffers(data).Ok? && r.value.buffers == Buffers(data).value
      && r.value.lengths == PassedLengths(rule, r.value.buffers))
    ensures r.Ok? ==>
      var source := if scratch == PyNone then h.dbs[d].scratch else scratch;
      ScanScratch(h, source, r.value.BlockScan? && r.value.chimera) == Ok(r.value.scratch)
  {
    var fl :- AsMask32(flags);
    var db := h.dbs[d];
    var source := if scratch == PyNone then db.scratch else scratch;
    if db.mode == HS_MODE_VECTORED then
      var buffers :- Buffers(data);
      if db.chimera then Raised(CHIMERA_VECTORED)
      else
        var sc :- ScanScratch(h, source, false);
        Ok(VectorScan(db.program, buffers, PassedLengths(rule, buffers), fl, sc, callback != PyNone))
    else if !data.PyBytes? then Raised(NOT_BYTES)
    else
      var sc :- ScanScratch(h, source, db.chimera);
      Ok(BlockScan(db.chimera, db.program, data.bytes, fl, sc, callback != PyNone))
  }

  /** The scan request with each buffer's own length, as evidently intended. */
  function ScanRequest(h: Heap, d: nat, data: PyObj, callback: PyObj, flags: PyObj, scratch: PyObj): Outcome<ScanCall>
    requires d in h.dbs
  {
    ScanRequestUsing(OwnLengths, h, d, data, callback, flags, scratch)
  }

  /**
   * The two readings of the lengths fail alike and make the same call
   * but for the lengths of a vectored scan.
   */
  lemma ScanRequestsDifferInLengthsOnly(h: Heap, d: nat, data: PyObj, callback: PyObj, flags: PyObj, scratch: PyObj)
    requires d in h.dbs
    ensures var cast, own := ScanRequestUsing(CastToWords, h, d, data, callback, flags, scratch),
                             ScanRequestUsing(OwnLengths, h, d, data, callback, flags, scratch);
      && (cast.Fail? <==> own.Fail?)
      && (own.Fail? ==> cast == own)
      && (own.Ok? && own.value.BlockScan? ==> cast == own)
      && (own.Ok? && own.value.VectorScan? ==>
            cast.value == own.value.(lengths := VectorLengthsAsWritten(ByteLengths(own.value.buffers))))
  {
  }

  /**
   * Three 9-byte buffers in a list: as written the engine is told to
   * scan 9, 0 and 9 bytes of them, where each buffer has 9.
   */
  lemma ScanAsWrittenMisreads(h: Heap, d: nat, callback: PyObj, flags: PyObj, scratch: PyObj)
    requires d in h.dbs && h.dbs[d].mode == HS_MODE_VECTORED
    requires var nine := PyBytes(seq(9, _ => 0 as byte));
      ScanRequestUsing(OwnLengths, h, d, PyList([nine, nine, nine]), callback, flags, scratch).Ok?
    ensures var nine := PyBytes(seq(9, _ => 0 as byte));
      && ScanRequestUsing(CastToWords, h, d, PyList([nine, nine, nine]), callback, flags, scratch).value.lengths == [9, 0, 9]
      && ScanRequestUsing(OwnLengths, h, d, PyList([nine, nine, nine]), callback, flags, scratch).value.lengths == [9, 9, 9]
  {
    var nine := PyBytes(seq(9, _ => 0 as byte));
    var data := PyList([nine, nine, nine]);
    ScanRequestsDifferInLengthsOnly(h, d, data, callback, flags, scratch);
    var bufs := Buffers(data).value;
    assert bufs == [nine.bytes, nine.bytes, nine.bytes];
    VectorLengthsAsWrittenMisreads();
  }

  /**
   * What a finished scan raises. A block scan first re-raises the
   * exception the callback left pending; both kinds then check the
   * status; a scan whose callback did not return normally but which the
   * engine did not report as failed returns NULL with nothing set.
   */
  function Conclude(vectored: bool, run: Driven): (r: Outcome<()>)
    ensures !vectored && run.pending.Some? ==> r == Raised(run.pending.value)
    ensures (vectored || run.pending.None?) && run.status != SUCCESS ==> r == Fail(EngineFailure(run.status))
    ensures r.Ok? <==> (vectored || run.pending.None?) && run.status == SUCCESS && run.success
  {
    if !vectored && run.pending.Some? then Raised(run.pending.value)
    else if run.status != SUCCESS then Fail(EngineFailure(run.status))
    else if !run.success then Raised(NullWithoutException)
    else Ok(())
  }

  /**
   * `Database.scan` on the database `d` under a reading of the lengths,
   * the callback answering as `script` says. A call is made exactly when
   * the request is valid; the callback sees the engine's matches in
   * order, from the first, with the context; a scan that succeeds has
   * shown it every match; an engine refusal raises its status class.
   */
  function ScanDatabaseUsing(rule: LengthRule, h: Heap, e: Engine, script: Script, d: nat, data: PyObj, callback: PyObj,
                             flags: PyObj, context: PyObj, scratch: PyObj): (r: Run<()>)
    requires d in h.dbs
    ensures r.calls == [] <==> ScanRequestUsing(rule, h, d, data, callback, flags, scratch).Fail?
    ensures ScanRequestUsing(rule, h, d, data, callback, flags, scratch).Fail? ==>
      r == Run(Fail(ScanRequestUsing(rule, h, d, data, callback, flags, scratch).failure), [], [])
    ensures ScanRequestUsing(rule, h, d, data, callback, flags, scratch).Ok? ==>
      var call := ScanRequestUsing(rule, h, d, data, callback, flags, scratch).value;
      && r.calls == [Scan(call)]
      && InOrder(r.invocations, e.scan(call), callback, context)
      && (callback == PyNone ==> r.invocations == [])
      && (e.scan(call).Refuses? ==> r.result == Fail(EngineFailure(e.scan(call).status)))
      && (r.result.Ok? ==> e.scan(call).Reports? && (callback != PyNone ==> |r.invocations| == |e.scan(call).matches|))
    ensures ScanRequestUsing(rule, h, d, data, callback, flags, scratch).Ok? ==>
      var call := ScanRequestUsing(rule, h, d, data, callback, flags, scratch).value;
      var run := Drive(e.scan(call), call.handler, callback, script, context, true, true);
      && r.invocations == run.calls && r.result == Conclude(call.VectorScan?, run)
  {
    match ScanRequestUsing(rule, h, d, data, callback, flags, scratch)
    case Fail(f) => Run(Fail(f), [], [])
    case Ok(call) =>
      var run := Drive(e.scan(call), call.handler, callback, script, context, true, true);
      Run(Conclude(call.VectorScan?, run), [Scan(call)], run.calls)
  }

  /** `Database.scan` as evidently intended, each buffer of a vectored scan with its own length. */
  function ScanDatabase(h: Heap, e: Engine, script: Script, d: nat, data: PyObj, callback: PyObj := PyNone,
                        flags: PyObj := PyInt(0), context: PyObj := PyNone, scratch: PyObj := PyNone): Run<()>
    requires d in h.dbs
  {
    ScanDatabaseUsing(OwnLengths, h, e, script, d, data, callback, flags, context, scratch)
  }

  /** `Database.scan` as written, the lengths of a vectored scan read through the cast. */
  function ScanDatabaseAsWritten(h: Heap, e: Engine, script: Script, d: nat, data: PyObj, callback: PyObj := PyNone,
                                 flags: PyObj := PyInt(0), context: PyObj := PyNone, scratch: PyObj := PyNone): Run<()>
    requires d in h.dbs
  {
    ScanDatabaseUsing(CastToWords, h, e, script, d, data, callback, flags, context, scratch)
  }

  /** Outside vectored mode the two readings of the lengths scan alike. */
  lemma BlockScansAgree(h: Heap, e: Engine, script: Script, d: nat, data: PyObj, callback: PyObj,
                        flags: PyObj, context: PyObj, scratch: PyObj)
    requires d in h.dbs && h.dbs[d].mode != HS_MODE_VECTORED
    ensures ScanDatabaseAsWritten(h, e, script, d, data, callback, flags, context, scratch)
      == ScanDatabase(h, e, script, d, data, callback, flags, context, scratch)
  {
    ScanRequestsDifferInLengthsOnly(h, d, data, callback, flags, scratch);
  }

  /** Without a callback no handler is installed: nothing reaches Python, and only the status decides. */
  lemma ScanWithoutCallback(h: Heap, e: Engine, script: Script, d: nat, data: PyObj, flags: PyObj, context: PyObj, scratch: PyObj)
    requires d in h.dbs
    requires ScanRequest(h, d, data, PyNone, flags, scratch).Ok?
    ensures var r := ScanDatabase(h, e, script, d, data, PyNone, flags, context, scratch);
      var call := ScanRequest(h, d, data, PyNone, flags, scratch).value;
      && !call.handler && r.invocations == []
      && (r.result.Ok? <==> e.scan(call).Reports?)
      && (e.scan(call).Refuses? ==> r.result == Fail(EngineFailure(e.scan(call).status)))
  {
  }

  /**
   * An explicit scratch is the one the engine gets, whatever the
   * database holds; without one the database's scratch is read, and a
   * database that has none (a fresh or a loaded one) is read through None.
   */
  lemma ScanScratchChoice(h: Heap, d: nat, data: PyObj, callback: PyObj, flags: PyObj, s: nat)
    requires d in h.dbs && s in h.scratches
    requires ScanRequest(h, d, data, callback, flags, ScratchObj(s)).Ok?
    ensures var call := ScanRequest(h, d, data, callback, flags, ScratchObj(s)).value;
      call.scratch == HandleFor(h.scratches[s], call.BlockScan? && call.chimera)
  {
  }

  /** A database without a scratch, scanned without one: the C code reads a scratch through None. */
  lemma ScanWithoutAnyScratchCrashes(h: Heap, e: Engine, script: Script, d: nat, data: PyObj, callback: PyObj, context: PyObj)
    requires d in h.dbs && h.dbs[d].scratch == PyNone && h.dbs[d].mode != HS_MODE_VECTORED
    requires data.PyBytes?
    ensures ScanDatabase(h, e, script, d, data, callback, PyInt(0), context, PyNone).result == Crashed(NoneAsScratch)
  {
  }

  /** A vectored scan on a Chimera database is refused once the buffers are read, before any call. */
  lemma ScanVectoredChimeraRefused(h: Heap, e: Engine, script: Script, d: nat, data: PyObj, callback: PyObj,
                                   flags: PyObj, context: PyObj, scratch: PyObj)
    requires d in h.dbs && h.dbs[d].mode == HS_MODE_VECTORED && h.dbs[d].chimera
    requires IsInt(flags) && Buffers(data).Ok?
    ensures ScanDatabase(h, e, script, d, data, callback, flags, context, scratch) == Run(Raised(CHIMERA_VECTORED), [], [])
  {
  }

  /** A vectored scan hands the engine one entry per buffer, holding that buffer's length. */
  lemma ScanVectoredLengths(h: Heap, d: nat, data: PyObj, callback: PyObj, flags: PyObj, scratch: PyObj, i: nat)
    requires d in h.dbs && h.dbs[d].mode == HS_MODE_VECTORED
    requires ScanRequest(h, d, data, callback, flags, scratch).Ok?
    requires IsSequence(data) && i < Length(data)
    ensures var call := ScanRequest(h, d, data, callback, flags, scratch).value;
      && IsBuffer(Items(data)[i]) && |call.lengths| == Length(data)
      && call.buffers[i] == BufferBytes(Items(data)[i]) && call.lengths[i] == |BufferBytes(Items(data)[i])|
  {
  }

  /**
   * A block scan whose callback raises on the first match raises that
   * exception itself; a vectored scan replaces it with ScanTerminated.
   */
  lemma ScanCallbackException(h: Heap, e: Engine, script: Script, d: nat, data: PyObj, callback: PyObj,
                              flags: PyObj, context: PyObj, scratch: PyObj, x: PyExc)
    requires d in h.dbs && IsCallable(callback)
    requires ScanRequest(h, d, data, callback, flags, scratch).Ok?
    requires var call := ScanRequest(h, d, data, callback, flags, scratch).value;
      e.scan(call).Reports? && |e.scan(call).matches| > 0
    requires |script| > 0 && script[0] == Raises(x)
    ensures var r := ScanDatabase(h, e, script, d, data, callback, flags, context, scratch);
      var call := ScanRequest(h, d, data, callback, flags, scratch).value;
      && r.invocations == [Invocation(callback, e.scan(call).matches[0], context)]
      && (call.BlockScan? ==> r.result == Raised(x))
      && (call.VectorScan? ==> r.result == Raised(EngineExc(ScanTerminated, CodeMsg(SCAN_TERMINATED))))
  {
    var call := ScanRequest(h, d, data, callback, flags, scratch).value;
    HaltingFirstReplyCallsOnce(e.scan(call).matches, callback, script, context, true);
    TerminationRaisesScanTerminated();
  }

  /** A callback whose first answer is truthy stops the scan: ScanTerminated, in either mode. */
  lemma ScanTruthyReplyTerminates(h: Heap, e: Engine, script: Script, d: nat, data: PyObj, callback: PyObj,
                                  flags: PyObj, context: PyObj, scratch: PyObj, v: PyObj)
    requires d in h.dbs && IsCallable(callback)
    requires ScanRequest(h, d, data, callback, flags, scratch).Ok?
    requires var call := ScanRequest(h, d, data, callback, flags, scratch).value;
      e.scan(call).Reports? && |e.scan(call).matches| > 0
    requires |script| > 0 && script[0] == Returns(v) && v != PyNone && IsTrue(v)
    ensures var r := ScanDatabase(h, e, script, d, data, callback, flags, context, scratch);
      && |r.invocations| == 1
      && r.result == Raised(EngineExc(ScanTerminated, CodeMsg(SCAN_TERMINATED)))
  {
    var call := ScanRequest(h, d, data, callback, flags, scratch).value;
    HaltingFirstReplyCallsOnce(e.scan(call).matches, callback, script, context, true);
    TerminationRaisesScanTerminated();
  }

  /**
   * A callback that always returns None is called once for every match
   * the engine reports, in order, with the context, and the scan returns
   * None.
   */
  lemma ScanSeesEveryMatch(h: Heap, e: Engine, script: Script, d: nat, data: PyObj, callback: PyObj,
                           flags: PyObj, context: PyObj, scratch: PyObj)
    requires d in h.dbs && IsCallable(callback)
    requires ScanRequest(h, d, data, callback, flags, scratch).Ok?
    requires e.scan(ScanRequest(h, d, data, callback, flags, scratch).value).Reports?
    requires forall j :: 0 <= j < |script| ==> script[j] == Returns(PyNone)
    ensures var r := ScanDatabase(h, e, script, d, data, callback, flags, context, scratch);
      var ms := e.scan(ScanRequest(h, d, data, callback, flags, scratch).value).matches;
      && r.result == Ok(())
      && |r.invocations| == |ms|
      && forall j :: 0 <= j < |ms| ==> r.invocations[j] == Invocation(callback, ms[j], context)
  {
    var call := ScanRequest(h, d, data, callback, flags, scratch).value;
    ContinuingCallbackSeesEveryMatch(e.scan(call).matches, callback, script, context, 0, true);
  }
}
