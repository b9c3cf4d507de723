/**
 * The legacy module (`hyperscan/hyperscanmodule.c`): the earlier binding,
 * Hyperscan only, whose objects have one scratch handle each and whose
 * engine failures all raise `HyperscanError("error code N")`.
 *
 * The legacy objects live in a heap of their own. A database's scratch
 * slot is `Some(o)` for the object stored there and `None` for the NULL a
 * failed `Scratch(self)` construction leaves behind. Engine calls are
 * recorded with the current module's call vocabulary, always for the
 * Hyperscan engine.
 */
module LegacyBinding {
  import opened PyRuntime
  import opened EngineErrors
  import opened Callbacks
  import opened CompileArgs
  import opened EngineCalls
  import opened Binding
  import opened Streams

  /** `hyperscan.Database`: the scratch slot, the compiled program and the mode. */
  datatype LegacyDatabase = LegacyDatabase(scratch: Option<PyObj>, program: Option<Handle>, mode: uint32)

  /** `hyperscan.Scratch`: a back-reference and one scratch handle. */
  datatype LegacyScratch = LegacyScratch(database: PyObj, handle: Option<Handle>)

  /** `hyperscan.Stream` as `Database.stream` creates it. */
  datatype LegacyStream = LegacyStream(database: nat, identifier: Option<Handle>, flags: uint32, callback: PyObj, context: PyObj)

  /** The live legacy objects, by identity. */
  datatype LegacyHeap = LegacyHeap(dbs: map<nat, LegacyDatabase>, scratches: map<nat, LegacyScratch>,
                                   streams: map<nat, LegacyStream>)

  /** What a legacy operation that may change objects leaves behind. */
  datatype LegacyStep<T> = LegacyStep(heap: LegacyHeap, result: Outcome<T>, calls: seq<EngineCall>)

  const NOT_A_BYTEARRAY: PyExc := TypeError("buf must be a bytearray")

  /** `((Scratch *)o)->scratch`: only a Scratch object is read correctly; NULL, None or anything else is undefined behaviour. */
  function LegacyHandleAt(h: LegacyHeap, slot: Option<PyObj>): (r: Outcome<Option<Handle>>)
    ensures r.Ok? <==> slot.Some? && slot.value.ScratchObj? && slot.value.scratch in h.scratches
    ensures r.Ok? ==> r.value == h.scratches[slot.value.scratch].handle
    ensures r.Fail? ==> r.failure.Crash?
    ensures slot.None? ==> r == Crashed(NullScratch)
    ensures slot == Some(PyNone) ==> r == Crashed(NoneAsScratch)
  {
    match slot
    case None => Crashed(NullScratch)
    case Some(PyNone) => Crashed(NoneAsScratch)
    case Some(ScratchObj(s)) => if s in h.scratches then Ok(h.scratches[s].handle) else Crashed(NotAScratch)
    case Some(_) => Crashed(NotAScratch)
  }

  /** `((Database *)o)->db`, likewise. */
  function LegacyProgramOf(h: LegacyHeap, o: PyObj): (r: Outcome<Option<Handle>>)
    ensures r.Ok? <==> o.DatabaseObj? && o.db in h.dbs
    ensures r.Ok? ==> r.value == h.dbs[o.db].program
    ensures r.Fail? ==> r.failure.Crash?
    ensures o == PyNone ==> r == Crashed(NoneAsDatabase)
  {
    match o
    case PyNone => Crashed(NoneAsDatabase)
    case DatabaseObj(d) => if d in h.dbs then Ok(h.dbs[d].program) else Crashed(NotADatabase)
    case _ => Crashed(NotADatabase)
  }

  // ---------------------------------------------------------------------
  // Scratch.set_database and Scratch(database)
  // ---------------------------------------------------------------------

  /**
   * `Scratch.set_database(database)`: the back-reference is overwritten
   * first; a scratch that holds a handle is refused; then the engine
   * allocates a region for the database's program.
   */
  function LegacySetDatabase(h: LegacyHeap, e: Engine, s: nat, database: PyObj): (r: LegacyStep<()>)
    requires s in h.scratches
    ensures r.heap.dbs == h.dbs && r.heap.streams == h.streams
    ensures s in r.heap.scratches && r.heap.scratches == h.scratches[s := r.heap.scratches[s]]
    ensures r.heap.scratches[s].database == database
    ensures r.result.Ok? ==> (
      && LegacyProgramOf(h, database).Ok?
      && var program := LegacyProgramOf(h, database).value;
      && r.calls == [AllocScratch(false, program, None)] && e.allocScratch(false, program, None).Produced?
      && r.heap.scratches[s].handle == Some(e.allocScratch(false, program, None).handle))
  {
    var sc := h.scratches[s].(database := database);
    var h1 := h.(scratches := h.scratches[s := sc]);
    if sc.handle.Some? then LegacyStep(h1, Raised(REALLOCATION), [])
    else
      match LegacyProgramOf(h, database)
      case Fail(f) => LegacyStep(h1, Fail(f), [])
      case Ok(program) =>
        var calls := [AllocScratch(false, program, None)];
        match e.allocScratch(false, program, None)
        case Produced(x) => LegacyStep(h1.(scratches := h1.scratches[s := sc.(handle := Some(x))]), Ok(()), calls)
        case Refused(status) => LegacyStep(h1, Fail(LegacyEngineFailure(status)), calls)
  }

  /**
   * A scratch holding a handle refuses a new database but keeps the new
   * back-reference; an empty one gets a region for the database's
   * program, and an engine refusal raises the legacy error.
   */
  lemma LegacySetDatabaseBindsOnce(h: LegacyHeap, e: Engine, s: nat, d: nat)
    requires s in h.scratches && d in h.dbs
    ensures var r := LegacySetDatabase(h, e, s, DatabaseObj(d));
      && (h.scratches[s].handle.Some? ==>
           r.result == Raised(REALLOCATION) && r.calls == [] && r.heap.scratches[s] == h.scratches[s].(database := DatabaseObj(d)))
      && (h.scratches[s].handle.None? ==> (
           var reply := e.allocScratch(false, h.dbs[d].program, None);
           && r.calls == [AllocScratch(false, h.dbs[d].program, None)]
           && (r.result.Ok? <==> reply.Produced?)
           && (reply.Refused? ==> r.result == Fail(LegacyEngineFailure(reply.status)) && r.heap.scratches[s].handle.None?)))
  {
  }

  /**
   * `Scratch(database)`, creating the scratch `id`: empty, with
   * `set_database` run when a database other than None is given.
   */
  function LegacyNewScratch(h: LegacyHeap, e: Engine, id: nat, database: PyObj): (r: LegacyStep<PyObj>)
    requires id !in h.scratches
    ensures r.heap.dbs == h.dbs && r.heap.streams == h.streams
    ensures id in r.heap.scratches && r.heap.scratches == h.scratches[id := r.heap.scratches[id]]
    ensures r.result.Ok? ==> r.result.value == ScratchObj(id)
    ensures database == PyNone ==> r.result.Ok? && r.calls == [] && r.heap.scratches[id] == LegacyScratch(PyNone, None)
    ensures database != PyNone ==>
      var bound := LegacySetDatabase(h.(scratches := h.scratches[id := LegacyScratch(PyNone, None)]), e, id, database);
      && r.heap == bound.heap && r.calls == bound.calls
      && (r.result.Ok? <==> bound.result.Ok?)
      && (r.result.Fail? ==> r.result.failure == bound.result.failure)
  {
    var h1 := h.(scratches := h.scratches[id := LegacyScratch(PyNone, None)]);
    if database == PyNone then LegacyStep(h1, Ok(ScratchObj(id)), [])
    else
      var bound := LegacySetDatabase(h1, e, id, database);
      LegacyStep(bound.heap, if bound.result.Ok? then Ok(ScratchObj(id)) else Fail(bound.result.failure), bound.calls)
  }

  // ---------------------------------------------------------------------
  // Database.compile(expressions, ids=None, elements=-1, flags=None, literal=False)
  // ---------------------------------------------------------------------

  /** N from the "I" `elements` argument, stored in a C int. */
  function LegacyElementsArg(expressions: PyObj, elements: PyObj): (r: Outcome<nat>)
    ensures !IsInt(elements) ==> r == Raised(ArgumentTypeError)
    ensures IsInt(elements) ==> r == LegacyElementCount(expressions, CInt(ToUint32(IntValue(elements))))
  {
    var m :- AsMask32(elements);
    LegacyElementCount(expressions, CInt(m))
  }

  /** The compile call of the legacy module: the literal compiler with len-1 lengths, or the ext compiler with no ext records. */
  function LegacyCompileCall(req: Request, literal: bool, mode: uint32): (c: CompileCall)
    ensures !c.chimera && c.request == req && c.mode == mode && c.ext.None?
    ensures c.literalLengths.Some? <==> literal
    ensures literal ==> c.literalLengths.value == LegacyLiteralLengths(req.expressions)
  {
    CompileCall(false, req, if literal then Some(LegacyLiteralLengths(req.expressions)) else None, None, mode)
  }

  /**
   * The scratch side of a successful legacy compile: a None slot becomes
   * `Scratch(self)` (the scratch `id`), and when that construction fails
   * the slot is left NULL and the method returns None with the error
   * still set; any other slot is read as a Scratch whose handle the
   * engine reallocates in place for the new program.
   */
  function LegacyPrepareScratch(h: LegacyHeap, e: Engine, d: nat, id: nat, program: Handle): (r: LegacyStep<()>)
    requires d in h.dbs && id !in h.scratches
    ensures r.heap.streams == h.streams
    ensures d in r.heap.dbs && r.heap.dbs == h.dbs[d := r.heap.dbs[d]]
    ensures r.heap.dbs[d] == h.dbs[d].(scratch := r.heap.dbs[d].scratch)
    ensures forall c :: c in r.calls ==> c.AllocScratch?
  {
    var db := h.dbs[d];
    if db.scratch == Some(PyNone) then
      var made := LegacyNewScratch(h, e, id, DatabaseObj(d));
      if made.result.Ok? then LegacyStep(made.heap.(dbs := h.dbs[d := db.(scratch := Some(ScratchObj(id)))]), Ok(()), made.calls)
      else LegacyStep(made.heap.(dbs := h.dbs[d := db.(scratch := None)]), Raised(ResultWithException), made.calls)
    else
      match LegacyHandleAt(h, db.scratch)
      case Fail(f) => LegacyStep(h, Fail(f), [])
      case Ok(existing) =>
        var s := db.scratch.value.scratch;
        var calls := [AllocScratch(false, Some(program), existing)];
        match e.allocScratch(false, Some(program), existing)
        case Produced(x) => LegacyStep(h.(scratches := h.scratches[s := h.scratches[s].(handle := Some(x))]), Ok(()), calls)
        case Refused(status) => LegacyStep(h, Fail(LegacyEngineFailure(status)), calls)
  }

  /**
   * `Database.compile` on the database `d`, creating the scratch `id`
   * when the database has none. Nothing is freed: the old program is
   * overwritten by whatever the engine writes, NULL on failure.
   */
  function LegacyCompile(h: LegacyHeap, e: Engine, d: nat, id: nat, expressions: PyObj, ids: PyObj := PyNone,
                         elements: PyObj := PyInt(-1), flags: PyObj := PyNone, literal: PyObj := PyBool(false)): (r: LegacyStep<()>)
    requires d in h.dbs && id !in h.scratches
    ensures r.heap.streams == h.streams
    ensures d in r.heap.dbs && r.heap.dbs == h.dbs[d := r.heap.dbs[d]]
    ensures r.heap.dbs[d].mode == h.dbs[d].mode
  {
    match LegacyElementsArg(expressions, elements)
    case Fail(f) => LegacyStep(h, Fail(f), [])
    case Ok(n) =>
      match Normalise(expressions, ids, flags, n)
      case Fail(f) => LegacyStep(h, Fail(f), [])
      case Ok(req) =>
        var db := h.dbs[d];
        var call := LegacyCompileCall(req, IsTrue(literal), db.mode);
        match e.compile(call)
        case CompileFailed(_, text, _) =>
          LegacyStep(h.(dbs := h.dbs[d := db.(program := None)]), Raised(EngineExc(HyperscanError, Message(text))), [Compile(call)])
        case Compiled(p) =>
          var prep := LegacyPrepareScratch(h.(dbs := h.dbs[d := db.(program := Some(p))]), e, d, id, p);
          LegacyStep(prep.heap, prep.result, [Compile(call)] + prep.calls)
  }

  /**
   * The legacy compile never frees a program: its first call is the
   * compile, on the normalised arrays, the rest are scratch allocations;
   * an argument or normalisation error leaves every object as it was,
   * the previous program included.
   */
  lemma LegacyCompileNeverFrees(h: LegacyHeap, e: Engine, d: nat, id: nat, expressions: PyObj, ids: PyObj,
                                elements: PyObj, flags: PyObj, literal: PyObj)
    requires d in h.dbs && id !in h.scratches
    ensures var r := LegacyCompile(h, e, d, id, expressions, ids, elements, flags, literal);
      && (forall c :: c in r.calls ==> c.Compile? || c.AllocScratch?)
      && (LegacyElementsArg(expressions, elements).Fail? ==> r == LegacyStep(h, LegacyElementsArg(expressions, elements).PropagateFailure(), []))
      && (LegacyElementsArg(expressions, elements).Ok? ==>
           var norm := Normalise(expressions, ids, flags, LegacyElementsArg(expressions, elements).value);
           && (norm.Fail? ==> r == LegacyStep(h, norm.PropagateFailure(), []))
           && (norm.Ok? ==> r.calls[0] == Compile(LegacyCompileCall(norm.value, IsTrue(literal), h.dbs[d].mode))))
  {
    var n := LegacyElementsArg(expressions, elements);
    if n.Ok? {
      var norm := Normalise(expressions, ids, flags, n.value);
      if norm.Ok? {
        var call := LegacyCompileCall(norm.value, IsTrue(literal), h.dbs[d].mode);
        if e.compile(call).Compiled? {
          var p := e.compile(call).program;
          var prep := LegacyPrepareScratch(h.(dbs := h.dbs[d := h.dbs[d].(program := Some(p))]), e, d, id, p);
          assert forall c :: c in [Compile(call)] + prep.calls ==> c == Compile(call) || c in prep.calls;
        }
      }
    }
  }

  /**
   * After a legacy compile that reached the engine, the program slot
   * holds exactly what the engine produced, or NULL when it failed with
   * its message as a HyperscanError.
   */
  lemma LegacyCompileProgram(h: LegacyHeap, e: Engine, d: nat, id: nat, expressions: PyObj, ids: PyObj,
                             elements: PyObj, flags: PyObj, literal: PyObj, req: Request)
    requires d in h.dbs && id !in h.scratches
    requires LegacyElementsArg(expressions, elements).Ok?
    requires Normalise(expressions, ids, flags, LegacyElementsArg(expressions, elements).value) == Ok(req)
    ensures var r := LegacyCompile(h, e, d, id, expressions, ids, elements, flags, literal);
      var reply := e.compile(LegacyCompileCall(req, IsTrue(literal), h.dbs[d].mode));
      && (reply.Compiled? ==> r.heap.dbs[d].program == Some(reply.program))
      && (reply.CompileFailed? ==> (
           && r.heap.dbs[d].program.None? && r.calls == [Compile(LegacyCompileCall(req, IsTrue(literal), h.dbs[d].mode))]
           && r.result == Raised(EngineExc(HyperscanError, Message(reply.message)))))
  {
  }

  /**
   * A successful legacy compile on a database without a scratch binds a
   * new Scratch to it, whose handle the engine allocated for the new
   * program; if that allocation is refused the slot is left NULL and the
   * call returns None with an exception set.
   */
  lemma LegacyCompileCreatesScratch(h: LegacyHeap, e: Engine, d: nat, id: nat, p: Handle)
    requires d in h.dbs && id !in h.scratches && h.dbs[d].scratch == Some(PyNone) && h.dbs[d].program == Some(p)
    ensures var r := LegacyPrepareScratch(h, e, d, id, p); var reply := e.allocScratch(false, Some(p), None);
      && r.calls == [AllocScratch(false, Some(p), None)]
      && (reply.Produced? ==> (
           && r.result.Ok? && r.heap.dbs[d].scratch == Some(ScratchObj(id))
           && r.heap.scratches[id] == LegacyScratch(DatabaseObj(d), Some(reply.handle))))
      && (reply.Refused? ==> r.result == Raised(ResultWithException) && r.heap.dbs[d].scratch.None?)
  {
  }

  /** A successful legacy compile on a database with a scratch has the engine reallocate that scratch's handle in place. */
  lemma LegacyCompileReusesScratch(h: LegacyHeap, e: Engine, d: nat, id: nat, p: Handle, s: nat)
    requires d in h.dbs && id !in h.scratches && h.dbs[d].scratch == Some(ScratchObj(s)) && s in h.scratches
    ensures var r := LegacyPrepareScratch(h, e, d, id, p); var existing := h.scratches[s].handle;
      var reply := e.allocScratch(false, Some(p), existing);
      && r.calls == [AllocScratch(false, Some(p), existing)]
      && r.heap.dbs == h.dbs && r.heap.scratches.Keys == h.scratches.Keys
      && (reply.Produced? ==> r.result.Ok? && r.heap.scratches[s].handle == Some(reply.handle))
      && (reply.Refused? ==> r.result == Fail(LegacyEngineFailure(reply.status)))
  {
  }

  // ---------------------------------------------------------------------
  // Database.scan(data, match_event_handler=None, flags=0, context=None, scratch=None)
  // ---------------------------------------------------------------------

  /**
   * The engine call of a legacy block scan: str or bytes data, "I" flags,
   * the scratch handle of the explicit scratch (any object but None) or
   * of the database's; the handler is installed when the callback is not
   * None.
   */
  function LegacyScanRequest(h: LegacyHeap, d: nat, data: PyObj, callback: PyObj, flags: PyObj, scratch: PyObj): (r: Outcome<ScanCall>)
    requires d in h.dbs
    ensures r.Ok? ==> (
      && TextBytes(data).Ok? && AsMask32(flags).Ok?
      && var slot := if scratch == PyNone then h.dbs[d].scratch else Some(scratch);
      && LegacyHandleAt(h, slot).Ok?
      && r.value == BlockScan(false, h.dbs[d].program, TextBytes(data).value, AsMask32(flags).value,
                              LegacyHandleAt(h, slot).value, callback != PyNone))
    ensures TextBytes(data).Fail? ==> r == TextBytes(data).PropagateFailure()
  {
    var bytes :- TextBytes(data);
    var fl :- AsMask32(flags);
    var sc :- LegacyHandleAt(h, if scratch == PyNone then h.dbs[d].scratch else Some(scratch));
    Ok(BlockScan(false, h.dbs[d].program, bytes, fl, sc, callback != PyNone))
  }

  /**
   * What a finished legacy scan raises: a callback that did not return
   * normally is reported first (its exception), the status after.
   */
  function LegacyConclude(run: Driven): (r: Outcome<()>)
    ensures !run.success && run.pending.Some? ==> r == Raised(run.pending.value)
    ensures run.success ==> r == LegacyCheck(run.status)
    ensures r.Ok? <==> run.success && run.status == SUCCESS
  {
    if !run.success then (if run.pending.Some? then Raised(run.pending.value) else Raised(NullWithoutException))
    else LegacyCheck(run.status)
  }

  /**
   * `Database.scan` on the legacy database `d`, the callback answering as
   * `script` says. A call is made exactly when the request is valid; the
   * callback sees the engine's matches in order, from the first, with the
   * context; a scan that succeeds has shown it every match; an engine
   * refusal raises the legacy error for its status.
   */
  function LegacyScan(h: LegacyHeap, e: Engine, script: Script, d: nat, data: PyObj, callback: PyObj := PyNone,
                      flags: PyObj := PyInt(0), context: PyObj := PyNone, scratch: PyObj := PyNone): (r: Run<()>)
    requires d in h.dbs
    ensures r.calls == [] <==> LegacyScanRequest(h, d, data, callback, flags, scratch).Fail?
    ensures LegacyScanRequest(h, d, data, callback, flags, scratch).Ok? ==>
      var call := LegacyScanRequest(h, d, data, callback, flags, scratch).value;
      && InOrder(r.invocations, e.scan(call), callback, context)
      && (callback == PyNone ==> r.invocations == [])
      && (e.scan(call).Refuses? ==> r.result == Fail(LegacyEngineFailure(e.scan(call).status)))
      && (r.result.Ok? ==> e.scan(call).Reports? && (callback != PyNone ==> |r.invocations| == |e.scan(call).matches|))
    ensures LegacyScanRequest(h, d, data, callback, flags, scratch).Fail? ==>
      r == Run(Fail(LegacyScanRequest(h, d, data, callback, flags, scratch).failure), [], [])
    ensures LegacyScanRequest(h, d, data, callback, flags, scratch).Ok? ==>
      var call := LegacyScanRequest(h, d, data, callback, flags, scratch).value;
      var run := Drive(e.scan(call), call.handler, callback, script, context, true, true);
      && r.calls == [Scan(call)] && r.invocations == run.calls
      && r.result == LegacyConclude(run)
  {
    match LegacyScanRequest(h, d, data, callback, flags, scratch)
    case Fail(f) => Run(Fail(f), [], [])
    case Ok(call) =>
      var run := Drive(e.scan(call), call.handler, callback, script, context, true, true);
      Run(LegacyConclude(run), [Scan(call)], run.calls)
  }

  /**
   * A callback that raises on the first match of a legacy scan is called
   * once and its exception propagates as itself, whatever the status.
   */
  lemma LegacyScanCallbackException(h: LegacyHeap, e: Engine, script: Script, d: nat, data: PyObj, callback: PyObj, x: PyExc)
    requires d in h.dbs && IsCallable(callback)
    requires LegacyScanRequest(h, d, data, callback, PyInt(0), PyNone).Ok?
    requires var run := e.scan(LegacyScanRequest(h, d, data, callback, PyInt(0), PyNone).value); run.Reports? && |run.matches| > 0
    requires |script| > 0 && script[0] == Raises(x)
    ensures var r := LegacyScan(h, e, script, d, data, callback);
      r.result == Raised(x) && |r.invocations| == 1
  {
    var call := LegacyScanRequest(h, d, data, callback, PyInt(0), PyNone).value;
    HaltingFirstReplyCallsOnce(e.scan(call).matches, callback, script, PyNone, true);
  }

  /**
   * A truthy return, or a return whose truth test raises, stops a legacy
   * scan after one call with HyperscanError("error code -3"), replacing
   * any exception the truth test left.
   */
  lemma LegacyScanHaltRaisesHyperscanError(h: LegacyHeap, e: Engine, script: Script, d: nat, data: PyObj, callback: PyObj)
    requires d in h.dbs && IsCallable(callback)
    requires LegacyScanRequest(h, d, data, callback, PyInt(0), PyNone).Ok?
    requires var run := e.scan(LegacyScanRequest(h, d, data, callback, PyInt(0), PyNone).value); run.Reports? && |run.matches| > 0
    requires |script| > 0 && (script[0].ReturnsUntestable? || (script[0].Returns? && IsTrue(script[0].value)))
    ensures var r := LegacyScan(h, e, script, d, data, callback);
      r.result == Raised(EngineExc(HyperscanError, CodeMsg(SCAN_TERMINATED))) && |r.invocations| == 1
  {
    var call := LegacyScanRequest(h, d, data, callback, PyInt(0), PyNone).value;
    HaltingFirstReplyCallsOnce(e.scan(call).matches, callback, script, PyNone, true);
  }

  /** Without a callback no handler is installed and the scan's result is the status alone. */
  lemma LegacyScanWithoutCallback(h: LegacyHeap, e: Engine, script: Script, d: nat, data: PyObj)
    requires d in h.dbs && LegacyScanRequest(h, d, data, PyNone, PyInt(0), PyNone).Ok?
    ensures var call := LegacyScanRequest(h, d, data, PyNone, PyInt(0), PyNone).value;
      var r := LegacyScan(h, e, script, d, data);
      && !call.handler && r.invocations == []
      && call.scratch == LegacyHandleAt(h, h.dbs[d].scratch).value
      && (e.scan(call).Refuses? ==> r.result == Fail(LegacyEngineFailure(e.scan(call).status)))
      && (e.scan(call).Reports? ==> r.result == Ok(()))
  {
  }

  /** A database whose scratch construction failed crashes the next scan that relies on it. */
  lemma LegacyScanNullScratchCrashes(h: LegacyHeap, e: Engine, script: Script, d: nat, data: PyObj, callback: PyObj)
    requires d in h.dbs && h.dbs[d].scratch.None?
    requires data.PyStr? || data.PyBytes?
    ensures LegacyScan(h, e, script, d, data, callback).result == Crashed(NullScratch)
    ensures LegacyScan(h, e, script, d, data, callback).calls == []
  {
  }

  // ---------------------------------------------------------------------
  // Stream.scan and Stream.close
  // ---------------------------------------------------------------------

  /** A stream the legacy heap holds, on a live database. */
  predicate LegacyLiveStream(h: LegacyHeap, t: nat) {
    t in h.streams && h.streams[t].database in h.dbs
  }

  /**
   * The engine call of a legacy `Stream.scan(data, flags=<unset>,
   * scratch=None, match_event_handler=None, context=None)`: a falsy
   * scratch means the database's, a truthy one must be a Scratch; a
   * falsy callback gives way to the stream's, and the handler is
   * installed when the callback in use is not None.
   */
  function LegacyStreamScanRequest(h: LegacyHeap, t: nat, data: PyObj, flags: Option<PyObj>, scratch: PyObj, callback: PyObj): (r: Outcome<StreamScanCall>)
    requires LegacyLiveStream(h, t)
    ensures r.Ok? ==> (
      && var st := h.streams[t];
      && TextBytes(data) == Ok(r.value.data) && OptionalFlags(flags) == Ok(r.value.flags)
      && r.value.identifier == st.identifier
      && r.value.handler == (Fallback(callback, st.callback) != PyNone)
      && (IsTrue(scratch) ==> scratch.ScratchObj?)
      && LegacyHandleAt(h, if IsTrue(scratch) then Some(scratch) else h.dbs[st.database].scratch) == Ok(r.value.scratch))
    ensures TextBytes(data).Ok? && OptionalFlags(flags).Ok? && IsTrue(scratch) && !scratch.ScratchObj? ==> r == Raised(NOT_A_SCRATCH)
  {
    var bytes :- TextBytes(data);
    var fl :- OptionalFlags(flags);
    var st := h.streams[t];
    var cb := Fallback(callback, st.callback);
    if IsTrue(scratch) && !scratch.ScratchObj? then Raised(NOT_A_SCRATCH)
    else
      var sc :- LegacyHandleAt(h, if IsTrue(scratch) then Some(scratch) else h.dbs[st.database].scratch);
      Ok(StreamScanCall(st.identifier, bytes, fl, sc, cb != PyNone))
  }

  /**
   * Legacy `Stream.scan`: only the status is checked, with the legacy
   * error class. A call is made exactly when the request is valid; the
   * callback in use sees the engine's matches in order, from the first,
   * with the context in use; a scan that succeeds has shown it every
   * match; an engine refusal raises the legacy error for its status.
   */
  function LegacyStreamScan(h: LegacyHeap, e: Engine, script: Script, t: nat, data: PyObj, flags: Option<PyObj> := None,
                            scratch: PyObj := PyNone, callback: PyObj := PyNone, context: PyObj := PyNone): (r: Run<()>)
    requires LegacyLiveStream(h, t)
    ensures r.calls == [] <==> LegacyStreamScanRequest(h, t, data, flags, scratch, callback).Fail?
    ensures LegacyStreamScanRequest(h, t, data, flags, scratch, callback).Ok? ==>
      var call := LegacyStreamScanRequest(h, t, data, flags, scratch, callback).value;
      var callee := Fallback(callback, h.streams[t].callback);
      && InOrder(r.invocations, e.scanStream(call), callee, Fallback(context, h.streams[t].context))
      && (callee == PyNone ==> r.invocations == [])
      && (e.scanStream(call).Refuses? ==> r.result == Fail(LegacyEngineFailure(e.scanStream(call).status)))
      && (r.result.Ok? ==> e.scanStream(call).Reports? && (callee != PyNone ==> |r.invocations| == |e.scanStream(call).matches|))
    ensures LegacyStreamScanRequest(h, t, data, flags, scratch, callback).Fail? ==>
      r == Run(Fail(LegacyStreamScanRequest(h, t, data, flags, scratch, callback).failure), [], [])
    ensures LegacyStreamScanRequest(h, t, data, flags, scratch, callback).Ok? ==>
      var call := LegacyStreamScanRequest(h, t, data, flags, scratch, callback).value;
      var run := Drive(e.scanStream(call), call.handler, Fallback(callback, h.streams[t].callback), script,
                       Fallback(context, h.streams[t].context), true, true);
      && r.calls == [ScanStream(call)] && r.invocations == run.calls
      && r.result == LegacyCheck(run.status)
  {
    match LegacyStreamScanRequest(h, t, data, flags, scratch, callback)
    case Fail(f) => Run(Fail(f), [], [])
    case Ok(call) =>
      var st := h.streams[t];
      var run := Drive(e.scanStream(call), call.handler, Fallback(callback, st.callback), script,
                       Fallback(context, st.context), true, true);
      Run(LegacyCheck(run.status), [ScanStream(call)], run.calls)
  }

  /**
   * Called without callback, context or scratch, a legacy stream scan
   * reports to the stream's callback and context through the database's
   * scratch; a callback exception surfaces as HyperscanError("error code -3").
   */
  lemma LegacyStreamScanDefaults(h: LegacyHeap, e: Engine, script: Script, t: nat, data: PyObj)
    requires LegacyLiveStream(h, t) && LegacyStreamScanRequest(h, t, data, None, PyNone, PyNone).Ok?
    ensures var call := LegacyStreamScanRequest(h, t, data, None, PyNone, PyNone).value;
      var r := LegacyStreamScan(h, e, script, t, data); var st := h.streams[t];
      && call.scratch == LegacyHandleAt(h, h.dbs[st.database].scratch).value
      && call.handler == (st.callback != PyNone)
      && (forall j :: 0 <= j < |r.invocations| ==> r.invocations[j].callee == st.callback && r.invocations[j].context == st.context)
      && (e.scanStream(call).Reports? && call.handler && |e.scanStream(call).matches| > 0 && Halts(st.callback, script, 0) ==>
           r.result == Raised(EngineExc(HyperscanError, CodeMsg(SCAN_TERMINATED))))
  {
    var call := LegacyStreamScanRequest(h, t, data, None, PyNone, PyNone).value;
    var st := h.streams[t];
    var run := Drive(e.scanStream(call), call.handler, st.callback, script, st.context, true, true);
    if call.handler && e.scanStream(call).Reports? {
      var w := Walk(e.scanStream(call).matches, st.callback, script, st.context, 0, true);
      assert run.calls == w.calls;
      if |e.scanStream(call).matches| > 0 && Halts(st.callback, script, 0) {
        HaltingFirstReplyCallsOnce(e.scanStream(call).matches, st.callback, script, st.context, true);
      }
    }
  }

  /**
   * The engine call of a legacy `Stream.close(scratch=None,
   * match_event_handler=None, context=None)`: a scratch, when given,
   * must be a Scratch ("O!"); otherwise the database's scratch slot is
   * read, and a NULL slot is dereferenced by the truth test.
   */
  function LegacyStreamCloseRequest(h: LegacyHeap, t: nat, scratch: Option<PyObj>): (r: Outcome<StreamCloseCall>)
    requires LegacyLiveStream(h, t)
    ensures scratch.Some? && !scratch.value.ScratchObj? ==> r == Raised(ArgumentTypeError)
    ensures scratch.None? && h.dbs[h.streams[t].database].scratch.None? ==> r == Crashed(NullObject)
    ensures r.Ok? ==> r.value.identifier == h.streams[t].identifier
    ensures r.Ok? ==>
      LegacyHandleAt(h, if scratch.Some? then scratch else h.dbs[h.streams[t].database].scratch) == Ok(r.value.scratch)
  {
    if scratch.Some? && !scratch.value.ScratchObj? then Raised(ArgumentTypeError)
    else
      var chosen := if scratch.Some? then scratch else h.dbs[h.streams[t].database].scratch;
      if chosen.None? then Crashed(NullObject)
      else
        var sc :- LegacyHandleAt(h, chosen);
        Ok(StreamCloseCall(h.streams[t].identifier, sc))
  }

  /**
   * Legacy `Stream.close`: the handler is always installed, falsy
   * callback or context give way to the stream's, and the status is
   * checked with the legacy error class; an exception the callback left
   * under a successful close makes the method return None with it set.
   */
  function LegacyStreamClose(h: LegacyHeap, e: Engine, script: Script, t: nat, scratch: Option<PyObj> := None,
                             callback: PyObj := PyNone, context: PyObj := PyNone): (r: Run<()>)
    requires LegacyLiveStream(h, t)
    ensures LegacyStreamCloseRequest(h, t, scratch).Fail? ==> r == Run(Fail(LegacyStreamCloseRequest(h, t, scratch).failure), [], [])
    ensures LegacyStreamCloseRequest(h, t, scratch).Ok? ==>
      var call := LegacyStreamCloseRequest(h, t, scratch).value; var st := h.streams[t];
      var run := Drive(e.closeStream(call), true, Fallback(callback, st.callback), script, Fallback(context, st.context), true, false);
      && r.calls == [CloseStream(call)] && r.invocations == run.calls
      && (run.status != SUCCESS ==> r.result == Fail(LegacyEngineFailure(run.status)))
      && (run.status == SUCCESS ==> (r.result.Ok? <==> run.pending.None?))
      && (run.status == SUCCESS && run.pending.Some? ==> r.result == Raised(ResultWithException))
  {
    match LegacyStreamCloseRequest(h, t, scratch)
    case Fail(f) => Run(Fail(f), [], [])
    case Ok(call) =>
      var st := h.streams[t];
      var run := Drive(e.closeStream(call), true, Fallback(callback, st.callback), script, Fallback(context, st.context), true, false);
      var result := if run.status != SUCCESS then LegacyCheck(run.status)
                    else if run.pending.Some? then Raised(ResultWithException)
                    else Ok(());
      Run(result, [CloseStream(call)], run.calls)
  }

  /**
   * Closing without arguments reports to the stream's own callback and
   * context; a raising callback on a stream the engine closes
   * successfully leaves SystemError.
   */
  lemma LegacyStreamCloseDefaults(h: LegacyHeap, e: Engine, script: Script, t: nat, x: PyExc)
    requires LegacyLiveStream(h, t) && LegacyStreamCloseRequest(h, t, None).Ok?
    ensures var r := LegacyStreamClose(h, e, script, t); var st := h.streams[t];
      var run := e.closeStream(LegacyStreamCloseRequest(h, t, None).value);
      && (forall j :: 0 <= j < |r.invocations| ==> r.invocations[j].callee == st.callback && r.invocations[j].context == st.context)
      && (IsCallable(st.callback) && run.Reports? && |run.matches| > 0 && |script| > 0 && script[0] == Raises(x) ==>
           r.result == Raised(ResultWithException) && |r.invocations| == 1)
  {
    var call := LegacyStreamCloseRequest(h, t, None).value;
    var st := h.streams[t];
    var run := e.closeStream(call);
    if run.Reports? {
      var w := Walk(run.matches, st.callback, script, st.context, 0, true);
      assert LegacyStreamClose(h, e, script, t).invocations == w.calls;
      if IsCallable(st.callback) && |run.matches| > 0 && |script| > 0 && script[0] == Raises(x) {
        assert w.halted;
      }
    }
  }

  // ---------------------------------------------------------------------
  // dumps(database) and loads(buf, create_scratch=True)
  // ---------------------------------------------------------------------

  /** `dumps(database)`: the engine serializes the database's program; the bytes come back as `bytes`. */
  function LegacyDumps(h: LegacyHeap, e: Engine, database: PyObj): (r: Run<PyObj>)
    ensures r.invocations == []
    ensures !(database.DatabaseObj? && database.db in h.dbs) ==> r == Run(Raised(ArgumentTypeError), [], [])
    ensures database.DatabaseObj? && database.db in h.dbs ==> r.calls == [Serialize(h.dbs[database.db].program)]
    ensures r.result.Ok? <==> database.DatabaseObj? && database.db in h.dbs && e.serialize(h.dbs[database.db].program).Serialized?
    ensures r.result.Ok? ==> r.result.value == PyBytes(e.serialize(h.dbs[database.db].program).bytes)
  {
    if !(database.DatabaseObj? && database.db in h.dbs) then Run(Raised(ArgumentTypeError), [], [])
    else
      var program := h.dbs[database.db].program;
      match e.serialize(program)
      case Serialized(bs) => Run(Ok(PyBytes(bs)), [Serialize(program)], [])
      case SerializeRefused(status) => Run(Fail(LegacyEngineFailure(status)), [Serialize(program)], [])
  }

  /**
   * `loads(buf, create_scratch=True)`, creating the database `id` and,
   * when asked, the scratch `sid`: `buf` must be a bytearray; the new
   * database has the default block mode and receives the engine's
   * program; a truthy `create_scratch` binds a new Scratch to it, whose
   * failure is the call's.
   */
  function LegacyLoads(h: LegacyHeap, e: Engine, id: nat, sid: nat, buf: PyObj, createScratch: PyObj := PyBool(true)): (r: LegacyStep<PyObj>)
    requires id !in h.dbs && sid !in h.scratches
    ensures r.heap.streams == h.streams
    ensures !buf.PyByteArray? ==> r == LegacyStep(h, Raised(NOT_A_BYTEARRAY), [])
    ensures buf.PyByteArray? ==> |r.calls| > 0 && r.calls[0] == Deserialize(buf.content)
    ensures r.result.Ok? ==> (
      && buf.PyByteArray? && e.deserialize(buf.content).Produced?
      && r.result.value == DatabaseObj(id) && id in r.heap.dbs
      && r.heap.dbs[id].program == Some(e.deserialize(buf.content).handle)
      && r.heap.dbs[id].mode == HS_MODE_BLOCK)
  {
    if !buf.PyByteArray? then LegacyStep(h, Raised(NOT_A_BYTEARRAY), [])
    else
      var load := [Deserialize(buf.content)];
      match e.deserialize(buf.content)
      case Refused(status) => LegacyStep(h, Fail(LegacyEngineFailure(status)), load)
      case Produced(p) =>
        var db := LegacyDatabase(Some(PyNone), Some(p), HS_MODE_BLOCK);
        var h1 := h.(dbs := h.dbs[id := db]);
        if !IsTrue(createScratch) then LegacyStep(h1, Ok(DatabaseObj(id)), load)
        else
          var made := LegacyNewScratch(h1, e, sid, DatabaseObj(id));
          if made.result.Ok? then
            LegacyStep(made.heap.(dbs := h1.dbs[id := db.(scratch := Some(ScratchObj(sid)))]), Ok(DatabaseObj(id)), load + made.calls)
          else
            LegacyStep(made.heap.(dbs := h1.dbs[id := db.(scratch := None)]), Fail(made.result.failure), load + made.calls)
  }

  /** The bytes `dumps` returns are refused by `loads`, which wants a bytearray. */
  lemma LegacyLoadsRefusesDumps(h: LegacyHeap, e: Engine, d: nat, id: nat, sid: nat)
    requires d in h.dbs && id !in h.dbs && sid !in h.scratches
    requires LegacyDumps(h, e, DatabaseObj(d)).result.Ok?
    ensures LegacyLoads(h, e, id, sid, LegacyDumps(h, e, DatabaseObj(d)).result.value).result == Raised(NOT_A_BYTEARRAY)
  {
  }

  /**
   * Copied into a bytearray, the dumped bytes reach the engine unchanged;
   * by default the loaded database gets a scratch bound to it, allocated
   * for the rebuilt program.
   */
  lemma LegacyDumpLoadsRoundTrip(h: LegacyHeap, e: Engine, d: nat, id: nat, sid: nat)
    requires d in h.dbs && id !in h.dbs && sid !in h.scratches
    requires LegacyDumps(h, e, DatabaseObj(d)).result.Ok?
    ensures var bs := LegacyDumps(h, e, DatabaseObj(d)).result.value.bytes;
      var r := LegacyLoads(h, e, id, sid, PyByteArray(bs));
      && bs == e.serialize(h.dbs[d].program).bytes
      && r.calls[0] == Deserialize(bs)
      && (r.result.Ok? ==> (
           && var p := e.deserialize(bs).handle;
           && r.heap.dbs[id] == LegacyDatabase(Some(ScratchObj(sid)), Some(p), HS_MODE_BLOCK)
           && r.calls == [Deserialize(bs), AllocScratch(false, Some(p), None)]
           && r.heap.scratches[sid] == LegacyScratch(DatabaseObj(id), Some(e.allocScratch(false, Some(p), None).handle))))
  {
  }

  /** With `create_scratch` falsy the loaded database keeps None as its scratch. */
  lemma LegacyLoadsWithoutScratch(h: LegacyHeap, e: Engine, id: nat, sid: nat, bs: seq<byte>, createScratch: PyObj)
    requires id !in h.dbs && sid !in h.scratches && !IsTrue(createScratch)
    requires e.deserialize(bs).Produced?
    ensures var r := LegacyLoads(h, e, id, sid, PyByteArray(bs), createScratch);
      && r.result == Ok(DatabaseObj(id)) && r.calls == [Deserialize(bs)]
      && r.heap == h.(dbs := h.dbs[id := LegacyDatabase(Some(PyNone), Some(e.deserialize(bs).handle), HS_MODE_BLOCK)])
  {
  }
}
