/**
 * The current module's objects and their lifecycle: `Database`, `Scratch`
 * and `Stream`, with the operations Python code calls on them.
 *
 * The Python objects live in a `Heap` addressed by identity; a `PyObj`
 * argument of the form `DatabaseObj(d)` or `ScratchObj(s)` refers to the
 * heap's entry, and an operation that creates an object is handed the
 * identity the allocator gives it. Every operation reports its Python
 * result, the engine calls it made and the calls of the Python callback.
 * Scan-like operations take a `Script`: what the callback does on its
 * successive calls.
 */
module Binding {
  import opened PyRuntime
  import opened EngineErrors
  import opened Callbacks
  import opened CompileArgs
  import opened EngineCalls

  const HS_MODE_BLOCK: uint32 := 1
  const HS_MODE_STREAM: uint32 := 2
  const HS_MODE_VECTORED: uint32 := 4

  /**
   * `hyperscan.Database`: `scratch` is whatever object was stored there
   * (None until a compile creates one), `program` the engine database
   * (the Hyperscan or the Chimera one, as `chimera` says).
   */
  datatype Database = Database(scratch: PyObj, program: Option<Handle>, mode: uint32, chimera: bool)

  /** `hyperscan.Scratch`: a back-reference and one scratch handle per engine. */
  datatype Scratch = Scratch(database: PyObj, hsScratch: Option<Handle>, chScratch: Option<Handle>)

  /** `hyperscan.Stream` as `Database.stream` creates it. */
  datatype Stream = Stream(database: nat, identifier: Option<Handle>, flags: uint32, callback: PyObj, context: PyObj)

  /** The live objects, by identity. */
  datatype Heap = Heap(dbs: map<nat, Database>, scratches: map<nat, Scratch>, streams: map<nat, Stream>)

  /** What an operation that may create or change objects leaves behind. */
  datatype Step<T> = Step(heap: Heap, result: Outcome<T>, calls: seq<EngineCall>, invocations: seq<Invocation>)

  /** What an operation that changes no object leaves behind. */
  datatype Run<T> = Run(result: Outcome<T>, calls: seq<EngineCall>, invocations: seq<Invocation>)

  /** A partial result with the engine calls made on the way. */
  datatype Stage<T> = Stage(result: Outcome<T>, calls: seq<EngineCall>)

  const EMPTY_SCRATCH: Scratch := Scratch(PyNone, None, None)

  /** The scratch handle the database's engine uses. */
  function HandleFor(s: Scratch, chimera: bool): Option<Handle> {
    if chimera then s.chScratch else s.hsScratch
  }

  /** The scratch with the handle of one engine replaced. */
  function WithHandle(s: Scratch, chimera: bool, handle: Option<Handle>): (r: Scratch)
    ensures HandleFor(r, chimera) == handle && HandleFor(r, !chimera) == HandleFor(s, !chimera)
    ensures r.database == s.database
  {
    if chimera then s.(chScratch := handle) else s.(hsScratch := handle)
  }

  /** `(Scratch *)o`: only a Scratch object is read correctly; None or anything else is undefined behaviour. */
  function ScratchAt(h: Heap, o: PyObj): (r: Outcome<nat>)
    ensures r.Ok? <==> o.ScratchObj? && o.scratch in h.scratches
    ensures r.Ok? ==> r.value == o.scratch
    ensures o == PyNone ==> r == Crashed(NoneAsScratch)
  {
    match o
    case PyNone => Crashed(NoneAsScratch)
    case ScratchObj(s) => if s in h.scratches then Ok(s) else Crashed(NotAScratch)
    case _ => Crashed(NotAScratch)
  }

  /** `(Database *)o`, likewise. */
  function DatabaseAt(h: Heap, o: PyObj): (r: Outcome<nat>)
    ensures r.Ok? <==> o.DatabaseObj? && o.db in h.dbs
    ensures r.Ok? ==> r.value == o.db
    ensures o == PyNone ==> r == Crashed(NoneAsDatabase)
  {
    match o
    case PyNone => Crashed(NoneAsDatabase)
    case DatabaseObj(d) => if d in h.dbs then Ok(d) else Crashed(NotADatabase)
    case _ => Crashed(NotADatabase)
  }

  /** Which engine the database object `o` uses, read through `(Database *)o`. */
  function ChimeraOf(h: Heap, o: PyObj): (r: Outcome<bool>)
    ensures r.Ok? <==> o.DatabaseObj? && o.db in h.dbs
    ensures r.Ok? ==> r.value == h.dbs[o.db].chimera
    ensures r.Fail? ==> r.failure == DatabaseAt(h, o).failure
  {
    var d :- DatabaseAt(h, o);
    Ok(h.dbs[d].chimera)
  }

  /** The scratch handle a scan reads through the scratch object `o`. */
  function ScanScratch(h: Heap, o: PyObj, chimera: bool): (r: Outcome<Option<Handle>>)
    ensures r.Ok? <==> o.ScratchObj? && o.scratch in h.scratches
    ensures r.Ok? ==> r.value == HandleFor(h.scratches[o.scratch], chimera)
    ensures r.Fail? ==> r.failure == ScratchAt(h, o).failure
  {
    var s :- ScratchAt(h, o);
    Ok(HandleFor(h.scratches[s], chimera))
  }

  // ---------------------------------------------------------------------
  // Database(scratch=None, mode=HS_MODE_BLOCK, chimera=False)
  // ---------------------------------------------------------------------

  /**
   * The constructor, creating the database `id`: `mode` is taken as a C
   * unsigned int without range check, `chimera` by its truth value,
   * `scratch` is stored unchecked.
   */
  function NewDatabase(h: Heap, id: nat, scratch: PyObj := PyNone, mode: PyObj := PyInt(HS_MODE_BLOCK as int),
                       chimera: PyObj := PyBool(false)): (r: Step<PyObj>)
    requires id !in h.dbs
    ensures r.calls == [] && r.invocations == []
    ensures r.result.Ok? <==> IsInt(mode)
    ensures !IsInt(mode) ==> r.result == Raised(ArgumentTypeError) && r.heap == h
    ensures r.result.Ok? ==> (
      && r.result.value == DatabaseObj(id)
      && r.heap == h.(dbs := h.dbs[id := Database(scratch, None, ToUint32(IntValue(mode)), IsTrue(chimera))]))
  {
    match AsMask32(mode)
    case Fail(f) => Step(h, Fail(f), [], [])
    case Ok(m) => Step(h.(dbs := h.dbs[id := Database(scratch, None, m, IsTrue(chimera))]), Ok(DatabaseObj(id)), [], [])
  }

  // ---------------------------------------------------------------------
  // Scratch(database=None), Scratch.set_database, Scratch.clone
  // ---------------------------------------------------------------------

  const REALLOCATION: PyExc := EngineExc(HyperscanError, Message("scratch objects cannot be re-allocated"))

  /**
   * `Scratch.set_database(database)`: the back-reference is overwritten
   * first; a scratch that already holds either handle is refused; then a
   * scratch region is allocated for the database's program by the engine
   * the database uses.
   */
  function SetDatabase(h: Heap, e: Engine, s: nat, database: PyObj): (r: Step<()>)
    requires s in h.scratches
    ensures r.invocations == []
    ensures r.heap.dbs == h.dbs && r.heap.streams == h.streams
    ensures s in r.heap.scratches && r.heap.scratches == h.scratches[s := r.heap.scratches[s]]
    ensures r.heap.scratches[s].database == database
    ensures forall c :: c in r.calls ==> c.AllocScratch?
  {
    var sc := h.scratches[s].(database := database);
    var h1 := h.(scratches := h.scratches[s := sc]);
    if sc.hsScratch.Some? || sc.chScratch.Some? then Step(h1, Raised(REALLOCATION), [], [])
    else
      match DatabaseAt(h1, database)
      case Fail(f) => Step(h1, Fail(f), [], [])
      case Ok(d) =>
        var db := h1.dbs[d];
        var calls := [AllocScratch(db.chimera, db.program, None)];
        match e.allocScratch(db.chimera, db.program, None)
        case Produced(x) => Step(h1.(scratches := h1.scratches[s := WithHandle(sc, db.chimera, Some(x))]), Ok(()), calls, [])
        case Refused(st) => Step(h1, Fail(EngineFailure(st)), calls, [])
  }

  /** A scratch that holds a handle of either engine refuses a new database and keeps its handles. */
  lemma SetDatabaseBindsOnce(h: Heap, e: Engine, s: nat, database: PyObj)
    requires s in h.scratches
    requires h.scratches[s].hsScratch.Some? || h.scratches[s].chScratch.Some?
    ensures var r := SetDatabase(h, e, s, database);
      && r.result == Raised(REALLOCATION) && r.calls == []
      && r.heap.scratches[s] == h.scratches[s].(database := database)
  {
  }

  /**
   * An empty scratch bound to a database gets a region for that
   * database's program from the database's engine, and only that one.
   */
  lemma SetDatabaseAllocates(h: Heap, e: Engine, s: nat, d: nat)
    requires s in h.scratches && d in h.dbs
    requires h.scratches[s].hsScratch.None? && h.scratches[s].chScratch.None?
    ensures var r := SetDatabase(h, e, s, DatabaseObj(d)); var db := h.dbs[d];
      var reply := e.allocScratch(db.chimera, db.program, None);
      && r.calls == [AllocScratch(db.chimera, db.program, None)]
      && (r.result.Ok? <==> reply.Produced?)
      && (reply.Produced? ==> HandleFor(r.heap.scratches[s], db.chimera) == Some(reply.handle))
      && HandleFor(r.heap.scratches[s], !db.chimera).None?
      && (reply.Refused? ==> r.result == Fail(EngineFailure(reply.status)) && r.heap.scratches[s] == EMPTY_SCRATCH.(database := DatabaseObj(d)))
  {
  }

  /** Binding an empty scratch to None or to something that is not a Database reads it as one. */
  lemma SetDatabaseNeedsDatabase(h: Heap, e: Engine, s: nat, database: PyObj)
    requires s in h.scratches
    requires h.scratches[s].hsScratch.None? && h.scratches[s].chScratch.None?
    requires !database.DatabaseObj?
    ensures SetDatabase(h, e, s, database).result.Fail? && SetDatabase(h, e, s, database).result.failure.Crash?
    ensures SetDatabase(h, e, s, database).calls == []
  {
  }

  /**
   * `Scratch(database)`, creating the scratch `id`: a new scratch with no
   * database; given a database other than None, `set_database` runs and
   * its failure is the constructor's.
   */
  function NewScratch(h: Heap, e: Engine, id: nat, database: PyObj := PyNone): (r: Step<PyObj>)
    requires id !in h.scratches
    ensures r.invocations == []
    ensures r.heap.dbs == h.dbs && r.heap.streams == h.streams
    ensures id in r.heap.scratches && r.heap.scratches == h.scratches[id := r.heap.scratches[id]]
    ensures r.heap.scratches[id].database == database
    ensures r.result.Ok? ==> r.result.value == ScratchObj(id)
    ensures forall c :: c in r.calls ==> c.AllocScratch?
    ensures database == PyNone ==> r == Step(h.(scratches := h.scratches[id := EMPTY_SCRATCH]), Ok(ScratchObj(id)), [], [])
    ensures database != PyNone ==> (
      var bound := SetDatabase(h.(scratches := h.scratches[id := EMPTY_SCRATCH]), e, id, database);
      && r.heap == bound.heap && r.calls == bound.calls
      && (r.result.Ok? <==> bound.result.Ok?)
      && (r.result.Fail? ==> r.result.failure == bound.result.failure))
  {
    var h1 := h.(scratches := h.scratches[id := EMPTY_SCRATCH]);
    if database == PyNone then Step(h1, Ok(ScratchObj(id)), [], [])
    else
      var bound := SetDatabase(h1, e, id, database);
      Step(bound.heap, if bound.result.Ok? then Ok(ScratchObj(id)) else Fail(bound.result.failure), bound.calls, [])
  }

  /**
   * `Scratch.clone()`, creating the scratch `id`: a fresh Scratch with no
   * database receives the engine's copy of the source's handle; a source
   * without a database is taken to be a Hyperscan scratch.
   */
  function Clone(h: Heap, e: Engine, s: nat, id: nat): (r: Step<PyObj>)
    requires s in h.scratches && id !in h.scratches
    ensures r.invocations == []
    ensures r.heap.dbs == h.dbs && r.heap.streams == h.streams
    ensures id in r.heap.scratches && r.heap.scratches == h.scratches[id := r.heap.scratches[id]]
    ensures r.heap.scratches[id].database == PyNone
    ensures h.scratches[s].database == PyNone ==> r.calls == [CloneScratch(false, h.scratches[s].hsScratch)]
    ensures r.result.Ok? ==> (
      && r.result.value == ScratchObj(id)
      && |r.calls| == 1 && r.calls[0].CloneScratch?
      && e.cloneScratch(r.calls[0].chimera, r.calls[0].source).Produced?
      && HandleFor(r.heap.scratches[id], r.calls[0].chimera)
           == Some(e.cloneScratch(r.calls[0].chimera, r.calls[0].source).handle)
      && HandleFor(r.heap.scratches[id], !r.calls[0].chimera).None?)
  {
    var src := h.scratches[s];
    var h1 := h.(scratches := h.scratches[id := EMPTY_SCRATCH]);
    var chimera := if src.database == PyNone then Ok(false) else ChimeraOf(h, src.database);
    match chimera
    case Fail(f) => Step(h1, Fail(f), [], [])
    case Ok(ch) =>
      var from := HandleFor(src, ch);
      var calls := [CloneScratch(ch, from)];
      match e.cloneScratch(ch, from)
      case Produced(x) =>
        Step(h1.(scratches := h1.scratches[id := WithHandle(EMPTY_SCRATCH, ch, Some(x))]), Ok(ScratchObj(id)), calls, [])
      case Refused(st) => Step(h1, Fail(EngineFailure(st)), calls, [])
  }

  /**
   * A clone of a scratch bound to a Chimera database copies the Chimera
   * handle; the copy has no database of its own, so cloning the copy
   * treats it as a Hyperscan scratch.
   */
  lemma CloneOfChimeraScratch(h: Heap, e: Engine, s: nat, id: nat, d: nat)
    requires s in h.scratches && id !in h.scratches && d in h.dbs
    requires h.scratches[s].database == DatabaseObj(d) && h.dbs[d].chimera
    ensures Clone(h, e, s, id).calls == [CloneScratch(true, h.scratches[s].chScratch)]
    ensures var copy := Clone(h, e, s, id).heap.scratches[id];
      copy.database == PyNone && copy.hsScratch.None?
  {
  }

  // ---------------------------------------------------------------------
  // Database.compile
  // ---------------------------------------------------------------------

  /**
   * How a recompile lets go of the previous program: the binding frees it
   * and clears the pointer (`ClearsProgram`), or, as the current module is
   * written, frees it and leaves the pointer in place (`KeepsProgram`).
   */
  datatype ReleaseRule = ClearsProgram | KeepsProgram

  /** The database with its previous program freed. */
  function Release(rule: ReleaseRule, db: Database): (r: (Database, seq<EngineCall>))
    ensures r.0.scratch == db.scratch && r.0.mode == db.mode && r.0.chimera == db.chimera
    ensures db.program.None? ==> r.0 == db && r.1 == []
    ensures db.program.Some? ==> r.1 == [FreeDatabase(db.chimera, db.program.value)]
    ensures rule == ClearsProgram ==> r.0.program.None?
    ensures rule == KeepsProgram ==> r.0.program == db.program
  {
    match db.program
    case None => (db, [])
    case Some(p) => (if rule == ClearsProgram then db.(program := None) else db, [FreeDatabase(db.chimera, p)])
  }

  const CHIMERA_LITERAL: PyExc := RuntimeError("chimera does not support pure literal expressions")

  /** The ext records the Hyperscan compiler receives: none when `ext` is None. */
  function ExtFor(ext: PyObj, n: nat): (r: Outcome<Option<seq<ExtRecord>>>)
    ensures ext == PyNone ==> r == Ok(None)
    ensures ext != PyNone ==> (r.Ok? <==> ExtRecords(ext, n).Ok?)
    ensures ext != PyNone && r.Ok? ==> r.value == Some(ExtRecords(ext, n).value)
    ensures ext != PyNone && r.Fail? ==> r.failure == ExtRecords(ext, n).failure
  {
    if ext == PyNone then Ok(None)
    else
      var recs :- ExtRecords(ext, n);
      Ok(Some(recs))
  }

  /**
   * The compile proper, on normalised arrays: the literal compiler with
   * strlen lengths (refused for Chimera), the Chimera compiler, or the
   * Hyperscan compiler with optional ext records. Each reports failure
   * its own way: "%s (id:%d)", the error table, the bare message.
   */
  function BuildProgram(db: Database, e: Engine, req: Request, n: nat, literal: bool, ext: PyObj): (r: Stage<Handle>)
    ensures |r.calls| <= 1
    ensures r.result.Ok? ==> (
      && |r.calls| == 1 && r.calls[0].Compile?
      && e.compile(r.calls[0].compile) == Compiled(r.result.value))
    ensures forall c :: c in r.calls ==> (
      && c.Compile? && c.compile.request == req && c.compile.mode == db.mode
      && c.compile.chimera == db.chimera)
    ensures literal && db.chimera ==> r == Stage(Raised(CHIMERA_LITERAL), [])
    ensures literal && !db.chimera ==>
      r.calls == [Compile(CompileCall(false, req, Some(LiteralLengths(req.expressions)), None, db.mode))]
    ensures literal && !db.chimera && e.compile(r.calls[0].compile).CompileFailed? ==>
      var fail := e.compile(r.calls[0].compile);
      r.result == Raised(EngineExc(HyperscanError, MessageWithId(fail.message, fail.expression)))
    ensures !literal && db.chimera ==> r.calls == [Compile(CompileCall(true, req, None, None, db.mode))]
    ensures !literal && db.chimera && e.compile(r.calls[0].compile).CompileFailed? ==>
      r.result == Fail(EngineFailure(e.compile(r.calls[0].compile).status))
    ensures !literal && !db.chimera && ExtFor(ext, n).Fail? ==> r == Stage(Fail(ExtFor(ext, n).failure), [])
    ensures !literal && !db.chimera && ExtFor(ext, n).Ok? ==>
      r.calls == [Compile(CompileCall(false, req, None, ExtFor(ext, n).value, db.mode))]
    ensures !literal && !db.chimera && ExtFor(ext, n).Ok? && e.compile(r.calls[0].compile).CompileFailed? ==>
      r.result == Raised(EngineExc(HyperscanError, Message(e.compile(r.calls[0].compile).message)))
  {
    if literal && db.chimera then Stage(Raised(CHIMERA_LITERAL), [])
    else if literal then
      var call := CompileCall(false, req, Some(LiteralLengths(req.expressions)), None, db.mode);
      match e.compile(call)
      case Compiled(p) => Stage(Ok(p), [Compile(call)])
      case CompileFailed(_, text, at) => Stage(Raised(EngineExc(HyperscanError, MessageWithId(text, at))), [Compile(call)])
    else if db.chimera then
      var call := CompileCall(true, req, None, None, db.mode);
      match e.compile(call)
      case Compiled(p) => Stage(Ok(p), [Compile(call)])
      case CompileFailed(status, _, _) => Stage(Fail(EngineFailure(status)), [Compile(call)])
    else
      match ExtFor(ext, n)
      case Fail(f) => Stage(Fail(f), [])
      case Ok(recs) =>
        var call := CompileCall(false, req, None, recs, db.mode);
        match e.compile(call)
        case Compiled(p) => Stage(Ok(p), [Compile(call)])
        case CompileFailed(_, text, _) => Stage(Raised(EngineExc(HyperscanError, Message(text))), [Compile(call)])
  }

  /**
   * The scratch a compile prepares: the database's own scratch object,
   * created as the scratch `id` with `Scratch(self)` when the slot holds
   * None. A failing construction leaves NULL in the slot, which is read
   * next.
   */
  function ScratchSlot(h: Heap, e: Engine, d: nat, id: nat): (r: Step<nat>)
    requires d in h.dbs && id !in h.scratches
    ensures r.invocations == [] && r.heap.streams == h.streams
    ensures d in r.heap.dbs && r.heap.dbs == h.dbs[d := r.heap.dbs[d]]
    ensures r.heap.dbs[d] == h.dbs[d].(scratch := r.heap.dbs[d].scratch)
    ensures forall c :: c in r.calls ==> c.AllocScratch?
    ensures r.result.Ok? ==> r.result.value in r.heap.scratches && r.heap.dbs[d].scratch == ScratchObj(r.result.value)
  {
    var db := h.dbs[d];
    if db.scratch != PyNone then Step(h, ScratchAt(h, db.scratch), [], [])
    else
      var made := NewScratch(h, e, id, DatabaseObj(d));
      if made.result.Fail? then Step(made.heap, Crashed(NullScratch), made.calls, [])
      else Step(made.heap.(dbs := made.heap.dbs[d := db.(scratch := ScratchObj(id))]), Ok(id), made.calls, [])
  }

  /**
   * The scratch region of a freshly compiled program: an existing region
   * for this engine is freed first (a failing free raises and leaves the
   * handle in place), then a new one is allocated for `program`.
   */
  function Reallocate(h: Heap, e: Engine, s: nat, chimera: bool, program: Option<Handle>): (r: Step<()>)
    requires s in h.scratches
    ensures r.invocations == [] && r.heap.dbs == h.dbs && r.heap.streams == h.streams
    ensures s in r.heap.scratches && r.heap.scratches == h.scratches[s := r.heap.scratches[s]]
    ensures forall c :: c in r.calls ==> c.FreeScratch? || c.AllocScratch?
    ensures r.result.Ok? ==> (
      && |r.calls| > 0 && r.calls[|r.calls| - 1] == AllocScratch(chimera, program, None)
      && e.allocScratch(chimera, program, None).Produced?
      && HandleFor(r.heap.scratches[s], chimera) == Some(e.allocScratch(chimera, program, None).handle))
  {
    var sc := h.scratches[s];
    var freed :=
      match HandleFor(sc, chimera)
      case None => Stage(Ok(()), [])
      case Some(x) => Stage(Check(e.freeScratch(chimera, x)), [FreeScratch(chimera, x)]);
    if freed.result.Fail? then Step(h, Fail(freed.result.failure), freed.calls, [])
    else
      var alloc := AllocScratch(chimera, program, None);
      match e.allocScratch(chimera, program, None)
      case Produced(x) =>
        Step(h.(scratches := h.scratches[s := WithHandle(sc, chimera, Some(x))]), Ok(()), freed.calls + [alloc], [])
      case Refused(status) =>
        Step(h.(scratches := h.scratches[s := WithHandle(sc, chimera, None)]), Fail(EngineFailure(status)), freed.calls + [alloc], [])
  }

  /**
   * Re-preparing a scratch that already holds a region: the region is
   * freed before the new one is allocated; if the free fails, nothing is
   * allocated and the old handle stays.
   */
  lemma ReallocateFreesFirst(h: Heap, e: Engine, s: nat, chimera: bool, program: Option<Handle>)
    requires s in h.scratches && HandleFor(h.scratches[s], chimera).Some?
    ensures var x := HandleFor(h.scratches[s], chimera).value; var r := Reallocate(h, e, s, chimera, program);
      && r.calls[0] == FreeScratch(chimera, x)
      && (e.freeScratch(chimera, x) != SUCCESS ==> (
        && r.calls == [FreeScratch(chimera, x)]
        && r.result == Fail(EngineFailure(e.freeScratch(chimera, x))) && r.heap == h))
      && (e.freeScratch(chimera, x) == SUCCESS ==> r.calls == [FreeScratch(chimera, x), AllocScratch(chimera, program, None)])
  {
  }

  /** A failed allocation leaves the scratch without a region for that engine, and the other engine's untouched. */
  lemma ReallocateFailureClearsHandle(h: Heap, e: Engine, s: nat, chimera: bool, program: Option<Handle>)
    requires s in h.scratches && e.allocScratch(chimera, program, None).Refused?
    requires HandleFor(h.scratches[s], chimera).None? || e.freeScratch(chimera, HandleFor(h.scratches[s], chimera).value) == SUCCESS
    ensures var r := Reallocate(h, e, s, chimera, program);
      && r.result == Fail(EngineFailure(e.allocScratch(chimera, program, None).status))
      && HandleFor(r.heap.scratches[s], chimera).None?
      && HandleFor(r.heap.scratches[s], !chimera) == HandleFor(h.scratches[s], !chimera)
      && r.heap.scratches[s].database == h.scratches[s].database
  {
  }

  /** N from the `elements` argument: the "K" conversion, then 0 meaning len(expressions). */
  function ElementsArg(expressions: PyObj, elements: PyObj): (r: Outcome<nat>)
    ensures !IsInt(elements) ==> r == Raised(ArgumentTypeError)
    ensures IsInt(elements) ==> r == ElementCount(expressions, ToUint64(IntValue(elements)))
  {
    var k :- AsMask64(elements);
    ElementCount(expressions, k)
  }

  /** The program the first compile call of a trace produced, if it produced one. */
  function CompiledIn(e: Engine, calls: seq<EngineCall>): Option<Handle> {
    if |calls| == 0 then None
    else if calls[0].Compile? then
      match e.compile(calls[0].compile)
      case Compiled(p) => Some(p)
      case CompileFailed(_, _, _) => None
    else CompiledIn(e, calls[1..])
  }

  /** Calls before the first compile call do not change what the trace compiled. */
  lemma {:induction false} CompiledInSkips(e: Engine, pre: seq<EngineCall>, rest: seq<EngineCall>)
    requires forall c :: c in pre ==> !c.Compile?
    ensures CompiledIn(e, pre + rest) == CompiledIn(e, rest)
  {
    if |pre| == 0 {
      assert pre + rest == rest;
    } else {
      assert (pre + rest)[0] == pre[0] && pre[0] in pre;
      assert (pre + rest)[1..] == pre[1..] + rest;
      CompiledInSkips(e, pre[1..], rest);
    }
  }

  /**
   * The scratch side of a successful compile: the database's scratch
   * object (created when missing) gets a region for the new program.
   */
  function PrepareScratch(h: Heap, e: Engine, d: nat, id: nat, program: Handle): (r: Step<()>)
    requires d in h.dbs && id !in h.scratches
    ensures r.invocations == [] && r.heap.streams == h.streams
    ensures d in r.heap.dbs && r.heap.dbs == h.dbs[d := r.heap.dbs[d]]
    ensures r.heap.dbs[d] == h.dbs[d].(scratch := r.heap.dbs[d].scratch)
    ensures forall c :: c in r.calls ==> c.FreeScratch? || c.AllocScratch?
    ensures r.result.Ok? ==> (
      && r.heap.dbs[d].scratch.ScratchObj? && r.heap.dbs[d].scratch.scratch in r.heap.scratches
      && var ch := h.dbs[d].chimera; var alloc := e.allocScratch(ch, Some(program), None);
      && |r.calls| > 0 && r.calls[|r.calls| - 1] == AllocScratch(ch, Some(program), None) && alloc.Produced?
      && HandleFor(r.heap.scratches[r.heap.dbs[d].scratch.scratch], ch) == Some(alloc.handle))
  {
    var slot := ScratchSlot(h, e, d, id);
    match slot.result
    case Fail(f) => Step(slot.heap, Fail(f), slot.calls, [])
    case Ok(s) =>
      var region := Reallocate(slot.heap, e, s, h.dbs[d].chimera, Some(program));
      Step(region.heap, region.result, slot.calls + region.calls, [])
  }

  /**
   * What follows a successful normalisation: the compile proper and, once
   * there is a program, the scratch. The engine writes NULL over the
   * program when it fails; an error of the binding's own leaves the
   * program slot as it was.
   */
  function CompileNormalised(h: Heap, e: Engine, d: nat, id: nat, req: Request, n: nat, literal: bool, ext: PyObj): (r: Step<()>)
    requires d in h.dbs && id !in h.scratches
    ensures r.invocations == [] && r.heap.streams == h.streams
    ensures d in r.heap.dbs && r.heap.dbs == h.dbs[d := r.heap.dbs[d]]
    ensures r.heap.dbs[d].mode == h.dbs[d].mode && r.heap.dbs[d].chimera == h.dbs[d].chimera
  {
    var db := h.dbs[d];
    var built := BuildProgram(db, e, req, n, literal, ext);
    match built.result
    case Fail(f) =>
      if built.calls == [] then Step(h, Fail(f), [], [])
      else Step(h.(dbs := h.dbs[d := db.(program := None)]), Fail(f), built.calls, [])
    case Ok(p) =>
      var prep := PrepareScratch(h.(dbs := h.dbs[d := db.(program := Some(p))]), e, d, id, p);
      Step(prep.heap, prep.result, built.calls + prep.calls, [])
  }

  /**
   * The trace of a compile on normalised arrays: the compile call (if the
   * binding got that far), then only scratch calls; the program slot ends
   * up holding what the compile call produced, or NULL when it failed.
   */
  lemma CompileNormalisedTrace(h: Heap, e: Engine, d: nat, id: nat, req: Request, n: nat, literal: bool, ext: PyObj)
    requires d in h.dbs && id !in h.scratches
    ensures var r := CompileNormalised(h, e, d, id, req, n, literal, ext);
      var built := BuildProgram(h.dbs[d], e, req, n, literal, ext);
      && |built.calls| <= |r.calls| && r.calls[..|built.calls|] == built.calls
      && (forall i :: |built.calls| <= i < |r.calls| ==> r.calls[i].FreeScratch? || r.calls[i].AllocScratch?)
      && (built.calls == [] ==> r.heap == h && r.calls == [] && r.result.Fail?)
      && (built.calls != [] ==> r.heap.dbs[d].program == CompiledIn(e, built.calls))
  {
    var built := BuildProgram(h.dbs[d], e, req, n, literal, ext);
    if built.result.Ok? {
      var p := built.result.value;
      var prep := PrepareScratch(h.(dbs := h.dbs[d := h.dbs[d].(program := Some(p))]), e, d, id, p);
      assert (built.calls + prep.calls)[..|built.calls|] == built.calls;
    }
  }

  /**
   * A compile on normalised arrays that succeeds leaves a program and a
   * scratch object whose region the last call allocated for that program.
   */
  lemma CompileNormalisedReady(h: Heap, e: Engine, d: nat, id: nat, req: Request, n: nat, literal: bool, ext: PyObj)
    requires d in h.dbs && id !in h.scratches
    ensures var r := CompileNormalised(h, e, d, id, req, n, literal, ext);
      r.result.Ok? ==> (
      && r.heap.dbs[d].program.Some? && r.heap.dbs[d].scratch.ScratchObj?
      && r.heap.dbs[d].scratch.scratch in r.heap.scratches
      && var ch := h.dbs[d].chimera; var alloc := e.allocScratch(ch, r.heap.dbs[d].program, None);
      && r.calls[|r.calls| - 1] == AllocScratch(ch, r.heap.dbs[d].program, None) && alloc.Produced?
      && HandleFor(r.heap.scratches[r.heap.dbs[d].scratch.scratch], ch) == Some(alloc.handle))
  {
  }

  /**
   * `Database.compile(expressions, ids=None, elements=0, flags=None,
   * literal=False, ext=None)` under a release rule, creating the scratch
   * `id` when the database has none. The previous program is let go as
   * soon as the arguments are parsed, before the expressions are read.
   */
  function CompileUsing(rule: ReleaseRule, h: Heap, e: Engine, d: nat, id: nat, expressions: PyObj, ids: PyObj,
                        elements: PyObj, flags: PyObj, literal: PyObj, ext: PyObj): (r: Step<()>)
    requires d in h.dbs && id !in h.scratches
    ensures r.invocations == [] && r.heap.streams == h.streams
    ensures d in r.heap.dbs && r.heap.dbs == h.dbs[d := r.heap.dbs[d]]
    ensures r.heap.dbs[d].mode == h.dbs[d].mode && r.heap.dbs[d].chimera == h.dbs[d].chimera
  {
    match ElementsArg(expressions, elements)
    case Fail(f) => Step(h, Fail(f), [], [])
    case Ok(n) =>
      var released := Release(rule, h.dbs[d]);
      var h1 := h.(dbs := h.dbs[d := released.0]);
      match Normalise(expressions, ids, flags, n)
      case Fail(f) => Step(h1, Fail(f), released.1, [])
      case Ok(req) =>
        var rest := CompileNormalised(h1, e, d, id, req, n, IsTrue(literal), ext);
        Step(rest.heap, rest.result, released.1 + rest.calls, [])
  }

  /** `Database.compile` with the previous program's pointer cleared when it is freed. */
  function CompileDatabase(h: Heap, e: Engine, d: nat, id: nat, expressions: PyObj, ids: PyObj := PyNone,
                   elements: PyObj := PyInt(0), flags: PyObj := PyNone, literal: PyObj := PyBool(false),
                   ext: PyObj := PyNone): (r: Step<()>)
    requires d in h.dbs && id !in h.scratches
    ensures r.heap.dbs.Keys == h.dbs.Keys && r.heap.streams == h.streams
    ensures ElementsArg(expressions, elements).Ok? && h.dbs[d].program.Some? ==>
      |r.calls| > 0 && r.calls[0] == FreeDatabase(h.dbs[d].chimera, h.dbs[d].program.value)
  {
    CompileUsing(ClearsProgram, h, e, d, id, expressions, ids, elements, flags, literal, ext)
  }

  /** `Database.compile` as the current module is written: the freed program's pointer stays. */
  function CompileDatabaseAsWritten(h: Heap, e: Engine, d: nat, id: nat, expressions: PyObj, ids: PyObj := PyNone,
                            elements: PyObj := PyInt(0), flags: PyObj := PyNone, literal: PyObj := PyBool(false),
                            ext: PyObj := PyNone): (r: Step<()>)
    requires d in h.dbs && id !in h.scratches
    ensures r.heap.dbs.Keys == h.dbs.Keys && r.heap.streams == h.streams
    ensures ElementsArg(expressions, elements).Ok? && h.dbs[d].program.Some? ==>
      |r.calls| > 0 && r.calls[0] == FreeDatabase(h.dbs[d].chimera, h.dbs[d].program.value)
  {
    CompileUsing(KeepsProgram, h, e, d, id, expressions, ids, elements, flags, literal, ext)
  }

  /** Every call of a compile on normalised arrays is that compile, or a scratch call. */
  lemma CompileNormalisedCalls(h: Heap, e: Engine, d: nat, id: nat, req: Request, n: nat, literal: bool, ext: PyObj)
    requires d in h.dbs && id !in h.scratches
    ensures forall c :: c in CompileNormalised(h, e, d, id, req, n, literal, ext).calls ==>
      || (c.Compile? && c.compile.request == req && c.compile.mode == h.dbs[d].mode && c.compile.chimera == h.dbs[d].chimera)
      || c.FreeScratch? || c.AllocScratch?
  {
    var db := h.dbs[d];
    var built := BuildProgram(db, e, req, n, literal, ext);
    if built.result.Ok? {
      var p := built.result.value;
      var prep := PrepareScratch(h.(dbs := h.dbs[d := db.(program := Some(p))]), e, d, id, p);
      assert CompileNormalised(h, e, d, id, req, n, literal, ext).calls == built.calls + prep.calls;
    }
  }

  /** A compile whose arguments parse and normalise: the release, then the compile on the arrays. */
  lemma CompileUsingShape(rule: ReleaseRule, h: Heap, e: Engine, d: nat, id: nat, expressions: PyObj, ids: PyObj,
                          elements: PyObj, flags: PyObj, literal: PyObj, ext: PyObj)
    requires d in h.dbs && id !in h.scratches
    requires ElementsArg(expressions, elements).Ok?
    requires Normalise(expressions, ids, flags, ElementsArg(expressions, elements).value).Ok?
    ensures var released := Release(rule, h.dbs[d]);
      var rest := CompileNormalised(h.(dbs := h.dbs[d := released.0]), e, d, id,
        Normalise(expressions, ids, flags, ElementsArg(expressions, elements).value).value,
        ElementsArg(expressions, elements).value, IsTrue(literal), ext);
      CompileUsing(rule, h, e, d, id, expressions, ids, elements, flags, literal, ext)
        == Step(rest.heap, rest.result, released.1 + rest.calls, [])
  {
  }

  /** Arguments that do not parse leave everything as it was and call nothing. */
  lemma CompileArgumentError(rule: ReleaseRule, h: Heap, e: Engine, d: nat, id: nat, expressions: PyObj, ids: PyObj,
                             elements: PyObj, flags: PyObj, literal: PyObj, ext: PyObj)
    requires d in h.dbs && id !in h.scratches
    requires ElementsArg(expressions, elements).Fail?
    ensures CompileUsing(rule, h, e, d, id, expressions, ids, elements, flags, literal, ext)
      == Step(h, Fail(ElementsArg(expressions, elements).failure), [], [])
  {
  }

  /**
   * Once the arguments parse, the previous program is freed before
   * anything else is called, and no program is freed afterwards.
   */
  lemma CompileReleasesFirst(rule: ReleaseRule, h: Heap, e: Engine, d: nat, id: nat, expressions: PyObj, ids: PyObj,
                             elements: PyObj, flags: PyObj, literal: PyObj, ext: PyObj)
    requires d in h.dbs && id !in h.scratches
    requires ElementsArg(expressions, elements).Ok?
    ensures var r := CompileUsing(rule, h, e, d, id, expressions, ids, elements, flags, literal, ext);
      var released := Release(rule, h.dbs[d]);
      && |released.1| <= |r.calls| && r.calls[..|released.1|] == released.1
      && forall c :: c in r.calls[|released.1|..] ==> !c.FreeDatabase?
  {
    var n := ElementsArg(expressions, elements).value;
    var released := Release(rule, h.dbs[d]);
    var h1 := h.(dbs := h.dbs[d := released.0]);
    if Normalise(expressions, ids, flags, n).Ok? {
      var req := Normalise(expressions, ids, flags, n).value;
      var rest := CompileNormalised(h1, e, d, id, req, n, IsTrue(literal), ext);
      CompileUsingShape(rule, h, e, d, id, expressions, ids, elements, flags, literal, ext);
      CompileNormalisedCalls(h1, e, d, id, req, n, IsTrue(literal), ext);
      var calls := released.1 + rest.calls;
      assert calls[..|released.1|] == released.1 && calls[|released.1|..] == rest.calls;
    }
  }

  /**
   * Expressions that fail to normalise raise the loop's error after the
   * previous program was released; nothing else is called or changed.
   */
  lemma CompileNormaliseFailure(rule: ReleaseRule, h: Heap, e: Engine, d: nat, id: nat, expressions: PyObj, ids: PyObj,
                                elements: PyObj, flags: PyObj, literal: PyObj, ext: PyObj)
    requires d in h.dbs && id !in h.scratches
    requires ElementsArg(expressions, elements).Ok?
    requires Normalise(expressions, ids, flags, ElementsArg(expressions, elements).value).Fail?
    ensures var r := CompileUsing(rule, h, e, d, id, expressions, ids, elements, flags, literal, ext);
      var released := Release(rule, h.dbs[d]);
      && r.result == Fail(Normalise(expressions, ids, flags, ElementsArg(expressions, elements).value).failure)
      && r.calls == released.1 && r.heap == h.(dbs := h.dbs[d := released.0])
  {
  }

  /**
   * The engine compiles exactly the normalised arrays, in the database's
   * mode and with the database's engine; a compile call is made only when
   * normalisation succeeded.
   */
  lemma CompileRequest(rule: ReleaseRule, h: Heap, e: Engine, d: nat, id: nat, expressions: PyObj, ids: PyObj,
                       elements: PyObj, flags: PyObj, literal: PyObj, ext: PyObj)
    requires d in h.dbs && id !in h.scratches
    ensures var r := CompileUsing(rule, h, e, d, id, expressions, ids, elements, flags, literal, ext);
      forall c :: c in r.calls && c.Compile? ==> (
        && ElementsArg(expressions, elements).Ok?
        && var req := Normalise(expressions, ids, flags, ElementsArg(expressions, elements).value);
        && req.Ok? && c.compile.request == req.value
        && c.compile.mode == h.dbs[d].mode && c.compile.chimera == h.dbs[d].chimera)
  {
    if ElementsArg(expressions, elements).Ok? {
      var n := ElementsArg(expressions, elements).value;
      var released := Release(rule, h.dbs[d]);
      var h1 := h.(dbs := h.dbs[d := released.0]);
      if Normalise(expressions, ids, flags, n).Ok? {
        var req := Normalise(expressions, ids, flags, n).value;
        CompileUsingShape(rule, h, e, d, id, expressions, ids, elements, flags, literal, ext);
        CompileNormalisedCalls(h1, e, d, id, req, n, IsTrue(literal), ext);
      }
    }
  }

  /** A trace that starts with a compile call compiled what that call produced. */
  lemma CompiledInHead(e: Engine, first: seq<EngineCall>, rest: seq<EngineCall>)
    requires |first| == 1 && first[0].Compile?
    ensures CompiledIn(e, first + rest) == CompiledIn(e, first)
  {
    assert (first + rest)[0] == first[0];
  }

  /**
   * On a database whose program slot is NULL, a compile on normalised
   * arrays leaves in the slot exactly what its trace compiled.
   */
  lemma CompileNormalisedProgram(h: Heap, e: Engine, d: nat, id: nat, req: Request, n: nat, literal: bool, ext: PyObj)
    requires d in h.dbs && id !in h.scratches && h.dbs[d].program.None?
    ensures var r := CompileNormalised(h, e, d, id, req, n, literal, ext);
      r.heap.dbs[d].program == CompiledIn(e, r.calls)
  {
    var r := CompileNormalised(h, e, d, id, req, n, literal, ext);
    CompileNormalisedTrace(h, e, d, id, req, n, literal, ext);
    var built := BuildProgram(h.dbs[d], e, req, n, literal, ext);
    if built.calls != [] {
      assert r.calls == built.calls + r.calls[|built.calls|..];
      CompiledInHead(e, built.calls, r.calls[|built.calls|..]);
    }
  }

  /**
   * With the pointer cleared on release, once the arguments parse the
   * program slot holds exactly what this compile's engine call produced:
   * NULL when no compile call was made or it failed, never a freed
   * program.
   */
  lemma CompileLeavesNoStaleProgram(h: Heap, e: Engine, d: nat, id: nat, expressions: PyObj, ids: PyObj,
                                    elements: PyObj, flags: PyObj, literal: PyObj, ext: PyObj)
    requires d in h.dbs && id !in h.scratches
    requires ElementsArg(expressions, elements).Ok?
    ensures var r := CompileDatabase(h, e, d, id, expressions, ids, elements, flags, literal, ext);
      r.heap.dbs[d].program == CompiledIn(e, r.calls)
  {
    var n := ElementsArg(expressions, elements).value;
    var released := Release(ClearsProgram, h.dbs[d]);
    var h1 := h.(dbs := h.dbs[d := released.0]);
    var r := CompileDatabase(h, e, d, id, expressions, ids, elements, flags, literal, ext);
    if Normalise(expressions, ids, flags, n).Ok? {
      var req := Normalise(expressions, ids, flags, n).value;
      var rest := CompileNormalised(h1, e, d, id, req, n, IsTrue(literal), ext);
      CompileUsingShape(ClearsProgram, h, e, d, id, expressions, ids, elements, flags, literal, ext);
      CompileNormalisedProgram(h1, e, d, id, req, n, IsTrue(literal), ext);
      CompiledInSkips(e, released.1, rest.calls);
    } else {
      assert r.calls == released.1 && r.heap == h1;
      assert released.1 + [] == released.1;
      CompiledInSkips(e, released.1, []);
    }
  }

  /**
   * A compile that succeeds leaves a program and a scratch object holding
   * a region that its last call allocated for that program (which program
   * it is, CompileLeavesNoStaleProgram states).
   */
  lemma CompileReady(h: Heap, e: Engine, d: nat, id: nat, expressions: PyObj, ids: PyObj,
                     elements: PyObj, flags: PyObj, literal: PyObj, ext: PyObj)
    requires d in h.dbs && id !in h.scratches
    ensures var r := CompileDatabase(h, e, d, id, expressions, ids, elements, flags, literal, ext);
      r.result.Ok? ==> (
      && r.heap.dbs[d].program.Some?
      && r.heap.dbs[d].scratch.ScratchObj? && r.heap.dbs[d].scratch.scratch in r.heap.scratches
      && var ch := h.dbs[d].chimera; var alloc := e.allocScratch(ch, r.heap.dbs[d].program, None);
      && r.calls[|r.calls| - 1] == AllocScratch(ch, r.heap.dbs[d].program, None) && alloc.Produced?
      && HandleFor(r.heap.scratches[r.heap.dbs[d].scratch.scratch], ch) == Some(alloc.handle))
  {
    var r := CompileDatabase(h, e, d, id, expressions, ids, elements, flags, literal, ext);
    if r.result.Ok? {
      var n := ElementsArg(expressions, elements).value;
      var released := Release(ClearsProgram, h.dbs[d]);
      var h1 := h.(dbs := h.dbs[d := released.0]);
      var req := Normalise(expressions, ids, flags, n).value;
      CompileUsingShape(ClearsProgram, h, e, d, id, expressions, ids, elements, flags, literal, ext);
      CompileNormalisedReady(h1, e, d, id, req, n, IsTrue(literal), ext);
    }
  }

  /** A str among the expressions is not bytes: normalising `["a"]` fails. */
  lemma StrExpressionFails()
    ensures Normalise(PyList([PyStr("a")]), PyNone, PyInt(0), 1) == Raised(ExpectedBytes)
  {
    var items := Fetch(PyList([PyStr("a")]), PyNone, PyInt(0), 1);
    assert items[0] == Raised(ExpectedBytes);
    CollectFailsAtFirstBadItem(items, 0);
  }

  /**
   * As written: a recompile whose expressions fail to normalise frees the
   * program but keeps the pointer, so the next compile frees the same
   * program a second time.
   */
  lemma CompileAsWrittenFreesTwice(h: Heap, e: Engine, d: nat, id: nat, bad: PyObj, next: PyObj)
    requires d in h.dbs && id !in h.scratches && h.dbs[d].program.Some?
    requires IsSequence(bad) && Normalise(bad, PyNone, PyNone, Length(bad)).Fail?
    requires IsSequence(next)
    ensures var first := CompileDatabaseAsWritten(h, e, d, id, bad);
      var ch := h.dbs[d].chimera; var p := h.dbs[d].program.value;
      && first.calls == [FreeDatabase(ch, p)] && first.heap.dbs[d].program == Some(p)
      && id !in first.heap.scratches
      && CompileDatabaseAsWritten(first.heap, e, d, id, next).calls[0] == FreeDatabase(ch, p)
  {
    var first := CompileDatabaseAsWritten(h, e, d, id, bad);
    CompileNormaliseFailure(KeepsProgram, h, e, d, id, bad, PyNone, PyInt(0), PyNone, PyBool(false), PyNone);
  }

  /**
   * With the pointer cleared: after the same failed recompile the next
   * compile frees nothing, so the program is freed exactly once.
   */
  lemma CompileFreesOnce(h: Heap, e: Engine, d: nat, id: nat, bad: PyObj, next: PyObj)
    requires d in h.dbs && id !in h.scratches && h.dbs[d].program.Some?
    requires IsSequence(bad) && Normalise(bad, PyNone, PyNone, Length(bad)).Fail?
    requires IsSequence(next)
    ensures var first := CompileDatabase(h, e, d, id, bad);
      var ch := h.dbs[d].chimera; var p := h.dbs[d].program.value;
      && first.calls == [FreeDatabase(ch, p)] && first.heap.dbs[d].program.None?
      && id !in first.heap.scratches
      && forall c :: c in CompileDatabase(first.heap, e, d, id, next).calls ==> !c.FreeDatabase?
  {
    var first := CompileDatabase(h, e, d, id, bad);
    CompileNormaliseFailure(ClearsProgram, h, e, d, id, bad, PyNone, PyInt(0), PyNone, PyBool(false), PyNone);
    var second := CompileDatabase(first.heap, e, d, id, next);
    CompileReleasesFirst(ClearsProgram, first.heap, e, d, id, next, PyNone, PyInt(0), PyNone, PyBool(false), PyNone);
    assert second.calls[0..] == second.calls;
  }
}
