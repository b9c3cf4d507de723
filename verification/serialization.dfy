/**
 * `hyperscan.dumpb(database)` and `hyperscan.loadb(buf, mode)`: a
 * Hyperscan database to bytes and back, through the engine's serializer.
 */
module Serialization {
  import opened PyRuntime
  import opened EngineErrors
  import opened EngineCalls
  import opened Binding

  const CHIMERA_SERIALIZATION: PyExc := RuntimeError("chimera does not support serialization")
  const NOT_A_BYTESTRING: PyExc := TypeError("buf must be a bytestring")

  /**
   * `dumpb(database)`: the argument must be a Database ("O!"); Chimera is
   * refused; otherwise the engine serializes the program and its bytes are
   * returned.
   */
  function Dump(h: Heap, e: Engine, database: PyObj): (r: Run<PyObj>)
    ensures r.invocations == []
    ensures !(database.DatabaseObj? && database.db in h.dbs) ==> r == Run(Raised(ArgumentTypeError), [], [])
    ensures database.DatabaseObj? && database.db in h.dbs && h.dbs[database.db].chimera ==>
      r == Run(Raised(CHIMERA_SERIALIZATION), [], [])
    ensures r.result.Ok? ==> (
      && database.DatabaseObj? && database.db in h.dbs && !h.dbs[database.db].chimera
      && var program := h.dbs[database.db].program;
      && r.calls == [Serialize(program)] && e.serialize(program).Serialized?
      && r.result.value == PyBytes(e.serialize(program).bytes))
    ensures database.DatabaseObj? && database.db in h.dbs && !h.dbs[database.db].chimera ==> (
      var program := h.dbs[database.db].program;
      && r.calls == [Serialize(program)]
      && (e.serialize(program).Serialized? ==> r.result == Ok(PyBytes(e.serialize(program).bytes)))
      && (e.serialize(program).SerializeRefused? ==> r.result == Fail(EngineFailure(e.serialize(program).status))))
  {
    if !(database.DatabaseObj? && database.db in h.dbs) then Run(Raised(ArgumentTypeError), [], [])
    else
      var db := h.dbs[database.db];
      if db.chimera then Run(Raised(CHIMERA_SERIALIZATION), [], [])
      else
        match e.serialize(db.program)
        case Serialized(bs) => Run(Ok(PyBytes(bs)), [Serialize(db.program)], [])
        case SerializeRefused(status) => Run(Fail(EngineFailure(status)), [Serialize(db.program)], [])
  }

  /**
   * `loadb(buf, mode)`, creating the database `id`: both arguments are
   * required, `mode` an "I" int written straight into the new database;
   * `buf` must be bytes; the engine rebuilds the program. The new database
   * is a Hyperscan one and has no scratch.
   */
  function Load(h: Heap, e: Engine, id: nat, buf: PyObj, mode: PyObj): (r: Step<PyObj>)
    requires id !in h.dbs
    ensures r.invocations == [] && r.heap.scratches == h.scratches && r.heap.streams == h.streams
    ensures r.result.Fail? ==> r.heap == h
    ensures !IsInt(mode) ==> r == Step(h, Raised(ArgumentTypeError), [], [])
    ensures IsInt(mode) && !buf.PyBytes? ==> r == Step(h, Raised(NOT_A_BYTESTRING), [], [])
    ensures IsInt(mode) && buf.PyBytes? ==> r.calls == [Deserialize(buf.bytes)]
    ensures r.result.Ok? <==> IsInt(mode) && buf.PyBytes? && e.deserialize(buf.bytes).Produced?
    ensures r.result.Ok? ==> (
      && r.result.value == DatabaseObj(id)
      && r.heap.dbs == h.dbs[id := Database(PyNone, Some(e.deserialize(buf.bytes).handle), ToUint32(IntValue(mode)), false)])
  {
    match AsMask32(mode)
    case Fail(f) => Step(h, Fail(f), [], [])
    case Ok(m) =>
      if !buf.PyBytes? then Step(h, Raised(NOT_A_BYTESTRING), [], [])
      else
        match e.deserialize(buf.bytes)
        case Produced(p) => Step(h.(dbs := h.dbs[id := Database(PyNone, Some(p), m, false)]), Ok(DatabaseObj(id)), [Deserialize(buf.bytes)], [])
        case Refused(status) => Step(h, Fail(EngineFailure(status)), [Deserialize(buf.bytes)], [])
  }

  /**
   * The bytes `dumpb` returns are exactly what `loadb` hands back to the
   * engine; given the dumped database's mode, the loaded database has the
   * same mode and engine and holds the program the engine rebuilt from
   * those bytes.
   */
  lemma DumpLoadRoundTrip(h: Heap, e: Engine, d: nat, id: nat)
    requires d in h.dbs && id !in h.dbs
    requires Dump(h, e, DatabaseObj(d)).result.Ok?
    ensures var dumped := Dump(h, e, DatabaseObj(d)).result.value;
      var loaded := Load(h, e, id, dumped, PyInt(h.dbs[d].mode as int));
      && dumped.PyBytes?
      && loaded.calls == [Deserialize(e.serialize(h.dbs[d].program).bytes)]
      && (loaded.result.Ok? ==> (
        && var copy := loaded.heap.dbs[id];
        && copy.mode == h.dbs[d].mode && copy.chimera == h.dbs[d].chimera
        && copy.program == Some(e.deserialize(dumped.bytes).handle)))
  {
  }

  /** A loaded database has no scratch: scanning it needs an explicit one. */
  lemma LoadedDatabaseHasNoScratch(h: Heap, e: Engine, id: nat, buf: PyObj, mode: PyObj)
    requires id !in h.dbs
    requires Load(h, e, id, buf, mode).result.Ok?
    ensures Load(h, e, id, buf, mode).heap.dbs[id].scratch == PyNone
    ensures ScanScratch(Load(h, e, id, buf, mode).heap, Load(h, e, id, buf, mode).heap.dbs[id].scratch, false) == Crashed(NoneAsScratch)
  {
  }

  /** Dumping a database that was never compiled hands the engine a NULL program. */
  lemma DumpUncompiled(h: Heap, e: Engine, d: nat)
    requires d in h.dbs && !h.dbs[d].chimera && h.dbs[d].program.None?
    ensures Dump(h, e, DatabaseObj(d)).calls == [Serialize(None)]
  {
  }
}
