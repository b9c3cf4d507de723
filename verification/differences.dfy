/**
 * Where the legacy module and the current one answer the same call
 * differently: literal lengths, the exception classes, the meaning of
 * `elements`, which of a callback's failure and the engine's status a
 * scan reports, and what serialized bytes the loader accepts.
 */
module Differences {
  import opened PyRuntime
  import opened EngineErrors
  import opened Callbacks
  import opened CompileArgs
  import opened EngineCalls
  import opened Binding
  import opened Scanning
  import opened Serialization
  import opened LegacyBinding

  /**
   * For a literal without NUL bytes the current module passes its length
   * and the legacy module one byte less.
   */
  lemma LiteralLengthsDiffer(exprs: seq<seq<byte>>, i: nat)
    requires i < |exprs| && 0 < |exprs[i]| <= UINT64_LIMIT
    requires forall j :: 0 <= j < |exprs[i]| ==> exprs[i][j] != 0
    ensures LiteralLengths(exprs)[i] == |exprs[i]|
    ensures LegacyLiteralLengths(exprs)[i] == |exprs[i]| - 1
  {
    LiteralLengthIsLength(exprs, i);
  }

  /**
   * Both modules describe a failing status by the same "error code N"
   * text; the legacy one always raises the base class, the current one
   * the class registered for the code (ScanTerminated for a callback
   * that stopped the scan).
   */
  lemma ErrorClassesDiffer(code: ErrorCode)
    requires UNKNOWN_ERROR <= code <= INVALID || code == CH_FAIL_INTERNAL
    ensures EngineFailure(code).Raise? && LegacyEngineFailure(code).Raise?
    ensures EngineFailure(code).exc.detail == LegacyEngineFailure(code).exc.detail == CodeMsg(code)
    ensures LegacyEngineFailure(code).exc.cls == HyperscanError
    ensures EngineFailure(code).exc.cls != HyperscanError
    ensures code == SCAN_TERMINATED ==> EngineFailure(code).exc.cls == ScanTerminated
  {
    DefinedCodesRaise(code);
    ErrorTableContents(Abs(code));
  }

  /**
   * `elements=0` means "all of them" in the current module and "none" in
   * the legacy one, where the default -1 means "all"; the current
   * module's "K" conversion reads -1 as 2**64 - 1 items.
   */
  lemma ElementsDiffer(expressions: PyObj)
    requires IsSequence(expressions) && Length(expressions) < 0x8000_0000
    ensures ElementsArg(expressions, PyInt(0)) == Ok(Length(expressions))
    ensures LegacyElementsArg(expressions, PyInt(0)) == Ok(0)
    ensures LegacyElementsArg(expressions, PyInt(-1)) == Ok(Length(expressions))
    ensures ElementsArg(expressions, PyInt(-1)) == Ok(UINT64_LIMIT - 1)
  {
    assert CInt(ToUint32(-1)) == -1;
  }

  /**
   * A callback whose first reply is an object with a failing truth test:
   * the current module reports that exception, the legacy one ignores it
   * and raises its generic error for the termination status.
   */
  lemma UntestableReplyDiffers(m: Match, callee: PyObj, x: PyExc, ctx: PyObj)
    requires IsCallable(callee)
    ensures var run := Drive(Reports([m]), true, callee, [ReturnsUntestable(x)], ctx, true, true);
      && run.status == SCAN_TERMINATED && |run.calls| == 1
      && Conclude(false, run) == Raised(x)
      && LegacyConclude(run) == Fail(LegacyEngineFailure(SCAN_TERMINATED))
  {
    HaltingFirstReplyCallsOnce([m], callee, [ReturnsUntestable(x)], ctx, true);
  }

  /** A callback that raises is reported with its own exception by both modules. */
  lemma RaisingReplyAgrees(m: Match, callee: PyObj, x: PyExc, ctx: PyObj)
    requires IsCallable(callee)
    ensures var run := Drive(Reports([m]), true, callee, [Raises(x)], ctx, true, true);
      && Conclude(false, run) == Raised(x) && LegacyConclude(run) == Raised(x)
  {
    HaltingFirstReplyCallsOnce([m], callee, [Raises(x)], ctx, true);
  }

  /**
   * The same serialized bytes handed over as `bytes`: the current loader
   * passes them to the engine, the legacy one refuses them before the
   * engine is called.
   */
  lemma LoadersDiffer(h: Heap, lh: LegacyHeap, e: Engine, id: nat, lid: nat, sid: nat, bs: seq<byte>)
    requires id !in h.dbs && lid !in lh.dbs && sid !in lh.scratches
    ensures Load(h, e, id, PyBytes(bs), PyInt(HS_MODE_BLOCK as int)).calls == [Deserialize(bs)]
    ensures LegacyLoads(lh, e, lid, sid, PyBytes(bs)) == LegacyStep(lh, Raised(NOT_A_BYTEARRAY), [])
  {
  }
}
