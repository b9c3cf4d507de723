/**
 * The matching engine as the binding sees it: a set of foreign calls that
 * take handles and buffers and answer with a status code or a new handle.
 *
 * Nothing of the engine's matching is modelled. An `Engine` value is an
 * arbitrary assignment of replies to calls, and every binding operation
 * reports the calls it made, in order, so that what the binding hands to
 * the engine is part of each operation's contract.
 */
module EngineCalls {
  import opened PyRuntime
  import opened EngineErrors
  import opened Callbacks
  import opened CompileArgs

  /** An engine-owned object: a compiled program, a scratch region or a stream state. */
  type Handle = nat

  /** The arguments of one multi-pattern compile call. */
  datatype CompileCall = CompileCall(
    chimera: bool,                      // ch_compile_ext_multi rather than an hs_ compiler
    request: Request,                   // N, expressions, flags and ids
    literalLengths: Option<seq<int>>,   // present for hs_compile_lit_multi
    ext: Option<seq<ExtRecord>>,        // present for hs_compile_ext_multi with ext records
    mode: uint32)

  /** The engine's answer to a compile call; on failure the database slot is written NULL. */
  datatype CompileReply =
    | Compiled(program: Handle)
    | CompileFailed(status: ErrorCode, message: string, expression: int)

  /** The answer of a call that produces a handle. */
  datatype HandleReply = Produced(handle: Handle) | Refused(status: ErrorCode)

  /** The answer of hs_stream_size. */
  datatype SizeReply = Sized(size: nat) | SizeRefused(status: ErrorCode)

  /** The answer of hs_serialize_database. */
  datatype BytesReply = Serialized(bytes: seq<byte>) | SerializeRefused(status: ErrorCode)

  /** The arguments of one scan call. `handler` says whether a match handler was installed. */
  datatype ScanCall =
    | BlockScan(chimera: bool, program: Option<Handle>, data: seq<byte>, flags: uint32,
                scratch: Option<Handle>, handler: bool)
    | VectorScan(program: Option<Handle>, buffers: seq<seq<byte>>, lengths: seq<int>, flags: uint32,
                 scratch: Option<Handle>, handler: bool)

  /** hs_scan_stream; `flags` is absent when the caller omitted it and the C variable is uninitialised. */
  datatype StreamScanCall = StreamScanCall(
    identifier: Option<Handle>, data: seq<byte>, flags: Option<uint32>,
    scratch: Option<Handle>, handler: bool)

  /** hs_close_stream, which always gets the binding's match handler. */
  datatype StreamCloseCall = StreamCloseCall(identifier: Option<Handle>, scratch: Option<Handle>)

  /** One foreign call, as recorded in an operation's trace. */
  datatype EngineCall =
    | FreeDatabase(chimera: bool, released: Handle)
    | Compile(compile: CompileCall)
    | AllocScratch(chimera: bool, program: Option<Handle>, existing: Option<Handle>)
    | FreeScratch(chimera: bool, scratch: Handle)
    | CloneScratch(chimera: bool, source: Option<Handle>)
    | Scan(scan: ScanCall)
    | OpenStream(program: Option<Handle>)
    | ScanStream(streamScan: StreamScanCall)
    | CloseStream(close: StreamCloseCall)
    | StreamSize(program: Option<Handle>)
    | Serialize(program: Option<Handle>)
    | Deserialize(bytes: seq<byte>)

  /**
   * The engine's replies, as uninterpreted functions of the call's
   * arguments. A scan-like call answers with what the engine reports to
   * the match handler (see `Callbacks.EngineRun`).
   */
  datatype Engine = Engine(
    compile: CompileCall -> CompileReply,
    allocScratch: (bool, Option<Handle>, Option<Handle>) -> HandleReply,
    freeScratch: (bool, Handle) -> int,
    cloneScratch: (bool, Option<Handle>) -> HandleReply,
    scan: ScanCall -> EngineRun,
    openStream: Option<Handle> -> HandleReply,
    scanStream: StreamScanCall -> EngineRun,
    closeStream: StreamCloseCall -> EngineRun,
    streamSize: Option<Handle> -> SizeReply,
    serialize: Option<Handle> -> BytesReply,
    deserialize: seq<byte> -> HandleReply)
}
