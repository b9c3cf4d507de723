# Hyperscan and Chimera for Python: a model of the binding's runtime layer

The `hyperscan` Python package wraps Intel's Hyperscan regular-expression
engine and its PCRE-backed companion Chimera in a C extension. It provides
three object types and two module functions:

- `Database` compiles expressions into a program and scans data with it.
- `Scratch` is the per-thread working memory a scan needs.
- `Stream` scans data delivered in pieces.
- `dumpb` and `loadb` serialize a database to bytes and back.

Two extension modules are modelled. The current one is
`src/hyperscan/hyperscanmodule.c`. The legacy one is
`hyperscan/hyperscanmodule.c`; it raises a single error class and has
different argument defaults.

This project models the binding layer itself:

- how the Python arguments of `Database.compile` are turned into the
  engine's arrays of expressions, ids and flags, lengths and extended
  parameters;
- the lifecycle of databases, scratches and streams, and which engine
  call each Python call makes, with what arguments;
- the callback protocol: how a Python callback's reply, or the exception
  it raises, stops a scan, and which exception the scan reports;
- the 33-slot table of the 14 exception classes, indexed by `abs(status)`, and the
  legacy module's single class;
- the `process_expression` line parser and `flagchars` table of the
  `hsbench` example, and the `ExpressionExt` named tuple.

The engines are not modelled. `EngineCalls.Engine` is a record of
arbitrary functions that answers compile, scan, allocate, clone,
serialize and stream calls. Every operation returns the exact sequence of
engine calls it made, so properties can be stated about what the binding
asks of the engine. The engine's matches are a sequence of `Match`
values, and a scan's Python callback is a `Script` of replies: return a
value, raise an exception, or return an object whose truth test raises.
The Python heap is a map from object ids to records for databases,
scratches and streams. C undefined behaviour in the binding's own code
is modelled as the `Crashed` outcome with a named `Fault`. Examples are
dereferencing `None` as a Scratch, reading an unregistered slot of the
error table, or a negative variable-length array. Handles the engine
has already freed are not tracked, so passing one back to the engine is
not a `Crashed` outcome (see "Left out"). Nothing in the model is
nondeterministic.

Files, one module each:

| file | module | what it holds |
|---|---|---|
| pyruntime.dfy | PyRuntime | Python objects, exceptions, outcomes, C integer conversions, `str(n)`/`int()` digits, UTF-8 |
| engine_errors.dfy | EngineErrors | status codes, the 33-slot exception table, both modules' error raising |
| callbacks.dfy | Callbacks | match handlers and the scan loop over the engine's matches |
| compile_args.dfy | CompileArgs | normalisation of `compile` arguments, element counts, literal lengths, `ExpressionExt` and ext parsing |
| engine_calls.dfy | EngineCalls | the engine calls and the engine as a record of reply functions |
| binding.dfy | Binding | the heap, `Database()`, `Scratch` methods, `Database.compile` |
| scanning.dfy | Scanning | `Database.scan`, block and vectored |
| streams.dfy | Streams | `Database.stream` and `Stream` enter, scan, close, exit, len and size |
| serialization.dfy | Serialization | `dumpb` and `loadb` |
| legacy_binding.dfy | LegacyBinding | the legacy module's scratch, compile, scan, stream and serialization |
| hsbench.dfy | HsBench | `flagchars`, Python `str.strip`/`find`/`rfind`/slicing/`int()`, `process_expression` |
| differences.dfy | Differences | lemmas relating the legacy and current modules on the same call |

## Model

| member | source | states |
|---|---|---|
| PyRuntime.ToUint32 | src/hyperscan/hyperscanmodule.c:281-299 | storing an unsigned long into a `uint32_t` keeps values below 2**32 and otherwise agrees with the value modulo 2**32 |
| PyRuntime.ToUint64 | src/hyperscan/hyperscanmodule.c:217-228 | a "K" conversion keeps values below 2**64 and otherwise agrees modulo 2**64 |
| PyRuntime.Items | src/hyperscan/hyperscanmodule.c:275 | the items a sequence yields: a list's elements and a tuple's fields in order, a `str` one 1-character `str` per character, `bytes` and `bytearray` one int per byte, each at its own index |
| PyRuntime.SeqItem | src/hyperscan/hyperscanmodule.c:385-391 | `PySequence_GetItem` yields the i-th item exactly when the object is a sequence and i is in range, and fails otherwise |
| PyRuntime.AsUnsignedLong | src/hyperscan/hyperscanmodule.c:283-285 | succeeds exactly for ints in [0, 2**64) with that value; a non-int raises TypeError and a negative int raises OverflowError |
| PyRuntime.AsMask64 | src/hyperscan/hyperscanmodule.c:217-228 | a "K" argument accepts every int and yields it modulo 2**64; anything else is a TypeError |
| PyRuntime.AsMask32 | src/hyperscan/hyperscanmodule.c:523-533 | an "I" argument accepts every int and yields it modulo 2**32; anything else is a TypeError |
| PyRuntime.ShowNatRoundTrip | examples/hsbench.py:30 | reading back the decimal digits of `str(n)` gives n |
| PyRuntime.EncodeChar | examples/hsbench.py:37 | a code point encodes to 1-4 bytes, a single byte exactly for ASCII, with continuation bytes in [0x80, 0xC0) |
| PyRuntime.EncodeCharRoundTrip | examples/hsbench.py:37 | decoding the UTF-8 bytes of a character gives back its code point |
| PyRuntime.Utf8 | src/hyperscan/hyperscanmodule.c:931-942 | `str.encode('utf-8')` produces between 1 and 4 bytes per character, and exactly one per character for ASCII text |
| PyRuntime.Utf8Concat | src/hyperscan/hyperscanmodule.c:931-942 | UTF-8 encodes character by character: the encoding of `s + t` is the encoding of `s` followed by that of `t` |
| PyRuntime.Utf8Ascii | src/hyperscan/hyperscanmodule.c:931-942 | the UTF-8 bytes of ASCII text are its code points, one for one |
| EngineErrors.BuildTable | src/hyperscan/hyperscanmodule.c:33-51 | registering classes by `abs(code)` fills a table of exactly 33 slots |
| EngineErrors.BuildTableSlot | src/hyperscan/hyperscanmodule.c:33-51 | a slot holds a class iff some registration has that absolute code, and then it holds that registration's class |
| EngineErrors.ErrorTable | src/hyperscan/hyperscanmodule.c:1387-1484 | the module's table has 33 slots |
| EngineErrors.ErrorTableContents | src/hyperscan/hyperscanmodule.c:1387-1484 | slots 1-13 hold the thirteen Hyperscan error classes, slot 32 holds the Chimera PCRE class, and all other slots are empty |
| EngineErrors.EngineFailure | src/hyperscan/hyperscanmodule.c:15-32 | a status raises the class registered in its slot with the "error code N" text; an empty slot or an index past 32 is undefined behaviour |
| EngineErrors.LegacyEngineFailure | hyperscan/hyperscanmodule.c:10-17 | the legacy module raises `HyperscanError` with the "error code N" text for every failing status |
| EngineErrors.Check | src/hyperscan/hyperscanmodule.c:24-32 | a status passes iff it is success, and any other status fails with its table class |
| EngineErrors.LegacyCheck | hyperscan/hyperscanmodule.c:10-17 | a status passes iff it is success, and any other status fails with `HyperscanError` |
| EngineErrors.DefinedCodesRaise | src/hyperscan/hyperscanmodule.c:1387-1484 | every status from -1 to -13, and -32, raises a Python exception |
| EngineErrors.TerminationRaisesScanTerminated | src/hyperscan/hyperscanmodule.c:1387-1484 | status -3 raises `ScanTerminated` |
| EngineErrors.GapCodesCrash | src/hyperscan/hyperscanmodule.c:24-51 | statuses -14 to -31 index unregistered slots, so raising them is undefined behaviour |
| Callbacks.ReplyAt | src/hyperscan/hyperscanmodule.c:95-96 | calling a non-callable raises TypeError; otherwise the k-th call gives the callback's k-th reply |
| Callbacks.Handler | src/hyperscan/hyperscanmodule.c:97-103 | `None` continues; any other reply halts iff its truth test is true; a raised exception, or a truth test that raises, halts and marks the scan unsuccessful only when the call itself raised |
| Callbacks.Walk | src/hyperscan/hyperscanmodule.c:85-107 | the callback sees the matches in order, with the scan's context, up to and including the first halting reply |
| Callbacks.Drive | src/hyperscan/hyperscanmodule.c:621-646 | without a handler, or when the engine refuses, nothing is called; a pending exception implies the scan was terminated |
| Callbacks.HaltingFirstReplyCallsOnce | src/hyperscan/hyperscanmodule.c:97-103 | a halting first reply calls the callback once and ends the scan with `SCAN_TERMINATED` |
| Callbacks.ContinuingCallbackSeesEveryMatch | src/hyperscan/hyperscanmodule.c:97-103 | a callback that always returns `None` sees every match and raises nothing |
| Callbacks.NonCallableCalleeRaisesOnFirstMatch | src/hyperscan/hyperscanmodule.c:95-103 | a non-callable handler fails on the first match with TypeError, once |
| Callbacks.Fallback | src/hyperscan/hyperscanmodule.c:872-873 | a falsy per-call callback or context falls back to the one stored on the stream |
| CompileArgs.GlobalFlag | src/hyperscan/hyperscanmodule.c:266-268 | `flags=None` is 0; an int flag is taken modulo 2**32; a failed conversion leaves (unsigned long)-1, which truncates to 0xFFFFFFFF |
| CompileArgs.ExpressionAt | src/hyperscan/hyperscanmodule.c:275-279 | the i-th expression is read iff it is a `bytes` item of a sequence in range |
| CompileArgs.IdAt | src/hyperscan/hyperscanmodule.c:281-289 | with falsy `ids` the id is the index; otherwise it is the i-th id converted as an unsigned long |
| CompileArgs.FlagAt | src/hyperscan/hyperscanmodule.c:290-299 | a sequence of flags gives the i-th converted flag; anything else gives the global flag |
| CompileArgs.ItemAt | src/hyperscan/hyperscanmodule.c:270-306 | an item is read iff its expression, id and flag are, and a bad expression is reported before the id and flag |
| CompileArgs.Collect | src/hyperscan/hyperscanmodule.c:270-315 | the arrays are built iff every item is read, and then index i of each array holds item i |
| CompileArgs.CollectFailsAtFirstBadItem | src/hyperscan/hyperscanmodule.c:278-296 | the loop stops at the first bad item and reports its error |
| CompileArgs.CollectLoop | src/hyperscan/hyperscanmodule.c:270-315 | the loop with early exit computes the same outcome as the item-wise definition |
| CompileArgs.NormalisedContents | src/hyperscan/hyperscanmodule.c:266-306 | after a successful normalisation, entry i holds expression i's bytes, its id or the index, and its flag or the global flag (0 for `flags=None`) |
| CompileArgs.ElementCount | src/hyperscan/hyperscanmodule.c:230-238 | `elements=0` means the length of the sequence, or raises TypeError for a non-sequence; any other value is used as given |
| CompileArgs.CInt | hyperscan/hyperscanmodule.c:131-134 | converting to a C `int` stays in the 32-bit signed range and keeps the values already in it |
| CompileArgs.LegacyElementCount | hyperscan/hyperscanmodule.c:136-147 | -1 means the sequence length, values from 0 up are used as given, and values below -1 give a negative array length |
| CompileArgs.CStrLen | src/hyperscan/hyperscanmodule.c:331-333 | `strlen` is the length up to the first NUL byte |
| CompileArgs.LiteralLengths | src/hyperscan/hyperscanmodule.c:328-334 | each literal's length is `strlen` of its bytes, so never more than its size |
| CompileArgs.LiteralLengthIsLength | src/hyperscan/hyperscanmodule.c:331-333 | for a literal without NUL bytes the length passed is its full length |
| CompileArgs.LegacyLiteralLengths | hyperscan/hyperscanmodule.c:192-198 | the legacy module passes one byte less than the literal's size, and 2**64-1 for an empty literal |
| CompileArgs.LegacyLiteralLengthsFallShort | hyperscan/hyperscanmodule.c:192-198 | for `b"foo"` the legacy module passes 2 where the current one passes 3 |
| CompileArgs.LegacyLiteralOffByOne | hyperscan/hyperscanmodule.c:192-198 | for every NUL-free literal the legacy length is one less than the current one |
| CompileArgs.ExpressionExt | src/hyperscan/__init__.py:11-17 | the named tuple holds the six fields in declaration order, and the five after `flags` default to 0 |
| CompileArgs.ParseExt | src/hyperscan/hyperscanmodule.c:392-404 | an ext item parses iff it is a 6-tuple of ints, giving the four 64-bit and two 32-bit fields; anything else raises "invalid ext info" |
| CompileArgs.ExpressionExtParses | src/hyperscan/__init__.py:11-17 | an `ExpressionExt` built from ints always parses to the same six values, and the defaults parse to zeros |
| CompileArgs.ExtRecords | src/hyperscan/hyperscanmodule.c:382-407 | ext info is read iff every one of the `elements` items is present and parses, and then record i is item i's parse; a missing first item raises "failed to get ext item" |
| CompileArgs.ExtRecordsFailAtFirstBadItem | src/hyperscan/hyperscanmodule.c:382-407 | the first bad item decides the error: a missing item i raises "failed to get ext item" for i, and an item that does not parse raises TypeError "invalid ext info" |
| Binding.WithHandle | src/hyperscan/hyperscanmodule.c:1099-1120 | setting one engine's handle on a scratch leaves the other engine's handle and the database unchanged |
| Binding.ScratchAt | src/hyperscan/hyperscanmodule.c:585-590 | an object is usable as a scratch iff it is a live Scratch; `None` is undefined behaviour |
| Binding.DatabaseAt | src/hyperscan/hyperscanmodule.c:1109-1116 | an object is usable as a database iff it is a live Database; `None` is undefined behaviour |
| Binding.ChimeraOf | src/hyperscan/hyperscanmodule.c:1109-1110 | reading the chimera flag of a database object succeeds exactly on a live Database |
| Binding.ScanScratch | src/hyperscan/hyperscanmodule.c:585-590 | the handle a scan passes is the chosen scratch's handle for the database's engine |
| Binding.NewDatabase | src/hyperscan/hyperscanmodule.c:167-195 | `Database()` succeeds iff `mode` is an int; the new database has no program, the given scratch, the mode modulo 2**32 and the truth value of `chimera` |
| Binding.SetDatabase | src/hyperscan/hyperscanmodule.c:1099-1120 | binding a scratch records the database, touches no other object and makes only scratch allocations |
| Binding.SetDatabaseBindsOnce | src/hyperscan/hyperscanmodule.c:1103-1108 | a scratch that already has a handle refuses to be bound again, makes no engine call, but still records the new database |
| Binding.SetDatabaseAllocates | src/hyperscan/hyperscanmodule.c:1109-1119 | a fresh scratch allocates once for the database's engine and program; it succeeds iff the engine does, and then the handle is stored for that engine only |
| Binding.SetDatabaseNeedsDatabase | src/hyperscan/hyperscanmodule.c:1109-1110 | binding to something other than a Database is undefined behaviour and calls nothing |
| Binding.NewScratch | src/hyperscan/hyperscanmodule.c:1122-1131 | `Scratch()` gives an empty scratch; `Scratch(db)` is an empty scratch bound as `set_database` binds it |
| Binding.Clone | src/hyperscan/hyperscanmodule.c:1133-1154 | a clone has no database; an unbound scratch clones its Hyperscan handle; a successful clone holds the engine's copy for one engine only |
| Binding.CloneOfChimeraScratch | src/hyperscan/hyperscanmodule.c:1138-1147 | a scratch bound to a Chimera database clones its Chimera handle, and the copy has no Hyperscan handle |
| Binding.Release | src/hyperscan/hyperscanmodule.c:248-252 | a previous program is freed with its engine's call, and its pointer is cleared or kept according to the rule |
| Binding.ExtFor | src/hyperscan/hyperscanmodule.c:382-407 | `ext=None` passes no ext array; otherwise the ext records or their error |
| Binding.BuildProgram | src/hyperscan/hyperscanmodule.c:321-429 | literal mode refuses Chimera and passes `strlen` lengths; Chimera compiles without ext; Hyperscan reads ext first; each compile error is raised as its source code raises it |
| Binding.ScratchSlot | src/hyperscan/hyperscanmodule.c:434-439 | a database without scratch gets a new one, and after success it refers to a live scratch |
| Binding.Reallocate | src/hyperscan/hyperscanmodule.c:441-459 | a successful reallocation ends with an allocation for the new program, and stores its handle |
| Binding.ReallocateFreesFirst | src/hyperscan/hyperscanmodule.c:443-456 | an existing handle is freed first, and a failed free stops with its error and no further change |
| Binding.ReallocateFailureClearsHandle | src/hyperscan/hyperscanmodule.c:441-459 | a refused allocation leaves this engine's handle empty, keeps the other engine's and reports the status |
| Binding.ElementsArg | src/hyperscan/hyperscanmodule.c:217-238 | `elements` must be an int; it is taken modulo 2**64 and then counted as `ElementCount` counts |
| Binding.PrepareScratch | src/hyperscan/hyperscanmodule.c:434-459 | after the program is built, the database's scratch is live and holds a freshly allocated handle for the new program |
| Binding.CompileNormalised | src/hyperscan/hyperscanmodule.c:321-459 | compiling normalised arrays changes only this database, and keeps its mode and engine |
| Binding.CompileNormalisedTrace | src/hyperscan/hyperscanmodule.c:321-459 | the compile call comes first and only scratch calls follow; with no compile call nothing changes; the stored program is the one the compile produced |
| Binding.CompileNormalisedReady | src/hyperscan/hyperscanmodule.c:408-459 | a successful compile stores a program and ends with a scratch allocated for it |
| Binding.CompileUsing | src/hyperscan/hyperscanmodule.c:197-471 | `Database.compile` changes only this database and keeps its mode and engine |
| Binding.CompileDatabase | src/hyperscan/hyperscanmodule.c:197-471 | with the corrected release, the database set is unchanged; once `elements` is accepted, an existing program is freed before anything else |
| Binding.CompileDatabaseAsWritten | src/hyperscan/hyperscanmodule.c:197-471 | as written, the database set is unchanged; once `elements` is accepted, an existing program is freed first |
| Binding.CompileNormalisedCalls | src/hyperscan/hyperscanmodule.c:321-459 | every engine call is the compile of exactly the normalised arrays in the database's mode and engine, or a scratch call |
| Binding.CompileUsingShape | src/hyperscan/hyperscanmodule.c:230-315 | the previous program is released after the element count and before the expressions are read |
| Binding.CompileArgumentError | src/hyperscan/hyperscanmodule.c:217-238 | a bad `elements` fails before anything is freed or called |
| Binding.CompileReleasesFirst | src/hyperscan/hyperscanmodule.c:248-252 | the release's calls come first and no later call frees a database |
| Binding.CompileNormaliseFailure | src/hyperscan/hyperscanmodule.c:313-315 | a bad expression, id or flag fails with its error after the release, and nothing else happens |
| Binding.CompileRequest | src/hyperscan/hyperscanmodule.c:270-429 | any compile call carries the normalised arrays of the given arguments, in the database's mode and engine |
| Binding.CompiledInHead | src/hyperscan/hyperscanmodule.c:408-429 | the program a run stores is the one its first compile call produced |
| Binding.CompileNormalisedProgram | src/hyperscan/hyperscanmodule.c:321-429 | starting without a program, the stored program is the one the compile call produced |
| Binding.CompileLeavesNoStaleProgram | src/hyperscan/hyperscanmodule.c:248-459 | with the corrected release, the stored program is always the one this call compiled, and none when nothing was compiled |
| Binding.CompileReady | src/hyperscan/hyperscanmodule.c:408-459 | a successful compile stores a program and a live scratch whose handle the engine just allocated for it |
| Binding.StrExpressionFails | src/hyperscan/hyperscanmodule.c:275-279 | a `str` expression is refused with the "expected bytes" TypeError |
| Binding.CompileAsWrittenFreesTwice | src/hyperscan/hyperscanmodule.c:248-252 | as written, a recompile whose arguments fail frees the program but keeps its pointer, and the next compile frees it again |
| Binding.CompileFreesOnce | src/hyperscan/hyperscanmodule.c:248-252 | with the pointer cleared, the same sequence frees the program exactly once |
| Scanning.CollectBuffers | src/hyperscan/hyperscanmodule.c:541-571 | a vectored scan reads its buffers iff every item supports the buffer protocol, and keeps each item's bytes |
| Scanning.Buffers | src/hyperscan/hyperscanmodule.c:536-571 | a non-sequence gives a NULL object; a sequence gives its items' buffers |
| Scanning.VectorLengths | src/hyperscan/hyperscanmodule.c:555-584 | corrected, the length array holds each buffer's byte length |
| Scanning.VectorLengthsAsWritten | src/hyperscan/hyperscanmodule.c:555-584 | as written, 64-bit lengths are read as pairs of 32-bit words: the low word at even positions and the high word at odd ones |
| Scanning.ByteLengths | src/hyperscan/hyperscanmodule.c:555-558 | the `Py_ssize_t` lengths are the buffers' byte counts |
| Scanning.VectorLengthsAsWrittenMisreads | src/hyperscan/hyperscanmodule.c:581-590 | three 9-byte buffers are scanned as lengths 9, 0, 9 instead of 9, 9, 9 |
| Scanning.VectorLengthsAsWrittenShape | src/hyperscan/hyperscanmodule.c:581-590 | for buffers under 4 GiB, every odd position is 0 and even position j holds buffer j/2's length |
| Scanning.ScanRequestUsing | src/hyperscan/hyperscanmodule.c:506-605 | the call uses the database's program, vectored iff the mode is vectored, with flags modulo 2**32; a block scan takes bytes, a vectored one the buffers with the lengths of the chosen reading; the scratch comes from the argument or the database. `ScanRequest` is the corrected reading, each buffer with its own length |
| Scanning.ScanRequestsDifferInLengthsOnly | src/hyperscan/hyperscanmodule.c:555-590 | the code as written and the corrected reading fail alike and make the same engine call, except for the lengths array of a vectored scan |
| Scanning.ScanAsWrittenMisreads | src/hyperscan/hyperscanmodule.c:555-590 | as written, a vectored `scan` of a list of three 9-byte buffers asks the engine for lengths 9, 0, 9; corrected, for 9, 9, 9 |
| Scanning.Conclude | src/hyperscan/hyperscanmodule.c:621-646 | a block scan reports a callback's pending exception first, a vectored one ignores it; a failing status raises its class; success needs a success status and no failed callback |
| Scanning.ScanDatabaseUsing | src/hyperscan/hyperscanmodule.c:506-648 | one engine call exactly when the request is valid, and none otherwise; the callback receives a prefix of the engine's matches, in order, with the context; no callback means no invocation; an engine refusal raises its status class; a successful scan has delivered every match. `ScanDatabase` is the corrected reading and `ScanDatabaseAsWritten` the code as written |
| Scanning.BlockScansAgree | src/hyperscan/hyperscanmodule.c:593-605 | outside vectored mode the code as written and the corrected reading give the same scan |
| Scanning.ScanWithoutCallback | src/hyperscan/hyperscanmodule.c:587-590 | without a callback no handler is passed, nothing is invoked and the scan succeeds iff the engine does |
| Scanning.ScanScratchChoice | src/hyperscan/hyperscanmodule.c:585-636 | an explicit scratch is used with the handle for the database's engine |
| Scanning.ScanWithoutAnyScratchCrashes | src/hyperscan/hyperscanmodule.c:629-636 | scanning a database that has no scratch, without passing one, dereferences `None` |
| Scanning.ScanVectoredChimeraRefused | src/hyperscan/hyperscanmodule.c:573-577 | a vectored Chimera database refuses to scan before any engine call |
| Scanning.ScanVectoredLengths | src/hyperscan/hyperscanmodule.c:555-590 | corrected, each vectored buffer is passed with its own length |
| Scanning.ScanCallbackException | src/hyperscan/hyperscanmodule.c:621-646 | a callback that raises on the first match is called once; a block scan re-raises its exception, a vectored one raises `ScanTerminated` |
| Scanning.ScanTruthyReplyTerminates | src/hyperscan/hyperscanmodule.c:97-103 | a truthy reply stops the scan after one call with `ScanTerminated` |
| Scanning.ScanSeesEveryMatch | src/hyperscan/hyperscanmodule.c:621-646 | a callback that returns `None` sees every match in order, with the context, and the scan succeeds |
| Streams.DatabaseStream | src/hyperscan/hyperscanmodule.c:650-670 | `Database.stream` succeeds iff `flags` is an int; the new stream is live, unopened and stores the database, flags, callback and context |
| Streams.StreamEnter | src/hyperscan/hyperscanmodule.c:901-912 | entering changes only the stream's identifier and returns the stream |
| Streams.StreamEnterOpens | src/hyperscan/hyperscanmodule.c:901-912 | a Hyperscan stream opens once for the program and stores the identifier iff the engine succeeds |
| Streams.StreamEnterChimeraRefused | src/hyperscan/hyperscanmodule.c:901-912 | a Chimera database refuses streams before any engine call |
| Streams.TextBytes | src/hyperscan/hyperscanmodule.c:931-942 | "s#" accepts `str` (as UTF-8) or `bytes` and refuses anything else |
| Streams.OptionalFlags | src/hyperscan/hyperscanmodule.c:926-942 | omitted flags stay unset; given flags must be an int, taken modulo 2**32 |
| Streams.StreamScanRequest | src/hyperscan/hyperscanmodule.c:922-978 | a stream scan needs a Hyperscan database and passes the stream's identifier, the data, the flags, the chosen scratch and a handler iff some callback applies |
| Streams.StreamScan | src/hyperscan/hyperscanmodule.c:922-984 | one engine call exactly when the request is valid; the callback in use (the argument, or else the stored one) receives a prefix of the engine's matches, in order, with the context in use; no callback means no invocation; an engine refusal raises its status class; a successful scan has delivered every match |
| Streams.StreamScanDefaults | src/hyperscan/hyperscanmodule.c:922-984 | with only data given, the text is UTF-8 encoded, no flags are passed, and the stored callback and context are used |
| Streams.StreamScanCallbackException | src/hyperscan/hyperscanmodule.c:971-980 | a callback that raises makes the stream scan raise `ScanTerminated`, not the callback's exception |
| Streams.StreamScanChimeraRefused | src/hyperscan/hyperscanmodule.c:922-984 | scanning a stream of a Chimera database is refused before any engine call |
| Streams.StreamCloseRequest | src/hyperscan/hyperscanmodule.c:853-881 | a scratch argument must be a Scratch; the close passes the stream's identifier and the chosen scratch's handle |
| Streams.StreamClose | src/hyperscan/hyperscanmodule.c:853-885 | a valid close makes exactly one close call, and success needs a valid request |
| Streams.StreamCloseOutcome | src/hyperscan/hyperscanmodule.c:853-885 | a failing status raises its class; on success, a callback's exception becomes a SystemError about a result with an exception |
| Streams.StreamCloseCallbackException | src/hyperscan/hyperscanmodule.c:880-884 | a callback raising at close is called once and reported as that SystemError |
| Streams.StreamCloseTwice | src/hyperscan/hyperscanmodule.c:853-885 | the identifier is never cleared, so a second close passes the same identifier again; that the first close freed the state behind it is not tracked |
| Streams.StreamExit | src/hyperscan/hyperscanmodule.c:914-920 | leaving the context succeeds only after a close call |
| Streams.StreamExitUsesStoredCallback | src/hyperscan/hyperscanmodule.c:914-920 | `__exit__` closes with the database's scratch and the stored callback and context |
| Streams.StreamLength | src/hyperscan/hyperscanmodule.c:887-899 | `len(stream)` asks the engine for the program's stream size and returns it. On Chimera, or on a refusal with a registered status, it returns 0 with an exception set, which Python reports as SystemError. A refusal with an unregistered status is undefined behaviour |
| Streams.SizeOfStreamAsWritten | src/hyperscan/hyperscanmodule.c:1030-1033 | as written, `Stream.size()` never returns a value |
| Streams.SizeOfStreamAsWrittenNeverReturns | src/hyperscan/hyperscanmodule.c:1030-1033 | a nonzero size is used as an object pointer, and a zero size returns NULL without an exception |
| Streams.SizeOfStream | src/hyperscan/hyperscanmodule.c:887-899 | corrected, `size()` refuses Chimera and reports an engine refusal as its status class |
| Streams.SizeOfStreamAgreesWithLength | src/hyperscan/hyperscanmodule.c:1030-1038 | corrected, `size()` succeeds iff `len()` does, with the same value and the same engine call |
| Serialization.Dump | src/hyperscan/hyperscanmodule.c:1221-1245 | `dumpb` needs a Database and refuses Chimera before any call; otherwise it makes one serialize call, returns its bytes when the engine serializes, and raises the status class when the engine refuses |
| Serialization.Load | src/hyperscan/hyperscanmodule.c:1247-1270 | `loadb` needs an int mode and `bytes`; it succeeds iff the engine rebuilds a program, giving a new Hyperscan database with that program and mode and no scratch |
| Serialization.DumpLoadRoundTrip | src/hyperscan/hyperscanmodule.c:1221-1270 | loading what `dumpb` returned passes the same bytes to the engine and keeps the mode and engine |
| Serialization.LoadedDatabaseHasNoScratch | src/hyperscan/hyperscanmodule.c:1247-1270 | a loaded database has no scratch, so scanning it without one dereferences `None` |
| Serialization.DumpUncompiled | src/hyperscan/hyperscanmodule.c:1221-1245 | dumping a never-compiled database passes a NULL program |
| LegacyBinding.LegacyHandleAt | hyperscan/hyperscanmodule.c:255-262 | a scratch slot is usable iff it holds a live Scratch; NULL and `None` are undefined behaviour |
| LegacyBinding.LegacyProgramOf | hyperscan/hyperscanmodule.c:636-648 | the program of a live Database; anything else is undefined behaviour |
| LegacyBinding.LegacySetDatabase | hyperscan/hyperscanmodule.c:636-648 | binding records the database and, on success, holds the handle from one allocation for its program |
| LegacyBinding.LegacySetDatabaseBindsOnce | hyperscan/hyperscanmodule.c:636-648 | a scratch with a handle refuses to be rebound; a fresh one allocates once, and a refusal raises `HyperscanError` |
| LegacyBinding.LegacyNewScratch | hyperscan/hyperscanmodule.c:650-658 | `Scratch()` is empty; `Scratch(db)` is empty and then bound |
| LegacyBinding.LegacyElementsArg | hyperscan/hyperscanmodule.c:131-147 | `elements` must be an int; it is converted to a C `int` and counted as `LegacyElementCount` counts |
| LegacyBinding.LegacyCompileCall | hyperscan/hyperscanmodule.c:185-209 | the legacy compile is always Hyperscan, without ext, with one-short lengths exactly in literal mode |
| LegacyBinding.LegacyPrepareScratch | hyperscan/hyperscanmodule.c:211-217 | preparing the scratch changes only this database's scratch and only allocates |
| LegacyBinding.LegacyCompile | hyperscan/hyperscanmodule.c:120-219 | `Database.compile` changes only this database and keeps its mode |
| LegacyBinding.LegacyCompileNeverFrees | hyperscan/hyperscanmodule.c:120-219 | the legacy compile never frees; bad arguments fail before any call; otherwise the first call compiles the normalised arrays |
| LegacyBinding.LegacyCompileProgram | hyperscan/hyperscanmodule.c:185-209 | a successful compile stores its program; a failed one clears the program and raises `HyperscanError` with the engine's message |
| LegacyBinding.LegacyCompileCreatesScratch | hyperscan/hyperscanmodule.c:211-217 | a database with scratch `None` gets a new scratch allocated for the program; a refusal leaves a NULL scratch and a SystemError |
| LegacyBinding.LegacyCompileReusesScratch | hyperscan/hyperscanmodule.c:211-217 | an existing scratch is reallocated in place for the new program |
| LegacyBinding.LegacyScanRequest | hyperscan/hyperscanmodule.c:240-265 | the legacy scan takes `str` or `bytes`, flags modulo 2**32 and the chosen scratch's handle, and calls Hyperscan |
| LegacyBinding.LegacyConclude | hyperscan/hyperscanmodule.c:267-270 | a failed callback's exception comes first; otherwise the status decides, with `HyperscanError` |
| LegacyBinding.LegacyScan | hyperscan/hyperscanmodule.c:240-272 | one engine call exactly when the request is valid; the callback receives a prefix of the engine's matches, in order, with the context; no callback means no invocation; an engine refusal raises `HyperscanError` for its status; a successful scan has delivered every match |
| LegacyBinding.LegacyScanCallbackException | hyperscan/hyperscanmodule.c:267-270 | a callback raising on the first match is called once and its exception is raised |
| LegacyBinding.LegacyScanHaltRaisesHyperscanError | hyperscan/hyperscanmodule.c:70-88 | a truthy reply, or one whose truth test raises, stops the scan with `HyperscanError` for `SCAN_TERMINATED` |
| LegacyBinding.LegacyScanWithoutCallback | hyperscan/hyperscanmodule.c:255-265 | without a callback nothing is invoked, the database's scratch is used, and the engine's status decides |
| LegacyBinding.LegacyScanNullScratchCrashes | hyperscan/hyperscanmodule.c:255-265 | scanning with a NULL scratch is undefined behaviour and makes no engine call |
| LegacyBinding.LegacyStreamScanRequest | hyperscan/hyperscanmodule.c:484-520 | the legacy stream scan passes the identifier, data, flags, chosen scratch and a handler iff some callback applies; a truthy non-Scratch scratch is refused |
| LegacyBinding.LegacyStreamScan | hyperscan/hyperscanmodule.c:484-529 | one engine call exactly when the request is valid; the callback in use receives a prefix of the engine's matches, in order, with the context in use; no callback means no invocation; an engine refusal raises `HyperscanError` for its status; a successful scan has delivered every match |
| LegacyBinding.LegacyStreamScanDefaults | hyperscan/hyperscanmodule.c:484-529 | with only data, the database's scratch and the stored callback are used, and a halting reply raises `HyperscanError` |
| LegacyBinding.LegacyStreamCloseRequest | hyperscan/hyperscanmodule.c:439-452 | a scratch argument must be a Scratch; without one, the database's scratch is used, and a NULL scratch is undefined behaviour |
| LegacyBinding.LegacyStreamClose | hyperscan/hyperscanmodule.c:439-460 | one close call; a failing status raises `HyperscanError`; on success a callback's exception becomes a SystemError |
| LegacyBinding.LegacyStreamCloseDefaults | hyperscan/hyperscanmodule.c:439-460 | the stored callback and context are used, and a raising callback is called once and reported as a SystemError |
| LegacyBinding.LegacyDumps | hyperscan/hyperscanmodule.c:731-748 | `dumps` needs a Database and returns the engine's serialization as `bytes` |
| LegacyBinding.LegacyLoads | hyperscan/hyperscanmodule.c:750-775 | `loads` accepts only a `bytearray`; a loaded database holds the rebuilt program in block mode |
| LegacyBinding.LegacyLoadsRefusesDumps | hyperscan/hyperscanmodule.c:731-775 | `loads` refuses the `bytes` that `dumps` returns |
| LegacyBinding.LegacyDumpLoadsRoundTrip | hyperscan/hyperscanmodule.c:731-775 | the same bytes as a `bytearray` are rebuilt into a block-mode database with a scratch allocated for it |
| LegacyBinding.LegacyLoadsWithoutScratch | hyperscan/hyperscanmodule.c:750-775 | with a falsy `create_scratch` the loaded database gets no scratch and only the deserialize call is made |
| HsBench.FlagValue | examples/hsbench.py:13-23 | each flag letter maps to one nonzero bit among the nine flag bits |
| HsBench.FlagLettersOwnTheirBits | examples/hsbench.py:13-23 | two letters share a bit iff they are the same letter |
| HsBench.FlagBitsAccepts | examples/hsbench.py:38-40 | the flag letters are accepted iff every letter is in the table; otherwise KeyError names the first unknown letter |
| HsBench.FlagBitsHas | examples/hsbench.py:38-40 | the accumulated flags hold a letter's bit iff the letter occurs, and no bit outside the nine |
| HsBench.FlagsIgnoreOrderAndRepetition | examples/hsbench.py:38-40 | flag strings with the same set of letters are accepted alike and give the same flags |
| HsBench.FlagBitsExamples | examples/hsbench.py:38-40 | no letters give 0, "iL" gives caseless with leftmost start of match, and "ixs" raises KeyError('x') |
| HsBench.LeadingSpaces | examples/hsbench.py:27 | `strip()` removes exactly the leading whitespace |
| HsBench.TrailingStart | examples/hsbench.py:27 | `strip()` removes exactly the trailing whitespace |
| HsBench.Strip | examples/hsbench.py:27 | the stripped line is no longer and neither starts nor ends with whitespace |
| HsBench.StripPadded | examples/hsbench.py:27 | stripping whitespace around an unpadded body gives that body |
| HsBench.Find | examples/hsbench.py:28-29 | `find` gives the first index of the character, or -1 iff it is absent |
| HsBench.RFind | examples/hsbench.py:36 | `rfind` gives the last index of the character, or -1 iff it is absent |
| HsBench.SliceBound | examples/hsbench.py:30 | a slice bound is clamped to the string, and a negative one counts from the end |
| HsBench.Slice | examples/hsbench.py:30-38 | a slice in range is the subsequence, an empty range gives "", and `[:-1]` drops the last character |
| HsBench.PythonInt | examples/hsbench.py:30 | `int(text)` succeeds iff the stripped text is an optionally signed digit string with single underscores, and otherwise raises ValueError naming the text |
| HsBench.ReadSignedDigits | examples/hsbench.py:30 | a digit string reads as its value, and with '-' as its negation |
| HsBench.PythonIntReadsShowNat | examples/hsbench.py:30 | `int(str(n))` is n and `int("-" + str(n))` is -n |
| HsBench.ParseId | examples/hsbench.py:30-33 | an id is a nonnegative `int()`; a negative value raises TypeError "expression ids must be unsigned" |
| HsBench.LineParses | examples/hsbench.py:26-41 | a stripped line whose first ':' is immediately followed by its first '/' gives the id read before the ':', the UTF-8 bytes of the text up to the last '/' and the flags of the letters after it |
| HsBench.HeadLineParses | examples/hsbench.py:26-41 | a line `head:/expression/letters` whose head reads as an id gives that id, the expression's UTF-8 bytes and the letters' flags, even when the expression holds '/' |
| HsBench.FormatLineParses | examples/hsbench.py:26-41 | a formatted line with any surrounding whitespace parses back to its id, expression bytes and flags, under either id rule |
| HsBench.ColonAfterSlashMeansNoId | examples/hsbench.py:28-31 | when the first ':' comes after the first '/', a parsed line has no id |
| HsBench.NegativeIdRefused | examples/hsbench.py:32-33 | a line whose id is negative raises the unsigned-id TypeError |
| HsBench.RulesAgreeWithColon | examples/hsbench.py:28-35 | for any line with a ':' the corrected parser agrees with the parser as written |
| HsBench.NoColonLine | examples/hsbench.py:28-35 | as written, "/abc/i" raises ValueError for `int("/abc/")`; corrected, it parses with no id to `b"abc"` and caseless |
| HsBench.NoColonLineParses | examples/hsbench.py:28-35 | corrected, any line whose stripped text has no ':' has no id: it fails exactly as its flag letters do, and otherwise parses to the UTF-8 text between the first and the last '/' |
| HsBench.NoColonLineAsWrittenReadsId | examples/hsbench.py:28-35 | as written, a line without ':' reads the text before its last character as an id: an invalid literal raises ValueError, and any line that parses has an id |
| Differences.LiteralLengthsDiffer | hyperscan/hyperscanmodule.c:192-198 | for a NUL-free literal the current module passes its length and the legacy one a byte less |
| Differences.ErrorClassesDiffer | hyperscan/hyperscanmodule.c:10-17 | both modules raise with the same "error code N" text; the legacy module uses `HyperscanError`, the current one a subclass per code, with `ScanTerminated` for -3 |
| Differences.ElementsDiffer | hyperscan/hyperscanmodule.c:136-142 | `elements=0` means all expressions in the current module and none in the legacy one; -1 means all in the legacy module and 2**64-1 in the current one |
| Differences.UntestableReplyDiffers | hyperscan/hyperscanmodule.c:70-88 | a reply whose truth test raises is reported by the current module and replaced by a `HyperscanError` in the legacy one |
| Differences.RaisingReplyAgrees | hyperscan/hyperscanmodule.c:267-270 | a callback that raises is reported with its own exception by both modules |
| Differences.LoadersDiffer | hyperscan/hyperscanmodule.c:750-775 | the same `bytes` reach the engine through `loadb` but are refused by the legacy `loads` |

## Left out

- The engines themselves: compilation, matching, scratch and stream internals are the arbitrary functions of `EngineCalls.Engine`. That includes what a refused call writes through its out-pointer. `hs_open_stream` sets the stream to NULL before it validates, and a failed `hs_alloc_scratch` may leave the handle NULL. The model keeps the previous identifier or handle on a refusal (`Streams.StreamEnter`, `LegacyBinding.LegacyPrepareScratch`).
- Memory allocation failures: the `memory_error` paths of `compile`, and the unchecked `PyMem_RawMalloc` results of the vectored scan, where a failed allocation would make the scan write through a NULL pointer. The model's allocations always succeed.
- Reference counting, the GIL release around engine calls, and the deallocation functions are not modelled. This includes `Database_dealloc`, which reads the scratch field as a Scratch even when it holds `None`.
- `Database.info()` and `Database.size()` of both modules: they only forward an engine query.
- Constructing `Stream` directly with `Stream(database, ...)`, whose `Stream_init` type check is not modelled. Streams are created through `Database.stream`.
- Attribute assignment on the objects, the integer constants the module exports, and its type registration.
- The 64-bit `from`/`to` offsets the match handlers pass through "I": matches are modelled with their offsets as given.
- `int()` with non-ASCII digits, and subclasses of `bytes`: the model accepts only ASCII digits and plain `bytes`.
- The `uint32_t` loop counter of the vectored buffer loop: sequences of more than 2**32 buffers are not modelled.
- The `SystemError` cause chain Python attaches to a result returned with an exception set: the model reports only the SystemError.
- The legacy module's `Database.stream`, `Stream.__enter__`/`__exit__`/`__len__`, `Scratch.clone`, `Database()` construction, `info` and `size`: only legacy scratch binding, compile, scan, stream scan and close, and serialization are modelled.
- The legacy compile's leak of the previous program: it never frees it, and the model records only that it makes no free call.
- Lone surrogates in `str.encode('utf-8')`: Dafny characters are Unicode scalar values, so that error cannot arise.
- The rest of `hsbench`: `build_database`, the corpus loading from SQLite, timing and argument parsing.
- Scanning.Buffers: the model's buffers are `bytes` and `bytearray`, and its non-sequences are objects that cannot be iterated, for which `PySequence_Fast` returns NULL. An iterable that is not a sequence (a dict, a set, a generator) is turned into a list by `PySequence_Fast`, and `memoryview` and other buffer exporters pass `PyObject_CheckBuffer`. Neither case is modelled.
- Streams.StreamCloseTwice: engine handles freed by `close` are not tracked. `hs_close_stream` frees the stream state, but the binding keeps the identifier. So a second `close()`, an `__exit__` after an explicit `close()`, or a `scan` after `close()` hands the engine a freed handle, which is a use after free. The model does not report these as `Crashed`: the engine parameter answers as it would for a live stream.
- Callbacks.Drive: a Chimera scan is assumed to stop on the halt value -1 that the handler returns when a reply's truth test raises. Chimera documents only 0, 1 and 2, while Hyperscan documents that any non-zero value stops.
- Callbacks.Drive: states the termination and pending-exception invariants the scan paths use, not every possible shape of a run; the per-match behaviour is in `Walk` and the lemmas after it.
- Binding.CompileUsing: states only the frame (which objects may change); the call order, failures and stored program are stated by the lemmas that follow it.
- Streams.StreamExit: states only that success follows a close call; which close call is stated by `StreamExitUsesStoredCallback`.

## Findings

| source | as written | input that shows it | evidently intended | confidence | as-written member | corrected member |
|---|---|---|---|---|---|---|
| src/hyperscan/hyperscanmodule.c:581-590 | the `Py_ssize_t` length array is passed where `unsigned int` lengths are read, so each 64-bit length is read as two 32-bit words | a vectored scan of three 9-byte buffers scans lengths 9, 0, 9 | each buffer is scanned with its own length | high, not executed | Scanning.ScanAsWrittenMisreads | Scanning.ScanVectoredLengths |
| hyperscan/hyperscanmodule.c:192-198 | the legacy literal compile passes `len(expression) - 1` as each literal's length | `compile([b"foo"], literal=True)` compiles `fo` | the full length of each literal | high, not executed | CompileArgs.LegacyLiteralLengthsFallShort | CompileArgs.LiteralLengthIsLength |
| src/hyperscan/hyperscanmodule.c:1030-1033 | `Stream.size` is registered as `METH_NOARGS` with `Stream_len`, which returns a C `long`, not an object | `stream.size()` on a stream whose size is 1000 | `size()` returns the stream size as `len()` does | high, not executed | Streams.SizeOfStreamAsWrittenNeverReturns | Streams.SizeOfStreamAgreesWithLength |
| examples/hsbench.py:28-33 | a line without ':' has `find(':') == -1`, which is not after the first '/', so an id is parsed from `expr[:-1]` | `process_expression("/abc/i")` raises ValueError | a line without ':' has no id | medium, not executed | HsBench.NoColonLineAsWrittenReadsId | HsBench.NoColonLineParses |
| src/hyperscan/hyperscanmodule.c:248-252 | recompiling frees the previous program without clearing the pointer, so a compile that fails before the engine call leaves a freed pointer that the next compile frees again | `db.compile([b"a"])`, then `db.compile(["a"])` (a `str` fails), then `db.compile([b"b"])` | each program is freed once | high, not executed | Binding.CompileAsWrittenFreesTwice | Binding.CompileFreesOnce |

Further behaviour the model records without calling it a defect:

- The vectored scan path ignores a callback's pending exception.
- A legacy scan reports a callback's own exception only when the call raised, and not when the reply's truth test raised (`Differences.UntestableReplyDiffers`).
- Legacy `loads` refuses what legacy `dumps` returns (`LegacyBinding.LegacyLoadsRefusesDumps`).
- `tests/test_hyperscan.py:138-154` expects the vectored scan results that the misread lengths produce.
