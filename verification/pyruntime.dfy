/**
 * The Python side of the binding: the objects that reach its arguments, the
 * exceptions it can raise, and the few CPython C-API conversions whose
 * behaviour its branches depend on (truthiness, the sequence protocol,
 * integer conversion into C unsigned types, UTF-8 encoding, decimal text).
 *
 * Platform assumptions: LP64 (C `unsigned long` and `size_t` are 64 bits,
 * `unsigned int` is 32 bits).
 */
module PyRuntime {

  type byte = b: int | 0 <= b < 0x100
  type uint32 = x: int | 0 <= x < 0x1_0000_0000
  type uint64 = x: int | 0 <= x < 0x1_0000_0000_0000_0000

  const UINT32_LIMIT: int := 0x1_0000_0000
  const UINT64_LIMIT: int := 0x1_0000_0000_0000_0000

  datatype Option<+T> = None | Some(value: T)

  /** The Python objects that reach the binding's arguments. */
  datatype PyObj =
    | PyNone
    | PyBool(b: bool)
    | PyInt(i: int)
    | PyBytes(bytes: seq<byte>)
    | PyByteArray(content: seq<byte>)
    | PyStr(chars: string)
    | PyList(elems: seq<PyObj>)
    | PyTuple(fields: seq<PyObj>)
    | DatabaseObj(db: nat)
    | ScratchObj(scratch: nat)
      /** A Python function (or other callable), known by an identity only. */
    | PyFunction(fn: nat)
      /** Any other object that is neither a sequence nor iterable (a float, a module, ...), known only by its truth value. */
    | OpaqueObj(truthy: bool)

  /** The exception classes the binding registers at import time. */
  datatype ErrorClass =
    | HyperscanError          // base class, also exported as `error`
    | InvalidError
    | NoMemoryError
    | CompilerError
    | ScanTerminated
    | DatabaseVersionError
    | DatabasePlatformError
    | DatabaseModeError
    | BadAlignError
    | BadAllocationError
    | ScratchInUseError
    | ArchitectureError
    | InsufficientSpaceError
    | UnknownError
    | InternalPCREError

  /** The text of a binding exception. */
  datatype ErrMsg =
    | CodeMsg(code: int)                        // "error code %i"
    | Message(text: string)                     // an engine compile-error message
    | MessageWithId(text: string, id: int)      // "%s (id:%d)"

  /** A Python exception, named by what raises it. */
  datatype PyExc =
    | TypeError(msg: string)            // raised by the binding with its own text
    | RuntimeError(msg: string)         // raised by the binding with its own text
    | ArgumentTypeError                 // TypeError composed by CPython's argument parser
    | IntegerRequired                   // TypeError: PyLong_AsUnsignedLong on a non-int
    | ExpectedBytes                     // TypeError: PyBytes_AsString on a non-bytes
    | NotCallable                       // TypeError: calling an object that is not callable
    | NegativeToUnsigned                // OverflowError: negative int to unsigned C type
    | TooLargeForUnsigned               // OverflowError: int wider than the C type
    | IndexOutOfRange                   // IndexError from a sequence's item slot
    | BadInternalCall                   // SystemError: C-API function handed NULL
    | NullWithoutException              // SystemError: C function returned NULL, nothing raised
    | ResultWithException               // SystemError: C function returned a value with an exception set
    | InvalidIntLiteral(text: string)   // ValueError from int(text)
    | KeyError(key: char)
    | TypeErrorPy(text: string)         // TypeError raised by Python code
    | EngineExc(cls: ErrorClass, detail: ErrMsg)
    | UserException(tag: nat)           // raised by the caller's own code (a callback, a __bool__)

  /** Undefined behaviour of the C code: a read through an object of the wrong type or NULL. */
  datatype Fault =
    | NoneAsScratch              // Py_None read as a Scratch object
    | NullScratch                // a NULL Scratch pointer dereferenced
    | NoneAsDatabase             // Py_None read as a Database object
    | NotADatabase               // some other object read as a Database object
    | NotAScratch                // some other object read as a Scratch object
    | NullObject                 // a NULL object handed to a C-API function that does not check
    | NoSequenceProtocol         // PySequence_ITEM / _Fast on an object without one
    | NegativeArrayLength        // a variable-length array declared with a negative size
    | DanglingDatabase           // a released engine database handed to the engine again
    | IntegerAsObject            // a C long returned where a PyObject pointer is expected
    | UnregisteredErrorSlot(slot: nat)
    | ErrorSlotOutOfRange(slot: nat)

  datatype Failure = Raise(exc: PyExc) | Crash(fault: Fault)

  /** What a call into the binding ends with. */
  datatype Outcome<+T> = Ok(value: T) | Fail(failure: Failure) {
    predicate IsFailure() { Fail? }
    function PropagateFailure<U>(): Outcome<U>
      requires Fail?
    {
      Fail(failure)
    }
    function Extract(): T
      requires Ok?
    {
      value
    }
  }

  function Raised<T>(e: PyExc): Outcome<T> { Fail(Raise(e)) }
  function Crashed<T>(f: Fault): Outcome<T> { Fail(Crash(f)) }

  /** Assignment of a C unsigned value to a `uint32_t`: the low 32 bits survive. */
  function ToUint32(v: int): (r: uint32)
    ensures 0 <= v < UINT32_LIMIT ==> r == v
    ensures (v - r) % UINT32_LIMIT == 0
  {
    v % UINT32_LIMIT
  }

  /** Conversion of a C unsigned value to a `uint64_t` / `size_t`: the low 64 bits survive. */
  function ToUint64(v: int): (r: uint64)
    ensures 0 <= v < UINT64_LIMIT ==> r == v
    ensures (v - r) % UINT64_LIMIT == 0
  {
    v % UINT64_LIMIT
  }

  /** PyObject_IsTrue for the objects that reach the binding. */
  predicate IsTrue(o: PyObj) {
    match o
    case PyNone => false
    case PyBool(b) => b
    case PyInt(i) => i != 0
    case PyBytes(b) => |b| > 0
    case PyByteArray(b) => |b| > 0
    case PyStr(s) => |s| > 0
    case PyList(xs) => |xs| > 0
    case PyTuple(xs) => |xs| > 0
    case DatabaseObj(_) => true
    case ScratchObj(_) => true
    case PyFunction(_) => true
    case OpaqueObj(t) => t
  }

  /** PySequence_Check: the object implements the sequence protocol. */
  predicate IsSequence(o: PyObj) {
    o.PyList? || o.PyTuple? || o.PyStr? || o.PyBytes? || o.PyByteArray?
  }

  predicate IsInt(o: PyObj) { o.PyInt? || o.PyBool? }

  /** The value of an int (bool is an int subclass). */
  function IntValue(o: PyObj): int
    requires IsInt(o)
  {
    if o.PyBool? then (if o.b then 1 else 0) else o.i
  }

  /** The items a sequence yields: str yields one-character strs, bytes yield ints. */
  function Items(o: PyObj): (xs: seq<PyObj>)
    requires IsSequence(o)
    ensures o.PyList? ==> xs == o.elems
    ensures o.PyTuple? ==> xs == o.fields
    ensures o.PyStr? ==> |xs| == |o.chars| && forall k :: 0 <= k < |xs| ==> xs[k] == PyStr([o.chars[k]])
    ensures o.PyBytes? ==> |xs| == |o.bytes| && forall k :: 0 <= k < |xs| ==> xs[k] == PyInt(o.bytes[k])
    ensures o.PyByteArray? ==> |xs| == |o.content| && forall k :: 0 <= k < |xs| ==> xs[k] == PyInt(o.content[k])
  {
    match o
    case PyList(xs) => xs
    case PyTuple(xs) => xs
    case PyStr(s) => seq(|s|, k requires 0 <= k < |s| => PyStr([s[k]]))
    case PyBytes(b) => seq(|b|, k requires 0 <= k < |b| => PyInt(b[k]))
    case PyByteArray(b) => seq(|b|, k requires 0 <= k < |b| => PyInt(b[k]))
  }

  /** len() of a sequence. */
  function Length(o: PyObj): nat
    requires IsSequence(o)
  {
    |Items(o)|
  }

  /** What PySequence_ITEM(o, i) hands back. */
  datatype Fetched = Got(item: PyObj) | OutOfRange | NoProtocol

  function SeqItem(o: PyObj, i: nat): (f: Fetched)
    ensures f.NoProtocol? <==> !IsSequence(o)
    ensures f.Got? <==> IsSequence(o) && i < Length(o)
    ensures f.Got? ==> f.item == Items(o)[i]
  {
    if !IsSequence(o) then NoProtocol
    else if i < |Items(o)| then Got(Items(o)[i])
    else OutOfRange
  }

  /**
   * PyLong_AsUnsignedLong: an int in [0, 2^64) converts; a negative or
   * wider int raises OverflowError; anything that is not an int raises
   * TypeError. A NULL argument (an item that could not be fetched) is a
   * bad internal call.
   */
  function AsUnsignedLong(o: PyObj): (r: Outcome<uint64>)
    ensures r.Ok? <==> IsInt(o) && 0 <= IntValue(o) < UINT64_LIMIT
    ensures r.Ok? ==> r.value == IntValue(o)
    ensures !IsInt(o) ==> r == Raised(IntegerRequired)
    ensures IsInt(o) && IntValue(o) < 0 ==> r == Raised(NegativeToUnsigned)
  {
    if !IsInt(o) then Raised(IntegerRequired)
    else if IntValue(o) < 0 then Raised(NegativeToUnsigned)
    else if IntValue(o) >= UINT64_LIMIT then Raised(TooLargeForUnsigned)
    else Ok(IntValue(o))
  }

  /**
   * The "K" argument format (PyLong_AsUnsignedLongLongMask): any int is
   * accepted and reduced modulo 2^64 without an overflow check.
   */
  function AsMask64(o: PyObj): (r: Outcome<uint64>)
    ensures r.Ok? <==> IsInt(o)
    ensures r.Ok? ==> r.value == ToUint64(IntValue(o))
    ensures !IsInt(o) ==> r == Raised(ArgumentTypeError)
  {
    if IsInt(o) then Ok(ToUint64(IntValue(o))) else Raised(ArgumentTypeError)
  }

  /** The "I" argument format: any int, reduced modulo 2^32 without an overflow check. */
  function AsMask32(o: PyObj): (r: Outcome<uint32>)
    ensures r.Ok? <==> IsInt(o)
    ensures r.Ok? ==> r.value == ToUint32(IntValue(o))
    ensures !IsInt(o) ==> r == Raised(ArgumentTypeError)
  {
    if IsInt(o) then Ok(ToUint32(IntValue(o))) else Raised(ArgumentTypeError)
  }

  // ---------------------------------------------------------------------
  // Decimal text
  // ---------------------------------------------------------------------

  predicate IsDigit(c: char) { '0' <= c <= '9' }

  function DigitValue(c: char): nat
    requires IsDigit(c)
  {
    (c as int) - ('0' as int)
  }

  function DigitChar(d: nat): (c: char)
    requires d < 10
    ensures IsDigit(c) && DigitValue(c) == d
  {
    (('0' as int) + d) as char
  }

  /** The value of a non-empty run of decimal digits. */
  function DigitsValue(s: string): nat
    requires forall k :: 0 <= k < |s| ==> IsDigit(s[k])
  {
    if |s| == 0 then 0 else 10 * DigitsValue(s[..|s| - 1]) + DigitValue(s[|s| - 1])
  }

  /** str(n) for a non-negative int. */
  function ShowNat(n: nat): (s: string)
    ensures |s| >= 1
    ensures forall k :: 0 <= k < |s| ==> IsDigit(s[k])
  {
    if n < 10 then [DigitChar(n)] else ShowNat(n / 10) + [DigitChar(n % 10)]
  }

  /** Reading the decimal text of n gives n back. */
  lemma {:induction false} ShowNatRoundTrip(n: nat)
    ensures DigitsValue(ShowNat(n)) == n
  {
    if n >= 10 {
      var s := ShowNat(n);
      assert s[..|s| - 1] == ShowNat(n / 10);
      ShowNatRoundTrip(n / 10);
    }
  }

  // ---------------------------------------------------------------------
  // UTF-8
  // ---------------------------------------------------------------------

  /** The UTF-8 encoding of one Unicode scalar value. */
  function EncodeChar(c: char): (bs: seq<byte>)
    ensures 1 <= |bs| <= 4
    ensures |bs| == 1 <==> c as int < 0x80
    ensures |bs| == 1 ==> bs[0] == c as int
    ensures forall k :: 1 <= k < |bs| ==> 0x80 <= bs[k] < 0xC0
    ensures |bs| > 1 ==> bs[0] >= 0xC0
  {
    var n := c as int;
    if n < 0x80 then [n]
    else if n < 0x800 then [0xC0 + n / 0x40, 0x80 + n % 0x40]
    else if n < 0x1_0000 then [0xE0 + n / 0x1000, 0x80 + (n / 0x40) % 0x40, 0x80 + n % 0x40]
    else [0xF0 + n / 0x4_0000, 0x80 + (n / 0x1000) % 0x40, 0x80 + (n / 0x40) % 0x40, 0x80 + n % 0x40]
  }

  /** The scalar value a well-formed UTF-8 sequence of one character stands for. */
  function DecodeChar(bs: seq<byte>): int
    requires 1 <= |bs| <= 4
  {
    if |bs| == 1 then bs[0]
    else if |bs| == 2 then (bs[0] as int - 0xC0) * 0x40 + (bs[1] as int - 0x80)
    else if |bs| == 3 then
      (bs[0] as int - 0xE0) * 0x1000 + (bs[1] as int - 0x80) * 0x40 + (bs[2] as int - 0x80)
    else
      (bs[0] as int - 0xF0) * 0x4_0000 + (bs[1] as int - 0x80) * 0x1000
      + (bs[2] as int - 0x80) * 0x40 + (bs[3] as int - 0x80)
  }

  /** Decoding the encoding of a character gives its scalar value back. */
  lemma EncodeCharRoundTrip(c: char)
    ensures DecodeChar(EncodeChar(c)) == c as int
  {
    var n := c as int;
    var lo, mid, hi := n % 0x40, (n / 0x40) % 0x40, (n / 0x1000) % 0x40;
    assert n == (n / 0x40) * 0x40 + lo;
    assert n / 0x40 == (n / 0x1000) * 0x40 + mid;
    assert n / 0x1000 == (n / 0x4_0000) * 0x40 + hi;
  }

  /** str.encode('utf8'). */
  function Utf8(s: string): (bs: seq<byte>)
    ensures |s| <= |bs| <= 4 * |s|
    ensures (forall k :: 0 <= k < |s| ==> s[k] as int < 0x80) ==> |bs| == |s|
  {
    if |s| == 0 then [] else Utf8(s[..|s| - 1]) + EncodeChar(s[|s| - 1])
  }

  /** Encoding is character by character: the encoding of a concatenation is the concatenation of the encodings. */
  lemma {:induction false} Utf8Concat(s: string, t: string)
    ensures Utf8(s + t) == Utf8(s) + Utf8(t)
    decreases |t|
  {
    if |t| == 0 {
      assert s + t == s;
    } else {
      var u, c := t[..|t| - 1], t[|t| - 1];
      assert (s + t)[..|s + t| - 1] == s + u;
      assert Utf8(s + t) == Utf8(s + u) + EncodeChar(c);
      Utf8Concat(s, u);
      assert Utf8(t) == Utf8(u) + EncodeChar(c);
    }
  }

  /** A single character encodes to its own UTF-8 bytes. */
  lemma Utf8Char(c: char)
    ensures Utf8([c]) == EncodeChar(c)
  {
    assert [c][..0] == [];
  }

  /** An ASCII string encodes to its own code points. */
  lemma {:induction false} Utf8Ascii(s: string)
    requires forall k :: 0 <= k < |s| ==> s[k] as int < 0x80
    ensures forall k :: 0 <= k < |s| ==> Utf8(s)[k] == s[k] as int
  {
    if |s| > 0 {
      Utf8Ascii(s[..|s| - 1]);
    }
  }
}
