/**
 * Compile-argument normalisation: how `Database.compile` turns its Python
 * arguments into the parallel arrays the engine's multi-pattern compilers
 * receive (N, expressions[i], ids[i], flags[i], literal lengths, extended
 * parameter records), in the current module and in the legacy one.
 *
 * The per-expression loop is the same in both modules: for i = 0, 1, ...
 * it fetches the expression, then the id, then the flag, and stops at the
 * first Python error, which becomes the call's error.
 */
module CompileArgs {
  import opened PyRuntime

  /** The parallel arrays handed to the engine. */
  datatype Request = Request(expressions: seq<seq<byte>>, ids: seq<uint32>, flags: seq<uint32>)

  /** One expression's entries. */
  datatype Item = Item(expression: seq<byte>, id: uint32, flag: uint32)

  /**
   * The flag every expression gets when `flags` is not a sequence: None
   * is 0; otherwise PyLong_AsUnsignedLong's value cut to 32 bits, where a
   * failed conversion returns (unsigned long)-1 and its error is cleared.
   */
  function GlobalFlag(flags: PyObj): (g: uint32)
    ensures flags == PyNone ==> g == 0
    ensures flags != PyNone && AsUnsignedLong(flags).Ok? ==> g == ToUint32(IntValue(flags))
    ensures flags != PyNone && AsUnsignedLong(flags).Fail? ==> g == 0xFFFF_FFFF
  {
    if flags == PyNone then 0
    else match AsUnsignedLong(flags)
      case Ok(v) => ToUint32(v)
      case Fail(_) => ToUint32(UINT64_LIMIT - 1)
  }

  /** `expressions[i]` through PySequence_ITEM and PyBytes_AsString. */
  function ExpressionAt(expressions: PyObj, i: nat): (r: Outcome<seq<byte>>)
    ensures r.Ok? <==> IsSequence(expressions) && i < Length(expressions) && Items(expressions)[i].PyBytes?
    ensures r.Ok? ==> r.value == Items(expressions)[i].bytes
    ensures !IsSequence(expressions) ==> r == Crashed(NoSequenceProtocol)
    ensures IsSequence(expressions) && i >= Length(expressions) ==> r == Crashed(NullObject)
  {
    match SeqItem(expressions, i)
    case NoProtocol => Crashed(NoSequenceProtocol)
    case OutOfRange => Crashed(NullObject)   // PyBytes_AsString(NULL) reads through NULL
    case Got(o) => if o.PyBytes? then Ok(o.bytes) else Raised(ExpectedBytes)
  }

  /** `ids[i]` when `ids` is truthy, otherwise i; either way cut to 32 bits. */
  function IdAt(ids: PyObj, i: nat): (r: Outcome<uint32>)
    ensures !IsTrue(ids) ==> r == Ok(ToUint32(i))
    ensures IsTrue(ids) ==> (r.Ok? <==> IsSequence(ids) && i < Length(ids) && AsUnsignedLong(Items(ids)[i]).Ok?)
    ensures IsTrue(ids) && r.Ok? ==> r.value == ToUint32(IntValue(Items(ids)[i]))
    ensures IsTrue(ids) && IsSequence(ids) && i >= Length(ids) ==> r == Raised(BadInternalCall)
  {
    if !IsTrue(ids) then Ok(ToUint32(i))
    else match SeqItem(ids, i)
      case NoProtocol => Crashed(NoSequenceProtocol)
      case OutOfRange => Raised(BadInternalCall)   // PyLong_AsUnsignedLong(NULL)
      case Got(o) =>
        var v :- AsUnsignedLong(o);
        Ok(ToUint32(v))
  }

  /** `flags[i]` when `flags` is a sequence, otherwise the global flag. */
  function FlagAt(flags: PyObj, i: nat): (r: Outcome<uint32>)
    ensures !IsSequence(flags) ==> r == Ok(GlobalFlag(flags))
    ensures IsSequence(flags) ==> (r.Ok? <==> i < Length(flags) && AsUnsignedLong(Items(flags)[i]).Ok?)
    ensures IsSequence(flags) && r.Ok? ==> r.value == ToUint32(IntValue(Items(flags)[i]))
    ensures IsSequence(flags) && i >= Length(flags) ==> r == Raised(IndexOutOfRange)
  {
    if !IsSequence(flags) then Ok(GlobalFlag(flags))
    else match SeqItem(flags, i)
      case Got(o) =>
        var v :- AsUnsignedLong(o);
        Ok(ToUint32(v))
      case _ => Raised(IndexOutOfRange)
  }

  /** One pass of the loop body: expression, then id, then flag. */
  function ItemAt(expressions: PyObj, ids: PyObj, flags: PyObj, i: nat): (r: Outcome<Item>)
    ensures r.Ok? <==> ExpressionAt(expressions, i).Ok? && IdAt(ids, i).Ok? && FlagAt(flags, i).Ok?
    ensures r.Ok? ==> r.value == Item(ExpressionAt(expressions, i).value, IdAt(ids, i).value, FlagAt(flags, i).value)
    ensures ExpressionAt(expressions, i).Fail? ==> r == ExpressionAt(expressions, i).PropagateFailure()
  {
    var e :- ExpressionAt(expressions, i);
    var id :- IdAt(ids, i);
    var f :- FlagAt(flags, i);
    Ok(Item(e, id, f))
  }

  /** Appends one item's entries to the arrays. */
  function Append(req: Request, item: Item): (r: Request)
    ensures r.expressions == req.expressions + [item.expression]
    ensures r.ids == req.ids + [item.id] && r.flags == req.flags + [item.flag]
  {
    Request(req.expressions + [item.expression], req.ids + [item.id], req.flags + [item.flag])
  }

  /**
   * Gathering fetched items in order: the first failure is the result,
   * otherwise the items' entries side by side.
   */
  function Collect(items: seq<Outcome<Item>>): (r: Outcome<Request>)
    ensures r.Ok? <==> forall i :: 0 <= i < |items| ==> items[i].Ok?
    ensures r.Ok? ==> |r.value.expressions| == |items| && |r.value.ids| == |items| && |r.value.flags| == |items|
    ensures r.Ok? ==> forall i :: 0 <= i < |items| ==>
      items[i] == Ok(Item(r.value.expressions[i], r.value.ids[i], r.value.flags[i]))
  {
    if |items| == 0 then Ok(Request([], [], []))
    else
      var prefix :- Collect(items[..|items| - 1]);
      var item :- items[|items| - 1];
      Ok(Append(prefix, item))
  }

  /** The first failing item decides the result, whatever follows it. */
  lemma {:induction false} CollectFailsAtFirstBadItem(items: seq<Outcome<Item>>, i: nat)
    requires i < |items| && items[i].Fail?
    requires forall j :: 0 <= j < i ==> items[j].Ok?
    ensures Collect(items) == Fail(items[i].failure)
  {
    if |items| == i + 1 {
      assert Collect(items[..i]).Ok?;
    } else {
      var init := items[..|items| - 1];
      assert init[i] == items[i];
      assert forall j :: 0 <= j < i ==> init[j] == items[j];
      CollectFailsAtFirstBadItem(init, i);
    }
  }

  /**
   * One more pass over a successful prefix: a failing item is the result
   * of the whole collection, any other extends the arrays by its entries.
   */
  lemma CollectStep(items: seq<Outcome<Item>>, i: nat, acc: Request)
    requires i < |items| && Collect(items[..i]) == Ok(acc)
    ensures items[i].Fail? ==> Collect(items) == Fail(items[i].failure)
    ensures items[i].Ok? ==> Collect(items[..i + 1]) == Ok(Append(acc, items[i].value))
  {
    if items[i].Fail? {
      forall j | 0 <= j < i
        ensures items[j].Ok?
      {
        assert items[..i][j] == items[j];
      }
      CollectFailsAtFirstBadItem(items, i);
    } else {
      var pre := items[..i + 1];
      assert pre[..|pre| - 1] == items[..i] && pre[|pre| - 1] == items[i];
    }
  }

  /** The items the loop over i < n fetches. */
  function Fetch(expressions: PyObj, ids: PyObj, flags: PyObj, n: nat): (items: seq<Outcome<Item>>)
    ensures |items| == n
    ensures forall i :: 0 <= i < n ==> items[i] == ItemAt(expressions, ids, flags, i)
  {
    seq(n, i requires 0 <= i < n => ItemAt(expressions, ids, flags, i))
  }

  /**
   * The loop over i < n: every item is fetched in order and the first
   * failing one decides the result.
   */
  function Normalise(expressions: PyObj, ids: PyObj, flags: PyObj, n: nat): Outcome<Request> {
    Collect(Fetch(expressions, ids, flags, n))
  }

  /**
   * The C loop over i < N with its early `break`: item i is fetched on
   * pass i, and the first failure leaves the loop with that error.
   */
  method CollectLoop(items: seq<Outcome<Item>>) returns (r: Outcome<Request>)
    ensures r == Collect(items)
  {
    var acc := Request([], [], []);
    var i := 0;
    while i < |items|
      invariant 0 <= i <= |items|
      invariant Collect(items[..i]) == Ok(acc)
    {
      CollectStep(items, i, acc);
      if items[i].Fail? {
        return Fail(items[i].failure);
      }
      acc := Append(acc, items[i].value);
      i := i + 1;
    }
    assert items[..i] == items;
    return Ok(acc);
  }

  /**
   * What the normalised arrays hold: expression i is the bytes of
   * `expressions[i]`; id i is the caller's `ids[i]` when `ids` is truthy
   * and i otherwise; flag i is `flags[i]` when `flags` is a sequence and
   * the single value (None meaning 0) otherwise.
   */
  lemma NormalisedContents(expressions: PyObj, ids: PyObj, flags: PyObj, n: nat, i: nat)
    requires Normalise(expressions, ids, flags, n).Ok?
    requires i < n
    ensures IsSequence(expressions) && i < Length(expressions) && Items(expressions)[i].PyBytes?
    ensures IsTrue(ids) ==> IsSequence(ids) && i < Length(ids) && IsInt(Items(ids)[i])
    ensures IsSequence(flags) ==> i < Length(flags) && IsInt(Items(flags)[i])
    ensures var req := Normalise(expressions, ids, flags, n).value;
      && req.expressions[i] == Items(expressions)[i].bytes
      && req.ids[i] == (if IsTrue(ids) then ToUint32(IntValue(Items(ids)[i])) else ToUint32(i))
      && req.flags[i] == (if IsSequence(flags) then ToUint32(IntValue(Items(flags)[i])) else GlobalFlag(flags))
      && (flags == PyNone ==> req.flags[i] == 0)
  {
    assert Fetch(expressions, ids, flags, n)[i] == ItemAt(expressions, ids, flags, i);
  }

  /** N in the current module: `elements` when non-zero, otherwise len(expressions). */
  function ElementCount(expressions: PyObj, elements: uint64): (r: Outcome<nat>)
    ensures elements != 0 ==> r == Ok(elements)
    ensures elements == 0 && IsSequence(expressions) ==> r == Ok(Length(expressions))
    ensures elements == 0 && !IsSequence(expressions) ==> r == Raised(TypeError("expressions must be a sequence"))
  {
    if elements != 0 then Ok(elements)
    else if IsSequence(expressions) then Ok(Length(expressions))
    else Raised(TypeError("expressions must be a sequence"))
  }

  /** A value stored into a C `int`: the low 32 bits, read as two's complement. */
  function CInt(v: int): (r: int)
    ensures -0x8000_0000 <= r < 0x8000_0000
    ensures -0x8000_0000 <= v < 0x8000_0000 ==> r == v
  {
    ToUint32(v + 0x8000_0000) - 0x8000_0000
  }

  /**
   * N in the legacy module, where `elements` is a C int defaulting to -1:
   * -1 asks for len(expressions) (a length that reads back as -1 is
   * taken for failure); a negative count sizes the stack arrays
   * negatively.
   */
  function LegacyElementCount(expressions: PyObj, elements: int): (r: Outcome<nat>)
    requires -0x8000_0000 <= elements < 0x8000_0000
    ensures elements >= 0 ==> r == Ok(elements)
    ensures elements == -1 && !IsSequence(expressions) ==> r == Raised(TypeError("expressions must be a sequence"))
    ensures elements == -1 && IsSequence(expressions) && Length(expressions) < 0x8000_0000 ==> r == Ok(Length(expressions))
    ensures elements < -1 ==> r == Crashed(NegativeArrayLength)
  {
    var e := if elements != -1 then elements else if IsSequence(expressions) then CInt(Length(expressions)) else -1;
    if e == -1 then Raised(TypeError("expressions must be a sequence"))
    else if e < 0 then Crashed(NegativeArrayLength)
    else Ok(e)
  }

  /** strlen over a bytes object's buffer, which always ends in a NUL. */
  function CStrLen(bs: seq<byte>): (n: nat)
    ensures n <= |bs|
    ensures forall j :: 0 <= j < n ==> bs[j] != 0
    ensures n < |bs| ==> bs[n] == 0
  {
    if |bs| == 0 || bs[0] == 0 then 0 else 1 + CStrLen(bs[1..])
  }

  /** The literal lengths of the current module: strlen of every expression. */
  function LiteralLengths(exprs: seq<seq<byte>>): (lens: seq<nat>)
    ensures |lens| == |exprs|
    ensures forall i :: 0 <= i < |exprs| ==> lens[i] == CStrLen(exprs[i]) <= |exprs[i]|
  {
    seq(|exprs|, i requires 0 <= i < |exprs| => CStrLen(exprs[i]))
  }

  /**
   * A literal without an embedded NUL is passed with its full length, so
   * its match ends at len(expression).
   */
  lemma LiteralLengthIsLength(exprs: seq<seq<byte>>, i: nat)
    requires i < |exprs|
    requires forall j :: 0 <= j < |exprs[i]| ==> exprs[i][j] != 0
    ensures LiteralLengths(exprs)[i] == |exprs[i]|
  {
  }

  /**
   * The literal lengths of the legacy module as written: len(expr) - 1,
   * stored into a size_t.
   */
  function LegacyLiteralLengths(exprs: seq<seq<byte>>): (lens: seq<uint64>)
    ensures |lens| == |exprs|
    ensures forall i :: 0 <= i < |exprs| && 0 < |exprs[i]| <= UINT64_LIMIT ==> lens[i] == |exprs[i]| - 1
    ensures forall i :: 0 <= i < |exprs| && |exprs[i]| == 0 ==> lens[i] == UINT64_LIMIT - 1
  {
    seq(|exprs|, i requires 0 <= i < |exprs| => ToUint64(|exprs[i]| - 1))
  }

  /**
   * The legacy lengths fall one byte short: for b"foo" the engine is told
   * the literal is "fo".
   */
  lemma LegacyLiteralLengthsFallShort()
    ensures LegacyLiteralLengths([[0x66, 0x6F, 0x6F]]) == [2]
    ensures LiteralLengths([[0x66, 0x6F, 0x6F]]) == [3]
  {
    assert CStrLen([0x66, 0x6F, 0x6F]) == 3 by {
      assert CStrLen([0x6F]) == 1;
      assert [0x6F, 0x6F][1..] == [0x6F];
      assert CStrLen([0x6F, 0x6F]) == 2;
      assert [0x66, 0x6F, 0x6F][1..] == [0x6F, 0x6F];
    }
  }

  /** Every NUL-free, non-empty literal is one byte longer than the legacy module says. */
  lemma LegacyLiteralOffByOne(exprs: seq<seq<byte>>, i: nat)
    requires i < |exprs| && 0 < |exprs[i]| <= UINT64_LIMIT
    requires forall j :: 0 <= j < |exprs[i]| ==> exprs[i][j] != 0
    ensures LegacyLiteralLengths(exprs)[i] as int + 1 == LiteralLengths(exprs)[i]
  {
    LiteralLengthIsLength(exprs, i);
  }

  // ---------------------------------------------------------------------
  // Extended parameters
  // ---------------------------------------------------------------------

  /** `struct hs_expr_ext`, in the order the binding fills it. */
  datatype ExtRecord = ExtRecord(
    flags: uint64, minOffset: uint64, maxOffset: uint64, minLength: uint64,
    editDistance: uint32, hammingDistance: uint32)

  /** The field names of `ExpressionExt`, in declaration order. */
  const ExtFieldNames: seq<string> :=
    ["flags", "min_offset", "max_offset", "min_length", "edit_distance", "hamming_distance"]

  /**
   * `hyperscan.ExpressionExt(flags, min_offset=0, max_offset=0,
   * min_length=0, edit_distance=0, hamming_distance=0)`: a named tuple
   * whose `flags` has no default. A named tuple checks no field types.
   */
  function ExpressionExt(flags: PyObj, minOffset: PyObj := PyInt(0), maxOffset: PyObj := PyInt(0),
                         minLength: PyObj := PyInt(0), editDistance: PyObj := PyInt(0),
                         hammingDistance: PyObj := PyInt(0)): (t: PyObj)
    ensures t.PyTuple? && |t.fields| == |ExtFieldNames|
    ensures t.fields[0] == flags && t.fields[1] == minOffset && t.fields[2] == maxOffset
    ensures t.fields[3] == minLength && t.fields[4] == editDistance && t.fields[5] == hammingDistance
  {
    PyTuple([flags, minOffset, maxOffset, minLength, editDistance, hammingDistance])
  }

  /**
   * PyArg_ParseTuple(item, "KKKKII"): a tuple of exactly six ints, the
   * first four reduced to 64 bits and the last two to 32 bits; any other
   * object is reported as "invalid ext info".
   */
  function ParseExt(item: PyObj): (r: Outcome<ExtRecord>)
    ensures r.Ok? <==> item.PyTuple? && |item.fields| == 6 && forall k :: 0 <= k < 6 ==> IsInt(item.fields[k])
    ensures r.Fail? ==> r == Raised(TypeError("invalid ext info"))
    ensures r.Ok? ==> r.value == ExtRecord(
      ToUint64(IntValue(item.fields[0])), ToUint64(IntValue(item.fields[1])),
      ToUint64(IntValue(item.fields[2])), ToUint64(IntValue(item.fields[3])),
      ToUint32(IntValue(item.fields[4])), ToUint32(IntValue(item.fields[5])))
  {
    if !(item.PyTuple? && |item.fields| == 6) then Raised(TypeError("invalid ext info"))
    else
      var f := item.fields;
      match (AsMask64(f[0]), AsMask64(f[1]), AsMask64(f[2]), AsMask64(f[3]), AsMask32(f[4]), AsMask32(f[5]))
      case (Ok(a), Ok(b), Ok(c), Ok(d), Ok(e), Ok(h)) => Ok(ExtRecord(a, b, c, d, e, h))
      case _ => Raised(TypeError("invalid ext info"))
  }

  /**
   * An `ExpressionExt` built with only some keywords parses into the
   * record with the given values in their places and 0 everywhere else:
   * the named tuple's field order is the C parse order.
   */
  lemma ExpressionExtParses(flags: int, minOffset: int, maxOffset: int, minLength: int, editDistance: int, hammingDistance: int)
    ensures ParseExt(ExpressionExt(PyInt(flags), PyInt(minOffset), PyInt(maxOffset), PyInt(minLength),
                                   PyInt(editDistance), PyInt(hammingDistance)))
      == Ok(ExtRecord(ToUint64(flags), ToUint64(minOffset), ToUint64(maxOffset), ToUint64(minLength),
                      ToUint32(editDistance), ToUint32(hammingDistance)))
    ensures ExpressionExt(PyInt(flags), minOffset := PyInt(minOffset))
      == PyTuple([PyInt(flags), PyInt(minOffset), PyInt(0), PyInt(0), PyInt(0), PyInt(0)])
    ensures ParseExt(ExpressionExt(PyInt(flags), minOffset := PyInt(minOffset)))
      == Ok(ExtRecord(ToUint64(flags), ToUint64(minOffset), 0, 0, 0, 0))
  {
  }

  /** The message for an ext item that cannot be fetched. */
  function ExtItemMissing(i: nat): PyExc {
    RuntimeError("failed to get ext item at index: " + ShowNat(i))
  }

  /**
   * The ext records for i < n: PySequence_GetItem(ext, i), whose failure
   * becomes a RuntimeError naming i, then the "KKKKII" parse.
   */
  function ExtRecords(ext: PyObj, n: nat): (r: Outcome<seq<ExtRecord>>)
    ensures r.Ok? ==> |r.value| == n
    ensures r.Ok? ==> forall i :: 0 <= i < n ==> SeqItem(ext, i).Got? && ParseExt(SeqItem(ext, i).item) == Ok(r.value[i])
    ensures r.Ok? <==> forall i :: 0 <= i < n ==> SeqItem(ext, i).Got? && ParseExt(SeqItem(ext, i).item).Ok?
    ensures n > 0 && !SeqItem(ext, 0).Got? ==> r == Raised(ExtItemMissing(0))
  {
    if n == 0 then Ok([])
    else
      var prefix :- ExtRecords(ext, n - 1);
      match SeqItem(ext, n - 1)
      case Got(o) =>
        var rec :- ParseExt(o);
        Ok(prefix + [rec])
      case _ => Raised(ExtItemMissing(n - 1))
  }

  /**
   * The records are read in index order, so the first index whose item
   * cannot be fetched or parsed decides the error: a RuntimeError naming
   * that index, or the "invalid ext info" TypeError.
   */
  lemma {:induction false} ExtRecordsFailAtFirstBadItem(ext: PyObj, n: nat, i: nat)
    requires i < n
    requires forall j :: 0 <= j < i ==> SeqItem(ext, j).Got? && ParseExt(SeqItem(ext, j).item).Ok?
    requires !(SeqItem(ext, i).Got? && ParseExt(SeqItem(ext, i).item).Ok?)
    ensures !SeqItem(ext, i).Got? ==> ExtRecords(ext, n) == Raised(ExtItemMissing(i))
    ensures SeqItem(ext, i).Got? ==> ExtRecords(ext, n) == Raised(TypeError("invalid ext info"))
  {
    if n > i + 1 {
      ExtRecordsFailAtFirstBadItem(ext, n - 1, i);
    } else {
      assert ExtRecords(ext, i).Ok?;
    }
  }
}
