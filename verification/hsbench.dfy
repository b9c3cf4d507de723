/**
 * The expression-line parser of the benchmark script: `process_expression`
 * turns a line `id:/expression/flags` into an id, the expression's UTF-8
 * bytes and the compile flags, the flag letters read through the
 * `flagchars` table.
 *
 * Python's string operations are modelled on `string` with their own
 * semantics: `str.find`/`str.rfind` answer -1 when the character is
 * absent, slices take negative indices from the end and clamp, and
 * `str.strip`/`int` use Python's whitespace set.
 */
module HsBench {
  import opened PyRuntime

  // ---------------------------------------------------------------------
  // The flag letters
  // ---------------------------------------------------------------------

  const HS_FLAG_CASELESS: bv32 := 1
  const HS_FLAG_DOTALL: bv32 := 2
  const HS_FLAG_MULTILINE: bv32 := 4
  const HS_FLAG_SINGLEMATCH: bv32 := 8
  const HS_FLAG_ALLOWEMPTY: bv32 := 16
  const HS_FLAG_UTF8: bv32 := 32
  const HS_FLAG_UCP: bv32 := 64
  const HS_FLAG_PREFILTER: bv32 := 128
  const HS_FLAG_SOM_LEFTMOST: bv32 := 256

  /** The bits any combination of flag letters can set. */
  const ALL_FLAG_BITS: bv32 := 0x1FF

  /** The `flagchars` table: a letter's flag, or None for a letter it lacks. */
  function FlagValue(c: char): (r: Option<bv32>)
    ensures r.Some? ==> r.value & ALL_FLAG_BITS == r.value && r.value != 0
  {
    match c
    case 'i' => Some(HS_FLAG_CASELESS)
    case 's' => Some(HS_FLAG_DOTALL)
    case 'm' => Some(HS_FLAG_MULTILINE)
    case 'H' => Some(HS_FLAG_SINGLEMATCH)
    case 'V' => Some(HS_FLAG_ALLOWEMPTY)
    case 'W' => Some(HS_FLAG_UCP)
    case '8' => Some(HS_FLAG_UTF8)
    case 'P' => Some(HS_FLAG_PREFILTER)
    case 'L' => Some(HS_FLAG_SOM_LEFTMOST)
    case _ => None
  }

  /** The table's letters. */
  const FLAG_LETTERS: string := "ismHVW8PL"

  /** Each letter owns one bit: two letters share a bit exactly when they are the same letter. */
  lemma FlagLettersOwnTheirBits(c: char, d: char)
    requires FlagValue(c).Some? && FlagValue(d).Some?
    ensures (FlagValue(c).value & FlagValue(d).value != 0) <==> c == d
    ensures c in FLAG_LETTERS
  {
  }

  /**
   * The loop `flags |= flagchars[fc]` over the letters in order: the first
   * letter missing from the table raises KeyError.
   */
  function FlagBits(s: string): (r: Outcome<bv32>)
    decreases |s|
  {
    if |s| == 0 then Ok(0)
    else
      match FlagValue(s[0])
      case None => Raised(KeyError(s[0]))
      case Some(v) =>
        var rest :- FlagBits(s[1..]);
        Ok(v | rest)
  }


  /**
   * A suffix is accepted exactly when every letter is in the table;
   * otherwise the first unknown letter is the KeyError's key.
   */
  lemma {:induction false} FlagBitsAccepts(s: string)
    ensures FlagBits(s).Ok? <==> forall k :: 0 <= k < |s| ==> FlagValue(s[k]).Some?
    ensures FlagBits(s).Fail? ==> exists k :: (0 <= k < |s| && FlagValue(s[k]).None? && FlagBits(s) == Raised(KeyError(s[k]))
      && forall j :: 0 <= j < k ==> FlagValue(s[j]).Some?)
  {
    if |s| > 0 {
      FlagBitsAccepts(s[1..]);
      assert forall k :: 1 <= k < |s| ==> s[k] == s[1..][k - 1];
      if FlagBits(s[1..]).Fail? && FlagValue(s[0]).Some? {
        var k :| 0 <= k < |s[1..]| && FlagValue(s[1..][k]).None? && FlagBits(s[1..]) == Raised(KeyError(s[1..][k]))
          && forall j :: 0 <= j < k ==> FlagValue(s[1..][j]).Some?;
        assert FlagValue(s[k + 1]).None?;
      }
    }
  }

  /** In accepted flags, a letter's bit is set exactly when the letter occurs, and no other bit is. */
  lemma {:induction false} FlagBitsHas(s: string, c: char)
    requires FlagValue(c).Some? && FlagBits(s).Ok?
    ensures FlagBits(s).value & ALL_FLAG_BITS == FlagBits(s).value
    ensures (FlagBits(s).value & FlagValue(c).value != 0) <==> c in s
  {
    if |s| > 0 {
      FlagBitsHas(s[1..], c);
      FlagLettersOwnTheirBits(s[0], c);
      assert c in s <==> c == s[0] || c in s[1..];
    }
  }

  /**
   * The flags depend only on which letters occur: reordering or repeating
   * them changes nothing.
   */
  lemma FlagsIgnoreOrderAndRepetition(s: string, t: string)
    requires forall c :: c in s <==> c in t
    ensures FlagBits(s).Ok? <==> FlagBits(t).Ok?
    ensures FlagBits(s).Ok? ==> FlagBits(s) == FlagBits(t)
  {
    FlagBitsAccepts(s);
    FlagBitsAccepts(t);
    SameLettersAccepted(s, t);
    SameLettersAccepted(t, s);
    if FlagBits(s).Ok? && FlagBits(t).Ok? {
      FlagBitsHas(s, 'i'); FlagBitsHas(t, 'i');
      FlagBitsHas(s, 's'); FlagBitsHas(t, 's');
      FlagBitsHas(s, 'm'); FlagBitsHas(t, 'm');
      FlagBitsHas(s, 'H'); FlagBitsHas(t, 'H');
      FlagBitsHas(s, 'V'); FlagBitsHas(t, 'V');
      FlagBitsHas(s, 'W'); FlagBitsHas(t, 'W');
      FlagBitsHas(s, '8'); FlagBitsHas(t, '8');
      FlagBitsHas(s, 'P'); FlagBitsHas(t, 'P');
      FlagBitsHas(s, 'L'); FlagBitsHas(t, 'L');
      NineBitsDecide(FlagBits(s).value, FlagBits(t).value);
    }
  }

  /** Two masks within the nine flag bits that agree on each of them are equal. */
  lemma NineBitsDecide(x: bv32, y: bv32)
    requires x & ALL_FLAG_BITS == x && y & ALL_FLAG_BITS == y
    requires (x & 1 != 0) == (y & 1 != 0) && (x & 2 != 0) == (y & 2 != 0) && (x & 4 != 0) == (y & 4 != 0)
    requires (x & 8 != 0) == (y & 8 != 0) && (x & 16 != 0) == (y & 16 != 0) && (x & 32 != 0) == (y & 32 != 0)
    requires (x & 64 != 0) == (y & 64 != 0) && (x & 128 != 0) == (y & 128 != 0) && (x & 256 != 0) == (y & 256 != 0)
    ensures x == y
  {
  }

  /** Every letter of `t` in the table when every letter of `s` is and `t` uses only letters of `s`. */
  lemma SameLettersAccepted(s: string, t: string)
    requires forall c :: c in t ==> c in s
    ensures (forall k :: 0 <= k < |s| ==> FlagValue(s[k]).Some?) ==> forall k :: 0 <= k < |t| ==> FlagValue(t[k]).Some?
  {
    forall k | 0 <= k < |t| && (forall i :: 0 <= i < |s| ==> FlagValue(s[i]).Some?)
      ensures FlagValue(t[k]).Some?
    {
      assert t[k] in t;
      var j :| 0 <= j < |s| && s[j] == t[k];
    }
  }

  /** An empty suffix gives 0; an unknown letter is refused wherever it stands. */
  lemma FlagBitsExamples()
    ensures FlagBits("") == Ok(0)
    ensures FlagBits("iL") == Ok(HS_FLAG_CASELESS | HS_FLAG_SOM_LEFTMOST)
    ensures FlagBits("ixs") == Raised(KeyError('x'))
  {
    assert "iL"[1..] == "L" && "L"[1..] == "" && "ixs"[1..] == "xs";
  }

  // ---------------------------------------------------------------------
  // Python string operations
  // ---------------------------------------------------------------------

  /** Python's whitespace, as `str.strip()` and `int()` see it. */
  predicate IsSpace(c: char) {
    || '\U{9}' <= c <= '\U{D}' || '\U{1C}' <= c <= ' ' || c == '\U{85}' || c == '\U{A0}'
    || c == '\U{1680}' || '\U{2000}' <= c <= '\U{200A}' || c == '\U{2028}' || c == '\U{2029}'
    || c == '\U{202F}' || c == '\U{205F}' || c == '\U{3000}'
  }

  /** The number of leading whitespace characters. */
  function LeadingSpaces(s: string): (i: nat)
    ensures i <= |s|
    ensures forall k :: 0 <= k < i ==> IsSpace(s[k])
    ensures i < |s| ==> !IsSpace(s[i])
  {
    if |s| == 0 || !IsSpace(s[0]) then 0 else 1 + LeadingSpaces(s[1..])
  }

  /** The end of `s` without its trailing whitespace. */
  function TrailingStart(s: string): (j: nat)
    ensures j <= |s|
    ensures forall k :: j <= k < |s| ==> IsSpace(s[k])
    ensures j > 0 ==> !IsSpace(s[j - 1])
  {
    if |s| == 0 || !IsSpace(s[|s| - 1]) then |s| else TrailingStart(s[..|s| - 1])
  }

  /** `str.strip()`. */
  function Strip(s: string): (r: string)
    ensures |r| <= |s|
    ensures |r| > 0 ==> !IsSpace(r[0]) && !IsSpace(r[|r| - 1])
  {
    var i := LeadingSpaces(s);
    var rest := s[i..];
    rest[..TrailingStart(rest)]
  }

  /** Whitespace around a text that neither starts nor ends with whitespace is exactly what `strip()` removes. */
  lemma StripPadded(pre: string, body: string, post: string)
    requires forall k :: 0 <= k < |pre| ==> IsSpace(pre[k])
    requires forall k :: 0 <= k < |post| ==> IsSpace(post[k])
    requires |body| > 0 && !IsSpace(body[0]) && !IsSpace(body[|body| - 1])
    ensures Strip(pre + body + post) == body
  {
    var s := pre + body + post;
    var i := LeadingSpaces(s);
    assert s[|pre|] == body[0];
    assert i == |pre|;
    var rest := s[i..];
    assert rest == body + post;
    var j := TrailingStart(rest);
    assert rest[|body| - 1] == body[|body| - 1];
    assert forall k :: |body| <= k < |rest| ==> rest[k] == post[k - |body|];
    assert j == |body|;
  }

  /** A text without surrounding whitespace is left as it is. */
  lemma StripUnpadded(s: string)
    requires |s| > 0 && !IsSpace(s[0]) && !IsSpace(s[|s| - 1])
    ensures Strip(s) == s
  {
    StripPadded([], s, []);
    assert [] + s + [] == s;
  }

  /** `str.find(c)`: the first index of `c`, or -1. */
  function Find(s: string, c: char): (r: int)
    ensures -1 <= r < |s|
    ensures r == -1 <==> c !in s
    ensures r >= 0 ==> s[r] == c && c !in s[..r]
  {
    if |s| == 0 then -1
    else if s[0] == c then 0
    else
      var k := Find(s[1..], c);
      if k == -1 then -1
      else
        assert s[..k + 1] == [s[0]] + s[1..][..k];
        k + 1
  }

  /** The first occurrence is the one with none before it. */
  lemma FindAt(s: string, c: char, r: nat)
    requires r < |s| && s[r] == c && c !in s[..r]
    ensures Find(s, c) == r
  {
    assert s[r] in s;
  }

  /** `str.rfind(c)`: the last index of `c`, or -1. */
  function RFind(s: string, c: char): (r: int)
    ensures -1 <= r < |s|
    ensures r == -1 <==> c !in s
    ensures r >= 0 ==> s[r] == c && c !in s[r + 1..]
  {
    if |s| == 0 then -1
    else if s[|s| - 1] == c then |s| - 1
    else
      var k := RFind(s[..|s| - 1], c);
      if k >= 0 then assert s[k + 1..] == s[..|s| - 1][k + 1..] + [s[|s| - 1]]; k else k
  }

  /** The last occurrence is the one with none after it. */
  lemma RFindAt(s: string, c: char, r: nat)
    requires r < |s| && s[r] == c && c !in s[r + 1..]
    ensures RFind(s, c) == r
  {
    assert s[r] in s;
  }

  /** A slice bound as Python normalises it: negative counts from the end, then clamped. */
  function SliceBound(i: int, n: nat): (k: nat)
    ensures k <= n
    ensures 0 <= i <= n ==> k == i
    ensures -(n as int) <= i < 0 ==> k == i + n
  {
    if i < 0 then (if i + n < 0 then 0 else i + n) else if i > n then n else i
  }

  /** `s[start:stop]`. */
  function Slice(s: string, start: int, stop: int): (r: string)
    ensures 0 <= start <= stop <= |s| ==> r == s[start..stop]
    ensures 0 <= stop <= start ==> r == []
    ensures 0 < |s| && stop == -1 && 0 == start ==> r == s[..|s| - 1]
  {
    var a := SliceBound(start, |s|);
    var b := SliceBound(stop, |s|);
    if a >= b then [] else s[a..b]
  }

  // ---------------------------------------------------------------------
  // int(text)
  // ---------------------------------------------------------------------

  /** An underscore at `k` is followed by a digit. */
  predicate DigitAfterUnderscore(u: string, k: nat)
    requires k + 1 < |u|
  {
    u[k] == '_' ==> IsDigit(u[k + 1])
  }

  /** Decimal digits with single underscores between them. */
  predicate DigitGroups(u: string) {
    && |u| > 0 && IsDigit(u[0]) && IsDigit(u[|u| - 1])
    && (forall k :: 0 <= k < |u| ==> IsDigit(u[k]) || u[k] == '_')
    && (forall k: nat :: k + 1 < |u| ==> DigitAfterUnderscore(u, k))
  }

  /** The digits of a literal, underscores dropped. */
  function WithoutUnderscores(u: string): (d: string)
    ensures (forall k :: 0 <= k < |u| ==> IsDigit(u[k]) || u[k] == '_') ==> forall k :: 0 <= k < |d| ==> IsDigit(d[k])
    ensures (forall k :: 0 <= k < |u| ==> u[k] != '_') ==> d == u
  {
    if |u| == 0 then []
    else if u[0] == '_' then WithoutUnderscores(u[1..])
    else [u[0]] + WithoutUnderscores(u[1..])
  }

  /** Unsigned digit groups, or None. */
  function ReadUnsigned(u: string): Option<int> {
    if DigitGroups(u) then Some(DigitsValue(WithoutUnderscores(u))) else None
  }

  /** A stripped int literal: an optional sign, then digit groups. */
  function ReadSigned(t: string): Option<int> {
    if |t| > 0 && t[0] == '-' then
      match ReadUnsigned(t[1..])
      case Some(v) => Some(-v)
      case None => None
    else if |t| > 0 && t[0] == '+' then ReadUnsigned(t[1..])
    else ReadUnsigned(t)
  }

  /**
   * `int(text)`: surrounding whitespace, an optional sign, then decimal
   * digits in underscore-separated groups; anything else is a ValueError.
   */
  function PythonInt(text: string): (r: Outcome<int>)
    ensures r.Fail? ==> r == Raised(InvalidIntLiteral(text))
    ensures r.Ok? <==> ReadSigned(Strip(text)).Some?
  {
    match ReadSigned(Strip(text))
    case None => Raised(InvalidIntLiteral(text))
    case Some(v) => Ok(v)
  }

  /** Plain digits read as their value. */
  lemma ReadUnsignedDigits(s: string)
    requires |s| > 0 && forall k :: 0 <= k < |s| ==> IsDigit(s[k])
    ensures ReadUnsigned(s) == Some(DigitsValue(s))
  {
    assert DigitGroups(s);
  }

  /** Plain digits read as their value, and with a minus sign as its negation. */
  lemma ReadSignedDigits(s: string)
    requires |s| > 0 && forall k :: 0 <= k < |s| ==> IsDigit(s[k])
    ensures ReadSigned(s) == Some(DigitsValue(s))
    ensures ReadSigned("-" + s) == Some(-(DigitsValue(s) as int))
  {
    ReadUnsignedDigits(s);
    var m := "-" + s;
    assert m[0] == '-' && m[1..] == s;
  }

  /** `int(str(n))` is n and `int('-' + str(n))` is -n. */
  lemma PythonIntReadsShowNat(n: nat)
    ensures PythonInt(ShowNat(n)) == Ok(n)
    ensures PythonInt("-" + ShowNat(n)) == Ok(-(n as int))
  {
    var s := ShowNat(n);
    ShowNatRoundTrip(n);
    StripUnpadded(s);
    var m := "-" + s;
    assert m[|m| - 1] == s[|s| - 1];
    StripUnpadded(m);
    ReadSignedDigits(s);
  }

  // ---------------------------------------------------------------------
  // process_expression
  // ---------------------------------------------------------------------

  /** What `process_expression` returns: the id (None or an int), the expression bytes and the flags. */
  datatype Parsed = Parsed(id: Option<int>, expression: seq<byte>, flags: bv32)

  /**
   * When a line has no id: as written, only when its first ':' comes
   * after its first '/' (a line without ':' has find() == -1 and so
   * parses an id); as evidently intended, also when it has no ':'.
   */
  datatype IdRule = ColonAfterSlash | NoColonOrColonAfterSlash

  predicate HasNoId(rule: IdRule, cpos: int, lppos: int) {
    match rule
    case ColonAfterSlash => cpos > lppos
    case NoColonOrColonAfterSlash => cpos == -1 || cpos > lppos
  }

  /** `int(text)` as an id: a negative one is refused with TypeError. */
  function ParseId(text: string): (r: Outcome<Option<int>>)
    ensures r.Ok? ==> r.value.Some? && r.value.value >= 0 && PythonInt(text) == Ok(r.value.value)
    ensures PythonInt(text).Ok? && PythonInt(text).value < 0 ==> r == Raised(TypeErrorPy("expression ids must be unsigned"))
    ensures PythonInt(text).Fail? ==> r == Raised(InvalidIntLiteral(text))
  {
    var v :- PythonInt(text);
    if v < 0 then Raised(TypeErrorPy("expression ids must be unsigned")) else Ok(Some(v))
  }

  /**
   * The rest of `process_expression` on the stripped line `t`, given its
   * first ':', first '/' and last '/' (each -1 when absent): the id, then
   * the flags of the text after the last '/', then the text between the
   * first and the last '/' as UTF-8.
   */
  function ProcessStripped(rule: IdRule, t: string, cpos: int, lppos: int, rppos: int): Outcome<Parsed> {
    var id :- if HasNoId(rule, cpos, lppos) then Ok(None) else ParseId(Slice(t, 0, cpos));
    var flags :- FlagBits(Slice(t, rppos + 1, |t|));
    Ok(Parsed(id, Utf8(Slice(t, lppos + 1, rppos)), flags))
  }

  /** `process_expression(line)` under an id rule. */
  function ProcessExpressionUsing(rule: IdRule, line: string): Outcome<Parsed> {
    var t := Strip(line);
    ProcessStripped(rule, t, Find(t, ':'), Find(t, '/'), RFind(t, '/'))
  }

  /** `process_expression` as the script is written. */
  function ProcessExpressionAsWritten(line: string): Outcome<Parsed> {
    ProcessExpressionUsing(ColonAfterSlash, line)
  }

  /** `process_expression` with a line lacking ':' read as a line without id. */
  function ProcessExpression(line: string): Outcome<Parsed> {
    ProcessExpressionUsing(NoColonOrColonAfterSlash, line)
  }

  /** The text of a line with an id, an expression and flag letters. */
  function FormatLine(id: nat, expression: string, letters: string): string {
    ShowNat(id) + ":/" + expression + "/" + letters
  }

  /** In `head + ":/" + rest`, with neither separator in `head`, the first ':' and '/' follow `head`. */
  lemma LeadingSeparators(head: string, rest: string)
    requires ':' !in head && '/' !in head
    ensures var line := head + ":/" + rest;
      && Find(line, ':') == |head| && Find(line, '/') == |head| + 1
      && Slice(line, 0, |head|) == head
  {
    var line := head + ":/" + rest;
    assert line[..|head|] == head;
    FindAt(line, ':', |head|);
    assert line[..|head| + 1] == head + ":";
    FindAt(line, '/', |head| + 1);
  }

  /** No letter of the flag table is '/'. */
  lemma FlagLettersHaveNoSlash(letters: string)
    requires forall k :: 0 <= k < |letters| ==> FlagValue(letters[k]).Some?
    ensures '/' !in letters
  {
  }

  /** Decimal text holds neither separator. */
  lemma DigitsHaveNoSeparators(digits: string)
    requires forall k :: 0 <= k < |digits| ==> IsDigit(digits[k])
    ensures ':' !in digits && '/' !in digits
  {
  }

  /** The rest of `process_expression` once the separators and the pieces between them are known. */
  lemma ProcessStrippedPieces(rule: IdRule, t: string, cpos: int, lppos: int, rppos: int, id: nat, expression: string, letters: string)
    requires 0 <= cpos == lppos - 1
    requires ParseId(Slice(t, 0, cpos)) == Ok(Some(id))
    requires Slice(t, lppos + 1, rppos) == expression
    requires Slice(t, rppos + 1, |t|) == letters && FlagBits(letters).Ok?
    ensures ProcessStripped(rule, t, cpos, lppos, rppos) == Ok(Parsed(Some(id), Utf8(expression), FlagBits(letters).value))
  {
  }

  /** The pieces of `head:/expression/letters`, by position. */
  lemma LinePieces(head: string, expression: string, letters: string)
    ensures var t := head + ":/" + expression + "/" + letters; var c, r := |head|, |head| + 2 + |expression|;
      && r < |t| && t[..c] == head && t[c] == ':' && t[c + 1] == '/'
      && t[c + 2..r] == expression && t[r] == '/' && t[r + 1..] == letters
  {
    var t := head + ":/" + expression + "/" + letters;
    var c, r := |head|, |head| + 2 + |expression|;
    assert t[..c] == head;
    assert t[c + 2..r] == expression;
    assert t[r + 1..] == letters;
  }

  /** The separators of a stripped line laid out as `head:/expression/letters`. */
  lemma SeparatorsAt(t: string, head: string, expression: string, letters: string)
    requires var c, r := |head|, |head| + 2 + |expression|;
      && r < |t| && t[..c] == head && t[c] == ':' && t[c + 1] == '/'
      && t[r] == '/' && t[r + 1..] == letters
    requires ':' !in head && '/' !in head && '/' !in letters
    ensures Find(t, ':') == |head| && Find(t, '/') == |head| + 1 && RFind(t, '/') == |head| + 2 + |expression|
  {
    var c := |head|;
    FindAt(t, ':', c);
    assert t[..c + 1] == head + [':'];
    FindAt(t, '/', c + 1);
    RFindAt(t, '/', c + 2 + |expression|);
  }

  /** The pieces between the separators of a stripped line laid out as `head:/expression/letters`. */
  lemma SlicesAt(t: string, head: string, expression: string, letters: string)
    requires var c, r := |head|, |head| + 2 + |expression|;
      && r < |t| && t[..c] == head && t[c + 2..r] == expression && t[r + 1..] == letters
    ensures var c, r := |head|, |head| + 2 + |expression|;
      && Slice(t, 0, c) == head && Slice(t, c + 2, r) == expression && Slice(t, r + 1, |t|) == letters
  {
    assert t[0..|head|] == t[..|head|];
    assert t[|head| + 2 + |expression| + 1..|t|] == t[|head| + 2 + |expression| + 1..];
  }

  /** Where `Find`, `RFind` and `Slice` see the pieces of `head:/expression/letters`. */
  lemma LineLayout(head: string, id: nat, expression: string, letters: string)
    requires ':' !in head && '/' !in head && '/' !in letters
    requires ParseId(head) == Ok(Some(id))
    ensures Find(head + ":/" + expression + "/" + letters, ':') == |head|
    ensures Find(head + ":/" + expression + "/" + letters, '/') == |head| + 1
    ensures RFind(head + ":/" + expression + "/" + letters, '/') == |head| + 2 + |expression|
    ensures ParseId(Slice(head + ":/" + expression + "/" + letters, 0, |head|)) == Ok(Some(id))
    ensures Slice(head + ":/" + expression + "/" + letters, |head| + 2, |head| + 2 + |expression|) == expression
    ensures Slice(head + ":/" + expression + "/" + letters, |head| + 2 + |expression| + 1, |head + ":/" + expression + "/" + letters|) == letters
  {
    var t := head + ":/" + expression + "/" + letters;
    LinePieces(head, expression, letters);
    SeparatorsAt(t, head, expression, letters);
    SlicesAt(t, head, expression, letters);
  }

  /**
   * A stripped line whose first ':' is at `c`, whose first '/' follows
   * it and whose last '/' is at `r` parses to the id read from the text
   * before `c`, the text between the two '/' as UTF-8 and the flags of
   * the letters after `r`.
   */
  lemma LineParses(rule: IdRule, t: string, c: nat, r: int, id: nat, expression: string, letters: string)
    requires Find(t, ':') == c && Find(t, '/') == c + 1 && RFind(t, '/') == r
    requires ParseId(Slice(t, 0, c)) == Ok(Some(id))
    requires Slice(t, c + 2, r) == expression
    requires Slice(t, r + 1, |t|) == letters && FlagBits(letters).Ok?
    ensures ProcessStripped(rule, t, Find(t, ':'), Find(t, '/'), RFind(t, '/'))
      == Ok(Parsed(Some(id), Utf8(expression), FlagBits(letters).value))
  {
    ProcessStrippedPieces(rule, t, c, c + 1, r, id, expression, letters);
  }

  /** The stripped line `head:/expression/letters`, with a head that reads as the id, parses to its parts. */
  lemma HeadLineParses(rule: IdRule, head: string, id: nat, expression: string, letters: string)
    requires ':' !in head && '/' !in head && '/' !in letters
    requires ParseId(head) == Ok(Some(id)) && FlagBits(letters).Ok?
    ensures var t := head + ":/" + expression + "/" + letters;
      ProcessStripped(rule, t, Find(t, ':'), Find(t, '/'), RFind(t, '/'))
        == Ok(Parsed(Some(id), Utf8(expression), FlagBits(letters).value))
  {
    LineLayout(head, id, expression, letters);
    LineParses(rule, head + ":/" + expression + "/" + letters, |head|, |head| + 2 + |expression|, id, expression, letters);
  }

  /** The decimal text of an id reads back as that id and holds no separator. */
  lemma IdText(id: nat)
    ensures ParseId(ShowNat(id)) == Ok(Some(id))
    ensures ':' !in ShowNat(id) && '/' !in ShowNat(id)
  {
    DigitsHaveNoSeparators(ShowNat(id));
    PythonIntReadsShowNat(id);
  }

  /** The stripped line `id:/expression/letters` parses to its parts. */
  lemma FormatLineStrippedParses(rule: IdRule, id: nat, expression: string, letters: string)
    requires '/' !in letters && FlagBits(letters).Ok?
    ensures var t := FormatLine(id, expression, letters);
      ProcessStripped(rule, t, Find(t, ':'), Find(t, '/'), RFind(t, '/'))
        == Ok(Parsed(Some(id), Utf8(expression), FlagBits(letters).value))
  {
    IdText(id);
    HeadLineParses(rule, ShowNat(id), id, expression, letters);
  }

  /**
   * A line `id:/expression/letters`, with any whitespace around it,
   * parses back to its id, the expression's UTF-8 bytes and the letters'
   * flags, under either id rule.
   */
  lemma FormatLineParses(rule: IdRule, id: nat, expression: string, letters: string, pre: string, post: string)
    requires forall k :: 0 <= k < |letters| ==> FlagValue(letters[k]).Some?
    requires forall k :: 0 <= k < |pre| ==> IsSpace(pre[k])
    requires forall k :: 0 <= k < |post| ==> IsSpace(post[k])
    ensures FlagBits(letters).Ok?
    ensures ProcessExpressionUsing(rule, pre + FormatLine(id, expression, letters) + post)
      == Ok(Parsed(Some(id), Utf8(expression), FlagBits(letters).value))
  {
    var digits := ShowNat(id);
    var line := FormatLine(id, expression, letters);
    assert line[0] == digits[0];
    assert line[|line| - 1] == if |letters| > 0 then letters[|letters| - 1] else '/';
    StripPadded(pre, line, post);
    FlagBitsAccepts(letters);
    FlagLettersHaveNoSlash(letters);
    FormatLineStrippedParses(rule, id, expression, letters);
  }

  /** A line whose first ':' comes after its first '/' has no id, under either rule. */
  lemma ColonAfterSlashMeansNoId(rule: IdRule, line: string)
    requires var t := Strip(line); Find(t, ':') > Find(t, '/')
    ensures ProcessExpressionUsing(rule, line).Ok? ==> ProcessExpressionUsing(rule, line).value.id.None?
  {
  }

  /** A negative id is refused with TypeError. */
  lemma NegativeIdRefused(rule: IdRule, id: nat, rest: string)
    requires id > 0 && (|rest| == 0 || !IsSpace(rest[|rest| - 1]))
    ensures ProcessExpressionUsing(rule, ("-" + ShowNat(id)) + ":/" + rest)
      == Raised(TypeErrorPy("expression ids must be unsigned"))
  {
    var digits := ShowNat(id);
    var head := "-" + digits;
    var line := head + ":/" + rest;
    assert line[0] == '-';
    assert line[|line| - 1] == if |rest| == 0 then '/' else rest[|rest| - 1];
    StripUnpadded(line);
    assert ':' !in head && '/' !in head;
    LeadingSeparators(head, rest);
    PythonIntReadsShowNat(id);
  }

  /** The two id rules agree on every line with a ':'. */
  lemma RulesAgreeWithColon(line: string)
    requires ':' in Strip(line)
    ensures ProcessExpressionAsWritten(line) == ProcessExpression(line)
  {
  }

  /**
   * As written, a line without ':' (such as "/abc/i") asks `int()` for
   * the text before its last character and fails; with the intended
   * rule it parses as an expression without id.
   */
  lemma NoColonLine()
    ensures ProcessExpressionAsWritten("/abc/i") == Raised(InvalidIntLiteral("/abc/"))
    ensures ProcessExpression("/abc/i") == Ok(Parsed(None, Utf8("abc"), HS_FLAG_CASELESS))
  {
    var line := "/abc/i";
    StripUnpadded(line);
    assert ':' !in line;
    FindAt(line, '/', 0);
    assert line[5..] == "i";
    RFindAt(line, '/', 4);
    assert Slice(line, 0, -1) == "/abc/";
    StripUnpadded("/abc/");
    assert ReadSigned("/abc/").None?;
    assert Slice(line, 1, 4) == "abc";
    assert Slice(line, 5, 6) == "i";
    assert FlagBits("i") == Ok(HS_FLAG_CASELESS) by {
      assert "i"[1..] == "";
    }
  }
  /**
   * Any line whose stripped text has no ':' parses, with the intended
   * rule, without an id: the expression lies between its first and last
   * '/' and the flags follow the last '/'.
   */
  lemma NoColonLineParses(line: string)
    requires ':' !in Strip(line)
    ensures FlagBits(Slice(Strip(line), RFind(Strip(line), '/') + 1, |Strip(line)|)).Fail? ==>
      ProcessExpression(line) == FlagBits(Slice(Strip(line), RFind(Strip(line), '/') + 1, |Strip(line)|)).PropagateFailure()
    ensures FlagBits(Slice(Strip(line), RFind(Strip(line), '/') + 1, |Strip(line)|)).Ok? ==>
      ProcessExpression(line) == Ok(Parsed(None, Utf8(Slice(Strip(line), Find(Strip(line), '/') + 1, RFind(Strip(line), '/'))),
                                           FlagBits(Slice(Strip(line), RFind(Strip(line), '/') + 1, |Strip(line)|)).value))
  {
    var t := Strip(line);
    assert Find(t, ':') == -1;
    NoIdParses(NoColonOrColonAfterSlash, t, Find(t, ':'), Find(t, '/'), RFind(t, '/'));
  }

  /** Without an id, the rest of `process_expression` is the flags check, then the expression between the slashes. */
  lemma NoIdParses(rule: IdRule, t: string, cpos: int, lppos: int, rppos: int)
    requires HasNoId(rule, cpos, lppos)
    ensures FlagBits(Slice(t, rppos + 1, |t|)).Fail? ==>
      ProcessStripped(rule, t, cpos, lppos, rppos) == FlagBits(Slice(t, rppos + 1, |t|)).PropagateFailure()
    ensures FlagBits(Slice(t, rppos + 1, |t|)).Ok? ==>
      ProcessStripped(rule, t, cpos, lppos, rppos) == Ok(Parsed(None, Utf8(Slice(t, lppos + 1, rppos)), FlagBits(Slice(t, rppos + 1, |t|)).value))
  {
  }

  /**
   * As written, the text before the last character of a line without ':'
   * is read as an id, so such a line never parses without one.
   */
  lemma NoColonLineAsWrittenReadsId(line: string)
    requires ':' !in Strip(line)
    ensures var t := Strip(line);
      PythonInt(Slice(t, 0, -1)).Fail? ==> ProcessExpressionAsWritten(line) == Raised(InvalidIntLiteral(Slice(t, 0, -1)))
    ensures ProcessExpressionAsWritten(line).Ok? ==> ProcessExpressionAsWritten(line).value.id.Some?
  {
    var t := Strip(line);
    var cpos, lppos, rppos := Find(t, ':'), Find(t, '/'), RFind(t, '/');
    assert cpos == -1;
    assert !HasNoId(ColonAfterSlash, cpos, lppos);
    assert ProcessExpressionAsWritten(line) == ProcessStripped(ColonAfterSlash, t, cpos, lppos, rppos);
  }
}
