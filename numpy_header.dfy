/**
 * The header of a NumPy .npy file (format described by NEP 1): the magic and
 * length checks over the first ten bytes, and the parser of the header text,
 * a Python dict literal such as {'descr': '<f4', 'fortran_order': False, 'shape': (3, 4), }.
 *
 * The header text is a C string read with a cursor: `Peek` yields the
 * terminating NUL at and beyond the end, as dereferencing the cursor does.
 */
module NumpyHeader {
  import opened Wrappers
  import opened DaliTypes
  import opened ByteIO

  function Peek(s: string, i: nat): char {
    if i < |s| then s[i] else '\0'
  }

  /** isspace in the C locale: space, and \t \n \v \f \r. */
  predicate IsSpace(c: char) {
    c == ' ' || '\t' <= c <= '\r'
  }

  predicate IsDigit(c: char) {
    '0' <= c <= '9'
  }

  /** The text holds `t` from position i on. */
  predicate TextAt(s: string, i: nat, t: string) {
    i + |t| <= |s| && forall k {:trigger t[k]} :: 0 <= k < |t| ==> s[i + k] == t[k]
  }

  lemma TextAtConcat(s: string, i: nat, a: string, b: string)
    requires TextAt(s, i, a + b)
    ensures TextAt(s, i, a) && TextAt(s, i + |a|, b)
  {
    forall k | 0 <= k < |a|
      ensures s[i + k] == a[k]
    {
      assert (a + b)[k] == a[k];
    }
    forall k | 0 <= k < |b|
      ensures s[i + |a| + k] == b[k]
    {
      assert (a + b)[|a| + k] == b[k];
    }
  }

  /** A text holds each of its prefixes at its start. */
  lemma TextAtStart(t: string, rest: string)
    ensures TextAt(t + rest, 0, t)
  {
    forall k | 0 <= k < |t|
      ensures (t + rest)[0 + k] == t[k]
    {
    }
  }

  // ---- TypeFromNumpyStr ----

  /** The type codes the test helper understands: kind letter, then the item size in bytes. */
  const NumpyCodes: set<string> := {"u1", "u2", "u4", "u8", "i1", "i2", "i4", "i8", "f2", "f4", "f8"}

  function TypeFromNumpyStr(code: string): (r: Result<DALIDataType>)
    ensures r.Ok? <==> code in NumpyCodes
    ensures r.Ok? ==> |code| == 2 && SizeOf(r.value) == code[1] as int - '0' as int
    ensures r.Ok? ==> (r.value in {UInt8, UInt16, UInt32, UInt64} <==> code[0] == 'u')
    ensures r.Ok? ==> (r.value in {Int8, Int16, Int32, Int64} <==> code[0] == 'i')
    ensures r.Ok? ==> (r.value in {Float16, Float, Float64} <==> code[0] == 'f')
    ensures r.Ok? ==> HasNumpyCode(r.value)
  {
    if code == "u1" then Ok(UInt8)
    else if code == "u2" then Ok(UInt16)
    else if code == "u4" then Ok(UInt32)
    else if code == "u8" then Ok(UInt64)
    else if code == "i1" then Ok(Int8)
    else if code == "i2" then Ok(Int16)
    else if code == "i4" then Ok(Int32)
    else if code == "i8" then Ok(Int64)
    else if code == "f2" then Ok(Float16)
    else if code == "f4" then Ok(Float)
    else if code == "f8" then Ok(Float64)
    else Fail(ParseError)
  }

  /** The element types a .npy header can name here. */
  predicate HasNumpyCode(t: DALIDataType) {
    t in {UInt8, UInt16, UInt32, UInt64, Int8, Int16, Int32, Int64, Float16, Float, Float64}
  }

  /** The code NumPy writes for a type: its kind letter and its size. */
  function NumpyStr(t: DALIDataType): (code: string)
    requires HasNumpyCode(t)
  {
    var kind := if t in {UInt8, UInt16, UInt32, UInt64} then 'u' else if t in {Int8, Int16, Int32, Int64} then 'i' else 'f';
    [kind, ('0' as int + SizeOf(t)) as char]
  }

  /** TypeFromNumpyStr inverts the code NumPy writes, and the codes it accepts are exactly those. */
  lemma NumpyStrRoundTrip(t: DALIDataType, code: string)
    requires HasNumpyCode(t)
    ensures TypeFromNumpyStr(NumpyStr(t)) == Ok(t)
    ensures TypeFromNumpyStr(code).Ok? ==> NumpyStr(TypeFromNumpyStr(code).value) == code
  {
  }

  // ---- Cursor primitives ----

  /** Where SkipSpaces stops: the first position from i on that does not hold a space. */
  function SpacesEnd(s: string, i: nat): (j: nat)
    decreases |s| - i
    ensures i <= j && (j > i ==> j <= |s|)
    ensures !IsSpace(Peek(s, j))
  {
    if IsSpace(Peek(s, i)) then SpacesEnd(s, i + 1) else i
  }

  /** SkipSpaces: advances the cursor past white space. */
  method SkipSpaces(s: string, pos: nat) returns (p: nat)
    ensures p == SpacesEnd(s, pos)
  {
    p := pos;
    while IsSpace(Peek(s, p))
      invariant pos <= p && SpacesEnd(s, pos) == SpacesEnd(s, p)
      decreases |s| - p
    {
      p := p + 1;
    }
  }

  /** strncmp(ptr, lit, |lit|) == 0: each character of the literal is matched, the terminator matching nothing. */
  predicate Matches(s: string, i: nat, lit: string) {
    forall k :: 0 <= k < |lit| ==> Peek(s, i + k) == lit[k]
  }

  /** A literal with no NUL in it matches exactly where the text continues with it. */
  lemma MatchesIffPrefix(s: string, i: nat, lit: string)
    requires |lit| > 0 && '\0' !in lit
    ensures Matches(s, i, lit) <==> TextAt(s, i, lit)
    ensures Matches(s, i, lit) <==> i + |lit| <= |s| && s[i..i + |lit|] == lit
  {
    if i + |lit| > |s| {
      var k := if i <= |s| then |s| - i else 0;
      assert Peek(s, i + k) == '\0' != lit[k];
    }
    if i + |lit| <= |s| && s[i..i + |lit|] == lit {
      forall k | 0 <= k < |lit|
        ensures Peek(s, i + k) == lit[k]
      {
        assert s[i..i + |lit|][k] == s[i + k];
      }
    }
    if Matches(s, i, lit) {
      forall k | 0 <= k < |lit|
        ensures s[i + k] == lit[k]
      {
        assert Peek(s, i + k) == lit[k];
      }
    }
  }

  /** Skip: the text must continue with the literal, which is then passed. */
  function Skip(s: string, pos: nat, lit: string): (r: Result<nat>)
    ensures r.Ok? <==> Matches(s, pos, lit)
    ensures r.Ok? ==> r.value == pos + |lit|
  {
    if Matches(s, pos, lit) then Ok(pos + |lit|) else Fail(ParseError)
  }

  /** TrySkip: passes the literal if the text continues with it, and otherwise leaves the cursor where it is. */
  function TrySkip(s: string, pos: nat, lit: string): (r: (bool, nat))
    ensures r.0 <==> Matches(s, pos, lit)
    ensures r.1 == if r.0 then pos + |lit| else pos
  {
    if Matches(s, pos, lit) then (true, pos + |lit|) else (false, pos)
  }

  /** Skip and TrySkip agree: Skip fails exactly where TrySkip does not move. */
  lemma SkipAgreesWithTrySkip(s: string, pos: nat, lit: string)
    requires |lit| > 0 && '\0' !in lit
    ensures Skip(s, pos, lit).Ok? <==> TrySkip(s, pos, lit).0
    ensures Skip(s, pos, lit).Ok? <==> pos + |lit| <= |s| && s[pos..pos + |lit|] == lit
    ensures !TrySkip(s, pos, lit).0 ==> TrySkip(s, pos, lit).1 == pos
  {
    MatchesIffPrefix(s, pos, lit);
  }

  /** SkipFieldName: spaces, 'name', spaces, a colon, spaces. */
  function FieldNameEnd(s: string, pos: nat, name: string): (r: Result<nat>)
    ensures r.Ok? ==> pos + |name| + 3 <= r.value
  {
    var p :- Skip(s, SpacesEnd(s, pos), "'");
    var p :- Skip(s, p, name);
    var p :- Skip(s, p, "'");
    var p :- Skip(s, SpacesEnd(s, p), ":");
    Ok(SpacesEnd(s, p))
  }

  method SkipFieldName(s: string, pos: nat, name: string) returns (r: Result<nat>)
    ensures r == FieldNameEnd(s, pos, name)
  {
    var p := SkipSpaces(s, pos);
    var q :- Skip(s, p, "'");
    q :- Skip(s, q, name);
    q :- Skip(s, q, "'");
    p := SkipSpaces(s, q);
    q :- Skip(s, p, ":");
    p := SkipSpaces(s, q);
    return Ok(p);
  }

  // ---- ParseInteger (strtol, base 10) ----

  const INT64_MIN := -0x8000_0000_0000_0000
  const INT64_MAX := 0x7FFF_FFFF_FFFF_FFFF

  /** strtol saturates at the limits of long (64 bits here). */
  function Clamp64(v: int): (r: int)
    ensures INT64_MIN <= r <= INT64_MAX
    ensures INT64_MIN <= v <= INT64_MAX ==> r == v
  {
    if v < INT64_MIN then INT64_MIN else if v > INT64_MAX then INT64_MAX else v
  }

  /** The end of the run of digits that starts at i. */
  function DigitsEnd(s: string, i: nat): (j: nat)
    decreases |s| - i
    ensures i <= j && (j > i ==> j <= |s|)
    ensures j > i ==> IsDigit(s[j - 1])
    ensures !IsDigit(Peek(s, j))
  {
    if IsDigit(Peek(s, i)) then DigitsEnd(s, i + 1) else i
  }

  /** The value of a decimal digit (strtol never reaches another character here). */
  function DigitOf(c: char): (v: nat)
    ensures v < 10
    ensures IsDigit(c) ==> v == c as int - '0' as int
  {
    if IsDigit(c) then c as int - '0' as int else 0
  }

  /** The value of a string of decimal digits. */
  function DigitsValue(ds: string): nat
  {
    if ds == [] then 0 else DigitsValue(ds[..|ds| - 1]) * 10 + DigitOf(ds[|ds| - 1])
  }

  /**
   * ParseInteger: strtol skips white space, takes an optional sign and then
   * decimal digits; without a digit the cursor does not move and the call fails.
   * The result and the position after the last digit.
   */
  function IntegerAt(s: string, pos: nat): (r: Result<(int, nat)>)
    ensures r.Ok? ==> pos < r.value.1 <= |s| && IsDigit(s[r.value.1 - 1]) && !IsDigit(Peek(s, r.value.1))
    ensures r.Ok? ==> INT64_MIN <= r.value.0 <= INT64_MAX
  {
    var j := SpacesEnd(s, pos);
    var d0 := if Peek(s, j) == '-' || Peek(s, j) == '+' then j + 1 else j;
    var d1 := DigitsEnd(s, d0);
    if d1 == d0 then Fail(ParseError)
    else
      var magnitude: int := DigitsValue(s[d0..d1]);
      Ok((Clamp64(if Peek(s, j) == '-' then -magnitude else magnitude), d1))
  }

  method ParseInteger(s: string, pos: nat) returns (r: Result<(int, nat)>)
    ensures r == IntegerAt(s, pos)
  {
    var p := SkipSpaces(s, pos);
    var negative := Peek(s, p) == '-';
    var d0 := if Peek(s, p) == '-' || Peek(s, p) == '+' then p + 1 else p;
    var q, magnitude := ReadDigits(s, d0);
    if q == d0 {
      return Fail(ParseError);
    }
    return Ok((Clamp64(if negative then -magnitude else magnitude), q));
  }

  /** The digit loop of strtol: accumulates the value of the digits from d0 on. */
  method ReadDigits(s: string, d0: nat) returns (q: nat, magnitude: int)
    ensures q == DigitsEnd(s, d0)
    ensures q > d0 ==> magnitude == DigitsValue(s[d0..q])
  {
    q, magnitude := d0, 0;
    while IsDigit(Peek(s, q))
      invariant d0 <= q && (q > d0 ==> q <= |s|)
      invariant DigitsEnd(s, d0) == DigitsEnd(s, q)
      invariant q == d0 ==> magnitude == 0
      invariant q > d0 ==> magnitude == DigitsValue(s[d0..q])
      decreases |s| - q
    {
      DigitsValueStep(s, d0, q);
      magnitude := magnitude * 10 + DigitOf(s[q]);
      q := q + 1;
    }
  }

  /** Taking one more digit multiplies the value so far by ten and adds the digit. */
  lemma DigitsValueStep(s: string, d0: nat, q: nat)
    requires d0 <= q < |s|
    ensures DigitsValue(s[d0..q + 1]) == (if q > d0 then DigitsValue(s[d0..q]) else 0) * 10 + DigitOf(s[q])
  {
    assert s[d0..q + 1][..q - d0] == s[d0..q];
  }

  /** The decimal digits of n, most significant first, as Python prints them. */
  function Decimal(n: nat): (ds: string)
    ensures |ds| > 0 && forall k :: 0 <= k < |ds| ==> IsDigit(ds[k])
  {
    if n < 10 then [('0' as int + n) as char] else Decimal(n / 10) + [('0' as int + n % 10) as char]
  }

  lemma {:induction false} DecimalValue(n: nat)
    ensures DigitsValue(Decimal(n)) == n
  {
    if n >= 10 {
      var ds := Decimal(n);
      assert ds[..|ds| - 1] == Decimal(n / 10);
      DecimalValue(n / 10);
    }
  }

  /** Round trip: ParseInteger reads back a printed integer of the int64 range, after any white space and an optional minus sign. */
  lemma IntegerRoundTrip(s: string, pos: nat, n: nat, negative: bool)
    requires n <= INT64_MAX
    requires var j := SpacesEnd(s, pos);
             var d0 := if negative then j + 1 else j;
             (negative ==> Peek(s, j) == '-') &&
             TextAt(s, d0, Decimal(n)) && !IsDigit(Peek(s, d0 + |Decimal(n)|))
    ensures IntegerAt(s, pos) ==
            Ok((if negative then -(n as int) else n, (if negative then SpacesEnd(s, pos) + 1 else SpacesEnd(s, pos)) + |Decimal(n)|))
  {
    var j := SpacesEnd(s, pos);
    var d0 := if negative then j + 1 else j;
    var ds := Decimal(n);
    DigitsAt(s, d0, ds);
    DecimalValue(n);
    assert !negative ==> Peek(s, j) == ds[0];
    IntegerAtDigits(s, pos, d0, ds);
  }

  /** strtol at pos when the digit run after the spaces and the sign is ds. */
  lemma IntegerAtDigits(s: string, pos: nat, d0: nat, ds: string)
    requires var j := SpacesEnd(s, pos);
             d0 == if Peek(s, j) == '-' || Peek(s, j) == '+' then j + 1 else j
    requires |ds| > 0 && DigitsEnd(s, d0) == d0 + |ds| && s[d0..d0 + |ds|] == ds
    ensures var m: int := DigitsValue(ds);
            IntegerAt(s, pos) == Ok((Clamp64(if Peek(s, SpacesEnd(s, pos)) == '-' then -m else m), d0 + |ds|))
  {
  }

  /** A printed run of digits at d0, followed by a non-digit, is the digit run strtol consumes there. */
  lemma DigitsAt(s: string, d0: nat, ds: string)
    requires |ds| > 0 && forall k :: 0 <= k < |ds| ==> IsDigit(ds[k])
    requires TextAt(s, d0, ds) && !IsDigit(Peek(s, d0 + |ds|))
    ensures DigitsEnd(s, d0) == d0 + |ds| && s[d0..DigitsEnd(s, d0)] == ds
    ensures Peek(s, d0) == ds[0]
  {
    forall k | d0 <= k < d0 + |ds|
      ensures IsDigit(s[k])
    {
      assert s[k] == ds[k - d0];
    }
    assert s[d0] == ds[0];
    DigitsRun(s, d0, |ds|);
    assert s[d0..d0 + |ds|] == ds;
  }

  /** A run of `len` digits followed by a non-digit ends where expected. */
  lemma {:induction false} DigitsRun(s: string, i: nat, len: nat)
    requires i + len <= |s| && (forall k :: i <= k < i + len ==> IsDigit(s[k])) && !IsDigit(Peek(s, i + len))
    ensures DigitsEnd(s, i) == i + len
    decreases len
  {
    if len > 0 {
      DigitsRun(s, i + 1, len - 1);
    }
  }

  // ---- ParseStringValue ----

  /** The quote that opens and closes a string value (the delimiters the header parser uses). */
  const QUOTE := '\''

  /** The characters that a backslash escapes; any other character after a backslash keeps the backslash. */
  predicate IsEscapable(c: char) {
    c == '\\' || c == '\'' || c == '\t' || c == '\n' || c == '"'
  }

  /** What an escape sequence `\\e` contributes to the value. */
  function Unescape(e: char): (out: string)
    ensures IsEscapable(e) ==> out == [e]
    ensures !IsEscapable(e) ==> out == ['\\', e]
  {
    if IsEscapable(e) then [e] else ['\\', e]
  }

  /**
   * The value of a quoted string whose body starts at i, `acc` being what was
   * read before i, and the position after the closing quote. A backslash
   * with nothing after it fails (see the findings in README.md).
   */
  function StringFrom(s: string, i: nat, acc: string): (r: Result<(string, nat)>)
    decreases |s| - i
    ensures r.Ok? ==> i < r.value.1 <= |s| && s[r.value.1 - 1] == QUOTE
    ensures r.Ok? ==> |acc| <= |r.value.0|
  {
    if Peek(s, i) == '\0' then Fail(ParseError)
    else if s[i] == '\\' then
      if Peek(s, i + 1) == '\0' then Fail(ParseError)
      else StringFrom(s, i + 2, acc + Unescape(s[i + 1]))
    else if s[i] == QUOTE then Ok((acc, i + 1))
    else StringFrom(s, i + 1, acc + [s[i]])
  }

  /** ParseStringValue: an opening quote, then the body up to the closing quote. */
  function StringValue(s: string, pos: nat): (r: Result<(string, nat)>)
    ensures r.Ok? ==> pos + 2 <= r.value.1 <= |s| && s[pos] == QUOTE && s[r.value.1 - 1] == QUOTE
  {
    if Peek(s, pos) != QUOTE then Fail(ParseError) else StringFrom(s, pos + 1, "")
  }

  method ParseStringValue(s: string, pos: nat) returns (r: Result<(string, nat)>)
    ensures r == StringValue(s, pos)
  {
    if Peek(s, pos) != QUOTE {
      return Fail(ParseError);
    }
    var i, out := pos + 1, "";
    while Peek(s, i) != '\0'
      invariant StringFrom(s, i, out) == StringValue(s, pos)
      decreases |s| - i
    {
      if s[i] == '\\' {
        if Peek(s, i + 1) == '\0' {
          return Fail(ParseError);
        }
        out := out + Unescape(s[i + 1]);
        i := i + 2;
      } else if s[i] == QUOTE {
        break;
      } else {
        out := out + [s[i]];
        i := i + 1;
      }
    }
    if Peek(s, i) != QUOTE {
      return Fail(ParseError);
    }
    return Ok((out, i + 1));
  }

  /** Where the loop of ParseStringValue as written stops: with a result, or by reading `at`, past the terminating NUL. */
  datatype StringScan = Stopped(result: Result<(string, nat)>) | Overrun(at: nat)

  /**
   * The loop as written: after a backslash the cursor moves on to the next
   * character even when that is the terminating NUL, and the loop test then
   * reads the character after it.
   */
  function StringFromAsWritten(s: string, i: nat, acc: string): (r: StringScan)
    requires i <= |s| + 1
    decreases |s| + 2 - i
    ensures r.Overrun? ==> r.at == |s| + 1
  {
    if i > |s| then Overrun(i)
    else if Peek(s, i) == '\0' then Stopped(Fail(ParseError))
    else if s[i] == '\\' then StringFromAsWritten(s, i + 2, acc + Unescape(Peek(s, i + 1)))
    else if s[i] == QUOTE then Stopped(Ok((acc, i + 1)))
    else StringFromAsWritten(s, i + 1, acc + [s[i]])
  }

  /** The header text `'\` (a quote and a backslash): the loop as written reads index 3 of a two-character string. */
  lemma TrailingBackslashOverrun()
    ensures StringFromAsWritten("'\\", 1, "") == Overrun(3)
    ensures StringValue("'\\", 0) == Fail(ParseError)
  {
    assert Peek("'\\", 2) == '\0';
  }

  /**
   * On a C string (no NUL before its end) the corrected loop returns what the
   * loop as written returns wherever the latter stays inside the text, and
   * fails where it overruns.
   */
  lemma {:induction false} StringFromAgrees(s: string, i: nat, acc: string)
    requires i <= |s| && '\0' !in s
    decreases |s| - i
    ensures StringFromAsWritten(s, i, acc).Stopped? ==> StringFrom(s, i, acc) == StringFromAsWritten(s, i, acc).result
    ensures StringFromAsWritten(s, i, acc).Overrun? ==> StringFrom(s, i, acc) == Fail(ParseError)
  {
    if Peek(s, i) != '\0' {
      if s[i] == '\\' {
        if Peek(s, i + 1) != '\0' {
          StringFromAgrees(s, i + 2, acc + Unescape(s[i + 1]));
        }
      } else if s[i] != QUOTE {
        StringFromAgrees(s, i + 1, acc + [s[i]]);
      }
    }
  }

  /** How a string is written inside quotes: a backslash before each backslash and each quote. */
  function Escape(x: string): (e: string)
    ensures |x| <= |e|
  {
    if x == [] then [] else (if x[0] == '\\' || x[0] == QUOTE then ['\\', x[0]] else [x[0]]) + Escape(x[1..])
  }

  function Quote(x: string): string {
    [QUOTE] + Escape(x) + [QUOTE]
  }

  /** Reading an escaped string laid out at i, closed by a quote, yields the string and passes the quote. */
  lemma {:induction false} EscapedRead(s: string, i: nat, x: string, acc: string)
    requires '\0' !in x
    requires i + |Escape(x)| < |s| && s[i + |Escape(x)|] == QUOTE
    requires forall k :: 0 <= k < |Escape(x)| ==> s[i + k] == Escape(x)[k]
    decreases |x|
    ensures StringFrom(s, i, acc) == Ok((acc + x, i + |Escape(x)| + 1))
  {
    var e := Escape(x);
    if x == [] {
      assert acc + x == acc;
    } else {
      var h := if x[0] == '\\' || x[0] == QUOTE then 2 else 1;
      assert e == e[..h] + Escape(x[1..]);
      forall k | 0 <= k < |Escape(x[1..])|
        ensures s[i + h + k] == Escape(x[1..])[k]
      {
        assert s[i + h + k] == e[h + k];
      }
      assert s[i] == e[0];
      assert (acc + [x[0]]) + x[1..] == acc + x;
      if h == 2 {
        assert s[i + 1] == e[1];
      }
      EscapedRead(s, i + h, x[1..], acc + [x[0]]);
    }
  }

  /** A quoted string laid out at q is read back by ParseStringValue, which stops after its closing quote. */
  lemma StringValueAt(s: string, q: nat, x: string)
    requires '\0' !in x && TextAt(s, q, Quote(x))
    ensures StringValue(s, q) == Ok((x, q + |Quote(x)|))
  {
    var e := Escape(x);
    assert Quote(x) == [QUOTE] + (e + [QUOTE]);
    TextAtConcat(s, q, [QUOTE], e + [QUOTE]);
    TextAtConcat(s, q + 1, e, [QUOTE]);
    assert s[q + 0] == [QUOTE][0];
    assert s[q + 1 + |e| + 0] == [QUOTE][0];
    EscapedRead(s, q + 1, x, "");
    assert "" + x == x;
  }

  /** Round trip: ParseStringValue reads back any quoted string without a NUL, whatever follows it. */
  lemma StringRoundTrip(x: string, rest: string)
    requires '\0' !in x
    ensures StringValue(Quote(x) + rest, 0) == Ok((x, |Quote(x)|))
  {
    TextAtStart(Quote(x), rest);
    StringValueAt(Quote(x) + rest, 0, x);
  }

  /** A string with neither backslash nor quote is written as it is. */
  lemma {:induction false} EscapePlain(x: string)
    requires forall k :: 0 <= k < |x| ==> x[k] != '\\' && x[k] != QUOTE
    ensures Escape(x) == x
  {
    if x != [] {
      EscapePlain(x[1..]);
      assert [x[0]] + x[1..] == x;
    }
  }

  // ---- The shape tuple ----

  /**
   * One turn of the loop over the shape tuple at p, `count` extents being read
   * already: None at the closing parenthesis (which stays unread); otherwise
   * an integer, then optional spaces and a comma that only the first
   * integer needs, and the position after them.
   */
  function ShapeTurn(s: string, p: nat, count: nat): (r: Result<Option<(int, nat)>>)
    ensures r.Ok? && r.value.Some? ==> p < |s| && p < r.value.value.1
  {
    if Peek(s, p) == ')' then Ok(None)
    else
      var vq :- IntegerAt(s, p);
      var c := TrySkip(s, SpacesEnd(s, vq.1), ",");
      if !c.0 && count + 1 <= 1 then Fail(ParseError) else Ok(Some((vq.0, c.1)))
  }

  /** The loop over the shape tuple, from position p with `acc` read so far. */
  function ShapeFrom(s: string, p: nat, acc: seq<int>): Result<seq<int>>
    decreases |s| - p
  {
    var t :- ShapeTurn(s, p, |acc|);
    if t.None? then Ok(acc) else ShapeFrom(s, t.value.1, acc + [t.value.0])
  }

  method ParseShape(s: string, p: nat) returns (r: Result<seq<int>>)
    ensures r == ShapeFrom(s, p, [])
  {
    var shape: seq<int> := [];
    var q := p;
    while Peek(s, q) != ')'
      invariant ShapeFrom(s, q, shape) == ShapeFrom(s, p, [])
      decreases |s| - q
    {
      var vq := ParseInteger(s, q);
      if vq.Fail? {
        return Fail(vq.error);
      }
      shape := shape + [vq.value.0];
      var t := SkipSpaces(s, vq.value.1);
      var c := TrySkip(s, t, ",");
      if !c.0 && |shape| <= 1 {
        return Fail(ParseError);
      }
      q := c.1;
    }
    return Ok(shape);
  }

  /** One element of a printed tuple, the `n`-th: a separating space after the first, the digits, and a comma unless it is the last of several. */
  function Element(d: nat, n: nat, last: bool): string {
    (if n > 0 then " " else "") + Decimal(d) + (if !last || n == 0 then "," else "")
  }

  /** The inside of a tuple as Python prints it: `3,` for one element, `3, 4` for two; `n` elements come before. */
  function TupleBody(dims: seq<nat>, n: nat): string
    decreases |dims|
  {
    if dims == [] then "" else Element(dims[0], n, |dims| == 1) + TupleBody(dims[1..], n + 1)
  }

  function Tuple(dims: seq<nat>): string {
    "(" + TupleBody(dims, 0) + ")"
  }

  predicate InInt64(dims: seq<nat>) {
    forall k :: 0 <= k < |dims| ==> dims[k] <= INT64_MAX
  }

  /** One turn of the shape loop over a printed element: the integer, then the comma if the element has one. */
  lemma ElementRead(s: string, i: nat, d: nat, n: nat, last: bool)
    requires d <= INT64_MAX && TextAt(s, i, Element(d, n, last))
    requires last && n > 0 ==> Peek(s, i + |Element(d, n, last)|) == ')'
    ensures ShapeTurn(s, i, n) == Ok(Some((d as int, i + |Element(d, n, last)|)))
  {
    var q := ElementLayout(s, i, d, n, last);
    IntegerAfterSpace(s, i, d, n > 0);
    SeparatorAt(s, q);
    ShapeTurnAt(s, i, n, d, q);
  }

  /** Where the parts of a printed element sit: the digits end at q, followed by the comma or the closing parenthesis. */
  lemma ElementLayout(s: string, i: nat, d: nat, n: nat, last: bool) returns (q: nat)
    requires TextAt(s, i, Element(d, n, last))
    requires last && n > 0 ==> Peek(s, i + |Element(d, n, last)|) == ')'
    ensures q == (if n > 0 then i + 1 else i) + |Decimal(d)|
    ensures n > 0 ==> i < |s| && s[i] == ' '
    ensures TextAt(s, if n > 0 then i + 1 else i, Decimal(d))
    ensures Peek(s, i) != ')'
    ensures Peek(s, q) == if !last || n == 0 then ',' else ')'
    ensures !IsDigit(Peek(s, q))
    ensures i + |Element(d, n, last)| == if !last || n == 0 then q + 1 else q
  {
    var sp := if n > 0 then " " else "";
    var ds := Decimal(d);
    var c := if !last || n == 0 then "," else "";
    assert Element(d, n, last) == sp + (ds + c);
    TextAtConcat(s, i, sp, ds + c);
    TextAtConcat(s, i + |sp|, ds, c);
    q := i + |sp| + |ds|;
    if c == "," {
      assert s[q] == c[0];
    }
    if n > 0 {
      assert s[i] == sp[0];
    }
    assert s[i + |sp|] == ds[0];
  }

  /** A turn of the shape loop at an integer that ends at q. */
  lemma ShapeTurnAt(s: string, p: nat, count: nat, v: int, q: nat)
    requires Peek(s, p) != ')' && IntegerAt(s, p) == Ok((v, q))
    ensures var c := TrySkip(s, SpacesEnd(s, q), ",");
            ShapeTurn(s, p, count) == if !c.0 && count + 1 <= 1 then Fail(ParseError) else Ok(Some((v, c.1)))
  {
  }

  /** strtol at i over an optional space and the printed digits of d, followed by a non-digit. */
  lemma IntegerAfterSpace(s: string, i: nat, d: nat, space: bool)
    requires d <= INT64_MAX
    requires space ==> i < |s| && s[i] == ' '
    requires var j := if space then i + 1 else i;
             TextAt(s, j, Decimal(d)) && !IsDigit(Peek(s, j + |Decimal(d)|))
    ensures IntegerAt(s, i) == Ok((d as int, (if space then i + 1 else i) + |Decimal(d)|))
  {
    var j := if space then i + 1 else i;
    assert s[j] == Decimal(d)[0];
    if space {
      assert SpacesEnd(s, i + 1) == i + 1;
    }
    assert SpacesEnd(s, i) == j;
    IntegerRoundTrip(s, i, d, false);
  }

  /** After an element the loop meets a comma, which it passes, or the closing parenthesis, which it leaves. */
  lemma SeparatorAt(s: string, q: nat)
    requires Peek(s, q) == ',' || Peek(s, q) == ')'
    ensures SpacesEnd(s, q) == q
    ensures TrySkip(s, q, ",") == if Peek(s, q) == ',' then (true, q + 1) else (false, q)
  {
    assert ","[1..] == "";
    if Peek(s, q) != ',' {
      assert Peek(s, q) != ","[0];
    }
  }

  /** The elements of a printed tuple body, the first being the n-th, lie one after another from i, then the closing parenthesis. */
  predicate TupleAt(s: string, i: nat, dims: seq<nat>, n: nat)
    decreases |dims|
  {
    if dims == [] then TextAt(s, i, ")")
    else
      var el := Element(dims[0], n, |dims| == 1);
      TextAt(s, i, el) && TupleAt(s, i + |el|, dims[1..], n + 1)
  }

  /** A printed tuple body followed by its closing parenthesis is laid out element by element. */
  lemma {:induction false} TupleAtFromText(s: string, i: nat, dims: seq<nat>, n: nat)
    requires TextAt(s, i, TupleBody(dims, n) + ")")
    ensures TupleAt(s, i, dims, n)
    decreases |dims|
  {
    if dims == [] {
      assert TupleBody(dims, n) + ")" == ")";
    } else {
      var el := Element(dims[0], n, |dims| == 1);
      var rest := TupleBody(dims[1..], n + 1) + ")";
      assert TupleBody(dims, n) + ")" == el + rest;
      TextAtConcat(s, i, el, rest);
      TupleAtFromText(s, i + |el|, dims[1..], n + 1);
    }
  }

  /** Reading a tuple body laid out at i, up to its closing parenthesis, appends its elements to what was read before. */
  lemma {:induction false} ShapeRead(s: string, i: nat, dims: seq<nat>, acc: seq<int>, total: seq<int>)
    requires InInt64(dims) && TupleAt(s, i, dims, |acc|) && acc + dims == total
    decreases |dims|
    ensures ShapeFrom(s, i, acc) == Ok(total)
  {
    if dims == [] {
      ShapeFromEnd(s, i, acc);
      assert acc + dims == acc;
    } else {
      var e := ShapeReadStep(s, i, dims, acc);
      ConsSplit(acc, dims);
      ShapeRead(s, i + e, dims[1..], acc + [dims[0]], total);
      ShapeFromTurn(s, i, |acc|, dims[0], i + e, acc);
    }
  }

  lemma ShapeFromEnd(s: string, i: nat, acc: seq<int>)
    requires TextAt(s, i, ")")
    ensures ShapeFrom(s, i, acc) == Ok(acc)
  {
    assert Peek(s, i) == ")"[0];
  }

  /** A turn that reads v and moves to e leaves the rest of the loop to start at e with v appended. */
  lemma ShapeFromTurn(s: string, i: nat, n: nat, v: int, e: nat, acc: seq<int>)
    requires n == |acc| && ShapeTurn(s, i, n) == Ok(Some((v, e)))
    ensures ShapeFrom(s, i, acc) == ShapeFrom(s, e, acc + [v])
  {
  }

  lemma ConsSplit(acc: seq<int>, dims: seq<nat>)
    requires dims != []
    ensures acc + [dims[0]] + dims[1..] == acc + dims
  {
    assert dims == [dims[0]] + dims[1..];
  }

  /** The first element of a laid-out tuple body takes one turn of the loop and leaves the rest of the body. */
  lemma ShapeReadStep(s: string, i: nat, dims: seq<nat>, acc: seq<int>) returns (e: nat)
    requires dims != [] && InInt64(dims) && TupleAt(s, i, dims, |acc|)
    ensures ShapeTurn(s, i, |acc|) == Ok(Some((dims[0] as int, i + e)))
    ensures TupleAt(s, i + e, dims[1..], |acc + [dims[0]]|) && InInt64(dims[1..])
  {
    assert dims[0] <= INT64_MAX;
    forall k | 0 <= k < |dims| - 1 ensures dims[1..][k] <= INT64_MAX {
      assert dims[1..][k] == dims[k + 1];
    }
    e := TupleAtFirst(s, i, dims, |acc|);
    ElementRead(s, i, dims[0], |acc|, |dims| == 1);
  }

  /** The first element of a laid-out tuple body, then the rest of the body; the last element is followed by the closing parenthesis. */
  lemma TupleAtFirst(s: string, i: nat, dims: seq<nat>, n: nat) returns (e: nat)
    requires dims != [] && TupleAt(s, i, dims, n)
    ensures e == |Element(dims[0], n, |dims| == 1)|
    ensures TextAt(s, i, Element(dims[0], n, |dims| == 1))
    ensures TupleAt(s, i + e, dims[1..], n + 1)
    ensures |dims| == 1 && n > 0 ==> Peek(s, i + e) == ')'
  {
    e := |Element(dims[0], n, |dims| == 1)|;
    if |dims| == 1 {
      assert dims[1..] == [];
      assert TextAt(s, i + e, ")");
      assert s[i + e] == ")"[0];
    }
  }

  /** Round trip: the shape loop reads back a printed tuple of int64 extents. */
  lemma ShapeRoundTrip(dims: seq<nat>, rest: string)
    requires InInt64(dims)
    ensures ShapeFrom(Tuple(dims) + rest, 1, []) == Ok(dims)
  {
    var s := Tuple(dims) + rest;
    TextAtStart(Tuple(dims), rest);
    assert Tuple(dims) == "(" + (TupleBody(dims, 0) + ")");
    TextAtConcat(s, 0, "(", TupleBody(dims, 0) + ")");
    TupleAtFromText(s, 1, dims, 0);
    assert [] + dims == dims;
    ShapeRead(s, 1, dims, [], dims);
  }

  // ---- ParseHeaderMetadata ----

  /** What the header says: element type, memory order and shape (reversed for Fortran order). */
  datatype NumpyHeaderMeta = NumpyHeaderMeta(dtype: DALIDataType, fortranOrder: bool, shape: seq<int>)

  /** The byte-order marks that can be read here: little-endian, not applicable, native (little-endian hosts). */
  predicate IsLittleEndianMark(c: char) {
    c == '<' || c == '|' || c == '='
  }

  /** The descr field: its quoted type string, of which the first character is the byte order and the rest the type code. */
  function DescrField(s: string, p: nat): (r: Result<(DALIDataType, nat)>)
    ensures r.Ok? ==> HasNumpyCode(r.value.0) && p < r.value.1
  {
    var q :- FieldNameEnd(s, p, "descr");
    var sv :- StringValue(s, q);
    var typestr := sv.0;
    if !IsLittleEndianMark(Peek(typestr, 0)) then Fail(Unsupported)
    else
      var t :- TypeFromNumpyStr(typestr[1..]);
      Ok((t, sv.1))
  }

  /** The fortran_order field: True or False. */
  function FortranField(s: string, p: nat): (r: Result<(bool, nat)>)
    ensures r.Ok? ==> p < r.value.1
  {
    var q :- FieldNameEnd(s, p, "fortran_order");
    if TrySkip(s, q, "True").0 then Ok((true, q + 4))
    else if TrySkip(s, q, "False").0 then Ok((false, q + 5))
    else Fail(ParseError)
  }

  /** ParseHeaderMetadata: the three fields in their fixed order, separated by commas. */
  function HeaderMetadata(s: string): (r: Result<NumpyHeaderMeta>)
    ensures r.Ok? ==> HasNumpyCode(r.value.dtype)
  {
    var p :- Skip(s, SpacesEnd(s, 0), "{");
    var descr :- DescrField(s, p);
    var p :- Skip(s, SpacesEnd(s, descr.1), ",");
    var fortran :- FortranField(s, p);
    var shape :- ShapeField(s, fortran.1);
    Ok(NumpyHeaderMeta(descr.0, fortran.0, if fortran.0 then Reverse(shape) else shape))
  }

  /** The last field: the comma before it, its name, the opening parenthesis, then the extents. */
  function ShapeField(s: string, p: nat): Result<seq<int>> {
    var p :- Skip(s, SpacesEnd(s, p), ",");
    var p :- FieldNameEnd(s, p, "shape");
    var p :- Skip(s, p, "(");
    ShapeFrom(s, SpacesEnd(s, p), [])
  }

  method ParseDescr(s: string, p: nat) returns (r: Result<(DALIDataType, nat)>)
    ensures r == DescrField(s, p)
  {
    var q :- SkipFieldName(s, p, "descr");
    var sv :- ParseStringValue(s, q);
    var typestr := sv.0;
    if !IsLittleEndianMark(Peek(typestr, 0)) {
      return Fail(Unsupported);
    }
    var t :- TypeFromNumpyStr(typestr[1..]);
    return Ok((t, sv.1));
  }

  method ParseFortran(s: string, p: nat) returns (r: Result<(bool, nat)>)
    ensures r == FortranField(s, p)
  {
    var q :- SkipFieldName(s, p, "fortran_order");
    var t := TrySkip(s, q, "True");
    if t.0 {
      return Ok((true, t.1));
    }
    var f := TrySkip(s, q, "False");
    if f.0 {
      return Ok((false, f.1));
    }
    return Fail(ParseError);
  }

  method ParseHeaderMetadata(s: string) returns (r: Result<NumpyHeaderMeta>)
    ensures r == HeaderMetadata(s)
  {
    var p := SkipSpaces(s, 0);
    p :- Skip(s, p, "{");
    var descr :- ParseDescr(s, p);
    p := SkipSpaces(s, descr.1);
    p :- Skip(s, p, ",");
    var fortran :- ParseFortran(s, p);
    p := SkipSpaces(s, fortran.1);
    p :- Skip(s, p, ",");
    p :- SkipFieldName(s, p, "shape");
    p :- Skip(s, p, "(");
    p := SkipSpaces(s, p);
    var shape :- ParseShape(s, p);
    if fortran.0 {
      shape := Reverse(shape);
    }
    return Ok(NumpyHeaderMeta(descr.0, fortran.0, shape));
  }

  // ---- The header as NumPy writes it ----

  /** NumPy marks single-byte types as having no byte order and the others as little-endian. */
  function ByteOrderMark(t: DALIDataType): char {
    if SizeOf(t) == 1 then '|' else '<'
  }

  function DescrText(t: DALIDataType): string
    requires HasNumpyCode(t)
  {
    "'descr': " + Quote([ByteOrderMark(t)] + NumpyStr(t))
  }

  function FortranText(fortranOrder: bool): string {
    " 'fortran_order': " + (if fortranOrder then "True" else "False")
  }

  function ShapeText(dims: seq<nat>): string {
    " 'shape': " + Tuple(dims)
  }

  /** The dictionary literal numpy.save writes, such as {'descr': '<f4', 'fortran_order': False, 'shape': (3, 4), }. */
  function DictText(t: DALIDataType, fortranOrder: bool, dims: seq<nat>): string
    requires HasNumpyCode(t)
  {
    "{" + (DescrText(t) + ("," + (FortranText(fortranOrder) + ("," + (ShapeText(dims) + ", }")))))
  }

  lemma MatchesAt(s: string, i: nat, lit: string)
    requires TextAt(s, i, lit)
    ensures Matches(s, i, lit)
  {
    forall k | 0 <= k < |lit|
      ensures Peek(s, i + k) == lit[k]
    {
    }
  }

  lemma SkipAt(s: string, i: nat, lit: string)
    requires TextAt(s, i, lit)
    ensures Skip(s, i, lit) == Ok(i + |lit|)
  {
    MatchesAt(s, i, lit);
  }

  /** A field name laid out as `'name': ` (after a space when `lead`), followed by a value, is passed by SkipFieldName. */
  lemma FieldNameRead(s: string, i: nat, name: string, lead: bool)
    requires |name| > 0 && '\0' !in name
    requires TextAt(s, i, (if lead then " " else "") + ("'" + (name + "': ")))
    requires !IsSpace(Peek(s, i + |(if lead then " " else "") + ("'" + (name + "': "))|))
    ensures FieldNameEnd(s, i, name) == Ok(i + |(if lead then " " else "") + ("'" + (name + "': "))|)
  {
    var sp := if lead then " " else "";
    TextAtConcat(s, i, sp, "'" + (name + "': "));
    var j := i + |sp|;
    TextAtConcat(s, j, "'", name + "': ");
    TextAtConcat(s, j + 1, name, "': ");
    var k := j + 1 + |name|;
    assert "': " == "'" + (":" + " ");
    TextAtConcat(s, k, "'", ":" + " ");
    TextAtConcat(s, k + 1, ":", " ");
    assert s[j + 0] == "'"[0];
    if lead {
      assert s[i] == sp[0];
      assert SpacesEnd(s, i + 1) == i + 1;
    }
    assert SpacesEnd(s, i) == j;
    MatchesAt(s, j, "'");
    MatchesAt(s, j + 1, name);
    MatchesAt(s, k, "'");
    assert s[k + 1 + 0] == ":"[0];
    assert SpacesEnd(s, k + 1) == k + 1;
    MatchesAt(s, k + 1, ":");
    assert s[k + 2 + 0] == " "[0];
    assert SpacesEnd(s, k + 3) == k + 3;
    assert SpacesEnd(s, k + 2) == k + 3;
    FieldNameSteps(s, i, name, j, k + 3);
  }

  /** SkipFieldName succeeds when each of its steps does. */
  lemma FieldNameSteps(s: string, pos: nat, name: string, j: nat, e: nat)
    requires SpacesEnd(s, pos) == j && Matches(s, j, "'") && Matches(s, j + 1, name)
    requires var k := j + 1 + |name|;
             Matches(s, k, "'") && SpacesEnd(s, k + 1) == k + 1 && Matches(s, k + 1, ":") && SpacesEnd(s, k + 2) == e
    ensures FieldNameEnd(s, pos, name) == Ok(e)
  {
  }

  lemma DescrSteps(s: string, p: nat, q: nat, typestr: string, e: nat, t: DALIDataType)
    requires FieldNameEnd(s, p, "descr") == Ok(q) && StringValue(s, q) == Ok((typestr, e))
    requires IsLittleEndianMark(Peek(typestr, 0)) && TypeFromNumpyStr(typestr[1..]) == Ok(t)
    ensures DescrField(s, p) == Ok((t, e))
  {
  }

  /** The descr field as NumPy writes it is read back as its type. */
  lemma DescrRead(s: string, i: nat, t: DALIDataType)
    requires HasNumpyCode(t) && TextAt(s, i, DescrText(t))
    ensures DescrField(s, i) == Ok((t, i + |DescrText(t)|))
  {
    var ts := [ByteOrderMark(t)] + NumpyStr(t);
    var field := "" + ("'" + ("descr" + "': "));
    assert DescrText(t) == field + Quote(ts);
    TextAtConcat(s, i, field, Quote(ts));
    assert s[i + |field| + 0] == Quote(ts)[0];
    FieldNameRead(s, i, "descr", false);
    assert '\0' !in ts;
    StringValueAt(s, i + |field|, ts);
    assert ts[1..] == NumpyStr(t);
    NumpyStrRoundTrip(t, ts[1..]);
    DescrSteps(s, i, i + |field|, ts, i + |DescrText(t)|, t);
  }

  /** The fortran_order field as NumPy writes it is read back. */
  lemma FortranRead(s: string, i: nat, fortranOrder: bool)
    requires TextAt(s, i, FortranText(fortranOrder))
    ensures FortranField(s, i) == Ok((fortranOrder, i + |FortranText(fortranOrder)|))
  {
    var word := if fortranOrder then "True" else "False";
    var field := " " + ("'" + ("fortran_order" + "': "));
    assert FortranText(fortranOrder) == field + word;
    TextAtConcat(s, i, field, word);
    var q := i + |field|;
    assert s[q + 0] == word[0];
    FieldNameRead(s, i, "fortran_order", true);
    MatchesAt(s, q, word);
    if !fortranOrder {
      assert Peek(s, q + 0) != "True"[0];
    }
  }

  /** The first character of a printed tuple body, or its closing parenthesis, is not a space. */
  lemma TupleBodyStart(dims: seq<nat>)
    ensures !IsSpace((TupleBody(dims, 0) + ")")[0])
  {
    if dims != [] {
      assert TupleBody(dims, 0) == Decimal(dims[0]) + ("," + TupleBody(dims[1..], 1));
    }
  }

  /** The shape field as NumPy writes it: the loop starts inside the parenthesis and reads the extents. */
  lemma ShapeFieldRead(s: string, i: nat, dims: seq<nat>)
    requires InInt64(dims) && TextAt(s, i, ShapeText(dims))
    ensures FieldNameEnd(s, i, "shape") == Ok(i + 10)
    ensures Skip(s, i + 10, "(") == Ok(i + 10 + 1)
    ensures SpacesEnd(s, i + 10 + 1) == i + 10 + 1
    ensures ShapeFrom(s, i + 10 + 1, []) == Ok(dims)
  {
    ShapeFieldLayout(s, i, dims);
    FieldNameRead(s, i, "shape", true);
    SkipAt(s, i + 10, "(");
    assert [] + dims == dims;
    ShapeRead(s, i + 11, dims, [], dims);
  }

  /** Where the parts of the shape field sit: the name up to i + 10, the parenthesis, then the tuple body laid out. */
  lemma ShapeFieldLayout(s: string, i: nat, dims: seq<nat>)
    requires TextAt(s, i, ShapeText(dims))
    ensures TextAt(s, i, " " + ("'" + ("shape" + "': "))) && |" " + ("'" + ("shape" + "': "))| == 10
    ensures TextAt(s, i + 10, "(") && Peek(s, i + 10) == '('
    ensures !IsSpace(Peek(s, i + 11))
    ensures TupleAt(s, i + 11, dims, 0)
  {
    var field := " " + ("'" + ("shape" + "': "));
    var body := TupleBody(dims, 0) + ")";
    assert ShapeText(dims) == field + ("(" + body);
    TextAtConcat(s, i, field, "(" + body);
    TextAtConcat(s, i + 10, "(", body);
    assert s[i + 10 + 0] == "("[0];
    TupleBodyStart(dims);
    assert s[i + 11 + 0] == body[0];
    TupleAtFromText(s, i + 11, dims, 0);
  }

  /** ParseHeaderMetadata succeeds when each of its fields is read in turn. */
  lemma HeaderSteps(s: string, t: DALIDataType, a: nat, f: bool, b: nat, shape: seq<int>)
    requires SpacesEnd(s, 0) == 0 && Skip(s, 0, "{") == Ok(1) && DescrField(s, 1) == Ok((t, a))
    requires SpacesEnd(s, a) == a && Skip(s, a, ",") == Ok(a + 1) && FortranField(s, a + 1) == Ok((f, b))
    requires ShapeField(s, b) == Ok(shape)
    ensures HeaderMetadata(s) == Ok(NumpyHeaderMeta(t, f, if f then Reverse(shape) else shape))
  {
  }

  /**
   * Round trip: ParseHeaderMetadata reads back the dictionary NumPy writes,
   * whatever padding follows it; in Fortran order the shape comes back reversed.
   */
  lemma DictRoundTrip(t: DALIDataType, fortranOrder: bool, dims: seq<nat>, rest: string)
    requires HasNumpyCode(t) && InInt64(dims)
    ensures var shape: seq<int> := dims;
            HeaderMetadata(DictText(t, fortranOrder, dims) + rest) ==
            Ok(NumpyHeaderMeta(t, fortranOrder, if fortranOrder then Reverse(shape) else shape))
  {
    var s := DictText(t, fortranOrder, dims) + rest;
    TextAtStart(DictText(t, fortranOrder, dims), rest);
    DictRead(s, t, fortranOrder, dims);
  }

  /** The dictionary laid out at the start of the header text is read back. */
  lemma DictRead(s: string, t: DALIDataType, fortranOrder: bool, dims: seq<nat>)
    requires HasNumpyCode(t) && InInt64(dims) && TextAt(s, 0, DictText(t, fortranOrder, dims))
    ensures var shape: seq<int> := dims;
            HeaderMetadata(s) == Ok(NumpyHeaderMeta(t, fortranOrder, if fortranOrder then Reverse(shape) else shape))
  {
    var a: nat := 1 + |DescrText(t)|;
    var b: nat := a + 1 + |FortranText(fortranOrder)|;
    DictLayout(s, t, fortranOrder, dims, a, b);
    DictDescr(s, t, a);
    DictFortran(s, fortranOrder, a, b);
    DictShape(s, dims, b);
    HeaderSteps(s, t, a, fortranOrder, b, dims);
  }

  /** The offsets of the two commas in the dictionary text. */
  predicate DictCommas(t: DALIDataType, fortranOrder: bool, a: nat, b: nat)
    requires HasNumpyCode(t)
  {
    a == 1 + |DescrText(t)| && b == a + 1 + |FortranText(fortranOrder)|
  }

  /** The opening brace, then the descr field up to the first comma at a. */
  lemma DictDescr(s: string, t: DALIDataType, a: nat)
    requires HasNumpyCode(t) && a == 1 + |DescrText(t)|
    requires 0 < |s| && s[0] == '{' && TextAt(s, 1, DescrText(t))
    ensures SpacesEnd(s, 0) == 0 && Skip(s, 0, "{") == Ok(1) && DescrField(s, 1) == Ok((t, a))
  {
    CharSkip(s, 0, "{");
    DescrRead(s, 1, t);
  }

  /** The first comma, then the fortran_order field up to the second comma at b. */
  lemma DictFortran(s: string, fortranOrder: bool, a: nat, b: nat)
    requires b == a + 1 + |FortranText(fortranOrder)|
    requires a < |s| && s[a] == ',' && TextAt(s, a + 1, FortranText(fortranOrder))
    ensures SpacesEnd(s, a) == a && Skip(s, a, ",") == Ok(a + 1) && FortranField(s, a + 1) == Ok((fortranOrder, b))
  {
    CharSkip(s, a, ",");
    FortranRead(s, a + 1, fortranOrder);
  }

  /** The second comma, then the shape field. */
  lemma DictShape(s: string, dims: seq<nat>, b: nat)
    requires InInt64(dims) && b < |s| && s[b] == ',' && TextAt(s, b + 1, ShapeText(dims))
    ensures ShapeField(s, b) == Ok(dims)
  {
    CharSkip(s, b, ",");
    ShapeFieldRead(s, b + 1, dims);
    ShapeFieldSteps(s, b, b + 1 + 10, dims);
  }

  lemma ShapeFieldSteps(s: string, b: nat, e: nat, shape: seq<int>)
    requires SpacesEnd(s, b) == b && Skip(s, b, ",") == Ok(b + 1) && FieldNameEnd(s, b + 1, "shape") == Ok(e)
    requires Skip(s, e, "(") == Ok(e + 1) && SpacesEnd(s, e + 1) == e + 1 && ShapeFrom(s, e + 1, []) == Ok(shape)
    ensures ShapeField(s, b) == Ok(shape)
  {
  }

  /** Where each field of the dictionary and each separator sits in the text. */
  lemma DictLayout(s: string, t: DALIDataType, fortranOrder: bool, dims: seq<nat>, a: nat, b: nat)
    requires HasNumpyCode(t) && TextAt(s, 0, DictText(t, fortranOrder, dims)) && DictCommas(t, fortranOrder, a, b)
    ensures b < |s| && s[0] == '{' && s[a] == ',' && s[b] == ','
    ensures TextAt(s, 1, DescrText(t)) && TextAt(s, a + 1, FortranText(fortranOrder)) && TextAt(s, b + 1, ShapeText(dims))
  {
    var d, fo, sh := DescrText(t), FortranText(fortranOrder), ShapeText(dims);
    TextAtConcat(s, 0, "{", d + ("," + (fo + ("," + (sh + ", }")))));
    TextAtConcat(s, 1, d, "," + (fo + ("," + (sh + ", }"))));
    TextAtConcat(s, a, ",", fo + ("," + (sh + ", }")));
    TextAtConcat(s, a + 1, fo, "," + (sh + ", }"));
    TextAtConcat(s, b, ",", sh + ", }");
    TextAtConcat(s, b + 1, sh, ", }");
    assert s[0 + 0] == "{"[0];
    assert s[a + 0] == ","[0];
    assert s[b + 0] == ","[0];
  }

  /** A single non-space character is passed by SkipSpaces then Skip. */
  lemma CharSkip(s: string, i: nat, lit: string)
    requires |lit| == 1 && i < |s| && s[i] == lit[0] && !IsSpace(lit[0]) && lit[0] != '\0'
    ensures SpacesEnd(s, i) == i && Skip(s, i, lit) == Ok(i + 1)
  {
    assert Peek(s, i) == lit[0] && lit[1..] == "";
  }
}
