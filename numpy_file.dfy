/**
 * ParseHeader of the .npy reader: the checks on the ten-byte preamble (magic,
 * header length) and the header text that follows it, over the bytes of the file.
 */
module NumpyFile {
  import opened Wrappers
  import opened DaliTypes
  import opened ByteIO
  import opened NumpyHeader

  /** FileStream::Read from position `pos`: up to n bytes, fewer at the end of the file. */
  function ReadAt(data: seq<byte>, pos: nat, n: nat): (r: seq<byte>)
    ensures |r| <= n
    ensures pos + n <= |data| ==> r == data[pos..pos + n]
    ensures |r| == n > 0 ==> pos + n <= |data|
  {
    if pos >= |data| then [] else data[pos..if pos + n <= |data| then pos + n else |data|]
  }

  /** std::string built from a NUL-terminated buffer: the characters before the first zero byte. */
  function CString(b: seq<byte>): (h: string)
    ensures |h| <= |b| && '\0' !in h
    ensures forall k :: 0 <= k < |h| ==> h[k] == b[k] as char
    ensures |h| < |b| ==> b[|h|] == 0
  {
    if b == [] || b[0] == 0 then "" else [b[0] as char] + CString(b[1..])
  }

  /** The word NUMPY starts at position k of the text. */
  predicate WordAt(h: string, k: int) {
    0 <= k && k + 5 <= |h| && h[k..k + 5] == "NUMPY"
  }

  /** header.find("NUMPY") != npos: the text contains the word NUMPY. */
  predicate Magic(h: string) {
    exists k | 0 <= k <= |h| :: WordAt(h, k)
  }

  /** header.find_first_of("NUMPY") != npos: the text contains one of the letters N, U, M, P, Y. */
  predicate MagicAsWritten(h: string) {
    exists k :: 0 <= k < |h| && h[k] in "NUMPY"
  }

  /**
   * ParseHeader, with the magic check as evidently intended: read ten bytes at the
   * stream position, check for the word NUMPY, take the little-endian header length
   * from bytes 8 and 9, which must bring the data to a multiple of 16, read the header
   * text at offset 10 and parse it. The result is the metadata and the data offset,
   * 10 + header length.
   */
  function HeaderAt(data: seq<byte>, start: nat): (r: Result<(NumpyHeaderMeta, nat)>)
    ensures r.Ok? ==> r.value.1 % 16 == 0 && 10 <= r.value.1 <= |data|
    ensures r.Ok? ==> HasNumpyCode(r.value.0.dtype)
    ensures |data| < start + 10 ==> r == Fail(EndOfStream)
  {
    var token := ReadAt(data, start, 10);
    if |token| != 10 then Fail(EndOfStream)
    else if !Magic(CString(token)) then Fail(ParseError)
    else HeaderLength(data, token)
  }

  /** ParseHeader as written: the magic check passes on any one of the letters of NUMPY. */
  function HeaderAtAsWritten(data: seq<byte>, start: nat): (r: Result<(NumpyHeaderMeta, nat)>)
    ensures r.Ok? ==> r.value.1 % 16 == 0 && 10 <= r.value.1 <= |data|
    ensures r.Ok? ==> HasNumpyCode(r.value.0.dtype)
    ensures |data| < start + 10 ==> r == Fail(EndOfStream)
  {
    var token := ReadAt(data, start, 10);
    if |token| != 10 then Fail(EndOfStream)
    else if !MagicAsWritten(CString(token)) then Fail(ParseError)
    else HeaderLength(data, token)
  }

  /** The checks after the magic: the header length from bytes 8 and 9, then the header text. */
  function HeaderLength(data: seq<byte>, token: seq<byte>): (r: Result<(NumpyHeaderMeta, nat)>)
    requires |token| == 10
    ensures r.Ok? ==> r.value.1 % 16 == 0 && 10 <= r.value.1 <= |data| && HasNumpyCode(r.value.0.dtype)
  {
    var len := LE16(token, 8);
    if (len + 10) % 16 != 0 then Fail(ParseError)
    else HeaderBody(data, len)
  }

  /**
   * The two readers differ only on a preamble that has a letter of NUMPY but not the
   * word: there the intended one fails and the written one goes on to the header length.
   */
  lemma HeaderAtAgrees(data: seq<byte>, start: nat)
    ensures var h := CString(ReadAt(data, start, 10));
            HeaderAtAsWritten(data, start) != HeaderAt(data, start) <==>
              |ReadAt(data, start, 10)| == 10 && MagicAsWritten(h) && !Magic(h) &&
              HeaderAtAsWritten(data, start) != Fail(ParseError)
    ensures HeaderAt(data, start).Ok? ==> HeaderAtAsWritten(data, start) == HeaderAt(data, start)
  {
    var token := ReadAt(data, start, 10);
    if Magic(CString(token)) {
      MagicImpliesAsWritten(CString(token));
    }
  }

  /** The second half of ParseHeader: the header text of `len` bytes at offset 10, which must hold a brace. */
  function HeaderBody(data: seq<byte>, len: nat): (r: Result<(NumpyHeaderMeta, nat)>)
    ensures r.Ok? ==> r.value.1 == 10 + len <= |data| && HasNumpyCode(r.value.0.dtype)
  {
    var body := ReadAt(data, 10, len);
    if |body| != len then Fail(EndOfStream)
    else
      var header := CString(body);
      if '{' !in header then Fail(ParseError)
      else
        var meta :- HeaderMetadata(header);
        Ok((meta, 10 + len))
  }

  /** The corrected magic check is stricter than the written one: it accepts no file the written one rejects. */
  lemma MagicImpliesAsWritten(h: string)
    requires Magic(h)
    ensures MagicAsWritten(h)
  {
    var k :| 0 <= k <= |h| && WordAt(h, k);
    assert h[k] == h[k..k + 5][0] == 'N';
  }

  /** The first ten bytes of a ZIP archive (an .npz file) pass the written magic check but hold no NUMPY. */
  lemma ZipPassesMagicCheck()
    ensures var token: seq<byte> := [0x50, 0x4B, 0x03, 0x04, 0x14, 0, 0, 0, 8, 0];
            MagicAsWritten(CString(token)) && !Magic(CString(token))
  {
    var token: seq<byte> := [0x50, 0x4B, 0x03, 0x04, 0x14, 0, 0, 0, 8, 0];
    var h := CString(token);
    CStringStops(token, 5);
    assert h == ['P', 'K', 3 as char, 4 as char, 0x14 as char];
    assert h[0] in "NUMPY";
    forall k | 0 <= k <= |h|
      ensures !WordAt(h, k)
    {
      if k + 5 <= |h| {
        assert h[k..k + 5][1] == 'K';
      }
    }
  }

  /** A buffer whose first zero byte is at n yields the n bytes before it. */
  lemma {:induction false} CStringStops(b: seq<byte>, n: nat)
    requires n < |b| && b[n] == 0 && forall k :: 0 <= k < n ==> b[k] != 0
    ensures |CString(b)| == n
    decreases n
  {
    if n > 0 {
      CStringStops(b[1..], n - 1);
    }
  }

  // ---- The file NumPy writes ----

  /** Characters of plain ASCII, without NUL. */
  predicate IsAscii(s: string) {
    forall k :: 0 <= k < |s| ==> 0 < s[k] as int < 128
  }

  /** The bytes of an ASCII text. */
  function AsciiBytes(h: string): (b: seq<byte>)
    requires IsAscii(h)
    ensures |b| == |h| && forall k :: 0 <= k < |h| ==> b[k] == h[k] as int
  {
    seq(|h|, k requires 0 <= k < |h| => h[k] as int)
  }

  /** The white space numpy.save puts between the dictionary and the closing newline. */
  function Padding(n: nat): (p: string)
    ensures |p| == n && forall k :: 0 <= k < n ==> p[k] == ' '
  {
    seq(n, k => ' ')
  }

  /** The header text of a version 1.0 file: the dictionary, padding, and a newline. */
  function HeaderText(t: DALIDataType, fortranOrder: bool, dims: seq<nat>, pad: nat): (h: string)
    requires HasNumpyCode(t)
    ensures IsAscii(h) && |h| > 0 && h[0] == '{'
  {
    DictAscii(t, fortranOrder, dims, pad);
    DictText(t, fortranOrder, dims) + (Padding(pad) + "\n")
  }

  /** The ten bytes before the header text of a version 1.0 file: magic \x93NUMPY, version 1.0, the header length. */
  function Preamble(len: nat): (token: seq<byte>)
    requires len < 0x1_0000
    ensures |token| == 10 && LE16(token, 8) == len
  {
    [0x93, 'N' as int, 'U' as int, 'M' as int, 'P' as int, 'Y' as int, 1, 0] + EncodeLE16(len)
  }

  /** A version 1.0 .npy file: the preamble, the header text, then the data. */
  function NpyBytes(h: string, payload: seq<byte>): seq<byte>
    requires IsAscii(h) && |h| < 0x1_0000
  {
    Preamble(|h|) + AsciiBytes(h) + payload
  }

  /**
   * Round trip: a version 1.0 file as numpy.save writes it, with the header padded
   * so the data starts at a multiple of 16, is read back: its type, order and shape
   * (reversed in Fortran order), and the offset of the data.
   */
  lemma FileRoundTrip(t: DALIDataType, fortranOrder: bool, dims: seq<nat>, pad: nat, payload: seq<byte>)
    requires HasNumpyCode(t) && InInt64(dims)
    requires var h := HeaderText(t, fortranOrder, dims, pad); |h| < 0x1_0000 && (10 + |h|) % 16 == 0
    ensures var h := HeaderText(t, fortranOrder, dims, pad);
            var shape: seq<int> := dims;
            HeaderAt(NpyBytes(h, payload), 0) ==
            Ok((NumpyHeaderMeta(t, fortranOrder, if fortranOrder then Reverse(shape) else shape), 10 + |h|))
  {
    var h := HeaderText(t, fortranOrder, dims, pad);
    var shape: seq<int> := dims;
    var meta := NumpyHeaderMeta(t, fortranOrder, if fortranOrder then Reverse(shape) else shape);
    assert HeaderMetadata(h) == Ok(meta) by {
      DictRoundTrip(t, fortranOrder, dims, Padding(pad) + "\n");
    }
    FileRead(h, payload, meta);
  }

  /** A file whose header text parses is read back, with the data at 10 + the header length. */
  lemma FileRead(h: string, payload: seq<byte>, meta: NumpyHeaderMeta)
    requires IsAscii(h) && |h| < 0x1_0000 && (10 + |h|) % 16 == 0
    requires |h| > 0 && h[0] == '{' && HeaderMetadata(h) == Ok(meta)
    ensures HeaderAt(NpyBytes(h, payload), 0) == Ok((meta, 10 + |h|))
  {
    FileLayout(h, payload);
    HeaderAtSteps(NpyBytes(h, payload), Preamble(|h|), h, meta);
  }

  /** Where the preamble and the header text sit in the file. */
  lemma FileLayout(h: string, payload: seq<byte>)
    requires IsAscii(h) && |h| < 0x1_0000
    ensures ReadAt(NpyBytes(h, payload), 0, 10) == Preamble(|h|)
    ensures ReadAt(NpyBytes(h, payload), 10, |h|) == AsciiBytes(h)
    ensures Magic(CString(Preamble(|h|)))
    ensures CString(AsciiBytes(h)) == h
  {
    var data := NpyBytes(h, payload);
    var token := Preamble(|h|);
    assert data[..10] == token;
    assert data[10..10 + |h|] == AsciiBytes(h);
    CStringStops(token, 7);
    assert WordAt(CString(token), 1);
    CStringOfAscii(h);
  }

  /** ParseHeader succeeds when each of its checks passes. */
  lemma HeaderAtSteps(data: seq<byte>, token: seq<byte>, h: string, meta: NumpyHeaderMeta)
    requires IsAscii(h)
    requires |token| == 10 && ReadAt(data, 0, 10) == token && Magic(CString(token))
    requires var len := LE16(token, 8);
             (len + 10) % 16 == 0 && len == |h| && ReadAt(data, 10, len) == AsciiBytes(h)
    requires CString(AsciiBytes(h)) == h && |h| > 0 && h[0] == '{' && HeaderMetadata(h) == Ok(meta)
    ensures HeaderAt(data, 0) == Ok((meta, 10 + |h|))
  {
    assert '{' in h;
  }

  /** An ASCII text read back as a C string is the text itself. */
  lemma {:induction false} CStringOfAscii(h: string)
    requires IsAscii(h)
    ensures CString(AsciiBytes(h)) == h
  {
    if h != [] {
      assert AsciiBytes(h)[1..] == AsciiBytes(h[1..]);
      CStringOfAscii(h[1..]);
    }
  }

  // ---- The header text is ASCII ----

  lemma AsciiConcat(a: string, b: string)
    requires IsAscii(a) && IsAscii(b)
    ensures IsAscii(a + b)
  {
    forall k | 0 <= k < |a + b|
      ensures 0 < (a + b)[k] as int < 128
    {
      if k >= |a| {
        assert (a + b)[k] == b[k - |a|];
      }
    }
  }

  lemma {:induction false} EscapeAscii(x: string)
    requires IsAscii(x)
    ensures IsAscii(Escape(x))
  {
    if x != [] {
      EscapeAscii(x[1..]);
      AsciiConcat(if x[0] == '\\' || x[0] == QUOTE then ['\\', x[0]] else [x[0]], Escape(x[1..]));
    }
  }

  lemma {:induction false} TupleBodyAscii(dims: seq<nat>, n: nat)
    ensures IsAscii(TupleBody(dims, n))
    decreases |dims|
  {
    if dims != [] {
      var d := Decimal(dims[0]);
      AsciiConcat(if n > 0 then " " else "", d);
      AsciiConcat((if n > 0 then " " else "") + d, if !(|dims| == 1) || n == 0 then "," else "");
      TupleBodyAscii(dims[1..], n + 1);
      AsciiConcat(Element(dims[0], n, |dims| == 1), TupleBody(dims[1..], n + 1));
    }
  }

  /** The header text NumPy writes is ASCII: it survives the trip through bytes and holds no NUL. */
  lemma DictAscii(t: DALIDataType, fortranOrder: bool, dims: seq<nat>, pad: nat)
    requires HasNumpyCode(t)
    ensures IsAscii(DictText(t, fortranOrder, dims) + (Padding(pad) + "\n"))
  {
    var d, fo, sh := DescrText(t), FortranText(fortranOrder), ShapeText(dims);
    DescrAscii(t);
    ShapeAscii(dims);
    assert IsAscii(fo);
    AsciiConcat(sh, ", }");
    AsciiConcat(",", sh + ", }");
    AsciiConcat(fo, "," + (sh + ", }"));
    AsciiConcat(",", fo + ("," + (sh + ", }")));
    AsciiConcat(d, "," + (fo + ("," + (sh + ", }"))));
    AsciiConcat("{", d + ("," + (fo + ("," + (sh + ", }")))));
    AsciiConcat(Padding(pad), "\n");
    AsciiConcat(DictText(t, fortranOrder, dims), Padding(pad) + "\n");
  }

  lemma DescrAscii(t: DALIDataType)
    requires HasNumpyCode(t)
    ensures IsAscii(DescrText(t))
  {
    var ts := [ByteOrderMark(t)] + NumpyStr(t);
    EscapeAscii(ts);
    AsciiConcat([QUOTE], Escape(ts));
    AsciiConcat([QUOTE] + Escape(ts), [QUOTE]);
    AsciiConcat("'descr': ", Quote(ts));
  }

  lemma ShapeAscii(dims: seq<nat>)
    ensures IsAscii(ShapeText(dims))
  {
    TupleBodyAscii(dims, 0);
    AsciiConcat("(", TupleBody(dims, 0));
    AsciiConcat("(" + TupleBody(dims, 0), ")");
    AsciiConcat(" 'shape': ", Tuple(dims));
  }
}
