/**
 What the library's number parser makes of a chunk's size line: padding, a sign, a prefix and what follows the digits.
 The value is said digit by digit, in powers of 16.
*/
module SizeLines {
  import opened Chunks
  import opened BodyFraming

  const SMALL_DIGITS := "0123456789abcdef"
  const CAPITAL_DIGITS := "0123456789ABCDEF"

  ghost predicate Stands(c: char, v: nat) {
    v < 16 && (c == SMALL_DIGITS[v] || c == CAPITAL_DIGITS[v])
  }

  /** The characters are the digits `ds`, in either case. */
  ghost predicate Spells(s: Bytes, ds: seq<nat>) {
    |s| == |ds| && forall i :: 0 <= i < |s| ==> Stands(s[i], ds[i])
  }

  function Value(ds: seq<nat>): nat {
    if ds == [] then 0 else ds[0] * Pow16(|ds| - 1) + Value(ds[1..])
  }

  ghost predicate StartsWithDigit(s: Bytes) {
    s != [] && exists v :: Stands(s[0], v)
  }

  /** The white space of the C library. */
  predicate Blank(c: char) {
    c as int in {9, 10, 11, 12, 13, 32}
  }

  predicate Blanks(s: Bytes) {
    forall i :: 0 <= i < |s| ==> Blank(s[i])
  }

  lemma SmallDigit(v: nat)
    requires v < 16
    ensures SMALL_DIGITS[v] == (if v < 10 then '0' + v as char else 'a' + (v - 10) as char)
    ensures CAPITAL_DIGITS[v] == (if v < 10 then '0' + v as char else 'A' + (v - 10) as char)
  {
  }

  lemma StandsIs(c: char, v: nat)
    ensures Stands(c, v) ==> IsHex(c) && HexDigit(c) == v
    ensures IsHex(c) ==> Stands(c, HexDigit(c))
  {
    if v < 16 { SmallDigit(v); }
    if IsHex(c) { SmallDigit(HexDigit(c)); }
    hide SMALL_DIGITS, CAPITAL_DIGITS;
  }

  lemma StartsIff(s: Bytes)
    ensures StartsWithDigit(s) <==> s != [] && IsHex(s[0])
  {
    if s != [] {
      if IsHex(s[0]) { StandsIs(s[0], 0); }
      if v :| Stands(s[0], v) { StandsIs(s[0], v); }
    }
  }

  lemma {:induction false} NumberIs(d: Bytes, ds: seq<nat>, t: Bytes, n: nat)
    requires Spells(d, ds) && !StartsWithDigit(t)
    ensures Number(d + t, n) == n * Pow16(|d|) + Value(ds)
  {
    StartsIff(t);
    if d == [] {
      assert d + t == t;
    } else {
      assert Stands(d[0], ds[0]);
      StandsIs(d[0], ds[0]);
      assert (d + t)[0] == d[0] && (d + t)[1..] == d[1..] + t;
      NumberIs(d[1..], ds[1..], t, n * 16 + ds[0]);
      Horner(n, ds[0], Pow16(|d| - 1));
      hide HexDigit, IsHex;
    }
  }

  lemma Horner(n: nat, v: nat, p: nat)
    ensures (n * 16 + v) * p == n * (16 * p) + v * p
  {
  }

  lemma {:induction false} SkipsBlanks(blanks: Bytes, s: Bytes)
    requires Blanks(blanks) && (s == [] || !Blank(s[0]))
    ensures SkipSpace(blanks + s) == s
  {
    if blanks == [] {
      assert blanks + s == s;
    } else {
      assert Blank(blanks[0]);
      assert (blanks + s)[0] == blanks[0] && (blanks + s)[1..] == blanks[1..] + s;
      SkipsBlanks(blanks[1..], s);
    }
  }

  /** A digit is no blank and no sign. */
  lemma DigitFace(c: char)
    requires IsHex(c)
    ensures !Blank(c) && c != '+' && c != '-' && c != 'x' && c != 'X'
  {
  }

  /** What strtoul answers for a number: too large is an error, a minus counts down from 2^64. */
  function Kept(sign: Bytes, n: nat): Option<nat> {
    if n >= WORD then None else if sign == "-" && n > 0 then Some(WORD - n) else Some(n)
  }

  predicate IsSign(s: Bytes) {
    s == "" || s == "+" || s == "-"
  }

  predicate IsPrefix(s: Bytes) {
    s == "" || s == "0x" || s == "0X"
  }

  /** A zero with an x and a digit behind it is no number but a prefix. */
  ghost predicate LooksPrefixed(d: Bytes, t: Bytes) {
    d == "0" && |t| >= 2 && (t[0] == 'x' || t[0] == 'X') && StartsWithDigit(t[1..])
  }

  lemma UnsignedIs(prefix: Bytes, d: Bytes, ds: seq<nat>, t: Bytes)
    requires IsPrefix(prefix) && d != [] && Spells(d, ds) && !StartsWithDigit(t)
    requires prefix == "" ==> !LooksPrefixed(d, t)
    ensures Unsigned(prefix + (d + t)) == d + t
  {
    var u := prefix + (d + t);
    assert Stands(d[0], ds[0]);
    StandsIs(d[0], ds[0]);
    if prefix != "" {
      assert u[2..] == d + t && u[2] == d[0];
    } else {
      assert u == d + t;
      if |u| >= 3 && u[0] == '0' && (u[1] == 'x' || u[1] == 'X') && IsHex(u[2]) {
        if |d| > 1 {
          assert Stands(d[1], ds[1]);
          StandsIs(d[1], ds[1]);
          DigitFace(d[1]);
        } else {
          assert d == "0" && t[0] == u[1] && t[1..][0] == u[2];
          StartsIff(t[1..]);
        }
      }
    }
  }

  /**
   White space, a sign or none, 0x or nothing, digits in either case with leading zeros or without, and anything
   that does not start with a digit: the answer is the value of the digits if it is below 2^64.
  */
  lemma NumberRead(blanks: Bytes, sign: Bytes, prefix: Bytes, d: Bytes, ds: seq<nat>, t: Bytes)
    requires Blanks(blanks) && IsSign(sign) && IsPrefix(prefix)
    requires d != [] && Spells(d, ds) && !StartsWithDigit(t)
    requires prefix == "" ==> !LooksPrefixed(d, t)
    ensures StrToUL(blanks + (sign + (prefix + (d + t)))) == Kept(sign, Value(ds))
  {
    hide Number, Value, SkipSpace, Unsigned, Spells, Pow16, StartsWithDigit, Blanks, LooksPrefixed;
    var u := prefix + (d + t);
    PrefixFace(prefix, d, ds, t);
    SignFace(sign, u);
    SkipsBlanks(blanks, sign + u);
    UnsignedIs(prefix, d, ds, t);
    NumberIs(d, ds, t, 0);
  }

  lemma PrefixFace(prefix: Bytes, d: Bytes, ds: seq<nat>, t: Bytes)
    requires IsPrefix(prefix) && d != [] && Spells(d, ds)
    ensures var u := prefix + (d + t); u != [] && !Blank(u[0]) && u[0] != '+' && u[0] != '-'
    ensures (d + t) != [] && IsHex((d + t)[0])
  {
    assert Stands(d[0], ds[0]);
    StandsIs(d[0], ds[0]);
    DigitFace(d[0]);
    assert (prefix + (d + t))[0] == if prefix == "" then d[0] else '0';
  }

  lemma SignFace(sign: Bytes, u: Bytes)
    requires IsSign(sign) && u != [] && !Blank(u[0]) && u[0] != '+' && u[0] != '-'
    ensures var s := sign + u;
            && s != [] && !Blank(s[0]) && (s[0] == '+' <==> sign == "+") && (s[0] == '-' <==> sign == "-")
            && (sign == "" ==> s == u) && (sign != "" ==> s[1..] == u)
  {
  }

  /** Without a digit there is no number. */
  lemma NothingRead(blanks: Bytes, sign: Bytes, t: Bytes)
    requires Blanks(blanks) && IsSign(sign) && !StartsWithDigit(t)
    requires sign == "" ==> t == [] || (!Blank(t[0]) && t[0] != '+' && t[0] != '-')
    ensures StrToUL(blanks + (sign + t)) == None
  {
    StartsIff(t);
    var s := sign + t;
    assert sign == "" ==> s == t;
    assert sign != "" ==> s[0] == sign[0] && s[1..] == t;
    SkipsBlanks(blanks, s);
    assert Unsigned(t) == t;
    hide Number, SkipSpace;
  }

  lemma {:induction false} LeadingDigits(s: Bytes) returns (d: Bytes, ds: seq<nat>, t: Bytes)
    ensures s == d + t && Spells(d, ds) && !StartsWithDigit(t)
  {
    StartsIff(s);
    if s == [] || !IsHex(s[0]) {
      d, ds, t := [], [], s;
    } else {
      StandsIs(s[0], 0);
      d, ds, t := LeadingDigits(s[1..]);
      d, ds := [s[0]] + d, [HexDigit(s[0])] + ds;
    }
  }

  lemma {:induction false} LeadingBlanks(s: Bytes) returns (blanks: Bytes, t: Bytes)
    ensures s == blanks + t && Blanks(blanks) && (t == [] || !Blank(t[0]))
  {
    if s == [] || !Blank(s[0]) {
      blanks, t := [], s;
    } else {
      blanks, t := LeadingBlanks(s[1..]);
      blanks := [s[0]] + blanks;
    }
  }

  /** Every line is of one of the two kinds, so the two answers above are all there are. */
  lemma EveryLine(s: Bytes) returns (blanks: Bytes, sign: Bytes, prefix: Bytes, d: Bytes, ds: seq<nat>, t: Bytes)
    ensures s == blanks + (sign + (prefix + (d + t)))
    ensures Blanks(blanks) && IsSign(sign) && IsPrefix(prefix) && Spells(d, ds) && !StartsWithDigit(t)
    ensures d != [] ==> (prefix == "" ==> !LooksPrefixed(d, t))
    ensures d == [] ==>
              prefix == "" && (sign == "" ==> t == [] || (!Blank(t[0]) && t[0] != '+' && t[0] != '-'))
  {
    var u;
    blanks, u := LeadingBlanks(s);
    sign := if u != [] && (u[0] == '+' || u[0] == '-') then u[..1] else "";
    assert IsSign(sign) && u == sign + u[|sign|..];
    var v := u[|sign|..];
    prefix := "";
    if |v| >= 3 && v[0] == '0' && (v[1] == 'x' || v[1] == 'X') && IsHex(v[2]) {
      prefix := v[..2];
      assert IsPrefix(prefix) && v == prefix + v[2..];
      StartsIff(v[2..]);
      d, ds, t := LeadingDigits(v[2..]);
    } else {
      d, ds, t := LeadingDigits(v);
      assert prefix + v == v;
      if d == "0" && |t| >= 2 {
        StartsIff(t[1..]);
        assert v[1] == t[0] && v[2] == t[1];
      }
      if d == [] { assert v == t; }
    }
  }

  // ---------------------------------------------------------------- chunks with padded size lines

  /** A size line without its CRLF: white space, 0x or nothing, digits, and an extension or more white space. */
  datatype SizeText = SizeText(blanks: Bytes, prefix: Bytes, digits: Bytes, values: seq<nat>, rest: Bytes)

  function Text(l: SizeText): Bytes {
    l.blanks + (l.prefix + (l.digits + l.rest))
  }

  /** It says `n`, has no CRLF but possibly at its start, and fits into 18 bytes with the one behind it. */
  ghost predicate Says(l: SizeText, n: nat) {
    && Blanks(l.blanks) && IsPrefix(l.prefix) && l.digits != [] && Spells(l.digits, l.values)
    && !StartsWithDigit(l.rest) && (l.prefix == "" ==> !LooksPrefixed(l.digits, l.rest))
    && Value(l.values) == n && |Text(l)| + 2 <= HTTP_MAX_CHUNK_SIZE_LEN
    && forall i :: 0 < i < |Text(l)| - 1 ==> !(Text(l)[i] == '\r' && Text(l)[i + 1] == '\n')
  }

  lemma SaysSo(l: SizeText, n: nat)
    requires Says(l, n) && n < WORD
    ensures StrToUL(Text(l) + CRLF) == Some(n)
  {
    hide StrToUL, Value, Spells, StartsWithDigit, LooksPrefixed, Blanks;
    RestFace(l.digits, l.rest);
    NumberRead(l.blanks, "", l.prefix, l.digits, l.values, l.rest + CRLF);
    TextGrouped(l);
  }

  /** The CRLF behind it does not make a digit of what follows the digits. */
  lemma RestFace(d: Bytes, t: Bytes)
    requires !StartsWithDigit(t)
    ensures !StartsWithDigit(t + CRLF) && (LooksPrefixed(d, t + CRLF) ==> LooksPrefixed(d, t))
  {
    var u := t + CRLF;
    StartsIff(u);
    StartsIff(t);
    assert u[0] == if t == [] then '\r' else t[0];
    if LooksPrefixed(d, u) {
      StartsIff(u[1..]);
      assert u[1..][0] == if |t| >= 2 then t[1] else '\n';
      StartsIff(t[1..]);
    }
    hide StartsWithDigit;
  }

  lemma TextGrouped(l: SizeText)
    ensures Text(l) + CRLF == l.blanks + ("" + (l.prefix + (l.digits + (l.rest + CRLF))))
  {
    assert "" + (l.prefix + (l.digits + (l.rest + CRLF))) == l.prefix + (l.digits + (l.rest + CRLF));
  }

  lemma {:induction false} LineOfText(h: Bytes, t: Bytes, from: nat)
    requires 0 < |h| <= HTTP_MAX_CHUNK_SIZE_LEN - 2 && from < |h| + 2
    requires forall i :: 0 < i < |h| - 1 ==> !(h[i] == '\r' && h[i + 1] == '\n')
    ensures from <= |h + CRLF + t| && LineLength(h + CRLF + t, from) == |h| + 2
    decreases |h| + 2 - from
  {
    var s := h + CRLF + t;
    var line := s[..from + 1];
    if from == |h| + 1 {
      assert line[|line| - 2..] == CRLF;
    } else {
      assert s[|h|] == '\r' && forall i :: 0 <= i < |h| ==> s[i] == h[i];
      if EndsLine(line) {
        assert line[|line| - 2..][0] == '\r' && line[|line| - 2..][1] == '\n';
        assert line[from - 1] == '\r' && line[from] == '\n';
      }
      LineOfText(h, t, from + 1);
    }
  }

  function PaddedChunks(chunks: seq<(SizeText, Bytes)>, last: SizeText): Bytes {
    if chunks == [] then Text(last) + CRLF
    else (Text(chunks[0].0) + CRLF + chunks[0].1 + CRLF) + PaddedChunks(chunks[1..], last)
  }

  /** Chunks whose size lines carry padding or extensions are chunks. */
  lemma {:induction false} PaddedAreChunked(chunks: seq<(SizeText, Bytes)>, last: SizeText)
    requires forall i :: 0 <= i < |chunks| ==> 0 < |chunks[i].1| < WORD - 2 && Says(chunks[i].0, |chunks[i].1|)
    requires Says(last, 0)
    ensures Chunked(PaddedChunks(chunks, last))
  {
    var s := PaddedChunks(chunks, last);
    if chunks == [] {
      var h := Text(last);
      SaysSo(last, 0);
      LineOfText(h, [], 0);
      assert s == h + CRLF + [] && s[..|h| + 2] == h + CRLF;
    } else {
      var h, data, rest := Text(chunks[0].0), chunks[0].1, PaddedChunks(chunks[1..], last);
      SaysSo(chunks[0].0, |data|);
      PaddedAreChunked(chunks[1..], last);
      ChunkParts(h, data, rest);
      LineOfText(h, data + CRLF + rest, 0);
      assert s[..|h| + 2] == h + CRLF;
      assert DataLength(|data|) == |data| + 2;
      hide StrToUL, LineLength, DataLength, Chunked, PaddedChunks, Says;
      ChunkedNext(s, |data|);
    }
  }

  /** The reader takes them to the last byte, and not one byte of what follows. */
  lemma PaddedTakenExactly(chunks: seq<(SizeText, Bytes)>, last: SizeText, t: Bytes)
    requires forall i :: 0 <= i < |chunks| ==> 0 < |chunks[i].1| < WORD - 2 && Says(chunks[i].0, |chunks[i].1|)
    requires Says(last, 0)
    ensures var s := PaddedChunks(chunks, last);
            Run(SizeLine([]), s + t) == Trailer && Takes(SizeLine([]), s + t) == |s|
  {
    var s := PaddedChunks(chunks, last);
    PaddedAreChunked(chunks, last);
    ChunkedExactly(s);
    RunConcat(SizeLine([]), s, t);
  }
}
