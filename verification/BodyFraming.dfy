/**
 HTTP body framing, core/http.cpp: how many bytes of the stream belong to a message's body.  The automaton here
 takes one byte at a time; BodyReader shows that the proxy's reader is that automaton for every way `recv`
 cuts the stream.  Sections 3.3.3 and 4.1 of RFC 7230.
*/
module BodyFraming {
  import opened Chunks

  const HTTP_MAX_CHUNK_SIZE_LEN := 18

  // ---------------------------------------------------------------- strtoul(line, 16)

  predicate IsSpace(c: char) {
    c == ' ' || '\t' <= c <= '\r'
  }

  predicate IsHex(c: char) {
    '0' <= c <= '9' || 'a' <= c <= 'f' || 'A' <= c <= 'F'
  }

  function HexDigit(c: char): (d: nat)
    requires IsHex(c)
    ensures d < 16
  {
    if c <= '9' then c as int - '0' as int
    else if c <= 'F' then c as int - 'A' as int + 10
    else c as int - 'a' as int + 10
  }

  function SkipSpace(s: Bytes): Bytes {
    if s != [] && IsSpace(s[0]) then SkipSpace(s[1..]) else s
  }

  /** The number the leading hexadecimal digits continue `n` to. */
  function Number(s: Bytes, n: nat): nat {
    if s != [] && IsHex(s[0]) then Number(s[1..], n * 16 + HexDigit(s[0])) else n
  }

  /** A sign or nothing, "0x" or nothing, digits. */
  function Unsigned(s: Bytes): Bytes {
    if |s| >= 3 && s[0] == '0' && (s[1] == 'x' || s[1] == 'X') && IsHex(s[2]) then s[2..] else s
  }

  function StrToUL(s: Bytes): (r: Option<nat>)
    ensures r.Some? ==> r.value < WORD
  {
    var t := SkipSpace(s);
    var signed := t != [] && (t[0] == '+' || t[0] == '-');
    var u := Unsigned(if signed then t[1..] else t);
    if u == [] || !IsHex(u[0]) then None
    else
      var n := Number(u, 0);
      if n >= WORD then None
      else if signed && t[0] == '-' && n > 0 then Some(WORD - n)
      else Some(n)
  }

  // ---------------------------------------------------------------- one byte at a time

  type Positive = n: int | 0 < n witness 1

  /** Where in a body the stream is; `left` counts the bytes still to come. */
  datatype Framing =
    | Content(left: Positive)
    | SizeLine(line: Bytes)
    | Data(left: Positive)
    | Finished
    | Trailer
    | Bad

  predicate Ended(f: Framing) {
    f.Finished? || f.Trailer? || f.Bad?
  }

  predicate EndsLine(line: Bytes) {
    |line| > 2 && line[|line| - 2..] == CRLF
  }

  /** `body_len_ += 2` for the CRLF behind the data; a size_t wraps around. */
  function WithCrlf(size: nat): (r: nat)
    ensures size < WORD ==> r < WORD
  {
    if size + 2 < WORD then size + 2 else size + 2 - WORD
  }

  /** How many bytes are taken as the data of a chunk and its CRLF: a buffer has room for at least one. */
  function DataLength(size: nat): (r: Positive)
    ensures size < WORD ==> r < WORD
  {
    if WithCrlf(size) == 0 then 1 else WithCrlf(size)
  }

  function Feed(f: Framing, c: char): Framing
    requires !Ended(f)
  {
    match f
    case Content(left) => if left == 1 then Finished else Content(left - 1)
    case Data(left) => if left == 1 then SizeLine([]) else Data(left - 1)
    case SizeLine(line) => LineGrown(line + [c])
  }

  function LineGrown(line: Bytes): Framing {
    if EndsLine(line) then
      var size := StrToUL(line);
      if size == None then Bad else if size.value == 0 then Trailer else Data(DataLength(size.value))
    else if |line| >= HTTP_MAX_CHUNK_SIZE_LEN then Bad
    else SizeLine(line)
  }

  /** The automaton after as much of `s` as it takes. */
  function Run(f: Framing, s: Bytes): Framing
    decreases |s|
  {
    if s == [] || Ended(f) then f else Run(Feed(f, s[0]), s[1..])
  }

  /** How many bytes of `s` it takes. */
  function Takes(f: Framing, s: Bytes): (n: nat)
    ensures n <= |s|
    decreases |s|
  {
    if s == [] || Ended(f) then 0 else 1 + Takes(Feed(f, s[0]), s[1..])
  }

  lemma {:induction false} RunConcat(f: Framing, s: Bytes, t: Bytes)
    ensures Run(f, s + t) == Run(Run(f, s), t)
    ensures Takes(f, s + t) == Takes(f, s) + if Takes(f, s) == |s| then Takes(Run(f, s), t) else 0
    decreases |s|
  {
    if s == [] {
      assert s + t == t;
    } else if !Ended(f) {
      assert (s + t)[0] == s[0] && (s + t)[1..] == s[1..] + t;
      RunConcat(Feed(f, s[0]), s[1..], t);
    } else {
      assert Run(f, t) == f;
    }
  }

  /** What is not taken is not looked at. */
  lemma {:induction false} RunTaken(f: Framing, s: Bytes)
    ensures Run(f, s[..Takes(f, s)]) == Run(f, s) && Takes(f, s[..Takes(f, s)]) == Takes(f, s)
    ensures Takes(f, s) < |s| ==> Ended(Run(f, s))
    decreases |s|
  {
    if s != [] && !Ended(f) {
      RunTaken(Feed(f, s[0]), s[1..]);
      var n := Takes(f, s);
      assert s[..n][1..] == s[1..][..n - 1];
    }
  }

  /** A counted body takes exactly its length. */
  lemma {:induction false} CountedRun(f: Framing, s: Bytes)
    requires f.Content? || f.Data?
    ensures |s| < f.left ==> Takes(f, s) == |s| && Run(f, s) == f.(left := f.left - |s|)
    ensures f.Content? && |s| >= f.left ==> Takes(f, s) == f.left && Run(f, s) == Finished
    ensures f.Data? && |s| >= f.left ==>
              Run(f, s) == Run(SizeLine([]), s[f.left..]) && Takes(f, s) == f.left + Takes(SizeLine([]), s[f.left..])
    decreases |s|
  {
    if s != [] && f.left > 1 {
      CountedRun(f.(left := f.left - 1), s[1..]);
      if |s| >= f.left { assert s[1..][f.left - 1..] == s[f.left..]; }
    }
  }

  // ---------------------------------------------------------------- the grammar

  /** The length of the size line at the start of `s`: its first CRLF that is not at its very start, or 0. */
  function LineLength(s: Bytes, from: nat): (n: nat)
    requires from <= |s|
    ensures n == 0 || (from < n <= |s| && EndsLine(s[..n]))
    decreases |s| - from
  {
    if from == |s| || from >= HTTP_MAX_CHUNK_SIZE_LEN then 0
    else if EndsLine(s[..from + 1]) then from + 1
    else LineLength(s, from + 1)
  }

  /**
   Chunks as section 4.1 of RFC 7230 has them, up to and including the line of the last chunk: a size line,
   then that many bytes and CRLF, which are not looked at; but one byte if the size plus 2 does not fit.
  */
  predicate Chunked(s: Bytes)
    decreases |s|
  {
    var n := LineLength(s, 0);
    n > 0
    && var size := StrToUL(s[..n]);
       size.Some?
       && if size.value == 0 then |s| == n
          else
            var next := n + DataLength(size.value);
            next <= |s| && Chunked(s[next..])
  }

  lemma {:induction false} LineRun(line: Bytes, s: Bytes)
    requires line <= s && |line| < HTTP_MAX_CHUNK_SIZE_LEN
    ensures var n := LineLength(s, |line|);
            && (n > 0 ==>
                  && Run(SizeLine(line), s[|line|..]) == Run(LineGrown(s[..n]), s[n..])
                  && Takes(SizeLine(line), s[|line|..]) == n - |line| + Takes(LineGrown(s[..n]), s[n..]))
            && (n == 0 ==>
                  if |s| < HTTP_MAX_CHUNK_SIZE_LEN then Run(SizeLine(line), s[|line|..]) == SizeLine(s)
                  else Run(SizeLine(line), s[|line|..]) == Bad)
    decreases |s| - |line|
  {
    var rest := s[|line|..];
    if rest == [] {
      assert line == s;
    } else {
      var longer := line + [rest[0]];
      assert longer == s[..|line| + 1] && rest[1..] == s[|line| + 1..];
      if !EndsLine(longer) && |longer| < HTTP_MAX_CHUNK_SIZE_LEN {
        LineRun(longer, s);
      }
    }
  }

  lemma RunEnded(f: Framing, s: Bytes)
    requires Ended(f)
    ensures Run(f, s) == f && Takes(f, s) == 0
  {
  }

  /** The grammar in terms of what the automaton makes of the first line. */
  lemma ChunkedAfter(s: Bytes, n: nat)
    requires n == LineLength(s, 0)
    ensures n == 0 ==> !Chunked(s)
    ensures n > 0 ==>
              var f, rest := LineGrown(s[..n]), s[n..];
              Chunked(s) <==>
                if f.Data? then f.left <= |rest| && Chunked(rest[f.left..]) else f == Trailer && rest == []
  {
    hide StrToUL, LineLength;
    if n > 0 && LineGrown(s[..n]).Data? && LineGrown(s[..n]).left <= |s| - n {
      var left := LineGrown(s[..n]).left;
      assert s[n..][left..] == s[n + left..];
    }
  }

  /** The reader of chunks takes exactly the chunks: it is done with all of `s` if and only if `s` is chunked. */
  lemma {:induction false} ChunkedExactly(s: Bytes)
    ensures Run(SizeLine([]), s) == Trailer && Takes(SizeLine([]), s) == |s| <==> Chunked(s)
    decreases |s|
  {
    LineRun([], s);
    assert s[0..] == s;
    var n := LineLength(s, 0);
    ChunkedAfter(s, n);
    hide StrToUL, LineLength, DataLength, Run, Takes, Chunked;
    if n > 0 {
      var f := LineGrown(s[..n]);
      assert f.Data? || f == Trailer || f == Bad;
      hide LineGrown;
      var rest := s[n..];
      if Ended(f) {
        RunEnded(f, rest);
      } else {
        CountedRun(f, rest);
        if |rest| >= f.left {
          ChunkedExactly(rest[f.left..]);
        }
      }
    }
  }

  /**
   Chunks of which a size line cannot be read: its end does not come within 18 bytes, or it says no number a
   size_t can hold.
  */
  predicate Unreadable(s: Bytes)
    decreases |s|
  {
    var n := LineLength(s, 0);
    if n == 0 then |s| >= HTTP_MAX_CHUNK_SIZE_LEN
    else
      var size := StrToUL(s[..n]);
      size == None
      || (size.value > 0 && n + DataLength(size.value) <= |s| && Unreadable(s[n + DataLength(size.value)..]))
  }

  lemma UnreadableAfter(s: Bytes, n: nat)
    requires n == LineLength(s, 0) && n > 0
    ensures var f, rest := LineGrown(s[..n]), s[n..];
            Unreadable(s) <==> f == Bad || (f.Data? && f.left <= |rest| && Unreadable(rest[f.left..]))
  {
    hide StrToUL, LineLength;
    if LineGrown(s[..n]).Data? && LineGrown(s[..n]).left <= |s| - n {
      var left := LineGrown(s[..n]).left;
      assert s[n..][left..] == s[n + left..];
    }
  }

  /** The reader refuses exactly these, and nothing else. */
  lemma {:induction false} RefusedIff(s: Bytes)
    ensures Run(SizeLine([]), s) == Bad <==> Unreadable(s)
    decreases |s|
  {
    LineRun([], s);
    assert s[0..] == s;
    var n := LineLength(s, 0);
    if n > 0 {
      UnreadableAfter(s, n);
      hide StrToUL, LineLength, DataLength, Run, Takes, Unreadable;
      var f, rest := LineGrown(s[..n]), s[n..];
      assert f.Data? || f == Trailer || f == Bad;
      hide LineGrown;
      if Ended(f) {
        RunEnded(f, rest);
      } else {
        CountedRun(f, rest);
        if |rest| >= f.left {
          RefusedIff(rest[f.left..]);
        }
      }
    }
  }

  // ---------------------------------------------------------------- what a sender writes

  function HexChar(d: nat): char
    requires d < 16
  {
    if d < 10 then '0' + d as char else 'a' + (d - 10) as char
  }

  function Hex(n: nat): (s: Bytes)
    ensures s != [] && forall i :: 0 <= i < |s| ==> IsHex(s[i])
  {
    if n < 16 then [HexChar(n)] else Hex(n / 16) + [HexChar(n % 16)]
  }

  function EncodeChunk(data: Bytes): Bytes {
    Hex(|data|) + CRLF + data + CRLF
  }

  /** The chunks and the line of the last one. */
  function EncodeChunks(chunks: seq<Bytes>): Bytes {
    if chunks == [] then "0" + CRLF else EncodeChunk(chunks[0]) + EncodeChunks(chunks[1..])
  }

  lemma {:induction false} NumberOfHex(n: nat, t: Bytes)
    ensures Number(Hex(n) + t, 0) == Number(t, n)
  {
    if n < 16 {
      assert (Hex(n) + t)[1..] == t;
    } else {
      var c := HexChar(n % 16);
      assert Hex(n) + t == Hex(n / 16) + ([c] + t);
      NumberOfHex(n / 16, [c] + t);
      assert ([c] + t)[1..] == t;
    }
  }

  function Pow16(k: nat): nat {
    if k == 0 then 1 else 16 * Pow16(k - 1)
  }

  lemma {:induction false} HexLength(n: nat, k: nat)
    requires n < Pow16(k) && k > 0
    ensures |Hex(n)| <= k
  {
    if n >= 16 { HexLength(n / 16, k - 1); }
  }

  lemma WordIsPow16()
    ensures Pow16(16) == WORD
  {
    assert Pow16(4) == 0x1_0000;
    assert Pow16(8) == 0x1_0000_0000;
    assert Pow16(12) == 0x1_0000_0000_0000;
  }

  /** Every size a size_t can hold is read back from its size line, which is at most 18 bytes long. */
  lemma SizeRoundTrip(n: nat)
    requires n < WORD
    ensures StrToUL(Hex(n) + CRLF) == Some(n) && |Hex(n) + CRLF| <= HTTP_MAX_CHUNK_SIZE_LEN
  {
    var s := Hex(n) + CRLF;
    NumberOfHex(n, CRLF);
    WordIsPow16();
    HexLength(n, 16);
    StartsPlain(n);
    assert Number(CRLF, n) == n;
    hide Hex, Number, SkipSpace, Unsigned;
  }

  /** Nothing is skipped before the digits. */
  lemma StartsPlain(n: nat)
    ensures var s := Hex(n) + CRLF; SkipSpace(s) == s && Unsigned(s) == s && s[0] == Hex(n)[0] && IsHex(s[0])
  {
    var s := Hex(n) + CRLF;
    assert s[0] == Hex(n)[0] && IsHex(s[0]);
    assert |s| >= 3 && s[1] == if |Hex(n)| > 1 then Hex(n)[1] else CRLF[0];
    hide Hex, Number;
  }

  /** The data of a chunk is taken with its CRLF exactly if the size plus 2 fits; otherwise one byte is taken. */
  lemma SizeThatWraps(n: nat)
    requires 0 < n < WORD
    ensures LineGrown(Hex(n) + CRLF) == Data(DataLength(n))
    ensures DataLength(n) == if n + 2 < WORD then n + 2 else 1
  {
    SizeRoundTrip(n);
    LineEnds(Hex(n));
    hide StrToUL, Hex, EndsLine;
  }

  /** So a chunk of a size that does not fit, with one byte behind its line, is read as if it were complete. */
  lemma WrappedIsChunked(n: nat, c: char)
    requires n < WORD <= n + 2
    ensures var s := Hex(n) + CRLF + [c] + ("0" + CRLF);
            Chunked(s) && Run(SizeLine([]), s) == Trailer && Takes(SizeLine([]), s) == |s|
  {
    var h, rest := Hex(n), EncodeChunks([]);
    var s := h + CRLF + [c] + rest;
    HexLine(n, [c] + rest);
    EncodedIsChunked([]);
    assert s == h + CRLF + ([c] + rest) && s[|h| + 2 + 1..] == rest;
    hide StrToUL, LineLength, Hex, EncodeChunks, Chunked;
    ChunkedNext(s, n);
    ChunkedExactly(s);
  }

  lemma LineEnds(h: Bytes)
    requires h != []
    ensures EndsLine(h + CRLF)
  {
  }

  lemma {:induction false} LineOfHex(h: Bytes, t: Bytes, from: nat)
    requires 0 < |h| <= 16 && (forall i :: 0 <= i < |h| ==> IsHex(h[i])) && from < |h| + 2
    ensures from <= |h + CRLF + t| && LineLength(h + CRLF + t, from) == |h| + 2
    decreases |h| + 2 - from
  {
    var s := h + CRLF + t;
    var line := s[..from + 1];
    if from == |h| + 1 {
      assert line[|line| - 2..] == CRLF;
    } else {
      assert forall i :: 0 <= i < |h| ==> s[i] == h[i];
      assert s[|h|] == CRLF[0];
      assert line[|line| - 1] != CRLF[1];
      assert !EndsLine(line);
      LineOfHex(h, t, from + 1);
    }
  }

  lemma {:induction false} HexLine(n: nat, t: Bytes)
    requires n < WORD
    ensures var k := |Hex(n)| + 2;
            && LineLength(Hex(n) + CRLF + t, 0) == k
            && (Hex(n) + CRLF + t)[..k] == Hex(n) + CRLF
            && StrToUL(Hex(n) + CRLF) == Some(n)
  {
    SizeRoundTrip(n);
    LineOfHex(Hex(n), t, 0);
  }

  /** What a sender of chunks writes is chunked, for every list of non-empty chunks whose sizes plus 2 fit. */
  lemma {:induction false} EncodedIsChunked(chunks: seq<Bytes>)
    requires forall i :: 0 <= i < |chunks| ==> 0 < |chunks[i]| < WORD - 2
    ensures Chunked(EncodeChunks(chunks))
  {
    var s := EncodeChunks(chunks);
    if chunks == [] {
      HexLine(0, []);
      assert s == Hex(0) + CRLF + [];
    } else {
      var data, rest := chunks[0], EncodeChunks(chunks[1..]);
      var h := Hex(|data|);
      HexLine(|data|, data + CRLF + rest);
      EncodedIsChunked(chunks[1..]);
      ChunkParts(h, data, rest);
      assert DataLength(|data|) == |data| + 2 && s == (h + CRLF + data + CRLF) + rest;
      hide StrToUL, LineLength, Hex, DataLength, EncodeChunks, EncodeChunk, Chunked;
      assert LineLength(s, 0) == |h| + 2 && StrToUL(s[..|h| + 2]) == Some(|data|);
      ChunkedNext(s, |data|);
    }
  }

  lemma ChunkedNext(s: Bytes, size: nat)
    requires var n := LineLength(s, 0); n > 0 && StrToUL(s[..n]) == Some(size) && size > 0
    requires var n, d := LineLength(s, 0), DataLength(size); n + d <= |s| && Chunked(s[n + d..])
    ensures Chunked(s)
  {
  }

  lemma ChunkParts(h: Bytes, data: Bytes, rest: Bytes)
    ensures var s := (h + CRLF + data + CRLF) + rest;
            && s == h + CRLF + (data + CRLF + rest)
            && |s| >= |h| + 2 + (|data| + 2) && s[|h| + 2 + (|data| + 2)..] == rest
  {
  }

  /** The reader takes the chunks a sender wrote to the last byte, and not one byte of what follows. */
  lemma ChunksRoundTrip(chunks: seq<Bytes>, t: Bytes)
    requires forall i :: 0 <= i < |chunks| ==> 0 < |chunks[i]| < WORD - 2
    ensures var s := EncodeChunks(chunks);
            Run(SizeLine([]), s + t) == Trailer && Takes(SizeLine([]), s + t) == |s|
  {
    var s := EncodeChunks(chunks);
    EncodedIsChunked(chunks);
    ChunkedExactly(s);
    RunConcat(SizeLine([]), s, t);
  }
}
