/**
 read_body of core/http.cpp: the buffers it fills and pushes.  It is proved to be the byte-at-a-time automaton
 of BodyFraming for every way `recv` cuts the stream, and to push every byte it takes once and in order.
*/
module BodyReader {
  import opened Chunks
  import opened BodyFraming
  import HeadReader

  const HTTP_CHUNK_SIZE_LEN := 10
  const HTTP_EACH_BODY_SIZE := 65536

  datatype ReadState = ReadingHeader | ReadingBody | ReadingTrailer

  datatype BodyType = BodyContent | BodyChunkSize | BodyChunkData

  /** What one recv answers; `Got` stands for at least one byte if one was asked for and is there. */
  datatype Answer = Got(n: nat) | WouldBlock | Closed | Failed

  datatype Status = DataFinish | DataError | DataUnreadable | ConnClosed | ConnError

  /** What the reader is told when nothing came. */
  function Stopped(answer: Answer): Status {
    match answer
    case Closed => ConnClosed
    case Failed => ConnError
    case _ => DataUnreadable
  }

  function Min(a: nat, b: nat): nat {
    if a < b then a else b
  }

  /** A buffer of `size` bytes: one is the least. */
  function Slots(size: nat): (n: nat)
    ensures n > 0 && n >= size
  {
    if size == 0 then 1 else size
  }

  /** No buffer is longer than the largest the reader allocates. */
  predicate Small(bufs: seq<Bytes>) {
    forall i :: 0 <= i < |bufs| ==> |bufs[i]| <= HTTP_EACH_BODY_SIZE
  }

  lemma PushKeeps(bufs: seq<Bytes>, b: Bytes)
    requires Small(bufs) && |b| <= HTTP_EACH_BODY_SIZE
    ensures Small(bufs + [b]) && Concat(bufs + [b]) == Concat(bufs) + b
  {
    ConcatParts(bufs, [b]);
    assert [b][1..] == [];
  }

  lemma EndsLineAt(line: Bytes)
    ensures EndsLine(line) <==> |line| > 2 && line[|line| - 2] == '\r' && line[|line| - 1] == '\n'
  {
    if |line| > 2 {
      var last := line[|line| - 2..];
      assert last == CRLF <==> last[0] == '\r' && last[1] == '\n';
    }
  }

  lemma RunEmpty(s: Bytes, k: nat)
    requires k == |s|
    ensures Run(SizeLine([]), s[k..]) == SizeLine([]) && Takes(SizeLine([]), s[k..]) == 0
  {
  }

  class BodyReader {
    var state: ReadState
    var bodyType: BodyType
    var bodyLen: nat
    var bodyTran: nat
    var buf: array<char>
    var dlen: nat
    /** The buffers pushed by onBody. */
    var pushed: seq<Bytes>
    /** All bytes taken from the socket. */
    ghost var taken: Bytes

    ghost predicate Valid()
      reads this, buf
    {
      && bodyLen < WORD && dlen <= buf.Length && (state != ReadingBody ==> dlen == 0)
      && Concat(pushed) + buf[..dlen] == taken
      && Small(pushed)
      && (state == ReadingBody ==>
            if bodyType == BodyChunkSize then
              if dlen < HTTP_CHUNK_SIZE_LEN then buf.Length == HTTP_CHUNK_SIZE_LEN
              else dlen < HTTP_MAX_CHUNK_SIZE_LEN && buf.Length == 2 * HTTP_CHUNK_SIZE_LEN
            else
              && (bodyTran < bodyLen || (bodyTran == bodyLen == 0 && bodyType == BodyChunkData))
              && buf.Length == Slots(Min(bodyLen - bodyTran, HTTP_EACH_BODY_SIZE)) && dlen < buf.Length)
    }

    /** How many bytes of the body or chunk are still to come. */
    function Left(): (n: Positive)
      requires bodyTran <= bodyLen && dlen < Slots(bodyLen - bodyTran)
      reads this
    {
      Slots(bodyLen - bodyTran) - dlen
    }

    /** Where in the body the reader is. */
    ghost function Position(): Framing
      requires Valid()
      reads this, buf
    {
      match state
      case ReadingHeader => Finished
      case ReadingTrailer => Trailer
      case ReadingBody =>
        match bodyType
        case BodyContent => Content(Left())
        case BodyChunkData => Data(Left())
        case BodyChunkSize => SizeLine(buf[..dlen])
    }

    /** What read_header does when a body follows: a counted one of `len` bytes, or chunks. */
    constructor (chunked: bool, len: nat)
      requires chunked || 0 < len < WORD
      ensures Valid() && pushed == [] && taken == []
      ensures Position() == if chunked then SizeLine([]) else Content(len)
    {
      state, bodyTran := ReadingBody, 0;
      bodyType, bodyLen := if chunked then BodyChunkSize else BodyContent, if chunked then 0 else len;
      buf := new char[if chunked then HTTP_CHUNK_SIZE_LEN else Min(HTTP_EACH_BODY_SIZE, len)];
      dlen, pushed, taken := 0, [], [];
    }

    /** onBody: hand the buffer over; here, and not elsewhere, `dlen` becomes that of no buffer. */
    method OnBody()
      requires dlen <= buf.Length
      modifies this`pushed, this`dlen
      ensures pushed == old(pushed) + [old(buf[..dlen])] && dlen == 0
    {
      pushed := pushed + [buf[..dlen]];
      dlen := 0;
    }

    /** recv: `k` bytes of the stream go behind what the buffer holds. */
    method Receive(input: Bytes, k: nat)
      requires k <= |input| && dlen + k <= buf.Length
      modifies this`dlen, buf
      ensures dlen == old(dlen) + k && buf[..dlen] == old(buf[..dlen]) + input[..k]
    {
      ghost var before := buf[..dlen];
      for i := 0 to k
        invariant dlen == old(dlen) && buf[..dlen] == before && buf[dlen..dlen + i] == input[..i]
      {
        buf[dlen + i] := input[i];
      }
      assert buf[..dlen + k] == before + input[..k];
      dlen := dlen + k;
    }

    /** A full buffer is pushed, and a new one taken for what is still to come. */
    method PushFull()
      requires state == ReadingBody && bodyType != BodyChunkSize && bodyLen < WORD
      requires 0 < dlen == buf.Length <= HTTP_EACH_BODY_SIZE
      requires bodyTran + dlen <= bodyLen || (bodyTran == bodyLen == 0 && dlen == 1 && bodyType == BodyChunkData)
      requires Concat(pushed) + buf[..dlen] == taken
      requires Small(pushed)
      modifies this
      ensures Valid() && taken == old(taken) && fresh({buf} - {old(buf)})
      ensures var left := if old(bodyLen) == 0 then 0 else old(bodyLen - bodyTran - dlen);
              Position() == if old(bodyType) == BodyContent then if left == 0 then Finished else Content(left)
                            else if left == 0 then SizeLine([]) else Data(left)
    {
      PushKeeps(pushed, buf[..dlen]);
      hide Concat, Small;
      bodyTran := bodyTran + dlen;
      OnBody();
      if bodyTran < bodyLen {
        buf := new char[Min(bodyLen - bodyTran, HTTP_EACH_BODY_SIZE)];
      } else if bodyType == BodyChunkData {
        bodyType := BodyChunkSize;
        buf := new char[HTTP_CHUNK_SIZE_LEN];
      } else {
        state := ReadingHeader;
      }
      assert buf[..dlen] == [];
      assert Concat(pushed) + buf[..dlen] == taken;
      assert Valid();
      hide Valid;
    }

    /** Bytes of a counted body or of a chunk's data. */
    method ReadCounted(input: Bytes, k: nat)
      requires Valid() && state == ReadingBody && bodyType != BodyChunkSize
      requires 0 < k <= buf.Length - dlen && k <= |input|
      modifies this, buf
      ensures Valid() && taken == old(taken) + input[..k] && fresh({buf} - {old(buf)})
      ensures Position() == Run(old(Position()), input[..k]) && Takes(old(Position()), input[..k]) == k
    {
      ghost var s := input[..k];
      CountedRun(Position(), s);
      RunEmpty(s, k);
      Assoc(Concat(pushed), buf[..dlen], s);
      hide Run, Takes, Concat, Small;
      Receive(input, k);
      taken := taken + s;
      if dlen == buf.Length {
        PushFull();
      }
    }

    /** A complete size line is pushed; `size` tells what comes next. */
    method PushLine(size: nat)
      requires state == ReadingBody && bodyType == BodyChunkSize && size < WORD
      requires dlen <= buf.Length && dlen <= HTTP_EACH_BODY_SIZE
      requires Concat(pushed) + buf[..dlen] == taken
      requires Small(pushed)
      modifies this
      ensures Valid() && taken == old(taken) && fresh({buf} - {old(buf)})
      ensures Position() == if size == 0 then Trailer else Data(DataLength(size))
    {
      PushKeeps(pushed, buf[..dlen]);
      hide Concat, Small, WithCrlf;
      bodyLen := size;
      OnBody();
      if bodyLen != 0 {
        bodyType, bodyTran, bodyLen := BodyChunkData, 0, WithCrlf(bodyLen);
        buf := new char[Slots(Min(bodyLen, HTTP_EACH_BODY_SIZE))];
      } else {
        state := ReadingTrailer;
        buf := new char[HeadReader.HTTP_INIT_HEADER_SIZE];
      }
      assert buf[..dlen] == [];
      assert Concat(pushed) + buf[..dlen] == taken;
      assert Valid();
      hide Valid;
    }

    /** The size line outgrows its buffer: copy it into one of twice the size. */
    method Double()
      requires dlen <= buf.Length
      modifies this`buf
      ensures fresh(buf) && buf.Length == 2 * dlen && buf[..dlen] == old(buf[..dlen])
    {
      var nbuf := new char[2 * dlen];
      forall i | 0 <= i < dlen {
        nbuf[i] := buf[i];
      }
      buf := nbuf;
    }

    /** The line is complete, has reached its limit, or may fill its buffer. */
    method EndLine() returns (ok: bool)
      requires state == ReadingBody && bodyType == BodyChunkSize && bodyLen < WORD
      requires 0 < dlen <= HTTP_MAX_CHUNK_SIZE_LEN
      requires buf.Length == if dlen <= HTTP_CHUNK_SIZE_LEN then HTTP_CHUNK_SIZE_LEN else 2 * HTTP_CHUNK_SIZE_LEN
      requires Concat(pushed) + buf[..dlen] == taken && Small(pushed)
      modifies this
      ensures fresh({buf} - {old(buf)}) && taken == old(taken)
      ensures ok ==> Valid() && Position() == LineGrown(old(buf[..dlen]))
      ensures !ok ==> LineGrown(old(buf[..dlen])) == Bad
    {
      ghost var line := buf[..dlen];
      EndsLineAt(line);
      assert dlen > 2 ==> buf[dlen - 2] == line[dlen - 2] && buf[dlen - 1] == line[dlen - 1];
      hide Concat, StrToUL, Small, WithCrlf, EndsLine;
      ok := true;
      if dlen > 2 && buf[dlen - 2] == '\r' && buf[dlen - 1] == '\n' {
        var size := StrToUL(buf[..dlen]);
        if size == None {
          return false;
        }
        PushLine(size.value);
      } else if dlen < HTTP_MAX_CHUNK_SIZE_LEN && dlen == buf.Length {
        Double();
        assert buf[..dlen] == line;
      } else if dlen >= HTTP_MAX_CHUNK_SIZE_LEN {
        return false;
      }
    }

    /** One byte of a size line. */
    method ReadSizeLine(input: Bytes) returns (ok: bool)
      requires Valid() && state == ReadingBody && bodyType == BodyChunkSize && input != []
      modifies this, buf
      ensures fresh({buf} - {old(buf)}) && taken == old(taken) + [input[0]]
      ensures ok ==> Valid() && Position() == Feed(old(Position()), input[0])
      ensures !ok ==> Feed(old(Position()), input[0]) == Bad
    {
      Assoc(Concat(pushed), buf[..dlen], [input[0]]);
      assert input[..1] == [input[0]];
      assert Feed(Position(), input[0]) == LineGrown(buf[..dlen] + [input[0]]);
      hide Concat, Small, LineGrown, Feed;
      Receive(input, 1);
      taken := taken + [input[0]];
      ok := EndLine();
    }

    /** read_body: one recv. */
    method ReadBody(input: Bytes, answer: Answer) returns (status: Status, n: nat)
      requires Valid() && state == ReadingBody
      modifies this, buf
      ensures n <= |input| && fresh({buf} - {old(buf)})
      ensures taken == old(taken) + input[..n]
      ensures status.DataFinish? || status.DataError? <==> n > 0
      ensures status != DataError ==>
                Valid() && Position() == Run(old(Position()), input[..n]) && Takes(old(Position()), input[..n]) == n
      ensures status == DataError ==> Run(old(Position()), input[..n]) == Bad && Takes(old(Position()), input[..n]) == n
      ensures answer.Got? && input != [] ==> n > 0
      ensures n == 0 ==> status == Stopped(answer)
    {
      n := 0;
      match answer {
        case WouldBlock => status := DataUnreadable;
        case Closed => status := ConnClosed;
        case Failed => status := ConnError;
        case Got(k) =>
          if bodyType == BodyChunkSize {
            n := Granted(k, 1, |input|);
            if n == 0 {
              status := DataUnreadable;
            } else {
              var ok := ReadSizeLine(input);
              assert input[..1] == [input[0]];
              status := if ok then DataFinish else DataError;
            }
          } else {
            n := Granted(k, buf.Length - dlen, |input|);
            if n == 0 {
              status := DataUnreadable;
            } else {
              ReadCounted(input, n);
              status := DataFinish;
            }
          }
      }
    }

    /** Once read to its end, a counted body has been pushed as exactly its length, whatever follows it. */
    lemma ContentDelivered(len: nat, input: Bytes)
      requires Valid() && 0 < len <= |input|
      requires taken == input[..Takes(Content(len), input)] && Position() == Run(Content(len), taken)
      ensures state == ReadingHeader && Concat(pushed) == input[..len]
    {
      CountedRun(Content(len), input);
      RunTaken(Content(len), input);
      assert buf[..dlen] == [];
    }

    /** Once read to their end, chunks have been pushed as exactly the bytes their sender wrote. */
    lemma ChunksDelivered(chunks: seq<Bytes>, t: Bytes)
      requires Valid() && forall i :: 0 <= i < |chunks| ==> 0 < |chunks[i]| < WORD - 2
      requires var input := EncodeChunks(chunks) + t;
               taken == input[..Takes(SizeLine([]), input)] && Position() == Run(SizeLine([]), taken)
      ensures state == ReadingTrailer && Concat(pushed) == EncodeChunks(chunks)
    {
      var input := EncodeChunks(chunks) + t;
      ChunksRoundTrip(chunks, t);
      RunTaken(SizeLine([]), input);
      assert buf[..dlen] == [] && input[..|EncodeChunks(chunks)|] == EncodeChunks(chunks);
    }

    /** Of a stream that began at `start` and behind the bytes `before`, `n` bytes have been taken. */
    ghost predicate Reached(start: Framing, before: Bytes, input: Bytes, n: nat)
      reads this, buf
    {
      Valid() && Taken(start, input, n) && Position() == Run(start, input[..n]) && taken == before + input[..n]
    }

    lemma Known(start: Framing, before: Bytes, input: Bytes, n: nat)
      requires Reached(start, before, input, n)
      ensures Valid() && Position() == Run(start, input[..n]) && taken == before + input[..n]
      ensures n <= |input| && n <= Takes(start, input)
      ensures n == |input| || state != ReadingBody ==> n == Takes(start, input)
    {
      TakenAll(start, input, n);
    }

    /** One turn of the loop below: `k` more bytes are taken. */
    method ReadMore(ghost start: Framing, ghost before: Bytes, input: Bytes, n: nat, answer: Answer)
        returns (status: Status, k: nat)
      requires state == ReadingBody && Reached(start, before, input, n)
      modifies this, buf
      ensures fresh({buf} - {old(buf)}) && n + k <= |input|
      ensures status != DataError ==> Reached(start, before, input, n + k)
      ensures status == DataError ==> Run(start, input[..n + k]) == Bad && n + k == Takes(start, input)
      ensures status == DataError ==> taken == before + input[..n + k] && k > 0
      ensures answer.Got? && n < |input| ==> k > 0
      ensures status.DataFinish? || status.DataError? <==> k > 0
      ensures k == 0 ==> status == Stopped(answer)
    {
      Known(start, before, input, n);
      hide Run, Takes, Valid, Position, Concat, Small, Feed;
      status, k := ReadBody(input[n..], answer);
      RunMore(start, input, n, k);
      TakeMore(before, input, n, k);
      if status == DataError { TakenAll(start, input, n + k); }
    }

    /** The loop of read_request while the body lasts. */
    method ReadOn(ghost start: Framing, ghost before: Bytes, input: Bytes, answers: seq<Answer>)
        returns (status: Status, n: nat)
      requires state == ReadingBody && Reached(start, before, input, 0)
      modifies this, buf
      ensures n <= |input| && (status != DataError ==> Reached(start, before, input, n))
      ensures status != DataError && status != DataFinish ==>
        exists i :: 0 <= i < |answers| && status == Stopped(answers[i])
      ensures status == DataFinish ==> state != ReadingBody || |answers| <= n
      ensures status == DataError ==>
                Run(start, input[..n]) == Bad && n == Takes(start, input) && taken == before + input[..n]
      ensures (forall i :: 0 <= i < |answers| ==> answers[i].Got?) && |answers| >= |input| ==>
                status == DataError || n == |input| || state != ReadingBody
    {
      n, status := 0, DataFinish;
      var i := 0;
      hide Run, Takes, Valid, Position, Reached;
      while i < |answers| && state == ReadingBody
        invariant i <= |answers| && n <= |input| && Reached(start, before, input, n)
        invariant status == DataFinish && fresh({buf} - {old(buf)}) && i <= n
      {
        var k;
        status, k := ReadMore(start, before, input, n, answers[i]);
        n := n + k;
        if status == DataError || k == 0 {
          return;
        }
        i := i + 1;
      }
    }

    /**
     However the reads cut the stream, what is taken is a part of what the automaton takes, never a byte more,
     and all of it once the reads have brought that much.
    */
    method ReadBodies(input: Bytes, answers: seq<Answer>) returns (status: Status, n: nat)
      requires Valid() && state == ReadingBody
      modifies this, buf
      ensures n <= Takes(old(Position()), input) && taken == old(taken) + input[..n]
      ensures status != DataError ==> Valid() && Position() == Run(old(Position()), input[..n])
      ensures status == DataError ==> Run(old(Position()), input[..n]) == Bad
      ensures status != DataError && status != DataFinish ==>
        exists i :: 0 <= i < |answers| && status == Stopped(answers[i])
      ensures status == DataFinish ==> state != ReadingBody || |answers| <= n
      ensures (forall i :: 0 <= i < |answers| ==> answers[i].Got?) && |answers| >= |input| ==>
                n == Takes(old(Position()), input)
    {
      ghost var start, before := Position(), taken;
      RunWhole(start, input, 0);
      assert Run(start, input[..0]) == start && Takes(start, input[..0]) == 0 && taken == before + input[..0];
      hide Run, Takes, Valid, Position;
      status, n := ReadOn(start, before, input, answers);
      if status != DataError { Known(start, before, input, n); }
    }
  }

  /** The first `n` bytes of `s` are taken, and the rest as if it came alone. */
  ghost predicate Taken(f: Framing, s: Bytes, n: nat) {
    n <= |s| && Takes(f, s[..n]) == n && Takes(f, s) == n + Takes(Run(f, s[..n]), s[n..])
  }

  lemma TakenAll(f: Framing, s: Bytes, n: nat)
    requires Taken(f, s, n)
    ensures n <= |s| && n <= Takes(f, s)
    ensures n == |s| || Ended(Run(f, s[..n])) ==> n == Takes(f, s)
    ensures Run(f, s[..n]) == Bad ==> n == Takes(f, s)
  {
  }

  lemma RunWhole(f: Framing, s: Bytes, n: nat)
    requires n <= |s| && Takes(f, s[..n]) == n
    ensures Takes(f, s) == n + Takes(Run(f, s[..n]), s[n..])
  {
    assert s == s[..n] + s[n..];
    RunConcat(f, s[..n], s[n..]);
  }

  lemma RunMore(f: Framing, s: Bytes, n: nat, k: nat)
    requires Taken(f, s, n) && n + k <= |s| && Takes(Run(f, s[..n]), s[n..][..k]) == k
    ensures Run(f, s[..n + k]) == Run(Run(f, s[..n]), s[n..][..k]) && Taken(f, s, n + k)
  {
    TakeMore([], s, n, k);
    RunConcat(f, s[..n], s[n..][..k]);
    RunWhole(f, s, n + k);
  }
}
