/**
 The log pipeline: records go out as a length of eight bytes and the record, log/log_send.cpp, and come back
 out of whatever pieces the fifo gives, logsrv/fifo_srv.cpp.
*/
module LogFrames {
  import opened Chunks
  import opened ScatterWrite

  /** sizeof(size_t) */
  const HEAD_SIZE := 8
  const FAST_BUF_SIZE := 64 * 1024

  // ---------------------------------------------------------------- lengths as bytes

  /** The `k` low bytes of a number, lowest first, as a little-endian machine stores them. */
  function ToBytes(n: nat, k: nat): (s: Bytes)
    ensures |s| == k
  {
    if k == 0 then [] else [(n % 256) as char] + ToBytes(n / 256, k - 1)
  }

  function FromBytes(s: Bytes): nat {
    if s == [] then 0 else s[0] as int + 256 * FromBytes(s[1..])
  }

  function Pow256(k: nat): nat {
    if k == 0 then 1 else 256 * Pow256(k - 1)
  }

  lemma {:induction false} BytesRoundTrip(n: nat, k: nat)
    requires n < Pow256(k)
    ensures FromBytes(ToBytes(n, k)) == n
  {
    if k > 0 {
      BytesRoundTrip(n / 256, k - 1);
      assert ToBytes(n, k)[1..] == ToBytes(n / 256, k - 1);
    }
  }

  lemma LengthRoundTrip(n: nat)
    requires n < WORD
    ensures FromBytes(ToBytes(n, HEAD_SIZE)) == n
  {
    assert Pow256(4) == 0x1_0000_0000;
    assert Pow256(8) == WORD;
    BytesRoundTrip(n, HEAD_SIZE);
  }

  // ---------------------------------------------------------------- frames

  function Frame(record: Bytes): Bytes {
    ToBytes(|record|, HEAD_SIZE) + record
  }

  function Frames(records: seq<Bytes>): Bytes {
    if records == [] then [] else Frame(records[0]) + Frames(records[1..])
  }

  /** The complete records at the start of `s`; the reader takes an empty one for the end of the fifo. */
  function Decode(s: Bytes): seq<Bytes> {
    if |s| < HEAD_SIZE then []
    else
      var n := FromBytes(s[..HEAD_SIZE]);
      if n == 0 || |s| < HEAD_SIZE + n then []
      else [s[HEAD_SIZE..HEAD_SIZE + n]] + Decode(s[HEAD_SIZE + n..])
  }

  /** What follows them. */
  function Tail(s: Bytes): Bytes {
    if |s| < HEAD_SIZE then s
    else
      var n := FromBytes(s[..HEAD_SIZE]);
      if n == 0 || |s| < HEAD_SIZE + n then s else Tail(s[HEAD_SIZE + n..])
  }

  lemma {:induction false} DecodeMore(s: Bytes, t: Bytes)
    ensures Decode(s + t) == Decode(s) + Decode(Tail(s) + t) && Tail(s + t) == Tail(Tail(s) + t)
    decreases |s|
  {
    if |s| >= HEAD_SIZE {
      assert (s + t)[..HEAD_SIZE] == s[..HEAD_SIZE];
      var n := FromBytes(s[..HEAD_SIZE]);
      if n > 0 && |s| >= HEAD_SIZE + n {
        var k := HEAD_SIZE + n;
        assert (s + t)[k..] == s[k..] + t && (s + t)[HEAD_SIZE..k] == s[HEAD_SIZE..k];
        DecodeMore(s[k..], t);
      }
    }
  }

  /** For every sequence of non-empty records: the frames decode to exactly the records. */
  lemma {:induction false} FramesRoundTrip(records: seq<Bytes>)
    requires forall i :: 0 <= i < |records| ==> 0 < |records[i]| < WORD
    ensures Decode(Frames(records)) == records && Tail(Frames(records)) == []
  {
    if records != [] {
      var r, rest := records[0], Frames(records[1..]);
      var s := Frame(r) + rest;
      LengthRoundTrip(|r|);
      assert s[..HEAD_SIZE] == ToBytes(|r|, HEAD_SIZE);
      assert s[HEAD_SIZE..HEAD_SIZE + |r|] == r && s[HEAD_SIZE + |r|..] == rest;
      FramesRoundTrip(records[1..]);
    }
  }

  /** A stream that is cut anywhere delivers the first of the records. */
  lemma CutStream(records: seq<Bytes>, s: Bytes)
    requires forall i :: 0 <= i < |records| ==> 0 < |records[i]| < WORD
    requires s <= Frames(records)
    ensures Decode(s) <= records
    ensures s == Frames(records) ==> Decode(s) == records
  {
    var t := Frames(records)[|s|..];
    assert s + t == Frames(records);
    FramesRoundTrip(records);
    DecodeMore(s, t);
  }

  // ---------------------------------------------------------------- the sender

  /** sizeof(log_header): level and padding, two longs of a timeval, the thread id */
  const HEADER_SIZE := 32

  /** log_send: the length, the header and the text, written through writevn. */
  method LogSend(header: Bytes, text: Bytes, answers: seq<Answer>) returns (ok: bool, sent: Bytes)
    requires |header| == HEADER_SIZE && text != []
    ensures var frame := Frame(header + text);
            sent == frame[..Goes(answers, |frame|)] && (ok <==> sent == frame)
  {
    var len := HEADER_SIZE + |text|;
    var iov := [ToBytes(len, HEAD_SIZE), header, text];
    var tran;
    ok, tran, sent := Writevn(iov, answers);
    ConcatSplit(iov, 0);
    ConcatSplit(iov, 1);
    ConcatSplit(iov, 2);
    assert iov[3..] == [] && iov[..0] == [];
    assert iov[0..] == iov;
    assert Concat(iov) == ToBytes(len, HEAD_SIZE) + (header + (text + []));
    assert Concat(iov) == Frame(header + text);
  }

  // ---------------------------------------------------------------- the reader

  datatype State = Head | Body

  /** What one read answers: at least one byte if there is one to read. */
  datatype Read = Got(n: nat) | WouldBlock | Eof | Error

  datatype Status = Waiting | Closed | Broken

  /** How the loop ends at a read that brings nothing; no bytes where none were asked for look like the end. */
  function Ends(answer: Read, stuck: bool): Status {
    match answer
    case Eof => Closed
    case Error => Status.Broken
    case WouldBlock => Waiting
    case Got(_) => if stuck then Closed else Waiting
  }

  class FrameReader {
    /** The bytes of `fm_.len`, and the buffer for records of up to 64K. */
    const lenBuf: array<char>
    const fastBuf: array<char>
    /** fm_.data */
    var data: array<char>
    var state: State
    var tran: nat
    var total: nat
    ghost var consumed: Bytes
    ghost var delivered: seq<Bytes>

    ghost predicate Shape()
      reads this, data, lenBuf
    {
      && lenBuf.Length == HEAD_SIZE && fastBuf.Length == FAST_BUF_SIZE && lenBuf != fastBuf
      && tran <= total <= data.Length
      && match state
         case Head => data == lenBuf && total == HEAD_SIZE
         case Body => data != lenBuf && FromBytes(lenBuf[..]) == total && (total <= FAST_BUF_SIZE ==> data == fastBuf)
    }

    /** The bytes of the frame under construction. */
    ghost function Partial(): Bytes
      requires Shape()
      reads this, data, lenBuf
    {
      match state
      case Head => data[..tran]
      case Body => lenBuf[..] + data[..tran]
    }

    ghost predicate Valid()
      reads this, data, lenBuf
    {
      && Shape() && (tran < total || total == 0)
      && delivered == Decode(consumed) && Tail(consumed) == Partial()
    }

    constructor ()
      ensures Valid() && consumed == [] && fresh({lenBuf, fastBuf, data})
    {
      lenBuf := new char[HEAD_SIZE];
      fastBuf := new char[FAST_BUF_SIZE];
      data := lenBuf;
      state, tran, total := Head, 0, HEAD_SIZE;
      consumed, delivered := [], [];
    }

    method ToHead()
      requires lenBuf.Length == HEAD_SIZE && fastBuf.Length == FAST_BUF_SIZE && lenBuf != fastBuf
      modifies this`data, this`state, this`tran, this`total
      ensures Shape() && state == Head && tran == 0
    {
      total, tran := HEAD_SIZE, 0;
      data := lenBuf;
      state := Head;
    }

    method ToBody()
      requires Shape() && state == Head && tran == total
      modifies this`data, this`state, this`tran, this`total
      ensures Shape() && state == Body && tran == 0 && total == FromBytes(lenBuf[..])
      ensures data == fastBuf || fresh(data)
    {
      total, tran := FromBytes(data[..]), 0;
      if total <= FAST_BUF_SIZE {
        data := fastBuf;
      } else {
        data := new char[total];
      }
      state := Body;
    }

    /** read: `k` bytes of the fifo go behind what the buffer holds. */
    method Fill(input: Bytes, k: nat)
      requires Shape() && k <= total - tran && k <= |input|
      modifies this`tran, data
      ensures Shape() && tran == old(tran) + k && Partial() == old(Partial()) + input[..k]
    {
      ghost var before, head := data[..tran], lenBuf[..];
      for i := 0 to k
        invariant tran == old(tran) && data[..tran] == before && data[tran..tran + i] == input[..i]
        invariant state == Body ==> lenBuf[..] == head
      {
        data[tran + i] := input[i];
      }
      assert data[..tran + k] == before + input[..k];
      Assoc(head, before, input[..k]);
      tran := tran + k;
    }

    /** The switch of async_read_msg once the buffer is full. */
    method Switch() returns (done: seq<Bytes>)
      requires Shape() && tran == total > 0
      modifies this`data, this`state, this`tran, this`total
      ensures Shape() && (tran < total || total == 0) && unchanged(lenBuf)
      ensures data in {lenBuf, fastBuf} || fresh(data)
      ensures old(state).Head? ==> Partial() == old(Partial()) && done == []
      ensures old(state).Body? ==> Partial() == [] && done == [old(Partial())[HEAD_SIZE..]]
    {
      done := [];
      ghost var frame := Partial();
      match state {
        case Head =>
          assert data[..tran] == data[..] == lenBuf[..];
          ToBody();
          assert lenBuf[..] + data[..0] == frame;
        case Body =>
          done := [data[..total]];
          assert frame[HEAD_SIZE..] == data[..total];
          ToHead();
          assert data[..0] == [];
      }
    }

    /** A full buffer is a length or a record; the last read brought `more`. */
    method Act(ghost more: Bytes) returns (done: seq<Bytes>)
      requires Shape() && tran == total > 0 && Tail(consumed) + more == Partial() && delivered == Decode(consumed)
      modifies this
      ensures Valid() && consumed == old(consumed) + more && delivered == old(delivered) + done
      ensures unchanged(lenBuf) && (data in {lenBuf, fastBuf} || fresh(data))
    {
      DecodeMore(consumed, more);
      ghost var frame := Partial();
      assert state == Body ==> frame[..HEAD_SIZE] == lenBuf[..];
      FrameDone(frame, total);
      hide Decode, Tail, Shape, Partial;
      done := Switch();
      consumed, delivered := consumed + more, delivered + done;
    }

    /** A read that leaves the buffer partly filled. */
    ghost method Wait(more: Bytes)
      requires Shape() && tran < total && Tail(consumed) + more == Partial() && delivered == Decode(consumed)
      modifies this`consumed
      ensures Valid() && consumed == old(consumed) + more
    {
      DecodeMore(consumed, more);
      assert state == Body ==> Partial()[..HEAD_SIZE] == lenBuf[..];
      FramePart(Partial());
      hide Decode, Tail;
      consumed := consumed + more;
    }

    /** A read that brings `r` bytes, and what follows from it. */
    method Take(input: Bytes, r: nat) returns (now: seq<Bytes>)
      requires Valid() && 0 < r <= |input| && r <= total - tran
      modifies this, lenBuf, data
      ensures Valid() && consumed == old(consumed) + input[..r] && delivered == old(delivered) + now == Decode(consumed)
      ensures data in {lenBuf, fastBuf, old(data)} || fresh(data)
    {
      Known();
      now := [];
      hide Decode, Tail, Partial, Valid;
      Fill(input, r);
      if tran == total {
        now := Act(input[..r]);
      } else {
        Wait(input[..r]);
      }
      Known();
    }

    /** A length of 0 has been read: read will be asked for no bytes. */
    ghost predicate Stuck()
      reads this`consumed
    {
      |Tail(consumed)| == HEAD_SIZE && FromBytes(Tail(consumed)) == 0
    }

    /**
     async_read_msg: read while there is something.  However the reads cut the stream, the records delivered are
     exactly those of the bytes consumed, and nothing is left lying except behind a frame of length 0.
    */
    method AsyncReadMsg(input: Bytes, answers: seq<Read>)
        returns (status: Status, n: nat, done: seq<Bytes>, ghost used: nat)
      requires Valid()
      modifies this, lenBuf, fastBuf, data
      ensures Valid() && n <= |input| && consumed == old(consumed) + input[..n]
      ensures delivered == old(delivered) + done == Decode(consumed)
      ensures (forall i :: 0 <= i < |answers| ==> answers[i].Got?) && |answers| >= |input| ==>
                n == |input| || Stuck()
      ensures used <= |answers| && (used == |answers| ==> status == Waiting)
      ensures used < |answers| ==> status == Ends(answers[used], Stuck())
      ensures used < |answers| && answers[used].Got? ==> n == |input| || Stuck()
    {
      status, n, done, used := Waiting, 0, [], 0;
      var i := 0;
      Known();
      hide Decode, Tail, Valid, Shape, Partial, Stuck;
      while i < |answers|
        invariant Valid() && n <= |input| && used == i <= |answers| && status == Waiting
        invariant consumed == old(consumed) + input[..n]
        invariant delivered == old(delivered) + done == Decode(consumed)
        invariant data in {lenBuf, fastBuf, old(data)} || fresh(data)
        invariant (forall j :: 0 <= j < |answers| ==> answers[j].Got?) ==> i <= n
      {
        Known();
        // read of no bytes returns 0, which reads as the end of the fifo
        var r := if answers[i].Got? then Granted(answers[i].n, total - tran, |input| - n) else 0;
        if r == 0 {
          match answers[i] {
            case Error => status := Status.Broken;
            case Eof => status := Closed;
            case WouldBlock => status := Waiting;
            case Got(_) => status := if total == tran then Closed else Waiting;
          }
          break;
        }
        TakeMore(old(consumed), input, n, r);
        var now := Take(input[n..], r);
        Grouped(old(delivered), done, now);
        done := done + now;
        n := n + r;
        i, used := i + 1, used + 1;
      }
      Known();
    }

    /** What a valid reader's fields say about the frame it waits for. */
    lemma Known()
      requires Valid()
      ensures Shape() && tran <= total && delivered == Decode(consumed) && Tail(consumed) == Partial()
      ensures tran == total <==> Stuck()
    {
      hide Decode, Tail;
      if tran == total || (state == Body && tran == 0) { assert lenBuf[..] + data[..tran] == lenBuf[..]; }
    }
  }

  lemma Grouped(a: seq<Bytes>, b: seq<Bytes>, c: seq<Bytes>)
    ensures (a + b) + c == a + (b + c)
  {
  }

  /** A frame of which the length, or everything, has arrived. */
  lemma FrameDone(frame: Bytes, total: nat)
    requires total > 0
    ensures |frame| == HEAD_SIZE ==> Decode(frame) == [] && Tail(frame) == frame
    ensures |frame| == HEAD_SIZE + total && FromBytes(frame[..HEAD_SIZE]) == total ==>
              Decode(frame) == [frame[HEAD_SIZE..]] && Tail(frame) == []
  {
    if |frame| == HEAD_SIZE + total && FromBytes(frame[..HEAD_SIZE]) == total {
      assert frame[HEAD_SIZE + total..] == [] && frame[HEAD_SIZE..HEAD_SIZE + total] == frame[HEAD_SIZE..];
    }
  }

  /** A frame of which less has arrived. */
  lemma FramePart(frame: Bytes)
    requires |frame| < HEAD_SIZE || |frame| < HEAD_SIZE + FromBytes(frame[..HEAD_SIZE])
    ensures Decode(frame) == [] && Tail(frame) == frame
  {
  }

  // ---------------------------------------------------------------- from sender to reader

  function Records(headers: seq<Bytes>, texts: seq<Bytes>): (r: seq<Bytes>)
    requires |headers| == |texts|
    ensures |r| == |texts|
    ensures forall i :: 0 <= i < |r| ==> r[i] == headers[i] + texts[i]
  {
    seq(|texts|, i requires 0 <= i < |texts| => headers[i] + texts[i])
  }

  /** What a message may have put into the fifo: its frame or a part of it, and `ok` says which. */
  ghost predicate Outcome(piece: Bytes, record: Bytes, ok: bool) {
    piece <= Frame(record) && (ok <==> piece == Frame(record))
  }

  /** It is as much of the frame as the writes take. */
  ghost predicate Put(piece: Bytes, record: Bytes, answers: seq<Answer>) {
    piece == Frame(record)[..Goes(answers, |Frame(record)|)]
  }

  /** One message after another.  A write that failed leaves the fifo open unless its reader is gone. */
  method SendAll(headers: seq<Bytes>, texts: seq<Bytes>, answers: seq<seq<Answer>>)
      returns (oks: seq<bool>, pieces: seq<Bytes>)
    requires |headers| == |texts| == |answers|
    requires forall i :: 0 <= i < |texts| ==> |headers[i]| == HEADER_SIZE && texts[i] != []
    ensures |oks| == |pieces| == |texts|
    ensures forall i :: 0 <= i < |texts| ==> Outcome(pieces[i], headers[i] + texts[i], oks[i])
    ensures forall i :: 0 <= i < |texts| ==> Put(pieces[i], headers[i] + texts[i], answers[i])
  {
    oks, pieces := [], [];
    for i := 0 to |texts|
      invariant |oks| == |pieces| == i
      invariant forall j :: 0 <= j < i ==> Outcome(pieces[j], headers[j] + texts[j], oks[j])
      invariant forall j :: 0 <= j < i ==> Put(pieces[j], headers[j] + texts[j], answers[j])
    {
      var ok, sent := LogSend(headers[i], texts[i], answers[i]);
      oks, pieces := oks + [ok], pieces + [sent];
    }
  }

  /** The records of which log_send said that they went out. */
  function Kept(records: seq<Bytes>, oks: seq<bool>): seq<Bytes>
    requires |records| == |oks|
  {
    if records == [] then [] else (if oks[0] then [records[0]] else []) + Kept(records[1..], oks[1..])
  }

  /** No write stopped inside a frame: each put all of it or nothing. */
  ghost predicate Clean(pieces: seq<Bytes>, oks: seq<bool>)
    requires |pieces| == |oks|
  {
    forall i :: 0 <= i < |pieces| ==> oks[i] || pieces[i] == []
  }

  ghost predicate Sizes(records: seq<Bytes>) {
    forall i :: 0 <= i < |records| ==> 0 < |records[i]| < WORD
  }

  ghost predicate Outcomes(pieces: seq<Bytes>, records: seq<Bytes>, oks: seq<bool>) {
    && |pieces| == |records| == |oks| && Sizes(records)
    && forall i :: 0 <= i < |records| ==> Outcome(pieces[i], records[i], oks[i])
  }

  /** Then the fifo holds the frames of the records that went out. */
  lemma {:induction false} CleanFrames(pieces: seq<Bytes>, records: seq<Bytes>, oks: seq<bool>)
    requires Outcomes(pieces, records, oks) && Clean(pieces, oks)
    ensures Concat(pieces) == Frames(Kept(records, oks)) && Sizes(Kept(records, oks))
  {
    hide Frame;
    if records != [] {
      CleanFrames(pieces[1..], records[1..], oks[1..]);
      var rest := Kept(records[1..], oks[1..]);
      assert Outcome(pieces[0], records[0], oks[0]);
      if oks[0] {
        assert ([records[0]] + rest)[1..] == rest;
      } else {
        assert [] + rest == rest && pieces[0] + Concat(pieces[1..]) == Concat(pieces[1..]);
      }
    }
  }

  /** A reader of frames never comes to wait behind a frame of length 0. */
  lemma {:induction false} NeverStuck(records: seq<Bytes>, s: Bytes)
    requires forall i :: 0 <= i < |records| ==> 0 < |records[i]| < WORD
    requires s <= Frames(records)
    ensures !(|Tail(s)| == HEAD_SIZE && FromBytes(Tail(s)) == 0)
  {
    if records != [] {
      var f, rest := Frame(records[0]), Frames(records[1..]);
      LengthRoundTrip(|records[0]|);
      if |s| < |f| {
        assert s <= f;
        if |s| >= HEAD_SIZE {
          assert s[..HEAD_SIZE] == f[..HEAD_SIZE] == ToBytes(|records[0]|, HEAD_SIZE);
          if |s| == HEAD_SIZE { assert s[..HEAD_SIZE] == s; }
        }
      } else {
        var t := s[|f|..];
        assert s == f + t && t <= rest;
        assert (f + t)[..HEAD_SIZE] == ToBytes(|records[0]|, HEAD_SIZE);
        NeverStuck(records[1..], t);
      }
    }
  }

  lemma OutcomesFirst(pieces: seq<Bytes>, records: seq<Bytes>, oks: seq<bool>, c: nat)
    requires Outcomes(pieces, records, oks) && c <= |pieces|
    ensures |pieces| == |records| == |oks| && Outcomes(pieces[..c], records[..c], oks[..c])
  {
  }

  /** What is delivered of a part of the fifo's bytes, up to the first frame that was cut short and beyond. */
  lemma Delivered(pieces: seq<Bytes>, records: seq<Bytes>, oks: seq<bool>, c: nat, s: Bytes)
    requires Outcomes(pieces, records, oks) && c <= |pieces| && Clean(pieces[..c], oks[..c])
    requires s <= Concat(pieces)
    ensures var kept := Kept(records[..c], oks[..c]);
            && (c == |pieces| ==> Decode(s) <= kept)
            && (s == Concat(pieces) || (|Tail(s)| == HEAD_SIZE && FromBytes(Tail(s)) == 0) ==> kept <= Decode(s))
  {
    hide Concat, Decode, Tail, Frame, Frames, Kept, Clean, Outcomes, FromBytes;
    OutcomesFirst(pieces, records, oks, c);
    var first, kept := Concat(pieces[..c]), Kept(records[..c], oks[..c]);
    ConcatParts(pieces[..c], pieces[c..]);
    assert pieces[..c] + pieces[c..] == pieces;
    assert c == |pieces| ==> pieces[..c] == pieces;
    CleanFrames(pieces[..c], records[..c], oks[..c]);
    if |s| < |first| || c == |pieces| {
      assert s <= first;
      CutStream(kept, s);
      NeverStuck(kept, s);
    } else {
      assert s == first + s[|first|..];
      FramesRoundTrip(kept);
      DecodeMore(first, s[|first|..]);
    }
  }

  /** Short writes alone, enough of them for all of a record's frame. */
  ghost predicate OnlyShort(answers: seq<Answer>, record: Bytes) {
    |answers| >= |Frame(record)| && forall k :: 0 <= k < |answers| ==> answers[k].Wrote?
  }

  lemma {:induction false} NothingLost(pieces: seq<Bytes>, records: seq<Bytes>, oks: seq<bool>,
                                       answers: seq<seq<Answer>>)
    requires Outcomes(pieces, records, oks) && |answers| == |records|
    requires forall i :: 0 <= i < |records| ==> Put(pieces[i], records[i], answers[i])
    requires forall i :: 0 <= i < |records| ==> OnlyShort(answers[i], records[i])
    ensures Clean(pieces, oks) && Kept(records, oks) == records
  {
    hide Frame, Goes;
    if records != [] {
      NothingLost(pieces[1..], records[1..], oks[1..], answers[1..]);
      assert Put(pieces[0], records[0], answers[0]) && OnlyShort(answers[0], records[0]);
      assert Outcome(pieces[0], records[0], oks[0]);
      GoesOut(answers[0], |Frame(records[0])|);
      assert forall i :: 0 < i < |pieces| ==> oks[i] == oks[1..][i - 1] && pieces[i] == pieces[1..][i - 1];
    }
  }

  /**
   The whole way: messages written by log_send and read by async_read_msg, however writes and reads cut the
   stream.  While no frame is cut short, the records delivered are the first of those that log_send said went
   out.  Once the reads have brought everything, they are all of those before the first frame cut short; with no
   failed write that is every record.
  */
  method Pipeline(headers: seq<Bytes>, texts: seq<Bytes>, answers: seq<seq<Answer>>, arrivals: seq<Read>)
    returns (oks: seq<bool>, pieces: seq<Bytes>, done: seq<Bytes>)
    requires |headers| == |texts| == |answers|
    requires forall i :: 0 <= i < |texts| ==> |headers[i]| == HEADER_SIZE && 0 < |texts[i]| < WORD - HEADER_SIZE
    ensures Outcomes(pieces, Records(headers, texts), oks)
    ensures Clean(pieces, oks) ==> done <= Kept(Records(headers, texts), oks)
    ensures (forall i :: 0 <= i < |arrivals| ==> arrivals[i].Got?) && |arrivals| >= |Concat(pieces)| ==>
              forall c :: 0 <= c <= |pieces| && Clean(pieces[..c], oks[..c]) ==>
                Kept(Records(headers, texts)[..c], oks[..c]) <= done
    ensures (forall i :: 0 <= i < |arrivals| ==> arrivals[i].Got?) && |arrivals| >= |Concat(pieces)| ==>
              (forall i :: 0 <= i < |texts| ==> OnlyShort(answers[i], headers[i] + texts[i])) ==>
                done == Records(headers, texts)
  {
    oks, pieces := SendAll(headers, texts, answers);
    var reader := new FrameReader();
    var stream := Concat(pieces);
    var status, n;
    ghost var records := Records(headers, texts);
    assert Outcomes(pieces, records, oks);
    hide Concat, Decode, Tail, Frame, Kept, Clean, Outcomes;
    ghost var used;
    status, n, done, used := reader.AsyncReadMsg(stream, arrivals);
    assert reader.consumed == stream[..n] && reader.delivered == done == Decode(stream[..n]);
    assert n == |stream| ==> stream[..n] == stream;
    assert pieces[..|pieces|] == pieces && records[..|pieces|] == records && oks[..|pieces|] == oks;
    forall c | 0 <= c <= |pieces| && Clean(pieces[..c], oks[..c])
      ensures c == |pieces| ==> done <= Kept(records[..c], oks[..c])
      ensures n == |stream| || (|Tail(stream[..n])| == HEAD_SIZE && FromBytes(Tail(stream[..n])) == 0) ==>
                Kept(records[..c], oks[..c]) <= done
    {
      Delivered(pieces, records, oks, c, stream[..n]);
    }
    if forall i :: 0 <= i < |texts| ==> OnlyShort(answers[i], headers[i] + texts[i]) {
      assert forall i :: 0 <= i < |texts| ==> records[i] == headers[i] + texts[i];
      NothingLost(pieces, records, oks, answers);
    }
  }

  /**
   A frame cut short by a failed write swallows what is written after it: the bytes that are missing are taken
   from there, first for the length and then for the record.
  */
  lemma TornFrame(r: Bytes, k: nat, later: Bytes)
    requires 0 < |r| < WORD && 0 < k < |Frame(r)|
    ensures var s, missing := Frame(r)[..k] + later, |Frame(r)| - k;
            k >= HEAD_SIZE ==>
              Decode(s) == if |later| < missing then []
                           else [r[..k - HEAD_SIZE] + later[..missing]] + Decode(later[missing..])
    ensures var s, m := Frame(r)[..k] + later, HEAD_SIZE - k;
            k < HEAD_SIZE ==>
              Decode(s) == if |later| < m then []
                           else var n := FromBytes(ToBytes(|r|, HEAD_SIZE)[..k] + later[..m]);
                                if n == 0 || |later| < m + n then []
                                else [later[m..m + n]] + Decode(later[m + n..])
  {
    var f := Frame(r);
    LengthRoundTrip(|r|);
    if k >= HEAD_SIZE {
      assert f[..k] == ToBytes(|r|, HEAD_SIZE) + r[..k - HEAD_SIZE];
      TornRecord(ToBytes(|r|, HEAD_SIZE), r[..k - HEAD_SIZE], later);
    } else {
      assert f[..k] == ToBytes(|r|, HEAD_SIZE)[..k];
      TornLength(f[..k], later);
    }
    hide Decode;
  }

  /** A whole length, a part of the record, and what follows. */
  lemma TornRecord(head: Bytes, part: Bytes, later: Bytes)
    requires |head| == HEAD_SIZE && |part| < FromBytes(head)
    ensures var m := FromBytes(head) - |part|;
            Decode((head + part) + later) ==
              if |later| < m then [] else [part + later[..m]] + Decode(later[m..])
  {
    var s, n := (head + part) + later, FromBytes(head);
    var m := n - |part|;
    assert s[..HEAD_SIZE] == head;
    if |later| >= m {
      assert s[HEAD_SIZE..HEAD_SIZE + n] == part + later[..m];
      assert s[HEAD_SIZE + n..] == later[m..];
    }
  }

  /** A part of a length, and what follows. */
  lemma TornLength(part: Bytes, later: Bytes)
    requires |part| < HEAD_SIZE
    ensures var m := HEAD_SIZE - |part|;
            Decode(part + later) ==
              if |later| < m then []
              else var n := FromBytes(part + later[..m]);
                   if n == 0 || |later| < m + n then [] else [later[m..m + n]] + Decode(later[m + n..])
  {
    var s, m := part + later, HEAD_SIZE - |part|;
    if |later| >= m {
      assert s[..HEAD_SIZE] == part + later[..m];
      var n := FromBytes(part + later[..m]);
      if n > 0 && |later| >= m + n {
        assert s[HEAD_SIZE..HEAD_SIZE + n] == later[m..m + n] && s[HEAD_SIZE + n..] == later[m + n..];
      }
    }
  }

  /** Whatever whole frames follow `s`, the reader delivers `kept` and exactly their records. */
  ghost predicate InStep(s: Bytes, kept: seq<Bytes>) {
    forall later | Sizes(later) :: Decode(s + Frames(later)) == kept + later
  }

  lemma {:induction false} FromBytesAt(s: Bytes, t: Bytes)
    requires FromBytes(t) >= 1
    ensures FromBytes(s + t) >= (if s == [] then 1 else 256)
  {
    if s == [] {
      assert s + t == t;
    } else {
      FromBytesAt(s[1..], t);
      assert (s + t)[1..] == s[1..] + t;
    }
  }

  /** An incomplete frame in front of a record of one byte, 0: the record is not what is delivered. */
  lemma OutOfStep(t: Bytes)
    requires t != [] && Decode(t) == [] && Tail(t) == t
    ensures Decode(t + Frames([[0 as char]])) != [[0 as char]]
  {
    var x := [0 as char];
    var one := ToBytes(1, HEAD_SIZE);
    var s := t + Frames([x]);
    assert Frames([x]) == one + x;
    LengthRoundTrip(1);
    assert one[0] == 1 as char;
    if |t| < HEAD_SIZE {
      var m := HEAD_SIZE - |t|;
      assert s[..HEAD_SIZE] == t + one[..m];
      assert one[..m][0] == 1 as char;
      FromBytesAt(t, one[..m]);
    } else {
      assert s[..HEAD_SIZE] == t[..HEAD_SIZE];
      var n := FromBytes(t[..HEAD_SIZE]);
      if n == 1 && |t| == HEAD_SIZE {
        assert s[HEAD_SIZE] == 1 as char;
        assert s[HEAD_SIZE..HEAD_SIZE + 1][0] == 1 as char;
      }
    }
  }

  /** A reader is in step exactly if it waits for no rest of a frame. */
  lemma InStepIff(s: Bytes)
    requires Tail(Tail(s)) == Tail(s) && Decode(Tail(s)) == []
    ensures InStep(s, Decode(s)) <==> Tail(s) == []
  {
    var x := [[0 as char]];
    assert Sizes(x);
    hide Decode, Tail, Frames;
    if Tail(s) == [] {
      forall later | Sizes(later) ensures Decode(s + Frames(later)) == Decode(s) + later {
        Follows(s, later);
      }
    } else {
      Strays(s);
      assert InStep(s, Decode(s)) ==> Decode(s + Frames(x)) == Decode(s) + x;
    }
  }

  lemma Strays(s: Bytes)
    requires Tail(s) != [] && Tail(Tail(s)) == Tail(s) && Decode(Tail(s)) == []
    ensures Decode(s + Frames([[0 as char]])) != Decode(s) + [[0 as char]]
  {
    hide Decode, Tail, Frames;
    var x, now := [[0 as char]], Decode(Tail(s) + Frames([[0 as char]]));
    OutOfStep(Tail(s));
    DecodeMore(s, Frames(x));
    assert (Decode(s) + now)[|Decode(s)|..] == now && (Decode(s) + x)[|Decode(s)|..] == x;
  }

  lemma Follows(s: Bytes, later: seq<Bytes>)
    requires Tail(s) == [] && Sizes(later)
    ensures Decode(s + Frames(later)) == Decode(s) + later
  {
    FramesRoundTrip(later);
    DecodeMore(s, Frames(later));
    assert [] + Frames(later) == Frames(later);
  }

  /**
   As long as no frame is cut short, the reader stays in step.  The first one that is cut short puts it out of
   step: what follows is delivered as it was sent if and only if the write put all of its frame or nothing.
  */
  lemma SpoilsIff(pieces: seq<Bytes>, records: seq<Bytes>, oks: seq<bool>)
    requires Outcomes(pieces, records, oks) && pieces != []
    requires Clean(pieces[..|pieces| - 1], oks[..|pieces| - 1])
    ensures InStep(Concat(pieces), Kept(records, oks)) <==> oks[|pieces| - 1] || pieces[|pieces| - 1] == []
  {
    var c, kept := |pieces| - 1, Kept(records, oks);
    if oks[c] || pieces[c] == [] {
      CleanFrames(pieces, records, oks);
      FramesRoundTrip(kept);
    } else {
      TornTail(pieces, records, oks);
    }
    hide Concat, Decode, Tail, Kept, InStep;
    InStepIff(Concat(pieces));
  }

  /** Behind a frame cut short the reader waits for the rest of it. */
  lemma TornTail(pieces: seq<Bytes>, records: seq<Bytes>, oks: seq<bool>)
    requires Outcomes(pieces, records, oks) && pieces != []
    requires var c := |pieces| - 1; Clean(pieces[..c], oks[..c]) && !oks[c]
    ensures Decode(Concat(pieces)) == Kept(records, oks) && Tail(Concat(pieces)) == pieces[|pieces| - 1]
    ensures Decode(pieces[|pieces| - 1]) == [] && Tail(pieces[|pieces| - 1]) == pieces[|pieces| - 1]
  {
    var c := |pieces| - 1;
    var torn := pieces[c];
    ConcatParts(pieces[..c], [torn]);
    assert pieces == pieces[..c] + [torn] && Concat([torn]) == torn;
    CleanFrames(pieces[..c], records[..c], oks[..c]);
    KeptLast(records, oks);
    assert Outcome(torn, records[c], oks[c]);
    TornPiece(torn, records[c]);
    hide *;
    FramesRoundTrip(Kept(records[..c], oks[..c]));
    DecodeMore(Concat(pieces[..c]), torn);
    assert [] + torn == torn;
  }

  lemma TornPiece(torn: Bytes, record: Bytes)
    requires torn < Frame(record) && 0 < |record| < WORD
    ensures Decode(torn) == [] && Tail(torn) == torn
  {
    LengthRoundTrip(|record|);
    if |torn| >= HEAD_SIZE { assert torn[..HEAD_SIZE] == ToBytes(|record|, HEAD_SIZE); }
    FramePart(torn);
  }

  lemma {:induction false} KeptLast(records: seq<Bytes>, oks: seq<bool>)
    requires |records| == |oks| > 0
    ensures var c := |records| - 1;
            Kept(records, oks) == Kept(records[..c], oks[..c]) + if oks[c] then [records[c]] else []
  {
    if |records| > 1 {
      var c := |records| - 1;
      KeptLast(records[1..], oks[1..]);
      assert records[..c][1..] == records[1..][..c - 1] && oks[..c][1..] == oks[1..][..c - 1];
    }
  }
}
