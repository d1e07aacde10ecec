/**
 core/buffer.h: the linked FIFO of buffers with its byte count and water marks, and the send loop of
 core/connection.cpp that consumes it.
*/
module BufferQueue {
  import opened Chunks

  class Buffer {
    const data: Bytes
    var tran: nat
    var next: Buffer?

    constructor (data: Bytes)
      ensures this.data == data && tran == 0 && next == null
    {
      this.data := data;
      tran := 0;
      next := null;
    }
  }

  ghost predicate NoRepeat(bufs: seq<Buffer>) {
    forall i, j :: 0 <= i < j < |bufs| ==> bufs[i] != bufs[j]
  }

  ghost function Next(bufs: seq<Buffer>, i: nat): Buffer? {
    if i + 1 < |bufs| then bufs[i + 1] else null
  }

  ghost function First(bufs: seq<Buffer>): Buffer? {
    if bufs == [] then null else bufs[0]
  }

  ghost function Last(bufs: seq<Buffer>): Buffer? {
    if bufs == [] then null else bufs[|bufs| - 1]
  }

  ghost predicate LinkAt(bufs: seq<Buffer>, i: nat)
    requires i < |bufs|
    reads bufs`next
  {
    bufs[i].next == Next(bufs, i)
  }

  /** Each buffer is linked to the following one, and the last one to nothing. */
  ghost predicate Linked(bufs: seq<Buffer>)
    reads bufs`next
  {
    forall i :: 0 <= i < |bufs| ==> LinkAt(bufs, i)
  }

  /** The buffers hold exactly `q`. */
  ghost predicate Holds(bufs: seq<Buffer>, q: seq<Chunk>)
    reads bufs`tran
  {
    |bufs| == |q| && forall i :: 0 <= i < |bufs| ==> q[i] == Chunk(bufs[i].data, bufs[i].tran)
  }

  lemma NoRepeatConcat(a: seq<Buffer>, b: seq<Buffer>)
    requires NoRepeat(a) && NoRepeat(b)
    requires forall x :: x in b ==> x !in a
    ensures NoRepeat(a + b)
  {
    forall i, j | 0 <= i < j < |a + b|
      ensures (a + b)[i] != (a + b)[j]
    {
      if i < |a| <= j {
        assert (a + b)[j] == b[j - |a|];
        assert (a + b)[i] in a;
      }
    }
  }

  lemma NoRepeatTail(a: seq<Buffer>)
    requires a != [] && NoRepeat(a)
    ensures NoRepeat(a[1..]) && a[0] !in a[1..]
  {
  }

  lemma HoldsConcat(a: seq<Buffer>, p: seq<Chunk>, b: seq<Buffer>, q: seq<Chunk>)
    requires Holds(a, p) && Holds(b, q)
    ensures Holds(a + b, p + q)
  {
  }

  lemma HoldsTail(a: seq<Buffer>, q: seq<Chunk>)
    requires a != [] && Holds(a, q)
    ensures Holds(a[1..], q[1..])
  {
  }

  lemma LinkedConcat(a: seq<Buffer>, b: seq<Buffer>)
    requires forall i :: 0 <= i < |a| - 1 ==> LinkAt(a, i)
    requires a != [] ==> b != [] && a[|a| - 1].next == b[0]
    requires Linked(b)
    ensures Linked(a + b)
  {
    var all, n := a + b, |a|;
    forall k | 0 <= k < |all|
      ensures LinkAt(all, k)
    {
      if k < n - 1 {
        assert LinkAt(a, k);
      } else if n <= k {
        assert LinkAt(b, k - n);
      }
    }
  }

  lemma EndsOfTail(a: seq<Buffer>)
    requires a != []
    ensures First(a[1..]) == Next(a, 0)
    ensures Last(a[1..]) == if Next(a, 0) == null then null else Last(a)
  {
  }

  lemma EndsOfConcat(a: seq<Buffer>, b: seq<Buffer>)
    requires b != []
    ensures First(a + b) == if a == [] then First(b) else First(a)
    ensures Last(a + b) == Last(b)
  {
  }

  lemma LinkedAt(a: seq<Buffer>, i: nat)
    requires Linked(a) && i < |a|
    ensures a[i].next == Next(a, i)
  {
    assert LinkAt(a, i);
  }

  lemma LinkedTail(a: seq<Buffer>)
    requires a != []
    requires forall i :: 1 <= i < |a| ==> LinkAt(a, i)
    ensures Linked(a[1..])
  {
    var t := a[1..];
    forall i | 0 <= i < |t|
      ensures LinkAt(t, i)
    {
      assert LinkAt(a, i + 1);
    }
  }

  /** What appending a chain that starts with an untouched buffer does to the byte count. */
  lemma PushCount(q: seq<Chunk>, chain: seq<Chunk>)
    requires chain != []
    ensures chain[0].tran == 0 ==> Size(q + chain) == Size(q) + |chain[0].data| + Size(chain[1..])
  {
    PendingConcat(q, chain);
  }

  ghost predicate Apart(a: seq<Buffer>, b: seq<Buffer>) {
    forall x :: x in a ==> x !in b
  }

  lemma ApartIndices(a: seq<Buffer>, b: seq<Buffer>)
    requires Apart(a, b)
    ensures forall i, j :: 0 <= i < |a| && 0 <= j < |b| ==> a[i] != b[j]
  {
    forall i, j | 0 <= i < |a| && 0 <= j < |b|
      ensures a[i] != b[j]
    {
      assert a[i] in a && b[j] in b;
    }
  }

  /** Some of the elements of `b` have gone over to `a`, from the front on. */
  ghost predicate Split<T>(now: seq<T>, rest: seq<T>, a: seq<T>, b: seq<T>) {
    |rest| <= |b| && rest == b[|b| - |rest|..] && now == a + b[..|b| - |rest|]
  }

  lemma SplitApart(a: seq<Buffer>, b: seq<Buffer>, now: seq<Buffer>, rest: seq<Buffer>)
    requires Apart(a, b) && NoRepeat(b) && Split(now, rest, a, b)
    ensures Apart(now, rest)
    ensures (forall x :: x in now ==> x in a || x in b) && (forall x :: x in rest ==> x in b)
  {
  }

  lemma SplitStart<T>(a: seq<T>, b: seq<T>)
    ensures Split(a, b, a, b)
  {
    assert a + b[..0] == a;
  }

  lemma SplitStep<T>(now: seq<T>, rest: seq<T>, a: seq<T>, b: seq<T>)
    requires Split(now, rest, a, b) && rest != []
    ensures Split(now + [rest[0]], rest[1..], a, b)
  {
    var i := |b| - |rest|;
    assert b[..i + 1] == b[..i] + [b[i]];
    assert a + b[..i] + [b[i]] == a + (b[..i] + [b[i]]);
  }

  lemma SplitEnd<T>(now: seq<T>, a: seq<T>, b: seq<T>)
    requires Split(now, [], a, b)
    ensures now == a + b
  {
    assert b[..|b|] == b;
  }

  lemma SingleIsChain(buf: Buffer)
    requires buf.next == null
    ensures Linked([buf]) && NoRepeat([buf]) && Holds([buf], [Chunk(buf.data, buf.tran)]) && First([buf]) == buf
  {
    assert LinkAt([buf], 0);
  }

  /** The total length of the buffers, sent or not. */
  ghost function Lens(q: seq<Chunk>): nat {
    if q == [] then 0 else |q[0].data| + Lens(q[1..])
  }

  /** Summing the lengths counts the unsent bytes if and only if no byte has been sent. */
  lemma {:induction false} LensIsSize(q: seq<Chunk>)
    ensures Size(q) <= Lens(q)
    ensures Size(q) == Lens(q) <==> forall i :: 0 <= i < |q| ==> q[i].tran == 0 || q[i].data == []
  {
    if q != [] {
      LensIsSize(q[1..]);
      assert forall i :: 0 < i < |q| ==> q[i] == q[1..][i - 1];
    }
  }

  class BufferQueue {
    var head: Buffer?
    var tail: Buffer?
    var dsize: int
    ghost var bufs: seq<Buffer>
    ghost var contents: seq<Chunk>

    /** The list is well formed and holds `contents`. */
    ghost predicate Valid()
      reads this, bufs
    {
      && NoRepeat(bufs) && Linked(bufs) && Holds(bufs, contents)
      && head == First(bufs) && tail == Last(bufs)
    }

    /** The byte count is the number of unsent bytes. */
    ghost predicate Counted()
      reads this
    {
      dsize == Size(contents)
    }

    constructor ()
      ensures Valid() && Counted() && contents == [] && bufs == []
    {
      head, tail, dsize, bufs, contents := null, null, 0, [], [];
    }

    /** Link `buf` behind the tail, or to the empty queue. */
    method Join(buf: Buffer, ghost chain: seq<Buffer>)
      requires Linked(bufs) && NoRepeat(bufs) && head == First(bufs) && tail == Last(bufs)
      requires chain != [] && Linked(chain) && buf == chain[0]
      requires forall b :: b in chain ==> b !in bufs
      modifies this`head, bufs`next
      ensures Linked(bufs + chain) && head == First(bufs + chain)
    {
      EndsOfConcat(bufs, chain);
      if tail != null {
        SetNext(tail, buf, bufs, chain);
      } else {
        assert bufs + chain == chain;
        head := buf;
      }
      hide Linked;
    }

    /** Link `buf` behind the tail and move the tail to the end of its chain. */
    method Link(buf: Buffer, ghost chain: seq<Buffer>, ghost q: seq<Chunk>)
      requires Valid()
      requires Linked(chain) && NoRepeat(chain) && Holds(chain, q) && First(chain) == buf
      requires forall b :: b in chain ==> b !in bufs
      modifies this`head, this`tail, this`bufs, this`contents, bufs`next
      ensures Valid() && bufs == old(bufs) + chain && contents == old(contents) + q
    {
      var end := ChainEnd(buf, chain); // linking does not change the chain behind `buf`
      EndsOfConcat(bufs, chain);
      NoRepeatConcat(bufs, chain);
      HoldsConcat(bufs, contents, chain, q);
      hide NoRepeat, Last, Holds, Linked;
      Join(buf, chain);
      tail := end;
      bufs, contents := bufs + chain, contents + q;
    }

    /** Relink the last buffer of one chain to the head of another. */
    static method SetNext(last: Buffer, buf: Buffer, ghost bufs: seq<Buffer>, ghost chain: seq<Buffer>)
      requires bufs != [] && last == bufs[|bufs| - 1] && Linked(bufs) && NoRepeat(bufs)
      requires chain != [] && buf == chain[0] && Linked(chain) && last !in chain
      modifies last`next
      ensures Linked(bufs + chain)
    {
      assert forall k :: 0 <= k < |bufs| - 1 ==> bufs[k] != last && LinkAt(bufs, k);
      assert forall k :: 0 <= k < |chain| ==> chain[k] != last && LinkAt(chain, k);
      last.next := buf;
      assert Linked(chain);
      assert forall k :: 0 <= k < |bufs| - 1 ==> LinkAt(bufs, k);
      LinkedConcat(bufs, chain);
    }

    /** The last buffer of a chain. */
    static method ChainEnd(buf: Buffer, ghost chain: seq<Buffer>) returns (tmp: Buffer)
      requires Linked(chain) && First(chain) == buf
      ensures Last(chain) == tmp
    {
      tmp := buf;
      ghost var i := 0;
      while tmp.next != null
        invariant 0 <= i < |chain| && tmp == chain[i]
        decreases |chain| - i
      {
        LinkedAt(chain, i);
        tmp := tmp.next;
        i := i + 1;
      }
      LinkedAt(chain, i);
    }

    /**
     Append `buf` and whatever is linked behind it.  Only the first buffer's length is added to the count,
     so the count stays exact if and only if nothing unsent follows it.
    */
    method Push(buf: Buffer, ghost chain: seq<Buffer>, ghost q: seq<Chunk>)
      requires Valid()
      requires Linked(chain) && NoRepeat(chain) && Holds(chain, q) && First(chain) == buf
      requires forall b :: b in chain ==> b !in bufs
      modifies this, bufs`next
      ensures Valid() && bufs == old(bufs) + chain && contents == old(contents) + q
      ensures dsize == old(dsize) + |buf.data|
      ensures old(Counted()) && buf.tran == 0 ==> (Counted() <==> Size(q[1..]) == 0)
    {
      assert q[0] == Chunk(buf.data, buf.tran);
      hide Linked, NoRepeat, Holds, Pending;
      PushCount(contents, q);
      Link(buf, chain, q);
      dsize := dsize + |buf.data|;
    }

    /** Unlink and return the first buffer; `reduce` says whether its length leaves the count. */
    method Pop(reduce: bool) returns (buf: Buffer?)
      requires Valid()
      modifies this, bufs`next
      ensures Valid()
      ensures buf == null <==> old(contents) == []
      ensures buf == null ==> bufs == [] && contents == [] && dsize == old(dsize)
      ensures buf != null ==>
        && old(bufs) != [] && buf == old(bufs)[0] && bufs == old(bufs)[1..] && buf.next == null
        && contents == old(contents)[1..] && old(contents)[0] == Chunk(buf.data, buf.tran)
        && dsize == old(dsize) - (if reduce then |buf.data| else 0)
    {
      buf := head;
      if head == null {
        return;
      }
      ghost var rest := bufs[1..];
      assert buf == bufs[0] && contents != [] && contents[0] == Chunk(buf.data, buf.tran);
      assert NoRepeat(rest) && buf !in rest by { NoRepeatTail(bufs); }
      assert First(rest) == buf.next && Last(rest) == (if buf.next == null then null else tail) by {
        LinkedAt(bufs, 0);
        EndsOfTail(bufs);
      }
      assert Holds(rest, contents[1..]) by { HoldsTail(bufs, contents); }
      assert Linked(rest) by { LinkedTail(bufs); }
      hide NoRepeat, First, Last, Linked, Holds;
      head := head.next;
      if head == null { tail := null; }
      buf.next := null;
      if reduce { dsize := dsize - |buf.data|; }
      bufs := rest;
      contents := contents[1..];
    }

    /** Move the first buffer of another queue behind this one's. */
    method MoveOne(other: BufferQueue)
      requires this != other && other.contents != []
      requires Valid() && other.Valid()
      requires Apart(bufs, other.bufs)
      modifies this, bufs`next, other, other.bufs`next
      ensures Valid() && other.Valid()
      ensures bufs == old(bufs) + [old(other.bufs)[0]] && other.bufs == old(other.bufs)[1..]
      ensures contents == old(contents) + [old(other.contents)[0]] && other.contents == old(other.contents)[1..]
      ensures dsize == old(dsize) + |old(other.contents)[0].data|
      ensures other.dsize == old(other.dsize) - |old(other.contents)[0].data|
    {
      ApartIndices(bufs, other.bufs);
      var buf := other.Pop(true);
      assert forall k :: 0 <= k < |bufs| ==> LinkAt(bufs, k);
      assert Linked(bufs) && Holds(bufs, contents);
      SingleIsChain(buf);
      hide NoRepeat, Linked, Holds, Pending;
      Push(buf, [buf], [Chunk(buf.data, buf.tran)]);
    }

    /**
     Move all buffers of another queue behind this one's.  The counts move by whole lengths, so this count
     stays exact if and only if none of the buffers has been partly sent.
    */
    method PushQueue(other: BufferQueue)
      requires this != other
      requires Valid() && other.Valid()
      requires Apart(bufs, other.bufs)
      modifies this, bufs`next, other, other.bufs`next
      ensures Valid() && other.Valid()
      ensures bufs == old(bufs) + old(other.bufs) && other.bufs == []
      ensures contents == old(contents) + old(other.contents) && other.contents == []
      ensures dsize == old(dsize) + Lens(old(other.contents))
      ensures other.dsize == old(other.dsize) - Lens(old(other.contents))
      ensures old(Counted()) ==> (Counted() <==> Size(old(other.contents)) == Lens(old(other.contents)))
    {
      assert |other.bufs| == |other.contents| && Lens([]) == 0;
      ghost var mine, theirs, q, p := bufs, other.bufs, contents, other.contents;
      ghost var sum, left := dsize + Lens(p), other.dsize - Lens(p);
      PendingConcat(q, p);
      assert Size(q + p) == Size(q) + Size(p);
      SplitStart(mine, theirs);
      SplitStart(q, p);
      assert Moving(other, mine, theirs, q, p, sum, left);
      hide Moving, Pending, Size, Linked, Holds, NoRepeat, Apart, Lens, Last;
      while other.head != null
        invariant Moving(other, mine, theirs, q, p, sum, left)
        decreases |other.bufs|
      {
        MoveNext(other, mine, theirs, q, p, sum, left);
      }
      AllMoved(other, mine, theirs, q, p, sum, left);
    }

    /** What the loop keeps: the buffers have gone over from the front on, with the lengths of their data. */
    ghost predicate Moving(other: BufferQueue, mine: seq<Buffer>, theirs: seq<Buffer>, q: seq<Chunk>, p: seq<Chunk>,
        sum: int, left: int)
      reads this, bufs, other, other.bufs
    {
      && Valid() && other.Valid()
      && Split(bufs, other.bufs, mine, theirs) && Split(contents, other.contents, q, p)
      && dsize + Lens(other.contents) == sum && other.dsize - Lens(other.contents) == left
    }

    /** One turn of the loop. */
    method MoveNext(other: BufferQueue, ghost mine: seq<Buffer>, ghost theirs: seq<Buffer>,
        ghost q: seq<Chunk>, ghost p: seq<Chunk>, ghost sum: int, ghost left: int)
      requires this != other && other.head != null
      requires Moving(other, mine, theirs, q, p, sum, left) && Apart(mine, theirs) && NoRepeat(theirs)
      modifies this, other, mine`next, theirs`next
      ensures Moving(other, mine, theirs, q, p, sum, left) && |other.bufs| < old(|other.bufs|)
    {
      NextToMove(other, mine, theirs, q, p);
      hide Linked, Holds, NoRepeat, Apart, Lens, Last, First, Split;
      MoveOne(other);
    }

    lemma NextToMove(other: BufferQueue, mine: seq<Buffer>, theirs: seq<Buffer>, q: seq<Chunk>, p: seq<Chunk>)
      requires Valid() && other.Valid() && other.head != null && Apart(mine, theirs) && NoRepeat(theirs)
      requires Split(bufs, other.bufs, mine, theirs) && Split(contents, other.contents, q, p)
      ensures Apart(bufs, other.bufs)
      ensures forall b :: b in bufs || b in other.bufs ==> b in mine || b in theirs
      ensures other.bufs != [] && Split(bufs + [other.bufs[0]], other.bufs[1..], mine, theirs)
      ensures other.contents != [] && Split(contents + [other.contents[0]], other.contents[1..], q, p)
      ensures Lens(other.contents) == |other.contents[0].data| + Lens(other.contents[1..])
    {
      SplitApart(mine, theirs, bufs, other.bufs);
      SplitStep(bufs, other.bufs, mine, theirs);
      SplitStep(contents, other.contents, q, p);
    }

    lemma AllMoved(other: BufferQueue, mine: seq<Buffer>, theirs: seq<Buffer>, q: seq<Chunk>, p: seq<Chunk>,
        sum: int, left: int)
      requires Moving(other, mine, theirs, q, p, sum, left) && other.head == null
      ensures Valid() && other.Valid()
      ensures bufs == mine + theirs && other.bufs == [] && contents == q + p && other.contents == []
      ensures dsize == sum && other.dsize == left
    {
      SplitEnd(bufs, mine, theirs);
      SplitEnd(contents, q, p);
    }

    /** Drop every buffer: the walk along the list reaches each of them once, in order. */
    method Clear() returns (ghost reached: seq<Buffer>)
      requires Valid()
      modifies this
      ensures Valid() && Counted() && contents == [] && bufs == []
      ensures reached == old(bufs)
    {
      var cur := head;
      reached := [];
      while cur != null
        invariant |reached| <= |bufs| && reached == bufs[..|reached|]
        invariant cur == if |reached| < |bufs| then bufs[|reached|] else null
        modifies {}
        decreases |bufs| - |reached|
      {
        LinkedAt(bufs, |reached|);
        var next := cur.next;
        reached := reached + [cur];
        cur := next;
      }
      head, tail, dsize, bufs, contents := null, null, 0, [], [];
    }

    method IsLow() returns (low: bool)
      requires Counted()
      ensures low <==> Size(contents) <= LOW_MARK
    {
      low := dsize <= LOW_MARK;
    }

    method IsHigh() returns (high: bool)
      requires Counted()
      ensures high <==> Size(contents) >= HIGH_MARK
    {
      high := dsize >= HIGH_MARK;
    }

    /** Account for `m` sent bytes of the first buffer and drop it once it is used up. */
    method SendOne(m: nat)
      requires Valid() && Counted()
      requires contents != [] && 0 < m && contents[0].tran + m <= |contents[0].data|
      modifies this, bufs
      ensures Valid() && Counted()
      ensures contents == Advance(old(contents), m)
      ensures bufs == old(bufs) || bufs == old(bufs)[1..]
    {
      hide Pending;
      AdvancePending(contents, m);
      var buf := head;
      buf.tran := buf.tran + m;
      dsize := dsize - m;
      contents := contents[0 := Chunk(buf.data, buf.tran)];
      assert contents == [contents[0]] + old(contents)[1..];
      assert Holds(bufs, contents);
      hide Holds, NoRepeat, Linked;
      if buf.tran == |buf.data| {
        var gone := Pop(false);
      }
    }

    /**
     The send loop: the queue, the bytes that went out and the outcome are exactly those of the value-level
     drain, and the byte count stays exact through partial sends.
    */
    method SendLoop(script: seq<SendResult>) returns (sent: Bytes, outcome: Outcome)
      requires Valid() && Counted()
      modifies this, bufs
      ensures Valid() && Counted()
      ensures DrainResult(contents, sent, outcome) == Drain(old(contents), script)
      ensures forall b :: b in bufs ==> b in old(bufs)
    {
      hide Pending, Room, Advance, Linked, NoRepeat, Drain, Continues;
      sent, outcome := [], Drained;
      var i := 0;
      ghost var k, whole := 0, Drain(contents, script);
      ContinuesFirst(whole);
      while head != null
        invariant 0 <= i <= |script|
        invariant Valid() && Counted() && outcome == Drained
        invariant 0 <= k <= |old(bufs)| && bufs == old(bufs)[k..]
        invariant Continues(Drain(contents, script[i..]), sent, whole)
        decreases |script| - i
      {
        if i == |script| || script[i] == Again {
          outcome := Blocked;
          break;
        }
        var m := if script[i].Sent? then Room(Chunk(head.data, head.tran), script[i].n) else 0;
        if m == 0 {
          outcome := Broken;
          break;
        }
        DrainGoesOn(contents, script, i, m, sent, whole);
        sent := sent + head.data[head.tran..head.tran + m];
        assert forall j :: 0 <= j < |bufs| ==> bufs[j] in old(bufs);
        ghost var before := bufs;
        SendOne(m);
        if bufs != before { k := k + 1; }
        i := i + 1;
      }
      DrainStops(contents, script[i..], sent, whole);
    }
  }

  /** Having sent `sent`, the rest of the drain completes the whole. */
  ghost predicate Continues(rest: DrainResult, sent: Bytes, whole: DrainResult) {
    whole == DrainResult(rest.q, sent + rest.sent, rest.outcome)
  }

  lemma ContinuesFirst(whole: DrainResult)
    ensures Continues(whole, [], whole)
  {
    assert [] + whole.sent == whole.sent;
  }

  /** The states in which the drain ends. */
  lemma {:induction false} DrainStops(q: seq<Chunk>, script: seq<SendResult>, sent: Bytes, whole: DrainResult)
    requires Continues(Drain(q, script), sent, whole)
    ensures q == [] ==> whole == DrainResult(q, sent, Drained)
    ensures q != [] && (script == [] || script[0] == Again) ==> whole == DrainResult(q, sent, Blocked)
    ensures q != [] && script != [] && (script[0] == Fail || (script[0].Sent? && Room(q[0], script[0].n) == 0))
      ==> whole == DrainResult(q, sent, Broken)
  {
    assert sent + [] == sent;
  }

  /** One successful send of `m` bytes. */
  lemma {:induction false} DrainGoesOn(q: seq<Chunk>, script: seq<SendResult>,
      i: nat, m: nat, sent: Bytes, whole: DrainResult)
    requires q != [] && i < |script| && script[i].Sent? && m == Room(q[0], script[i].n) && m > 0
    requires Continues(Drain(q, script[i..]), sent, whole)
    ensures Continues(Drain(Advance(q, m), script[i + 1..]), sent + q[0].data[q[0].tran..q[0].tran + m], whole)
  {
    var piece, rest := q[0].data[q[0].tran..q[0].tran + m], Drain(Advance(q, m), script[i + 1..]);
    assert script[i..][1..] == script[i + 1..];
    assert Drain(q, script[i..]) == rest.(sent := piece + rest.sent);
    hide Drain, Advance, Room;
    Assoc(sent, piece, rest.sent);
  }
}
