/**
 Byte queues as values: what a connection's queue holds, and what its send loop does to it.
 Bytes are modelled as characters.
*/
module Chunks {
  type Bytes = seq<char>

  datatype Option<T> = None | Some(value: T)

  /** size_t and unsigned long are 64 bits wide. */
  const WORD := 0x1_0000_0000_0000_0000

  const CRLF := "\r\n"

  const LOW_MARK := 16 * 1024
  const HIGH_MARK := LOW_MARK * 4

  /** A buffer: its `dlen_` bytes, of which the first `tran` have been sent. */
  datatype Chunk = Chunk(data: Bytes, tran: nat)

  ghost predicate Started(c: Chunk) {
    c.tran < |c.data|
  }

  /** Every buffer still has something to send. */
  ghost predicate Open(q: seq<Chunk>) {
    forall i :: 0 <= i < |q| ==> Started(q[i])
  }

  /** The unsent bytes of a queue, in order. */
  function Pending(q: seq<Chunk>): Bytes {
    if q == [] then [] else (if q[0].tran <= |q[0].data| then q[0].data[q[0].tran..] else []) + Pending(q[1..])
  }

  /** The queue's `dsize_`: the number of unsent bytes. */
  function Size(q: seq<Chunk>): nat {
    |Pending(q)|
  }

  lemma {:induction false} PendingConcat(p: seq<Chunk>, q: seq<Chunk>)
    ensures Pending(p + q) == Pending(p) + Pending(q)
  {
    if p == [] {
      assert p + q == q;
    } else {
      assert (p + q)[0] == p[0] && (p + q)[1..] == p[1..] + q;
      PendingConcat(p[1..], q);
    }
  }

  /** What the socket answers to one send. */
  datatype SendResult = Sent(n: nat) | Again | Fail

  datatype Outcome = Drained | Blocked | Broken

  datatype DrainResult = DrainResult(q: seq<Chunk>, sent: Bytes, outcome: Outcome)

  /** One successful send of `m` bytes from the front buffer, which is dropped once it is used up. */
  function Advance(q: seq<Chunk>, m: nat): seq<Chunk>
    requires q != []
  {
    var c := q[0].(tran := q[0].tran + m);
    if c.tran == |c.data| then q[1..] else [c] + q[1..]
  }

  /** How many of `n` bytes the buffer can still supply. */
  function Room(c: Chunk, n: nat): (m: nat)
    ensures m <= n
    ensures m > 0 ==> c.tran + m <= |c.data|
  {
    if c.tran + n <= |c.data| then n else if c.tran <= |c.data| then |c.data| - c.tran else 0
  }

  /**
   The send loop: send from the front until the queue is empty, the socket is full, or it fails.
   A send of zero bytes counts as a closed connection.
  */
  function Drain(q: seq<Chunk>, script: seq<SendResult>): DrainResult
    decreases |script|
  {
    if q == [] then DrainResult(q, [], Drained)
    else if script == [] then DrainResult(q, [], Blocked)
    else match script[0]
      case Again => DrainResult(q, [], Blocked)
      case Fail => DrainResult(q, [], Broken)
      case Sent(n) =>
        var m := Room(q[0], n);
        if m == 0 then DrainResult(q, [], Broken)
        else
          var rest := Drain(Advance(q, m), script[1..]);
          rest.(sent := q[0].data[q[0].tran..q[0].tran + m] + rest.sent)
  }

  /** One send takes `n` bytes of the front buffer, or what is left of it; one that is used up goes. */
  predicate Sends(q: seq<Chunk>, r: SendResult, q': seq<Chunk>) {
    && q != [] && r.Sent? && r.n > 0 && q[0].tran < |q[0].data|
    && q' == if r.n < |q[0].data| - q[0].tran then [q[0].(tran := q[0].tran + r.n)] + q[1..] else q[1..]
  }

  /**
   The loop goes on as long as the queue has bytes and the socket takes some.  It stops with an empty queue, at a full
   socket, or at a send that fails or takes nothing; `qs` are the queues on the way.
  */
  lemma {:induction false} DrainSteps(q: seq<Chunk>, script: seq<SendResult>) returns (qs: seq<seq<Chunk>>)
    ensures 0 < |qs| <= |script| + 1 && qs[0] == q && qs[|qs| - 1] == Drain(q, script).q
    ensures forall i :: 0 <= i < |qs| - 1 ==> Sends(qs[i], script[i], qs[i + 1])
    ensures var k, d := |qs| - 1, Drain(q, script);
            && (d.outcome == Drained <==> d.q == [])
            && (d.outcome == Blocked <==> d.q != [] && (k == |script| || script[k] == Again))
            && (d.outcome == Broken <==>
              d.q != [] && k < |script| && script[k] != Again && !(exists q' :: Sends(d.q, script[k], q')))
    decreases |script|
  {
    qs := [q];
    if q != [] && script != [] && script[0].Sent? {
      var m := Room(q[0], script[0].n);
      if m > 0 {
        var rest := DrainSteps(Advance(q, m), script[1..]);
        qs := [q] + rest;
      } else {
        assert forall q' :: !Sends(q, script[0], q');
      }
    }
  }

  lemma Assoc(a: Bytes, b: Bytes, c: Bytes)
    ensures a + b + c == a + (b + c)
  {
  }

  function Concat(pieces: seq<Bytes>): Bytes {
    if pieces == [] then [] else pieces[0] + Concat(pieces[1..])
  }

  lemma {:induction false} ConcatParts(a: seq<Bytes>, b: seq<Bytes>)
    ensures Concat(a + b) == Concat(a) + Concat(b)
  {
    if a == [] {
      assert a + b == b;
    } else {
      assert (a + b)[0] == a[0] && (a + b)[1..] == a[1..] + b;
      ConcatParts(a[1..], b);
    }
  }

  /** Taking `k` more bytes of `s` after `n`. */
  lemma TakeMore(a: Bytes, s: Bytes, n: nat, k: nat)
    requires n + k <= |s|
    ensures s[..n] + s[n..][..k] == s[..n + k]
    ensures (a + s[..n]) + s[n..][..k] == a + s[..n + k]
  {
    assert s[..n] + s[n..][..k] == s[..n + k];
  }

  lemma PendingFirst(c: Chunk, rest: seq<Chunk>)
    requires c.tran <= |c.data|
    ensures Pending([c] + rest) == c.data[c.tran..] + Pending(rest)
  {
    assert ([c] + rest)[1..] == rest;
  }

  lemma {:induction false} AdvancePending(q: seq<Chunk>, m: nat)
    requires q != [] && q[0].tran + m <= |q[0].data|
    ensures Pending(q) == q[0].data[q[0].tran..q[0].tran + m] + Pending(Advance(q, m))
  {
    var d, t, rest := q[0].data, q[0].tran, q[1..];
    assert q == [q[0]] + rest;
    PendingFirst(q[0], rest);
    PendingFirst(Chunk(d, t + m), rest);
    hide Pending;
    Assoc(d[t..t + m], d[t + m..], Pending(rest));
    assert d[t..] == d[t..t + m] + d[t + m..];
    if t + m == |d| {
      assert d[t + m..] + Pending(rest) == Pending(rest);
    }
  }

  /**
   Whatever short writes, stalls and errors happen: the bytes sent followed by the bytes still queued are
   exactly the bytes that were queued, and the queue is reported drained only when nothing is left.
  */
  lemma {:induction false} DrainConserves(q: seq<Chunk>, script: seq<SendResult>)
    ensures var r := Drain(q, script);
            && r.sent + Pending(r.q) == Pending(q)
            && Size(r.q) == Size(q) - |r.sent|
            && (r.outcome == Drained <==> r.q == [])
    decreases |script|
  {
    if q != [] && script != [] && script[0].Sent? && Room(q[0], script[0].n) != 0 {
      var m := Room(q[0], script[0].n);
      AdvancePending(q, m);
      DrainConserves(Advance(q, m), script[1..]);
    }
  }

  lemma {:induction false} DrainOpen(q: seq<Chunk>, script: seq<SendResult>)
    requires Open(q)
    ensures Open(Drain(q, script).q)
    decreases |script|
  {
    if q != [] && script != [] && script[0].Sent? && Room(q[0], script[0].n) != 0 {
      DrainOpen(Advance(q, Room(q[0], script[0].n)), script[1..]);
    }
  }

  /** The number of bytes a read returns that would return `n` but was asked for `asked` when `there` are there. */
  function Granted(n: nat, asked: nat, there: nat): (r: nat)
    ensures r <= asked && r <= there
    ensures r == 0 <==> asked == 0 || there == 0
  {
    var most := if asked <= there then asked else there;
    if n == 0 && most > 0 then 1 else if n <= most then n else most
  }
}
