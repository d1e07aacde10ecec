/** read_header of core/http.cpp: the head of a request, byte by byte, into a buffer that doubles. */
module HeadReader {
  import opened Chunks

  const HTTP_INIT_HEADER_SIZE := 1024

  /** What one recv of one byte answers. */
  datatype Answer = Got | WouldBlock | Closed | Failed

  datatype Status = Reading | HeadDone | HeadError | ConnClosed | ConnError

  predicate EndsHead(s: Bytes) {
    |s| >= 4 && s[|s| - 4..] == CRLF + CRLF
  }

  /** No blank line ends within the first `n` bytes. */
  predicate NoneWithin(s: Bytes, n: nat)
    requires n <= |s|
  {
    forall k :: 0 <= k <= n ==> !EndsHead(s[..k])
  }

  /** `s` is a whole head: its first blank line is its end. */
  predicate IsHead(s: Bytes) {
    EndsHead(s) && NoneWithin(s, |s| - 1)
  }

  /** A stream starts with at most one head. */
  lemma HeadIsUnique(s: Bytes, m: nat, n: nat)
    requires m <= |s| && n <= |s| && IsHead(s[..m]) && IsHead(s[..n])
    ensures m == n
  {
    if m <= n { assert s[..n][..m] == s[..m]; }
    if n <= m { assert s[..m][..n] == s[..n]; }
  }

  lemma EndsHeadAt(s: Bytes)
    ensures EndsHead(s) <==>
              |s| >= 4 && s[|s| - 4] == '\r' && s[|s| - 3] == '\n' && s[|s| - 2] == '\r' && s[|s| - 1] == '\n'
  {
    if |s| >= 4 {
      var t := s[|s| - 4..];
      assert CRLF + CRLF == ['\r', '\n', '\r', '\n'];
      assert t == CRLF + CRLF <==> t[0] == '\r' && t[1] == '\n' && t[2] == '\r' && t[3] == '\n';
    }
  }

  lemma NoneInMore(s: Bytes, c: char)
    requires NoneWithin(s, |s|)
    ensures NoneWithin(s + [c], |s|)
    ensures !EndsHead(s + [c]) ==> NoneWithin(s + [c], |s| + 1)
  {
    assert forall k :: 0 <= k <= |s| ==> (s + [c])[..k] == s[..k];
    assert (s + [c])[..|s| + 1] == s + [c];
  }

  class HeadReader {
    var buf: array<char>
    var dlen: nat
    /** http_max_header_size */
    const max: nat

    /** Still looking for the end: there is room, and the limit has not been reached. */
    ghost predicate Valid()
      reads this, buf
    {
      dlen < buf.Length && (dlen < max || dlen == 0) && NoneWithin(buf[..dlen], dlen)
    }

    constructor (max: nat)
      ensures Valid() && dlen == 0 && this.max == max && fresh(buf)
    {
      this.max := max;
      buf := new char[HTTP_INIT_HEADER_SIZE];
      dlen := 0;
    }

    /** The buffer is full and the limit not reached: copy it into one of twice the size. */
    method Double()
      requires dlen == buf.Length
      modifies this`buf
      ensures fresh(buf) && buf.Length == 2 * dlen && buf[..dlen] == old(buf[..dlen])
    {
      var tmp := new char[2 * dlen];
      forall i | 0 <= i < dlen {
        tmp[i] := buf[i];
      }
      buf := tmp;
    }

    /** One byte of the head. */
    method ReadByte(c: char) returns (status: Status)
      requires Valid()
      modifies this, buf
      ensures dlen == old(dlen) + 1 <= buf.Length && buf[..dlen] == old(buf[..dlen]) + [c] && fresh({buf} - {old(buf)})
      ensures status == HeadDone <==> EndsHead(buf[..dlen])
      ensures status == HeadError <==> !EndsHead(buf[..dlen]) && dlen >= max
      ensures status == Reading || status == HeadDone || status == HeadError
      ensures status == Reading ==> Valid()
      ensures NoneWithin(buf[..dlen], dlen - 1)
    {
      ghost var s := buf[..dlen] + [c];
      NoneInMore(buf[..dlen], c);
      EndsHeadAt(s);
      hide EndsHead, NoneWithin;
      buf[dlen] := c;
      dlen := dlen + 1;
      assert buf[..dlen] == s;
      assert forall i :: 0 <= i < dlen ==> buf[i] == s[i];
      if dlen >= 4 && buf[dlen - 4] == '\r' && buf[dlen - 3] == '\n' && buf[dlen - 2] == '\r' && buf[dlen - 1] == '\n' {
        status := HeadDone;
      } else if dlen < max && dlen == buf.Length {
        Double();
        status := Reading;
      } else if dlen >= max {
        status := HeadError;
      } else {
        status := Reading;
      }
    }

    /**
     The loop of read_request while the head lasts: it ends exactly behind the first blank line, or with an
     error once the limit is reached without one; the buffer never overflows.
    */
    method ReadHead(input: Bytes, answers: seq<Answer>) returns (status: Status, n: nat)
      requires Valid()
      modifies this, buf
      ensures n <= |input| && dlen <= buf.Length && buf[..dlen] == old(buf[..dlen]) + input[..n]
      ensures status == HeadDone ==> IsHead(buf[..dlen]) && dlen <= max
      ensures status == HeadError ==> NoneWithin(buf[..dlen], dlen) && (dlen == max || (max == 0 && dlen == 1))
      ensures status != HeadDone && status != HeadError ==> Valid()
      ensures status == ConnClosed ==> n < |answers| && n < |input| && answers[n] == Closed
      ensures status == ConnError ==> n < |answers| && n < |input| && answers[n] == Failed
      ensures status == Reading ==> n >= |answers| || n == |input| || answers[n] == WouldBlock
      ensures (forall i :: 0 <= i < |answers| ==> answers[i] == Got) && |answers| >= |input| ==>
                status == HeadDone || status == HeadError || n == |input|
    {
      status, n := Reading, 0;
      var i := 0;
      hide EndsHead, NoneWithin;
      while i < |answers| && n < |input|
        invariant Valid() && n <= |input| && status == Reading && fresh({buf} - {old(buf)})
        invariant buf[..dlen] == old(buf[..dlen]) + input[..n]
        invariant i == n
        decreases |answers| - i
      {
        if answers[i] != Got {
          status := if answers[i] == Closed then ConnClosed else if answers[i] == Failed then ConnError else Reading;
          break;
        }
        assert input[..n + 1] == input[..n] + [input[n]];
        Assoc(old(buf[..dlen]), input[..n], [input[n]]);
        status := ReadByte(input[n]);
        n := n + 1;
        if status != Reading {
          break;
        }
        i := i + 1;
      }
    }
  }
}
