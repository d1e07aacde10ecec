/**
 The messages a worker takes out of its pipe, core/worker.cpp: one type byte, then a packed structure whose
 size depends on the type, read in whatever pieces the pipe gives.
*/
module PipeDecoder {
  import opened Chunks

  const EXIT_WORKER: char := 0 as char
  const ADD_SOCK: char := 1 as char
  const MATCH_SOCK: char := 2 as char

  /** sizeof pipe_msg_add_conn: sock, ip[INET6_ADDRSTRLEN], port, ssl */
  const ADD_SIZE := 4 + 46 + 2 + 1
  /** sizeof pipe_msg_match_conn: src_conn, dst_sock, flag */
  const MATCH_SIZE := 8 + 4 + 1
  const PIPE_MSG_MAX_SIZE := ADD_SIZE

  datatype Message =
    | Exit
    | AddConn(add: Bytes)
    | MatchConn(match_: Bytes)

  datatype State = Prepare | Adding | Matching

  // ---------------------------------------------------------------- what the bytes mean

  predicate IsMessage(m: Message) {
    match m
    case Exit => true
    case AddConn(payload) => |payload| == ADD_SIZE
    case MatchConn(payload) => |payload| == MATCH_SIZE
  }

  /** What the notify functions write for one message. */
  function Encode(m: Message): Bytes {
    match m
    case Exit => [EXIT_WORKER]
    case AddConn(payload) => [ADD_SOCK] + payload
    case MatchConn(payload) => [MATCH_SOCK] + payload
  }

  function EncodeAll(ms: seq<Message>): Bytes {
    if ms == [] then [] else Encode(ms[0]) + EncodeAll(ms[1..])
  }

  /** The messages up to and including the first exit. */
  function UpToExit(ms: seq<Message>): seq<Message> {
    if ms == [] || ms[0].Exit? then ms[..if ms == [] then 0 else 1] else [ms[0]] + UpToExit(ms[1..])
  }

  /** The length of the message that starts with type byte `c`. */
  function Span(c: char): nat {
    if c == ADD_SOCK then 1 + ADD_SIZE else if c == MATCH_SOCK then 1 + MATCH_SIZE else 1
  }

  function One(s: Bytes): Message
    requires s != [] && |s| == Span(s[0])
  {
    if s[0] == ADD_SOCK then AddConn(s[1..]) else if s[0] == MATCH_SOCK then MatchConn(s[1..]) else Exit
  }

  /** The complete messages at the start of `s`, up to an exit. */
  function Decode(s: Bytes): seq<Message> {
    if s == [] || |s| < Span(s[0]) then []
    else if s[0] == EXIT_WORKER then [Exit]
    else [One(s[..Span(s[0])])] + Decode(s[Span(s[0])..])
  }

  /** What follows them: an incomplete message. */
  function Tail(s: Bytes): Bytes {
    if s == [] || |s| < Span(s[0]) then s
    else if s[0] == EXIT_WORKER then s[1..]
    else Tail(s[Span(s[0])..])
  }

  predicate Exited(s: Bytes) {
    if s == [] || |s| < Span(s[0]) then false
    else if s[0] == EXIT_WORKER then true
    else Exited(s[Span(s[0])..])
  }

  /** Every type byte up to an exit is one of the three. */
  predicate Clean(s: Bytes) {
    if s == [] then true
    else
      && (s[0] == EXIT_WORKER || s[0] == ADD_SOCK || s[0] == MATCH_SOCK)
      && (s[0] == EXIT_WORKER || |s| < Span(s[0]) || Clean(s[Span(s[0])..]))
  }

  /** Decoding goes on from the incomplete message. */
  lemma {:induction false} DecodeMore(s: Bytes, t: Bytes)
    requires !Exited(s)
    ensures Decode(s + t) == Decode(s) + Decode(Tail(s) + t)
    ensures Tail(s + t) == Tail(Tail(s) + t)
    ensures Exited(s + t) <==> Exited(Tail(s) + t)
    ensures Clean(s + t) <==> Clean(s) && Clean(Tail(s) + t)
    decreases |s|
  {
    if s == [] {
      assert s + t == t;
    } else if |s| >= Span(s[0]) {
      var n := Span(s[0]);
      assert (s + t)[0] == s[0] && (s + t)[n..] == s[n..] + t && (s + t)[..n] == s[..n];
      DecodeMore(s[n..], t);
    }
  }

  /** A message that has just become complete, or is still incomplete. */
  lemma DecodeOne(s: Bytes)
    requires s != [] && |s| <= Span(s[0]) && Clean(s)
    ensures Decode(s) == if |s| < Span(s[0]) then [] else [One(s)]
    ensures Tail(s) == if |s| < Span(s[0]) then s else []
    ensures Exited(s) <==> s[0] == EXIT_WORKER
    ensures s[0] == EXIT_WORKER || s[0] == ADD_SOCK || s[0] == MATCH_SOCK
  {
    assert |s| == Span(s[0]) ==> s[Span(s[0])..] == [] && s[..Span(s[0])] == s;
  }

  /** For every sequence of messages: decoding what was written gives them back, up to the first exit. */
  lemma {:induction false} DecodeEncode(ms: seq<Message>)
    requires forall i :: 0 <= i < |ms| ==> IsMessage(ms[i])
    ensures Decode(EncodeAll(ms)) == UpToExit(ms) && Clean(EncodeAll(ms))
    ensures !Exited(EncodeAll(ms)) ==> Tail(EncodeAll(ms)) == [] && UpToExit(ms) == ms
  {
    if ms != [] {
      var all, m := EncodeAll(ms), Encode(ms[0]);
      assert all[..|m|] == m && all[|m|..] == EncodeAll(ms[1..]) && |m| == Span(all[0]);
      DecodeEncode(ms[1..]);
    }
  }

  /** A prefix of the bytes holds a prefix of the messages. */
  lemma DecodePrefix(s: Bytes, t: Bytes)
    ensures Decode(s) <= Decode(s + t)
  {
    if Exited(s) { ExitEnds(s, t); } else { DecodeMore(s, t); }
  }

  lemma {:induction false} ExitEnds(s: Bytes, t: Bytes)
    requires Exited(s)
    ensures Exited(s + t) && Decode(s + t) == Decode(s)
    decreases |s|
  {
    var n := Span(s[0]);
    assert (s + t)[0] == s[0] && (s + t)[n..] == s[n..] + t && (s + t)[..n] == s[..n];
    if s[0] != EXIT_WORKER { ExitEnds(s[n..], t); }
  }

  /**
   Whatever part of the written bytes has been consumed, the messages handled are the first of those written;
   they are all of them, up to the first exit, once everything is consumed or an exit has been seen.
  */
  lemma HandledInOrder(ms: seq<Message>, consumed: Bytes)
    requires forall i :: 0 <= i < |ms| ==> IsMessage(ms[i])
    requires consumed <= EncodeAll(ms)
    ensures Decode(consumed) <= UpToExit(ms)
    ensures consumed == EncodeAll(ms) || Exited(consumed) ==> Decode(consumed) == UpToExit(ms)
  {
    var rest := EncodeAll(ms)[|consumed|..];
    assert EncodeAll(ms) == consumed + rest;
    DecodeEncode(ms);
    DecodePrefix(consumed, rest);
    if Exited(consumed) { ExitEnds(consumed, rest); }
  }

  /** Nothing is handled after an exit. */
  lemma {:induction false} ExitIsLast(s: Bytes, i: nat)
    requires Clean(s) && i < |Decode(s)| && Decode(s)[i] == Exit
    ensures i == |Decode(s)| - 1 && Exited(s)
    decreases |s|
  {
    if s[0] != EXIT_WORKER {
      assert One(s[..Span(s[0])]) != Exit;
      ExitIsLast(s[Span(s[0])..], i - 1);
    }
  }

  // ---------------------------------------------------------------- the worker's reader

  /** What one read of the pipe returns: at most `n` bytes, or an error or nothing. */
  datatype Read = Got(n: nat) | NoData | Failure

  class Reader {
    const buf: array<char>
    var tran: nat
    var size: nat
    var state: State
    /** All bytes read and all messages handled so far. */
    ghost var consumed: Bytes
    ghost var handled: seq<Message>

    ghost predicate Valid()
      reads this, buf
    {
      && buf.Length == PIPE_MSG_MAX_SIZE
      && handled == Decode(consumed) && Clean(consumed)
      && (Exited(consumed) <==> state == Prepare && tran == 1)
      && match state
         case Prepare => size == 1 && tran <= 1 && Tail(consumed) == []
         case Adding => size == ADD_SIZE && tran < size && Tail(consumed) == [ADD_SOCK] + buf[..tran]
         case Matching => size == MATCH_SIZE && tran < size && Tail(consumed) == [MATCH_SOCK] + buf[..tran]
    }

    constructor ()
      ensures Valid() && consumed == [] && fresh(buf)
    {
      buf := new char[PIPE_MSG_MAX_SIZE];
      tran, size, state := 0, 1, Prepare;
      consumed, handled := [], [];
    }

    /** The message under construction once `more` has arrived. */
    ghost predicate Received(more: Bytes)
      reads this, buf
    {
      && buf.Length == PIPE_MSG_MAX_SIZE && more != [] && !Exited(consumed)
      && handled == Decode(consumed) && Clean(consumed) && Clean(consumed + more)
      && match state
         case Prepare => size == 1 == tran && Tail(consumed) == [] && buf[..1] == more
         case Adding => size == ADD_SIZE && tran <= size && Tail(consumed) + more == [ADD_SOCK] + buf[..tran]
         case Matching => size == MATCH_SIZE && tran <= size && Tail(consumed) + more == [MATCH_SOCK] + buf[..tran]
    }

    /** state_machine: act on what is in the buffer; the last read brought `more`. */
    method StateMachine(ghost more: Bytes) returns (done: seq<Message>)
      requires Received(more)
      modifies this
      ensures Valid() && consumed == old(consumed) + more && handled == old(handled) + done
    {
      done := [];
      DecodeMore(consumed, more);
      ghost var message := Tail(consumed) + more;
      DecodeOne(message);
      hide Decode, Tail, Exited, Clean;
      match state {
        case Prepare =>
          assert message == [buf[0]];
          if buf[0] == ADD_SOCK {
            tran, size, state := 0, ADD_SIZE, Adding;
          } else if buf[0] == MATCH_SOCK {
            tran, size, state := 0, MATCH_SIZE, Matching;
          } else {
            done := [Exit];
          }
        case Adding =>
          if tran == size {
            done := [AddConn(buf[..ADD_SIZE])];
            tran, size, state := 0, 1, Prepare;
          }
        case Matching =>
          if tran == size {
            done := [MatchConn(buf[..MATCH_SIZE])];
            tran, size, state := 0, 1, Prepare;
          }
      }
      consumed, handled := consumed + more, handled + done;
    }

    /** read: `k` bytes of the pipe go behind what the buffer holds. */
    method Fill(pipe: Bytes, k: nat)
      requires Valid() && 0 < k <= size - tran && k <= |pipe| && Clean(consumed + pipe)
      modifies this`tran, buf
      ensures Received(pipe[..k])
    {
      ghost var before := buf[..tran];
      Regroup(consumed, pipe, k);
      CleanPrefix(consumed + pipe[..k], pipe[k..]);
      hide Decode, Tail, Exited, Clean;
      for i := 0 to k
        invariant tran == old(tran) && buf[..tran] == before && buf[tran..tran + i] == pipe[..i]
      {
        buf[tran + i] := pipe[i];
      }
      assert buf[..tran + k] == before + pipe[..k];
      Assoc([ADD_SOCK], before, pipe[..k]);
      Assoc([MATCH_SOCK], before, pipe[..k]);
      tran := tran + k;
      ghost var more := pipe[..k];
      assert more != [] && buf[..tran] == before + more;
      assert state == Prepare ==> before == [] && buf[..1] == more;
    }

    /** The reader asks for no more bytes exactly when it has seen an exit. */
    lemma Full()
      requires Valid()
      ensures tran <= size && (tran == size <==> Exited(consumed)) && handled == Decode(consumed)
    {
      hide Decode, Tail, Exited, Clean;
    }

    /** One read that brings `k` bytes, and what follows from it. */
    method Take(pipe: Bytes, k: nat) returns (now: seq<Message>)
      requires Valid() && 0 < k <= size - tran && k <= |pipe| && Clean(consumed + pipe)
      modifies this, buf
      ensures Valid() && consumed + pipe[k..] == old(consumed) + pipe
      ensures tran <= size && (tran == size <==> Exited(consumed))
      ensures handled == old(handled) + now == Decode(consumed)
    {
      Regroup(consumed, pipe, k);
      hide Decode, Tail, Exited, Clean, Received, Valid;
      Fill(pipe, k);
      now := StateMachine(pipe[..k]);
      Full();
    }

    /**
     handle_notify: read until the pipe has no more.  However the reads cut the bytes, the messages handled are
     exactly those of the bytes consumed; after an exit no byte is consumed any more.
    */
    method HandleNotify(pipe: Bytes, answers: seq<Read>) returns (rest: Bytes, done: seq<Message>, used: nat)
      requires Valid() && Clean(consumed + pipe)
      modifies this, buf
      ensures Valid()
      ensures consumed + rest == old(consumed) + pipe && |rest| <= |pipe|
      ensures handled == old(handled) + done == Decode(consumed)
      ensures old(Exited(consumed)) ==> rest == pipe && done == []
      ensures (forall i :: 0 <= i < |answers| ==> answers[i].Got?) && |answers| >= |pipe| ==>
        rest == [] || Exited(consumed)
      ensures used <= |answers| && |rest| <= |pipe| - used && forall i :: 0 <= i < used ==> answers[i].Got?
      ensures used < |answers| ==> !answers[used].Got? || rest == [] || Exited(consumed)
    {
      Full();
      hide Decode, Tail, Exited, Clean, Received, Valid, Granted;
      rest, done, used := pipe, [], 0;
      ghost var whole, before, exited := consumed + pipe, handled, Exited(consumed);
      while used < |answers|
        invariant Valid() && used <= |answers| && |rest| <= |pipe| - used && consumed + rest == whole
        invariant tran <= size && (tran == size <==> Exited(consumed))
        invariant handled == before + done == Decode(consumed)
        invariant exited ==> rest == pipe && done == [] && Exited(consumed)
        invariant forall j :: 0 <= j < used ==> answers[j].Got?
      {
        var k := if answers[used].Got? then Granted(answers[used].n, size - tran, |rest|) else 0;
        if k == 0 {
          break;
        }
        var now := Take(rest, k);
        Grouped(before, done, now);
        done := done + now;
        rest := rest[k..];
        used := used + 1;
      }
    }
  }

  lemma Grouped(a: seq<Message>, b: seq<Message>, c: seq<Message>)
    ensures (a + b) + c == a + (b + c)
  {
  }

  lemma Regroup(a: Bytes, s: Bytes, k: nat)
    requires k <= |s|
    ensures (a + s[..k]) + s[k..] == a + s
  {
    assert s == s[..k] + s[k..];
  }

  lemma CleanPrefix(s: Bytes, t: Bytes)
    requires Clean(s + t)
    ensures Clean(s)
  {
    if !Exited(s) { DecodeMore(s, t); } else { CleanExit(s, t); }
  }

  lemma {:induction false} CleanExit(s: Bytes, t: Bytes)
    requires Exited(s) && Clean(s + t)
    ensures Clean(s)
    decreases |s|
  {
    var n := Span(s[0]);
    assert (s + t)[0] == s[0] && (s + t)[n..] == s[n..] + t;
    if s[0] != EXIT_WORKER { CleanExit(s[n..], t); }
  }
}
