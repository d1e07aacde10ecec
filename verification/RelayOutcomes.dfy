/** What single operations of the pairing and relay protocol come to, seen from outside. */
module RelayOutcomes {
  import opened Chunks
  import opened Relay
  import opened RelayInvariant

  /** The send loop of a connection that is to be closed and has no peer: it lives exactly while the socket is full. */
  lemma SendClosing(st: State, o: Id, script: seq<SendResult>, reason: Reason)
    requires o in st.conns && st.conns[o].io.closing && st.conns[o].other == None
    ensures var c, r := st.conns[o], SendImpl(st, o, script, reason);
            && (r.Done? <==> Drain(c.outQ, script).outcome == Blocked)
            && r.st == Upd(st, o, r.st.conns[o])
            && (r.Done? ==> StillSending(c, r.st.conns[o]))
  {
    var c := st.conns[o];
    var d := Drain(c.outQ, script);
    if d.outcome == Blocked { SentStill(c, script); }
    assert SendImpl(st, o, script, reason) ==
           if d.outcome == Blocked then Done(Upd(st, o, SentOut(c, d))) else IoError(Upd(st, o, SentOut(c, d)), reason);
    hide SendImpl, SentOut, Drain, StillSending;
  }

  lemma SentStill(c: Conn, script: seq<SendResult>)
    requires c.io.closing && c.other == None && Drain(c.outQ, script).outcome == Blocked
    ensures StillSending(c, SentOut(c, Drain(c.outQ, script)))
  {
    DrainConserves(c.outQ, script);
    BlockedHasMore(c.outQ, script);
    hide Pending, Drain;
    var d := Drain(c.outQ, script);
    Assoc(c.log.sent, d.sent, Pending(d.q));
  }

  /** `c'` has sent some of what `c` had to send, has still something to send, and will be closed after that. */
  ghost predicate StillSending(c: Conn, c': Conn) {
    && c'.io.closing && c'.other == None && c'.outQ != []
    && c'.log.sent + Pending(c'.outQ) == c.log.sent + Pending(c.outQ)
  }

  lemma {:induction false} BlockedHasMore(q: seq<Chunk>, script: seq<SendResult>)
    requires Drain(q, script).outcome == Blocked
    ensures Drain(q, script).q != []
    decreases |script|
  {
    if q != [] && script != [] && script[0].Sent? {
      BlockedHasMore(Advance(q, Room(q[0], script[0].n)), script[1..]);
    }
  }

  /**
   A connection whose reading ends is deleted.  Its peer is deleted with it if a client broke off inside a
   body; otherwise it stays exactly while it has something to send and its socket takes no more, without peer
   and marked for closing, and loses none of what it has to send.
  */
  lemma ReadEnds(st: State, i: Id, env: Env)
    requires Inv(st) && i in st.conns && Safe(st, i) && st.conns[i].other.Some?
    ensures var c, o, st' := st.conns[i], st.conns[i].other.value, Close(st, i, SelfRead, env);
            && i !in st'.conns
            && (o in st'.conns <==>
                  !(c.kind == Client && c.io.inBody) && Drain(st.conns[o].outQ, env.script).outcome == Blocked)
            && (o in st'.conns ==> StillSending(st.conns[o], st'.conns[o]))
            && (forall j :: j in st.conns && j != i && j != o ==> j in st'.conns && st'.conns[j] == st.conns[j])
  {
    PeerBack(st, i);
    if !(st.conns[i].kind == Client && st.conns[i].io.inBody) { PeerLeft(st, i, env); }
    hide Inv, StillSending, Drain;
  }

  lemma PeerLeft(st: State, i: Id, env: Env)
    requires Safe(st, i) && st.conns[i].other.Some? && !(st.conns[i].kind == Client && st.conns[i].io.inBody)
    ensures var o, st' := st.conns[i].other.value, Close(st, i, SelfRead, env);
            if Drain(st.conns[o].outQ, env.script).outcome != Blocked
            then st'.conns == (st.conns - {o}) - {i}
            else && o in st'.conns && st'.conns == st.conns[o := st'.conns[o]] - {i}
                 && StillSending(st.conns[o], st'.conns[o])
  {
    var o := st.conns[i].other.value;
    var oc := Closing(Unlink(st.conns[o]));
    var st1 := Upd(st, o, oc);
    assert oc.outQ == st.conns[o].outQ && oc.log.sent == st.conns[o].log.sent && oc.io.closing && oc.other == None;
    hide Unlink, Closing;
    SendClosing(st1, o, env.script, SelfWrite);
    var r := Send(st1, o, env, SelfWrite);
    assert r == SendImpl(st1, o, env.script, SelfWrite);
    assert StillSending(oc, r.st.conns[o]) == StillSending(st.conns[o], r.st.conns[o]);
    hide SendImpl, Send, StillSending, Drain;
    assert Close(st, i, SelfRead, env) == Del(if r.Done? then r.st else Del(r.st, o), i);
    hide Close;
    MapDrop(st.conns, o, r.st.conns[o], {o});
  }

  /**
   Later, that connection is deleted by the event in which its queue empties or its socket fails, and by no
   other write.
  */
  lemma ClosesOnceSent(st: State, o: Id, env: Env)
    requires o in st.conns && st.conns[o].io.closing && st.conns[o].other == None
    ensures var st' := Catch(Send(st, o, env, SelfWrite), o, env);
            && (o in st'.conns <==> Drain(st.conns[o].outQ, env.script).outcome == Blocked)
            && (o in st'.conns ==> StillSending(st.conns[o], st'.conns[o]))
            && st'.conns - {o} == st.conns - {o}
  {
    SendClosing(st, o, env.script, SelfWrite);
    hide SendImpl, StillSending;
  }

  /**
   A write takes connections down exactly if it fails or empties the queue of one that is to be closed.  Then
   both ends go and nothing else, whichever end the event came to: `at` is `i` itself or its peer.
  */
  lemma WriteFails(st: State, i: Id, at: Id, env: Env)
    requires Inv(st) && i in st.conns && at in Pair(st, i)
    ensures Safe(st, i) && Safe(st, at)
    ensures var d := Drain(st.conns[i].outQ, env.script);
            var st' := Catch(Send(st, i, env, if at == i then SelfWrite else OtherWrite), at, env);
            if d.outcome == Broken || (d.outcome == Drained && st.conns[i].io.closing)
            then st'.conns == st.conns - Pair(st, i) && st'.mail == st.mail
            else st'.conns.Keys == st.conns.Keys
  {
    InvPaired(st, i);
    if st.conns[i].other.Some? { PeerBack(st, i); }
    var reason := if at == i then SelfWrite else OtherWrite;
    var r := Send(st, i, env, reason);
    SendEnds(st, i, env, reason);
    if r.IoError? { BothDropped(st, r.st, i, at, reason, env); }
    hide Send, Drain, Inv, Close, Pair;
  }

  lemma SendEnds(st: State, i: Id, env: Env, reason: Reason)
    requires Safe(st, i)
    ensures var d, r := Drain(st.conns[i].outQ, env.script), Send(st, i, env, reason);
            && (r.IoError? <==> d.outcome == Broken || (d.outcome == Drained && st.conns[i].io.closing))
            && (r.IoError? ==>
                  r.reason == reason && r.st == Upd(st, i, r.st.conns[i]) && r.st.conns[i].other == st.conns[i].other)
            && r.st.conns.Keys == st.conns.Keys
  {
    var d, r := Drain(st.conns[i].outQ, env.script), SendImpl(st, i, env.script, reason);
    assert r.IoError? <==> d.outcome == Broken || (d.outcome == Drained && st.conns[i].io.closing);
    hide SendImpl, Drain, Size, EnableRead, Disconnected, Loud;
  }

  /** Idleness closes everything but a matched client; a matched client it leaves without its server. */
  lemma IdleCloses(st: State, i: Id, env: Env)
    requires Inv(st) && i in st.conns && Safe(st, i)
    ensures var c, st' := st.conns[i], Close(st, i, IdleTimeout, env);
            && (i in st'.conns <==> c.kind == Client && c.other.Some?)
            && (i in st'.conns ==> st' == st)
            && (c.other.Some? && i !in st'.conns ==>
                  var o := c.other.value; o in st'.conns && st'.conns[o].kind == Client && st'.conns[o].other == None)
  {
    if st.conns[i].other.Some? {
      var o := st.conns[i].other.value;
      PeerBack(st, i);
      assert NodeOk(st, i);
      assert st.conns[i].kind == Client || st.conns[o].kind == Client;
    }
    hide Inv, NodeOk, PairOk;
  }

  /**
   A connection that survives an error has the page last in its queue and will be closed.  Its read event is
   gone, registered or activated; only an activation that came when it had none any more is still there.
  */
  lemma ErrorPageQueued(st: State, i: Id, env: Env)
    requires Safe(st, i)
    ensures var st' := SendError(st, i, env);
            i in st'.conns ==>
              var c, c' := st.conns[i], st'.conns[i];
              && c'.io.attached && c'.io.closing && !c'.io.reading
              && (c'.io.wake <==> c.io.wake && !c.io.reading) && c'.io.enableRd == c.io.enableRd
              && c'.log.pushed == c.log.pushed + env.error
              && c'.outQ != []
  {
    if st.conns[i].io.attached || env.eventOk {
      var st1 := Paged(st, i, env.error);
      var c := st1.conns[i];
      if Drain(c.outQ, env.script).outcome == Blocked { BlockedHasMore(c.outQ, env.script); }
      SendOrClose(st1, i, env);
      hide Send, Drain;
    }
  }

  /** Sending on a connection marked for closing leaves it alive only while its socket takes no more. */
  lemma SendOrClose(st: State, i: Id, env: Env)
    requires Safe(st, i) && st.conns[i].io.closing
    ensures var c, r := st.conns[i], Send(st, i, env, SelfWrite);
            && (r.Done? <==> Drain(c.outQ, env.script).outcome == Blocked)
            && r.st.conns[i].io == c.io
            && r.st.conns[i].log.pushed == c.log.pushed
            && (r.Done? ==> r.st.conns[i].outQ == Drain(c.outQ, env.script).q)
  {
    var c := st.conns[i];
    SentFields(c, Drain(c.outQ, env.script));
    SendReaches(st, i, env);
    hide Send, SentOut, Loud, Drain;
  }

  lemma SentFields(c: Conn, d: DrainResult)
    requires c.io.closing
    ensures var c' := SentOut(c, d); c'.io == c.io && c'.log.pushed == c.log.pushed && c'.outQ == d.q
    ensures var c' := Loud(SentOut(c, d)); c'.io == c.io && c'.log.pushed == c.log.pushed && c'.outQ == d.q
  {
  }

  lemma SendReaches(st: State, i: Id, env: Env)
    requires Safe(st, i) && st.conns[i].io.closing
    ensures var c, r := SentOut(st.conns[i], Drain(st.conns[i].outQ, env.script)), Send(st, i, env, SelfWrite);
            && (r.Done? <==> Drain(st.conns[i].outQ, env.script).outcome == Blocked)
            && (r.st.conns[i] == c || r.st.conns[i] == Loud(c))
  {
    var c, d := st.conns[i], Drain(st.conns[i].outQ, env.script);
    assert SendImpl(st, i, env.script, SelfWrite) ==
           if d.outcome == Blocked then Done(Upd(st, i, SentOut(c, d)))
           else IoError(Upd(st, i, SentOut(c, d)), SelfWrite);
    hide SendImpl, Drain, SentOut, Loud, EnableRead, Disconnected, Size;
  }

  /**
   A client's request for a device it has no server for: its old server is gone and the request is queued
   behind those before it.  The timer is pending exactly if it could be added, its flag is set exactly if the
   device has been asked as well, and only then is there no error.
  */
  lemma AsksForServer(st: State, i: Id, head: Bytes, dev: string, env: Env)
    requires Inv(st) && i in st.conns && Paired(st, i) && st.conns[i].kind == Client && st.conns[i].io.reading
    requires st.conns[i].other.Some? ==> !Same(st.conns[i].devId, dev)
    ensures var c, r := st.conns[i], ClientUri(st, i, head, dev, env);
            && i in r.st.conns
            && var c' := r.st.conns[i];
               && c'.other == None && c'.devId == dev && c'.kind == Client
               && c'.inQ == c.inQ + [Chunk(head, 0)] && Pending(c'.inQ) == c'.log.req
               && (c'.io.armed <==> env.timerOk) && (c'.io.timeout <==> env.timerOk && env.askOk)
               && (r.Done? <==> c'.io.timeout) && !r.IoError?
               && (c.other.Some? ==> c.other.value !in r.st.conns && c'.log.req == head)
  {
    hide Inv, Pending, Same, Size;
    ClientAccount(st, i);
    var c := st.conns[i];
    PendingConcat(c.inQ, [Chunk(head, 0)]);
    PendingFirst(Chunk(head, 0), []);
    assert [Chunk(head, 0)] + [] == [Chunk(head, 0)];
  }

  /** What a client's in-queue and timer show. */
  lemma ClientAccount(st: State, i: Id)
    requires Inv(st) && i in st.conns && st.conns[i].kind == Client && st.conns[i].io.reading
    ensures var c := st.conns[i];
            && (c.other.Some? ==> c.inQ == [] && Pending(c.inQ) == [] && !c.io.timeout && !c.io.armed)
            && (c.other == None ==> Pending(c.inQ) == c.log.req && !Stray(c))
            && Pending([]) == []
  {
    assert NodeOk(st, i);
  }

  /** A server that reads for its client goes on reading unless the client's queue is high and stays above low. */
  lemma ReadsOnUnlessHigh(st: State, i: Id, data: Bytes, env: Env)
    requires Paired(st, i) && st.conns[i].other.Some? && st.conns[i].io.enableRd && env.established
    requires var o := st.conns[i].other.value;
             Drain(Push(st.conns[o], data).outQ, env.script).outcome != Broken && !st.conns[o].io.closing
    ensures var o, st' := st.conns[i].other.value, Relays(st, i, data, env);
            && i in st'.conns && o in st'.conns
            && (st'.conns[i].io.enableRd <==>
                  Size(Push(st.conns[o], data).outQ) < HIGH_MARK || Size(st'.conns[o].outQ) <= LOW_MARK)
  {
    var o := st.conns[i].other.value;
    var st1 := Upd(Upd(st, i, Delivered(st.conns[i], data)), o, Push(st.conns[o], data));
    if Size(Push(st.conns[o], data).outQ) >= HIGH_MARK {
      var st2 := Upd(st1, i, Halted(st1.conns[i]));
      SendAndWake(st2, o, env, OtherWrite);
      assert Relays(st, i, data, env) == Catch(Send(st2, o, env, OtherWrite), i, env);
      hide Send, Size, Drain, Push, Relays;
    } else {
      assert Relays(st, i, data, env) == st1;
      hide Size, Drain, Push, Relays;
    }
  }

  /** A send that works wakes the peer exactly if it leaves the queue low. */
  lemma SendAndWake(st: State, i: Id, env: Env, reason: Reason)
    requires Safe(st, i) && st.conns[i].other.Some? && env.established
    requires !st.conns[i].io.closing && Drain(st.conns[i].outQ, env.script).outcome != Broken
    requires !st.conns[st.conns[i].other.value].io.enableRd
    ensures var o, r := st.conns[i].other.value, Send(st, i, env, reason);
            r.Done? && i in r.st.conns && o in r.st.conns
              && (r.st.conns[o].io.enableRd <==> Size(r.st.conns[i].outQ) <= LOW_MARK)
  {
    var r, o := SendImpl(st, i, env.script, reason), st.conns[i].other.value;
    ImplWorks(st, i, env.script, reason);
    assert EnableRead(st.conns[o]).io.enableRd;
    hide SendImpl, Drain, Size, EnableRead, Disconnected, Loud;
    if Size(r.st.conns[i].outQ) <= LOW_MARK {
      assert Send(st, i, env, reason) == Done(Upd(r.st, o, EnableRead(st.conns[o])));
    } else {
      assert Send(st, i, env, reason) == r;
    }
    hide Send;
  }

  lemma ImplWorks(st: State, i: Id, script: seq<SendResult>, reason: Reason)
    requires i in st.conns && !st.conns[i].io.closing && Drain(st.conns[i].outQ, script).outcome != Broken
    ensures var r := SendImpl(st, i, script, reason); r.Done? && r.st == Upd(st, i, r.st.conns[i])
  {
    hide Drain;
  }
}
