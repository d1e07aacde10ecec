/**
 What every event does to the connections it concerns, said of the state before and the state after it: who is
 left, what has been sent, who reads on.  Only the accounts in `log` are left aside, apart from what was sent.
*/
module RelayEffects {
  import opened Chunks
  import opened Relay
  import opened RelayInvariant

  /** The same connections, apart from their accounts. */
  ghost predicate Alike(conns: map<Id, Conn>, conns': map<Id, Conn>) {
    && conns.Keys == conns'.Keys
    && forall k :: k in conns ==>
         conns[k] == conns'[k].(log := conns[k].log) && conns[k].log.sent == conns'[k].log.sent
  }

  /** What two alike states say of one connection. */
  lemma Look(conns: map<Id, Conn>, conns': map<Id, Conn>, k: Id)
    ensures Alike(conns, conns') ==>
              && (k in conns <==> k in conns')
              && conns.Keys == conns'.Keys
              && (k in conns ==>
                    && conns[k].kind == conns'[k].kind
                      && conns[k].other == conns'[k].other && conns[k].io == conns'[k].io
                    && conns[k].outQ == conns'[k].outQ && conns[k].log.sent == conns'[k].log.sent)
  {
    if Alike(conns, conns') && k in conns { assert conns[k] == conns'[k].(log := conns[k].log); }
  }

  /** The writes fail, or are the last ones of a connection that is to be closed. */
  predicate Fatal(c: Conn, d: DrainResult) {
    d.outcome == Broken || (d.outcome == Drained && c.io.closing)
  }

  /** The connection after its socket has taken `d.sent`; a server that was left alone becomes idle. */
  function HasSent(c: Conn, d: DrainResult): Conn {
    c.(outQ := d.q, log := c.log.(sent := c.log.sent + d.sent),
      kind := if c.kind == BusyServer && c.other == None && d.outcome == Drained then IdleServer else c.kind)
  }

  /** A peer whose socket is gone, or whose bytes have left a queue of at most the low mark, reads again. */
  function Roused(oc: Conn, q: seq<Chunk>, established: bool): Conn {
    var lost := oc.io.connected && !established;
    var again := oc.io.enableRd || lost || Size(q) <= LOW_MARK;
    oc.(io := oc.io.(connected := oc.io.connected && !lost, enableRd := again,
      wake := oc.io.wake || (again && !oc.io.enableRd)))
  }

  /** The connections of `w` once `j` has sent: the two ends are deleted if that is fatal. */
  ghost function AfterSend(w: State, j: Id, env: Env): map<Id, Conn>
    requires Safe(w, j)
  {
    var c, d := w.conns[j], Drain(w.conns[j].outQ, env.script);
    if Fatal(c, d) then w.conns - Pair(w, j)
    else if c.other == None then w.conns[j := HasSent(c, d)]
    else w.conns[j := HasSent(c, d)][c.other.value := Roused(w.conns[c.other.value], d.q, env.established)]
  }

  lemma AlikeSame(conns: map<Id, Conn>)
    ensures Alike(conns, conns)
  {
  }

  lemma ImplWorks(w: State, j: Id, script: seq<SendResult>, reason: Reason)
    requires j in w.conns && !Fatal(w.conns[j], Drain(w.conns[j].outQ, script))
    ensures SendImpl(w, j, script, reason) == Done(Upd(w, j, HasSent(w.conns[j], Drain(w.conns[j].outQ, script))))
  {
    hide Drain, Size;
  }

  /** What enable_read and the loss of a socket come to. */
  lemma Rouses(oc: Conn, q: seq<Chunk>, established: bool)
    ensures var oc' := if oc.io.connected && !established then EnableRead(Disconnected(oc))
                       else if Size(q) <= LOW_MARK then EnableRead(oc) else oc;
            oc' == Roused(oc, q, established).(log := oc'.log)
            && oc'.log.sent == Roused(oc, q, established).log.sent
  {
    hide Size;
  }

  lemma AlikeOne(m: map<Id, Conn>, j: Id, a: Conn, b: Conn)
    requires a == b.(log := a.log) && a.log.sent == b.log.sent
    ensures Alike(m[j := a], m[j := b])
  {
  }

  lemma AlikeTwo(m: map<Id, Conn>, j: Id, a: Conn, b: Conn, o: Id, x: Conn, y: Conn)
    requires a == b.(log := a.log) && a.log.sent == b.log.sent
    requires x == y.(log := x.log) && x.log.sent == y.log.sent
    ensures Alike(m[j := a][o := x], m[j := b][o := y])
  {
  }

  lemma SendWorks(w: State, j: Id, env: Env, reason: Reason)
    requires Safe(w, j) && !Fatal(w.conns[j], Drain(w.conns[j].outQ, env.script))
    ensures var r := Send(w, j, env, reason);
            r.Done? && Alike(r.st.conns, AfterSend(w, j, env)) && r.st.mail == w.mail && r.st.spoiled == w.spoiled
  {
    hide SendImpl, Drain, Size, Fatal, HasSent, Roused, EnableRead, Disconnected, Alike;
    var c := w.conns[j];
    var d := Drain(c.outQ, env.script);
    var c', r := HasSent(c, d), Send(w, j, env, reason);
    ImplWorks(w, j, env.script, reason);
    if c.other == None {
      AlikeSame(r.st.conns);
    } else {
      var o := c.other.value;
      var oc := w.conns[o];
      DrainedQueue(c, d);
      Rouses(oc, d.q, env.established);
      var lost := oc.io.connected && !env.established;
      var oc' := if lost then EnableRead(Disconnected(oc)) else if Size(d.q) <= LOW_MARK then EnableRead(oc) else oc;
      var c'' := if lost then Loud(c') else c';
      assert r.Done? && r.st == Upd(Upd(w, j, c''), o, oc');
      AlikeTwo(w.conns, j, c'', c', o, oc', Roused(oc, d.q, env.established));
    }
  }

  lemma DrainedQueue(c: Conn, d: DrainResult)
    ensures HasSent(c, d).outQ == d.q
  {
  }

  lemma SendFails(w: State, j: Id, env: Env, reason: Reason)
    requires Safe(w, j) && Fatal(w.conns[j], Drain(w.conns[j].outQ, env.script))
    ensures var r := Send(w, j, env, reason);
            && r.IoError? && r.reason == reason && r.st == Upd(w, j, r.st.conns[j])
            && r.st.conns[j].other == w.conns[j].other
  {
    hide Drain, Size;
  }

  lemma SendReason(w: State, j: Id, env: Env, reason: Reason)
    requires Safe(w, j)
    ensures var r := Send(w, j, env, reason); r.IoError? ==> r.reason == reason
  {
    hide Drain, Size;
  }

  /** A send and the catch clause behind it, whichever end the event came to. */
  lemma SendOut(w: State, j: Id, at: Id, env: Env)
    requires Paired(w, j) && at in Pair(w, j)
    ensures Safe(w, at)
    ensures var st' := Catch(Send(w, j, env, if at == j then SelfWrite else OtherWrite), at, env);
            Alike(st'.conns, AfterSend(w, j, env)) && st'.mail == w.mail && st'.spoiled == w.spoiled
  {
    var reason := if at == j then SelfWrite else OtherWrite;
    var r := Send(w, j, env, reason);
    if Fatal(w.conns[j], Drain(w.conns[j].outQ, env.script)) {
      SendFails(w, j, env, reason);
      hide Send, Drain, Fatal;
      assert Pair(r.st, at) == Pair(w, j);
      MapDrop(w.conns, j, r.st.conns[j], Pair(w, j));
      EndsDropped(r.st, at, reason, env);
      AlikeSame(w.conns - Pair(w, j));
      hide Close, Pair, Alike;
    } else {
      SendWorks(w, j, env, reason);
      hide Send, Drain, Fatal, AfterSend, Alike;
    }
  }

  /** What is sent does not depend on the accounts. */
  lemma SentAlike(w: State, w': State, j: Id, env: Env)
    requires Alike(w.conns, w'.conns) && Safe(w, j)
    ensures Safe(w', j) && Alike(AfterSend(w, j, env), AfterSend(w', j, env))
  {
    hide Drain, Size;
  }

  lemma AlikeTrans(a: map<Id, Conn>, b: map<Id, Conn>, c: map<Id, Conn>)
    requires Alike(a, b) && Alike(b, c)
    ensures Alike(a, c)
  {
  }

  /** `at` sends for itself or for its peer, and what it sends has been put in place. */
  lemma SendAfter(w: State, w': State, j: Id, at: Id, env: Env)
    requires Paired(w, j) && at in Pair(w, j) && Alike(w.conns, w'.conns)
    ensures Safe(w, at) && Safe(w', j)
    ensures var st' := Catch(Send(w, j, env, if at == j then SelfWrite else OtherWrite), at, env);
            Alike(st'.conns, AfterSend(w', j, env)) && st'.mail == w.mail && st'.spoiled == w.spoiled
  {
    hide Send, AfterSend, Catch, Alike;
    SendOut(w, j, at, env);
    SentAlike(w, w', j, env);
    AlikeTrans(Catch(Send(w, j, env, if at == j then SelfWrite else OtherWrite), at, env).conns,
      AfterSend(w, j, env), AfterSend(w', j, env));
  }

  /** The event comes to a writable socket. */
  lemma WritableSends(st: State, i: Id, env: Env)
    requires Inv(st) && Enabled(st, Writable(i, env))
    ensures Safe(st, i)
    ensures var st' := Step(st, Writable(i, env));
            Alike(st'.conns, AfterSend(st, i, env)) && st'.mail == st.mail && st'.spoiled == st.spoiled
  {
    InvPaired(st, i);
    hide Inv, Send, AfterSend, Catch;
    SendOut(st, i, i, env);
  }

  // ---------------------------------------------------------------- error pages

  function PageOn(c: Conn, page: Bytes): Conn {
    c.(outQ := c.outQ + [Chunk(page, 0)],
      io := c.io.(attached := true, closing := true, reading := false, wake := c.io.wake && !c.io.reading))
  }

  /** After an error page at `i`: both ends are gone unless it is held up by a socket that works. */
  ghost function Errored(st: State, i: Id, env: Env): map<Id, Conn>
    requires Safe(st, i)
  {
    if !st.conns[i].io.attached && !env.eventOk then st.conns - Pair(st, i)
    else AfterSend(Upd(st, i, PageOn(st.conns[i], env.error)), i, env)
  }

  lemma PagedAlike(st: State, i: Id, page: Bytes)
    requires Paired(st, i)
    ensures var w := Paged(st, i, page);
            Alike(w.conns, st.conns[i := PageOn(st.conns[i], page)]) && w.spoiled == st.spoiled
  {
  }

  lemma ErrorOut(st: State, i: Id, env: Env)
    requires Paired(st, i)
    ensures var st' := SendError(st, i, env);
            Alike(st'.conns, Errored(st, i, env)) && st'.mail == st.mail && st'.spoiled == st.spoiled
  {
    hide Send, AfterSend, Alike, Paged, PageOn;
    if !st.conns[i].io.attached && !env.eventOk {
      EndsDropped(st, i, SelfWrite, env);
      AlikeSame(st.conns - Pair(st, i));
    } else {
      PagedAlike(st, i, env.error);
      SendReason(Paged(st, i, env.error), i, env, SelfWrite);
      SendAfter(Paged(st, i, env.error), Upd(st, i, PageOn(st.conns[i], env.error)), i, i, env);
    }
    hide Close, Pair;
  }

  lemma TimerPages(st: State, i: Id, env: Env)
    requires Inv(st) && Enabled(st, Timer(i, env))
    ensures Safe(st, i)
    ensures var st' := Step(st, Timer(i, env));
            && Alike(st'.conns, Errored(Upd(st, i, st.conns[i].(io := st.conns[i].io.(armed := false))), i, env))
            && st'.mail == st.mail && st'.spoiled == st.spoiled
  {
    InvPaired(st, i);
    hide Inv, SendError, Errored;
    ErrorOut(Upd(st, i, Fired(st.conns[i])), i, env);
  }

  // ---------------------------------------------------------------- the end of a stream, and idleness

  /** The reading of `i` has ended. */
  ghost function Ends(st: State, i: Id, env: Env): map<Id, Conn>
    requires Safe(st, i)
  {
    var c := st.conns[i];
    if c.other == None then st.conns - {i}
    else if c.kind == Client && c.io.inBody then st.conns - {i, c.other.value}
    else
      var o := c.other.value;
      var oc := st.conns[o];
      AfterSend(Upd(st, o, oc.(other := None, io := oc.io.(closing := true))), o, env) - {i}
  }

  lemma AlikeDrop(conns: map<Id, Conn>, conns': map<Id, Conn>, i: Id)
    requires Alike(conns, conns')
    ensures Alike(conns - {i}, conns' - {i})
  {
  }

  lemma UnlinkAlike(conns: map<Id, Conn>, o: Id)
    requires o in conns
    ensures Alike(conns[o := Closing(Unlink(conns[o]))],
              conns[o := conns[o].(other := None, io := conns[o].io.(closing := true))])
  {
  }

  lemma EndOut(st: State, i: Id, env: Env)
    requires Paired(st, i)
    ensures var st' := Close(st, i, SelfRead, env);
            Alike(st'.conns, Ends(st, i, env)) && st'.mail == st.mail && st'.spoiled == st.spoiled
  {
    hide Send, AfterSend, Alike;
    var c := st.conns[i];
    if c.other == None {
      AlikeSame(st.conns - {i});
    } else if c.kind == Client && c.io.inBody {
      MapDropTwice(st.conns, c.other.value, i);
      AlikeSame(st.conns - {i, c.other.value});
    } else {
      var o := c.other.value;
      var oc := st.conns[o];
      var w, w' := Upd(st, o, Closing(Unlink(oc))), Upd(st, o, oc.(other := None, io := oc.io.(closing := true)));
      UnlinkAlike(st.conns, o);
      hide Unlink, Closing;
      assert w.conns[o].other == None;
      SendAfter(w, w', o, o, env);
      var st1 := Catch(Send(w, o, env, SelfWrite), o, env);
      assert Close(st, i, SelfRead, env) == Del(st1, i);
      AlikeDrop(st1.conns, AfterSend(w', o, env), i);
    }
  }

  lemma IdleEnds(st: State, i: Id)
    requires Inv(st) && Enabled(st, Idle(i))
    ensures var c, st' := st.conns[i], Step(st, Idle(i));
            && Alike(st'.conns,
                 if c.other == None then st.conns - {i}
                 else if c.kind == Client then st.conns
                 else assert c.other.value in st.conns by { InvPaired(st, i); }
                      st.conns[c.other.value := st.conns[c.other.value].(other := None)] - {i})
            && st'.mail == st.mail && st'.spoiled == st.spoiled
  {
    InvPaired(st, i);
    hide Inv;
  }

  // ---------------------------------------------------------------- a server's input

  lemma LonelyServerGoes(st: State, i: Id, chunk: Chunked, env: Env)
    requires Inv(st) && Enabled(st, ServerRead(i, chunk, env)) && st.conns[i].other == None
    ensures var st' := Step(st, ServerRead(i, chunk, env)); st'.conns == st.conns - {i} && st'.mail == st.mail
  {
    InvPaired(st, i);
    hide Inv;
    MapDrop(st.conns, i, Awake(st.conns[i]), {i});
  }

  lemma ServerEnds(st: State, i: Id, env: Env)
    requires Inv(st) && Enabled(st, ServerRead(i, ServerEnded, env)) && st.conns[i].other.Some?
    ensures Safe(st, i)
    ensures var st' := Step(st, ServerRead(i, ServerEnded, env));
            Alike(st'.conns, Ends(st, i, env)) && st'.mail == st.mail && st'.spoiled == st.spoiled
  {
    InvPaired(st, i);
    hide Inv, Close, Ends, Alike;
    EndOut(Upd(st, i, Awake(st.conns[i])), i, env);
    EndsAsleep(st, i, env);
  }

  /** The flag that is taken off does not show in one that is deleted. */
  lemma EndsAsleep(st: State, i: Id, env: Env)
    requires Paired(st, i)
    ensures Ends(Upd(st, i, Awake(st.conns[i])), i, env) == Ends(st, i, env)
  {
    hide Drain, Size, Fatal, HasSent, Roused;
    MapDrop(st.conns, i, Awake(st.conns[i]), {i});
  }

  /**
   recv has no more: what the server has delivered is sent to its client.  Either the two are gone, or the client
   has been sent what its socket took, and nothing is left in its queue unless the socket is full.
  */
  lemma NoMoreFlushes(st: State, s: Id, env: Env)
    requires Inv(st) && Enabled(st, ServerRead(s, ServerAgain, env)) && st.conns[s].other.Some?
    ensures Safe(st, s)
    ensures var st' := Step(st, ServerRead(s, ServerAgain, env));
            var c := st.conns[s].other.value;
            var d := Drain(st.conns[c].outQ, env.script);
            if st.conns[c].outQ != [] && Fatal(st.conns[c], d)
            then st'.conns.Keys == st.conns.Keys - {s, c}
            else && st'.conns.Keys == st.conns.Keys
                 && st'.conns[c].log.sent == st.conns[c].log.sent + d.sent && st'.conns[c].outQ == d.q
                 && (st'.conns[c].outQ == [] || d.outcome == Blocked)
  {
    hide Step, Inv, Drain, Fatal, Size, AfterSend, Alike;
    var c := st.conns[s].other.value;
    InvPaired(st, s);
    var w := Upd(st, s, st.conns[s].(io := st.conns[s].io.(wake := false)));
    var st' := Step(st, ServerRead(s, ServerAgain, env));
    NoMoreSends(st, s, env);
    SentTells(w, c, env);
    Look(st'.conns, AfterSend(w, c, env), c);
    Look(st'.conns, w.conns, c);
  }

  /** What `AfterSend` means for the sender. */
  lemma SentTells(w: State, j: Id, env: Env)
    requires Safe(w, j)
    ensures var d, conns := Drain(w.conns[j].outQ, env.script), AfterSend(w, j, env);
            && (w.conns[j].outQ == [] ==> d == DrainResult([], [], Drained))
            && (Fatal(w.conns[j], d) ==> conns == w.conns - Pair(w, j))
            && (!Fatal(w.conns[j], d) ==>
                  && conns.Keys == w.conns.Keys
                  && conns[j].log.sent == w.conns[j].log.sent + d.sent && conns[j].outQ == d.q
                  && (d.q == [] || d.outcome == Blocked))
  {
    DrainConserves(w.conns[j].outQ, env.script);
    hide Size, Roused;
    assert w.conns[j].outQ == [] ==> Drain(w.conns[j].outQ, env.script) == DrainResult([], [], Drained);
    hide Drain;
  }


  lemma NoMoreSends(st: State, i: Id, env: Env)
    requires Inv(st) && Enabled(st, ServerRead(i, ServerAgain, env)) && st.conns[i].other.Some?
    ensures Safe(st, i)
    ensures var w := Upd(st, i, st.conns[i].(io := st.conns[i].io.(wake := false)));
            var st' := Step(st, ServerRead(i, ServerAgain, env));
            && Alike(st'.conns, if st.conns[st.conns[i].other.value].outQ == [] then w.conns
                                else AfterSend(w, st.conns[i].other.value, env))
            && st'.mail == st.mail && st'.spoiled == st.spoiled
  {
    InvPaired(st, i);
    hide Inv, Send, AfterSend, Catch, Alike;
    var w, o := Upd(st, i, Awake(st.conns[i])), st.conns[i].other.value;
    if st.conns[o].outQ == [] {
      AlikeSame(w.conns);
    } else {
      SendOut(w, o, i, env);
    }
  }

  /** What a server delivers goes behind what its client has queued; the high mark stops it and sends. */
  lemma ServerDelivers(st: State, i: Id, data: Bytes, env: Env)
    requires Inv(st) && Enabled(st, ServerRead(i, ServerData(data), env)) && st.conns[i].other.Some?
    ensures Safe(st, i)
    ensures var c, oc := st.conns[i], st.conns[st.conns[i].other.value];
            var oc' := oc.(outQ := oc.outQ + [Chunk(data, 0)]);
            var st' := Step(st, ServerRead(i, ServerData(data), env));
            && st'.mail == st.mail && st'.spoiled == st.spoiled
            && if Size(oc'.outQ) < HIGH_MARK then Alike(st'.conns, st.conns[c.other.value := oc'])
               else var w := st.conns[c.other.value := oc'][i := c.(io := c.io.(enableRd := false, wake := false))];
                    Alike(st'.conns, AfterSend(st.(conns := w), c.other.value, env))
  {
    hide Inv, Send, AfterSend, Catch, Size, Alike, Push, Delivered, Halted;
    InvPaired(st, i);
    var c, o := st.conns[i], st.conns[i].other.value;
    var oc := st.conns[o];
    var w := Upd(Upd(st, i, Delivered(c, data)), o, Push(oc, data));
    var oc' := oc.(outQ := oc.outQ + [Chunk(data, 0)]);
    DeliveredAlike(st, i, data);
    if Size(oc'.outQ) >= HIGH_MARK {
      var w1 := Upd(w, i, Halted(w.conns[i]));
      var w2 := st.(conns := st.conns[o := oc'][i := c.(io := c.io.(enableRd := false, wake := false))]);
      SendAfter(w1, w2, o, i, env);
    }
  }

  lemma DeliveredAlike(st: State, i: Id, data: Bytes)
    requires Paired(st, i) && st.conns[i].other.Some?
    ensures var c, o := st.conns[i], st.conns[i].other.value;
            var oc := st.conns[o].(outQ := st.conns[o].outQ + [Chunk(data, 0)]);
            var w := Upd(Upd(st, i, Delivered(c, data)), o, Push(st.conns[o], data));
            && Push(st.conns[o], data).outQ == oc.outQ && Alike(w.conns, st.conns[o := oc])
            && Paired(Upd(w, i, Halted(w.conns[i])), o) && i in Pair(Upd(w, i, Halted(w.conns[i])), o)
            && Alike(w.conns[i := Halted(w.conns[i])],
                 st.conns[o := oc][i := c.(io := c.io.(enableRd := false, wake := false))])
  {
    var c, o := st.conns[i], st.conns[i].other.value;
    var oc, p, q := st.conns[o], Push(st.conns[o], data), Delivered(c, data);
    var oc', h, c' := oc.(outQ := oc.outQ + [Chunk(data, 0)]),
      Halted(q), c.(io := c.io.(enableRd := false, wake := false));
    assert p == oc'.(log := p.log) && p.log.sent == oc.log.sent && q == c.(log := q.log) && q.log.sent == c.log.sent;
    assert h == c'.(log := h.log) && h.log.sent == c.log.sent && h.other == c.other;
    hide Push, Delivered, Halted;
    AlikeTwo(st.conns, i, q, c, o, p, oc');
    AlikeTwo(st.conns, o, p, oc', i, h, c');
    hide Alike;
    assert st.conns[i := c] == st.conns;
    assert st.conns[i := q][o := p][i := h] == st.conns[o := p][i := h];
  }

  // ---------------------------------------------------------------- a client's input

  /** The connection whose event it is, its activated read taken, at the start or inside of a body. */
  function Reading(c: Conn, inBody: bool): Conn {
    c.(io := c.io.(wake := false, inBody := inBody))
  }

  /** A connection that has been read goes on only while its peer's queue is below the high mark. */
  ghost function Braked(conns: map<Id, Conn>, i: Id): map<Id, Conn> {
    if i in conns && conns[i].other.Some? && conns[i].other.value in conns
       && Size(conns[conns[i].other.value].outQ) >= HIGH_MARK
    then conns[i := conns[i].(io := conns[i].io.(enableRd := false))]
    else conns
  }

  lemma BrakedAlike(conns: map<Id, Conn>, conns': map<Id, Conn>, i: Id)
    requires Alike(conns, conns')
    ensures Alike(Braked(conns, i), Braked(conns', i))
  {
    hide Size;
    if i in conns {
      assert conns[i] == conns'[i].(log := conns[i].log);
      if conns[i].other.Some? && conns[i].other.value in conns {
        var o := conns[i].other.value;
        assert conns[o] == conns'[o].(log := conns[o].log);
        assert conns[o].outQ == conns'[o].outQ;
      }
    }
  }

  lemma ThrottleBrakes(st: State, i: Id)
    ensures Throttle(st, i) == st.(conns := Braked(st.conns, i))
  {
    hide Size;
  }

  lemma BrakeAlike(st: State, conns: map<Id, Conn>, i: Id)
    requires Alike(st.conns, conns)
    ensures Alike(Throttle(st, i).conns, Braked(conns, i))
    ensures Throttle(st, i).mail == st.mail && Throttle(st, i).spoiled == st.spoiled
  {
    hide Alike, Braked, Throttle;
    ThrottleBrakes(st, i);
    BrakedAlike(st.conns, conns, i);
  }

  /** Whether the connection is inside a body does not matter to what is sent. */
  lemma BodySent(w: State, j: Id, i: Id, inBody: bool, env: Env)
    requires Paired(w, j) && i in Pair(w, j) && !Fatal(w.conns[j], Drain(w.conns[j].outQ, env.script))
    ensures var conns, w' := AfterSend(w, j, env), Upd(w, i, AtBody(w.conns[i], inBody));
            i in conns && Safe(w', j) && AfterSend(w', j, env) == conns[i := AtBody(conns[i], inBody)]
  {
    hide Drain, Size, Fatal, HasSent;
    var c, d := w.conns[j], Drain(w.conns[j].outQ, env.script);
    var w' := Upd(w, i, AtBody(w.conns[i], inBody));
    BodyFatal(w, j, i, inBody, env);
    assert w'.conns[j].outQ == c.outQ && w'.conns[j].other == c.other;
    BodyCommutes(c, d, inBody);
    if c.other.Some? { RousedCommutes(w.conns[c.other.value], d.q, env.established, inBody); }
    hide AtBody, Roused;
  }

  lemma BodyCommutes(c: Conn, d: DrainResult, inBody: bool)
    ensures HasSent(AtBody(c, inBody), d) == AtBody(HasSent(c, d), inBody)
  {
  }

  lemma RousedCommutes(c: Conn, q: seq<Chunk>, established: bool, inBody: bool)
    ensures Roused(AtBody(c, inBody), q, established) == AtBody(Roused(c, q, established), inBody)
  {
    hide Size;
  }

  lemma AlikeAt(conns: map<Id, Conn>, conns': map<Id, Conn>, i: Id, inBody: bool)
    requires Alike(conns, conns') && i in conns
    ensures Alike(conns[i := AtBody(conns[i], inBody)], conns'[i := AtBody(conns'[i], inBody)])
  {
  }

  /** A connection's input makes one end of its pair send; `w` is what has been put in place by then. */
  lemma FinishOut(w: State, j: Id, i: Id, inBody: bool, env: Env)
    requires Paired(w, j) && i in Pair(w, j)
    ensures var w', r := Upd(w, i, AtBody(w.conns[i], inBody)),
      Send(w, j, env, if i == j then SelfWrite else OtherWrite);
            && Safe(w', j) && Safe(r.st, i)
            && var st' := Finish(r, i, inBody, env);
               Alike(st'.conns, Braked(AfterSend(w', j, env), i)) && st'.mail == w.mail && st'.spoiled == w.spoiled
  {
    if Fatal(w.conns[j], Drain(w.conns[j].outQ, env.script)) {
      FinishFails(w, j, i, inBody, env);
    } else {
      FinishWorks(w, j, i, inBody, env);
    }
    hide Send, AfterSend, Alike, Drain, Braked, Finish, Fatal;
  }

  lemma FinishFails(w: State, j: Id, i: Id, inBody: bool, env: Env)
    requires Paired(w, j) && i in Pair(w, j) && Fatal(w.conns[j], Drain(w.conns[j].outQ, env.script))
    ensures var w', r := Upd(w, i, AtBody(w.conns[i], inBody)),
      Send(w, j, env, if i == j then SelfWrite else OtherWrite);
            && Safe(w', j) && Safe(r.st, i) && AfterSend(w', j, env) == w.conns - Pair(w, j)
            && var st' := Finish(r, i, inBody, env);
               Alike(st'.conns, w.conns - Pair(w, j)) && st'.mail == w.mail && st'.spoiled == w.spoiled
  {
    var w' := Upd(w, i, AtBody(w.conns[i], inBody));
    hide Send, Alike, Drain, HasSent, Roused, Throttle;
    SendFails(w, j, env, if i == j then SelfWrite else OtherWrite);
    SendOut(w, j, i, env);
    MapDrop(w.conns, i, w'.conns[i], Pair(w, j));
    assert Fatal(w'.conns[j], Drain(w'.conns[j].outQ, env.script)) && Pair(w', j) == Pair(w, j);
    hide Catch, Fatal, Pair;
  }

  lemma FinishWorks(w: State, j: Id, i: Id, inBody: bool, env: Env)
    requires Paired(w, j) && i in Pair(w, j) && !Fatal(w.conns[j], Drain(w.conns[j].outQ, env.script))
    ensures var w', r := Upd(w, i, AtBody(w.conns[i], inBody)),
      Send(w, j, env, if i == j then SelfWrite else OtherWrite);
            && Safe(w', j) && Safe(r.st, i)
            && var st' := Finish(r, i, inBody, env);
               Alike(st'.conns, Braked(AfterSend(w', j, env), i)) && st'.mail == w.mail && st'.spoiled == w.spoiled
  {
    hide Send, AfterSend, Alike, Drain, Throttle, Fatal, Braked;
    var reason := if i == j then SelfWrite else OtherWrite;
    var w', r := Upd(w, i, AtBody(w.conns[i], inBody)), Send(w, j, env, reason);
    SendWorks(w, j, env, reason);
    BodySent(w, j, i, inBody, env);
    BodyFatal(w, j, i, inBody, env);
    AlikeAt(r.st.conns, AfterSend(w, j, env), i, inBody);
    BrakeAlike(Upd(r.st, i, AtBody(r.st.conns[i], inBody)), AfterSend(w', j, env), i);
  }

  lemma BodyFatal(w: State, j: Id, i: Id, inBody: bool, env: Env)
    requires j in w.conns && i in w.conns
    ensures var w' := Upd(w, i, AtBody(w.conns[i], inBody));
            Fatal(w'.conns[j], Drain(w'.conns[j].outQ, env.script)) <==>
              Fatal(w.conns[j], Drain(w.conns[j].outQ, env.script))
  {
    hide Drain;
  }

  lemma ClientHasNoMore(st: State, i: Id, env: Env)
    requires Inv(st) && Enabled(st, ClientRead(i, Item.Again, env))
    ensures Step(st, ClientRead(i, Item.Again, env)) == Upd(st, i, Reading(st.conns[i], st.conns[i].io.inBody))
  {
    hide Inv;
  }

  lemma ClientEnds(st: State, i: Id, env: Env)
    requires Inv(st) && Enabled(st, ClientRead(i, Ended, env))
    ensures Safe(st, i)
    ensures var st' := Step(st, ClientRead(i, Ended, env));
            Alike(st'.conns, Ends(st, i, env)) && st'.mail == st.mail && st'.spoiled == st.spoiled
  {
    InvPaired(st, i);
    hide Inv, Close, Ends, Alike;
    EndOut(Upd(st, i, Awake(st.conns[i])), i, env);
    EndsAsleep(st, i, env);
  }

  lemma ClientPart(st: State, i: Id, env: Env)
    requires Inv(st) && Enabled(st, ClientRead(i, Partial, env))
    ensures Safe(st, i)
    ensures var st' := Step(st, ClientRead(i, Partial, env));
            && Alike(st'.conns, Braked(st.conns[i := Reading(st.conns[i], st.conns[i].io.inBody)], i))
            && st'.mail == st.mail && st'.spoiled == st.spoiled
  {
    InvPaired(st, i);
    hide Inv, Throttle, Alike, Braked;
    var w := Upd(st, i, Awake(st.conns[i]));
    AlikeSame(w.conns);
    BrakeAlike(w, w.conns, i);
  }

  lemma ClientErrs(st: State, i: Id, env: Env)
    requires Inv(st) && Enabled(st, ClientRead(i, Malformed, env))
    ensures Safe(st, i)
    ensures var st' := Step(st, ClientRead(i, Malformed, env));
            && Alike(st'.conns, Errored(Upd(st, i, Reading(st.conns[i], st.conns[i].io.inBody)), i, env))
            && st'.mail == st.mail && st'.spoiled == st.spoiled
  {
    InvPaired(st, i);
    hide Inv, SendError, Errored, Alike;
    ErrorOut(Upd(st, i, Awake(st.conns[i])), i, env);
  }

  /** Bytes for the matched server: a piece of a body, or a request for the same device. */
  ghost predicate Passes(c: Conn, item: Item) {
    c.other.Some? && (item.Body? || (item.ClientHeader? && SameId(c.devId, item.dev)))
  }

  function Passed(item: Item): Bytes
    requires item.Body? || item.ClientHeader?
  {
    if item.Body? then item.data else item.head
  }

  function StaysIn(item: Item): bool
    requires item.Body? || item.ClientHeader?
  {
    if item.Body? then !item.last else item.hasBody
  }

  /**
   A failed send takes both ends down.  Otherwise the bytes are behind what the server has queued, as much is sent
   as its socket takes, and the client goes on reading only while that queue is below the high mark.
  */
  lemma ClientPasses(st: State, i: Id, item: Item, env: Env)
    requires Inv(st) && Enabled(st, ClientRead(i, item, env)) && Passes(st.conns[i], item)
    ensures Safe(st, i)
    ensures var o, st' := st.conns[i].other.value, Step(st, ClientRead(i, item, env));
            var oc := st.conns[o].(outQ := st.conns[o].outQ + [Chunk(Passed(item), 0)]);
            var w := st.(conns := st.conns[i := Reading(st.conns[i], StaysIn(item))][o := oc]);
            && Alike(st'.conns, Braked(AfterSend(w, o, env), i)) && st'.mail == st.mail && st'.spoiled == st.spoiled
  {
    hide Inv, Send, AfterSend, Alike, Braked, Finish, Same, SameId;
    InvPaired(st, i);
    var o := st.conns[i].other.value;
    var st0 := Upd(st, i, Awake(st.conns[i]));
    var w1 := Queued(st0, i, Passed(item));
    var w2 := Upd(w1, i, AtBody(w1.conns[i], StaysIn(item)));
    var oc := st.conns[o].(outQ := st.conns[o].outQ + [Chunk(Passed(item), 0)]);
    var w := st.(conns := st.conns[i := Reading(st.conns[i], StaysIn(item))][o := oc]);
    PassesOn(st0, i, item, env);
    FinishOut(w1, o, i, StaysIn(item), env);
    QueuedAlike(st, i, item);
    SentAlike(w2, w, o, env);
    BrakedAlike(AfterSend(w2, o, env), AfterSend(w, o, env), i);
    hide Queued;
    AlikeTrans(Step(st, ClientRead(i, item, env)).conns,
      Braked(AfterSend(w2, o, env), i), Braked(AfterSend(w, o, env), i));
  }

  lemma PassesOn(st: State, i: Id, item: Item, env: Env)
    requires Paired(st, i) && Passes(st.conns[i], item)
    ensures Handles(st, i, item, env)
            == Finish(Send(Queued(st, i, Passed(item)), st.conns[i].other.value, env, OtherWrite),
              i, StaysIn(item), env)
  {
    hide Same, SameId, Finish, Send, Queued, Throttle, SendError, Close;
    if item.ClientHeader? { SameIff(st.conns[i].devId, item.dev); }
  }

  lemma QueuedAlike(st: State, i: Id, item: Item)
    requires Paired(st, i) && st.conns[i].other.Some? && (item.Body? || item.ClientHeader?)
    ensures var o, w := st.conns[i].other.value, Queued(Upd(st, i, Awake(st.conns[i])), i, Passed(item));
            var oc := st.conns[o].(outQ := st.conns[o].outQ + [Chunk(Passed(item), 0)]);
            Alike(w.conns[i := AtBody(w.conns[i], StaysIn(item))],
              st.conns[i := Reading(st.conns[i], StaysIn(item))][o := oc])
  {
  }

  /** Without a server a piece of a body is kept. */
  lemma ClientKeeps(st: State, i: Id, item: Item, env: Env)
    requires Inv(st) && Enabled(st, ClientRead(i, item, env)) && item.Body? && st.conns[i].other == None
    ensures var c, st' := Reading(st.conns[i], !item.last), Step(st, ClientRead(i, item, env));
            && Alike(st'.conns, st.conns[i := c.(inQ := c.inQ + [Chunk(item.data, 0)])])
            && st'.mail == st.mail && st'.spoiled == st.spoiled
  {
    InvPaired(st, i);
    hide Inv, Size;
  }

  /** A response of the proxy's own: it goes out behind what is queued, and takes the connection off closing. */
  lemma ClientAnswered(st: State, i: Id, item: Item, env: Env)
    requires Inv(st) && Enabled(st, ClientRead(i, item, env)) && item.Special?
    ensures Safe(st, i)
    ensures var c, st' := Reading(st.conns[i], item.hasBody), Step(st, ClientRead(i, item, env));
            var c' := c.(outQ := c.outQ + [Chunk(item.response, 0)], io := c.io.(closing := false));
            var w := Upd(st, i, c');
            && Safe(w, i)
            && Alike(st'.conns, Braked(AfterSend(w, i, env), i)) && st'.mail == st.mail && st'.spoiled == st.spoiled
  {
    hide Inv, Send, AfterSend, Alike, Braked, Finish;
    InvPaired(st, i);
    var st0, c := Upd(st, i, Awake(st.conns[i])), Reading(st.conns[i], item.hasBody);
    var w1 := Answered(st0, i, item.response);
    var w2 := Upd(w1, i, AtBody(w1.conns[i], item.hasBody));
    var w := Upd(st, i, c.(outQ := c.outQ + [Chunk(item.response, 0)], io := c.io.(closing := false)));
    assert Handles(st0, i, item, env) == Finish(Send(w1, i, env, SelfWrite), i, item.hasBody, env);
    AnsweredPaired(st0, i, item.response);
    FinishOut(w1, i, i, item.hasBody, env);
    AnsweredAlike(st, i, item.response, item.hasBody);
    SentAlike(w2, w, i, env);
    BrakedAlike(AfterSend(w2, i, env), AfterSend(w, i, env), i);
    hide Answered;
    AlikeTrans(Step(st, ClientRead(i, item, env)).conns,
      Braked(AfterSend(w2, i, env), i), Braked(AfterSend(w, i, env), i));
  }

  lemma AnsweredPaired(st: State, i: Id, response: Bytes)
    requires Paired(st, i)
    ensures var w := Answered(st, i, response);
            Paired(w, i) && w.conns.Keys == st.conns.Keys && w.conns[i].other == st.conns[i].other
            && w.mail == st.mail && w.spoiled == st.spoiled
  {
  }

  lemma AnsweredAlike(st: State, i: Id, response: Bytes, hasBody: bool)
    requires Paired(st, i)
    ensures var w, c := Answered(Upd(st, i, Awake(st.conns[i])), i, response), Reading(st.conns[i], hasBody);
            Alike(w.conns[i := AtBody(w.conns[i], hasBody)],
              st.conns[i := c.(outQ := c.outQ + [Chunk(response, 0)], io := c.io.(closing := false))])
  {
    hide Alike, PushOwn, AtBody, Reading, NothingRelayed;
    var c := Reading(st.conns[i], hasBody);
    var c' := c.(outQ := c.outQ + [Chunk(response, 0)], io := c.io.(closing := false));
    var w := Answered(Upd(st, i, Awake(st.conns[i])), i, response);
    var a := AtBody(w.conns[i], hasBody);
    AnsweredFace(st.conns[i], response, hasBody);
    if st.conns[i].other.Some? {
      var o := st.conns[i].other.value;
      var oc := st.conns[o];
      NothingFace(oc);
      AlikeTwo(st.conns, o, NothingRelayed(oc), oc, i, a, c');
      assert w.conns[i := a] == st.conns[o := NothingRelayed(oc)][i := a] && st.conns[o := oc] == st.conns;
    } else {
      AlikeOne(st.conns, i, a, c');
      assert w.conns[i := a] == st.conns[i := a];
    }
  }

  lemma AnsweredFace(c: Conn, response: Bytes, hasBody: bool)
    ensures var p, r := PushOwn(Awake(c), response), Reading(c, hasBody);
            var a := AtBody(p.(io := p.io.(closing := false)), hasBody);
            && a == r.(outQ := r.outQ + [Chunk(response, 0)], io := r.io.(closing := false), log := a.log)
            && a.log.sent == r.log.sent && Awake(c).other == c.other == p.other
  {
  }

  lemma NothingFace(c: Conn)
    ensures NothingRelayed(c) == c.(log := NothingRelayed(c).log) && NothingRelayed(c).log.sent == c.log.sent
  {
  }

  /**
   A request for another device, or without server: the old server is deleted, the request goes behind those that
   wait, and the response timer is started anew.  The client waits if the device could be asked.
  */
  ghost function Asking(st: State, i: Id, item: Item, env: Env): State
    requires i in st.conns && item.ClientHeader?
  {
    var c := st.conns[i];
    var left := if c.other.Some? then st.conns - {c.other.value} else st.conns;
    st.(conns := left[i := c.(other := None, devId := item.dev, inQ := c.inQ + [Chunk(item.head, 0)],
      io := c.io.(wake := false, timeout := env.timerOk && env.askOk,
        armed := env.timerOk || (c.io.armed && !c.io.timeout)))])
  }

  lemma ClientAsks(st: State, i: Id, item: Item, env: Env)
    requires Inv(st) && Enabled(st, ClientRead(i, item, env)) && item.ClientHeader? && !Passes(st.conns[i], item)
    ensures i in Asking(st, i, item, env).conns && Safe(Asking(st, i, item, env), i)
    ensures var w, st' := Asking(st, i, item, env), Step(st, ClientRead(i, item, env));
            && Alike(st'.conns, if env.timerOk && env.askOk then w.conns[i := Reading(w.conns[i], item.hasBody)]
                                else Errored(w, i, env))
            && st'.mail == st.mail && st'.spoiled == st.spoiled
  {
    hide Inv, SendError, Errored, Size, Same, SameId, Alike, Reading, Asking, NewRequest, Close;
    InvPaired(st, i);
    SameIff(st.conns[i].devId, item.dev);
    var st0 := Upd(st, i, Awake(st.conns[i]));
    var r := NewRequest(st0, i, item.head, item.dev, env);
    AskAlike(st, i, item, env);
    if r.HttpError? {
      ErrorOut(r.st, i, env);
      ErroredAlike(r.st, Asking(st, i, item, env), i, env);
      AlikeTrans(Step(st, ClientRead(i, item, env)).conns,
        Errored(r.st, i, env), Errored(Asking(st, i, item, env), i, env));
    }
  }

  lemma AskAlike(st: State, i: Id, item: Item, env: Env)
    requires Paired(st, i) && item.ClientHeader?
    ensures var r, w := NewRequest(Upd(st, i, Awake(st.conns[i])), i, item.head, item.dev, env),
      Asking(st, i, item, env);
            && i in w.conns && Alike(r.st.conns, w.conns) && w.conns[i].other == None && r.st.conns[i].other == None
            && r.st.mail == st.mail && r.st.spoiled == st.spoiled && Paired(r.st, i)
            && (r.Done? <==> env.timerOk && env.askOk) && (!r.Done? ==> r.HttpError?)
            && (r.Done? ==>
                  Alike(Throttle(Upd(r.st, i, AtBody(r.st.conns[i], item.hasBody)), i).conns,
                    w.conns[i := Reading(w.conns[i], item.hasBody)]))
  {
    hide Alike, Throttle, NewRequest, AskedConn, Requested, Timed, Unlink, Asking, Reading, AtBody;
    var c := st.conns[i];
    var r, w := NewRequest(Upd(st, i, Awake(c)), i, item.head, item.dev, env), Asking(st, i, item, env);
    var left := if c.other.Some? then st.conns - {c.other.value} else st.conns;
    AskingIs(st, i, item, env);
    var a, c' := AskedConn(c, item, env), w.conns[i];
    AskedFace(c, item, env);
    AskedState(st, i, item, env);
    AlikeOne(left, i, a, c');
    var a', c'' := AtBody(a, item.hasBody), Reading(c', item.hasBody);
    BodyFace(a, c', item.hasBody);
    AlikeOne(left, i, a', c'');
    assert left[i := a][i := a'] == left[i := a'] && left[i := c'][i := c''] == left[i := c''];
    ThrottlesNobody(Upd(r.st, i, a'), i);
  }

  lemma ThrottlesNobody(st: State, i: Id)
    requires i in st.conns && st.conns[i].other == None
    ensures Throttle(st, i) == st
  {
  }

  lemma BodyFace(a: Conn, c: Conn, inBody: bool)
    requires a == c.(log := a.log) && a.log.sent == c.log.sent && !a.io.wake
    ensures var a', c' := AtBody(a, inBody), Reading(c, inBody);
            a' == c'.(log := a'.log) && a'.log.sent == c'.log.sent && a'.other == a.other
  {
  }

  lemma AskingIs(st: State, i: Id, item: Item, env: Env)
    requires Paired(st, i) && item.ClientHeader?
    ensures var c, w := st.conns[i], Asking(st, i, item, env);
            && i in w.conns && w.conns
              == (if c.other.Some? then st.conns - {c.other.value} else st.conns)[i := w.conns[i]]
            && w.conns[i] == c.(other := None, devId := item.dev, inQ := c.inQ + [Chunk(item.head, 0)],
                 io := c.io.(wake := false, timeout := env.timerOk && env.askOk,
                   armed := env.timerOk || (c.io.armed && !c.io.timeout)))
            && w.mail == st.mail && w.spoiled == st.spoiled
  {
  }

  /** The connection after its request. */
  function AskedConn(c: Conn, item: Item, env: Env): Conn
    requires item.ClientHeader?
  {
    Timed(Requested(if c.other.Some? then Unlink(Awake(c)) else Awake(c), item.head).(devId := item.dev), env)
  }

  lemma AskedFace(c: Conn, item: Item, env: Env)
    requires item.ClientHeader?
    ensures var a := AskedConn(c, item, env);
            var c' := c.(other := None, devId := item.dev, inQ := c.inQ + [Chunk(item.head, 0)],
              io := c.io.(wake := false, timeout := env.timerOk && env.askOk,
                armed := env.timerOk || (c.io.armed && !c.io.timeout)));
            && a == c'.(log := a.log) && a.log.sent == c.log.sent && !a.io.wake && a.other == None
  {
    var b := if c.other.Some? then Unlink(Awake(c)) else Awake(c);
    assert b == c.(other := None, io := c.io.(wake := false), log := b.log) && b.log.sent == c.log.sent;
    hide Unlink, Awake;
    var r := Requested(b, item.head).(devId := item.dev);
    assert r == b.(devId := item.dev, inQ := c.inQ + [Chunk(item.head, 0)], log := r.log) && r.log.sent == c.log.sent;
    hide Requested;
  }

  lemma AskedState(st: State, i: Id, item: Item, env: Env)
    requires Paired(st, i) && item.ClientHeader?
    ensures var c := st.conns[i];
            var left := if c.other.Some? then st.conns - {c.other.value} else st.conns;
            var r := NewRequest(Upd(st, i, Awake(c)), i, item.head, item.dev, env);
            && r.st.conns == left[i := AskedConn(c, item, env)] && r.st.mail == st.mail && r.st.spoiled == st.spoiled
            && (r.Done? <==> env.timerOk && env.askOk) && (!r.Done? ==> r.HttpError?)
  {
    hide Requested, Timed, Unlink;
  }

  lemma ErroredAlike(w: State, w': State, i: Id, env: Env)
    requires Alike(w.conns, w'.conns) && Safe(w, i)
    ensures Safe(w', i) && Alike(Errored(w, i, env), Errored(w', i, env))
  {
    hide AfterSend;
    var v, v' := Upd(w, i, PageOn(w.conns[i], env.error)), Upd(w', i, PageOn(w'.conns[i], env.error));
    assert w.conns[i] == w'.conns[i].(log := w.conns[i].log);
    assert Alike(v.conns, v'.conns);
    SentAlike(v, v', i, env);
  }

  // ---------------------------------------------------------------- a device's connection

  /** Client `c` waits for the device of server `s`, in the same worker. */
  ghost predicate Waits(c: Conn, s: Conn) {
    c.kind == Client && c.other == None && c.io.timeout && c.host == s.host && SameId(c.devId, s.devId)
  }

  /**
   Server `s` asks for client `dst`.  One that waits for the server's device loses its timer and its requests to
   the server, and the two are linked unless sending the greeting is fatal; all else is an error.
  */
  ghost function Introduced(st: State, s: Id, dst: Id, env: Env): map<Id, Conn>
    requires s in st.conns && st.conns[s].other == None
  {
    var sc := st.conns[s];
    if dst !in st.conns || dst == s || !Waits(st.conns[dst], sc) then Errored(st, s, env)
    else
      var c := st.conns[dst];
      var c' := c.(inQ := [], io := c.io.(armed := false, timeout := false));
      var d := Drain(sc.outQ + [Chunk(env.ok, 0)] + c.inQ, env.script);
      if Fatal(sc, d) then st.conns[dst := c'] - {s}
      else st.conns[dst := c'.(other := Some(s))]
                   [s := sc.(outQ := d.q, kind := BusyServer, other := Some(dst),
                      log := sc.log.(sent := sc.log.sent + d.sent))]
  }

  /** What match works with: the client without its requests, and the server with them behind the greeting. */
  lemma MatchOut(st: State, s: Id, dst: Id, env: Env)
    requires s in st.conns && dst in st.conns && dst != s && st.conns[s].other == None && st.conns[s].kind == IdleServer
    requires Waits(st.conns[dst], st.conns[s])
    ensures var r := Match(st, s, dst, env);
            && !r.HttpError? && r.st.mail == st.mail && r.st.spoiled == st.spoiled
            && s in r.st.conns && (r.IoError? ==> r.st.conns[s].other == None)
            && (r.Done? <==> s in Introduced(st, s, dst, env))
            && (r.Done? ==> Introduced(st, s, dst, env)[s].other == Some(dst))
            && Alike(if r.Done? then r.st.conns else r.st.conns - {s}, Introduced(st, s, dst, env))
  {
    var sc, c := st.conns[s], st.conns[dst];
    var c' := c.(inQ := [], io := c.io.(armed := false, timeout := false));
    var d := Drain(sc.outQ + [Chunk(env.ok, 0)] + c.inQ, env.script);
    var s1 := Greeted(sc, env.ok, c.inQ);
    var st1 := Upd(Upd(st, dst, Emptied(c)), s, s1);
    hide Drain, Size, Pending, SameId;
    MatchEnds(sc, c, s, env.ok, d);
    hide Emptied, Taken, Greeted;
    if Fatal(sc, d) {
      ImplFails(st1, s, env.script, SelfWrite);
      var r := SendImpl(st1, s, env.script, SelfWrite);
      hide SendImpl;
      assert Match(st, s, dst, env) == r && r.st == Upd(st1, s, r.st.conns[s]);
      MapDrop(st.conns[dst := Emptied(c)], s, r.st.conns[s], {s});
      MapDrop(st.conns[dst := Emptied(c)], s, s1, {s});
      AlikeOne(st.conns, dst, Emptied(c), c');
      AlikeDrop(st.conns[dst := Emptied(c)], st.conns[dst := c'], s);
    } else {
      ImplWorks(st1, s, env.script, SelfWrite);
      hide SendImpl;
      var s2 := HasSent(s1, d).(kind := BusyServer, other := Some(dst));
      assert Match(st, s, dst, env).st.conns == st.conns[dst := Taken(c, s)][s := s2];
      AlikeTwo(st.conns, dst, Taken(c, s), c'.(other := Some(s)), s, s2,
        sc.(outQ := d.q, kind := BusyServer, other := Some(dst), log := sc.log.(sent := sc.log.sent + d.sent)));
    }
    hide Alike, Fatal, Match;
  }

  lemma MatchEnds(sc: Conn, c: Conn, s: Id, ok: Bytes, d: DrainResult)
    ensures var c', s1 := c.(inQ := [], io := c.io.(armed := false, timeout := false)), Greeted(sc, ok, c.inQ);
            && s1.outQ == sc.outQ + [Chunk(ok, 0)] + c.inQ && Fatal(s1, d) == Fatal(sc, d) && s1.other == sc.other
            && Emptied(c) == c'.(log := Emptied(c).log) && Emptied(c).log.sent == c.log.sent
            && Taken(c, s) == c'.(other := Some(s), log := Taken(c, s).log) && Taken(c, s).log.sent == c.log.sent
            && var s2 := HasSent(s1, d);
               && s2 == sc.(outQ := d.q, kind := s2.kind, log := s2.log) && s2.log.sent == sc.log.sent + d.sent
  {
    hide Size, Pending;
  }

  lemma ImplFails(w: State, j: Id, script: seq<SendResult>, reason: Reason)
    requires j in w.conns && Fatal(w.conns[j], Drain(w.conns[j].outQ, script))
    ensures var r := SendImpl(w, j, script, reason);
            r.IoError? && r.reason == reason && r.st == Upd(w, j, r.st.conns[j])
              && r.st.conns[j].other == w.conns[j].other
  {
    hide Drain;
  }

  /** match_client in the client's own worker comes to match exactly for a client that waits. */
  lemma HereIff(st: State, s: Id, dst: Id, env: Env)
    requires s in st.conns && st.conns[s].other == None
    ensures MatchHere(st, s, dst, env) ==
            if dst in st.conns && dst != s && st.conns[dst].kind == Client && st.conns[dst].other == None
               && st.conns[dst].host == st.conns[s].host && Same(st.conns[dst].devId, st.conns[s].devId)
            then Match(st, s, dst, env) else HttpError(st)
  {
    hide Match, Same;
  }

  lemma IntroduceOut(st: State, s: Id, dst: Id, env: Env)
    requires s in st.conns && st.conns[s].other == None && st.conns[s].kind == IdleServer
    ensures Safe(MatchHere(st, s, dst, env).st, s)
    ensures var st' := Catch(MatchHere(st, s, dst, env), s, env);
            && Alike(st'.conns, Introduced(st, s, dst, env)) && st'.mail == st.mail && st'.spoiled == st.spoiled
  {
    hide SendError, Errored, Alike, SameId, Same, MatchHere;
    HereIff(st, s, dst, env);
    ErrorOut(st, s, env);
    if dst in st.conns {
      SameIff(st.conns[dst].devId, st.conns[s].devId);
      if dst != s && Waits(st.conns[dst], st.conns[s]) {
        MatchOut(st, s, dst, env);
        hide Match, Introduced;
      }
    }
  }

  /** The device's connection, a server from here on. */
  function Turned(c: Conn, dev: string): Conn {
    c.(kind := IdleServer, devId := dev, io := c.io.(wake := false))
  }

  /** The client it asks for lives in another worker. */
  predicate Abroad(st: State, i: Id, dst: Id)
    requires i in st.conns
  {
    dst in st.conns && dst != i && st.conns[dst].kind == Client && st.conns[dst].host != st.conns[i].host
  }

  lemma HeaderErrs(st: State, i: Id, item: Item, env: Env)
    requires Inv(st) && Enabled(st, ClientRead(i, item, env)) && item.ServerHeader? && st.conns[i].other.Some?
    ensures Safe(st, i)
    ensures var st' := Step(st, ClientRead(i, item, env));
            && Alike(st'.conns, Errored(Upd(st, i, Reading(st.conns[i], st.conns[i].io.inBody)), i, env))
            && st'.mail == st.mail && st'.spoiled == st.spoiled
  {
    hide Inv, SendError, Errored, Alike, NodeOk;
    InvPaired(st, i);
    NotInMail(st, i);
    var st0 := Upd(st, i, Awake(st.conns[i]));
    ErrorOut(st0, i, env);
    assert Step(st, ClientRead(i, item, env)) == ReadsOn(SendError(st0, i, env), i, item.rest, env);
    hide Step;
  }

  /**
   In its own worker: the device's connection is matched or gets an error page, and goes on as its client's
   queue lets it.
  */
  lemma HeaderIntroduces(st: State, i: Id, item: Item, env: Env)
    requires Inv(st) && Enabled(st, ClientRead(i, item, env)) && item.ServerHeader? && st.conns[i].other == None
    requires !Abroad(st, i, item.dst)
    ensures var conns := Introduced(Upd(st, i, Turned(st.conns[i], item.serverDev)), i, item.dst, env);
            var st' := Step(st, ClientRead(i, item, env));
            && Alike(st'.conns, if i in conns && conns[i].other.Some?
                                then Braked(conns[i := Reading(conns[i], item.hasBody)], i) else conns)
            && st'.mail == st.mail && st'.spoiled == st.spoiled
  {
    hide Inv, Alike, NodeOk, MatchHere, Introduced, Braked, Finish, ServerUri, Turned, ReadsOn;
    InvPaired(st, i);
    NotInMail(st, i);
    var st1 := Upd(st, i, Turned(st.conns[i], item.serverDev));
    UriHere(st, i, item.serverDev, item.dst, env);
    IntroducedOut(st1, i, item, env);
    var st' := Finish(MatchHere(st1, i, item.dst, env), i, item.hasBody, env);
    ReadsNothing(st', i, item.rest, env);
    assert Step(st, ClientRead(i, item, env)) == ReadsOn(st', i, item.rest, env);
    hide Step;
  }

  lemma ReadsNothing(st: State, i: Id, rest: Rest, env: Env)
    requires i !in st.mail
    ensures ReadsOn(st, i, rest, env) == st
  {
  }

  lemma UriHere(st: State, i: Id, dev: string, dst: Id, env: Env)
    requires i in st.conns && st.conns[i].other == None && !Abroad(st, i, dst)
    ensures var st1 := Upd(st, i, Turned(st.conns[i], dev));
            && st1.conns[i].other == None && st1.conns[i].kind == IdleServer && !st1.conns[i].io.wake
            && ServerUri(Upd(st, i, Awake(st.conns[i])), i, dev, dst, env) == MatchHere(st1, i, dst, env)
  {
    hide Match, Same;
    var st0 := Upd(st, i, Awake(st.conns[i]));
    assert Upd(st0, i, st0.conns[i].(kind := IdleServer, devId := dev)) == Upd(st, i, Turned(st.conns[i], dev));
  }

  /** The search in the own worker, and what follows it. */
  lemma IntroducedOut(st: State, i: Id, item: Item, env: Env)
    requires i in st.conns && st.conns[i].other == None && st.conns[i].kind == IdleServer && item.ServerHeader?
    requires !st.conns[i].io.wake
    ensures var conns, r := Introduced(st, i, item.dst, env), MatchHere(st, i, item.dst, env);
            && Safe(r.st, i) && var st' := Finish(r, i, item.hasBody, env);
            && Alike(st'.conns, if i in conns && conns[i].other.Some?
                                then Braked(conns[i := Reading(conns[i], item.hasBody)], i) else conns)
            && st'.mail == st.mail && st'.spoiled == st.spoiled
  {
    var conns, r := Introduced(st, i, item.dst, env), MatchHere(st, i, item.dst, env);
    hide Alike, MatchHere, Introduced, Braked, SendError, Throttle, Close, AtBody;
    IntroduceOut(st, i, item.dst, env);
    HereLinks(st, i, item.dst, env);
    if r.Done? {
      AlikeAt(r.st.conns, conns, i, item.hasBody);
      assert AtBody(conns[i], item.hasBody) == Reading(conns[i], item.hasBody) by { BodyOnly(conns[i], item.hasBody); }
      BrakeAlike(Upd(r.st, i, AtBody(r.st.conns[i], item.hasBody)), conns[i := Reading(conns[i], item.hasBody)], i);
    }
  }

  lemma BodyOnly(c: Conn, inBody: bool)
    requires !c.io.wake
    ensures AtBody(c, inBody) == Reading(c, inBody)
  {
  }

  lemma HereLinks(st: State, s: Id, dst: Id, env: Env)
    requires s in st.conns && st.conns[s].other == None && st.conns[s].kind == IdleServer && !st.conns[s].io.wake
    ensures var conns, r := Introduced(st, s, dst, env), MatchHere(st, s, dst, env);
            && (r.Done? <==> s in conns && conns[s].other.Some?) && (r.Done? ==> s in r.st.conns && !conns[s].io.wake)
  {
    hide MatchHere, Alike, Introduced, Match, Same, SameId;
    HereIff(st, s, dst, env);
    if dst in st.conns { SameIff(st.conns[dst].devId, st.conns[s].devId); }
    if dst in st.conns && dst != s && Waits(st.conns[dst], st.conns[s]) {
      MatchOut(st, s, dst, env);
      LinkedAsleep(st, s, dst, env);
    } else {
      NotWaiting(st, s, dst, env);
    }
  }

  lemma LinkedAsleep(st: State, s: Id, dst: Id, env: Env)
    requires s in st.conns && st.conns[s].other == None && !st.conns[s].io.wake
    requires dst in st.conns && dst != s && Waits(st.conns[dst], st.conns[s])
    ensures var conns := Introduced(st, s, dst, env); s in conns ==> !conns[s].io.wake
  {
    hide Drain, SameId, Fatal;
  }

  lemma NotWaiting(st: State, s: Id, dst: Id, env: Env)
    requires s in st.conns && st.conns[s].other == None
    requires !(dst in st.conns && dst != s && Waits(st.conns[dst], st.conns[s]))
    ensures MatchHere(st, s, dst, env) == HttpError(st)
    ensures var conns := Introduced(st, s, dst, env); s in conns ==> conns[s].other == None
  {
    hide Same, SameId, Drain, Size;
    if dst in st.conns { SameIff(st.conns[dst].devId, st.conns[s].devId); }
  }

  /** The flags of a connection on its way to another worker. */
  function Leaving(c: Conn): Conn {
    c.(io := c.io.(attached := false, reading := false, wake := false,
      armed := c.io.armed && !c.io.timeout, timeout := false))
  }

  /**
   For a client in another worker it is handed over, with a message in that worker's pipe.  What the handler still
   reads of a body goes into the in-queue, or the message is worthless: the connection has been closed, or registered
   again with an error page.
  */
  lemma HeaderHandsOver(st: State, i: Id, item: Item, env: Env)
    requires Inv(st) && Enabled(st, ClientRead(i, item, env)) && item.ServerHeader? && st.conns[i].other == None
    requires Abroad(st, i, item.dst)
    ensures var c, st' := Leaving(Turned(st.conns[i], item.serverDev)), Step(st, ClientRead(i, item, env));
            var w := Upd(st, i, c.(io := c.io.(inBody := item.hasBody)));
            if !env.notifyOk then
              Alike(st'.conns, Errored(Upd(st, i, c), i, env)) && st'.mail == st.mail && st'.spoiled == st.spoiled
            else if item.hasBody && !item.rest.Settled? then
              && st'.mail == st.mail && st'.spoiled == st.spoiled + 1
              && Alike(st'.conns, if item.rest.Dropped? then st.conns - {i} else Errored(w, i, env))
            else
              && st'.mail == st.mail[i := Letter(item.dst, st.conns[item.dst].host)] && st'.spoiled == st.spoiled
              && Alike(st'.conns,
                   if item.hasBody && item.rest.data != []
                   then st.conns[i := w.conns[i].(inQ := c.inQ + [Chunk(item.rest.data, 0)])] else w.conns)
  {
    hide Inv, NodeOk, SendError, Errored, Alike, ReadsOn, Finish, ServerUri, Leaving, Turned;
    InvPaired(st, i);
    NotInMail(st, i);
    var c, st0 := Leaving(Turned(st.conns[i], item.serverDev)), Upd(st, i, Awake(st.conns[i]));
    UriAbroad(st, i, item, env);
    if env.notifyOk {
      LeavesReading(st, i, c, item, env);
    } else {
      ErrorOut(Upd(st, i, c), i, env);
      NotInMail(st, i);
      LeavesNot(st, i, c, item, env);
    }
  }

  lemma NotInMail(st: State, i: Id)
    requires Inv(st) && i in st.conns && st.conns[i].io.attached
    ensures i !in st.mail
  {
    assert NodeOk(st, i);
  }

  lemma UriAbroad(st: State, i: Id, item: Item, env: Env)
    requires i in st.conns && st.conns[i].other == None && item.ServerHeader? && Abroad(st, i, item.dst)
    ensures var c := Leaving(Turned(st.conns[i], item.serverDev));
            && c.other == None && c.io.attached == false
            && ServerUri(Upd(st, i, Awake(st.conns[i])), i, item.serverDev, item.dst, env)
               == if env.notifyOk
                  then Done(Upd(st, i, c).(mail := st.mail[i := Letter(item.dst, st.conns[item.dst].host)]))
                  else HttpError(Upd(st, i, c))
  {
    hide Match, Same;
  }

  lemma LeavesNot(st: State, i: Id, c: Conn, item: Item, env: Env)
    requires i in st.conns && i !in st.mail && item.ServerHeader? && c.other == None
    requires SendError(Upd(st, i, c), i, env).mail == st.mail
    ensures ReadsOn(Finish(HttpError(Upd(st, i, c)), i, item.hasBody, env), i, item.rest, env)
            == SendError(Upd(st, i, c), i, env)
  {
    hide SendError;
  }

  /** The message has been written; the handler reads on inside a body. */
  lemma LeavesReading(st: State, i: Id, c: Conn, item: Item, env: Env)
    requires i in st.conns && i !in st.mail && item.ServerHeader? && item.dst in st.conns && c.other == None
    ensures var mail := st.mail[i := Letter(item.dst, st.conns[item.dst].host)];
            var st' := ReadsOn(Finish(Done(Upd(st, i, c).(mail := mail)), i, item.hasBody, env), i, item.rest, env);
            var w := Upd(st, i, c.(io := c.io.(inBody := item.hasBody)));
            if item.hasBody && !item.rest.Settled? then
              && st'.mail == st.mail && st'.spoiled == st.spoiled + 1
              && Alike(st'.conns, if item.rest.Dropped? then st.conns - {i} else Errored(w, i, env))
            else
              && st'.mail == mail && st'.spoiled == st.spoiled
              && Alike(st'.conns,
                   if item.hasBody && item.rest.data != []
                   then st.conns[i := w.conns[i].(inQ := c.inQ + [Chunk(item.rest.data, 0)])] else w.conns)
  {
    hide SendError, Errored, Alike, Size;
    var mail := st.mail[i := Letter(item.dst, st.conns[item.dst].host)];
    var c' := c.(io := c.io.(inBody := item.hasBody));
    var w := Upd(st, i, c');
    var w1 := w.(mail := mail);
    assert Finish(Done(Upd(st, i, c).(mail := mail)), i, item.hasBody, env) == w1;
    hide Finish;
    assert mail - {i} == st.mail;
    var w2 := w.(spoiled := st.spoiled + 1);
    assert Spoiled(w1, i) == w2;
    ErrorOut(w2, i, env);
    AlikeSame(w.conns);
    ErroredAlike(w2, w, i, env);
    AlikeTrans(SendError(w2, i, env).conns, Errored(w2, i, env), Errored(w, i, env));
    AlikeSame(st.conns - {i});
    MapDrop(st.conns, i, c', {i});
    if item.hasBody && item.rest.Settled? {
      var a, b := Requested(c', item.rest.data), c'.(inQ := c.inQ + [Chunk(item.rest.data, 0)]);
      AlikeOne(st.conns, i, a, b);
      assert w.conns[i := a] == st.conns[i := a];
    }
  }

  lemma DeliveredIntroduces(st: State, i: Id, env: Env)
    requires Inv(st) && Enabled(st, Deliver(i, env))
    ensures st.conns[i].other == None
    ensures var letter, c := st.mail[i], st.conns[i];
            var c' := c.(host := letter.worker, io := c.io.(attached := true, reading := true, enableRd := true));
            var w, st' := Upd(st, i, c').(mail := st.mail - {i}), Step(st, Deliver(i, env));
            && Alike(st'.conns, Introduced(w, i, letter.dst, env)) && st'.mail == w.mail && st'.spoiled == st.spoiled
  {
    assert NodeOk(st, i);
    hide Inv, Alike, NodeOk, MatchHere, Introduced, Catch;
    var letter, c := st.mail[i], st.conns[i];
    var c' := c.(host := letter.worker, io := c.io.(attached := true, reading := true, enableRd := true));
    IntroduceOut(Upd(st, i, c').(mail := st.mail - {i}), i, letter.dst, env);
  }
}
