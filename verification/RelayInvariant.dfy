/**
 What every reachable state of the pairing and relay protocol satisfies, and the proof that each step
 keeps it.
*/
module RelayInvariant {
  import opened Chunks
  import opened Relay

  const QUEUE_BOUND := HIGH_MARK - 1 + READABLE_MAX_LEN

  ghost predicate Untouched(q: seq<Chunk>) {
    forall i :: 0 <= i < |q| ==> q[i].tran == 0
  }

  /** One connection on its own. */
  ghost predicate Alone(c: Conn) {
    && c.log.sent + Pending(c.outQ) == c.log.pushed
    && Untouched(c.inQ)
    && c.log.mark <= |c.log.pushed|
    && (c.kind == Client && c.other.Some? ==> c.inQ == [] && !c.io.timeout && !c.io.armed)
    && (c.kind == Client && c.other == None ==> Pending(c.inQ) == c.log.req && (c.io.timeout ==> c.io.enableRd))
    && (c.kind == IdleServer ==> c.other == None)
    && (Stray(c) ==> c.io.closing && !c.io.reading)
    && Heard(c)
  }

  /** A client without read event is not throttled, so nothing will activate one. */
  ghost predicate Heard(c: Conn) {
    c.kind == Client && !c.io.reading ==> c.io.enableRd && !c.io.wake
  }

  /** Peers: both in place, on one worker, of one device, one client and one busy server. */
  ghost predicate Peers(c: Conn, i: Id, oc: Conn) {
    && oc.other == Some(i)
    && c.io.attached
    && c.host == oc.host
    && Same(c.devId, oc.devId)
    && (c.kind == Client || c.kind == BusyServer)
    && (oc.kind == Client || oc.kind == BusyServer)
    && c.kind != oc.kind
  }

  /** A connection whose reading is switched off has a peer with more than the low mark to send. */
  ghost predicate WillWake(c: Conn, oc: Conn) {
    !c.io.enableRd ==> Size(oc.outQ) > LOW_MARK
  }

  /**
   What has been queued for a server since the match is the OK response and the client's request bytes;
   what has been queued for a client is what its server delivered.
  */
  ghost predicate Relayed(c: Conn, oc: Conn) {
    && c.log.mark <= |c.log.pushed|
    && c.log.pushed[c.log.mark..] == if c.kind == Client then oc.log.delivered else c.log.ok + oc.log.req
  }

  /** While nothing but the server's deliveries fills it, a client's queue stays below the bound. */
  ghost predicate Bounded(c: Conn, oc: Conn) {
    c.kind == Client && c.log.quiet ==>
      Size(c.outQ) <= QUEUE_BOUND && (oc.io.enableRd ==> Size(c.outQ) < HIGH_MARK)
  }

  ghost predicate PairOk(c: Conn, i: Id, oc: Conn) {
    Peers(c, i, oc) && WillWake(c, oc) && Relayed(c, oc) && Bounded(c, oc)
  }

  ghost predicate NodeOk(st: State, i: Id)
    requires i in st.conns
  {
    var c := st.conns[i];
    && Alone(c)
    && (c.io.attached <==> i !in st.mail)
    && (!c.io.attached ==> c.kind == IdleServer && !c.io.armed)
    && (c.other.Some? ==> c.other.value != i && c.other.value in st.conns && PairOk(c, i, st.conns[c.other.value]))
  }

  ghost predicate Inv(st: State) {
    && (forall i :: i in st.conns ==> NodeOk(st, i))
    && st.mail.Keys <= st.conns.Keys
  }

  /** `st'` differs from `st` only at the connections in `at`. */
  ghost predicate Differs(st: State, st': State, at: set<Id>) {
    && (forall j :: j in st.conns && j !in at ==>
          j in st'.conns && st'.conns[j] == st.conns[j] && (j in st'.mail <==> j in st.mail))
    && (forall j :: j in st'.conns && j !in at ==> j in st.conns)
    && (forall j :: j in st'.mail && j !in at ==> j in st.mail)
  }

  /** `at` contains the peers of its members. */
  ghost predicate Closed(st: State, at: set<Id>) {
    forall j :: j in at && j in st.conns && st.conns[j].other.Some? ==> st.conns[j].other.value in at
  }

  /** It is enough to check the connections a step touches. */
  lemma Local(st: State, st': State, at: set<Id>)
    requires Inv(st)
    requires Differs(st, st', at) && Closed(st, at)
    requires forall j :: j in at && j in st'.conns ==> NodeOk(st', j)
    requires forall j :: j in at && j in st'.mail ==> j in st'.conns
    ensures Inv(st')
  {
    hide Alone, PairOk;
    forall j | j in st'.conns
      ensures NodeOk(st', j)
    {
      if j !in at {
        assert NodeOk(st, j);
        if st.conns[j].other.Some? {
          var o := st.conns[j].other.value;
          PeerBack(st, j);
          assert o !in at;
        }
      }
    }
    forall j | j in st'.mail
      ensures j in st'.conns
    {
      if j !in at { assert j in st.mail.Keys && j in st.conns.Keys; }
    }
  }

  lemma PeerBack(st: State, i: Id)
    requires Inv(st) && i in st.conns && st.conns[i].other.Some?
    ensures var o := st.conns[i].other.value; o in st.conns && o != i && st.conns[o].other == Some(i)
  {
    assert NodeOk(st, i);
  }

  lemma InvPaired(st: State, i: Id)
    requires Inv(st) && i in st.conns
    ensures Paired(st, i)
    ensures st.conns[i].other.Some? ==> Paired(st, st.conns[i].other.value)
  {
    if st.conns[i].other.Some? { PeerBack(st, i); }
  }

  // ---------------------------------------------------------------- the steps

  ghost predicate ItemFits(c: Conn, item: Item) {
    match item
    case Special(_, _) => !c.io.inBody
    case ClientHeader(_, _, _) => !c.io.inBody
    case ServerHeader(_, _, _, _) => !c.io.inBody
    case Body(data, _) => c.io.inBody && data != []
    case _ => true
  }

  /** Its read handler is called, for the registered event or an activated one, and does not return at once. */
  predicate Reads(c: Conn) {
    c.io.attached && (c.io.reading || c.io.wake) && c.io.enableRd
  }

  /** What can happen next. */
  ghost predicate Enabled(st: State, ev: Event) {
    match ev
    case Accept(i, _) => i !in st.conns
    case ClientRead(i, item, _) =>
      && i in st.conns && Reads(st.conns[i])
      && st.conns[i].kind == Client && ItemFits(st.conns[i], item)
    case ServerRead(i, chunk, _) =>
      && i in st.conns && Reads(st.conns[i])
      && st.conns[i].kind != Client
      && (chunk.ServerData? ==> 0 < |chunk.data| <= READABLE_MAX_LEN)
    case Writable(i, _) => i in st.conns && st.conns[i].io.attached
    case Timer(i, _) => i in st.conns && st.conns[i].io.armed
    case Idle(i) => i in st.conns && st.conns[i].io.attached
    case Deliver(i, _) => i in st.conns && i in st.mail
  }

  const NO_ENV := Env([], true, true, true, true, true, [], [])

  ghost function Step(st: State, ev: Event): State
    requires Inv(st) && Enabled(st, ev)
  {
    match ev
    case Accept(i, w) => Upd(st, i, NewConn(w))
    case ClientRead(i, item, env) => InvPaired(st, i); ClientReads(st, i, item, env)
    case ServerRead(i, chunk, env) => InvPaired(st, i); ServerReads(st, i, chunk, env)
    case Writable(i, env) => InvPaired(st, i); Catch(Send(st, i, env, SelfWrite), i, env)
    case Timer(i, env) =>
      InvPaired(st, i); SendError(Upd(st, i, Fired(st.conns[i])), i, env)
    case Idle(i) => InvPaired(st, i); Close(st, i, IdleTimeout, NO_ENV)
    case Deliver(i, env) => assert NodeOk(st, i); Delivers(st, i, env)
  }

  // ---------------------------------------------------------------- deleting

  ghost function Pair(st: State, i: Id): set<Id>
    requires i in st.conns
  {
    {i} + if st.conns[i].other.Some? then {st.conns[i].other.value} else {}
  }

  lemma PairClosed(st: State, i: Id)
    requires Inv(st) && i in st.conns
    ensures Closed(st, Pair(st, i))
  {
    if st.conns[i].other.Some? { PeerBack(st, i); }
  }

  /** Deleting an attached connection together with its peer leaves no dangling pointer. */
  lemma DropPair(st: State, i: Id, st': State)
    requires Inv(st) && i in st.conns && st.conns[i].io.attached
    requires st'.mail == st.mail
    requires st'.conns == st.conns - Pair(st, i)
    ensures Inv(st')
  {
    PairClosed(st, i);
    assert NodeOk(st, i);
    if st.conns[i].other.Some? {
      assert NodeOk(st, st.conns[i].other.value);
    }
    Local(st, st', Pair(st, i));
  }

  // ---------------------------------------------------------------- sending

  /** `st'` is `st` but for a partly or wholly sent queue at `i`. */
  ghost predicate OnlySent(st: State, st': State, i: Id)
    requires i in st.conns
  {
    && st'.mail == st.mail
    && i in st'.conns
    && st'.conns == st.conns[i := st'.conns[i]]
    && st'.conns[i].other == st.conns[i].other
    && st'.conns[i].io.attached == st.conns[i].io.attached
  }

  /** The send loop on one connection: conservation, and the queue only shrinks. */
  lemma SentAlone(c: Conn, script: seq<SendResult>)
    requires Alone(c)
    ensures var d := Drain(c.outQ, script);
            Alone(SentOut(c, d)) && Size(d.q) <= Size(c.outQ)
  {
    DrainConserves(c.outQ, script);
    var d := Drain(c.outQ, script);
    hide Drain, Pending;
    Assoc(c.log.sent, d.sent, Pending(d.q));
  }

  /** How a send leaves the two ends: the sender's queue is shorter, its peer is woken once it is low. */
  ghost predicate SentPair(c: Conn, oc: Conn, c': Conn, oc': Conn) {
    || (oc' == oc && ShorterQueue(c, c') && Size(c'.outQ) > LOW_MARK)
    || (oc' == EnableRead(oc) && ShorterQueue(c, c') && Size(c'.outQ) <= LOW_MARK)
    || (oc' == EnableRead(Disconnected(oc)) && ShorterQueue(Loud(c), c'))
  }

  /** `c'` is `c` with some of its queue sent. */
  ghost predicate ShorterQueue(c: Conn, c': Conn) {
    && c' == c.(kind := c'.kind, outQ := c'.outQ,
      io := c.io.(closing := c'.io.closing), log := c.log.(sent := c'.log.sent))
    && Size(c'.outQ) <= Size(c.outQ)
    && (c.io.closing ==> c'.io.closing)
    && (c'.kind == c.kind || (c.other == None && c.kind == BusyServer && c'.kind == IdleServer))
  }

  /** The two connections look the same to everyone but the socket and the reader. */
  ghost predicate SameFace(c: Conn, c': Conn) {
    && c'.kind == c.kind && c'.other == c.other && c'.host == c.host && c'.devId == c.devId
    && c'.io.attached == c.io.attached
    && c'.log.pushed == c.log.pushed && c'.log.mark == c.log.mark && c'.log.ok == c.log.ok
    && c'.log.req == c.log.req && c'.log.delivered == c.log.delivered
  }

  /** What a send means for flow control: `m`, `n` are the sender's queue sizes before and after. */
  ghost predicate Flow(c: Conn, oc: Conn, c': Conn, oc': Conn, m: nat, n: nat) {
    && n <= m
    && c'.io.enableRd == c.io.enableRd && oc'.outQ == oc.outQ
    && (oc.io.enableRd ==> oc'.io.enableRd)
    && (n > LOW_MARK || oc'.io.enableRd)
    && (c'.log.quiet ==> c.log.quiet && (oc'.io.enableRd ==> oc.io.enableRd || n <= LOW_MARK))
    && (oc'.log.quiet ==> oc.log.quiet)
  }

  lemma SentFace(c: Conn, oc: Conn, c': Conn, oc': Conn)
    requires SentPair(c, oc, c', oc') && c.other.Some?
    ensures SameFace(c, c') && SameFace(oc, oc')
    ensures Flow(c, oc, c', oc', Size(c.outQ), Size(c'.outQ))
  {
    hide Size, Pending;
    if ShorterQueue(c, c') {
      ShorterFace(c, c');
    } else {
      ShorterFace(Loud(c), c');
    }
    hide ShorterQueue;
  }

  lemma ShorterFace(c: Conn, c': Conn)
    requires ShorterQueue(c, c') && c.other.Some?
    ensures SameFace(c, c') && c'.io.enableRd == c.io.enableRd && c'.log.quiet == c.log.quiet
    ensures Size(c'.outQ) <= Size(c.outQ)
  {
    hide Size, Pending;
  }

  lemma FacePeers(c: Conn, i: Id, oc: Conn, c': Conn, oc': Conn)
    requires SameFace(c, c') && SameFace(oc, oc')
    ensures Peers(c, i, oc) ==> Peers(c', i, oc')
    ensures Relayed(c, oc) ==> Relayed(c', oc')
  {
  }

  lemma SentPairOk(c: Conn, i: Id, oc: Conn, o: Id, c': Conn, oc': Conn)
    requires PairOk(c, i, oc) && PairOk(oc, o, c) && c.other.Some?
    requires SentPair(c, oc, c', oc')
    ensures PairOk(c', i, oc') && PairOk(oc', o, c')
  {
    SentFace(c, oc, c', oc');
    FacePeers(c, i, oc, c', oc');
    FacePeers(oc, o, c, oc', c');
    hide Size, Pending, Peers, Relayed, SentPair;
  }

  lemma WokenAlone(c: Conn, oc: Conn, c': Conn, oc': Conn)
    requires SentPair(c, oc, c', oc')
    requires Alone(oc) && oc.other.Some?
    ensures Alone(oc')
  {
    hide ShorterQueue;
    assert oc' in {oc, EnableRead(oc), EnableRead(Disconnected(oc))};
    ReadableAlone(oc);
    hide SentPair, Alone, EnableRead, Disconnected;
  }

  lemma ReadableAlone(c: Conn)
    requires Alone(c)
    ensures Alone(EnableRead(c)) && Alone(EnableRead(Disconnected(c)))
  {
    hide Size, Pending;
  }

  /** async_send_impl changes one connection only. */
  lemma ImplKeeps(st: State, i: Id, script: seq<SendResult>, reason: Reason)
    requires i in st.conns && Alone(st.conns[i])
    ensures var r, c := SendImpl(st, i, script, reason), st.conns[i];
            && i in r.st.conns && r.st == Upd(st, i, r.st.conns[i])
            && Alone(r.st.conns[i]) && ShorterQueue(c, r.st.conns[i])
            && (r.IoError? ==> r.reason == reason && r.st.conns[i].kind == c.kind)
  {
    SentAlone(st.conns[i], script);
    hide Drain, Size;
  }

  lemma AloneQuiet(c: Conn)
    requires Alone(c)
    ensures Alone(Loud(c))
  {
  }

  lemma SendDone(st: State, i: Id, env: Env, reason: Reason)
    requires Safe(st, i) && Alone(st.conns[i]) && st.conns[i].other.Some?
    requires Send(st, i, env, reason).Done?
    ensures var r, c, o := Send(st, i, env, reason).st, st.conns[i], st.conns[i].other.value;
            && r.mail == st.mail
            && r.conns == st.conns[i := r.conns[i]][o := r.conns[o]]
            && Alone(r.conns[i])
            && SentPair(c, st.conns[o], r.conns[i], r.conns[o])
  {
    ImplKeeps(st, i, env.script, reason);
    AloneQuiet(SendImpl(st, i, env.script, reason).st.conns[i]);
    hide SendImpl, Size, Alone;
  }

  /** Updating both ends of a pair. */
  lemma Two(st: State, i: Id, c: Conn, oc: Conn)
    requires Inv(st) && i in st.conns && st.conns[i].other.Some?
    requires var o := st.conns[i].other.value;
             && c.other == Some(o) && Alone(c) && Alone(oc) && PairOk(c, i, oc) && PairOk(oc, o, c)
    ensures var o := st.conns[i].other.value;
            Inv(Upd(Upd(st, i, c), o, oc)) && Inv(Upd(Upd(st, o, oc), i, c))
  {
    var o := st.conns[i].other.value;
    PeerBack(st, i);
    assert NodeOk(st, i) && NodeOk(st, o);
    TwoTaken(st, i, o, c, oc);
    TwoTaken(st, i, o, st.conns[i], st.conns[o]);
    hide PairOk, Alone, Inv;
    var st' := Upd(Upd(st, i, c), o, oc);
    assert NodeOk(st', i) && NodeOk(st', o);
    assert Differs(st, st', {i, o}) && Closed(st, {i, o});
    UpdSwap(st, i, c, o, oc);
    assert forall j :: j in {i, o} ==> j in st'.conns;
    hide NodeOk, Upd, Differs, Closed;
    Local(st, st', {i, o});
  }

  lemma TwoTaken(st: State, i: Id, o: Id, c: Conn, oc: Conn)
    requires PairOk(c, i, oc) && PairOk(oc, o, c) && c.other == Some(o)
    ensures c.io.attached && oc.io.attached && oc.other == Some(i)
  {
  }

  lemma UpdSame(st: State, i: Id, c: Conn, o: Id)
    requires o in st.conns && o != i
    ensures Upd(Upd(st, i, c), o, st.conns[o]) == Upd(st, i, c)
  {
  }

  lemma UpdSwap(st: State, i: Id, c: Conn, o: Id, oc: Conn)
    requires o != i
    ensures Upd(Upd(st, i, c), o, oc) == Upd(Upd(st, o, oc), i, c)
  {
  }

  lemma UpdAgain(st: State, i: Id, c: Conn, o: Id, oc: Conn, c': Conn)
    requires o != i
    ensures Upd(Upd(Upd(st, i, c), o, oc), i, c') == Upd(Upd(st, o, oc), i, c')
  {
  }

  /** Updating, or adding, a connection without peer. */
  lemma One(st: State, i: Id, c: Conn)
    requires Inv(st)
    requires i in st.conns ==> st.conns[i].other == None
    requires Alone(c) && c.other == None && c.io.attached && i !in st.mail
    ensures Inv(Upd(st, i, c))
  {
    hide PairOk, Alone;
    assert NodeOk(Upd(st, i, c), i);
    Local(st, Upd(st, i, c), {i});
  }

  lemma SendKeeps(st: State, i: Id, env: Env, reason: Reason)
    requires Inv(st) && i in st.conns && st.conns[i].io.attached && Safe(st, i)
    ensures var r := Send(st, i, env, reason);
            && (r.Done? ==> Inv(r.st))
            && (r.IoError? ==> r.reason == reason && OnlySent(st, r.st, i))
  {
    var r := Send(st, i, env, reason);
    assert NodeOk(st, i);
    ImplKeeps(st, i, env.script, reason);
    if r.Done? && st.conns[i].other == None {
      hide SendImpl, Alone, PairOk;
      One(st, i, r.st.conns[i]);
    } else if r.Done? {
      SendPairKeeps(st, i, env, reason);
    }
  }

  lemma SendPairKeeps(st: State, i: Id, env: Env, reason: Reason)
    requires Inv(st) && Safe(st, i) && st.conns[i].other.Some?
    requires Send(st, i, env, reason).Done?
    ensures Inv(Send(st, i, env, reason).st)
  {
    var c, o, r := st.conns[i], st.conns[i].other.value, Send(st, i, env, reason).st;
    PeerBack(st, i);
    assert NodeOk(st, i) && NodeOk(st, o);
    SendDone(st, i, env, reason);
    SentPairOk(c, i, st.conns[o], o, r.conns[i], r.conns[o]);
    WokenAlone(c, st.conns[o], r.conns[i], r.conns[o]);
    SentFace(c, st.conns[o], r.conns[i], r.conns[o]);
    hide Send, Alone, PairOk, SentPair;
    Two(st, i, r.conns[i], r.conns[o]);
  }

  lemma ImplReads(st: State, i: Id, script: seq<SendResult>, reason: Reason, j: Id)
    requires i in st.conns && j in st.conns
    ensures var r := SendImpl(st, i, script, reason).st;
            i in r.conns && j in r.conns && r.conns[j].io.reading == st.conns[j].io.reading
  {
    hide Drain;
  }

  lemma WokenReads(c: Conn)
    ensures EnableRead(c).io.reading == c.io.reading && EnableRead(Disconnected(c)).io.reading == c.io.reading
    ensures Loud(c).io.reading == c.io.reading
  {
  }

  /** The three ways a send that works may leave the peer. */
  lemma SendCases(st: State, i: Id, env: Env, reason: Reason)
    requires Safe(st, i)
    ensures var r, s := SendImpl(st, i, env.script, reason), Send(st, i, env, reason);
            if r.IoError? || st.conns[i].other == None then s == r
            else
              var o := st.conns[i].other.value;
              && i in r.st.conns && o in r.st.conns && s.Done?
              && var c, oc := r.st.conns[i], r.st.conns[o];
                 s.st == if oc.io.connected && !env.established
                         then Upd(Upd(r.st, o, EnableRead(Disconnected(oc))), i, Loud(c))
                         else if Size(c.outQ) <= LOW_MARK then Upd(r.st, o, EnableRead(oc))
                         else r.st
  {
    hide SendImpl, Size, EnableRead, Disconnected, Loud;
  }

  lemma UpdReads(st: State, i: Id, c: Conn, j: Id)
    requires i in st.conns && j in st.conns && c.io.reading == st.conns[i].io.reading
    ensures var r := Upd(st, i, c); j in r.conns && i in r.conns && r.conns[j].io.reading == st.conns[j].io.reading
  {
  }

  /** Sending takes nobody's read event away. */
  lemma SendReads(st: State, i: Id, env: Env, reason: Reason, j: Id)
    requires Safe(st, i) && j in st.conns
    ensures var r := Send(st, i, env, reason).st;
            j in r.conns && r.conns[j].io.reading == st.conns[j].io.reading
  {
    var r := SendImpl(st, i, env.script, reason);
    SendCases(st, i, env, reason);
    ImplReads(st, i, env.script, reason, j);
    if st.conns[i].other.Some? {
      var o := st.conns[i].other.value;
      var c, oc := r.st.conns[i], r.st.conns[o];
      WokenReads(c);
      WokenReads(oc);
      hide SendImpl, Send, Size, EnableRead, Disconnected, Loud, SameLinks;
      UpdReads(r.st, o, EnableRead(oc), j);
      UpdReads(r.st, o, EnableRead(Disconnected(oc)), j);
      var st1 := Upd(r.st, o, EnableRead(Disconnected(oc)));
      assert st1.conns[i] == c && i in st1.conns;
      UpdReads(st1, i, Loud(c), j);
      hide Upd;
    }
  }

  // ---------------------------------------------------------------- closing

  /** A connection that has lost its peer. */
  lemma UnlinkAlone(c: Conn, o: Id)
    requires Alone(c) && c.other == Some(o) && (c.kind == Client || c.kind == BusyServer)
    ensures Alone(Unlink(c)) && Alone(Closing(Unlink(c)))
  {
  }

  /** Dropping one end and keeping the other, unlinked. */
  lemma DropOne(st: State, i: Id, st': State)
    requires Inv(st) && i in st.conns && st.conns[i].other.Some?
    requires var o := st.conns[i].other.value;
             && st'.mail == st.mail
             && o in st'.conns && o in st.conns && st'.conns == (st.conns - {i})[o := st'.conns[o]]
             && Alone(st'.conns[o]) && st'.conns[o].other == None && st'.conns[o].io.attached
    ensures Inv(st')
  {
    var o := st.conns[i].other.value;
    PeerBack(st, i);
    assert NodeOk(st, i) && NodeOk(st, o);
    assert st.conns[i].io.attached && st.conns[o].io.attached;
    hide PairOk, Alone;
    assert NodeOk(st', o);
    Local(st, st', {i, o});
  }

  lemma CloseKeeps(st: State, i: Id, reason: Reason, env: Env)
    requires Inv(st) && i in st.conns && st.conns[i].io.attached && Safe(st, i)
    ensures Inv(Close(st, i, reason, env))
    ensures i in Close(st, i, reason, env).conns ==> Close(st, i, reason, env) == st
  {
    var c := st.conns[i];
    hide Inv, Send;
    if c.other == None {
      DropPair(st, i, Close(st, i, reason, env));
    } else if reason == SelfRead && !(c.kind == Client && c.io.inBody) {
      CloseReadKeeps(st, i, env);
    } else if reason == IdleTimeout {
      if c.kind != Client { CloseIdleKeeps(st, i, env); }
    } else {
      assert Close(st, i, reason, env).conns == st.conns - Pair(st, i);
      DropPair(st, i, Close(st, i, reason, env));
    }
  }

  lemma CloseIdleKeeps(st: State, i: Id, env: Env)
    requires Inv(st) && i in st.conns && Safe(st, i) && st.conns[i].other.Some? && st.conns[i].kind != Client
    ensures Inv(Close(st, i, IdleTimeout, env)) && i !in Close(st, i, IdleTimeout, env).conns
  {
    var o := st.conns[i].other.value;
    PeerBack(st, i);
    assert NodeOk(st, i) && NodeOk(st, o);
    UnlinkAlone(st.conns[o], i);
    hide Alone, PairOk;
    DropOne(st, i, Close(st, i, IdleTimeout, env));
  }

  lemma UpdDel(conns: map<Id, Conn>, i: Id, o: Id, c: Conn)
    requires o in conns && i != o
    ensures conns[o := c] - {i} == (conns - {i})[o := c]
    ensures (conns[o := c] - {o}) - {i} == conns - {i, o}
  {
  }

  /** The peer left behind, unlinked and to be closed, has sent what its socket takes. */
  lemma LeftBehind(st: State, i: Id, env: Env)
    requires Inv(st) && i in st.conns && Safe(st, i) && st.conns[i].other.Some?
    ensures st.conns[i].io.attached && Safe(st, st.conns[i].other.value)
    ensures var o := st.conns[i].other.value;
            var r := Send(Upd(st, o, Closing(Unlink(st.conns[o]))), o, env, SelfWrite);
            && r.st.conns.Keys == st.conns.Keys && r.st.conns == st.conns[o := r.st.conns[o]] && r.st.mail == st.mail
            && Alone(r.st.conns[o]) && r.st.conns[o].other == None && r.st.conns[o].io.attached
  {
    var o := st.conns[i].other.value;
    PeerBack(st, i);
    assert NodeOk(st, i) && NodeOk(st, o);
    UnlinkAlone(st.conns[o], i);
    var st1 := Upd(st, o, Closing(Unlink(st.conns[o])));
    ImplKeeps(st1, o, env.script, SelfWrite);
    assert st1.conns[o].other == None && Send(st1, o, env, SelfWrite) == SendImpl(st1, o, env.script, SelfWrite);
    hide Alone, PairOk, SendImpl, ShorterQueue, Send, Unlink, Closing;
  }

  lemma CloseReadKeeps(st: State, i: Id, env: Env)
    requires Inv(st) && i in st.conns && Safe(st, i) && st.conns[i].other.Some?
    requires !(st.conns[i].kind == Client && st.conns[i].io.inBody)
    ensures Inv(Close(st, i, SelfRead, env))
    ensures i !in Close(st, i, SelfRead, env).conns
  {
    var o := st.conns[i].other.value;
    PeerBack(st, i);
    LeftBehind(st, i, env);
    var r := Send(Upd(st, o, Closing(Unlink(st.conns[o]))), o, env, SelfWrite);
    var st' := Close(st, i, SelfRead, env);
    hide Alone, PairOk, SendImpl, Send, Unlink, Closing, Inv;
    assert st' == if r.Done? then Del(r.st, i) else Del(Del(r.st, o), i);
    hide Close;
    UpdDel(st.conns, i, o, r.st.conns[o]);
    if r.Done? {
      DropOne(st, i, st');
    } else {
      DropPair(st, i, st');
    }
  }

  // ---------------------------------------------------------------- flags and throttling

  /** `c'` differs from `c` only in flags the invariant does not look at. */
  ghost predicate OnlyFlags(c: Conn, c': Conn) {
    && c' == c.(io := c.io.(wake := c'.io.wake, inBody := c'.io.inBody, armed := c'.io.armed))
    && (c'.io.armed ==> c.io.armed) && (c'.io.wake ==> c.io.wake)
  }

  lemma FlagsKeep(st: State, i: Id, c: Conn)
    requires Inv(st) && i in st.conns && OnlyFlags(st.conns[i], c)
    ensures Inv(Upd(st, i, c))
  {
    var c0 := st.conns[i];
    assert NodeOk(st, i);
    FlagsAlone(c0, c);
    if c0.other.Some? {
      var o := c0.other.value;
      PeerBack(st, i);
      assert NodeOk(st, o);
      FlagsPair(c0, i, st.conns[o], o, c);
      hide Alone, PairOk;
      UpdSame(st, i, c, o);
      hide Upd;
      Two(st, i, c, st.conns[o]);
    } else {
      hide Alone, PairOk;
      assert NodeOk(Upd(st, i, c), i);
      Local(st, Upd(st, i, c), {i});
    }
  }

  lemma FlagsAlone(c: Conn, c': Conn)
    requires Alone(c) && OnlyFlags(c, c')
    ensures Alone(c')
  {
  }

  lemma FlagsPair(c: Conn, i: Id, oc: Conn, o: Id, c': Conn)
    requires PairOk(c, i, oc) && PairOk(oc, o, c) && OnlyFlags(c, c')
    ensures PairOk(c', i, oc) && PairOk(oc, o, c')
  {
    hide Size;
    FacePeers(c, i, oc, c', oc);
    FacePeers(oc, o, c, oc, c');
    hide Peers, Relayed;
  }

  lemma StoppedPair(c: Conn, i: Id, oc: Conn, o: Id)
    requires PairOk(c, i, oc) && PairOk(oc, o, c) && Alone(c) && c.other.Some?
    requires Size(oc.outQ) >= HIGH_MARK && (c.kind == Client ==> c.io.reading)
    ensures PairOk(Stopped(c), i, oc) && PairOk(oc, o, Stopped(c)) && Alone(Stopped(c))
  {
    hide Size;
    FacePeers(c, i, oc, Stopped(c), oc);
    FacePeers(oc, o, c, oc, Stopped(c));
    hide Peers, Relayed;
  }

  /** disable_read while the peer has much to send. */
  lemma StopKeeps(st: State, i: Id)
    requires Inv(st) && i in st.conns && st.conns[i].other.Some?
      && (st.conns[i].kind == Client ==> st.conns[i].io.reading)
    requires var o := st.conns[i].other.value; o in st.conns && Size(st.conns[o].outQ) >= HIGH_MARK
    ensures Inv(Upd(st, i, Stopped(st.conns[i])))
  {
    var o := st.conns[i].other.value;
    PeerBack(st, i);
    assert NodeOk(st, i) && NodeOk(st, o);
    var c, oc := st.conns[i], st.conns[o];
    StoppedPair(c, i, oc, o);
    assert Stopped(c).other == Some(o);
    UpdSame(st, i, Stopped(c), o);
    hide Alone, PairOk, Size, Inv, NodeOk, Upd, Stopped;
    Two(st, i, Stopped(c), oc);
  }

  lemma ThrottleKeeps(st: State, i: Id)
    requires Inv(st) && (i in st.conns && st.conns[i].kind == Client ==> st.conns[i].io.reading)
    ensures Inv(Throttle(st, i))
  {
    hide Inv, Size, Stopped;
    if i in st.conns && st.conns[i].other.Some? {
      var o := st.conns[i].other.value;
      PeerBack(st, i);
      if Size(st.conns[o].outQ) >= HIGH_MARK {
        StopKeeps(st, i);
      }
    }
  }

  /** A failure takes down `i` and its peer, one of which has changed since: `j`. */
  lemma BothDropped(st: State, st1: State, j: Id, i: Id, reason: Reason, env: Env)
    requires Inv(st) && i in st.conns && j in Pair(st, i)
    requires j in st1.conns && st1.conns == st.conns[j := st1.conns[j]] && st1.conns[j].other == st.conns[j].other
    requires reason == SelfWrite || reason == OtherWrite
    ensures Safe(st1, i) && Pair(st, j) == Pair(st, i)
    ensures Close(st1, i, reason, env).conns == st.conns - Pair(st, i)
    ensures Close(st1, i, reason, env).mail == st1.mail
  {
    var other := st.conns[i].other;
    if other.Some? { PeerBack(st, i); }
    assert st1.conns[i].other == other && Pair(st1, i) == Pair(st, i) == Pair(st, j);
    hide Inv;
    MapDrop(st.conns, j, st1.conns[j], Pair(st, i));
    EndsDropped(st1, i, reason, env);
    hide Close, Pair;
  }

  lemma EndsDropped(st: State, i: Id, reason: Reason, env: Env)
    requires Safe(st, i) && (reason == SelfWrite || reason == OtherWrite)
    ensures Close(st, i, reason, env).conns == st.conns - Pair(st, i) && Close(st, i, reason, env).mail == st.mail
    ensures Close(st, i, reason, env).spoiled == st.spoiled
  {
    if st.conns[i].other.Some? {
      var o := st.conns[i].other.value;
      assert Close(st, i, reason, env) == Del(Del(st, o), i);
      hide Close;
      MapDropTwice(st.conns, o, i);
    }
  }

  lemma MapDrop<K, V>(m: map<K, V>, k: K, v: V, gone: set<K>)
    requires k in gone
    ensures m[k := v] - gone == m - gone
  {
  }

  lemma MapDropTwice<K, V>(m: map<K, V>, a: K, b: K)
    ensures (m - {a}) - {b} == m - {b, a}
  {
    assert m - {b, a} == (m - {a}) - {b};
  }

  /** The catch clause after a failed send at one end of a pair. */
  lemma CatchSent(st: State, st1: State, j: Id, i: Id, reason: Reason, env: Env)
    requires Inv(st) && i in st.conns && st.conns[i].io.attached
    requires j in st.conns && OnlySent(st, st1, j) && j in Pair(st, i)
    requires reason == SelfWrite || reason == OtherWrite
    ensures Safe(st1, i) && Inv(Close(st1, i, reason, env))
  {
    assert st1.conns == st.conns[j := st1.conns[j]] && st1.conns[j].other == st.conns[j].other && st1.mail == st.mail;
    BothDropped(st, st1, j, i, reason, env);
    hide Inv, Close, OnlySent;
    DropPair(st, i, Close(st1, i, reason, env));
  }

  // ---------------------------------------------------------------- error pages

  lemma PushAlone(c: Conn, data: Bytes)
    requires Alone(c)
    ensures Alone(Push(c, data)) && Alone(PushOwn(c, data))
    ensures Size(Push(c, data).outQ) == Size(c.outQ) + |data|
    ensures Pending(Push(c, data).outQ) == Pending(c.outQ) + data
  {
    PendingConcat(c.outQ, [Chunk(data, 0)]);
    PendingFirst(Chunk(data, 0), []);
    assert [Chunk(data, 0)] + [] == [Chunk(data, 0)];
    hide Pending;
    Assoc(c.log.sent, Pending(c.outQ), data);
  }

  /** A response of the proxy's own, queued for a matched connection. */
  lemma OwnPair(c: Conn, i: Id, oc: Conn, o: Id, data: Bytes)
    requires PairOk(c, i, oc) && PairOk(oc, o, c) && Alone(c)
    ensures PairOk(PushOwn(c, data), i, NothingRelayed(oc)) && PairOk(NothingRelayed(oc), o, PushOwn(c, data))
  {
    PushAlone(c, data);
    hide Size, Pending, Alone;
  }

  /** An own response, with or without peer; `c` is the connection with it in its queue. */
  lemma OwnKeeps(st: State, i: Id, data: Bytes, c: Conn)
    requires Inv(st) && i in st.conns && st.conns[i].io.attached
    requires c == PushOwn(st.conns[i], data).(io := c.io)
    requires c.io.attached && c.io.enableRd == st.conns[i].io.enableRd
    requires c.io.timeout == st.conns[i].io.timeout && c.io.armed == st.conns[i].io.armed
    requires (Stray(c) ==> c.io.closing && !c.io.reading) && Heard(c)
    requires st.conns[i].other.Some? ==> st.conns[i].other.value in st.conns
    ensures Inv(ForgetRelayed(Upd(st, i, c), c.other))
  {
    var c0 := st.conns[i];
    assert NodeOk(st, i);
    PushAlone(c0, data);
    OwnFlags(PushOwn(c0, data), c);
    if c0.other.Some? {
      var o := c0.other.value;
      PeerBack(st, i);
      assert NodeOk(st, o);
      OwnPair(c0, i, st.conns[o], o, data);
      OwnFlagsPair(PushOwn(c0, data), i, NothingRelayed(st.conns[o]), o, c);
      RestartedAlone(st.conns[o], i);
      hide Alone, PairOk;
      Two(st, i, c, NothingRelayed(st.conns[o]));
    } else {
      hide Alone, PairOk;
      One(st, i, c);
    }
  }

  lemma RestartedAlone(c: Conn, o: Id)
    requires Alone(c) && c.other == Some(o)
    ensures Alone(NothingRelayed(c))
  {
  }

  lemma OwnFlags(c: Conn, c': Conn)
    requires Alone(c) && c' == c.(io := c'.io)
    requires c'.io.enableRd == c.io.enableRd && c'.io.timeout == c.io.timeout && c'.io.armed == c.io.armed
    requires (Stray(c') ==> c'.io.closing && !c'.io.reading) && Heard(c')
    ensures Alone(c')
  {
  }

  lemma OwnFlagsPair(c: Conn, i: Id, oc: Conn, o: Id, c': Conn)
    requires PairOk(c, i, oc) && PairOk(oc, o, c) && c' == c.(io := c'.io)
    requires c'.io.enableRd == c.io.enableRd && c'.io.attached
    ensures PairOk(c', i, oc) && PairOk(oc, o, c')
  {
    hide Size;
    FacePeers(c, i, oc, c', oc);
    FacePeers(oc, o, c, oc, c');
    hide Peers, Relayed;
  }

  lemma PagedKeeps(st: State, i: Id, page: Bytes)
    requires Inv(st) && i in st.conns && st.conns[i].io.attached && Safe(st, i)
    requires st.conns[i].kind == Client ==> st.conns[i].io.enableRd
    ensures Inv(Paged(st, i, page))
  {
    var c := PushOwn(st.conns[i], page);
    assert NodeOk(st, i);
    OwnKeeps(st, i, page, Unheard(c).(io := Unheard(c).io.(attached := true, closing := true)));
    assert c.other == st.conns[i].other;
    hide Inv;
  }

  lemma SendErrorKeeps(st: State, i: Id, env: Env)
    requires Inv(st) && i in st.conns && st.conns[i].io.attached && Safe(st, i)
    requires st.conns[i].kind == Client ==> st.conns[i].io.enableRd
    ensures Inv(SendError(st, i, env))
  {
    PagedKeeps(st, i, env.error);
    var st1 := Paged(st, i, env.error);
    SendKeeps(st1, i, env, SelfWrite);
    var r := Send(st1, i, env, SelfWrite);
    hide Send, Inv;
    if r.IoError? {
      CatchSent(st1, r.st, i, i, SelfWrite, env);
    }
  }

  /** `c` once it reads no more and is to be closed. */
  ghost function Ending(c: Conn): Conn {
    c.(io := Unheard(c).io.(closing := true))
  }

  /** The same for a connection without peer that has just been given another value `c`. */
  lemma SendErrorAlone(st: State, st0: State, i: Id, c: Conn, env: Env)
    requires Inv(st) && i in st.conns && st.conns[i].io.attached && st.conns[i].other == None
    requires st0.mail == st.mail && st0.conns == st.conns[i := c]
    requires Alone(Ending(c)) && c.other == None
    ensures Inv(SendError(st0, i, env))
  {
    assert NodeOk(st, i);
    if !c.io.attached && !env.eventOk {
      assert SendError(st0, i, env).conns == st.conns - Pair(st, i);
      DropPair(st, i, SendError(st0, i, env));
    } else {
      var c0 := PushOwn(c, env.error);
      var c1 := Unheard(c0).(io := Unheard(c0).io.(attached := true, closing := true));
      PushAlone(Ending(c), env.error);
      OwnFlags(PushOwn(Ending(c), env.error), c1);
      var st1 := Paged(st0, i, env.error);
      assert st1.conns == Upd(st, i, c1).conns && st1.mail == st.mail;
      hide Alone, PairOk;
      One(st, i, c1);
      SameInv(Upd(st, i, c1), st1);
      SendKeeps(st1, i, env, SelfWrite);
      var r := Send(st1, i, env, SelfWrite);
      hide Send, Inv;
      if r.IoError? {
        CatchSent(st1, r.st, i, i, SelfWrite, env);
      }
    }
  }

  /** The counters do not matter. */
  lemma SameInv(st: State, st': State)
    requires Inv(st) && st'.conns == st.conns && st'.mail == st.mail
    ensures Inv(st')
  {
    Local(st, st', {});
  }

  // ---------------------------------------------------------------- relaying

  /** Request bytes move from the client's account to its server's queue. */
  lemma AskedPair(c: Conn, i: Id, oc: Conn, o: Id, data: Bytes)
    requires PairOk(c, i, oc) && PairOk(oc, o, c) && c.kind == Client
    requires Alone(c) && Alone(oc) && c.other.Some?
    ensures PairOk(Asked(c, data), i, Push(oc, data)) && PairOk(Push(oc, data), o, Asked(c, data))
    ensures Alone(Asked(c, data)) && Alone(Push(oc, data))
  {
    PushAlone(oc, data);
    assert (oc.log.pushed + data)[oc.log.mark..] == oc.log.pushed[oc.log.mark..] + data;
    Assoc(oc.log.ok, c.log.req, data);
    hide Size, Pending;
  }

  lemma ForwardKeeps(st: State, i: Id, data: Bytes, env: Env)
    requires Inv(st) && i in st.conns && Paired(st, i) && st.conns[i].other.Some? && st.conns[i].kind == Client
    ensures var r := Forward(st, i, data, env);
            && Safe(r.st, i)
            && (r.Done? ==> Inv(r.st) && i in r.st.conns && r.st.conns[i].io.reading == st.conns[i].io.reading)
            && (r.IoError? ==> Inv(Catch(r, i, env)))
  {
    var o := st.conns[i].other.value;
    assert NodeOk(st, i) && NodeOk(st, o);
    AskedPair(st.conns[i], i, st.conns[o], o, data);
    var st1 := Queued(st, i, data);
    assert st1.conns[i].io.attached && st1.conns[o].io.attached;
    hide Alone, PairOk;
    Two(st, i, Asked(st.conns[i], data), Push(st.conns[o], data));
    SendKeeps(st1, o, env, OtherWrite);
    SendReads(st1, o, env, OtherWrite, i);
    var r := Forward(st, i, data, env);
    hide Send, Inv;
    if r.IoError? {
      CatchSent(st1, r.st, o, i, OtherWrite, env);
    }
  }

  lemma RequestedAlone(c: Conn, data: Bytes, dev: string, env: Env)
    requires Alone(c) && c.kind == Client && c.io.enableRd && c.io.reading
    ensures c.other == None ==> Alone(Requested(c, data))
    ensures var c' := Timed(Requested(if c.other.Some? then Unlink(c) else c, data).(devId := dev), env);
            Alone(Ending(c')) && (env.timerOk ==> env.askOk ==> Alone(c'))
  {
    var c0 := if c.other.Some? then Unlink(c) else c;
    var c1 := Requested(c0, data).(devId := dev);
    RequestedQueue(c0, data);
    assert Untouched(c1.inQ) && Pending(c1.inQ) == c1.log.req && c1.outQ == c.outQ && c1.log.sent == c.log.sent;
    TimedAlone(c1, env);
  }

  lemma RequestedQueue(c: Conn, data: Bytes)
    requires Untouched(c.inQ) && Pending(c.inQ) == c.log.req
    ensures var c' := Requested(c, data); Untouched(c'.inQ) && Pending(c'.inQ) == c'.log.req
  {
    PendingConcat(c.inQ, [Chunk(data, 0)]);
    PendingFirst(Chunk(data, 0), []);
    assert [Chunk(data, 0)] + [] == [Chunk(data, 0)];
    hide Pending;
  }

  lemma TimedAlone(c: Conn, env: Env)
    requires Alone(c.(io := c.io.(armed := false))) && c.kind == Client
      && c.other == None && c.io.enableRd && c.io.reading
    ensures Alone(Ending(Timed(c, env))) && (env.timerOk ==> env.askOk ==> Alone(Timed(c, env)))
  {
    hide Pending;
  }

  lemma NewRequestKeeps(st: State, i: Id, head: Bytes, dev: string, env: Env)
    requires Inv(st) && i in st.conns && Safe(st, i)
    requires st.conns[i].kind == Client && st.conns[i].io.attached && st.conns[i].io.enableRd && st.conns[i].io.reading
    requires env.timerOk && env.askOk
    ensures var r := NewRequest(st, i, head, dev, env);
            Inv(r.st) && i in r.st.conns && r.st.conns[i].other == None
              && r.st.conns[i].io.attached && r.st.conns[i].io.reading
  {
    var c := st.conns[i];
    assert NodeOk(st, i);
    RequestedAlone(c, head, dev, env);
    var r := NewRequest(st, i, head, dev, env);
    var c2 := r.st.conns[i];
    assert Alone(c2) && c2.other == None && c2.io.attached;
    hide Alone, PairOk;
    if c.other.Some? {
      var o := c.other.value;
      PeerBack(st, i);
      assert NodeOk(st, o) && st.conns[o].other.value == i;
      assert r.st.conns == (st.conns - {o})[i := c2];
      DropOne(st, o, r.st);
    } else {
      assert r.st == Upd(st, i, c2);
      One(st, i, c2);
    }
  }

  /** A request that could not be made ends in an error page. */
  lemma NewRequestFails(st: State, i: Id, head: Bytes, dev: string, env: Env)
    requires Inv(st) && i in st.conns && Safe(st, i)
    requires st.conns[i].kind == Client && st.conns[i].io.attached && st.conns[i].io.enableRd && st.conns[i].io.reading
    ensures var r := NewRequest(st, i, head, dev, env);
            Inv(SendError(r.st, i, env))
  {
    assert NodeOk(st, i);
    RequestedAlone(st.conns[i], head, dev, env);
    var env1 := env.(timerOk := true, askOk := true);
    NewRequestKeeps(st, i, head, dev, env1);
    var r, r1 := NewRequest(st, i, head, dev, env), NewRequest(st, i, head, dev, env1);
    var c := r.st.conns[i];
    assert r.st.conns == r1.st.conns[i := c] && r.st.mail == r1.st.mail;
    var alone := if st.conns[i].other.Some? then Unlink(st.conns[i]) else st.conns[i];
    assert c == Timed(Requested(alone, head).(devId := dev), env);
    assert c.other == None;
    hide Alone, Inv, NewRequest, Timed, Requested;
    SendErrorAlone(r1.st, r.st, i, c, env);
  }

  lemma ClientUriKeeps(st: State, i: Id, head: Bytes, dev: string, env: Env)
    requires Inv(st) && i in st.conns && Paired(st, i)
    requires st.conns[i].kind == Client && st.conns[i].io.attached && st.conns[i].io.enableRd && st.conns[i].io.reading
    ensures var r := ClientUri(st, i, head, dev, env);
            && (r.Done? ==> Inv(r.st) && i in r.st.conns && r.st.conns[i].io.reading)
            && (!r.Done? ==> Inv(Catch(r, i, env)))
  {
    var c := st.conns[i];
    if c.other.Some? && Same(c.devId, dev) {
      ForwardKeeps(st, i, head, env);
    } else {
      if env.timerOk && env.askOk {
        NewRequestKeeps(st, i, head, dev, env);
      } else {
        NewRequestFails(st, i, head, dev, env);
      }
    }
  }

  // ---------------------------------------------------------------- matching

  /** The queue and the account of a server that takes over a client's requests. */
  lemma GreetedAlone(c: Conn, ok: Bytes, requests: seq<Chunk>)
    requires Alone(c) && c.kind == IdleServer && Untouched(requests)
    ensures Alone(Greeted(c, ok, requests))
    ensures Greeted(c, ok, requests).log.pushed[|c.log.pushed|..] == ok + Pending(requests)
  {
    var hello := [Chunk(ok, 0)];
    PendingConcat(c.outQ, hello);
    PendingConcat(c.outQ + hello, requests);
    PendingFirst(Chunk(ok, 0), []);
    assert hello + [] == hello;
    assert Pending(hello) == ok;
    hide Pending;
    Assoc(c.log.sent, Pending(c.outQ), ok);
    Assoc(c.log.sent, Pending(c.outQ) + ok, Pending(requests));
    Assoc(c.log.pushed, ok, Pending(requests));
  }

  lemma EmptiedAlone(c: Conn, s: Id)
    requires Alone(c) && c.kind == Client && c.other == None
    ensures Alone(Emptied(c)) && Alone(Taken(c, s))
    ensures Emptied(c).other == None
  {
  }

  /** Both ends right after a match. */
  lemma MatchedPair(c: Conn, cid: Id, s: Conn, sid: Id, s1: Conn, env: Env)
    requires Alone(c) && c.kind == Client && c.other == None && c.io.timeout && c.io.attached
    requires Alone(s) && s.kind == IdleServer && s.io.attached && s.io.enableRd
    requires c.host == s.host && Same(c.devId, s.devId)
    requires ShorterQueue(Greeted(s, env.ok, c.inQ), s1) && Alone(s1)
    ensures var c2, s2 := Taken(c, sid), s1.(kind := BusyServer, other := Some(cid));
            && Alone(c2) && Alone(s2) && PairOk(c2, cid, s2) && PairOk(s2, sid, c2)
  {
    GreetedAlone(s, env.ok, c.inQ);
    EmptiedAlone(c, sid);
    assert c.log.pushed[|c.log.pushed|..] == [];
    hide Size, Pending;
  }

  ghost predicate CanMatch(st: State, s: Id, c: Id) {
    && s in st.conns && c in st.conns && s != c
    && st.conns[s].other == None && st.conns[c].other == None
    && st.conns[s].kind == IdleServer && st.conns[c].kind == Client
    && st.conns[s].io.attached && st.conns[s].io.enableRd
    && st.conns[s].host == st.conns[c].host && Same(st.conns[c].devId, st.conns[s].devId)
  }

  /** The server's send of the OK response and the requests, before the two are linked. */
  ghost function Greeting(st: State, s: Id, c: Id, env: Env): Result
    requires CanMatch(st, s, c)
  {
    SendImpl(Upd(Upd(st, c, Emptied(st.conns[c])), s, Greeted(st.conns[s], env.ok, st.conns[c].inQ)),
      s, env.script, SelfWrite)
  }

  /** That send changes the two connections only. */
  lemma GreetingKeeps(st: State, s: Id, c: Id, env: Env)
    requires Inv(st) && CanMatch(st, s, c)
    ensures var g, sc := Greeting(st, s, c, env), Greeted(st.conns[s], env.ok, st.conns[c].inQ);
            && !g.HttpError? && s in g.st.conns
            && g.st == Upd(Upd(st, c, Emptied(st.conns[c])), s, g.st.conns[s])
            && Alone(g.st.conns[s]) && ShorterQueue(sc, g.st.conns[s])
            && (g.IoError? ==> g.reason == SelfWrite)
  {
    assert NodeOk(st, s) && NodeOk(st, c);
    GreetedAlone(st.conns[s], env.ok, st.conns[c].inQ);
    var st1 := Upd(Upd(st, c, Emptied(st.conns[c])), s, Greeted(st.conns[s], env.ok, st.conns[c].inQ));
    ImplKeeps(st1, s, env.script, SelfWrite);
    hide SendImpl, Alone, ShorterQueue, Greeted, Emptied;
    var g := SendImpl(st1, s, env.script, SelfWrite);
    assert Upd(st1, s, g.st.conns[s]) == Upd(Upd(st, c, Emptied(st.conns[c])), s, g.st.conns[s]);
  }

  lemma MatchDone(st: State, s: Id, c: Id, env: Env)
    requires Inv(st) && CanMatch(st, s, c) && st.conns[c].io.timeout && Greeting(st, s, c, env).Done?
    ensures var r := Match(st, s, c, env);
            r.Done? && Inv(r.st) && s in r.st.conns && r.st.conns[s].kind != Client
  {
    assert NodeOk(st, s) && NodeOk(st, c);
    var cc, sc, g, r := st.conns[c], st.conns[s], Greeting(st, s, c, env), Match(st, s, c, env);
    GreetingKeeps(st, s, c, env);
    MatchedPair(cc, c, sc, s, g.st.conns[s], env);
    var c2, s2 := Taken(cc, s), g.st.conns[s].(kind := BusyServer, other := Some(c));
    assert c2.other == Some(s) && c2.io.attached && s2.io.attached;
    assert r.Done? && r.st == Upd(Upd(g.st, c, c2), s, s2);
    hide Alone, PairOk, ShorterQueue, Greeting, Match, Taken, Emptied;
    assert NodeOk(r.st, s) && NodeOk(r.st, c);
    Local(st, r.st, {s, c});
  }

  lemma MatchBroken(st: State, s: Id, c: Id, env: Env)
    requires Inv(st) && CanMatch(st, s, c) && st.conns[c].io.timeout && Greeting(st, s, c, env).IoError?
    ensures var r := Match(st, s, c, env);
            r.IoError? && Inv(Catch(r, s, env))
  {
    var cc, r := st.conns[c], Match(st, s, c, env);
    GreetingKeeps(st, s, c, env);
    assert r == Greeting(st, s, c, env) && r.st.conns[s].other == None;
    hide Alone, PairOk, ShorterQueue, Greeting, Match, Emptied, SendImpl, Send, Inv, Greeted;
    var st2 := Catch(r, s, env);
    assert st2.mail == st.mail && st2.conns == (st.conns - {s})[c := Emptied(cc)];
    EmptiedKeeps(st, s, c, st2);
  }

  /** The server is gone, the client is left without its requests. */
  lemma EmptiedKeeps(st: State, s: Id, c: Id, st': State)
    requires Inv(st) && CanMatch(st, s, c)
    requires st'.mail == st.mail && st'.conns == (st.conns - {s})[c := Emptied(st.conns[c])]
    ensures Inv(st')
  {
    assert NodeOk(st, s) && NodeOk(st, c);
    var cc := st.conns[c];
    EmptiedAlone(cc, s);
    assert Emptied(cc).io.attached && Emptied(cc).other == None;
    hide Alone, PairOk, Emptied;
    assert NodeOk(st', c);
    Local(st, st', {s, c});
  }

  lemma MatchKeeps(st: State, s: Id, c: Id, env: Env)
    requires Inv(st) && CanMatch(st, s, c)
    ensures var r := Match(st, s, c, env);
            && (r.Done? ==> Inv(r.st) && s in r.st.conns && r.st.conns[s].kind != Client)
            && (!r.Done? ==> Inv(Catch(r, s, env)))
  {
    if !st.conns[c].io.timeout {
      assert NodeOk(st, s);
      SendErrorKeeps(st, s, env);
    } else if Greeting(st, s, c, env).Done? {
      MatchDone(st, s, c, env);
    } else {
      MatchBroken(st, s, c, env);
    }
  }

  lemma DetachedAlone(c: Conn)
    requires Alone(c) && c.kind == IdleServer && c.io.reading
    ensures Alone(Detached(c)) && Alone(Ending(Detached(c))) && !Detached(c).io.armed
  {
  }

  lemma MatchClientKeeps(st: State, s: Id, dst: Id, env: Env)
    requires Inv(st) && s in st.conns && st.conns[s].kind == IdleServer && st.conns[s].other == None
    requires st.conns[s].io.attached && st.conns[s].io.enableRd && st.conns[s].io.reading
    ensures var r := MatchClient(st, s, dst, env);
            && (r.Done? ==> Inv(r.st) && s in r.st.conns && r.st.conns[s].kind != Client)
            && (!r.Done? ==> Inv(Catch(r, s, env)))
  {
    assert NodeOk(st, s);
    var r, sc := MatchClient(st, s, dst, env), st.conns[s];
    if dst !in st.conns || st.conns[dst].kind != Client || dst == s {
      SendErrorKeeps(st, s, env);
    } else if st.conns[dst].host != sc.host {
      DetachedAlone(sc);
      if env.notifyOk {
        hide Alone, PairOk;
        assert NodeOk(r.st, s);
        Local(st, r.st, {s});
      } else {
        SendErrorAlone(st, Upd(st, s, Detached(sc)), s, Detached(sc), env);
      }
    } else if st.conns[dst].other.Some? || !Same(st.conns[dst].devId, sc.devId) {
      SendErrorKeeps(st, s, env);
    } else {
      MatchKeeps(st, s, dst, env);
    }
  }

  lemma BecomesServer(c: Conn, dev: string)
    requires Alone(c) && c.other == None
    ensures Alone(c.(kind := IdleServer, devId := dev)) && Stray(c.(kind := IdleServer, devId := dev)) == Stray(c)
  {
  }

  lemma ServerUriKeeps(st: State, i: Id, dev: string, dst: Id, env: Env)
    requires Inv(st) && i in st.conns && Safe(st, i)
    requires st.conns[i].kind == Client && st.conns[i].io.attached && st.conns[i].io.enableRd && st.conns[i].io.reading
    ensures var r := ServerUri(st, i, dev, dst, env);
            && (r.Done? ==> Inv(r.st) && i in r.st.conns && r.st.conns[i].kind != Client)
            && (!r.Done? ==> Inv(Catch(r, i, env)))
  {
    assert NodeOk(st, i);
    if st.conns[i].other.Some? {
      SendErrorKeeps(st, i, env);
    } else {
      var c := st.conns[i].(kind := IdleServer, devId := dev);
      BecomesServer(st.conns[i], dev);
      hide Alone, PairOk;
      One(st, i, c);
      MatchClientKeeps(Upd(st, i, c), i, dst, env);
    }
  }

  lemma AttachedAlone(c: Conn, worker: int)
    requires Alone(c) && !c.io.armed
    ensures Alone(Attached(c, worker)) && !Attached(c, worker).io.armed
  {
  }

  lemma DeliversKeeps(st: State, i: Id, env: Env)
    requires Inv(st) && i in st.conns && i in st.mail && st.conns[i].other == None
    ensures Inv(Delivers(st, i, env))
  {
    assert NodeOk(st, i);
    var letter := st.mail[i];
    var st0 := st.(conns := st.conns[i := Attached(st.conns[i], letter.worker)], mail := st.mail - {i});
    AttachedAlone(st.conns[i], letter.worker);
    hide Alone, PairOk;
    assert NodeOk(st0, i);
    Local(st, st0, {i});
    var dst, c := letter.dst, st0.conns[i];
    if dst !in st0.conns || st0.conns[dst].kind != Client || dst == i || st0.conns[dst].host != c.host
       || st0.conns[dst].other.Some? || !Same(st0.conns[dst].devId, c.devId) {
      SendErrorKeeps(st0, i, env);
    } else {
      MatchKeeps(st0, i, dst, env);
    }
  }

  // ---------------------------------------------------------------- server input

  /** Delivered bytes move from the server's account to its client's queue. */
  lemma DeliveredRelayed(c: Conn, oc: Conn, data: Bytes)
    requires Relayed(c, oc) && Relayed(oc, c) && c.kind == BusyServer && oc.kind == Client
    ensures Relayed(Delivered(c, data), Push(oc, data)) && Relayed(Push(oc, data), Delivered(c, data))
  {
    assert (oc.log.pushed + data)[oc.log.mark..] == oc.log.pushed[oc.log.mark..] + data;
  }

  lemma DeliveredPair(c: Conn, i: Id, oc: Conn, o: Id, data: Bytes)
    requires PairOk(c, i, oc) && PairOk(oc, o, c) && c.kind == BusyServer
    requires Alone(c) && Alone(oc) && c.io.enableRd && |data| <= READABLE_MAX_LEN
    requires c.other.Some?
    ensures var c1, oc1 := Delivered(c, data), Push(oc, data);
            && Alone(c1) && Alone(oc1)
            && (Size(oc1.outQ) < HIGH_MARK ==> PairOk(c1, i, oc1) && PairOk(oc1, o, c1))
            && (Size(oc1.outQ) >= HIGH_MARK ==>
                  PairOk(Halted(c1), i, oc1) && PairOk(oc1, o, Halted(c1)) && Alone(Halted(c1)))
  {
    PushAlone(oc, data);
    DeliveredRelayed(c, oc, data);
    var c1, oc1 := Delivered(c, data), Push(oc, data);
    FacePeers(c1, i, oc1, Halted(c1), oc1);
    FacePeers(oc1, o, c1, oc1, Halted(c1));
    hide Size, Pending, Relayed;
  }

  /** A server's handler sends its client's queue. */
  lemma FlushKeeps(st: State, i: Id, o: Id, env: Env)
    requires Inv(st) && i in st.conns && st.conns[i].other == Some(o)
    ensures Safe(st, o) && Safe(Send(st, o, env, OtherWrite).st, i)
    ensures Inv(Catch(Send(st, o, env, OtherWrite), i, env))
  {
    PeerBack(st, i);
    TwoAttached(st, i);
    SendKeeps(st, o, env, OtherWrite);
    var r := Send(st, o, env, OtherWrite);
    hide Send, Inv;
    if r.IoError? {
      CatchSent(st, r.st, o, i, OtherWrite, env);
    }
  }

  lemma RelaysKeeps(st: State, i: Id, data: Bytes, env: Env)
    requires Inv(st) && i in st.conns && Paired(st, i) && st.conns[i].other.Some?
    requires st.conns[i].kind != Client && st.conns[i].io.enableRd && |data| <= READABLE_MAX_LEN
    ensures Inv(Relays(st, i, data, env))
  {
    var o := st.conns[i].other.value;
    assert NodeOk(st, i) && NodeOk(st, o);
    DeliveredPair(st.conns[i], i, st.conns[o], o, data);
    var c1, oc1 := Delivered(st.conns[i], data), Push(st.conns[o], data);
    var st1 := Upd(Upd(st, i, c1), o, oc1);
    assert c1.other == Some(o) && Halted(c1).other == Some(o) && st1.conns[i] == c1 && st1.conns[o] == oc1;
    var st2 := Upd(st1, i, Halted(c1));
    assert st2.conns[i] == Halted(c1);
    UpdAgain(st, i, c1, o, oc1, Halted(c1));
    hide Alone, PairOk, Size, Inv, NodeOk, Send, Push, Delivered, Halted, Upd;
    if Size(oc1.outQ) >= HIGH_MARK {
      Two(st, i, Halted(c1), oc1);
      FlushKeeps(st2, i, o, env);
    } else {
      Two(st, i, c1, oc1);
    }
  }

  lemma TwoAttached(st: State, i: Id)
    requires Inv(st) && i in st.conns && st.conns[i].other.Some?
    ensures var o := st.conns[i].other.value;
            o in st.conns && st.conns[i].io.attached && st.conns[o].io.attached
  {
    assert NodeOk(st, i);
    assert NodeOk(st, st.conns[i].other.value);
  }

  lemma ServerReadsKeeps(st: State, i: Id, chunk: Chunked, env: Env)
    requires Inv(st) && Enabled(st, ServerRead(i, chunk, env)) && Paired(st, i)
    ensures Inv(ServerReads(st, i, chunk, env))
  {
    var st0 := Upd(st, i, Awake(st.conns[i]));
    FlagsKeep(st, i, Awake(st.conns[i]));
    if st.conns[i].other == None {
      assert Del(st0, i).conns == st0.conns - Pair(st0, i);
      DropPair(st0, i, Del(st0, i));
    } else {
      var o := st.conns[i].other.value;
      TwoAttached(st0, i);
      InvPaired(st0, i);
      match chunk
      case ServerEnded =>
        CloseKeeps(st0, i, SelfRead, env);
      case ServerAgain =>
        FlushKeeps(st0, i, o, env);
      case ServerData(data) =>
        RelaysKeeps(st, i, data, env);
    }
  }

  // ---------------------------------------------------------------- client input

  lemma FinishKeeps(r: Result, i: Id, inBody: bool, env: Env)
    requires Safe(r.st, i)
    requires r.Done? ==> Inv(r.st) && (r.st.conns[i].kind == Client ==> r.st.conns[i].io.reading)
    requires !r.Done? ==> Inv(Catch(r, i, env))
    ensures Inv(Finish(r, i, inBody, env))
  {
    if r.Done? {
      FlagsKeep(r.st, i, AtBody(r.st.conns[i], inBody));
      ThrottleKeeps(Upd(r.st, i, AtBody(r.st.conns[i], inBody)), i);
    }
  }

  lemma OwnResponseKeeps(st: State, i: Id, response: Bytes, env: Env)
    requires Inv(st) && i in st.conns && Safe(st, i) && st.conns[i].kind == Client && st.conns[i].io.attached
    requires st.conns[i].io.reading
    ensures var r := OwnResponse(st, i, response, env);
            && (r.Done? ==> Inv(r.st) && r.st.conns[i].io.reading)
            && (!r.Done? ==> Inv(Catch(r, i, env)))
  {
    var c0 := PushOwn(st.conns[i], response);
    var c := c0.(io := c0.io.(closing := false));
    assert NodeOk(st, i);
    OwnKeeps(st, i, response, c);
    var st1 := Answered(st, i, response);
    SendKeeps(st1, i, env, SelfWrite);
    SendReads(st1, i, env, SelfWrite, i);
    var r := Send(st1, i, env, SelfWrite);
    hide Send, Inv;
    if r.IoError? {
      CatchSent(st1, r.st, i, i, SelfWrite, env);
    }
  }

  lemma OnBodyKeeps(st: State, i: Id, data: Bytes, env: Env)
    requires Inv(st) && i in st.conns && Paired(st, i)
    requires st.conns[i].kind == Client && st.conns[i].io.attached && st.conns[i].io.enableRd && st.conns[i].io.reading
    ensures var r := OnBody(st, i, data, env);
            && (r.Done? ==> Inv(r.st) && r.st.conns[i].io.reading)
            && (!r.Done? ==> Inv(Catch(r, i, env)))
  {
    assert NodeOk(st, i);
    if st.conns[i].other.Some? {
      ForwardKeeps(st, i, data, env);
    } else {
      RequestedAlone(st.conns[i], data, "", env);
      One(st, i, Requested(st.conns[i], data));
    }
  }

  /** Reading on in the old worker after a hand-over. */
  lemma ReadsOnKeeps(st: State, i: Id, rest: Rest, env: Env)
    requires Inv(st)
    ensures Inv(ReadsOn(st, i, rest, env))
  {
    if i in st.mail && i in st.conns && st.conns[i].other == None && st.conns[i].io.inBody {
      assert NodeOk(st, i);
      match rest
      case Settled(data) =>
        if data != [] { QueuedMore(st, i, data); }
      case Dropped =>
        hide Alone, PairOk;
        Local(st, ReadsOn(st, i, rest, env), {i});
      case Refused =>
        var st1 := TakenBack(st, i);
        var c := st.conns[i];
        assert Alone(Ending(c)) && Spoiled(st, i).conns == st1.conns[i := c];
        hide Alone, Inv;
        SendErrorAlone(st1, Spoiled(st, i), i, c, env);
    }
  }

  /** A connection without peer that is no client may queue what it likes. */
  lemma QueuedMore(st: State, i: Id, data: Bytes)
    requires Inv(st) && i in st.conns && st.conns[i].other == None && st.conns[i].kind == IdleServer
    ensures Inv(Upd(st, i, Requested(st.conns[i], data)))
  {
    var c := Requested(st.conns[i], data);
    assert NodeOk(st, i) && Alone(c);
    hide Alone, PairOk;
    assert NodeOk(Upd(st, i, c), i);
    Local(st, Upd(st, i, c), {i});
  }

  /** The state in which the connection would not have been handed over. */
  ghost function TakenBack(st: State, i: Id): (st': State)
    requires Inv(st) && i in st.mail && i in st.conns && st.conns[i].other == None
    ensures Inv(st') && i in st'.conns && st'.conns[i].io.attached && st'.conns[i].other == None
    ensures st'.mail == st.mail - {i} && st'.conns - {i} == st.conns - {i}
  {
    var c := st.conns[i];
    assert NodeOk(st, i);
    assert Alone(c.(io := c.io.(attached := true)));
    var st' := st.(conns := st.conns[i := c.(io := c.io.(attached := true))], mail := st.mail - {i});
    assert NodeOk(st', i);
    Local(st, st', {i});
    st'
  }

  lemma ClientReadsKeeps(st: State, i: Id, item: Item, env: Env)
    requires Inv(st) && Enabled(st, ClientRead(i, item, env)) && Paired(st, i)
    ensures Inv(ClientReads(st, i, item, env))
  {
    var st0 := Upd(st, i, Awake(st.conns[i]));
    FlagsKeep(st, i, Awake(st.conns[i]));
    InvPaired(st0, i);
    assert NodeOk(st, i);
    hide NodeOk, Inv;
    match item
    case Again =>
    case Ended =>
      CloseKeeps(st0, i, SelfRead, env);
    case Partial =>
      ThrottleKeeps(st0, i);
    case Malformed =>
      SendErrorKeeps(st0, i, env);
    case Special(response, hasBody) =>
      OwnResponseKeeps(st0, i, response, env);
      FinishKeeps(OwnResponse(st0, i, response, env), i, hasBody, env);
    case ClientHeader(head, dev, hasBody) =>
      ClientUriKeeps(st0, i, head, dev, env);
      FinishKeeps(ClientUri(st0, i, head, dev, env), i, hasBody, env);
    case ServerHeader(dev, dst, hasBody, rest) =>
      ServerUriKeeps(st0, i, dev, dst, env);
      FinishKeeps(ServerUri(st0, i, dev, dst, env), i, hasBody, env);
      ReadsOnKeeps(Finish(ServerUri(st0, i, dev, dst, env), i, hasBody, env), i, rest, env);
    case Body(data, last) =>
      OnBodyKeeps(st0, i, data, env);
      FinishKeeps(OnBody(st0, i, data, env), i, !last, env);
  }

  // ---------------------------------------------------------------- all steps

  lemma NewConnAlone(worker: int)
    ensures Alone(NewConn(worker))
  {
  }

  lemma TimerKeeps(st: State, i: Id, env: Env)
    requires Inv(st) && i in st.conns && st.conns[i].io.armed && Safe(st, i)
    ensures Inv(SendError(Upd(st, i, Fired(st.conns[i])), i, env))
  {
    assert NodeOk(st, i);
    FlagsKeep(st, i, Fired(st.conns[i]));
    SendErrorKeeps(Upd(st, i, Fired(st.conns[i])), i, env);
  }

  lemma StepKeeps(st: State, ev: Event)
    requires Inv(st) && Enabled(st, ev)
    ensures Inv(Step(st, ev))
  {
    match ev
    case Accept(i, w) =>
      NewConnAlone(w);
      assert i !in st.mail.Keys;
      One(st, i, NewConn(w));
    case ClientRead(i, item, env) =>
      InvPaired(st, i);
      ClientReadsKeeps(st, i, item, env);
    case ServerRead(i, chunk, env) =>
      InvPaired(st, i);
      ServerReadsKeeps(st, i, chunk, env);
    case Writable(i, env) =>
      InvPaired(st, i);
      SendKeeps(st, i, env, SelfWrite);
      var r := Send(st, i, env, SelfWrite);
      if r.IoError? {
        CatchSent(st, r.st, i, i, SelfWrite, env);
      }
    case Timer(i, env) =>
      TimerKeeps(st, i, env);
    case Idle(i) =>
      InvPaired(st, i);
      CloseKeeps(st, i, IdleTimeout, NO_ENV);
    case Deliver(i, env) =>
      assert NodeOk(st, i);
      DeliversKeeps(st, i, env);
  }
}
