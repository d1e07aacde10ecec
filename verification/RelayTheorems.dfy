/** The pairing and relay protocol over whole runs. */
module RelayTheorems {
  import opened Chunks
  import opened Relay
  import opened RelayInvariant
  import opened RelaySteps

  const START := State(map[], map[], 0, 0)

  /** Each event of `evs` can happen when its turn comes. */
  ghost predicate Legal(st: State, evs: seq<Event>)
    requires Inv(st)
    decreases |evs|
  {
    evs == [] || (Enabled(st, evs[0]) && (StepKeeps(st, evs[0]); Legal(Step(st, evs[0]), evs[1..])))
  }

  /** The state after a run; every reachable state satisfies the invariant. */
  ghost function After(st: State, evs: seq<Event>): (st': State)
    requires Inv(st) && Legal(st, evs)
    ensures Inv(st')
    decreases |evs|
  {
    if evs == [] then st else (StepKeeps(st, evs[0]); After(Step(st, evs[0]), evs[1..]))
  }

  lemma LegalTail(st: State, evs: seq<Event>)
    requires Inv(st) && Legal(st, evs) && evs != []
    ensures Enabled(st, evs[0]) && Inv(Step(st, evs[0])) && Legal(Step(st, evs[0]), evs[1..])
    ensures After(st, evs) == After(Step(st, evs[0]), evs[1..])
  {
    hide Step, Inv, Enabled;
    StepKeeps(st, evs[0]);
  }

  /**
   In every reachable state a peer pointer leads to a live connection that points back, in the same worker
   and for the same device up to the case of its letters; one of the two is a client and the other a busy server.
  */
  lemma PeersAgree(evs: seq<Event>, i: Id)
    requires Legal(START, evs)
    requires var st := After(START, evs); i in st.conns && st.conns[i].other.Some?
    ensures var st := After(START, evs);
            var o := st.conns[i].other.value;
            && o != i && o in st.conns && st.conns[o].other == Some(i)
            && st.conns[o].host == st.conns[i].host
            && SameId(st.conns[i].devId, st.conns[o].devId)
            && {st.conns[i].kind, st.conns[o].kind} == {Client, BusyServer}
            && (forall j :: j in st.conns && st.conns[j].other == Some(o) ==> j == i)
  {
    var st := After(START, evs);
    assert NodeOk(st, i);
    SameIff(st.conns[i].devId, st.conns[st.conns[i].other.value].devId);
    hide Same, SameId;
    forall j | j in st.conns && st.conns[j].other == st.conns[i].other
      ensures j == i
    {
      assert NodeOk(st, j);
    }
  }

  /**
   While a client and a server are matched, what the server's socket has taken followed by what is queued
   for it is, after whatever went before the match, the OK response and then the client's request bytes;
   and the client has been sent, or has queued, exactly what the server delivered.  A response of the proxy's
   own at either end starts the account of that end anew behind it.
  */
  lemma RelayIsExact(evs: seq<Event>, s: Id)
    requires Legal(START, evs)
    requires var st := After(START, evs); s in st.conns && st.conns[s].kind == BusyServer && st.conns[s].other.Some?
    ensures var st := After(START, evs);
            var c := st.conns[s].other.value;
            && c in st.conns
            && var sc, cc := st.conns[s], st.conns[c];
               && sc.log.mark <= |sc.log.pushed| && cc.log.mark <= |cc.log.pushed|
               && sc.log.sent + Pending(sc.outQ) == sc.log.pushed[..sc.log.mark] + sc.log.ok + cc.log.req
               && cc.log.sent + Pending(cc.outQ) == cc.log.pushed[..cc.log.mark] + sc.log.delivered
  {
    var st := After(START, evs);
    assert NodeOk(st, s);
    var c := st.conns[s].other.value;
    assert NodeOk(st, c);
    var sc, cc := st.conns[s], st.conns[c];
    assert sc.log.pushed == sc.log.pushed[..sc.log.mark] + sc.log.pushed[sc.log.mark..];
    assert cc.log.pushed == cc.log.pushed[..cc.log.mark] + cc.log.pushed[cc.log.mark..];
    Assoc(sc.log.pushed[..sc.log.mark], sc.log.ok, cc.log.req);
  }

  /** In every reachable state a matched connection that is not reading has a peer that still has to drain. */
  lemma NoLostWakeUp(evs: seq<Event>, i: Id)
    requires Legal(START, evs)
    requires var st := After(START, evs); i in st.conns && st.conns[i].other.Some? && !st.conns[i].io.enableRd
    ensures var st := After(START, evs);
            st.conns[i].other.value in st.conns && Size(st.conns[st.conns[i].other.value].outQ) > LOW_MARK
  {
    assert NodeOk(After(START, evs), i);
  }

  /** The send that drains a queue to the low mark switches the peer's reading on and activates a read event. */
  lemma DrainingWakes(st: State, i: Id, env: Env, reason: Reason)
    requires Safe(st, i) && st.conns[i].other.Some?
    requires !st.conns[st.conns[i].other.value].io.enableRd
    requires Send(st, i, env, reason).Done?
    ensures var o, st' := st.conns[i].other.value, Send(st, i, env, reason).st;
            && o in st'.conns && i in st'.conns
            && (Size(st'.conns[i].outQ) <= LOW_MARK ==> st'.conns[o].io.enableRd && st'.conns[o].io.wake)
            && (st'.conns[o].io.enableRd ==>
                  Size(st'.conns[i].outQ) <= LOW_MARK || (!env.established && st.conns[o].io.connected))
  {
    var o, r := st.conns[i].other.value, SendImpl(st, i, env.script, reason);
    var oc := st.conns[o];
    assert o in r.st.conns && i in r.st.conns && r.st.conns[o] == oc;
    var ic := r.st.conns[i];
    hide SendImpl, Size, SameLinks;
    var st' := Send(st, i, env, reason).st;
    Woken(oc);
    hide EnableRead;
    assert Loud(ic).outQ == ic.outQ;
    hide Disconnected, Loud;
    if oc.io.connected && !env.established {
      assert st' == Upd(Upd(r.st, o, EnableRead(Disconnected(oc))), i, Loud(ic));
    } else if Size(ic.outQ) <= LOW_MARK {
      assert st' == Upd(r.st, o, EnableRead(oc));
    }
  }

  lemma Woken(c: Conn)
    requires !c.io.enableRd
    ensures EnableRead(c).io.enableRd && EnableRead(c).io.wake
    ensures EnableRead(Disconnected(c)).io.enableRd && EnableRead(Disconnected(c)).io.wake
  {
  }

  // ---------------------------------------------------------------- what holds all along a run

  /** `good` holds in every state of the run, the first and the last included. */
  ghost predicate Always(good: State -> bool, st: State, evs: seq<Event>)
    requires Inv(st) && Legal(st, evs)
    decreases |evs|
  {
    good(st) && (evs == [] || (StepKeeps(st, evs[0]); Always(good, Step(st, evs[0]), evs[1..])))
  }

  /** No step of the run is `bad`. */
  ghost predicate Never(bad: (State, Event) -> bool, st: State, evs: seq<Event>)
    requires Inv(st) && Legal(st, evs)
    decreases |evs|
  {
    evs == [] || (!bad(st, evs[0]) && (StepKeeps(st, evs[0]); Never(bad, Step(st, evs[0]), evs[1..])))
  }

  /** If exactly the bad steps end a good time, a run is good all along exactly if it has no bad step. */
  lemma {:induction false} AlwaysIffNever(good: State -> bool, bad: (State, Event) -> bool, st: State, evs: seq<Event>)
    requires Inv(st) && Legal(st, evs) && good(st)
    requires forall s, ev :: Inv(s) && Enabled(s, ev) && good(s) ==> (good(Step(s, ev)) <==> !bad(s, ev))
    ensures Always(good, st, evs) <==> Never(bad, st, evs)
    decreases |evs|
  {
    if evs != [] {
      StepKeeps(st, evs[0]);
      assert good(Step(st, evs[0])) <==> !bad(st, evs[0]);
      if !bad(st, evs[0]) {
        AlwaysIffNever(good, bad, Step(st, evs[0]), evs[1..]);
      } else {
        NotAlways(good, Step(st, evs[0]), evs[1..]);
      }
    }
    hide Step, Inv, Enabled;
  }

  lemma NotAlways(good: State -> bool, st: State, evs: seq<Event>)
    requires Inv(st) && Legal(st, evs) && !good(st)
    ensures !Always(good, st, evs)
  {
  }

  // ---------------------------------------------------------------- handing over

  /** A connection in a worker's pipe is alive and unmatched, and only such a connection is nowhere attached. */
  lemma HandedOverAlive(evs: seq<Event>, i: Id)
    requires Legal(START, evs)
    requires i in After(START, evs).conns || i in After(START, evs).mail
    ensures var st := After(START, evs);
            && i in st.conns
            && (i in st.mail <==> !st.conns[i].io.attached)
            && (i in st.mail ==> st.conns[i].kind == IdleServer && st.conns[i].other == None && !st.conns[i].io.armed)
  {
    var st := After(START, evs);
    assert i in st.mail.Keys ==> i in st.conns.Keys;
    assert NodeOk(st, i);
  }

  /** A device's header is handed over, and in the same handler run its body ends or is refused. */
  ghost predicate Spoils(st: State, ev: Event) {
    && ev.ClientRead? && ev.item.ServerHeader?
    && ev.id in st.conns && st.conns[ev.id].other == None
    && HandsOver(st, ev.id, ev.item.dst, ev.env)
    && ev.item.hasBody && !ev.item.rest.Settled?
  }

  ghost predicate Unspoiled(st: State) {
    st.spoiled == 0
  }

  lemma SpoiledCount(st: State, ev: Event)
    requires Inv(st) && Enabled(st, ev)
    ensures Step(st, ev).spoiled == st.spoiled + if Spoils(st, ev) then 1 else 0
  {
    StepCarried(st, ev);
    assert Step(st, ev).spoiled == Wrote(st, ev).spoiled;
    hide Step, Carried, Inv;
    if ev.ClientRead? {
      InvPaired(st, ev.id);
      ItemSpoils(Upd(st, ev.id, Awake(st.conns[ev.id])), ev.id, ev.item, ev.env);
    }
  }

  lemma ItemSpoils(st: State, i: Id, item: Item, env: Env)
    requires Paired(st, i)
    ensures WroteItem(st, i, item, env).spoiled == st.spoiled +
            if item.ServerHeader? && st.conns[i].other == None && HandsOver(st, i, item.dst, env)
               && item.hasBody && !item.rest.Settled? then 1 else 0
  {
    if item.ServerHeader? && st.conns[i].other == None {
      var st1 := Upd(st, i, st.conns[i].(kind := IdleServer, devId := item.serverDev));
      ServerSpoils(st1, i, item.dst, item.hasBody, item.rest, env);
    } else if item.ClientHeader? {
      RequestSpoils(st, i, item.head, item.dev, env);
    } else {
      PageSpoils(st, i, env);
    }
    hide WroteServer, WroteRequest, WrotePage;
  }

  lemma PageSpoils(st: State, i: Id, env: Env)
    requires Safe(st, i)
    ensures WrotePage(st, i, env).spoiled == st.spoiled
  {
    hide PushOwn;
  }

  lemma RequestSpoils(st: State, i: Id, head: Bytes, dev: string, env: Env)
    requires Paired(st, i)
    ensures WroteRequest(st, i, head, dev, env).spoiled == st.spoiled
  {
    if !(st.conns[i].other.Some? && Same(st.conns[i].devId, dev)) {
      PageSpoils(NewRequest(st, i, head, dev, env).st, i, env);
    }
    hide Same, WrotePage, Push, Asked, Requested, Timed;
  }

  lemma ServerSpoils(st: State, s: Id, dst: Id, hasBody: bool, rest: Rest, env: Env)
    requires s in st.conns && st.conns[s].other == None
    ensures WroteServer(st, s, dst, hasBody, rest, env).spoiled == st.spoiled +
            if HandsOver(st, s, dst, env) && hasBody && !rest.Settled? then 1 else 0
  {
    var st1 := Upd(st, s, Detached(st.conns[s]));
    PageSpoils(st1, s, env);
    PageSpoils(st, s, env);
    if dst in st.conns {
      var st2 := Upd(st1, s, AtBody(st1.conns[s], hasBody)).(mail := st.mail[s := Letter(dst, st.conns[dst].host)]);
      PageSpoils(Spoiled(st2, s), s, env);
    }
    hide WrotePage, Greets, Greeted, Emptied, Taken;
  }

  /**
   No message about a connection outlives it, or is handled after the connection was registered again in its
   old worker, exactly if no handler that handed its connection over inside a body went on to the end of the
   stream or to a malformed chunk.
  */
  lemma HandOverIsSafeIff(evs: seq<Event>)
    requires Legal(START, evs)
    ensures Always(Unspoiled, START, evs) <==> Never(Spoils, START, evs)
  {
    forall s, ev | Inv(s) && Enabled(s, ev) && Unspoiled(s)
      ensures Unspoiled(Step(s, ev)) <==> !Spoils(s, ev)
    {
      SpoiledCount(s, ev);
    }
    AlwaysIffNever(Unspoiled, Spoils, START, evs);
  }

  // ---------------------------------------------------------------- the response timer

  /** The timer handler's first assertion, wherever it may be called next. */
  ghost predicate Peerless(st: State) {
    forall i :: i in st.conns && st.conns[i].io.armed ==> st.conns[i].other == None
  }

  /** `c` may become the server of the waiting client `d`. */
  ghost predicate MayLink(c: Conn, d: Conn, env: Env) {
    && d.kind == Client && d.host == c.host && d.other == None
    && Same(d.devId, c.devId) && d.io.timeout && Greets(c, d, env)
  }

  /** A client that waits with its timer pending becomes the server of another waiting client. */
  ghost predicate TimedMatch(st: State, ev: Event) {
    && ev.ClientRead? && ev.item.ServerHeader?
    && ev.id in st.conns && ev.item.dst in st.conns && ev.item.dst != ev.id
    && var c, d := st.conns[ev.id], st.conns[ev.item.dst];
       c.io.armed && c.other == None && MayLink(c.(devId := ev.item.serverDev), d, ev.env)
  }

  lemma PagePeerless(st: State, i: Id, env: Env)
    requires Safe(st, i) && Peerless(st)
    ensures Peerless(WrotePage(st, i, env))
  {
    hide Pending;
  }

  lemma HerePeerless(st: State, s: Id, dst: Id, env: Env)
    requires s in st.conns && st.conns[s].other == None && Peerless(st)
    requires !(st.conns[s].io.armed && dst in st.conns && dst != s && MayLink(st.conns[s], st.conns[dst], env))
    ensures Peerless(WroteHere(st, s, dst, env))
  {
    PagePeerless(st, s, env);
    hide Greets, Pending, WrotePage;
  }

  lemma ServerPeerless(st: State, i: Id, dev: string, dst: Id, hasBody: bool, rest: Rest, env: Env)
    requires i in st.conns && st.conns[i].other == None && Peerless(st)
    requires !TimedMatch(st, ClientRead(i, ServerHeader(dev, dst, hasBody, rest), env))
    ensures Peerless(WroteServer(Upd(st, i, st.conns[i].(kind := IdleServer, devId := dev)),
      i, dst, hasBody, rest, env))
  {
    hide Greets, Pending, WrotePage, WroteHere;
    var st1 := Upd(st, i, st.conns[i].(kind := IdleServer, devId := dev));
    GreetsSame(st.conns[i].(devId := dev), st1.conns[i], dst, st, env);
    if dst in st.conns && st.conns[dst].kind == Client && dst != i && st.conns[dst].host != st.conns[i].host {
      var st2 := Upd(st1, i, Detached(st1.conns[i]));
      PagePeerless(st2, i, env);
      var st3 := Upd(st2, i, AtBody(st2.conns[i], hasBody)).(mail := st.mail[i := Letter(dst, st.conns[dst].host)]);
      assert Peerless(st3);
      PagePeerless(Spoiled(st3, i), i, env);
    } else {
      HerePeerless(st1, i, dst, env);
    }
  }

  lemma ItemPeerless(st: State, i: Id, item: Item, env: Env)
    requires Paired(st, i) && Peerless(st) && !TimedMatch(st, ClientRead(i, item, env))
    requires !Stray(st.conns[i])
    ensures Peerless(WroteItem(st, i, item, env))
  {
    hide Greets, Pending, WrotePage;
    match item
    case Again =>
    case Ended =>
    case Partial =>
    case Malformed => PagePeerless(st, i, env);
    case Special(response, _) =>
    case ClientHeader(head, dev, _) =>
      if !(st.conns[i].other.Some? && Same(st.conns[i].devId, dev)) {
        var r := NewRequest(st, i, head, dev, env);
        assert Peerless(r.st);
        PagePeerless(r.st, i, env);
      }
    case ServerHeader(dev, dst, hasBody, rest) =>
      PagePeerless(st, i, env);
      if st.conns[i].other == None { ServerPeerless(st, i, dev, dst, hasBody, rest, env); }
      hide WroteServer;
    case Body(data, _) =>
  }

  lemma GreetsSame(c: Conn, c': Conn, dst: Id, st: State, env: Env)
    requires c'.outQ == c.outQ && c'.io.closing == c.io.closing
    ensures dst in st.conns ==> Greets(c', st.conns[dst], env) == Greets(c, st.conns[dst], env)
  {
  }

  lemma WrotePeerless(st: State, ev: Event)
    requires Inv(st) && Enabled(st, ev) && Peerless(st) && !TimedMatch(st, ev)
    ensures Peerless(Wrote(st, ev))
  {
    match ev
    case Accept(i, w) =>
    case ClientRead(i, item, env) =>
      InvPaired(st, i);
      assert NodeOk(st, i);
      var st0 := Upd(st, i, Awake(st.conns[i]));
      AwakeTimed(st, i, item, env);
      hide Inv, WroteItem, TimedMatch;
      ItemPeerless(st0, i, item, env);
    case ServerRead(i, chunk, env) =>
      InvPaired(st, i);
    case Writable(_, _) =>
    case Timer(i, env) =>
      InvPaired(st, i);
      PagePeerless(Upd(st, i, Fired(st.conns[i])), i, env);
    case Idle(_) =>
    case Deliver(i, env) =>
      assert NodeOk(st, i);
      HerePeerless(st.(conns := st.conns[i := Attached(st.conns[i], st.mail[i].worker)], mail := st.mail - {i}),
        i, st.mail[i].dst, env);
  }

  lemma AwakeTimed(st: State, i: Id, item: Item, env: Env)
    requires i in st.conns
    ensures TimedMatch(Upd(st, i, Awake(st.conns[i])), ClientRead(i, item, env))
      == TimedMatch(st, ClientRead(i, item, env))
  {
    if item.ServerHeader? { GreetsSame(st.conns[i], Awake(st.conns[i]), item.dst, st, env); }
    hide Greets;
  }

  /** After a timed match the new server's timer is still pending. */
  lemma TimedMatchFails(st: State, ev: Event)
    requires Inv(st) && Enabled(st, ev) && TimedMatch(st, ev)
    ensures !Peerless(Step(st, ev))
  {
    var i, item, env := ev.id, ev.item, ev.env;
    InvPaired(st, i);
    assert NodeOk(st, i) && NodeOk(st, item.dst);
    var st0 := Upd(st, i, Awake(st.conns[i]));
    TimedReads(st0, i, item, env);
    hide Inv, ServerUri, Size, TimedMatch, Finish, ReadsOn;
    assert Step(st, ev) == ReadsOn(Finish(ServerUri(st0, i, item.serverDev, item.dst, env), i, item.hasBody, env),
      i, item.rest, env);
    hide Step;
  }

  lemma TimedReads(st: State, i: Id, item: Item, env: Env)
    requires i in st.conns && i !in st.mail && TimedMatch(st, ClientRead(i, item, env))
    ensures var r := Finish(ServerUri(st, i, item.serverDev, item.dst, env), i, item.hasBody, env);
            i in r.conns && var st' := ReadsOn(r, i, item.rest, env);
            i in st'.conns && st'.conns[i].other.Some? && st'.conns[i].io.armed
  {
    TimedLinks(st, i, item, env);
    hide ServerUri, Size, TimedMatch;
    var r := Finish(ServerUri(st, i, item.serverDev, item.dst, env), i, item.hasBody, env);
    assert i in r.conns && r.conns[i].other.Some? && r.conns[i].io.armed;
    hide Finish;
  }

  lemma TimedLinks(st: State, i: Id, item: Item, env: Env)
    requires i in st.conns && i !in st.mail && TimedMatch(st, ClientRead(i, item, env))
    ensures var r := ServerUri(st, i, item.serverDev, item.dst, env);
            r.Done? && i in r.st.conns && r.st.conns[i].other.Some? && r.st.conns[i].io.armed
  {
    var dst := item.dst;
    var st1 := Upd(st, i, st.conns[i].(kind := IdleServer, devId := item.serverDev));
    GreetsSame(st.conns[i].(devId := item.serverDev), st1.conns[i], dst, st, env);
    hide Greets, Greeted;
    MatchDoneIff(st1, i, dst, env);
    MatchLinks(st1, i, dst, env);
    hide Match;
    assert ServerUri(st, i, item.serverDev, dst, env) == Match(st1, i, dst, env);
  }

  lemma MatchLinks(st: State, s: Id, c: Id, env: Env)
    requires s in st.conns && c in st.conns && s != c
    requires st.conns[s].other == None && st.conns[c].other == None
    requires Match(st, s, c, env).Done?
    ensures var r := Match(st, s, c, env).st;
            s in r.conns && r.conns[s].other == Some(c)
              && r.conns[s].io.armed == st.conns[s].io.armed && r.mail == st.mail
  {
    var st1 := Upd(Upd(st, c, Emptied(st.conns[c])), s, Greeted(st.conns[s], env.ok, st.conns[c].inQ));
    ImplCarried(st1, s, env.script, SelfWrite);
    hide SendImpl, Emptied, Taken, Pending;
  }

  /**
   The assertion that a connection whose timer goes off has no peer holds in every state of a run exactly if no
   step is a timed match.
  */
  lemma TimerPeerlessIff(evs: seq<Event>)
    requires Legal(START, evs)
    ensures Always(Peerless, START, evs) <==> Never(TimedMatch, START, evs)
  {
    forall s, ev | Inv(s) && Enabled(s, ev) && Peerless(s)
      ensures Peerless(Step(s, ev)) <==> !TimedMatch(s, ev)
    {
      if TimedMatch(s, ev) {
        TimedMatchFails(s, ev);
      } else {
        WrotePeerless(s, ev);
        StepCarried(s, ev);
      }
    }
    AlwaysIffNever(Peerless, TimedMatch, START, evs);
  }

  /**
   The handler's second assertion, wherever it may be called next; and no deleted connection has left its timer
   behind.
  */
  ghost predicate Flagged(st: State) {
    st.stray == 0 && forall i :: i in st.conns ==> !Stray(st.conns[i])
  }

  /** The timer of a new request is armed, but the device cannot be asked. */
  ghost predicate AskFails(st: State, ev: Event) {
    && ev.ClientRead? && ev.item.ClientHeader?
    && ev.id in st.conns
    && !(st.conns[ev.id].other.Some? && Same(st.conns[ev.id].devId, ev.item.dev))
    && ev.env.timerOk && !ev.env.askOk
  }

  lemma PageFlagged(st: State, i: Id, env: Env)
    requires Safe(st, i) && Flagged(st)
    ensures Flagged(WrotePage(st, i, env))
  {
    hide Pending;
  }

  lemma HereFlagged(st: State, s: Id, dst: Id, env: Env)
    requires s in st.conns && st.conns[s].other == None && Flagged(st)
    ensures Flagged(WroteHere(st, s, dst, env))
  {
    PageFlagged(st, s, env);
    if dst in st.conns {
      var sc, cc := st.conns[s], st.conns[dst];
      assert !Stray(Taken(cc, s)) && !Stray(Emptied(cc));
      assert !Stray(Greeted(sc, env.ok, cc.inQ))
        && !Stray(Greeted(sc, env.ok, cc.inQ).(kind := BusyServer, other := Some(dst)));
    }
    hide Greets, Pending, WrotePage, Taken, Emptied, Greeted, Stray;
  }

  lemma ServerFlagged(st: State, i: Id, dev: string, dst: Id, hasBody: bool, rest: Rest, env: Env)
    requires i in st.conns && st.conns[i].other == None && Flagged(st)
    ensures Flagged(WroteServer(Upd(st, i, st.conns[i].(kind := IdleServer, devId := dev)), i, dst, hasBody, rest, env))
  {
    hide Pending, WrotePage, WroteHere;
    var st1 := Upd(st, i, st.conns[i].(kind := IdleServer, devId := dev));
    if dst in st.conns && st.conns[dst].kind == Client && dst != i && st.conns[dst].host != st.conns[i].host {
      var st2 := Upd(st1, i, Detached(st1.conns[i]));
      PageFlagged(st2, i, env);
      var st3 := Upd(st2, i, AtBody(st2.conns[i], hasBody)).(mail := st.mail[i := Letter(dst, st.conns[dst].host)]);
      assert Flagged(st3);
      PageFlagged(Spoiled(st3, i), i, env);
    } else {
      HereFlagged(st1, i, dst, env);
    }
  }

  lemma ItemFlagged(st: State, i: Id, item: Item, env: Env)
    requires Paired(st, i) && Flagged(st) && !AskFails(st, ClientRead(i, item, env))
    ensures Flagged(WroteItem(st, i, item, env))
  {
    PageFlagged(st, i, env);
    hide Greets, Pending, WrotePage;
    match item
    case Again =>
    case Ended =>
    case Partial =>
    case Malformed =>
    case Special(response, _) =>
    case ClientHeader(head, dev, _) =>
      if !(st.conns[i].other.Some? && Same(st.conns[i].devId, dev)) {
        var r := NewRequest(st, i, head, dev, env);
        assert Flagged(r.st);
        PageFlagged(r.st, i, env);
      }
    case ServerHeader(dev, dst, hasBody, rest) =>
      PageFlagged(st, i, env);
      if st.conns[i].other == None { ServerFlagged(st, i, dev, dst, hasBody, rest, env); }
      hide WroteServer;
    case Body(data, _) =>
  }

  lemma WroteFlagged(st: State, ev: Event)
    requires Inv(st) && Enabled(st, ev) && Flagged(st) && !AskFails(st, ev)
    ensures Flagged(Wrote(st, ev))
  {
    match ev
    case Accept(i, w) =>
    case ClientRead(i, item, env) =>
      InvPaired(st, i);
      ItemFlagged(Upd(st, i, Awake(st.conns[i])), i, item, env);
      hide Inv, WroteItem;
    case ServerRead(i, chunk, env) =>
      InvPaired(st, i);
    case Writable(_, _) =>
    case Timer(i, env) =>
      InvPaired(st, i);
      PageFlagged(Upd(st, i, Fired(st.conns[i])), i, env);
    case Idle(_) =>
    case Deliver(i, env) =>
      assert NodeOk(st, i);
      HereFlagged(st.(conns := st.conns[i := Attached(st.conns[i], st.mail[i].worker)], mail := st.mail - {i}),
        i, st.mail[i].dst, env);
  }

  /** After a failed request the timer is pending without its flag, or was left behind by the deleted connection. */
  lemma AskFailsStray(st: State, ev: Event)
    requires Inv(st) && Enabled(st, ev) && AskFails(st, ev)
    ensures !Flagged(Step(st, ev))
  {
    var i := ev.id;
    InvPaired(st, i);
    assert NodeOk(st, i);
    StepCarried(st, ev);
    hide Step, Inv;
    var w := Wrote(st, ev);
    assert i in w.conns && Stray(w.conns[i]);
    assert i in Step(st, ev).conns ==> Kept(w.conns[i], Step(st, ev).conns[i]);
  }

  /**
   The assertion that a connection whose timer goes off has its flag set holds in every state of a run, and
   no connection is ever deleted with its timer pending, exactly if the device could be asked whenever the
   timer had been armed.
  */
  lemma TimerFlaggedIff(evs: seq<Event>)
    requires Legal(START, evs)
    ensures Always(Flagged, START, evs) <==> Never(AskFails, START, evs)
  {
    forall s, ev | Inv(s) && Enabled(s, ev) && Flagged(s)
      ensures Flagged(Step(s, ev)) <==> !AskFails(s, ev)
    {
      if AskFails(s, ev) {
        AskFailsStray(s, ev);
      } else {
        WroteFlagged(s, ev);
        StepCarried(s, ev);
      }
    }
    AlwaysIffNever(Flagged, AskFails, START, evs);
  }
}
