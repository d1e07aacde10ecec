/**
 What a step writes and what it leaves alone.  Sending, closing, throttling and waking put nothing into a
 queue and touch no timer; so all that a step adds to queues, timers and links is in the state `Wrote`, and
 what follows it only sends, unlinks and deletes.
*/
module RelaySteps {
  import opened Chunks
  import opened Relay
  import opened RelayInvariant

  /** `c'` is `c` after sending, waking, unlinking and the like: given nothing, its timer as it was. */
  ghost predicate Kept(c: Conn, c': Conn) {
    && c'.io.armed == c.io.armed && c'.io.timeout == c.io.timeout
    && c'.io.attached == c.io.attached && c'.io.reading == c.io.reading
    && (c.io.closing ==> c'.io.closing)
    && c'.log.pushed == c.log.pushed
    && (c'.other == c.other || c'.other == None)
    && (c'.kind == Client <==> c.kind == Client)
  }

  /** From `st` to `st'` connections were only kept or deleted; those in `loud` may have lost the `quiet` flag. */
  ghost predicate Carried(st: State, st': State, loud: set<Id>) {
    && (forall j :: j in st'.conns ==>
          j in st.conns && Kept(st.conns[j], st'.conns[j])
          && (j !in loud ==> st'.conns[j].log.quiet == st.conns[j].log.quiet))
    && st'.mail == st.mail && st'.spoiled == st.spoiled
    && StrayKept(st, st')
  }

  /** The count of stray timers grows exactly if a connection with such a timer is deleted. */
  ghost predicate StrayKept(st: State, st': State) {
    && st.stray <= st'.stray
    && ((forall j :: j in st.conns ==> !Stray(st.conns[j])) ==> st'.stray == st.stray)
    && (forall j :: j in st.conns && Stray(st.conns[j]) && j !in st'.conns ==> st.stray < st'.stray)
  }

  lemma Chain(a: State, b: State, c: State, loud: set<Id>)
    requires Carried(a, b, loud) && Carried(b, c, loud)
    ensures Carried(a, c, loud)
  {
  }

  lemma Louder(a: State, b: State, loud: set<Id>, loud': set<Id>)
    requires Carried(a, b, loud) && loud <= loud'
    ensures Carried(a, b, loud')
  {
  }

  lemma UpdCarried(st: State, i: Id, c: Conn, loud: set<Id>)
    requires i in st.conns && Kept(st.conns[i], c) && (i !in loud ==> c.log.quiet == st.conns[i].log.quiet)
    ensures Carried(st, Upd(st, i, c), loud)
  {
  }

  lemma DelCarried(st: State, i: Id)
    ensures Carried(st, Del(st, i), {})
  {
  }

  /** Whom a send at `i` may make loud. */
  ghost function Loudness(st: State, i: Id, env: Env): set<Id>
    requires i in st.conns
  {
    if env.established then {} else Pair(st, i)
  }

  lemma ImplCarried(st: State, i: Id, script: seq<SendResult>, reason: Reason)
    requires i in st.conns
    ensures var r := SendImpl(st, i, script, reason).st;
            Carried(st, r, {}) && r == Upd(st, i, r.conns[i])
  {
    hide Carried, SendImpl, Kept;
    ImplKept(st, i, script, reason);
    UpdCarried(st, i, SendImpl(st, i, script, reason).st.conns[i], {});
  }

  lemma ImplKept(st: State, i: Id, script: seq<SendResult>, reason: Reason)
    requires i in st.conns
    ensures var r := SendImpl(st, i, script, reason).st;
            r == Upd(st, i, r.conns[i]) && Kept(st.conns[i], r.conns[i])
              && r.conns[i].log.quiet == st.conns[i].log.quiet
  {
    hide Drain;
  }

  lemma WokenKept(c: Conn)
    ensures Kept(c, EnableRead(c)) && EnableRead(c).log.quiet == c.log.quiet && Kept(c, Loud(c))
  {
  }

  lemma LostKept(c: Conn)
    ensures Kept(c, EnableRead(Disconnected(c)))
  {
  }

  /** The peer reads again, both ends may have become loud. */
  lemma WokenCarried(st: State, i: Id, o: Id)
    requires i in st.conns && o in st.conns && o != i
    ensures Carried(st, Upd(st, o, EnableRead(st.conns[o])), {})
    ensures Carried(st, Upd(Upd(st, o, EnableRead(Disconnected(st.conns[o]))), i, Loud(st.conns[i])), {i, o})
  {
    var oc := st.conns[o];
    var st1 := Upd(st, o, EnableRead(Disconnected(oc)));
    WokenKept(oc);
    LostKept(oc);
    WokenKept(st.conns[i]);
    hide Kept, EnableRead, Disconnected, Loud;
    UpdCarried(st, o, EnableRead(oc), {});
    UpdCarried(st, o, EnableRead(Disconnected(oc)), {i, o});
    UpdCarried(st1, i, Loud(st1.conns[i]), {i, o});
    hide Carried;
    Chain(st, st1, Upd(st1, i, Loud(st1.conns[i])), {i, o});
  }

  lemma SendCarried(st: State, i: Id, env: Env, reason: Reason)
    requires Safe(st, i)
    ensures Carried(st, Send(st, i, env, reason).st, Loudness(st, i, env))
  {
    var loud := Loudness(st, i, env);
    var r := SendImpl(st, i, env.script, reason);
    ImplCarried(st, i, env.script, reason);
    hide SendImpl, Size, EnableRead, Kept, Disconnected, Loud;
    Louder(st, r.st, {}, loud);
    if r.Done? && st.conns[i].other.Some? {
      var o := st.conns[i].other.value;
      WokenCarried(r.st, i, o);
      var st' := Send(st, i, env, reason).st;
      assert st' == r.st || st' == Upd(r.st, o, EnableRead(r.st.conns[o]))
             || (!env.established
                  && st' == Upd(Upd(r.st, o, EnableRead(Disconnected(r.st.conns[o]))), i, Loud(r.st.conns[i])));
      hide Carried, Send;
      if st' != r.st {
        Louder(r.st, st', if st' == Upd(r.st, o, EnableRead(r.st.conns[o])) then {} else {i, o}, loud);
        Chain(st, r.st, st', loud);
      }
    }
  }

  lemma UnlinkKept(c: Conn)
    ensures Kept(c, Unlink(c)) && Unlink(c).log.quiet == c.log.quiet
    ensures Kept(c, Closing(Unlink(c))) && Closing(Unlink(c)).log.quiet == c.log.quiet
  {
  }

  lemma CloseCarried(st: State, i: Id, reason: Reason, env: Env)
    requires Safe(st, i)
    ensures Carried(st, Close(st, i, reason, env), {})
  {
    hide Carried, Send, Kept, Unlink, Closing;
    var st' := Close(st, i, reason, env);
    Unchanged(st, {});
    DelCarried(st, i);
    if st.conns[i].other.Some? {
      var o, c := st.conns[i].other.value, st.conns[i];
      var st1 := Upd(st, o, Unlink(st.conns[o]));
      UnlinkKept(st.conns[o]);
      UpdCarried(st, o, Unlink(st.conns[o]), {});
      CloseReadCarried(st, i, o, env);
      assert reason == IdleTimeout ==> st' == if c.kind == Client then st else Del(st1, i);
      assert reason == SelfRead && !(c.kind == Client && c.io.inBody) ==> Carried(st, st', {});
      assert (reason == SelfRead && c.kind == Client && c.io.inBody) || reason == SelfWrite || reason == OtherWrite
             ==> st' == Del(Del(st, o), i);
      hide Close, Del;
      DelCarried(st, o);
      DelCarried(Del(st, o), i);
      DelCarried(st1, i);
      Chain(st, Del(st, o), Del(Del(st, o), i), {});
      Chain(st, st1, Del(st1, i), {});
    }
  }

  lemma Unchanged(st: State, loud: set<Id>)
    ensures Carried(st, st, loud)
  {
  }

  lemma CloseReadCarried(st: State, i: Id, o: Id, env: Env)
    requires Safe(st, i) && st.conns[i].other == Some(o)
    ensures var r := Send(Upd(st, o, Closing(Unlink(st.conns[o]))), o, env, SelfWrite);
            Carried(st, Del(if r.Done? then r.st else Del(r.st, o), i), {})
  {
    var st1 := Upd(st, o, Closing(Unlink(st.conns[o])));
    UnlinkKept(st.conns[o]);
    UpdCarried(st, o, Closing(Unlink(st.conns[o])), {});
    ImplCarried(st1, o, env.script, SelfWrite);
    var r := Send(st1, o, env, SelfWrite);
    assert r == SendImpl(st1, o, env.script, SelfWrite);
    hide Carried, Send, SendImpl;
    Chain(st, st1, r.st, {});
    DelCarried(r.st, o);
    Chain(st, r.st, Del(r.st, o), {});
    var st2 := if r.Done? then r.st else Del(r.st, o);
    DelCarried(st2, i);
    Chain(st, st2, Del(st2, i), {});
  }

  /** A send and the catch clause of another or the same handler. */
  lemma SentCarried(st: State, o: Id, i: Id, env: Env, reason: Reason, loud: set<Id>)
    requires Safe(st, o) && Safe(Send(st, o, env, reason).st, i) && Loudness(st, o, env) <= loud
    ensures Carried(st, Catch(Send(st, o, env, reason), i, env), loud)
  {
    SendCarried(st, o, env, reason);
    var r := Send(st, o, env, reason);
    Louder(st, r.st, Loudness(st, o, env), loud);
    hide Carried, Send;
    if r.IoError? {
      CloseCarried(r.st, i, r.reason, env);
      Louder(r.st, Close(r.st, i, r.reason, env), {}, loud);
      Chain(st, r.st, Close(r.st, i, r.reason, env), loud);
    }
  }

  lemma ThrottleCarried(st: State, i: Id)
    ensures Carried(st, Throttle(st, i), {})
  {
    hide Size;
  }

  /** What follows a piece of input that was handled without an exception. */
  lemma FinishCarried(r: Result, i: Id, inBody: bool, env: Env, loud: set<Id>)
    requires Safe(r.st, i) && !r.HttpError?
    ensures Carried(r.st, Finish(r, i, inBody, env), loud)
  {
    if r.Done? {
      var c := AtBody(r.st.conns[i], inBody);
      UpdCarried(r.st, i, c, {});
      ThrottleCarried(Upd(r.st, i, c), i);
      Chain(r.st, Upd(r.st, i, c), Throttle(Upd(r.st, i, c), i), {});
    } else {
      CloseCarried(r.st, i, r.reason, env);
    }
    Louder(r.st, Finish(r, i, inBody, env), {}, loud);
    hide Carried;
  }

  // ---------------------------------------------------------------- error pages

  /** What send_error writes: the page, unless its write event cannot be added. */
  ghost function WrotePage(st: State, i: Id, env: Env): (st': State)
    requires Safe(st, i)
    ensures SameLinks(st, st')
  {
    if !st.conns[i].io.attached && !env.eventOk then st else Paged(st, i, env.error)
  }

  lemma SendErrorCarried(st: State, i: Id, env: Env, loud: set<Id>)
    requires Safe(st, i) && Loudness(st, i, env) <= loud
    ensures Carried(WrotePage(st, i, env), SendError(st, i, env), loud)
  {
    if !st.conns[i].io.attached && !env.eventOk {
      CloseCarried(st, i, SelfWrite, env);
      Louder(st, SendError(st, i, env), {}, loud);
    } else {
      SentCarried(Paged(st, i, env.error), i, i, env, SelfWrite, loud);
    }
    hide Carried, Paged, Send, Close;
  }

  // ---------------------------------------------------------------- matching

  /** The server's greeting goes out, or waits: the socket is not broken, nor was it to be closed. */
  ghost predicate Greets(sc: Conn, cc: Conn, env: Env) {
    var outcome := Drain(sc.outQ + [Chunk(env.ok, 0)] + cc.inQ, env.script).outcome;
    outcome == Blocked || (outcome == Drained && !sc.io.closing)
  }

  ghost function Linked(st: State, s: Id, c: Id, env: Env): State
    requires s in st.conns && c in st.conns
  {
    var sc, cc := st.conns[s], st.conns[c];
    Upd(Upd(st, c, Taken(cc, s)), s, Greeted(sc, env.ok, cc.inQ).(kind := BusyServer, other := Some(c)))
  }

  /** What match writes: nothing but an error page, or two linked ends, or a greeting that did not go out. */
  ghost function WroteMatch(st: State, s: Id, c: Id, env: Env): State
    requires s in st.conns && c in st.conns && s != c
    requires st.conns[s].other == None && st.conns[c].other == None
  {
    var sc, cc := st.conns[s], st.conns[c];
    if !cc.io.timeout then WrotePage(st, s, env)
    else if Greets(sc, cc, env) then Linked(st, s, c, env)
    else Upd(Upd(st, c, Emptied(cc)), s, Greeted(sc, env.ok, cc.inQ))
  }

  lemma MatchDoneIff(st: State, s: Id, c: Id, env: Env)
    requires s in st.conns && c in st.conns && s != c
    requires st.conns[s].other == None && st.conns[c].other == None && st.conns[s].kind != BusyServer
    ensures var r := Match(st, s, c, env);
            && (r.Done? <==> st.conns[c].io.timeout && Greets(st.conns[s], st.conns[c], env))
            && (r.HttpError? <==> !st.conns[c].io.timeout)
            && (r.HttpError? ==> r.st == st)
  {
    hide Drain, Pending;
  }

  lemma MatchCarried(st: State, s: Id, c: Id, env: Env)
    requires s in st.conns && c in st.conns && s != c
    requires st.conns[s].other == None && st.conns[c].other == None && st.conns[s].kind == IdleServer
    requires st.conns[c].kind == Client && st.conns[c].io.timeout
    ensures Carried(WroteMatch(st, s, c, env), Match(st, s, c, env).st, {})
  {
    var sc, cc := st.conns[s], st.conns[c];
    var st1 := Upd(Upd(st, c, Emptied(cc)), s, Greeted(sc, env.ok, cc.inQ));
    MatchDoneIff(st, s, c, env);
    ImplCarried(st1, s, env.script, SelfWrite);
    var r := SendImpl(st1, s, env.script, SelfWrite).st;
    hide SendImpl, Greets, Greeted, Emptied, Taken;
    var s2 := r.conns[s].(kind := BusyServer, other := Some(c));
    assert r == Upd(st1, s, r.conns[s]) && Carried(st1, r, {});
    if Greets(sc, cc, env) {
      assert Match(st, s, c, env).st == Upd(Upd(r, c, Taken(cc, s)), s, s2);
      UpdCarried(Linked(st, s, c, env), s, s2, {});
      hide Carried;
      assert Upd(Linked(st, s, c, env), s, s2).conns == Match(st, s, c, env).st.conns;
    } else {
      assert Match(st, s, c, env).st == r;
    }
    hide Match;
  }

  /** The client named in a device's header lives in another worker, whose pipe takes the message. */
  ghost predicate HandsOver(st: State, s: Id, dst: Id, env: Env)
    requires s in st.conns
  {
    dst in st.conns && st.conns[dst].kind == Client && dst != s
      && st.conns[dst].host != st.conns[s].host && env.notifyOk
  }

  /** What looking for the client in one's own worker comes to. */
  ghost function WroteHere(st: State, s: Id, dst: Id, env: Env): State
    requires s in st.conns && st.conns[s].other == None
  {
    if dst !in st.conns || st.conns[dst].kind != Client || dst == s || st.conns[dst].host != st.conns[s].host
       || st.conns[dst].other.Some? || !Same(st.conns[dst].devId, st.conns[s].devId)
    then WrotePage(st, s, env)
    else WroteMatch(st, s, dst, env)
  }

  /** The same in all workers. */
  ghost function WroteServer(st: State, s: Id, dst: Id, hasBody: bool, rest: Rest, env: Env): State
    requires s in st.conns && st.conns[s].other == None
  {
    if dst in st.conns && st.conns[dst].kind == Client && dst != s && st.conns[dst].host != st.conns[s].host then
      var st1 := Upd(st, s, Detached(st.conns[s]));
      if env.notifyOk then
        var st2 := Upd(st1, s, AtBody(st1.conns[s], hasBody)).(mail := st.mail[s := Letter(dst, st.conns[dst].host)]);
        if hasBody then WroteRest(st2, s, rest, env) else st2
      else WrotePage(st1, s, env)
    else WroteHere(st, s, dst, env)
  }

  ghost function WroteRest(st: State, s: Id, rest: Rest, env: Env): State
    requires s in st.conns && st.conns[s].other == None
  {
    match rest
    case Settled(data) => st
    case Dropped => Spoiled(st, s)
    case Refused => WrotePage(Spoiled(st, s), s, env)
  }

  ghost function WroteRequest(st: State, i: Id, head: Bytes, dev: string, env: Env): State
    requires Paired(st, i)
  {
    if st.conns[i].other.Some? && Same(st.conns[i].devId, dev) then Queued(st, i, head)
    else
      var r := NewRequest(st, i, head, dev, env);
      if r.Done? then r.st else WrotePage(r.st, i, env)
  }

  /** What a piece of a client's input adds to queues, timers and links. */
  ghost function WroteItem(st: State, i: Id, item: Item, env: Env): State
    requires Paired(st, i)
  {
    match item
    case Again => st
    case Ended => st
    case Partial => st
    case Malformed => WrotePage(st, i, env)
    case Special(response, _) => Answered(st, i, response)
    case ClientHeader(head, dev, _) => WroteRequest(st, i, head, dev, env)
    case ServerHeader(dev, dst, hasBody, rest) =>
      if st.conns[i].other.Some? then WrotePage(st, i, env)
      else WroteServer(Upd(st, i, st.conns[i].(kind := IdleServer, devId := dev)), i, dst, hasBody, rest, env)
    case Body(data, _) => if st.conns[i].other.Some? then Queued(st, i, data) else st
  }

  ghost function WroteChunk(st: State, i: Id, chunk: Chunked): State
    requires Paired(st, i)
  {
    if st.conns[i].other == None || !chunk.ServerData? then st
    else
      var o := st.conns[i].other.value;
      Upd(Upd(st, i, Delivered(st.conns[i], chunk.data)), o, Push(st.conns[o], chunk.data))
  }

  /** What a step adds to queues, timers and links. */
  ghost function Wrote(st: State, ev: Event): State
    requires Inv(st) && Enabled(st, ev)
  {
    match ev
    case Accept(i, w) => Upd(st, i, NewConn(w))
    case ClientRead(i, item, env) => InvPaired(st, i); WroteItem(Upd(st, i, Awake(st.conns[i])), i, item, env)
    case ServerRead(i, chunk, env) => InvPaired(st, i); WroteChunk(st, i, chunk)
    case Writable(_, _) => st
    case Timer(i, env) => InvPaired(st, i); WrotePage(Upd(st, i, Fired(st.conns[i])), i, env)
    case Idle(_) => st
    case Deliver(i, env) =>
      assert NodeOk(st, i);
      WroteHere(st.(conns := st.conns[i := Attached(st.conns[i], st.mail[i].worker)], mail := st.mail - {i}),
        i, st.mail[i].dst, env)
  }

  /** The connections whose peer's socket state the step looks at, if one is no longer established. */
  ghost function Watched(st: State, ev: Event): set<Id>
    requires Inv(st) && Enabled(st, ev)
  {
    match ev
    case Accept(_, _) => {}
    case ClientRead(i, _, env) => Loudness(st, i, env)
    case ServerRead(i, _, env) => Loudness(st, i, env)
    case Writable(i, env) => Loudness(st, i, env)
    case Timer(i, env) => Loudness(st, i, env)
    case Idle(_) => {}
    case Deliver(i, env) => Loudness(st, i, env)
  }

  // ---------------------------------------------------------------- what follows it

  /** Matching in one's own worker, up to the end of the handler that tried. */
  lemma HereCarried(st: State, s: Id, dst: Id, hasBody: bool, env: Env, loud: set<Id>)
    requires s in st.conns && st.conns[s].other == None && st.conns[s].kind == IdleServer
    requires Loudness(st, s, env) <= loud
    ensures var r, st' := MatchHere(st, s, dst, env), WroteHere(st, s, dst, env);
            && Carried(st', Finish(r, s, hasBody, env), loud)
            && Carried(st', Catch(r, s, env), loud)
  {
    var r := MatchHere(st, s, dst, env);
    if dst !in st.conns || st.conns[dst].kind != Client || dst == s || st.conns[dst].host != st.conns[s].host
       || st.conns[dst].other.Some? || !Same(st.conns[dst].devId, st.conns[s].devId) {
      SendErrorCarried(st, s, env, loud);
    } else {
      MatchDoneIff(st, s, dst, env);
      hide Match, Carried, WrotePage, SendError, Greets;
      if !st.conns[dst].io.timeout {
        assert r == HttpError(st);
        SendErrorCarried(st, s, env, loud);
      } else {
        var st' := WroteMatch(st, s, dst, env);
        MatchCarried(st, s, dst, env);
        Louder(st', r.st, {}, loud);
        AfterCarried(st', r, s, hasBody, env, loud);
      }
    }
  }

  /** A call that has been carried out, and what its handler does after it. */
  lemma AfterCarried(st': State, r: Result, i: Id, inBody: bool, env: Env, loud: set<Id>)
    requires Safe(r.st, i) && !r.HttpError? && Carried(st', r.st, loud)
    ensures Carried(st', Finish(r, i, inBody, env), loud) && Carried(st', Catch(r, i, env), loud)
  {
    hide Carried;
    FinishCarried(r, i, inBody, env, loud);
    Chain(st', r.st, Finish(r, i, inBody, env), loud);
    if r.IoError? {
      CloseCarried(r.st, i, r.reason, env);
      Louder(r.st, Close(r.st, i, r.reason, env), {}, loud);
      Chain(st', r.st, Catch(r, i, env), loud);
    }
  }

  lemma RestCarried(st: State, s: Id, rest: Rest, env: Env, loud: set<Id>)
    requires s in st.conns && st.conns[s].other == None && s in st.mail && st.conns[s].io.inBody
    requires Loudness(st, s, env) <= loud
    ensures Carried(WroteRest(st, s, rest, env), ReadsOn(st, s, rest, env), loud)
  {
    match rest
    case Settled(data) =>
      if data != [] { UpdCarried(st, s, Requested(st.conns[s], data), loud); }
    case Dropped =>
      CloseCarried(Spoiled(st, s), s, SelfRead, env);
      Louder(Spoiled(st, s), ReadsOn(st, s, rest, env), {}, loud);
    case Refused =>
      SendErrorCarried(Spoiled(st, s), s, env, loud);
      hide Carried, SendError, WrotePage;
  }

  lemma ServerCarried(st: State, s: Id, dst: Id, hasBody: bool, rest: Rest, env: Env, loud: set<Id>)
    requires s in st.conns && st.conns[s].other == None && st.conns[s].kind == IdleServer && s !in st.mail
    requires Loudness(st, s, env) <= loud
    ensures Carried(WroteServer(st, s, dst, hasBody, rest, env),
                    ReadsOn(Finish(MatchClient(st, s, dst, env), s, hasBody, env), s, rest, env), loud)
  {
    if dst in st.conns && st.conns[dst].kind == Client && dst != s && st.conns[dst].host != st.conns[s].host {
      LetterCarried(st, s, dst, hasBody, rest, env, loud);
    } else {
      HereCarried(st, s, dst, hasBody, env, loud);
      assert MatchClient(st, s, dst, env) == MatchHere(st, s, dst, env);
      hide Carried, Finish, WroteHere, MatchHere;
      NoLetter(Finish(MatchClient(st, s, dst, env), s, hasBody, env), s, rest, env);
    }
  }

  lemma LetterCarried(st: State, s: Id, dst: Id, hasBody: bool, rest: Rest, env: Env, loud: set<Id>)
    requires s in st.conns && st.conns[s].other == None && s !in st.mail
    requires dst in st.conns && st.conns[dst].kind == Client && dst != s && st.conns[dst].host != st.conns[s].host
    requires Loudness(st, s, env) <= loud
    ensures Carried(WroteServer(st, s, dst, hasBody, rest, env),
                    ReadsOn(Finish(MatchClient(st, s, dst, env), s, hasBody, env), s, rest, env), loud)
  {
    var r := MatchClient(st, s, dst, env);
    var f := Finish(r, s, hasBody, env);
    var st1 := Upd(st, s, Detached(st.conns[s]));
    if env.notifyOk {
      assert f.conns == r.st.conns[s := AtBody(Detached(st.conns[s]), hasBody)];
      hide Carried;
      if hasBody { RestCarried(f, s, rest, env, loud); } else { Unchanged(f, loud); }
    } else {
      assert f == SendError(st1, s, env);
      hide Carried, SendError, WrotePage, Finish;
      SendErrorCarried(st1, s, env, loud);
      NoLetter(f, s, rest, env);
    }
  }

  lemma NoLetter(st: State, s: Id, rest: Rest, env: Env)
    requires s !in st.mail
    ensures ReadsOn(st, s, rest, env) == st
  {
  }

  /** Forwarding, and the end of the handler that forwarded. */
  lemma ForwardCarried(st: State, i: Id, data: Bytes, inBody: bool, env: Env, loud: set<Id>)
    requires Paired(st, i) && st.conns[i].other.Some? && Loudness(st, i, env) <= loud
    ensures Carried(Queued(st, i, data), Finish(Forward(st, i, data, env), i, inBody, env), loud)
  {
    var st1 := Queued(st, i, data);
    var o := st.conns[i].other.value;
    assert Loudness(st1, o, env) <= loud;
    SendCarried(st1, o, env, OtherWrite);
    var r := Forward(st, i, data, env);
    Louder(st1, r.st, Loudness(st1, o, env), loud);
    hide Carried, Send;
    AfterCarried(st1, r, i, inBody, env, loud);
  }

  lemma RequestCarried(st: State, i: Id, head: Bytes, dev: string, inBody: bool, env: Env, loud: set<Id>)
    requires Paired(st, i) && Loudness(st, i, env) <= loud
    ensures Carried(WroteRequest(st, i, head, dev, env), Finish(ClientUri(st, i, head, dev, env), i, inBody, env), loud)
  {
    if st.conns[i].other.Some? && Same(st.conns[i].devId, dev) {
      ForwardCarried(st, i, head, inBody, env, loud);
    } else {
      var r := NewRequest(st, i, head, dev, env);
      assert r.st.conns[i].other == None && !r.IoError?;
      hide Carried, NewRequest, SendError, WrotePage;
      if r.Done? {
        FinishCarried(r, i, inBody, env, loud);
      } else {
        SendErrorCarried(r.st, i, env, loud);
      }
    }
  }

  lemma BodyCarried(st: State, i: Id, data: Bytes, last: bool, env: Env, loud: set<Id>)
    requires Paired(st, i) && Loudness(st, i, env) <= loud
    ensures Carried(WroteItem(st, i, Body(data, last), env), Finish(OnBody(st, i, data, env), i, !last, env), loud)
  {
    hide Carried, Finish, Forward, Kept, Requested;
    if st.conns[i].other.Some? {
      ForwardCarried(st, i, data, !last, env, loud);
    } else {
      RequestedKept(st.conns[i], data);
      UpdCarried(st, i, Requested(st.conns[i], data), loud);
      AfterCarried(st, OnBody(st, i, data, env), i, !last, env, loud);
    }
  }

  lemma RequestedKept(c: Conn, data: Bytes)
    ensures Kept(c, Requested(c, data)) && Requested(c, data).log.quiet == c.log.quiet
    ensures Requested(c, data).other == c.other
  {
  }

  lemma AnsweredCarried(st: State, i: Id, response: Bytes, inBody: bool, env: Env, loud: set<Id>)
    requires Safe(st, i) && Loudness(st, i, env) <= loud
    ensures Carried(Answered(st, i, response), Finish(OwnResponse(st, i, response, env), i, inBody, env), loud)
  {
    var st1 := Answered(st, i, response);
    assert Loudness(st1, i, env) <= loud;
    SendCarried(st1, i, env, SelfWrite);
    var r := OwnResponse(st, i, response, env);
    Louder(st1, r.st, Loudness(st1, i, env), loud);
    hide Carried, Send, Answered;
    AfterCarried(st1, r, i, inBody, env, loud);
  }

  lemma ItemCarried(st: State, i: Id, item: Item, env: Env, loud: set<Id>)
    requires Paired(st, i) && i !in st.mail && Loudness(st, i, env) <= loud
    ensures Carried(WroteItem(st, i, item, env), Handles(st, i, item, env), loud)
  {
    hide Carried, Send, Close, SendError, Finish, Match, WrotePage, Throttle;
    match item
    case Again =>
      Unchanged(st, loud);
    case Ended =>
      CloseCarried(st, i, SelfRead, env);
      Louder(st, Close(st, i, SelfRead, env), {}, loud);
    case Partial =>
      ThrottleCarried(st, i);
      Louder(st, Throttle(st, i), {}, loud);
    case Malformed =>
      SendErrorCarried(st, i, env, loud);
    case Special(response, hasBody) =>
      AnsweredCarried(st, i, response, hasBody, env, loud);
    case ClientHeader(head, dev, hasBody) =>
      RequestCarried(st, i, head, dev, hasBody, env, loud);
    case ServerHeader(dev, dst, hasBody, rest) =>
      if st.conns[i].other.Some? {
        PageOnly(st, i, hasBody, rest, env, loud);
      } else {
        var st1 := Upd(st, i, st.conns[i].(kind := IdleServer, devId := dev));
        assert Loudness(st1, i, env) <= loud;
        ServerCarried(st1, i, dst, hasBody, rest, env, loud);
      }
    case Body(data, last) =>
      BodyCarried(st, i, data, last, env, loud);
  }

  /** A matched client's attempt to become a server. */
  lemma PageOnly(st: State, i: Id, hasBody: bool, rest: Rest, env: Env, loud: set<Id>)
    requires Safe(st, i) && i !in st.mail && Loudness(st, i, env) <= loud
    ensures Carried(WrotePage(st, i, env), ReadsOn(Finish(HttpError(st), i, hasBody, env), i, rest, env), loud)
  {
    SendErrorCarried(st, i, env, loud);
    var f := SendError(st, i, env);
    assert Finish(HttpError(st), i, hasBody, env) == f;
    assert f.mail == WrotePage(st, i, env).mail;
    hide Carried, SendError, WrotePage, Finish;
    NoLetter(f, i, rest, env);
  }

  lemma ChunkCarried(st: State, i: Id, chunk: Chunked, env: Env, loud: set<Id>)
    requires Paired(st, i) && Loudness(st, i, env) <= loud
    ensures Carried(WroteChunk(st, i, chunk), ServerReads(st, i, chunk, env), loud)
  {
    if st.conns[i].other.Some? && chunk.ServerData? {
      hide Carried, Relays;
      DataCarried(st, i, chunk.data, env, loud);
    } else {
      var st0, st' := Upd(st, i, Awake(st.conns[i])), ServerReads(st, i, chunk, env);
      assert Loudness(st0, i, env) == Loudness(st, i, env) && Paired(st0, i);
      UpdCarried(st, i, Awake(st.conns[i]), loud);
      AwakeCarried(st0, i, chunk, env, loud);
      hide Carried, ServerReads;
      Chain(st, st0, st', loud);
    }
  }

  /** What a server's handler does without data. */
  lemma AwakeCarried(st0: State, i: Id, chunk: Chunked, env: Env, loud: set<Id>)
    requires Paired(st0, i) && Loudness(st0, i, env) <= loud
    ensures st0.conns[i].other == None ==> Carried(st0, Del(st0, i), loud)
    ensures Carried(st0, Close(st0, i, SelfRead, env), loud)
    ensures st0.conns[i].other.Some? ==>
              var o := st0.conns[i].other.value;
              Carried(st0, if st0.conns[o].outQ == [] then st0 else Catch(Send(st0, o, env, OtherWrite), i, env), loud)
  {
    Unchanged(st0, loud);
    DelCarried(st0, i);
    CloseCarried(st0, i, SelfRead, env);
    if st0.conns[i].other.Some? {
      var o := st0.conns[i].other.value;
      assert Loudness(st0, o, env) <= loud;
      SentCarried(st0, o, i, env, OtherWrite, loud);
    }
    hide Carried, Close, Send, Catch;
    Louder(st0, Del(st0, i), {}, loud);
    Louder(st0, Close(st0, i, SelfRead, env), {}, loud);
  }

  lemma DataCarried(st: State, i: Id, data: Bytes, env: Env, loud: set<Id>)
    requires Paired(st, i) && st.conns[i].other.Some? && Loudness(st, i, env) <= loud
    ensures Carried(WroteChunk(st, i, ServerData(data)), Relays(st, i, data, env), loud)
  {
    var o := st.conns[i].other.value;
    var st1 := Upd(Upd(st, i, Delivered(st.conns[i], data)), o, Push(st.conns[o], data));
    var st2 := Upd(st1, i, Halted(st1.conns[i]));
    assert Loudness(st2, o, env) <= loud;
    UpdCarried(st1, i, Halted(st1.conns[i]), loud);
    Unchanged(st1, loud);
    hide Carried, Size, Send, Push, Delivered, Halted;
    if Size(st1.conns[o].outQ) >= HIGH_MARK {
      SentCarried(st2, o, i, env, OtherWrite, loud);
      Chain(st1, st2, Relays(st, i, data, env), loud);
    }
  }

  /** After what it writes, a step only keeps or deletes. */
  lemma StepCarried(st: State, ev: Event)
    requires Inv(st) && Enabled(st, ev)
    ensures Carried(Wrote(st, ev), Step(st, ev), Watched(st, ev))
  {
    var loud := Watched(st, ev);
    match ev
    case Accept(i, w) =>
      Unchanged(Wrote(st, ev), loud);
    case ClientRead(i, item, env) =>
      InvPaired(st, i);
      assert NodeOk(st, i);
      var st0 := Upd(st, i, Awake(st.conns[i]));
      assert Paired(st0, i) && Loudness(st0, i, env) == loud;
      hide Inv, Carried, WroteItem, Handles;
      ItemCarried(st0, i, item, env, loud);
    case ServerRead(i, chunk, env) =>
      InvPaired(st, i);
      hide Carried;
      ChunkCarried(st, i, chunk, env, loud);
    case Writable(i, env) =>
      InvPaired(st, i);
      SentCarried(st, i, i, env, SelfWrite, loud);
    case Timer(i, env) =>
      InvPaired(st, i);
      SendErrorCarried(Upd(st, i, Fired(st.conns[i])), i, env, loud);
    case Idle(i) =>
      InvPaired(st, i);
      CloseCarried(st, i, IdleTimeout, NO_ENV);
    case Deliver(i, env) =>
      assert NodeOk(st, i);
      var st0 := st.(conns := st.conns[i := Attached(st.conns[i], st.mail[i].worker)], mail := st.mail - {i});
      hide Inv, Carried, WroteHere, MatchHere;
      HereCarried(st0, i, st.mail[i].dst, false, env, loud);
  }
}
