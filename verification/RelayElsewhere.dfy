/** Whom an event does not concern, and what the effects of events come to for reading and for matching. */
module RelayElsewhere {
  import opened Chunks
  import opened Relay
  import opened RelayInvariant
  import opened RelayEffects

  // ---------------------------------------------------------------- everyone else

  /** Nobody outside of `at` is touched, apart from the accounts, and nobody appears. */
  ghost predicate Spares(conns: map<Id, Conn>, conns': map<Id, Conn>, at: set<Id>) {
    && conns'.Keys <= conns.Keys + at
    && forall k :: k in conns && k !in at ==> k in conns' && conns'[k] == conns[k].(log := conns'[k].log)
  }

  lemma SparesAlike(conns: map<Id, Conn>, a: map<Id, Conn>, b: map<Id, Conn>, at: set<Id>)
    requires Spares(conns, a, at) && Alike(b, a)
    ensures Spares(conns, b, at)
  {
    forall k | k in conns && k !in at
      ensures k in b && b[k] == conns[k].(log := b[k].log)
    {
      assert a[k] == conns[k].(log := a[k].log) && b[k] == a[k].(log := b[k].log);
    }
  }

  lemma SparesPut(conns: map<Id, Conn>, conns': map<Id, Conn>, k: Id, c: Conn, at: set<Id>)
    requires Spares(conns, conns', at) && k in at
    ensures Spares(conns, conns'[k := c], at) && Spares(conns, conns' - {k}, at)
  {
  }

  lemma SentSpares(conns: map<Id, Conn>, w: State, j: Id, env: Env, at: set<Id>)
    requires Safe(w, j) && Spares(conns, w.conns, at) && Pair(w, j) <= at
    ensures Spares(conns, AfterSend(w, j, env), at)
  {
    hide Drain, Size, Fatal;
  }

  lemma BrakedSpares(conns: map<Id, Conn>, conns': map<Id, Conn>, i: Id, at: set<Id>)
    requires Spares(conns, conns', at) && i in at
    ensures Spares(conns, Braked(conns', i), at)
  {
    hide Size;
  }

  lemma ErroredSpares(conns: map<Id, Conn>, w: State, i: Id, env: Env, at: set<Id>)
    requires Safe(w, i) && Spares(conns, w.conns, at) && Pair(w, i) <= at
    ensures Spares(conns, Errored(w, i, env), at)
  {
    hide AfterSend;
    var v := Upd(w, i, PageOn(w.conns[i], env.error));
    assert Pair(v, i) == Pair(w, i);
    SentSpares(conns, v, i, env, at);
  }

  lemma EndsSpares(conns: map<Id, Conn>, w: State, i: Id, env: Env, at: set<Id>)
    requires Safe(w, i) && Spares(conns, w.conns, at) && Pair(w, i) <= at
    ensures Spares(conns, Ends(w, i, env), at)
  {
    hide AfterSend;
    if w.conns[i].other.Some? {
      var o := w.conns[i].other.value;
      var v := Upd(w, o, w.conns[o].(other := None, io := w.conns[o].io.(closing := true)));
      SentSpares(conns, v, o, env, at);
    }
  }

  lemma IntroducedSpares(conns: map<Id, Conn>, w: State, s: Id, dst: Id, env: Env, at: set<Id>)
    requires s in w.conns && w.conns[s].other == None && Spares(conns, w.conns, at) && s in at
    requires dst in w.conns && w.conns[dst].other == None ==> dst in at
    ensures Spares(conns, Introduced(w, s, dst, env), at)
  {
    hide Drain, Fatal, Errored, SameId;
    ErroredSpares(conns, w, s, env, at);
  }

  /** The connection of the event, its peer, and the client a device's connection asks for, if it has no server. */
  ghost function Concerned(st: State, ev: Event): set<Id> {
    {ev.id} + (if ev.id in st.conns then Pair(st, ev.id) else {})
    + (if ev.ClientRead? && ev.item.ServerHeader? then Unmatched(st, ev.item.dst) else {})
    + (if ev.Deliver? && ev.id in st.mail then Unmatched(st, st.mail[ev.id].dst) else {})
  }

  ghost function Unmatched(st: State, dst: Id): set<Id> {
    if dst in st.conns && st.conns[dst].other == None then {dst} else {}
  }

  /** An event leaves every other connection as it is. */
  lemma Elsewhere(st: State, ev: Event)
    requires Inv(st) && Enabled(st, ev)
    ensures Spares(st.conns, Step(st, ev).conns, Concerned(st, ev))
  {
    hide Inv, Step, Alike, Spares, AfterSend, Errored, Ends, Introduced, Braked, Size;
    var at := Concerned(st, ev);
    assert Spares(st.conns, st.conns, at) by { SparesSelf(st.conns, at); }
    match ev
    case Accept(i, w) =>
      assert Step(st, ev).conns == st.conns[i := NewConn(w)] by { Accepted(st, i, w); }
      SparesPut(st.conns, st.conns, i, NewConn(w), at);
    case ClientRead(i, item, env) => ClientElsewhere(st, i, item, env);
    case ServerRead(i, chunk, env) => ServerElsewhere(st, i, chunk, env);
    case Writable(i, env) =>
      WritableSends(st, i, env);
      SentSpares(st.conns, st, i, env, at);
      SparesAlike(st.conns, AfterSend(st, i, env), Step(st, ev).conns, at);
    case Timer(i, env) =>
      TimerPages(st, i, env);
      var c := st.conns[i].(io := st.conns[i].io.(armed := false));
      SparesPut(st.conns, st.conns, i, c, at);
      ErroredSpares(st.conns, Upd(st, i, c), i, env, at);
      SparesAlike(st.conns, Errored(Upd(st, i, c), i, env), Step(st, ev).conns, at);
    case Idle(i) =>
      IdleElsewhere(st, i);
    case Deliver(i, env) =>
      DeliveredIntroduces(st, i, env);
      var c := st.conns[i];
      var c' := c.(host := st.mail[i].worker, io := c.io.(attached := true, reading := true, enableRd := true));
      SparesPut(st.conns, st.conns, i, c', at);
      var w := Upd(st, i, c').(mail := st.mail - {i});
      IntroducedSpares(st.conns, w, i, st.mail[i].dst, env, at);
      SparesAlike(st.conns, Introduced(w, i, st.mail[i].dst, env), Step(st, ev).conns, at);
  }

  lemma SparesSelf(conns: map<Id, Conn>, at: set<Id>)
    ensures Spares(conns, conns, at)
  {
  }

  /** A new connection: a client in the accepting worker, with nothing queued, that is read. */
  lemma Accepted(st: State, i: Id, worker: int)
    requires Inv(st) && Enabled(st, Accept(i, worker))
    ensures var st' := Step(st, Accept(i, worker));
            && st'.conns == st.conns[i := st'.conns[i]] && st'.mail == st.mail && st'.spoiled == st.spoiled
            && st'.conns[i] == NewConn(worker)
            && var c := st'.conns[i];
               && c.kind == Client && c.other == None && c.host == worker && c.inQ == [] && c.outQ == []
               && Reads(c) && c.io.connected && !c.io.armed && !c.io.timeout && !c.io.closing && !c.io.inBody
  {
    hide Inv;
  }

  lemma IdleElsewhere(st: State, i: Id)
    requires Inv(st) && Enabled(st, Idle(i))
    ensures Spares(st.conns, Step(st, Idle(i)).conns, Concerned(st, Idle(i)))
  {
    hide Inv, Step, Alike, Spares;
    InvPaired(st, i);
    IdleEnds(st, i);
    var at, c := Concerned(st, Idle(i)), st.conns[i];
    SparesSelf(st.conns, at);
    SparesPut(st.conns, st.conns, i, c, at);
    var conns := st.conns;
    if c.other.Some? {
      var oc := st.conns[c.other.value].(other := None);
      SparesPut(conns, conns, c.other.value, oc, at);
      SparesPut(conns, conns[c.other.value := oc], i, c, at);
      SparesAlike(conns, if c.kind == Client
        then conns else conns[c.other.value := oc] - {i}, Step(st, Idle(i)).conns, at);
    } else {
      SparesAlike(conns, conns - {i}, Step(st, Idle(i)).conns, at);
    }
  }

  lemma ServerElsewhere(st: State, i: Id, chunk: Chunked, env: Env)
    requires Inv(st) && Enabled(st, ServerRead(i, chunk, env))
    ensures Spares(st.conns, Step(st, ServerRead(i, chunk, env)).conns, Concerned(st, ServerRead(i, chunk, env)))
  {
    hide Inv, Step, Alike, Spares, AfterSend, Ends, Size;
    InvPaired(st, i);
    var conns, c, conns' := st.conns, st.conns[i], Step(st, ServerRead(i, chunk, env)).conns;
    var at := Concerned(st, ServerRead(i, chunk, env));
    SparesSelf(conns, at);
    SparesPut(conns, conns, i, c, at);
    if c.other == None {
      LonelyServerGoes(st, i, chunk, env);
    } else {
      var o := c.other.value;
      match chunk
      case ServerEnded =>
        ServerEnds(st, i, env);
        EndsSpares(conns, st, i, env, at);
        SparesAlike(conns, Ends(st, i, env), conns', at);
      case ServerAgain =>
        NoMoreSends(st, i, env);
        var w := Upd(st, i, c.(io := c.io.(wake := false)));
        SparesPut(conns, conns, i, w.conns[i], at);
        SentSpares(conns, w, o, env, at);
        SparesAlike(conns, if conns[o].outQ == [] then w.conns else AfterSend(w, o, env), conns', at);
      case ServerData(data) =>
        ServerDelivers(st, i, data, env);
        var oc := conns[o].(outQ := conns[o].outQ + [Chunk(data, 0)]);
        var c' := c.(io := c.io.(enableRd := false, wake := false));
        SparesPut(conns, conns, o, oc, at);
        SparesPut(conns, conns[o := oc], i, c', at);
        var w := st.(conns := conns[o := oc][i := c']);
        SentSpares(conns, w, o, env, at);
        SparesAlike(conns, if Size(oc.outQ) < HIGH_MARK then conns[o := oc] else AfterSend(w, o, env), conns', at);
    }
  }

  lemma ClientElsewhere(st: State, i: Id, item: Item, env: Env)
    requires Inv(st) && Enabled(st, ClientRead(i, item, env))
    ensures Spares(st.conns, Step(st, ClientRead(i, item, env)).conns, Concerned(st, ClientRead(i, item, env)))
  {
    hide Inv, Step, Alike, Spares, AfterSend, Ends, Size, Errored, Braked, Introduced, Reading;
    InvPaired(st, i);
    var conns, c, conns' := st.conns, st.conns[i], Step(st, ClientRead(i, item, env)).conns;
    var at := Concerned(st, ClientRead(i, item, env));
    var c' := Reading(c, c.io.inBody);
    ReadingFace(c, c.io.inBody);
    SparesSelf(conns, at);
    SparesPut(conns, conns, i, c', at);
    match item
    case Again => ClientHasNoMore(st, i, env);
    case Ended =>
      ClientEnds(st, i, env);
      EndsSpares(conns, st, i, env, at);
      SparesAlike(conns, Ends(st, i, env), conns', at);
    case Partial =>
      ClientPart(st, i, env);
      BrakedSpares(conns, conns[i := c'], i, at);
      SparesAlike(conns, Braked(conns[i := c'], i), conns', at);
    case Malformed =>
      ClientErrs(st, i, env);
      ErroredSpares(conns, Upd(st, i, c'), i, env, at);
      SparesAlike(conns, Errored(Upd(st, i, c'), i, env), conns', at);
    case Special(response, hasBody) =>
      ClientAnswered(st, i, item, env);
      ReadingFace(c, hasBody);
      var r := Reading(c, hasBody);
      var w := Upd(st, i, r.(outQ := r.outQ + [Chunk(response, 0)], io := r.io.(closing := false)));
      SparesPut(conns, conns, i, w.conns[i], at);
      SentSpares(conns, w, i, env, at);
      BrakedSpares(conns, AfterSend(w, i, env), i, at);
      SparesAlike(conns, Braked(AfterSend(w, i, env), i), conns', at);
    case ClientHeader(_, _, _) =>
      if Passes(c, item) { PassesElsewhere(st, i, item, env); } else { AsksElsewhere(st, i, item, env); }
    case Body(data, last) =>
      if Passes(c, item) {
        PassesElsewhere(st, i, item, env);
      } else {
        ClientKeeps(st, i, item, env);
        var r := Reading(c, !last);
        SparesPut(conns, conns, i, r.(inQ := r.inQ + [Chunk(data, 0)]), at);
        SparesAlike(conns, conns[i := r.(inQ := r.inQ + [Chunk(data, 0)])], conns', at);
      }
    case ServerHeader(_, _, _, _) => HeaderElsewhere(st, i, item, env);
  }

  lemma PassesElsewhere(st: State, i: Id, item: Item, env: Env)
    requires Inv(st) && Enabled(st, ClientRead(i, item, env)) && Passes(st.conns[i], item)
    ensures Spares(st.conns, Step(st, ClientRead(i, item, env)).conns, Concerned(st, ClientRead(i, item, env)))
  {
    hide Inv, Step, Alike, Spares, AfterSend, Size, Braked, Reading;
    InvPaired(st, i);
    var conns, o, at := st.conns, st.conns[i].other.value, Concerned(st, ClientRead(i, item, env));
    var oc, c := conns[o].(outQ := conns[o].outQ + [Chunk(Passed(item), 0)]), Reading(conns[i], StaysIn(item));
    ReadingFace(conns[i], StaysIn(item));
    ClientPasses(st, i, item, env);
    var w := st.(conns := conns[i := c][o := oc]);
    SparesSelf(conns, at);
    SparesPut(conns, conns, i, c, at);
    SparesPut(conns, conns[i := c], o, oc, at);
    SentSpares(conns, w, o, env, at);
    BrakedSpares(conns, AfterSend(w, o, env), i, at);
    SparesAlike(conns, Braked(AfterSend(w, o, env), i), Step(st, ClientRead(i, item, env)).conns, at);
  }

  lemma AsksElsewhere(st: State, i: Id, item: Item, env: Env)
    requires Inv(st) && Enabled(st, ClientRead(i, item, env)) && item.ClientHeader? && !Passes(st.conns[i], item)
    ensures Spares(st.conns, Step(st, ClientRead(i, item, env)).conns, Concerned(st, ClientRead(i, item, env)))
  {
    hide Inv, Step, Alike, Spares, Size, Errored, Reading, Asking;
    InvPaired(st, i);
    var conns, c, at := st.conns, st.conns[i], Concerned(st, ClientRead(i, item, env));
    ClientAsks(st, i, item, env);
    AskingIs(st, i, item, env);
    var w := Asking(st, i, item, env);
    SparesSelf(conns, at);
    if c.other.Some? { SparesPut(conns, conns, c.other.value, c, at); }
    SparesPut(conns, if c.other.Some? then conns - {c.other.value} else conns, i, w.conns[i], at);
    SparesPut(conns, w.conns, i, Reading(w.conns[i], item.hasBody), at);
    ErroredSpares(conns, w, i, env, at);
    SparesAlike(conns, if env.timerOk && env.askOk then w.conns[i := Reading(w.conns[i], item.hasBody)]
                       else Errored(w, i, env), Step(st, ClientRead(i, item, env)).conns, at);
  }

  lemma HeaderElsewhere(st: State, i: Id, item: Item, env: Env)
    requires Inv(st) && Enabled(st, ClientRead(i, item, env)) && item.ServerHeader?
    ensures Spares(st.conns, Step(st, ClientRead(i, item, env)).conns, Concerned(st, ClientRead(i, item, env)))
  {
    hide Inv, Step, Alike, Spares, Size, Errored, Reading, Introduced, Braked, Turned, Leaving;
    InvPaired(st, i);
    var conns, c, at := st.conns, st.conns[i], Concerned(st, ClientRead(i, item, env));
    var conns' := Step(st, ClientRead(i, item, env)).conns;
    TurnedFace(c, item.serverDev);
    SparesSelf(conns, at);
    if c.other.Some? {
      HeaderErrs(st, i, item, env);
      var r := Reading(c, c.io.inBody);
      ReadingFace(c, c.io.inBody);
      SparesPut(conns, conns, i, r, at);
      ErroredSpares(conns, Upd(st, i, r), i, env, at);
      SparesAlike(conns, Errored(Upd(st, i, r), i, env), conns', at);
    } else if Abroad(st, i, item.dst) {
      HeaderHandsOver(st, i, item, env);
      var l := Leaving(Turned(c, item.serverDev));
      LeavingFace(Turned(c, item.serverDev));
      var w := Upd(st, i, l.(io := l.io.(inBody := item.hasBody)));
      var v := w.conns[i].(inQ := l.inQ + [Chunk(if item.rest.Settled? then item.rest.data else [], 0)]);
      SparesPut(conns, conns, i, l, at);
      SparesPut(conns, conns, i, w.conns[i], at);
      SparesPut(conns, conns, i, v, at);
      ErroredSpares(conns, Upd(st, i, l), i, env, at);
      ErroredSpares(conns, w, i, env, at);
      SparesAlike(conns, if !env.notifyOk then Errored(Upd(st, i, l), i, env)
                         else if item.hasBody && !item.rest.Settled? then
                           if item.rest.Dropped? then conns - {i} else Errored(w, i, env)
                         else if item.hasBody && item.rest.data != [] then conns[i := v] else w.conns, conns', at);
    } else {
      HeaderIntroduces(st, i, item, env);
      var t := Turned(c, item.serverDev);
      SparesPut(conns, conns, i, t, at);
      IntroducedSpares(conns, Upd(st, i, t), i, item.dst, env, at);
      var m := Introduced(Upd(st, i, t), i, item.dst, env);
      if i in m && m[i].other.Some? {
        SparesPut(conns, m, i, Reading(m[i], item.hasBody), at);
        BrakedSpares(conns, m[i := Reading(m[i], item.hasBody)], i, at);
        SparesAlike(conns, Braked(m[i := Reading(m[i], item.hasBody)], i), conns', at);
      } else {
        SparesAlike(conns, m, conns', at);
      }
    }
  }

  // ---------------------------------------------------------------- what follows from it

  /**
   A client that has been read without an exception goes on reading if and only if its server's queue is below the
   high mark.
  */
  lemma ClientStopsIff(st: State, i: Id, item: Item, env: Env)
    requires Inv(st) && Enabled(st, ClientRead(i, item, env)) && st.conns[i].other.Some?
    requires item.Partial? || item.Special? || Passes(st.conns[i], item)
    ensures var o, st' := st.conns[i].other.value, Step(st, ClientRead(i, item, env));
            i in st'.conns ==>
              o in st'.conns && (st'.conns[i].io.enableRd <==> Size(st'.conns[o].outQ) < HIGH_MARK)
  {
    hide Inv, Step, Size, AfterSend, Alike, Passes, Reading;
    var o, st' := st.conns[i].other.value, Step(st, ClientRead(i, item, env));
    InvPaired(st, i);
    if item.Partial? {
      ClientPart(st, i, env);
      var conns := st.conns[i := Reading(st.conns[i], st.conns[i].io.inBody)];
      ReadingFace(st.conns[i], st.conns[i].io.inBody);
      BrakedIff(st'.conns, conns, i, o);
    } else if item.Special? {
      ClientAnswered(st, i, item, env);
      var c := Reading(st.conns[i], item.hasBody);
      ReadingFace(st.conns[i], item.hasBody);
      var w := Upd(st, i, c.(outQ := c.outQ + [Chunk(item.response, 0)], io := c.io.(closing := false)));
      SentEnds(w, i, env, i, o);
      BrakedIff(st'.conns, AfterSend(w, i, env), i, o);
    } else {
      PassesSome(st.conns[i], item);
      ClientPasses(st, i, item, env);
      var oc := st.conns[o].(outQ := st.conns[o].outQ + [Chunk(Passed(item), 0)]);
      var w := st.(conns := st.conns[i := Reading(st.conns[i], StaysIn(item))][o := oc]);
      ReadingFace(st.conns[i], StaysIn(item));
      SentEnds(w, o, env, i, o);
      BrakedIff(st'.conns, AfterSend(w, o, env), i, o);
    }
  }

  lemma PassesSome(c: Conn, item: Item)
    requires Passes(c, item)
    ensures c.other.Some? && (item.Body? || item.ClientHeader?)
  {
  }

  lemma ReadingFace(c: Conn, inBody: bool)
    ensures var c' := Reading(c, inBody);
            && c'.io.enableRd == c.io.enableRd && c'.other == c.other && c'.io.connected == c.io.connected
            && c'.outQ == c.outQ && c'.kind == c.kind && c'.io.closing == c.io.closing
  {
  }

  /** Sending leaves both ends linked, or takes both down; an end that reads goes on reading. */
  lemma SentEnds(w: State, j: Id, env: Env, i: Id, o: Id)
    requires Safe(w, j) && Pair(w, j) == {i, o} && i != o && i in w.conns && w.conns[i].other == Some(o)
    ensures var conns := AfterSend(w, j, env);
            && (i in conns <==> o in conns)
            && (i in conns ==> conns[i].other == Some(o) && (w.conns[i].io.enableRd ==> conns[i].io.enableRd))
  {
    hide Drain, Size, Fatal;
  }

  lemma BrakedIff(conns: map<Id, Conn>, conns0: map<Id, Conn>, i: Id, o: Id)
    requires Alike(conns, Braked(conns0, i))
    requires i in conns0 ==> o in conns0 && o != i && conns0[i].other == Some(o) && conns0[i].io.enableRd
    ensures i in conns ==> o in conns && (conns[i].io.enableRd <==> Size(conns[o].outQ) < HIGH_MARK)
  {
    hide Size;
    if i in conns {
      assert conns[i] == Braked(conns0, i)[i].(log := conns[i].log);
      assert conns[o] == Braked(conns0, i)[o].(log := conns[o].log);
      assert conns[o].outQ == conns0[o].outQ;
    }
  }

  /**
   A device's header is matched with the client it names if and only if that client waits for this device, written in
   whatever case, in the same worker, and sending the greeting is not fatal.
  */
  lemma MatchedIff(st: State, i: Id, item: Item, env: Env)
    requires Inv(st) && Enabled(st, ClientRead(i, item, env)) && item.ServerHeader?
    ensures var st', dst := Step(st, ClientRead(i, item, env)), item.dst;
            (i in st'.conns && st'.conns[i].kind == BusyServer && st'.conns[i].other == Some(dst)) <==>
              && st.conns[i].other == None && dst in st.conns && dst != i
              && var c := st.conns[dst];
                 && c.kind == Client && c.other == None && c.io.timeout && c.host == st.conns[i].host
                 && SameId(c.devId, item.serverDev)
                 && !Fatal(st.conns[i], Drain(st.conns[i].outQ + [Chunk(env.ok, 0)] + c.inQ, env.script))
  {
    hide Inv, Step, Alike, Errored, Introduced, Braked, Fatal, Drain, SameId, Reading, Leaving, Turned;
    var st', dst := Step(st, ClientRead(i, item, env)), item.dst;
    TurnedFace(st.conns[i], item.serverDev);
    if st.conns[i].other.Some? {
      HeaderErrs(st, i, item, env);
      ReadingFace(st.conns[i], st.conns[i].io.inBody);
      var w := Upd(st, i, Reading(st.conns[i], st.conns[i].io.inBody));
      ErroredKind(w, i, env);
      Look(st'.conns, Errored(w, i, env), i);
    } else if Abroad(st, i, dst) {
      HeaderHandsOver(st, i, item, env);
      var c := Leaving(Turned(st.conns[i], item.serverDev));
      LeavingFace(Turned(st.conns[i], item.serverDev));
      var w := Upd(st, i, c.(io := c.io.(inBody := item.hasBody)));
      var v := w.conns[i].(inQ := c.inQ + [Chunk(if item.rest.Settled? then item.rest.data else [], 0)]);
      ErroredKind(Upd(st, i, c), i, env);
      ErroredKind(w, i, env);
      Look(st'.conns, Errored(Upd(st, i, c), i, env), i);
      Look(st'.conns, Errored(w, i, env), i);
      Look(st'.conns, st.conns - {i}, i);
      Look(st'.conns, st.conns[i := v], i);
      Look(st'.conns, w.conns, i);
    } else {
      HeaderIntroduces(st, i, item, env);
      var st1 := Upd(st, i, Turned(st.conns[i], item.serverDev));
      var conns := Introduced(st1, i, dst, env);
      IntroducedIff(st1, i, dst, env);
      Look(st'.conns, conns, i);
      if i in conns {
        ReadingFace(conns[i], item.hasBody);
        BrakedFace(conns[i := Reading(conns[i], item.hasBody)], i);
        Look(st'.conns, Braked(conns[i := Reading(conns[i], item.hasBody)], i), i);
      }
      FatalSame(st.conns[i], st1.conns[i], Drain(st.conns[i].outQ + [Chunk(env.ok, 0)] +
        if dst in st.conns then st.conns[dst].inQ else [], env.script));
    }
  }

  lemma ErroredKind(st: State, i: Id, env: Env)
    requires Safe(st, i) && st.conns[i].kind != BusyServer
    ensures i in Errored(st, i, env) ==> Errored(st, i, env)[i].kind == st.conns[i].kind
  {
    hide Drain, Size, Fatal;
  }

  lemma TurnedFace(c: Conn, dev: string)
    ensures var c' := Turned(c, dev);
            && c'.other == c.other && c'.kind == IdleServer && c'.devId == dev && c'.host == c.host
            && c'.outQ == c.outQ && c'.io.closing == c.io.closing
  {
  }

  lemma LeavingFace(c: Conn)
    ensures Leaving(c).other == c.other && Leaving(c).kind == c.kind
  {
  }

  lemma BrakedFace(conns: map<Id, Conn>, i: Id)
    requires i in conns
    ensures var conns' := Braked(conns, i);
            i in conns' && conns'[i].kind == conns[i].kind && conns'[i].other == conns[i].other
  {
    hide Size;
  }

  lemma FatalSame(c: Conn, c': Conn, d: DrainResult)
    requires c'.io.closing == c.io.closing
    ensures Fatal(c, d) == Fatal(c', d)
  {
  }

  lemma IntroducedIff(st: State, s: Id, dst: Id, env: Env)
    requires s in st.conns && st.conns[s].other == None && st.conns[s].kind == IdleServer
    ensures var conns := Introduced(st, s, dst, env);
            && ((s in conns && conns[s].kind == BusyServer && conns[s].other == Some(dst)) <==>
                  && dst in st.conns && dst != s && Waits(st.conns[dst], st.conns[s])
                  && !Fatal(st.conns[s], Drain(st.conns[s].outQ + [Chunk(env.ok, 0)] + st.conns[dst].inQ, env.script)))
  {
    hide Drain, Fatal, SameId, Errored;
    ErroredKind(st, s, env);
  }
}
