/** What gets into the out-queues over whole runs: the bound of a relayed queue, and what may follow an error page. */
module RelayQueues {
  import opened Chunks
  import opened Relay
  import opened RelayInvariant
  import opened RelaySteps
  import opened RelayTheorems
  import opened RelayOutcomes
  import opened RelayEffects
  import opened RelayElsewhere

  // ---------------------------------------------------------------- the queue of a matched client

  /**
   The event leaves the queue of client `c` to its server's deliveries: if it concerns `c` or its server, both
   sockets are established, and `c` gets no response of the proxy's own.
  */
  ghost predicate Undisturbed(st: State, ev: Event, c: Id) {
    match ev
    case ClientRead(i, item, env) =>
      && (Near(st, i, c) ==> env.established)
      && (i == c ==> !item.Special? && !item.Malformed? && !item.ServerHeader?)
    case ServerRead(i, _, env) => Near(st, i, c) ==> env.established
    case Writable(i, env) => Near(st, i, c) ==> env.established
    case Timer(i, env) => Near(st, i, c) ==> env.established
    case Deliver(i, env) => Near(st, i, c) ==> env.established
    case _ => true
  }

  ghost predicate Near(st: State, i: Id, c: Id) {
    i in st.conns && c in Pair(st, i)
  }

  /** `c` is a client with server `s`. */
  ghost predicate Serves(st: State, c: Id, s: Id) {
    c in st.conns && st.conns[c].kind == Client && st.conns[c].other == Some(s)
  }

  /** The account of a client is opened quiet, exactly if its queue is below the high mark, and only by a match. */
  lemma QuietAtMatch(st: State, ev: Event, c: Id, s: Id)
    requires Inv(st) && Enabled(st, ev)
    requires c in st.conns && st.conns[c].other == None && Serves(Step(st, ev), c, s)
    ensures Step(st, ev).conns[c].log.quiet <==> Size(st.conns[c].outQ) < HIGH_MARK
  {
    hide Step, Wrote, Size;
    StepCarried(st, ev);
    assert Kept(Wrote(st, ev).conns[c], Step(st, ev).conns[c]);
    WroteLink(st, ev, c);
    if c in Watched(st, ev) { PeerBack(st, ev.id); }
  }

  /** Only a match gives a connection a peer. */
  lemma WroteLink(st: State, ev: Event, c: Id)
    requires Inv(st) && Enabled(st, ev)
    requires c in st.conns && st.conns[c].other == None
    requires c in Wrote(st, ev).conns && Wrote(st, ev).conns[c].other.Some? && Wrote(st, ev).conns[c].kind == Client
    ensures c != ev.id && Wrote(st, ev).conns[c].log.quiet == (Size(st.conns[c].outQ) < HIGH_MARK)
  {
    hide Size, Pending, Greets;
    match ev
    case Accept(i, w) =>
    case ClientRead(i, item, env) =>
      InvPaired(st, i);
      hide Inv;
      ItemLink(Upd(st, i, Awake(st.conns[i])), i, item, env, c);
    case ServerRead(i, chunk, env) =>
      InvPaired(st, i);
    case Writable(_, _) =>
    case Timer(i, env) =>
      InvPaired(st, i);
    case Idle(_) =>
    case Deliver(i, env) =>
      assert NodeOk(st, i);
      hide Inv;
      HereLink(st.(conns := st.conns[i := Attached(st.conns[i], st.mail[i].worker)], mail := st.mail - {i}),
        i, st.mail[i].dst, env, c);
  }

  lemma HereLink(st: State, s: Id, dst: Id, env: Env, c: Id)
    requires s in st.conns && st.conns[s].other == None && st.conns[s].kind == IdleServer
    requires var w := WroteHere(st, s, dst, env);
             c in st.conns && st.conns[c].other == None && c in w.conns
               && w.conns[c].other.Some? && w.conns[c].kind == Client
    ensures c != s && WroteHere(st, s, dst, env).conns[c].log.quiet == (Size(st.conns[c].outQ) < HIGH_MARK)
  {
    hide Size, Pending, Greets;
  }

  lemma ItemLink(st: State, i: Id, item: Item, env: Env, c: Id)
    requires Paired(st, i)
    requires var w := WroteItem(st, i, item, env);
             c in st.conns && st.conns[c].other == None && c in w.conns
               && w.conns[c].other.Some? && w.conns[c].kind == Client
    ensures c != i && WroteItem(st, i, item, env).conns[c].log.quiet == (Size(st.conns[c].outQ) < HIGH_MARK)
  {
    hide Size, Pending, Greets, WroteHere;
    if item.ServerHeader? && st.conns[i].other == None {
      var st1 := Upd(st, i, st.conns[i].(kind := IdleServer, devId := item.serverDev));
      var dst := item.dst;
      if dst in st.conns && st.conns[dst].kind == Client && dst != i && st.conns[dst].host != st.conns[i].host {
      } else {
        HereLink(st1, i, dst, env, c);
      }
    }
  }

  /** An undisturbed client that stays with its server stays quiet. */
  lemma QuietLasts(st: State, ev: Event, c: Id, s: Id)
    requires Inv(st) && Enabled(st, ev) && Undisturbed(st, ev, c)
    requires Serves(st, c, s) && st.conns[c].log.quiet && Serves(Step(st, ev), c, s)
    ensures Step(st, ev).conns[c].log.quiet
  {
    StepCarried(st, ev);
    var w, st' := Wrote(st, ev), Step(st, ev);
    assert Kept(w.conns[c], st'.conns[c]);
    assert c !in Watched(st, ev);
    WroteQuiet(st, ev, c);
    hide Step, Wrote;
  }

  lemma WroteQuiet(st: State, ev: Event, c: Id)
    requires Inv(st) && Enabled(st, ev) && Undisturbed(st, ev, c)
    requires c in st.conns && st.conns[c].kind == Client && st.conns[c].other.Some?
    requires c in Wrote(st, ev).conns && Wrote(st, ev).conns[c].other == st.conns[c].other
    ensures Wrote(st, ev).conns[c].log.quiet == st.conns[c].log.quiet
  {
    hide Size, Pending, Greets, WroteItem, WrotePage, WroteHere;
    assert NodeOk(st, c);
    match ev
    case Accept(i, w) =>
    case ClientRead(i, item, env) =>
      InvPaired(st, i);
      hide Inv;
      ItemQuiet(Upd(st, i, Awake(st.conns[i])), i, item, env, c);
    case ServerRead(i, chunk, env) =>
      InvPaired(st, i);
      hide Inv;
    case Writable(_, _) =>
    case Timer(i, env) =>
      InvPaired(st, i);
      PageAside(Upd(st, i, Fired(st.conns[i])), i, env, c);
      hide Inv;
    case Idle(_) =>
    case Deliver(i, env) =>
      assert NodeOk(st, i);
      HereAside(st.(conns := st.conns[i := Attached(st.conns[i], st.mail[i].worker)], mail := st.mail - {i}),
        i, st.mail[i].dst, env, c);
      hide Inv;
  }

  lemma ItemQuiet(st: State, i: Id, item: Item, env: Env, c: Id)
    requires Paired(st, i) && c in st.conns && st.conns[c].other.Some?
    requires i == c ==> !item.Special? && !item.Malformed? && !item.ServerHeader?
    requires var w := WroteItem(st, i, item, env); c in w.conns && w.conns[c].other == st.conns[c].other
    ensures WroteItem(st, i, item, env).conns[c].log.quiet == st.conns[c].log.quiet
  {
    hide Size, Pending, Greets, WroteServer, WrotePage, WroteRequest;
    if item.ServerHeader? && st.conns[i].other == None {
      var st1 := Upd(st, i, st.conns[i].(kind := IdleServer, devId := item.serverDev));
      ServerAside(st1, i, item.dst, item.hasBody, item.rest, env, c);
    } else if item.ClientHeader? {
      RequestAside(st, i, item.head, item.dev, env, c);
    } else if i != c {
      PageAside(st, i, env, c);
    }
  }

  /** `w` is `st` at `c`, unless `c` is a waiting client that server `s` takes over. */
  ghost predicate Aside(st: State, w: State, s: Id, c: Id)
    requires c in st.conns
  {
    && c in w.conns
    && (w.conns[c] == st.conns[c]
      || (st.conns[c].other == None && w.conns[c] in {Taken(st.conns[c], s), Emptied(st.conns[c])}))
  }

  lemma HereAside(st: State, s: Id, dst: Id, env: Env, c: Id)
    requires s in st.conns && st.conns[s].other == None && c in st.conns && c != s
    ensures Aside(st, WroteHere(st, s, dst, env), s, c)
  {
    hide Greets, Taken, Emptied, Greeted, Drain;
  }

  /** Turning server changes no other connection but a waiting client that is taken over. */
  lemma ServerAside(st: State, s: Id, dst: Id, hasBody: bool, rest: Rest, env: Env, c: Id)
    requires s in st.conns && st.conns[s].other == None && c in st.conns && c != s
    ensures Aside(st, WroteServer(st, s, dst, hasBody, rest, env), s, c)
  {
    HereAside(st, s, dst, env, c);
    hide WroteHere, Taken, Emptied;
  }

  /** An error page at `s` changes the account of its peer. */
  lemma PageAside(st: State, s: Id, env: Env, c: Id)
    requires Safe(st, s) && c in st.conns && c != s
    ensures var w := WrotePage(st, s, env);
            c in w.conns && w.conns[c] in {st.conns[c], NothingRelayed(st.conns[c])}
  {
  }

  /** A request goes to the peer, or ends the peer and gets nobody a new one. */
  lemma RequestAside(st: State, i: Id, head: Bytes, dev: string, env: Env, c: Id)
    requires Paired(st, i) && c in st.conns && c in WroteRequest(st, i, head, dev, env).conns
    ensures var w := WroteRequest(st, i, head, dev, env).conns[c];
            if st.conns[i].other.Some? && Same(st.conns[i].devId, dev) then
              w == if c == i then Asked(st.conns[c], head)
                   else if st.conns[i].other == Some(c) then Push(st.conns[c], head) else st.conns[c]
            else if c == i then w.other == None
            else w == st.conns[c] && st.conns[i].other != Some(c)
  {
    hide Same, Push, Asked, Timed, PushOwn;
  }

  /** All along the run `c` stays with `s` undisturbed. */
  ghost predicate Relaying(st: State, evs: seq<Event>, c: Id, s: Id)
    requires Inv(st) && Legal(st, evs)
  {
    && Always((x: State) => Serves(x, c, s), st, evs)
    && Never((x: State, ev: Event) => !Undisturbed(x, ev, c), st, evs)
  }

  lemma {:induction false} StaysQuiet(st: State, evs: seq<Event>, c: Id, s: Id)
    requires Inv(st) && Legal(st, evs) && Relaying(st, evs, c, s) && st.conns[c].log.quiet
    ensures Serves(After(st, evs), c, s) && After(st, evs).conns[c].log.quiet
    decreases |evs|
  {
    hide Inv, Step, Enabled;
    if evs != [] {
      LegalTail(st, evs);
      var st1 := Step(st, evs[0]);
      assert Relaying(st1, evs[1..], c, s);
      QuietLasts(st, evs[0], c, s);
      StaysQuiet(st1, evs[1..], c, s);
    }
  }

  /**
   A waiting client whose queue is below the high mark when it is matched never has more than 131070 bytes in
   it, however much its server delivers, as long as it stays with that server undisturbed.
  */
  lemma QueueBounded(before: seq<Event>, ev: Event, evs: seq<Event>, c: Id, s: Id)
    requires Legal(START, before) && Enabled(After(START, before), ev)
    requires var st := After(START, before);
             c in st.conns && st.conns[c].other == None && Size(st.conns[c].outQ) < HIGH_MARK
    requires var st1 := Step(After(START, before), ev);
             Inv(st1) && Serves(st1, c, s) && Legal(st1, evs) && Relaying(st1, evs, c, s)
    ensures var st2 := After(Step(After(START, before), ev), evs);
            c in st2.conns && Size(st2.conns[c].outQ) <= 131070
  {
    var st := After(START, before);
    QuietAtMatch(st, ev, c, s);
    StaysQuiet(Step(st, ev), evs, c, s);
    hide Step, Inv, Enabled, Relaying;
    StaysBounded(After(Step(st, ev), evs), c, s);
  }

  lemma StaysBounded(st: State, c: Id, s: Id)
    requires Inv(st) && Serves(st, c, s) && st.conns[c].log.quiet
    ensures Size(st.conns[c].outQ) <= 131070
  {
    assert NodeOk(st, c);
  }

  // ---------------------------------------------------------------- the queue of a matched server

  /**
   The event leaves the queue of server `s` to its client `c`, of which no piece has more than `most` bytes: if it
   concerns one of them, both sockets are established, and no timer of `s` goes off.
  */
  ghost predicate Metered(st: State, ev: Event, c: Id, s: Id, most: nat) {
    match ev
    case ClientRead(i, item, env) =>
      (i == c || i == s ==> env.established)
        && (i == c && (item.Body? || item.ClientHeader?) ==> |Passed(item)| <= most)
    case ServerRead(i, _, env) => i == c || i == s ==> env.established
    case Writable(i, env) => i == c || i == s ==> env.established
    case Timer(i, env) => i != s
    case _ => true
  }

  /** While client `c` reads, the queue of its server is within the limit; one piece may go beyond it. */
  ghost predicate Held(st: State, c: Id, s: Id, limit: nat, most: nat) {
    && Serves(st, c, s) && s in st.conns && Size(st.conns[s].outQ) <= limit + most
    && (st.conns[c].io.enableRd ==> Size(st.conns[s].outQ) <= limit)
  }

  /** Sending makes a queue shorter, and rouses the peer only at the low mark if both sockets are established. */
  lemma SentHeld(w: State, j: Id, env: Env, k: Id)
    requires Safe(w, j) && w.conns[j].other == Some(k) && env.established
    ensures var conns := AfterSend(w, j, env);
            k in conns ==>
              && j in conns && Size(conns[j].outQ) <= Size(w.conns[j].outQ) && conns[j].io == w.conns[j].io
              && conns[k].outQ == w.conns[k].outQ
              && (conns[k].io.enableRd ==> w.conns[k].io.enableRd || Size(conns[j].outQ) <= LOW_MARK)
  {
    DrainShrinks(w.conns[j].outQ, env.script);
    hide Drain, Size, Fatal;
  }

  lemma DrainShrinks(q: seq<Chunk>, script: seq<SendResult>)
    ensures Size(Drain(q, script).q) <= Size(q)
  {
    DrainConserves(q, script);
    hide Drain;
  }

  lemma BrakedHeld(conns: map<Id, Conn>, i: Id, k: Id)
    ensures var conns' := Braked(conns, i);
            && conns'.Keys == conns.Keys
            && (k in conns ==> conns'[k].outQ == conns[k].outQ && (conns'[k].io.enableRd ==> conns[k].io.enableRd))
  {
    hide Size;
  }

  /** What alike states say of two ends. */
  lemma HeldAlike(conns: map<Id, Conn>, conns': map<Id, Conn>, c: Id, s: Id)
    requires Alike(conns, conns') && (c in conns || c in conns') && (s in conns || s in conns')
    ensures c in conns && s in conns && c in conns' && s in conns'
    ensures conns[s].outQ == conns'[s].outQ && conns[c].io == conns'[c].io
  {
    Look(conns, conns', c);
    Look(conns, conns', s);
  }

  /** Client `c` reads no more than before unless the queue of its server `s` is low, and that queue has not grown. */
  ghost predicate Eased(st: State, st': State, c: Id, s: Id) {
    && c in st.conns && s in st.conns && c in st'.conns && s in st'.conns
    && Size(st'.conns[s].outQ) <= Size(st.conns[s].outQ)
    && (st'.conns[c].io.enableRd ==> st.conns[c].io.enableRd || Size(st'.conns[s].outQ) <= LOW_MARK)
  }

  /** A matched client's server, and what the client does not do. */
  lemma Matched(st: State, c: Id, s: Id)
    requires Inv(st) && Serves(st, c, s)
    ensures s in st.conns && s != c && st.conns[s].other == Some(c) && st.conns[s].kind == BusyServer
    ensures !st.conns[c].io.armed && Pair(st, c) == {c, s} == Pair(st, s)
    ensures forall j :: j in st.conns && j != c && j != s ==> c !in Pair(st, j) && s !in Pair(st, j)
  {
    hide Inv;
    PeerBack(st, c);
    MatchedRoles(st, c, s);
    forall j | j in st.conns && j != c && j != s
      ensures c !in Pair(st, j) && s !in Pair(st, j)
    {
      if st.conns[j].other.Some? { PeerBack(st, j); }
    }
  }

  lemma MatchedRoles(st: State, c: Id, s: Id)
    requires Inv(st) && Serves(st, c, s)
    ensures s in st.conns && st.conns[s].kind == BusyServer && !st.conns[c].io.armed
  {
    assert NodeOk(st, c);
  }

  lemma EasedElsewhere(st: State, ev: Event, c: Id, s: Id)
    requires Inv(st) && Enabled(st, ev) && Serves(st, c, s) && ev.id != c && ev.id != s
    ensures Eased(st, Step(st, ev), c, s)
  {
    hide Inv, Step, Size, Enabled;
    Matched(st, c, s);
    Elsewhere(st, ev);
    assert c !in Concerned(st, ev) && s !in Concerned(st, ev);
    var st' := Step(st, ev);
    assert st'.conns[c] == st.conns[c].(log := st'.conns[c].log);
    assert st'.conns[s] == st.conns[s].(log := st'.conns[s].log);
  }

  lemma EasedIdle(st: State, c: Id, s: Id)
    requires Inv(st) && Enabled(st, Idle(c)) && Serves(st, c, s)
    ensures Eased(st, Step(st, Idle(c)), c, s)
  {
    hide Inv, Step, Size, Alike;
    Matched(st, c, s);
    IdleEnds(st, c);
    HeldAlike(Step(st, Idle(c)).conns, st.conns, c, s);
  }

  lemma EasedWrite(st: State, i: Id, env: Env, c: Id, s: Id)
    requires Inv(st) && Enabled(st, Writable(i, env)) && Serves(st, c, s) && (i == c || i == s) && env.established
    requires Serves(Step(st, Writable(i, env)), c, s)
    ensures Eased(st, Step(st, Writable(i, env)), c, s)
  {
    hide Inv, Step, Size, Alike, AfterSend;
    Matched(st, c, s);
    WritableSends(st, i, env);
    var st' := Step(st, Writable(i, env));
    Look(st'.conns, AfterSend(st, i, env), c);
    SentHeld(st, i, env, if i == c then s else c);
    SentHeld(st, i, env, if i == c then s else c);
    BothStay(st, i, env, c, s);
    HeldAlike(st'.conns, AfterSend(st, i, env), c, s);
  }

  lemma BothStay(w: State, j: Id, env: Env, c: Id, s: Id)
    requires Safe(w, j) && Pair(w, j) == {c, s} && c in w.conns && s in w.conns
    ensures c in AfterSend(w, j, env) <==> s in AfterSend(w, j, env)
  {
    hide Drain, Size, Fatal;
  }

  lemma EasedServer(st: State, chunk: Chunked, env: Env, c: Id, s: Id)
    requires Inv(st) && Enabled(st, ServerRead(s, chunk, env)) && Serves(st, c, s) && env.established
    requires Serves(Step(st, ServerRead(s, chunk, env)), c, s)
    ensures Eased(st, Step(st, ServerRead(s, chunk, env)), c, s)
  {
    hide Inv, Step, Size, Alike, AfterSend, Ends;
    Matched(st, c, s);
    var st' := Step(st, ServerRead(s, chunk, env));
    match chunk
    case ServerEnded =>
      ServerEnds(st, s, env);
      Look(st'.conns, Ends(st, s, env), c);
      EndsAlone(st, s, env, c);
    case ServerAgain =>
      NoMoreSends(st, s, env);
      var w := Upd(st, s, st.conns[s].(io := st.conns[s].io.(wake := false)));
      SentHeld(w, c, env, s);
      BothStay(w, c, env, c, s);
      Look(st'.conns, if st.conns[c].outQ == [] then w.conns else AfterSend(w, c, env), c);
      HeldAlike(st'.conns, if st.conns[c].outQ == [] then w.conns else AfterSend(w, c, env), c, s);
    case ServerData(data) =>
      ServerDelivers(st, s, data, env);
      var cc := st.conns[c].(outQ := st.conns[c].outQ + [Chunk(data, 0)]);
      var sc := st.conns[s].(io := st.conns[s].io.(enableRd := false, wake := false));
      var w := st.(conns := st.conns[c := cc][s := sc]);
      SentHeld(w, c, env, s);
      BothStay(w, c, env, c, s);
      Look(st'.conns, if Size(cc.outQ) < HIGH_MARK then st.conns[c := cc] else AfterSend(w, c, env), c);
      HeldAlike(st'.conns, if Size(cc.outQ) < HIGH_MARK then st.conns[c := cc] else AfterSend(w, c, env), c, s);
  }

  lemma EndsAlone(st: State, i: Id, env: Env, o: Id)
    requires Safe(st, i) && st.conns[i].other == Some(o)
    ensures o in Ends(st, i, env) ==> Ends(st, i, env)[o].other == None
  {
    hide Drain, Size, Fatal;
  }

  /** The client's own input: its bytes go behind what its server has queued. */
  lemma HeldClient(st: State, item: Item, env: Env, c: Id, s: Id, limit: nat, most: nat)
    requires Inv(st) && Enabled(st, ClientRead(c, item, env)) && HIGH_MARK - 1 <= limit && env.established
    requires Held(st, c, s, limit, most) && Serves(Step(st, ClientRead(c, item, env)), c, s)
    requires item.Body? || item.ClientHeader? ==> |Passed(item)| <= most
    ensures Held(Step(st, ClientRead(c, item, env)), c, s, limit, most)
  {
    hide Inv, Step, Size, Alike, AfterSend, Ends, Errored, Braked, Reading;
    Matched(st, c, s);
    var st', cc := Step(st, ClientRead(c, item, env)), st.conns[c];
    var r := Reading(cc, cc.io.inBody);
    ReadingFace(cc, cc.io.inBody);
    match item
    case Again => ClientHasNoMore(st, c, env);
    case Ended =>
      ClientEnds(st, c, env);
      Look(st'.conns, Ends(st, c, env), c);
      EndsGone(st, c, env);
    case Partial =>
      ClientPart(st, c, env);
      BrakedHeld(st.conns[c := r], c, c);
      BrakedHeld(st.conns[c := r], c, s);
      HeldAlike(st'.conns, Braked(st.conns[c := r], c), c, s);
    case Malformed =>
      ClientErrs(st, c, env);
      Look(st'.conns, Errored(Upd(st, c, r), c, env), c);
      ErroredHeld(Upd(st, c, r), c, s, env);
      HeldAlike(st'.conns, Errored(Upd(st, c, r), c, env), c, s);
    case Special(response, hasBody) =>
      ClientAnswered(st, c, item, env);
      ReadingFace(cc, hasBody);
      var b := Reading(cc, hasBody);
      var w := Upd(st, c, b.(outQ := b.outQ + [Chunk(response, 0)], io := b.io.(closing := false)));
      var conns := AfterSend(w, c, env);
      SentHeld(w, c, env, s);
      BothStay(w, c, env, c, s);
      BrakedHeld(conns, c, c);
      BrakedHeld(conns, c, s);
      Look(st'.conns, Braked(conns, c), c);
      HeldAlike(st'.conns, Braked(conns, c), c, s);
    case ServerHeader(_, _, _, _) =>
      HeaderErrs(st, c, item, env);
      Look(st'.conns, Errored(Upd(st, c, r), c, env), c);
      ErroredHeld(Upd(st, c, r), c, s, env);
      HeldAlike(st'.conns, Errored(Upd(st, c, r), c, env), c, s);
    case ClientHeader(_, _, _) =>
      if Passes(cc, item) { HeldPassing(st, item, env, c, s, limit, most); } else { AsksLeave(st, item, env, c, s); }
    case Body(_, _) =>
      assert Passes(cc, item);
      HeldPassing(st, item, env, c, s, limit, most);
  }

  lemma AsksLeave(st: State, item: Item, env: Env, c: Id, s: Id)
    requires Inv(st) && Enabled(st, ClientRead(c, item, env)) && item.ClientHeader? && !Passes(st.conns[c], item)
    ensures !Serves(Step(st, ClientRead(c, item, env)), c, s)
  {
    hide Inv, Step, Alike, Errored, Reading, Asking;
    InvPaired(st, c);
    ClientAsks(st, c, item, env);
    AskingIs(st, c, item, env);
    var w, conns := Asking(st, c, item, env), Step(st, ClientRead(c, item, env)).conns;
    Look(conns, Errored(w, c, env), c);
    ReadingFace(w.conns[c], item.hasBody);
    Look(conns, w.conns[c := Reading(w.conns[c], item.hasBody)], c);
    ErroredLinks(w, c, env);
  }

  lemma EndsGone(st: State, i: Id, env: Env)
    requires Paired(st, i)
    ensures i !in Ends(st, i, env)
  {
    hide AfterSend;
  }

  lemma ErroredLinks(st: State, i: Id, env: Env)
    requires Safe(st, i)
    ensures i in Errored(st, i, env) ==> Errored(st, i, env)[i].other == st.conns[i].other
  {
    hide Drain, Size, Fatal;
  }

  lemma ErroredHeld(w: State, c: Id, s: Id, env: Env)
    requires Safe(w, c) && w.conns[c].other == Some(s) && env.established
    ensures var conns := Errored(w, c, env);
            c in conns ==>
              && s in conns && conns[s].outQ == w.conns[s].outQ
              && conns[c].io.enableRd == w.conns[c].io.enableRd
  {
    hide AfterSend, Size;
    var v := Upd(w, c, PageOn(w.conns[c], env.error));
    SentHeld(v, c, env, s);
    assert Pair(v, c) == Pair(w, c) == {c, s};
    BothStay(v, c, env, c, s);
  }

  lemma PushedSize(q: seq<Chunk>, data: Bytes)
    ensures Size(q + [Chunk(data, 0)]) == Size(q) + |data|
  {
    PendingConcat(q, [Chunk(data, 0)]);
    PendingFirst(Chunk(data, 0), []);
    assert [Chunk(data, 0)] + [] == [Chunk(data, 0)];
  }

  lemma HeldPassing(st: State, item: Item, env: Env, c: Id, s: Id, limit: nat, most: nat)
    requires Inv(st) && Enabled(st, ClientRead(c, item, env)) && HIGH_MARK - 1 <= limit && env.established
    requires Held(st, c, s, limit, most) && Serves(Step(st, ClientRead(c, item, env)), c, s)
    requires Passes(st.conns[c], item) && |Passed(item)| <= most
    ensures Held(Step(st, ClientRead(c, item, env)), c, s, limit, most)
  {
    hide Inv, Step, Size, Alike, AfterSend, Braked, Reading, Passes;
    Matched(st, c, s);
    PassesSome(st.conns[c], item);
    ClientPasses(st, c, item, env);
    ClientStopsIff(st, c, item, env);
    var st', data := Step(st, ClientRead(c, item, env)), Passed(item);
    var sc, r := st.conns[s].(outQ := st.conns[s].outQ + [Chunk(data, 0)]), Reading(st.conns[c], StaysIn(item));
    ReadingFace(st.conns[c], StaysIn(item));
    var w := st.(conns := st.conns[c := r][s := sc]);
    var conns := AfterSend(w, s, env);
    PushedSize(st.conns[s].outQ, data);
    SentHeld(w, s, env, c);
    BothStay(w, s, env, c, s);
    BrakedHeld(conns, c, s);
    Look(st'.conns, Braked(conns, c), c);
    HeldAlike(st'.conns, Braked(conns, c), c, s);
  }

  /** The queue stays within the limit and one piece. */
  lemma HeldLasts(st: State, ev: Event, c: Id, s: Id, limit: nat, most: nat)
    requires Inv(st) && Enabled(st, ev) && HIGH_MARK - 1 <= limit
    requires Held(st, c, s, limit, most) && Metered(st, ev, c, s, most) && Serves(Step(st, ev), c, s)
    ensures Held(Step(st, ev), c, s, limit, most)
  {
    hide Inv, Step, Size;
    Matched(st, c, s);
    if ev.id != c && ev.id != s {
      EasedElsewhere(st, ev, c, s);
    } else {
      match ev
      case ClientRead(_, item, env) => HeldClient(st, item, env, c, s, limit, most);
      case ServerRead(_, chunk, env) => EasedServer(st, chunk, env, c, s);
      case Writable(i, env) => EasedWrite(st, i, env, c, s);
      case Idle(i) => if i == c { EasedIdle(st, c, s); } else { IdleDrops(st, s, c); }
      case Deliver(i, env) => DeliveredIntroduces(st, i, env);
      case _ =>
    }
  }

  lemma IdleDrops(st: State, s: Id, c: Id)
    requires Inv(st) && Enabled(st, Idle(s)) && Serves(st, c, s)
    ensures !Serves(Step(st, Idle(s)), c, s)
  {
    hide Inv, Step, Alike;
    Matched(st, c, s);
    IdleEnds(st, s);
    Look(Step(st, Idle(s)).conns, st.conns[c := st.conns[c].(other := None)] - {s}, c);
  }

  /** All along the run `c` stays with `s`, and its pieces have at most `most` bytes. */
  ghost predicate Metering(st: State, evs: seq<Event>, c: Id, s: Id, most: nat)
    requires Inv(st) && Legal(st, evs)
  {
    && Always((x: State) => Serves(x, c, s), st, evs)
    && Never((x: State, ev: Event) => !Metered(x, ev, c, s, most), st, evs)
  }

  lemma {:induction false} StaysHeld(st: State, evs: seq<Event>, c: Id, s: Id, limit: nat, most: nat)
    requires Inv(st) && Legal(st, evs) && Metering(st, evs, c, s, most)
    requires HIGH_MARK - 1 <= limit && Held(st, c, s, limit, most)
    ensures Held(After(st, evs), c, s, limit, most)
    decreases |evs|
  {
    hide Inv, Step, Enabled, Held, Metered;
    if evs != [] {
      LegalTail(st, evs);
      var st1 := Step(st, evs[0]);
      assert Metering(st1, evs[1..], c, s, most);
      HeldLasts(st, evs[0], c, s, limit, most);
      StaysHeld(st1, evs[1..], c, s, limit, most);
    }
  }

  /**
   Flow control in the other direction: from any reachable state in which client `c` has server `s`, and as long as
   it has, the server's queue never has more than it has then, or the high mark, and one piece of the client's input.
  */
  lemma ServerQueueBounded(before: seq<Event>, evs: seq<Event>, c: Id, s: Id, most: nat)
    requires Legal(START, before) && Serves(After(START, before), c, s)
    requires Legal(After(START, before), evs) && Metering(After(START, before), evs, c, s, most)
    ensures var st := After(START, before);
            var st' := After(st, evs);
            && s in st.conns && s in st'.conns
            && Size(st'.conns[s].outQ) <=
                 (if Size(st.conns[s].outQ) < HIGH_MARK then HIGH_MARK - 1 else Size(st.conns[s].outQ)) + most
  {
    hide Step, Enabled, Metered, Metering, Size;
    var st := After(START, before);
    hide Inv;
    Matched(st, c, s);
    var size := Size(st.conns[s].outQ);
    StaysHeld(st, evs, c, s, if size < HIGH_MARK then HIGH_MARK - 1 else size, most);
  }

  // ---------------------------------------------------------------- behind an error page

  /** Its read event has been deleted, and it will be closed once its queue is sent. */
  ghost predicate Finished(c: Conn) {
    c.io.attached && c.io.closing && !c.io.reading
  }

  /**
   A server that was throttled when it got its page is read once more: after the send that brings its client's
   queue down to the low mark, or finds its socket gone, and after no other.
  */
  lemma ReadAgainIff(st: State, o: Id, env: Env)
    requires Inv(st) && Enabled(st, Writable(o, env)) && st.conns[o].other.Some?
    requires Safe(st, o) && Send(st, o, env, SelfWrite).Done?
    requires var c := st.conns[st.conns[o].other.value]; Finished(c) && !c.io.enableRd
    ensures var i, st' := st.conns[o].other.value, Step(st, Writable(o, env));
            && o in st'.conns && i in st'.conns && Finished(st'.conns[i])
            && (Reads(st'.conns[i]) <==>
                  Size(st'.conns[o].outQ) <= LOW_MARK || (!env.established && st.conns[i].io.connected))
  {
    var i := st.conns[o].other.value;
    var r := SendImpl(st, o, env.script, SelfWrite);
    SendCases(st, o, env, SelfWrite);
    ImplOthers(st, o, env.script, SelfWrite);
    Woken(st.conns[i]);
    StillFinished(st.conns[i]);
    assert Loud(r.st.conns[o]).outQ == r.st.conns[o].outQ;
    assert Step(st, Writable(o, env)) == Send(st, o, env, SelfWrite).st;
    hide SendImpl, Send, Step, Size, EnableRead, Disconnected, Loud, Inv;
  }

  lemma ImplOthers(st: State, i: Id, script: seq<SendResult>, reason: Reason)
    requires i in st.conns
    ensures var r := SendImpl(st, i, script, reason).st;
            forall j :: j in st.conns && j != i ==> j in r.conns && r.conns[j] == st.conns[j]
  {
    hide Drain;
  }

  lemma StillFinished(c: Conn)
    requires Finished(c)
    ensures Finished(EnableRead(c)) && Finished(EnableRead(Disconnected(c)))
  {
  }

  /**
   What an event puts behind the page of connection `i`: its peer's bytes, or another page when its timer goes
   off.
  */
  ghost function Behind(st: State, ev: Event, i: Id): Bytes {
    match ev
    case ServerRead(s, ServerData(data), _) => if s in st.conns && st.conns[s].other == Some(i) then data else []
    case ClientRead(c, ClientHeader(head, dev, _), _) =>
      if c in st.conns && st.conns[c].other == Some(i) && Same(st.conns[c].devId, dev) then head else []
    case ClientRead(c, Body(data, _), _) => if c in st.conns && st.conns[c].other == Some(i) then data else []
    case Timer(j, env) => if j == i then env.error else []
    case _ => []
  }

  lemma StepBehind(st: State, ev: Event, i: Id)
    requires Inv(st) && Enabled(st, ev)
    requires i in st.conns && Finished(st.conns[i]) && i in Step(st, ev).conns
    ensures var c' := Step(st, ev).conns[i];
            Finished(c') && c'.log.pushed == st.conns[i].log.pushed + Behind(st, ev, i)
  {
    StepCarried(st, ev);
    assert Kept(Wrote(st, ev).conns[i], Step(st, ev).conns[i]);
    WroteBehind(st, ev, i);
    hide Step, Wrote;
  }

  lemma WroteBehind(st: State, ev: Event, i: Id)
    requires Inv(st) && Enabled(st, ev)
    requires i in st.conns && Finished(st.conns[i]) && i in Wrote(st, ev).conns
    ensures var c' := Wrote(st, ev).conns[i];
            Finished(c') && c'.log.pushed == st.conns[i].log.pushed + Behind(st, ev, i)
  {
    hide Size, Pending, Greets, WroteItem, WrotePage, WroteHere, WroteChunk;
    assert st.conns[i].log.pushed + [] == st.conns[i].log.pushed;
    assert NodeOk(st, i);
    match ev
    case Accept(_, _) =>
    case ClientRead(j, item, env) =>
      InvPaired(st, j);
      hide Inv;
      ItemBehind(Upd(st, j, Awake(st.conns[j])), j, item, env, i);
    case ServerRead(j, chunk, env) =>
      InvPaired(st, j);
      ChunkBehind(st, j, chunk, i);
      hide Inv;
    case Writable(_, _) =>
    case Timer(j, env) =>
      InvPaired(st, j);
      var st0 := Upd(st, j, Fired(st.conns[j]));
      if i != j { PageAside(st0, j, env, i); } else { PageItself(st0, i, env); }
      hide Inv;
    case Idle(_) =>
    case Deliver(j, env) =>
      assert NodeOk(st, j);
      HereAside(st.(conns := st.conns[j := Attached(st.conns[j], st.mail[j].worker)], mail := st.mail - {j}),
        j, st.mail[j].dst, env, i);
      hide Inv;
  }

  lemma ChunkBehind(st: State, j: Id, chunk: Chunked, i: Id)
    requires Paired(st, j) && i in st.conns && Finished(st.conns[i])
    ensures var w, more := WroteChunk(st, j, chunk), chunk.ServerData? && st.conns[j].other == Some(i);
            && i in w.conns && Finished(w.conns[i])
            && w.conns[i].log.pushed == st.conns[i].log.pushed + if more then chunk.data else []
  {
    assert st.conns[i].log.pushed + [] == st.conns[i].log.pushed;
  }

  lemma PageItself(st: State, i: Id, env: Env)
    requires Safe(st, i) && st.conns[i].io.attached
    ensures var w := WrotePage(st, i, env);
            i in w.conns && Finished(w.conns[i]) && w.conns[i].log.pushed == st.conns[i].log.pushed + env.error
  {
  }

  lemma ItemBehind(st: State, j: Id, item: Item, env: Env, i: Id)
    requires Paired(st, j) && i in st.conns && i != j && Finished(st.conns[i])
    requires i in WroteItem(st, j, item, env).conns
    ensures var c' := WroteItem(st, j, item, env).conns[i];
            Finished(c') && c'.log.pushed == st.conns[i].log.pushed + Behind(st, ClientRead(j, item, env), i)
  {
    hide Size, Pending, Greets, WroteServer, WrotePage, WroteRequest;
    assert st.conns[i].log.pushed + [] == st.conns[i].log.pushed;
    if item.ServerHeader? && st.conns[j].other == None {
      var st1 := Upd(st, j, st.conns[j].(kind := IdleServer, devId := item.serverDev));
      ServerAside(st1, j, item.dst, item.hasBody, item.rest, env, i);
    } else if item.ClientHeader? {
      RequestAside(st, j, item.head, item.dev, env, i);
    } else {
      PageAside(st, j, env, i);
    }
  }

  ghost function BehindAll(st: State, evs: seq<Event>, i: Id): Bytes
    requires Inv(st) && Legal(st, evs)
    decreases |evs|
  {
    if evs == [] then [] else (StepKeeps(st, evs[0]); Behind(st, evs[0], i) + BehindAll(Step(st, evs[0]), evs[1..], i))
  }

  lemma {:induction false} RunBehind(st: State, evs: seq<Event>, i: Id)
    requires Inv(st) && Legal(st, evs) && Always((x: State) => i in x.conns, st, evs)
    requires i in st.conns && Finished(st.conns[i])
    ensures i in After(st, evs).conns && Finished(After(st, evs).conns[i])
    ensures After(st, evs).conns[i].log.pushed == st.conns[i].log.pushed + BehindAll(st, evs, i)
    ensures BehindAll(st, evs, i) == [] <==> Never((x: State, ev: Event) => Behind(x, ev, i) != [], st, evs)
    decreases |evs|
  {
    hide Inv, Step, Enabled, Finished, Behind;
    if evs == [] {
      assert st.conns[i].log.pushed + [] == st.conns[i].log.pushed;
    } else {
      LegalTail(st, evs);
      var st1 := Step(st, evs[0]);
      assert Always((x: State) => i in x.conns, st1, evs[1..]);
      StepBehind(st, evs[0], i);
      RunBehind(st1, evs[1..], i);
      Assoc(st.conns[i].log.pushed, Behind(st, evs[0], i), BehindAll(st1, evs[1..], i));
    }
  }

  /**
   What a connection that survives an error page is ever given after it: exactly what its peer brings, and
   the pages of its timer.  The page is the last thing it is sent if and only if no event brings any of these.
  */
  lemma PageIsLastIff(st: State, i: Id, env: Env, evs: seq<Event>)
    requires Safe(st, i) && i in SendError(st, i, env).conns
    requires var st1 := SendError(st, i, env);
             Inv(st1) && Legal(st1, evs) && Always((x: State) => i in x.conns, st1, evs)
    ensures var st1 := SendError(st, i, env);
            && i in After(st1, evs).conns
            && var c, page := After(st1, evs).conns[i], st.conns[i].log.pushed + env.error;
               && Finished(c)
               && c.log.sent + Pending(c.outQ) == page + BehindAll(st1, evs, i)
               && (c.log.sent + Pending(c.outQ) == page <==>
                     Never((x: State, ev: Event) => Behind(x, ev, i) != [], st1, evs))
  {
    var st1 := SendError(st, i, env);
    ErrorPageQueued(st, i, env);
    RunBehind(st1, evs, i);
    assert NodeOk(After(st1, evs), i);
    Longer(st.conns[i].log.pushed + env.error, BehindAll(st1, evs, i));
    hide SendError, Inv, Step, Pending, Always, Legal, Finished;
  }

  lemma Longer(a: Bytes, b: Bytes)
    ensures a + b == a <==> b == []
  {
    assert |a + b| == |a| + |b|;
  }
}
