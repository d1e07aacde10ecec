/** Runs in which the conditions of the theorems about whole runs are not met, and what then goes wrong. */
module RelayWitnesses {
  import opened Chunks
  import opened Relay
  import opened RelayInvariant
  import opened RelaySteps
  import opened RelayTheorems

  const EASY := Env([], true, true, true, true, true, "ok", "error")
  const MUTE := EASY.(askOk := false)

  lemma RunStep(st: State, ev: Event, rest: seq<Event>)
    requires Inv(st) && Enabled(st, ev) && Inv(Step(st, ev)) && Legal(Step(st, ev), rest)
    ensures Legal(st, [ev] + rest) && After(st, [ev] + rest) == After(Step(st, ev), rest)
  {
    assert ([ev] + rest)[1..] == rest;
  }

  /** A run of one event. */
  lemma OneStep(st: State, ev: Event)
    requires Inv(st) && Enabled(st, ev)
    ensures Inv(Step(st, ev)) && Legal(st, [ev]) && After(st, [ev]) == Step(st, ev)
  {
    StepKeeps(st, ev);
    hide Step, Inv, Enabled;
    RunStep(st, ev, []);
    assert [ev] + [] == [ev];
  }

  lemma Accepts(st: State, i: Id, worker: int)
    requires Inv(st) && i !in st.conns
    ensures Enabled(st, Accept(i, worker)) && Inv(Step(st, Accept(i, worker)))
    ensures Step(st, Accept(i, worker)) == Upd(st, i, NewConn(worker))
  {
    StepKeeps(st, Accept(i, worker));
    hide Inv;
  }

  /** The state in which connections 1 and 2 have just been accepted. */
  function Fresh(worker: int): State {
    Upd(Upd(START, 1, NewConn(0)), 2, NewConn(worker))
  }

  lemma StartsFresh(worker: int, rest: seq<Event>)
    requires Inv(Fresh(worker)) ==> Legal(Fresh(worker), rest)
    ensures Inv(Fresh(worker))
    ensures var evs := [Accept(1, 0), Accept(2, worker)] + rest;
            Legal(START, evs) && After(START, evs) == After(Fresh(worker), rest)
  {
    var st1 := Upd(START, 1, NewConn(0));
    Accepts(START, 1, 0);
    Accepts(st1, 2, worker);
    hide Step, Inv, Enabled, NewConn;
    RunStep(st1, Accept(2, worker), rest);
    RunStep(START, Accept(1, 0), [Accept(2, worker)] + rest);
    assert [Accept(1, 0), Accept(2, worker)] + rest == [Accept(1, 0)] + ([Accept(2, worker)] + rest);
  }

  // ---------------------------------------------------------------- a spoiled hand-over

  /** Connection 2 serves client 1 of another worker; its header is handed over, then its body breaks off. */
  const SPOILED_RUN: seq<Event> := [
    Accept(1, 0),
    Accept(2, 1),
    ClientRead(2, ServerHeader("A", 1, true, Dropped), EASY)]

  /** The connection is gone while the message about it is on its way. */
  lemma HandOverCanFail()
    ensures Legal(START, SPOILED_RUN) && After(START, SPOILED_RUN).spoiled == 1
  {
    var ev := SPOILED_RUN[2];
    var evs := [ev];
    if Inv(Fresh(1)) {
      assert Enabled(Fresh(1), ev) && Spoils(Fresh(1), ev);
      SpoiledCount(Fresh(1), ev);
      OneStep(Fresh(1), ev);
    }
    hide Step, Inv, Enabled;
    StartsFresh(1, evs);
    assert SPOILED_RUN == [Accept(1, 0), Accept(2, 1)] + evs;
  }

  // ---------------------------------------------------------------- a timer without its flag

  /** The timer of connection 1's request is armed, then the device cannot be asked. */
  const STRAY_RUN: seq<Event> := [
    Accept(1, 0),
    ClientRead(1, ClientHeader("r", "A", false), MUTE)]

  /** The timer is pending without its flag. */
  lemma TimerFlagCanFail()
    ensures Legal(START, STRAY_RUN) && !Flagged(After(START, STRAY_RUN))
  {
    var ev, st := STRAY_RUN[1], Upd(START, 1, NewConn(0));
    Accepts(START, 1, 0);
    assert Enabled(st, ev) && AskFails(st, ev);
    AskFailsStray(st, ev);
    OneStep(st, ev);
    hide Step, Inv, Enabled, Flagged;
    RunStep(START, Accept(1, 0), [ev]);
    assert STRAY_RUN == [Accept(1, 0)] + [ev];
  }

  // ---------------------------------------------------------------- a matched server's timer

  /** Connection 1 waits for device A; connection 2 waits for device B and then serves device A to 1. */
  const TIMED_RUN: seq<Event> := [
    Accept(1, 0),
    Accept(2, 0),
    ClientRead(1, ClientHeader("r", "A", false), EASY),
    ClientRead(2, ClientHeader("r", "B", false), EASY),
    ClientRead(2, ServerHeader("A", 1, false, Settled([])), EASY)]

  /** A fresh connection that has asked for device `dev` and now waits with its timer pending. */
  function Waiting(dev: string): Conn {
    AtBody(Timed(Requested(Awake(NewConn(0)), "r").(devId := dev), EASY), false)
  }

  lemma Waits(st: State, i: Id, dev: string)
    requires Inv(st) && i in st.conns && st.conns[i] == NewConn(0)
    ensures var ev := ClientRead(i, ClientHeader("r", dev, false), EASY);
            Enabled(st, ev) && Inv(Step(st, ev)) && Step(st, ev) == Upd(st, i, Waiting(dev))
  {
    var ev := ClientRead(i, ClientHeader("r", dev, false), EASY);
    assert Enabled(st, ev);
    StepKeeps(st, ev);
    InvPaired(st, i);
    hide Inv, Size, Pending;
  }

  /** The end of the run, from the state in which both connections wait. */
  lemma TimedEnd(st: State)
    requires Inv(st) && 1 in st.conns && 2 in st.conns
    requires st.conns[1] == Waiting("A") && st.conns[2] == Waiting("B")
    ensures var ev := TIMED_RUN[4];
            Legal(st, [ev]) && !Peerless(After(st, [ev]))
  {
    var ev := TIMED_RUN[4];
    var c, d := st.conns[2], st.conns[1];
    assert Drain(c.outQ + [Chunk(EASY.ok, 0)] + d.inQ, []).outcome == Blocked;
    assert Enabled(st, ev) && MayLink(c.(devId := "A"), d, EASY) && TimedMatch(st, ev);
    TimedMatchFails(st, ev);
    OneStep(st, ev);
    hide Step, Inv, Enabled;
  }

  lemma TimedRest(st: State)
    requires Inv(st) && 1 in st.conns && 2 in st.conns && st.conns[1] == NewConn(0) && st.conns[2] == NewConn(0)
    ensures var evs := TIMED_RUN[2..];
            Legal(st, evs) && !Peerless(After(st, evs))
  {
    var a, b, c := TIMED_RUN[2], TIMED_RUN[3], TIMED_RUN[4];
    assert [a] + ([b] + [c]) == TIMED_RUN[2..];
    var st1 := Upd(st, 1, Waiting("A"));
    var st2 := Upd(st1, 2, Waiting("B"));
    hide NewConn, Waiting, Inv, Step, Enabled, Peerless;
    Waits(st, 1, "A");
    Waits(st1, 2, "B");
    TimedEnd(st2);
    hide TIMED_RUN;
    RunStep(st1, b, [c]);
    RunStep(st, a, [b] + [c]);
  }

  /** The assertion can fail: at the end of this run the matched server 2 has its timer pending. */
  lemma TimerPeerCanFail()
    ensures Legal(START, TIMED_RUN) && !Peerless(After(START, TIMED_RUN))
  {
    var st := Fresh(0);
    assert 1 in st.conns && 2 in st.conns && st.conns[1] == NewConn(0) && st.conns[2] == NewConn(0);
    assert TIMED_RUN == [Accept(1, 0), Accept(2, 0)] + TIMED_RUN[2..];
    hide NewConn, Fresh, Inv, Step, Enabled, Peerless, TIMED_RUN;
    if Inv(st) { TimedRest(st); }
    StartsFresh(0, TIMED_RUN[2..]);
  }

  // ---------------------------------------------------------------- bytes behind an error page

  /** Client 1 is matched with server 2 and gets an error page; then its server delivers. */
  const PAGED_RUN: seq<Event> := [
    Accept(1, 0),
    Accept(2, 0),
    ClientRead(1, ClientHeader("r", "A", false), EASY),
    ClientRead(2, ServerHeader("A", 1, false, Settled([])), EASY),
    ClientRead(1, Malformed, EASY),
    ServerRead(2, ServerData("x"), EASY)]

  /** Server `s` may read for its client 1, in whose queue there is `page`. */
  ghost predicate Reading(st: State, page: Bytes) {
    && 1 in st.conns && 2 in st.conns
    && st.conns[2].other == Some(1) && st.conns[2].kind == BusyServer
    && st.conns[2].io.attached && st.conns[2].io.reading && st.conns[2].io.enableRd
    && st.conns[1].other == Some(2) && st.conns[1].kind == Client
    && st.conns[1].log.pushed == page && Size(st.conns[1].outQ) == |page|
  }

  lemma Matched(st: State)
    requires Inv(st) && 1 in st.conns && 2 in st.conns
    requires st.conns[1] == Waiting("A") && st.conns[2] == NewConn(0)
    ensures var ev := PAGED_RUN[3];
            Enabled(st, ev) && Inv(Step(st, ev)) && Reading(Step(st, ev), [])
            && Step(st, ev).conns[1] == Taken(Waiting("A"), 2)
  {
    var ev := PAGED_RUN[3];
    assert Enabled(st, ev);
    StepKeeps(st, ev);
    InvPaired(st, 2);
    var st0 := Upd(st, 2, Awake(st.conns[2]));
    AnswersWaiting(st0);
    hide Inv, ServerUri;
  }

  /** The header of server 2 is matched with client 1; its greeting stays in the queue. */
  lemma AnswersWaiting(st: State)
    requires 1 in st.conns && 2 in st.conns && st.conns[1] == Waiting("A") && st.conns[2] == Awake(NewConn(0))
    ensures var r := ServerUri(st, 2, "A", 1, EASY);
            && r.Done? && 1 in r.st.conns && 2 in r.st.conns
            && r.st.conns[1] == Taken(Waiting("A"), 2) && Size(r.st.conns[1].outQ) == 0
            && r.st.conns[2].other == Some(1) && r.st.conns[2].kind == BusyServer && r.st.conns[2].io == st.conns[2].io
  {
    var st1 := Upd(st, 2, st.conns[2].(kind := IdleServer, devId := "A"));
    assert Drain(Greeted(st1.conns[2], EASY.ok, st1.conns[1].inQ).outQ, []).outcome == Blocked;
    var r := Match(st1, 2, 1, EASY);
    assert r.Done? && r.st.conns[2].other == Some(1) && r.st.conns[1] == Taken(Waiting("A"), 2);
    assert r.st.conns[2].kind == BusyServer && r.st.conns[2].io == st1.conns[2].io;
    hide Drain, Match;
    assert ServerUri(st, 2, "A", 1, EASY) == r;
    assert Size(Taken(Waiting("A"), 2).outQ) == 0;
  }

  lemma GetsPage(st: State)
    requires Inv(st) && Reading(st, []) && st.conns[1] == Taken(Waiting("A"), 2)
    ensures var ev := PAGED_RUN[4];
            Enabled(st, ev) && Inv(Step(st, ev)) && Reading(Step(st, ev), "error")
            && !Step(st, ev).conns[1].io.reading && Step(st, ev).conns[1].io.closing
  {
    var ev := PAGED_RUN[4];
    assert Enabled(st, ev);
    StepKeeps(st, ev);
    InvPaired(st, 1);
    var st0 := Upd(st, 1, Awake(st.conns[1]));
    PageStays(st0);
    assert Step(st, ev) == SendError(st0, 1, EASY);
    hide Inv, Step, SendError;
  }

  /** The page waits in the queue: the socket takes nothing. */
  lemma PageStays(st: State)
    requires Reading(st, []) && st.conns[1].outQ == [] && st.conns[1].io.attached
    ensures var st' := SendError(st, 1, EASY);
            Reading(st', "error") && !st'.conns[1].io.reading && st'.conns[1].io.closing
  {
    var st1 := Paged(st, 1, "error");
    PushSize(st.conns[1], "error");
    assert st1.conns[1].outQ == Push(st.conns[1], "error").outQ == [Chunk("error", 0)];
    hide Size;
    SendsNothing(st1, 1);
    assert Reading(st1, "error");
    hide SendImpl, Paged;
    assert SendError(st, 1, EASY) == Upd(st1, 2, EnableRead(st1.conns[2]));
  }

  lemma SendsNothing(st: State, i: Id)
    requires i in st.conns && st.conns[i].outQ != []
    ensures SendImpl(st, i, [], SelfWrite) == Done(st)
  {
    var c := st.conns[i];
    assert Drain(c.outQ, []) == DrainResult(c.outQ, [], Blocked);
    assert c.log.sent + [] == c.log.sent;
    hide Drain;
    assert st.conns[i := c] == st.conns;
  }

  lemma GetsMore(st: State)
    requires Inv(st) && Reading(st, "error")
    ensures var ev := PAGED_RUN[5];
            Enabled(st, ev) && Inv(Step(st, ev)) && Reading(Step(st, ev), "error" + "x")
  {
    var ev := PAGED_RUN[5];
    assert Enabled(st, ev);
    StepKeeps(st, ev);
    InvPaired(st, 2);
    PushSize(st.conns[1], "x");
    hide Inv, Size;
  }

  lemma PushSize(c: Conn, data: Bytes)
    ensures Size(Push(c, data).outQ) == Size(c.outQ) + |data|
  {
    PendingConcat(c.outQ, [Chunk(data, 0)]);
    PendingFirst(Chunk(data, 0), []);
    assert [Chunk(data, 0)] + [] == [Chunk(data, 0)];
  }

  lemma PagedEnd(st: State)
    requires Inv(st) && Reading(st, []) && st.conns[1] == Taken(Waiting("A"), 2)
    ensures var evs := [PAGED_RUN[4]] + [PAGED_RUN[5]];
            Legal(st, evs) && Reading(After(st, evs), "error" + "x")
  {
    var c, d := PAGED_RUN[4], PAGED_RUN[5];
    GetsPage(st);
    hide Waiting, Inv, Step, Enabled, Taken, Reading;
    GetsMore(Step(st, c));
    hide PAGED_RUN;
    OneStep(Step(st, c), d);
    RunStep(st, c, [d]);
  }

  lemma PagedRest(st: State)
    requires Inv(st) && 1 in st.conns && 2 in st.conns && st.conns[1] == NewConn(0) && st.conns[2] == NewConn(0)
    ensures var evs := PAGED_RUN[2..];
            Legal(st, evs) && Reading(After(st, evs), "error" + "x")
  {
    var a, b, end := PAGED_RUN[2], PAGED_RUN[3], [PAGED_RUN[4]] + [PAGED_RUN[5]];
    assert [a] + ([b] + end) == PAGED_RUN[2..];
    var st1 := Upd(st, 1, Waiting("A"));
    hide NewConn, Waiting, Inv, Step, Enabled, Taken, Reading;
    Waits(st, 1, "A");
    Matched(st1);
    hide PAGED_RUN;
    PagedEnd(Step(st1, b));
    RunStep(st1, b, end);
    RunStep(st, a, [b] + end);
  }

  /** The page is not the last thing the client is sent. */
  lemma PageCanBeFollowed()
    ensures Legal(START, PAGED_RUN)
    ensures var st := After(START, PAGED_RUN); 1 in st.conns && st.conns[1].log.pushed == "error" + "x"
  {
    var st := Fresh(0);
    assert 1 in st.conns && 2 in st.conns && st.conns[1] == NewConn(0) && st.conns[2] == NewConn(0);
    assert PAGED_RUN == [Accept(1, 0), Accept(2, 0)] + PAGED_RUN[2..];
    hide NewConn, Fresh, Inv, Step, Enabled, PAGED_RUN;
    if Inv(st) { PagedRest(st); }
    StartsFresh(0, PAGED_RUN[2..]);
  }
}
