/**
 The idle-connection timer of core/worker.cpp, specified by timestamps.

 A worker rotates its wheel of `n` buckets once a tick and closes what is in the bucket it takes back.  Here
 a connection just remembers the tick in which it was last put into a bucket.
*/
module TimingWheel {
  import opened Chunks
  import Relay

  type Id = Relay.Id

  /**
   `mark` is the tick in whose bucket the connection was last put.  A `swept` connection outlived the sweep of
   that bucket and is in no bucket since.
  */
  datatype Entry = Entry(kind: Relay.Kind, other: Option<Id>, mark: nat, swept: bool)

  datatype Clock = Clock(now: nat, conns: map<Id, Entry>)

  /** What happens to a worker's connections, one handler at a time. */
  datatype Event =
    | Attach(id: Id, kind: Relay.Kind)
    | Update(id: Id)
    | Tick
    | Close(id: Id)
    | Become(id: Id)
    | Match(server: Id, client: Id)

  predicate MatchedClient(e: Entry) {
    e.kind == Relay.Client && e.other.Some?
  }

  /** Peer pointers are mutual and join a client with a server. */
  ghost predicate PeersAgree(conns: map<Id, Entry>) {
    forall x :: x in conns && conns[x].other.Some? ==> Mutual(conns, x, conns[x].other.value)
  }

  ghost predicate Mutual(conns: map<Id, Entry>, x: Id, y: Id)
    requires x in conns
  {
    y in conns && y != x && conns[y].other == Some(x)
      && (conns[x].kind == Relay.Client <==> conns[y].kind != Relay.Client)
  }

  ghost predicate Reachable(c: Clock, n: nat) {
    && PeersAgree(c.conns)
    && (forall x :: x in c.conns ==> InTime(c, x, n))
  }

  /** A connection in the wheel is in one of its `n` buckets. */
  ghost predicate InTime(c: Clock, x: Id, n: nat)
    requires x in c.conns
  {
    c.conns[x].mark <= c.now && (!c.conns[x].swept ==> c.now < c.conns[x].mark + n)
  }

  // ---------------------------------------------------------------- sweeping

  /** What closing every connection of `bucket` closes: all but the matched clients, and the clients of its servers. */
  ghost function Victims(conns: map<Id, Entry>, bucket: set<Id>): set<Id> {
    set x | x in conns && Falls(conns, bucket, x)
  }

  ghost predicate Falls(conns: map<Id, Entry>, bucket: set<Id>, x: Id)
    requires x in conns
  {
    if MatchedClient(conns[x]) then conns[x].other.value in bucket else x in bucket
  }

  /** The bucket that the rotation ending tick `now` takes back. */
  ghost function Oldest(c: Clock, n: nat): set<Id> {
    set x | x in c.conns && !c.conns[x].swept && c.conns[x].mark + n == c.now + 1
  }

  function Swept(e: Entry): Entry {
    e.(swept := true)
  }

  ghost function Rotated(c: Clock, n: nat): Clock {
    var oldest := Oldest(c, n);
    Clock(c.now + 1, map x | x in c.conns && x !in Victims(c.conns, oldest) ::
      if x in oldest then Swept(c.conns[x]) else c.conns[x])
  }

  /** Closing one more connection `x` of the bucket. */
  lemma VictimsOfOneMore(conns: map<Id, Entry>, seen: set<Id>, x: Id)
    requires PeersAgree(conns) && x in conns && x !in seen
    ensures conns[x].other == None ==> Victims(conns, seen + {x}) == Victims(conns, seen) + {x}
    ensures MatchedClient(conns[x]) ==> Victims(conns, seen + {x}) == Victims(conns, seen)
    ensures conns[x].other.Some? && conns[x].kind != Relay.Client ==>
              Victims(conns, seen + {x}) == Victims(conns, seen) + {x, conns[x].other.value}
  {
    if conns[x].other.Some? { assert Mutual(conns, x, conns[x].other.value); }
    forall y | y in conns && y != x && conns[y].other.Some?
      ensures conns[y].other.value == x ==> conns[x].other == Some(y)
    {
      assert Mutual(conns, y, conns[y].other.value);
    }
  }

  /** The peer of a connection that has neither been visited nor closed is still open. */
  lemma PeerSurvives(conns: map<Id, Entry>, seen: set<Id>, x: Id)
    requires PeersAgree(conns) && x in conns && x !in seen && x !in Victims(conns, seen) && conns[x].other.Some?
    ensures Mutual(conns, x, conns[x].other.value) && conns[x].other.value !in Victims(conns, seen)
  {
    assert Mutual(conns, x, conns[x].other.value);
  }

  /** Passing over matched clients closes nothing more. */
  lemma VictimsOfSeen(conns: map<Id, Entry>, seen: set<Id>, bucket: set<Id>)
    requires PeersAgree(conns) && seen <= bucket
    requires forall x :: x in bucket && x !in seen ==> x in Victims(conns, seen)
    ensures Victims(conns, bucket) == Victims(conns, seen)
  {
    forall x | x in conns && MatchedClient(conns[x]) && conns[x].other.value in bucket
      ensures conns[x].other.value in seen
    {
      assert Mutual(conns, x, conns[x].other.value);
    }
  }

  // ---------------------------------------------------------------- the other events

  function Unlinked(e: Entry): Entry {
    e.(other := None)
  }

  /** A connection goes away for another reason; its peer, if any, stays behind. */
  ghost function Closed(c: Clock, x: Id): Clock
    requires x in c.conns
  {
    var o := c.conns[x].other;
    var conns := if o.Some? && o.value in c.conns then c.conns[o.value := Unlinked(c.conns[o.value])] else c.conns;
    c.(conns := conns - {x})
  }

  /** The bucket that is the newest one in tick `t`. */
  function BucketOf(t: nat, n: nat): (b: nat)
    requires n > 0
    ensures b < n
  {
    t % n
  }

  /** update: move to the newest bucket, unless the connection still refers to it. */
  ghost function Updated(c: Clock, x: Id, n: nat): Clock
    requires x in c.conns && n > 0
  {
    if BucketOf(c.conns[x].mark, n) == BucketOf(c.now, n) then c
    else c.(conns := c.conns[x := c.conns[x].(mark := c.now, swept := false)])
  }

  ghost predicate Enabled(c: Clock, ev: Event) {
    match ev
    case Attach(x, _) => x !in c.conns
    case Update(x) => x in c.conns
    case Tick => true
    case Close(x) => x in c.conns
    case Become(x) => x in c.conns && c.conns[x].other == None && c.conns[x].kind == Relay.Client
    case Match(s, x) =>
      && s in c.conns && x in c.conns && c.conns[s].other == None && c.conns[x].other == None
      && c.conns[s].kind != Relay.Client && c.conns[x].kind == Relay.Client
  }

  ghost function Step(c: Clock, ev: Event, n: nat): Clock
    requires Enabled(c, ev) && n > 0
  {
    match ev
    case Attach(x, kind) => c.(conns := c.conns[x := Entry(kind, None, c.now, false)])
    case Update(x) => Updated(c, x, n)
    case Tick => Rotated(c, n)
    case Close(x) => Closed(c, x)
    case Become(x) => c.(conns := c.conns[x := c.conns[x].(kind := Relay.IdleServer)])
    case Match(s, x) =>
      c.(conns := c.conns[s := c.conns[s].(kind := Relay.BusyServer, other := Some(x))]
                         [x := c.conns[x].(other := Some(s))])
  }

  lemma StepReachable(c: Clock, ev: Event, n: nat)
    requires n > 0 && Reachable(c, n) && Enabled(c, ev)
    ensures Reachable(Step(c, ev, n), n)
  {
    var c' := Step(c, ev, n);
    forall x | x in c'.conns
      ensures InTime(c', x, n)
    {
      if x in c.conns { assert InTime(c, x, n); }
    }
    forall x | x in c'.conns && c'.conns[x].other.Some?
      ensures Mutual(c'.conns, x, c'.conns[x].other.value)
    {
      StepMutual(c, ev, n, x);
    }
  }

  lemma StepMutual(c: Clock, ev: Event, n: nat, x: Id)
    requires n > 0 && Reachable(c, n) && Enabled(c, ev)
    requires x in Step(c, ev, n).conns && Step(c, ev, n).conns[x].other.Some?
    ensures Mutual(Step(c, ev, n).conns, x, Step(c, ev, n).conns[x].other.value)
  {
    if x in c.conns && c.conns[x].other.Some? {
      var y := c.conns[x].other.value;
      assert Mutual(c.conns, x, y);
      if ev.Tick? { RotatedPair(c, n, x, y); }
    }
  }

  /** A rotation keeps both ends of a pair or neither. */
  lemma RotatedPair(c: Clock, n: nat, x: Id, y: Id)
    requires x in c.conns && y in c.conns && c.conns[x].other == Some(y) && Mutual(c.conns, x, y)
    ensures x in Rotated(c, n).conns <==> y in Rotated(c, n).conns
  {
  }

  /** Whom an event other than a tick concerns: the connections it names and, when one is closed, its peer. */
  ghost function Concerned(c: Clock, ev: Event): set<Id> {
    match ev
    case Attach(x, _) => {x}
    case Update(x) => {x}
    case Tick => {}
    case Close(x) => if x in c.conns && c.conns[x].other.Some? then {x, c.conns[x].other.value} else {x}
    case Become(x) => {x}
    case Match(s, x) => {s, x}
  }

  /**
   Every other connection stays as it is.  A tick closes connections and sweeps others, but those that stay keep
   their kind, their peer and their time; none appears.
  */
  lemma StepElsewhere(c: Clock, ev: Event, n: nat, x: Id)
    requires n > 0 && Reachable(c, n) && Enabled(c, ev) && x !in Concerned(c, ev)
    ensures var c' := Step(c, ev, n);
            && c'.now == (if ev.Tick? then c.now + 1 else c.now)
            && (x in c'.conns ==> x in c.conns && c'.conns[x] == c.conns[x].(swept := c'.conns[x].swept))
            && (x in c.conns && !ev.Tick? ==> x in c'.conns && c'.conns[x] == c.conns[x])
            && (x in c.conns && c.conns[x].swept && ev.Tick? ==>
                  (x !in c'.conns <==> MatchedClient(c.conns[x]) && c.conns[x].other.value in Oldest(c, n)))
  {
  }

  // ---------------------------------------------------------------- runs

  ghost predicate Legal(c: Clock, evs: seq<Event>, n: nat)
    requires n > 0
    decreases |evs|
  {
    evs == [] || (Enabled(c, evs[0]) && Legal(Step(c, evs[0], n), evs[1..], n))
  }

  ghost function After(c: Clock, evs: seq<Event>, n: nat): Clock
    requires n > 0 && Legal(c, evs, n)
    decreases |evs|
  {
    if evs == [] then c else After(Step(c, evs[0], n), evs[1..], n)
  }

  /** The event neither touches nor closes `x`, nor gives it a server. */
  ghost predicate Leaves(ev: Event, x: Id) {
    match ev
    case Attach(y, _) => y != x
    case Update(y) => y != x
    case Close(y) => y != x
    case Match(s, y) => y != x
    case _ => true
  }

  /** In the wheel since tick `t`, and no matched client. */
  ghost predicate Counting(c: Clock, x: Id, t: nat) {
    x in c.conns && c.conns[x].mark == t && !c.conns[x].swept && !MatchedClient(c.conns[x])
  }

  /** What attaching or updating a connection of the wheel means: it counts from this tick. */
  lemma CountsFromNow(c: Clock, ev: Event, x: Id, n: nat)
    requires n > 0 && Reachable(c, n) && Enabled(c, ev) && (ev == Update(x) || (ev.Attach? && ev.id == x))
    requires ev.Update? ==> !c.conns[x].swept && !MatchedClient(c.conns[x])
    ensures Counting(Step(c, ev, n), x, c.now)
  {
    if ev.Update? {
      assert InTime(c, x, n);
      BucketsDiffer(c.conns[x].mark, c.now, n);
    }
  }

  /** Within `n` ticks no bucket comes round twice. */
  lemma BucketsDiffer(a: nat, b: nat, n: nat)
    requires n > 0 && a <= b < a + n
    ensures BucketOf(a, n) == BucketOf(b, n) <==> a == b
  {
    ModDifference(a, b, n);
    ModUnique(b - a, 0, b - a, n);
  }

  lemma StepCounts(c: Clock, ev: Event, x: Id, t: nat, n: nat)
    requires n > 0 && Reachable(c, n) && Enabled(c, ev) && Leaves(ev, x) && Counting(c, x, t)
    ensures if ev.Tick? && c.now + 1 == t + n then x !in Step(c, ev, n).conns else Counting(Step(c, ev, n), x, t)
  {
    assert InTime(c, x, n);
  }

  lemma StepGone(c: Clock, ev: Event, x: Id, n: nat)
    requires n > 0 && Enabled(c, ev) && Leaves(ev, x) && x !in c.conns
    ensures x !in Step(c, ev, n).conns
  {
  }

  lemma {:induction false} StaysGone(c: Clock, evs: seq<Event>, x: Id, n: nat)
    requires n > 0 && Legal(c, evs, n) && (forall i :: 0 <= i < |evs| ==> Leaves(evs[i], x)) && x !in c.conns
    ensures x !in After(c, evs, n).conns && After(c, evs, n).now >= c.now
    decreases |evs|
  {
    if evs != [] {
      StepGone(c, evs[0], x, n);
      StaysGone(Step(c, evs[0], n), evs[1..], x, n);
    }
  }

  /**
   The wheel tells the time: a connection that is no matched client and was last attached or updated in tick
   `t` is still there after any run that leaves it alone if and only if fewer than `n` rotations have
   happened since; so it is the `n`-th that closes it.
  */
  lemma {:induction false} ClosedByNthRotation(c: Clock, evs: seq<Event>, x: Id, t: nat, n: nat)
    requires n > 0 && Reachable(c, n) && Legal(c, evs, n)
    requires Counting(c, x, t)
    requires forall i :: 0 <= i < |evs| ==> Leaves(evs[i], x)
    ensures var c' := After(c, evs, n);
            && Reachable(c', n)
            && (x in c'.conns <==> c'.now < t + n)
    decreases |evs|
  {
    assert InTime(c, x, n);
    if evs == [] {
    } else {
      var c1 := Step(c, evs[0], n);
      StepReachable(c, evs[0], n);
      StepCounts(c, evs[0], x, t, n);
      if x in c1.conns {
        ClosedByNthRotation(c1, evs[1..], x, t, n);
      } else {
        StaysGone(c1, evs[1..], x, n);
        RunReachable(c1, evs[1..], n);
      }
    }
  }

  lemma {:induction false} RunReachable(c: Clock, evs: seq<Event>, n: nat)
    requires n > 0 && Reachable(c, n) && Legal(c, evs, n)
    ensures Reachable(After(c, evs, n), n) && After(c, evs, n).now >= c.now
    decreases |evs|
  {
    if evs != [] {
      StepReachable(c, evs[0], n);
      RunReachable(Step(c, evs[0], n), evs[1..], n);
    }
  }

  /** A swept connection without peer is never closed for idleness, however long it stays silent. */
  lemma {:induction false} SweptNeverCloses(c: Clock, evs: seq<Event>, x: Id, n: nat)
    requires n > 0 && Legal(c, evs, n)
    requires x in c.conns && c.conns[x].swept && c.conns[x].other == None
    requires forall i :: 0 <= i < |evs| ==> Leaves(evs[i], x) && !(evs[i].Match? && evs[i].server == x)
    ensures x in After(c, evs, n).conns
    decreases |evs|
  {
    if evs != [] {
      SweptNeverCloses(Step(c, evs[0], n), evs[1..], x, n);
    }
  }

  const START := Clock(0, map[])

  function Ticks(k: nat): (evs: seq<Event>)
    ensures |evs| == k
  {
    if k == 0 then [] else [Tick] + Ticks(k - 1)
  }

  /** Client 1 is matched with server 2, which is active a tick later and goes away when 1 has been swept. */
  function SweptRun(n: nat): seq<Event>
    requires n >= 2
  {
    [Attach(1, Relay.Client), Attach(2, Relay.Client), Become(2),
      Match(2, 1), Tick, Update(2)] + (Ticks(n - 1) + [Close(2)])
  }

  /** The pair in tick `now`, from the server's update on. */
  function PairAt(now: nat, swept: bool): Clock {
    Clock(now, map[1 := Entry(Relay.Client, Some(2), 0, swept), 2 := Entry(Relay.BusyServer, Some(1), 1, false)])
  }

  lemma {:induction false} RunTogether(c: Clock, a: seq<Event>, b: seq<Event>, n: nat)
    requires n > 0 && Legal(c, a, n) && Legal(After(c, a, n), b, n)
    ensures Legal(c, a + b, n) && After(c, a + b, n) == After(After(c, a, n), b, n)
    decreases |a|
  {
    if a == [] {
      assert a + b == b;
    } else {
      assert (a + b)[0] == a[0] && (a + b)[1..] == a[1..] + b;
      RunTogether(Step(c, a[0], n), a[1..], b, n);
    }
    hide Step;
  }

  lemma PairTicks(now: nat, n: nat)
    requires 1 <= now < n
    ensures Step(PairAt(now, false), Tick, n) == PairAt(now + 1, now + 1 == n)
  {
    var c := PairAt(now, false);
    assert forall x :: x in c.conns <==> x == 1 || x == 2;
    assert forall x :: x in Oldest(c, n) <==> x == 1 && now + 1 == n;
    assert forall x :: x !in Victims(c.conns, Oldest(c, n));
    assert Rotated(c, n).conns == PairAt(now + 1, now + 1 == n).conns;
  }

  lemma {:induction false} PairSwept(now: nat, n: nat)
    requires 1 <= now < n
    ensures Legal(PairAt(now, false), Ticks(n - now), n)
      && After(PairAt(now, false), Ticks(n - now), n) == PairAt(n, true)
    decreases n - now
  {
    var evs := Ticks(n - now);
    assert evs[0] == Tick && evs[1..] == Ticks(n - now - 1);
    PairTicks(now, n);
    hide Step;
    if now + 1 < n {
      PairSwept(now + 1, n);
    } else {
      assert evs[1..] == [];
    }
  }

  /** A tick at which no bucket is due changes the time only. */
  lemma NobodyOldest(c: Clock, n: nat)
    requires n > 0 && Oldest(c, n) == {}
    ensures Step(c, Tick, n) == c.(now := c.now + 1)
  {
    assert forall x :: x !in Victims(c.conns, {});
    assert Rotated(c, n).conns == c.conns;
  }

  lemma PairForms(n: nat)
    requires n >= 2
    ensures var evs := [Attach(1, Relay.Client), Attach(2, Relay.Client), Become(2), Match(2, 1), Tick, Update(2)];
            Legal(START, evs, n) && After(START, evs, n) == PairAt(1, false)
  {
    var evs := [Attach(1, Relay.Client), Attach(2, Relay.Client), Become(2), Match(2, 1), Tick, Update(2)];
    var c0, s0 := Entry(Relay.Client, None, 0, false), Entry(Relay.IdleServer, None, 0, false);
    var a := Clock(0, map[1 := c0]);
    var b := Clock(0, map[1 := c0, 2 := c0]);
    var d := Clock(0, map[1 := c0, 2 := s0]);
    var e := Clock(0, map[1 := c0.(other := Some(2)), 2 := Entry(Relay.BusyServer, Some(1), 0, false)]);
    var f := e.(now := 1);
    assert Step(START, evs[0], n) == a && Step(a, evs[1], n) == b && Step(b, evs[2], n) == d && Step(d, evs[3], n) == e;
    NobodyOldest(e, n);
    assert Step(e, evs[4], n) == f;
    BucketsDiffer(0, 1, n);
    assert Step(f, evs[5], n) == PairAt(1, false);
    hide Step, Legal, After;
    RunOne(f, evs[5], [], n);
    RunOne(e, evs[4], [evs[5]], n);
    RunOne(d, evs[3], [evs[4], evs[5]], n);
    RunOne(b, evs[2], [evs[3], evs[4], evs[5]], n);
    RunOne(a, evs[1], [evs[2], evs[3], evs[4], evs[5]], n);
    RunOne(START, evs[0], [evs[1], evs[2], evs[3], evs[4], evs[5]], n);
    RunNone(PairAt(1, false), n);
  }

  lemma RunOne(c: Clock, ev: Event, evs: seq<Event>, n: nat)
    requires n > 0 && Enabled(c, ev)
    ensures Legal(Step(c, ev, n), evs, n) ==>
      Legal(c, [ev] + evs, n) && After(c, [ev] + evs, n) == After(Step(c, ev, n), evs, n)
  {
    assert ([ev] + evs)[1..] == evs;
  }

  lemma RunNone(c: Clock, n: nat)
    requires n > 0
    ensures Legal(c, [], n) && After(c, [], n) == c
  {
  }

  /** The server goes away. */
  lemma ServerGone(n: nat)
    requires n >= 2
    ensures Legal(PairAt(n, true), [Close(2)], n)
    ensures var c := After(PairAt(n, true), [Close(2)], n); 1 in c.conns && c.conns[1].swept && c.conns[1].other == None
  {
    var end := Step(PairAt(n, true), Close(2), n);
    assert 1 in end.conns && end.conns[1].swept && end.conns[1].other == None;
    assert Enabled(PairAt(n, true), Close(2)) && [Close(2)] + [] == [Close(2)];
    hide Step, PairAt, Enabled;
    RunOne(PairAt(n, true), Close(2), [], n);
    RunNone(end, n);
  }

  /** For every capacity but 1 there is a run after which a swept connection has no peer. */
  lemma SweptIsReached(n: nat)
    requires n >= 2
    ensures Legal(START, SweptRun(n), n)
    ensures var c := After(START, SweptRun(n), n); 1 in c.conns && c.conns[1].swept && c.conns[1].other == None
  {
    var evs := [Attach(1, Relay.Client), Attach(2, Relay.Client), Become(2), Match(2, 1), Tick, Update(2)];
    PairForms(n);
    PairSwept(1, n);
    ServerGone(n);
    hide Step, Ticks, PairAt, Enabled, Legal, After;
    RunTogether(PairAt(1, false), Ticks(n - 1), [Close(2)], n);
    RunTogether(START, evs, Ticks(n - 1) + [Close(2)], n);
  }

  /**
   A rotation leaves out of the wheel exactly the matched clients of its oldest bucket whose servers were
   active later: for them silence is not measured any more until an update in a tick of another bucket.
  */
  lemma SweptByRotation(c: Clock, x: Id, n: nat)
    requires n > 0 && Reachable(c, n) && x in c.conns && !c.conns[x].swept
    ensures var c' := Rotated(c, n);
            x in c'.conns && c'.conns[x].swept <==>
              && MatchedClient(c.conns[x]) && c.conns[x].mark + n == c.now + 1
              && c.conns[x].other.value !in Oldest(c, n)
  {
    if c.conns[x].other.Some? { assert Mutual(c.conns, x, c.conns[x].other.value); }
  }

  /** An update puts a swept connection back exactly if its old bucket is not the newest one at that moment. */
  lemma UpdateRevives(c: Clock, x: Id, n: nat)
    requires n > 0 && Reachable(c, n) && x in c.conns && c.conns[x].swept
    ensures var e := Updated(c, x, n).conns[x];
            !e.swept <==> (c.now - c.conns[x].mark) % n != 0
    ensures var e := Updated(c, x, n).conns[x];
            !e.swept ==> e.mark == c.now
  {
    assert InTime(c, x, n);
    var a, b := c.conns[x].mark, c.now;
    ModDifference(a, b, n);
  }

  lemma ModDifference(a: nat, b: nat, n: nat)
    requires n > 0 && a <= b
    ensures a % n == b % n <==> (b - a) % n == 0
  {
    var p, q := a / n, b / n;
    assert a == p * n + a % n && b == q * n + b % n;
    if a % n == b % n {
      assert b - a == (q - p) * n;
      MulMod(q - p, n);
    }
    if (b - a) % n == 0 {
      var k := (b - a) / n;
      assert b == (k + p) * n + a % n;
      ModUnique(b, k + p, a % n, n);
    }
  }

  lemma MulMod(k: int, n: nat)
    requires n > 0
    ensures (k * n) % n == 0
  {
    ModUnique(k * n, k, 0, n);
  }

  lemma ModUnique(b: int, k: int, r: int, n: nat)
    requires n > 0 && 0 <= r < n && b == k * n + r
    ensures b % n == r
  {
    var q, s := b / n, b % n;
    assert b == q * n + s && (k - q) * n == s - r && (q - k) * n == r - s;
    if k > q { Multiple(k - q, n); }
    if k < q { Multiple(q - k, n); }
  }

  lemma Multiple(d: int, n: nat)
    requires d >= 1
    ensures d * n >= n
  {
    assert d * n == n + (d - 1) * n;
  }
}
