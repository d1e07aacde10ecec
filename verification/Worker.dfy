/**
 A worker's timing wheel, core/worker.cpp: a ring of buckets of connections, and the sweep of a bucket, which
 walks a set its own callees erase from.  Each method is proved against the timestamps of TimingWheel.
*/
module Worker {
  import opened Chunks
  import Relay
  import opened TimingWheel
  import Ring = CircleBuffer

  type Bucket = set<Id>

  /** A live connection; `slot` is the bucket its `cb_tail_` points to. */
  datatype Member = Member(kind: Relay.Kind, other: Option<Id>, slot: nat)

  // ---------------------------------------------------------------- a bucket's traversal order

  predicate Distinct(s: seq<Id>) {
    s == [] || (s[0] !in s[1..] && Distinct(s[1..]))
  }

  /** erase */
  function Without(s: seq<Id>, x: Id): (r: seq<Id>)
    ensures forall y :: y in r <==> y in s && y != x
  {
    if s == [] then [] else if s[0] == x then Without(s[1..], x) else [s[0]] + Without(s[1..], x)
  }

  function First(s: seq<Id>): Option<Id> {
    if s == [] then None else Some(s[0])
  }

  /** The iterator after `x` has been passed. */
  function Next(s: seq<Id>, x: Id): Option<Id>
    requires x in s
  {
    if s[0] == x then First(s[1..]) else Next(s[1..], x)
  }

  lemma {:induction false} WithoutConcat(s: seq<Id>, t: seq<Id>, x: Id)
    ensures Without(s + t, x) == Without(s, x) + Without(t, x)
  {
    if s == [] {
      assert s + t == t;
    } else {
      assert (s + t)[1..] == s[1..] + t;
      WithoutConcat(s[1..], t, x);
    }
  }

  lemma {:induction false} WithoutNothing(s: seq<Id>, x: Id)
    requires x !in s
    ensures Without(s, x) == s
  {
    if s != [] { WithoutNothing(s[1..], x); }
  }

  lemma {:induction false} NextConcat(s: seq<Id>, x: Id, t: seq<Id>)
    requires x !in s
    ensures x in s + ([x] + t) && Next(s + ([x] + t), x) == First(t)
  {
    var all := s + ([x] + t);
    assert all[|s|] == x;
    if s == [] {
      assert all[1..] == t;
    } else {
      assert all[1..] == s[1..] + ([x] + t);
      NextConcat(s[1..], x, t);
    }
  }

  lemma {:induction false} DistinctParts(s: seq<Id>, t: seq<Id>)
    requires Distinct(s + t)
    ensures Distinct(t) && forall x :: x in t ==> x !in s
  {
    if s == [] {
      assert s + t == t;
    } else {
      assert (s + t)[1..] == s[1..] + t;
      DistinctParts(s[1..], t);
    }
  }

  lemma {:induction false} WithoutKeepsDistinct(s: seq<Id>, x: Id)
    requires Distinct(s)
    ensures Distinct(Without(s, x))
  {
    if s != [] {
      WithoutKeepsDistinct(s[1..], x);
      var r := Without(s[1..], x);
      assert ([s[0]] + r)[1..] == r;
    }
  }

  lemma {:induction false} AppendDistinct(s: seq<Id>, t: seq<Id>)
    requires Distinct(s) && Distinct(t) && Elements(s) !! Elements(t)
    ensures Distinct(s + t)
  {
    if s == [] {
      assert s + t == t;
    } else {
      assert forall x :: x in s[1..] ==> x in Elements(s);
      AppendDistinct(s[1..], t);
      assert s[0] in Elements(s) && s[0] !in t && s[0] !in s[1..] + t;
      assert (s + t)[0] == s[0] && (s + t)[1..] == s[1..] + t;
    }
  }

  /** Erasing the element the iterator has just passed. */
  lemma EraseVisited(done: seq<Id>, todo: seq<Id>, x: Id)
    requires Distinct(done + ([x] + todo))
    ensures Without(done + ([x] + todo), x) == done + todo && Distinct(done + todo)
    ensures x !in done && x !in todo
  {
    DistinctParts(done, [x] + todo);
    assert ([x] + todo)[1..] == todo && x in [x] + todo;
    WithoutConcat(done, [x] + todo, x);
    WithoutNothing(done, x);
    WithoutNothing(todo, x);
    WithoutKeepsDistinct(done + ([x] + todo), x);
  }

  lemma {:induction false} WithoutHead(todo: seq<Id>, x: Id)
    requires Distinct(todo)
    ensures First(Without(todo, x)) == if todo != [] && todo[0] == x then First(todo[1..]) else First(todo)
    ensures |Without(todo, x)| <= |todo|
  {
    if todo != [] && todo[0] == x {
      assert x !in todo[1..];
      WithoutNothing(todo[1..], x);
    } else if todo != [] {
      WithoutShorter(todo[1..], x);
    }
  }

  lemma {:induction false} WithoutShorter(s: seq<Id>, x: Id)
    ensures |Without(s, x)| <= |s|
  {
    if s != [] { WithoutShorter(s[1..], x); }
  }

  /**
   Erasing `x` from the list while the iterator stands between `done` and `todo`: the iterator must be moved
   first exactly if it points to `x`, and then stands at the right place again.
  */
  lemma EraseBeside(done: seq<Id>, todo: seq<Id>, x: Id)
    requires Distinct(done + todo)
    ensures Without(done + todo, x) == Without(done, x) + Without(todo, x) && Distinct(Without(done + todo, x))
    ensures First(todo) == Some(x) ==> x in done + todo
    ensures First(Without(todo, x)) == if First(todo) == Some(x) then Next(done + todo, x) else First(todo)
    ensures |Without(todo, x)| <= |todo|
  {
    DistinctParts(done, todo);
    WithoutConcat(done, todo, x);
    WithoutKeepsDistinct(done + todo, x);
    WithoutHead(todo, x);
    if First(todo) == Some(x) {
      assert todo == [x] + todo[1..];
      NextConcat(done, x, todo[1..]);
    }
  }

  function Elements(s: seq<Id>): set<Id> {
    set x | x in s
  }

  lemma ElementsWithout(s: seq<Id>, x: Id)
    ensures Elements(Without(s, x)) == Elements(s) - {x}
  {
  }

  lemma ElementsConcat(s: seq<Id>, t: seq<Id>)
    ensures Elements(s + t) == Elements(s) + Elements(t)
  {
  }

  /** The connections and their timestamps are of the same kind and have the same peers. */
  ghost predicate Mirrors(conns: map<Id, Member>, entries: map<Id, Entry>) {
    conns.Keys == entries.Keys && forall x :: x in conns ==>
      conns[x].kind == entries[x].kind && conns[x].other == entries[x].other
  }

  /** Every element of a bucket is alive and refers to that bucket. */
  ghost predicate PlacedIn(conns: map<Id, Member>, data: seq<Bucket>) {
    && (forall x :: x in conns ==> conns[x].slot < |data|)
    && (forall j, x :: 0 <= j < |data| && x in data[j] ==> x in conns && conns[x].slot == j)
  }

  /** The buckets show the timestamps: bucket `t % n` holds those of tick `t` that no sweep has left out. */
  ghost predicate Shows(conns: map<Id, Member>, data: seq<Bucket>, entries: map<Id, Entry>) {
    && Mirrors(conns, entries)
    && forall x :: x in conns ==> ShowsOne(conns[x], data, x, entries[x])
  }

  ghost predicate ShowsOne(m: Member, data: seq<Bucket>, x: Id, e: Entry) {
    && |data| > 0
    && m.slot == BucketOf(e.mark, |data|)
    && (x in data[m.slot] <==> !e.swept)
  }

  /** The sweep of the oldest bucket, which then becomes the newest and is empty. */
  lemma RotatedShown(conns: map<Id, Member>, data: seq<Bucket>, c: Clock, f: nat)
    requires f < |data| && PlacedIn(conns, data) && Shows(conns, data, c.conns) && data[f] == Oldest(c, |data|)
    ensures var gone := Victims(c.conns, data[f]);
            && PlacedIn(conns - gone, Purged(data, gone)[f := {}])
            && Shows(conns - gone, Purged(data, gone)[f := {}], Rotated(c, |data|).conns)
  {
    var gone := Victims(c.conns, data[f]);
    var conns', data', es := conns - gone, Purged(data, gone)[f := {}], Rotated(c, |data|).conns;
    hide Victims, Purged, PlacedIn, Shows, Mirrors, Rotated, ShowsOne;
    RotatedPlaced(conns, data, f, gone);
    ShowsFaces(conns, data, c.conns);
    RotatedMirrors(conns, data, c, f);
    forall x | x in conns'
      ensures ShowsOne(conns'[x], data', x, es[x])
    {
      RotatedOne(conns, data, c, f, x);
    }
    ShowsFrom(conns', data', es);
  }

  lemma ShowsFrom(conns: map<Id, Member>, data: seq<Bucket>, es: map<Id, Entry>)
    requires Mirrors(conns, es) && conns.Keys == es.Keys && forall x :: x in conns ==>
      ShowsOne(conns[x], data, x, es[x])
    ensures Shows(conns, data, es)
  {
  }

  lemma RotatedPlaced(conns: map<Id, Member>, data: seq<Bucket>, f: nat, gone: set<Id>)
    requires f < |data| && PlacedIn(conns, data)
    ensures PlacedIn(conns - gone, Purged(data, gone)[f := {}])
  {
    PurgedAt(data, gone);
    hide Purged;
  }

  lemma RotatedMirrors(conns: map<Id, Member>, data: seq<Bucket>, c: Clock, f: nat)
    requires f < |data| && Mirrors(conns, c.conns) && data[f] == Oldest(c, |data|)
    ensures var gone, es := Victims(c.conns, data[f]), Rotated(c, |data|).conns;
            Mirrors(conns - gone, es) && (conns - gone).Keys == es.Keys
  {
    hide Victims, Oldest;
  }

  lemma RotatedOne(conns: map<Id, Member>, data: seq<Bucket>, c: Clock, f: nat, x: Id)
    requires f < |data| && PlacedIn(conns, data) && Shows(conns, data, c.conns) && data[f] == Oldest(c, |data|)
    requires var gone := Victims(c.conns, data[f]); x in conns && x !in gone
    ensures var gone, es := Victims(c.conns, data[f]), Rotated(c, |data|).conns;
            x in es && ShowsOne(conns[x], Purged(data, gone)[f := {}], x, es[x])
  {
    PurgedAt(data, Victims(c.conns, data[f]));
    assert ShowsOne(conns[x], data, x, c.conns[x]);
    assert x in data[f] ==> conns[x].slot == f;
    hide Victims, Purged, Oldest, BucketOf;
  }

  /** `other_->other_ = NULL` */
  function Released(conns: map<Id, Member>, o: Option<Id>): map<Id, Member>
    requires o.Some? ==> o.value in conns
  {
    if o == None then conns else conns[o.value := conns[o.value].(other := None)]
  }

  /** What has not moved is still shown; connection `x` alone may have moved. */
  lemma StillShown(conns: map<Id, Member>, data: seq<Bucket>, es: map<Id, Entry>,
                   conns': map<Id, Member>, data': seq<Bucket>, es': map<Id, Entry>, x: Option<Id>)
    requires Shows(conns, data, es) && Mirrors(conns', es') && |data'| == |data|
    requires forall y :: y in conns' && Some(y) != x ==>
               && y in conns && conns'[y].slot == conns[y].slot && conns[y].slot < |data|
               && es'[y].mark == es[y].mark && es'[y].swept == es[y].swept
               && (y in data'[conns[y].slot] <==> y in data[conns[y].slot])
    requires x.Some? && x.value in conns' ==> ShowsOne(conns'[x.value], data', x.value, es'[x.value])
    ensures Shows(conns', data', es')
  {
    hide BucketOf;
    forall y | y in conns'
      ensures ShowsOne(conns'[y], data', y, es'[y])
    {
      if Some(y) != x { assert ShowsOne(conns[y], data, y, es[y]); }
    }
  }

  /** A connection is closed and its peer loses it. */
  lemma ClosedShown(conns: map<Id, Member>, data: seq<Bucket>, c: Clock, x: Id)
    requires PlacedIn(conns, data) && Shows(conns, data, c.conns) && PeersAgree(c.conns) && x in conns
    ensures var o, conns' := conns[x].other, Released(conns, conns[x].other) - {x};
            && (o.Some? ==> o.value in conns && o.value != x)
            && PlacedIn(conns', Purged(data, {x})) && Shows(conns', Purged(data, {x}), Closed(c, x).conns)
  {
    hide Mirrors, PeersAgree, Purged, PlacedIn, Shows, Closed, Released;
    ShowsFaces(conns, data, c.conns);
    PeerThere(conns, c, x);
    ClosedPlaced(conns, data, x);
    ClosedMirrors(conns, c, x);
    ClosedSame(conns, data, c, x);
    StillShown(conns, data, c.conns, Released(conns, conns[x].other) - {x},
      Purged(data, {x}), Closed(c, x).conns, None);
  }

  lemma ShowsFaces(conns: map<Id, Member>, data: seq<Bucket>, es: map<Id, Entry>)
    requires Shows(conns, data, es)
    ensures Mirrors(conns, es) && conns.Keys == es.Keys
  {
  }

  lemma ClosedSame(conns: map<Id, Member>, data: seq<Bucket>, c: Clock, x: Id)
    requires PlacedIn(conns, data) && conns.Keys == c.conns.Keys && x in conns
    requires conns[x].other.Some? ==> conns[x].other.value in conns
    ensures var conns', es := Released(conns, conns[x].other) - {x}, Closed(c, x).conns;
            forall y :: y in conns' ==>
              && y in conns && y in es && conns'[y].slot == conns[y].slot && conns[y].slot < |data|
              && es[y].mark == c.conns[y].mark && es[y].swept == c.conns[y].swept
              && (y in Purged(data, {x})[conns[y].slot] <==> y in data[conns[y].slot])
  {
    PurgedAt(data, {x});
    hide Purged;
  }

  lemma PeerThere(conns: map<Id, Member>, c: Clock, x: Id)
    requires Mirrors(conns, c.conns) && PeersAgree(c.conns) && x in conns
    ensures conns[x].other.Some? ==> conns[x].other.value in conns && conns[x].other.value != x
  {
    if conns[x].other.Some? { assert Mutual(c.conns, x, conns[x].other.value); }
  }

  lemma PurgedAt(data: seq<Bucket>, gone: set<Id>)
    ensures forall j :: 0 <= j < |data| ==> Purged(data, gone)[j] == data[j] - gone
  {
  }

  lemma ReleasedPlaced(conns: map<Id, Member>, data: seq<Bucket>, o: Option<Id>)
    requires PlacedIn(conns, data) && (o.Some? ==> o.value in conns)
    ensures PlacedIn(Released(conns, o), data)
  {
  }

  lemma ClosedPlaced(conns: map<Id, Member>, data: seq<Bucket>, x: Id)
    requires PlacedIn(conns, data) && x in conns && (conns[x].other.Some? ==> conns[x].other.value in conns)
    ensures PlacedIn(Released(conns, conns[x].other) - {x}, Purged(data, {x}))
  {
    PurgedAt(data, {x});
    hide Purged;
  }

  lemma ClosedMirrors(conns: map<Id, Member>, c: Clock, x: Id)
    requires Mirrors(conns, c.conns) && x in conns && (conns[x].other.Some? ==> conns[x].other.value in conns)
    ensures Mirrors(Released(conns, conns[x].other) - {x}, Closed(c, x).conns)
  {
  }

  /** A connection moves to the bucket of the present tick. */
  lemma UpdatedShown(conns: map<Id, Member>, data: seq<Bucket>, c: Clock, x: Id)
    requires PlacedIn(conns, data) && Shows(conns, data, c.conns) && x in conns
    requires conns[x].slot != BucketOf(c.now, |data|)
    ensures var slot, tail := conns[x].slot, BucketOf(c.now, |data|);
            var conns', data' := conns[x := conns[x].(slot := tail)], data[slot := data[slot] - {x}];
            && PlacedIn(conns', data'[tail := data'[tail] + {x}])
            && Shows(conns', data'[tail := data'[tail] + {x}], Updated(c, x, |data|).conns)
  {
    var slot, tail := conns[x].slot, BucketOf(c.now, |data|);
    var data' := data[slot := data[slot] - {x}][tail := data[tail] + {x}];
    var conns', es := conns[x := conns[x].(slot := tail)], Updated(c, x, |data|).conns;
    assert ShowsOne(conns[x], data, x, c.conns[x]);
    hide BucketOf;
    assert es == c.conns[x := c.conns[x].(mark := c.now, swept := false)];
    MovedPlaced(conns, data, x, tail);
    MovedMirrors(conns, c.conns, x, conns'[x], es[x]);
    assert ShowsOne(conns'[x], data', x, es[x]);
    hide Mirrors;
    StillShown(conns, data, c.conns, conns', data', es, Some(x));
    hide Shows;
  }

  lemma MovedPlaced(conns: map<Id, Member>, data: seq<Bucket>, x: Id, tail: nat)
    requires PlacedIn(conns, data) && x in conns && tail < |data| && conns[x].slot != tail
    ensures var slot := conns[x].slot;
            PlacedIn(conns[x := conns[x].(slot := tail)], data[slot := data[slot] - {x}][tail := data[tail] + {x}])
  {
  }

  lemma MovedMirrors(conns: map<Id, Member>, es: map<Id, Entry>, x: Id, m: Member, e: Entry)
    requires Mirrors(conns, es) && m.kind == e.kind && m.other == e.other
    ensures Mirrors(conns[x := m], es[x := e])
  {
  }

  /** A new connection goes into the bucket of the present tick. */
  lemma AttachedShown(conns: map<Id, Member>, data: seq<Bucket>, c: Clock, x: Id, kind: Relay.Kind)
    requires PlacedIn(conns, data) && Shows(conns, data, c.conns) && x !in conns && |data| > 0
    ensures var tail := BucketOf(c.now, |data|);
            var conns', data' := conns[x := Member(kind, None, tail)], data[tail := data[tail] + {x}];
            PlacedIn(conns', data') && Shows(conns', data', c.conns[x := Entry(kind, None, c.now, false)])
  {
    var tail, e := BucketOf(c.now, |data|), Entry(kind, None, c.now, false);
    var conns', data' := conns[x := Member(kind, None, tail)], data[tail := data[tail] + {x}];
    hide BucketOf;
    AddedPlaced(conns, data, x, kind, tail);
    MovedMirrors(conns, c.conns, x, conns'[x], e);
    assert ShowsOne(conns'[x], data', x, e);
    hide Mirrors;
    StillShown(conns, data, c.conns, conns', data', c.conns[x := e], Some(x));
    hide Shows;
  }

  lemma AddedPlaced(conns: map<Id, Member>, data: seq<Bucket>, x: Id, kind: Relay.Kind, tail: nat)
    requires PlacedIn(conns, data) && x !in conns && tail < |data|
    ensures PlacedIn(conns[x := Member(kind, None, tail)], data[tail := data[tail] + {x}])
  {
  }

  /** Kinds and peers do not show in the buckets. */
  lemma FacesShown(conns: map<Id, Member>, data: seq<Bucket>, es: map<Id, Entry>,
                   conns': map<Id, Member>, es': map<Id, Entry>)
    requires PlacedIn(conns, data) && Shows(conns, data, es) && Mirrors(conns', es') && conns'.Keys == conns.Keys
    requires forall y :: y in conns ==> conns'[y].slot == conns[y].slot
    requires forall y :: y in conns ==> es'[y].mark == es[y].mark && es'[y].swept == es[y].swept
    ensures PlacedIn(conns', data) && Shows(conns', data, es')
  {
    StillShown(conns, data, es, conns', data, es', None);
    hide Shows, Mirrors;
  }

  lemma MatchShown(conns: map<Id, Member>, data: seq<Bucket>, c: Clock, s: Id, x: Id)
    requires PlacedIn(conns, data) && Shows(conns, data, c.conns) && |data| > 0 && Enabled(c, Event.Match(s, x))
    ensures var conns' := conns[s := conns[s].(kind := Relay.BusyServer, other := Some(x))]
                               [x := conns[x].(other := Some(s))];
            PlacedIn(conns', data) && Shows(conns', data, Step(c, Event.Match(s, x), |data|).conns)
  {
    hide BucketOf, PlacedIn;
    var es := Step(c, Event.Match(s, x), |data|).conns;
    var conns' := conns[s := conns[s].(kind := Relay.BusyServer, other := Some(x))][x := conns[x].(other := Some(s))];
    MovedMirrors(conns, c.conns, s, conns'[s], es[s]);
    MovedMirrors(conns[s := conns'[s]], c.conns[s := es[s]], x, conns'[x], es[x]);
    FacesShown(conns, data, c.conns, conns', es);
  }

  lemma BecomeShown(conns: map<Id, Member>, data: seq<Bucket>, c: Clock, x: Id)
    requires PlacedIn(conns, data) && Shows(conns, data, c.conns) && x in conns
    ensures var conns' := conns[x := conns[x].(kind := Relay.IdleServer)];
            PlacedIn(conns', data) && Shows(conns', data, c.conns[x := c.conns[x].(kind := Relay.IdleServer)])
  {
    hide PlacedIn;
    var conns', es := conns[x := conns[x].(kind := Relay.IdleServer)],
      c.conns[x := c.conns[x].(kind := Relay.IdleServer)];
    MovedMirrors(conns, c.conns, x, conns'[x], es[x]);
    FacesShown(conns, data, c.conns, conns', es);
  }

  /** The buckets without the connections in `gone`. */
  ghost function Purged(data: seq<Bucket>, gone: set<Id>): (r: seq<Bucket>)
    ensures |r| == |data|
  {
    seq(|data|, i requires 0 <= i < |data| => data[i] - gone)
  }

  lemma PurgedTwice(data: seq<Bucket>, a: set<Id>, b: set<Id>)
    ensures Purged(Purged(data, a), b) == Purged(data, a + b)
  {
    assert forall i :: 0 <= i < |data| ==> (data[i] - a) - b == data[i] - (a + b);
  }

  lemma PurgedNone(data: seq<Bucket>)
    ensures Purged(data, {}) == data
  {
    assert forall i :: 0 <= i < |data| ==> data[i] - {} == data[i];
  }

  lemma ReleasedNone(conns: map<Id, Member>)
    ensures Released(conns, None) == conns
  {
  }

  /** Closing a server and then its client. */
  lemma ReleasedTwice(conns: map<Id, Member>, x: Id, y: Id)
    requires x in conns && y in conns && x != y
    ensures var conns' := Released(conns, Some(y)) - {x};
            && y in conns' && conns'[y] == conns[y].(other := None)
            && Released(conns', None) - {y} == conns - {x, y}
  {
  }

  /** Which connections closing `x` in the sweep closes, in order. */
  function Fallen(x: Id, kind: Relay.Kind, other: Option<Id>): seq<Id> {
    if other == None then [x] else if kind == Relay.Client then [] else [x, other.value]
  }

  lemma FallenElements(x: Id, kind: Relay.Kind, other: Option<Id>)
    requires other != Some(x)
    ensures var s := Fallen(x, kind, other);
            && Distinct(s)
            && Elements(s) == if other == None then {x} else if kind == Relay.Client then {} else {x, other.value}
  {
    if other.Some? { assert [x, other.value][1..] == [other.value]; }
    assert [x][1..] == [];
  }

  /** The victims of those visited are gone; of the bucket's elements in the list, the visited ones come first. */
  ghost predicate Accounted(conns: map<Id, Entry>, seen: set<Id>, gone: set<Id>, done: seq<Id>, todo: seq<Id>) {
    && gone == Victims(conns, seen)
    && (forall y :: y in todo ==> y !in seen)
    && (forall y :: y in done ==> y in seen)
  }

  /** One more visited: the peer, if closed with it, is no longer in the list. */
  lemma AccountedOneMore(conns: map<Id, Entry>, seen: set<Id>, gone: set<Id>, done: seq<Id>, x: Id, rest: seq<Id>,
                         done': seq<Id>, todo': seq<Id>)
    requires PeersAgree(conns) && x in conns && Accounted(conns, seen, gone, done, [x] + rest) && x !in rest
    requires Elements(todo') <= Elements(rest) && Elements(done') <= Elements(done) + {x}
    ensures Accounted(conns, seen + {x}, gone + Elements(Fallen(x, conns[x].kind, conns[x].other)), done', todo')
  {
    assert x in [x] + rest && forall y :: y in rest ==> y in [x] + rest;
    assert conns[x].other != Some(x) by {
      if conns[x].other.Some? { assert Mutual(conns, x, conns[x].other.value); }
    }
    FallenElements(x, conns[x].kind, conns[x].other);
    VictimsOfOneMore(conns, seen, x);
    assert forall y :: y in todo' ==> y in Elements(todo');
    assert forall y :: y in done' ==> y in Elements(done');
    hide Victims, PeersAgree, Fallen;
  }

  /** The slot after the newest one holds what is `n - 1` ticks old. */
  lemma LastSlot(mark: nat, now: nat, n: nat)
    requires n > 0 && mark <= now < mark + n
    ensures BucketOf(mark, n) == BucketOf(now + 1, n) <==> mark + n == now + 1
  {
    var d := now + 1 - mark;
    ModDifference(mark, now + 1, n);
    if d < n { ModUnique(d, 0, d, n); } else { ModUnique(d, 1, 0, n); }
  }

  lemma NextSlot(a: nat, n: nat)
    requires n > 0
    ensures BucketOf(a + 1, n) == if BucketOf(a, n) + 1 < n then BucketOf(a, n) + 1 else 0
  {
    if a % n + 1 < n { ModUnique(a + 1, a / n, a % n + 1, n); } else { ModUnique(a + 1, a / n + 1, 0, n); }
  }

  lemma StartSlots(n: nat)
    requires n > 0
    ensures BucketOf(n - 1, n) == n - 1 && BucketOf((n - 1) + 1, n) == 0
  {
    ModUnique(n - 1, 0, n - 1, n);
    ModUnique(n, 1, 0, n);
  }

  // ---------------------------------------------------------------- the worker

  class Worker {
    const buckets: Ring.CircleBuffer<Bucket>
    var conns: map<Id, Member>
    /** The order in which the hash set being swept yields its elements. */
    var order: seq<Id>
    /** The same connections with their timestamps; tick `t` uses bucket `t % n`. */
    ghost var clock: Clock

    ghost predicate Placed()
      reads this, buckets, buckets.data
    {
      PlacedIn(conns, buckets.data[..])
    }

    /** The wheel shows the clock. */
    ghost predicate Valid()
      reads this, buckets, buckets.data
    {
      && buckets.Valid() && buckets.size == buckets.data.Length > 0
      && Placed() && Shows(conns, buckets.data[..], clock.conns)
      && Reachable(clock, buckets.data.Length)
      && buckets.back == BucketOf(clock.now, buckets.data.Length)
      && buckets.front == BucketOf(clock.now + 1, buckets.data.Length)
    }

    constructor (n: nat)
      requires 0 < n < WORD
      ensures Valid() && fresh(buckets) && fresh(buckets.data)
      ensures buckets.data.Length == n && clock == Clock(n - 1, map[])
    {
      buckets := new Ring.CircleBuffer<Bucket>(n, {});
      conns, order, clock := map[], [], Clock(n - 1, map[]);
      new;
      StartSlots(n);
      assert Placed();
      hide Placed;
      assert Shows(conns, buckets.data[..], clock.conns) && Reachable(clock, n);
      hide Shows, Reachable;
    }

    /** `delete this`: the destructor takes the connection out of the bucket it refers to. */
    method Delete(x: Id)
      requires Placed() && x in conns
      modifies this`conns, this`order, buckets.data
      ensures Placed()
      ensures conns == old(conns) - {x} && order == Without(old(order), x)
      ensures buckets.data[..] == Purged(old(buckets.data[..]), {x})
    {
      var slot := conns[x].slot;
      buckets.data[slot] := buckets.data[slot] - {x};
      conns := conns - {x};
      order := Without(order, x);
      assert forall j :: 0 <= j < buckets.data.Length ==> buckets.data[..][j] == old(buckets.data[..])[j] - {x};
    }

    /** close(IDLE_TIMEOUT): a matched client is spared, a server lets go of its peer first. */
    method CloseIdle(x: Id) returns (deleted: bool)
      requires Placed() && x in conns
      requires conns[x].other.Some? ==> conns[x].other.value in conns && conns[x].other.value != x
      modifies this`conns, this`order, buckets.data
      ensures Placed()
      ensures deleted <==> old(conns[x].other == None || conns[x].kind != Relay.Client)
      ensures !deleted ==> conns == old(conns) && order == old(order) && buckets.data[..] == old(buckets.data[..])
      ensures deleted ==>
                && conns == Released(old(conns), old(conns[x].other)) - {x}
                && order == Without(old(order), x) && buckets.data[..] == Purged(old(buckets.data[..]), {x})
    {
      deleted := false;
      if conns[x].other == None {
        Delete(x);
        deleted := true;
      } else if conns[x].kind != Relay.Client {
        var o := conns[x].other.value;
        conns := conns[o := conns[o].(other := None)];
        Delete(x);
        deleted := true;
      }
    }

    /** Close the client of a server that has just been closed, moving the iterator off it first. */
    method CloseClient(o: Id, next: Option<Id>, ghost done: seq<Id>, ghost todo: seq<Id>)
        returns (it: Option<Id>)
      requires Placed() && Distinct(order)
      requires order == done + todo && next == First(todo)
      requires o in conns && conns[o].other == None
      modifies this`conns, this`order, buckets.data
      ensures Placed() && Distinct(order)
      ensures conns == Released(old(conns), None) - {o}
      ensures buckets.data[..] == Purged(old(buckets.data[..]), {o})
      ensures order == Without(done, o) + Without(todo, o) && it == First(Without(todo, o))
      ensures Elements(order) == old(Elements(order)) - {o} && |Without(todo, o)| <= |todo|
    {
      it := next;
      EraseBeside(done, todo, o);
      WithoutKeepsDistinct(order, o);
      ElementsWithout(order, o);
      hide Distinct, Without, Next, First, Placed, Elements, Purged;
      if o in order && it == Some(o) {
        it := Next(order, o);
      }
      var deleted := CloseIdle(o);
    }

    /**
     One turn of the sweep: close `x`, then its client.  `todo` is what follows `x` in the bucket; the iterator
     points to its head before and after.
    */
    method SweepOne(x: Id, next: Option<Id>, ghost done: seq<Id>, ghost todo: seq<Id>)
        returns (it: Option<Id>, closed: seq<Id>, ghost done': seq<Id>, ghost todo': seq<Id>)
      requires Placed() && Distinct(order)
      requires order == done + ([x] + todo) && next == First(todo)
      requires x in conns && (conns[x].other.Some? ==> PeerOf(x, conns[x].other.value))
      modifies this`conns, this`order, buckets.data
      ensures Placed() && Distinct(order)
      ensures order == done' + todo' && it == First(todo') && |todo'| <= |todo|
      ensures Elements(todo') <= Elements(todo) && Elements(done') <= Elements(done) + {x}
      ensures closed == Fallen(x, old(conns[x].kind), old(conns[x].other))
      ensures Elements(order) == old(Elements(order)) - Elements(closed)
      ensures conns == old(conns) - Elements(closed)
      ensures buckets.data[..] == Purged(old(buckets.data[..]), Elements(closed))
    {
      hide Distinct, Without, Next, First, Placed, Purged, Released;
      it, closed := next, [];
      EraseVisited(done, todo, x);
      WithoutKeepsDistinct(order, x);
      ElementsWithout(order, x);
      ElementsConcat(done, [x]);
      FallenElements(x, conns[x].kind, conns[x].other);
      PurgedNone(buckets.data[..]);
      ReleasedNone(conns);
      var other := conns[x].other;
      if other.Some? {
        ReleasedTwice(conns, x, other.value);
        PurgedTwice(buckets.data[..], {x}, {other.value});
      }
      assert x in order by { assert order[|done|] == x; }
      var deleted := CloseIdle(x);
      if deleted {
        closed := [x];
        done', todo' := done, todo;
      } else {
        done', todo' := done + [x], todo;
        assert done + ([x] + todo) == done' + todo';
      }
      assert Elements(done') <= Elements(done) + {x};
      if other.Some? && conns[other.value].kind == Relay.Client {
        it := CloseClient(other.value, it, done', todo');
        ElementsWithout(done', other.value);
        ElementsWithout(todo', other.value);
        done', todo' := Without(done', other.value), Without(todo', other.value);
        closed := closed + [other.value];
        assert {x} + {other.value} == {x, other.value};
      }
    }

    /** `y` is the live peer of `x`, and one of the two is a client. */
    ghost predicate PeerOf(x: Id, y: Id)
      requires x in conns
      reads this
    {
      y in conns && y != x && conns[y].other == Some(x)
        && (conns[x].kind == Relay.Client <==> conns[y].kind != Relay.Client)
    }

    /** The sweep so far: `seen` have been visited, `gone` are closed, `todo` is still to come. */
    ghost predicate Sweeping(was: map<Id, Member>, data: seq<Bucket>, slot: nat, seen: set<Id>, gone: set<Id>,
                             done: seq<Id>, todo: seq<Id>)
      requires |data| == buckets.data.Length && slot < |data|
      reads this, buckets.data
    {
      && conns == was - gone && buckets.data[..] == Purged(data, gone) && gone <= was.Keys
      && Distinct(order) && Elements(order) == data[slot] - gone
      && order == done + todo && seen <= data[slot]
      && Accounted(clock.conns, seen, gone, done, todo)
    }

    /** The next element of the walk is alive, its peer too, and the iterator can move on. */
    lemma Visit(was: map<Id, Member>, data: seq<Bucket>, slot: nat, seen: set<Id>, gone: set<Id>,
                done: seq<Id>, x: Id, rest: seq<Id>)
      requires |data| == buckets.data.Length && slot < |data|
      requires Placed() && Mirrors(was, clock.conns) && PeersAgree(clock.conns)
      requires Sweeping(was, data, slot, seen, gone, done, [x] + rest)
      ensures order == done + ([x] + rest) && Distinct(order)
      ensures x in order && x !in rest && Next(order, x) == First(rest)
      ensures x in data[slot] && x in conns && x in clock.conns && conns[x] == was[x]
      ensures conns[x].other != Some(x) && (conns[x].other.Some? ==> PeerOf(x, conns[x].other.value))
      ensures var fallen := Elements(Fallen(x, conns[x].kind, conns[x].other)); fallen <= was.Keys && fallen !! gone
    {
      DistinctParts(done, [x] + rest);
      assert x in [x] + rest && ([x] + rest)[1..] == rest;
      NextConcat(done, x, rest);
      assert x in Elements(order) && buckets.data[slot] == buckets.data[..][slot] == data[slot] - gone;
      hide Distinct, Next, First, Purged;
      assert x in conns && x in was && x in clock.conns && x !in seen && x !in gone;
      if conns[x].other.Some? {
        PeerSurvives(clock.conns, seen, x);
      }
      FallenElements(x, conns[x].kind, conns[x].other);
    }

    /** After the turn that visited `x` and closed `fallen`. */
    lemma Turned(was: map<Id, Member>, data: seq<Bucket>, slot: nat, seen: set<Id>, gone: set<Id>,
                 done: seq<Id>, x: Id, rest: seq<Id>, fallen: set<Id>, done': seq<Id>, todo': seq<Id>)
      requires |data| == buckets.data.Length && slot < |data| && x in data[slot] && seen <= data[slot]
      requires PeersAgree(clock.conns) && x in clock.conns && x !in rest
      requires Accounted(clock.conns, seen, gone, done, [x] + rest)
      requires fallen == Elements(Fallen(x, clock.conns[x].kind, clock.conns[x].other)) && gone + fallen <= was.Keys
      requires conns == (was - gone) - fallen && buckets.data[..] == Purged(Purged(data, gone), fallen)
      requires Distinct(order) && Elements(order) == (data[slot] - gone) - fallen && order == done' + todo'
      requires Elements(todo') <= Elements(rest) && Elements(done') <= Elements(done) + {x}
      ensures Sweeping(was, data, slot, seen + {x}, gone + fallen, done', todo')
    {
      AccountedOneMore(clock.conns, seen, gone, done, x, rest, done', todo');
      PurgedTwice(data, gone, fallen);
      hide Accounted, PeersAgree, Distinct, Fallen, Purged;
      assert (was - gone) - fallen == was - (gone + fallen);
      assert (data[slot] - gone) - fallen == data[slot] - (gone + fallen);
      hide Elements;
    }

    /** At the end of the walk all victims are gone. */
    lemma SweepEnds(was: map<Id, Member>, data: seq<Bucket>, slot: nat, seen: set<Id>, gone: set<Id>, done: seq<Id>)
      requires |data| == buckets.data.Length && slot < |data|
      requires PeersAgree(clock.conns) && Sweeping(was, data, slot, seen, gone, done, [])
      ensures gone == Victims(clock.conns, data[slot])
    {
      assert done + [] == done;
      forall x | x in data[slot] && x !in gone
        ensures x in seen
      {
        assert x in Elements(order) && x in done;
      }
      VictimsOfSeen(clock.conns, seen, data[slot]);
    }

    /**
     conn_bucket::clear: walk the bucket and close everything in it.  Whatever the order of the walk, every
     step stays on live elements, each victim is closed once, and what is left is the same.
    */
    method Sweep(slot: nat) returns (closed: seq<Id>)
      requires Placed() && Mirrors(conns, clock.conns) && PeersAgree(clock.conns)
      requires slot < buckets.data.Length && Distinct(order) && Elements(order) == buckets.data[slot]
      modifies this`conns, this`order, buckets.data
      ensures Placed()
      ensures var victims := Victims(clock.conns, old(buckets.data[slot]));
              && Distinct(closed) && Elements(closed) == victims
              && conns == old(conns) - victims
              && buckets.data[..] == Purged(old(buckets.data[..]), victims)
    {
      closed := [];
      var it := First(order);
      ghost var was, data, es := conns, buckets.data[..], clock.conns;
      ghost var seen, gone, done, todo: seq<Id> := {}, {}, [], order;
      assert order == [] + order;
      PurgedNone(data);
      while it.Some?
        invariant Placed() && clock == old(clock)
        invariant it == First(todo)
        invariant Sweeping(was, data, slot, seen, gone, done, todo)
        invariant Distinct(closed) && Elements(closed) == gone
        decreases |todo|
      {
        var x := it.value;
        ghost var rest, done0 := todo[1..], done;
        assert todo == [x] + rest;
        Visit(was, data, slot, seen, gone, done, x, rest);
        ghost var fallen := Elements(Fallen(x, es[x].kind, es[x].other));
        FallenElements(x, es[x].kind, es[x].other);
        AppendDistinct(closed, Fallen(x, es[x].kind, es[x].other));
        ElementsConcat(closed, Fallen(x, es[x].kind, es[x].other));
        assert Accounted(es, seen, gone, done, [x] + rest)
          && conns == was - gone && buckets.data[..] == Purged(data, gone);
        hide Victims, PeersAgree, Distinct, Without, Next, Placed,
          First, Accounted, Purged, PeerOf, Sweeping, Elements, Fallen;
        var next := Next(order, x);
        var now;
        it, now, done, todo := SweepOne(x, next, done, rest);
        closed := closed + now;
        Turned(was, data, slot, seen, gone, done0, x, rest, fallen, done, todo);
        gone, seen := gone + fallen, seen + {x};
      }
      assert todo == [] && order == done;
      SweepEnds(was, data, slot, seen, gone, done);
      hide Victims, PeersAgree, Distinct, Without, Next, Placed, First, Purged;
    }

    // -------------------------------------------------------------- events

    /** The front bucket holds the connections whose time is up at the next rotation. */
    lemma OldestAtFront()
      requires Valid()
      ensures buckets.front < buckets.data.Length
      ensures buckets.data[buckets.front] == Oldest(clock, buckets.data.Length)
    {
      var n, f := buckets.data.Length, buckets.front;
      forall x | x in clock.conns
        ensures x in buckets.data[f] <==> !clock.conns[x].swept && clock.conns[x].mark + n == clock.now + 1
      {
        assert ShowsOne(conns[x], buckets.data[..], x, clock.conns[x]) && InTime(clock, x, n);
        if !clock.conns[x].swept { LastSlot(clock.conns[x].mark, clock.now, n); }
      }
      assert forall x :: x in buckets.data[f] ==> x in conns.Keys;
    }

    /**
     handle_timeout: an empty bucket is pushed over the oldest one, whose connections are swept in the order
     `walk` before it is overwritten.
    */
    method HandleTimeout(walk: seq<Id>) returns (closed: seq<Id>)
      requires Valid() && Distinct(walk) && Elements(walk) == buckets.data[buckets.front]
      modifies this, buckets, buckets.data
      ensures Valid() && clock == Step(old(clock), Tick, buckets.data.Length)
      ensures Distinct(closed) && Elements(closed) == old(conns.Keys) - conns.Keys
    {
      hide BucketOf, Purged, PlacedIn, Shows, Mirrors, PeersAgree,
        Reachable, Rotated, Oldest, Victims, Distinct, Elements;
      ghost var victims := Victims(clock.conns, buckets.data[buckets.front]);
      TickShown(victims);
      order := walk;
      closed := Sweep(buckets.front);
      buckets.PushBack({});
      assert buckets.data[..] == Purged(old(buckets.data[..]), victims)[old(buckets.front) := {}];
      clock := Rotated(clock, buckets.data.Length);
    }

    /** What a tick will have done to the wheel. */
    lemma TickShown(victims: set<Id>)
      requires Valid() && buckets.front < buckets.data.Length
      requires victims == Victims(clock.conns, buckets.data[buckets.front])
      ensures var n, f, c := buckets.data.Length, buckets.front, Rotated(clock, buckets.data.Length);
              var data, conns' := Purged(buckets.data[..], victims)[f := {}], conns - victims;
              && c == Step(clock, Tick, n) && Reachable(c, n) && c.now == clock.now + 1
              && PlacedIn(conns', data) && Shows(conns', data, c.conns)
              && f == BucketOf(c.now, n) && BucketOf(c.now + 1, n) == buckets.Index(f + 1)
      ensures Mirrors(conns, clock.conns) && PeersAgree(clock.conns) && victims <= conns.Keys
    {
      OldestAtFront();
      StepReachable(clock, Tick, buckets.data.Length);
      NextSlot(clock.now + 1, buckets.data.Length);
      RotatedShown(conns, buckets.data[..], clock, buckets.front);
      hide BucketOf, Purged, PlacedIn;
    }

    /** attach */
    method Attach(x: Id, kind: Relay.Kind)
      requires Valid() && x !in conns
      modifies this, buckets.data
      ensures Valid() && clock == Step(old(clock), Event.Attach(x, kind), buckets.data.Length)
    {
      hide BucketOf, PlacedIn, Shows, Reachable;
      var tail := buckets.back;
      Known(x);
      StepReachable(clock, Event.Attach(x, kind), buckets.data.Length);
      AttachedShown(conns, buckets.data[..], clock, x, kind);
      buckets.data[tail] := buckets.data[tail] + {x};
      conns := conns[x := Member(kind, None, tail)];
      clock := Step(clock, Event.Attach(x, kind), buckets.data.Length);
    }

    lemma Known(x: Id)
      requires Valid()
      ensures (x in clock.conns <==> x in conns) && PeersAgree(clock.conns)
    {
    }

    lemma SlotOf(x: Id)
      requires Valid() && x in conns
      ensures x in clock.conns && conns[x].slot < buckets.data.Length
      ensures conns[x].slot == BucketOf(clock.conns[x].mark, buckets.data.Length)
    {
      assert ShowsOne(conns[x], buckets.data[..], x, clock.conns[x]);
    }

    /** update */
    method Update(x: Id)
      requires Valid() && x in conns
      modifies this, buckets.data
      ensures Valid() && clock == Step(old(clock), Event.Update(x), buckets.data.Length)
    {
      hide BucketOf, PlacedIn, Shows, Reachable;
      var tail := buckets.back;
      SlotOf(x);
      StepReachable(clock, Event.Update(x), buckets.data.Length);
      if conns[x].slot != tail {
        UpdatedShown(conns, buckets.data[..], clock, x);
        buckets.data[conns[x].slot] := buckets.data[conns[x].slot] - {x};
        conns := conns[x := conns[x].(slot := tail)];
        buckets.data[tail] := buckets.data[tail] + {x};
      }
      clock := Step(clock, Event.Update(x), buckets.data.Length);
    }

    /** A connection is closed by itself, or moves to another worker; its peer loses it. */
    method Close(x: Id)
      requires Valid() && x in conns
      modifies this, buckets.data
      ensures Valid() && clock == Step(old(clock), Event.Close(x), buckets.data.Length)
    {
      hide BucketOf, PlacedIn, Shows, Mirrors, PeersAgree, Reachable, Purged;
      Known(x);
      StepReachable(clock, Event.Close(x), buckets.data.Length);
      ClosedShown(conns, buckets.data[..], clock, x);
      ReleasedPlaced(conns, buckets.data[..], conns[x].other);
      if conns[x].other.Some? {
        var o := conns[x].other.value;
        conns := conns[o := conns[o].(other := None)];
      }
      Delete(x);
      clock := Step(clock, Event.Close(x), buckets.data.Length);
    }

    /** A client's connection turns out to be a device's. */
    method Become(x: Id)
      requires Valid() && Enabled(clock, Event.Become(x))
      modifies this
      ensures Valid() && clock == Step(old(clock), Event.Become(x), buckets.data.Length)
    {
      hide BucketOf, PlacedIn, Shows, Reachable;
      Known(x);
      StepReachable(clock, Event.Become(x), buckets.data.Length);
      BecomeShown(conns, buckets.data[..], clock, x);
      conns := conns[x := conns[x].(kind := Relay.IdleServer)];
      clock := Step(clock, Event.Become(x), buckets.data.Length);
    }

    /** match: the two peer pointers */
    method Match(s: Id, x: Id)
      requires Valid() && Enabled(clock, Event.Match(s, x))
      modifies this
      ensures Valid() && clock == Step(old(clock), Event.Match(s, x), buckets.data.Length)
    {
      hide BucketOf, PlacedIn, Shows, Reachable;
      Known(x);
      Known(s);
      StepReachable(clock, Event.Match(s, x), buckets.data.Length);
      MatchShown(conns, buckets.data[..], clock, s, x);
      conns := conns[s := conns[s].(kind := Relay.BusyServer, other := Some(x))][x := conns[x].(other := Some(s))];
      clock := Step(clock, Event.Match(s, x), buckets.data.Length);
    }
  }
}
