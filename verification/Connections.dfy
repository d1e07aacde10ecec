/**
 core/connection.cpp as it runs: connection objects with pointers to their peers and linked queues of
 buffers.  The live objects show a state of Relay, in which they are named by their sockets; each method is
 proved to take the objects where its function in Relay takes that state.  A pointer to a deleted object may
 lie around, but no method is called on one.
*/
module Connections {
  import opened Chunks
  import opened Relay
  import opened RelayInvariant
  import BufferQueue

  /** What a method throws. */
  datatype Exception = Nothing | IoException(reason: Reason) | HttpException

  function Thrown(ex: Exception, st: State): (r: Result)
    ensures r.st == st
  {
    match ex
    case Nothing => Done(st)
    case IoException(reason) => IoError(st, reason)
    case HttpException => HttpError(st)
  }

  class Connection {
    const sock: Id
    const inQueue: BufferQueue.BufferQueue
    const outQueue: BufferQueue.BufferQueue
    var other: Connection?
    var kind: Kind
    var host: int
    var devId: string
    var flags: Io
    ghost var log: Log
    ghost var repr: set<object>  // the connection, its queues and their buffers

    constructor (sock: Id, worker: int)
      ensures this.sock == sock && other == null && fresh(repr) && Shows(NewConn(worker))
    {
      this.sock := sock;
      inQueue := new BufferQueue.BufferQueue();
      outQueue := new BufferQueue.BufferQueue();
      other, kind, host, devId := null, Client, worker, "";
      flags := NewConn(worker).io;
      log := NewConn(worker).log;
      new;
      repr := {this, inQueue, outQueue};
    }

    /** The object is `v`, its peer being known by its socket. */
    ghost predicate Shows(v: Conn)
      reads this, repr
    {
      && this in repr && inQueue in repr && outQueue in repr && inQueue != outQueue
      && (forall b :: b in inQueue.bufs ==> b in repr) && (forall b :: b in outQueue.bufs ==> b in repr)
      && BufferQueue.Apart(outQueue.bufs, inQueue.bufs)
      && Lists(inQueue, v.inQ) && Untouched(v.inQ) && Lists(outQueue, v.outQ)
      && Fields(v)
    }

    lemma Told(v: Conn)
      requires Shows(v)
      ensures this in repr && kind == v.kind
    {
      hide Lists, Untouched;
    }

    ghost predicate Fields(v: Conn)
      reads this
    {
      && kind == v.kind && host == v.host && devId == v.devId && flags == v.io && log == v.log
      && (other == null <==> v.other == None)
      && (other != null ==> v.other == Some(other.sock))
    }

    /** out_queue_.push(buf) */
    method PushOut(data: Bytes, ghost v: Conn)
      requires Shows(v)
      modifies repr
      ensures Shows(Push(v, data)) && fresh(repr - old(repr)) && other == old(other)
    {
      hide Lists, Untouched;
      BufferQueue.ApartIndices(outQueue.bufs, inQueue.bufs);
      assert Lists(inQueue, v.inQ) && Lists(outQueue, v.outQ);
      var buf := Append(outQueue, data, v.outQ);
      repr := repr + {buf};
      log := log.(pushed := log.pushed + data);
    }

    /** in_queue_.push(buf) */
    method PushIn(data: Bytes, ghost v: Conn)
      requires Shows(v)
      modifies repr
      ensures Shows(Requested(v, data)) && fresh(repr - old(repr)) && other == old(other)
    {
      hide Lists;
      BufferQueue.ApartIndices(outQueue.bufs, inQueue.bufs);
      assert Lists(inQueue, v.inQ) && Lists(outQueue, v.outQ);
      var buf := Append(inQueue, data, v.inQ);
      repr := repr + {buf};
      log := log.(req := log.req + data);
    }

    /** The send loop of async_send_impl; true if the socket is full. */
    method SendLoop(script: seq<SendResult>, ghost v: Conn) returns (full: bool)
      requires Shows(v)
      modifies repr
      ensures var d := Drain(v.outQ, script);
              Shows(SentOut(v, d)) && (full <==> d.outcome == Blocked)
      ensures repr == old(repr) && other == old(other)
    {
      ghost var d := Drain(v.outQ, script);
      BufferQueue.ApartIndices(outQueue.bufs, inQueue.bufs);
      assert Lists(inQueue, v.inQ) && Lists(outQueue, v.outQ);
      hide Lists, Drain, Untouched;
      var sent, outcome := Consume(outQueue, script, v.outQ);
      assert Shows(v.(outQ := d.q));
      full := outcome == Blocked;
      Sends(outcome == Broken, sent, v.(outQ := d.q));
    }

    /** out_queue_.push(conn->in_queue_) */
    method TakeRequests(c: Connection, ghost v: Conn, ghost w: Conn)
      requires Shows(v) && c.Shows(w) && repr !! c.repr
      modifies repr, c.repr
      ensures Shows(v.(outQ := v.outQ + w.inQ)) && c.Shows(w.(inQ := []))
      ensures repr !! c.repr && repr + c.repr == old(repr + c.repr) && other == old(other) && c.other == old(c.other)
    {
      hide Lists, Shows;
      Separate(c, v, w);
      ghost var moved := set b: object | b in c.inQueue.bufs;
      MoveAll(outQueue, c.inQueue, v.outQ, w.inQ);
      Regroup(c, moved, v.(outQ := v.outQ + w.inQ), w.(inQ := []));
    }

    /** Two connections share nothing. */
    lemma Separate(c: Connection, v: Conn, w: Conn)
      requires Shows(v) && c.Shows(w) && repr !! c.repr
      ensures Lists(inQueue, v.inQ) && Lists(outQueue, v.outQ) && Untouched(v.inQ) && Fields(v)
      ensures Lists(c.inQueue, w.inQ) && Lists(c.outQueue, w.outQ) && Untouched(w.inQ) && c.Fields(w)
      ensures this in repr && inQueue in repr && outQueue in repr && inQueue != outQueue
      ensures c in c.repr && c.inQueue in c.repr && c.outQueue in c.repr && c.inQueue != c.outQueue
      ensures forall i :: 0 <= i < |inQueue.bufs| ==> inQueue.bufs[i] in repr
      ensures forall i :: 0 <= i < |outQueue.bufs| ==> outQueue.bufs[i] in repr
      ensures forall i :: 0 <= i < |c.inQueue.bufs| ==> c.inQueue.bufs[i] in c.repr
      ensures forall i :: 0 <= i < |c.outQueue.bufs| ==> c.outQueue.bufs[i] in c.repr
      ensures BufferQueue.Apart(outQueue.bufs, inQueue.bufs) && BufferQueue.Apart(c.outQueue.bufs, c.inQueue.bufs)
      ensures BufferQueue.Apart(outQueue.bufs, c.inQueue.bufs) && BufferQueue.Apart(inQueue.bufs, c.inQueue.bufs)
      ensures forall i, j :: 0 <= i < |outQueue.bufs| && 0 <= j < |inQueue.bufs| ==> outQueue.bufs[i] != inQueue.bufs[j]
      ensures forall i, j :: 0 <= i < |inQueue.bufs| && 0 <= j < |c.inQueue.bufs| ==>
        inQueue.bufs[i] != c.inQueue.bufs[j]
      ensures forall i, j :: 0 <= i < |outQueue.bufs| && 0 <= j < |c.outQueue.bufs| ==>
        outQueue.bufs[i] != c.outQueue.bufs[j]
      ensures forall i, j :: 0 <= i < |c.outQueue.bufs| && 0 <= j < |c.inQueue.bufs| ==>
        c.outQueue.bufs[i] != c.inQueue.bufs[j]
    {
      BufferQueue.ApartIndices(outQueue.bufs, inQueue.bufs);
      BufferQueue.ApartIndices(c.outQueue.bufs, c.inQueue.bufs);
      hide Lists, Untouched;
    }

    /** The moved buffers change hands. */
    ghost method Regroup(c: Connection, moved: set<object>, v: Conn, w: Conn)
      requires repr !! c.repr && moved <= c.repr
      requires this in repr && inQueue in repr && outQueue in repr && inQueue != outQueue
      requires c in c.repr - moved && c.inQueue in c.repr - moved
        && c.outQueue in c.repr - moved && c.inQueue != c.outQueue
      requires (forall b :: b in inQueue.bufs ==> b in repr) && (forall b :: b in outQueue.bufs ==> b in repr + moved)
      requires c.inQueue.bufs == [] && (forall b :: b in c.outQueue.bufs ==> b in c.repr - moved)
      requires BufferQueue.Apart(outQueue.bufs, inQueue.bufs)
      requires Lists(inQueue, v.inQ) && Lists(outQueue, v.outQ) && Untouched(v.inQ) && Fields(v)
      requires Lists(c.inQueue, w.inQ) && Lists(c.outQueue, w.outQ) && Untouched(w.inQ) && c.Fields(w)
      modifies this`repr, c`repr
      ensures Shows(v) && c.Shows(w) && repr == old(repr) + moved && c.repr == old(c.repr) - moved
    {
      hide Lists, Untouched;
      repr := repr + moved;
      c.repr := c.repr - moved;
    }

    /** The flag of a broken socket, and what has been sent. */
    method Sends(broken: bool, ghost sent: Bytes, ghost v: Conn)
      requires Shows(v)
      modifies this`flags, this`log
      ensures Shows(v.(log := v.log.(sent := v.log.sent + sent), io := v.io.(closing := v.io.closing || broken)))
    {
      hide Lists, Untouched;
      assert Lists(inQueue, v.inQ) && Lists(outQueue, v.outQ);
      if broken { flags := flags.(closing := true); }
      log := log.(sent := log.sent + sent);
    }

    method SetFlags(io: Io, ghost v: Conn)
      requires Shows(v)
      modifies this`flags
      ensures Shows(v.(io := io))
    {
      hide Lists, Untouched;
      assert Lists(inQueue, v.inQ) && Lists(outQueue, v.outQ);
      flags := io;
    }

    method SetOther(conn: Connection?, ghost v: Conn)
      requires Shows(v)
      modifies this`other
      ensures Shows(v.(other := Name(conn)))
      ensures other == conn
    {
      hide Lists, Untouched;
      assert Lists(inQueue, v.inQ) && Lists(outQueue, v.outQ);
      other := conn;
    }

    method SetKind(k: Kind, ghost v: Conn)
      requires Shows(v)
      modifies this`kind
      ensures Shows(v.(kind := k))
    {
      hide Lists, Untouched;
      assert Lists(inQueue, v.inQ) && Lists(outQueue, v.outQ);
      kind := k;
    }

    method SetDevice(dev: string, ghost v: Conn)
      requires Shows(v)
      modifies this`devId
      ensures Shows(v.(devId := dev))
    {
      hide Lists, Untouched;
      assert Lists(inQueue, v.inQ) && Lists(outQueue, v.outQ);
      devId := dev;
    }

    method SetHost(worker: int, ghost v: Conn)
      requires Shows(v)
      modifies this`host
      ensures Shows(v.(host := worker))
    {
      hide Lists, Untouched;
      assert Lists(inQueue, v.inQ) && Lists(outQueue, v.outQ);
      host := worker;
    }

    ghost method Note(account: Log, v: Conn)
      requires Shows(v)
      modifies this`log
      ensures Shows(v.(log := account))
    {
      hide Lists, Untouched;
      assert Lists(inQueue, v.inQ) && Lists(outQueue, v.outQ);
      log := account;
    }
  }

  function Name(c: Connection?): Option<Id> {
    if c == null then None else Some(c.sock)
  }

  /** The queue is well formed, counts its unsent bytes, and holds `q`. */
  ghost predicate Lists(queue: BufferQueue.BufferQueue, q: seq<Chunk>)
    reads queue, queue.bufs
  {
    queue.Valid() && queue.Counted() && queue.contents == q
  }

  method Append(queue: BufferQueue.BufferQueue, data: Bytes, ghost q: seq<Chunk>) returns (buf: BufferQueue.Buffer)
    requires Lists(queue, q)
    modifies queue, queue.bufs
    ensures Lists(queue, q + [Chunk(data, 0)])
    ensures fresh(buf) && queue.bufs == old(queue.bufs) + [buf]
  {
    buf := new BufferQueue.Buffer(data);
    BufferQueue.SingleIsChain(buf);
    queue.Push(buf, [buf], [Chunk(data, 0)]);
  }

  method Consume(queue: BufferQueue.BufferQueue, script: seq<SendResult>, ghost q: seq<Chunk>)
      returns (sent: Bytes, outcome: Outcome)
    requires Lists(queue, q)
    modifies queue, queue.bufs
    ensures DrainResult(queue.contents, sent, outcome) == Drain(q, script) && Lists(queue, queue.contents)
    ensures forall b :: b in queue.bufs ==> b in old(queue.bufs)
  {
    sent, outcome := queue.SendLoop(script);
  }

  /** All buffers of `from` go behind those of `queue`. */
  method MoveAll(queue: BufferQueue.BufferQueue,
      from: BufferQueue.BufferQueue, ghost q: seq<Chunk>, ghost p: seq<Chunk>)
    requires queue != from && BufferQueue.Apart(queue.bufs, from.bufs)
    requires Lists(queue, q) && Lists(from, p) && Untouched(p)
    modifies queue, queue.bufs, from, from.bufs
    ensures Lists(queue, q + p) && Lists(from, [])
    ensures queue.bufs == old(queue.bufs) + old(from.bufs) && from.bufs == []
  {
    BufferQueue.LensIsSize(p);
    queue.PushQueue(from);
  }

  datatype Message = Message(src: Connection, letter: Letter)

  lemma SameElsewhere(m: map<Id, Connection>, n: map<Id, Connection>, i: Id)
    requires m - {i} == n - {i}
    ensures forall j :: j != i ==> (j in m <==> j in n) && (j in m ==> m[j] == n[j])
  {
    forall j | j != i
      ensures (j in m <==> j in n) && (j in m ==> m[j] == n[j])
    {
      assert (j in m <==> j in m - {i}) && (j in n <==> j in n - {i});
      assert j in m && j in n ==> (m - {i})[j] == (n - {i})[j];
    }
  }

  class Proxy {
    var clients: map<Id, Connection>  // client_conn_table
    var mail: map<Id, Message>        // the hand-over messages in the workers' pipes
    ghost var at: map<Id, Connection> // the connections by their sockets; the deleted ones may still be found here
    ghost var st: State               // what the live ones show
    ghost var repr: set<object>

    /** The live objects show `st`, share nothing, and are in the tables; pointers between them are right. */
    ghost predicate Valid()
      reads this, repr
    {
      && this !in repr && st.conns.Keys <= at.Keys
      && (forall i :: i in st.conns ==> at[i] in repr && at[i] in at[i].repr && at[i].repr <= repr && Sits(at[i], i))
      && (forall i, j :: i in st.conns && j in st.conns && i != j ==> at[i].repr !! at[j].repr)
      && (forall i :: i in clients ==> i in st.conns) && mail.Keys == st.mail.Keys
      && (forall i :: i in mail ==> mail[i].letter == st.mail[i] && Found(mail[i].src) && mail[i].src.sock == i)
    }

    constructor ()
      ensures Valid() && st == State(map[], map[], 0, 0) && repr == {}
    {
      clients, mail, at, st, repr := map[], map[], map[], State(map[], map[], 0, 0), {};
    }

    /** If a connection of this name is live, it is this one. */
    ghost predicate Found(c: Connection)
      reads this
    {
      c.sock in st.conns ==> c.sock in at && at[c.sock] == c
    }

    ghost predicate Sits(c: Connection, i: Id)
      reads this, c, c.repr
    {
      && c.sock == i && i in st.conns && c.Shows(st.conns[i])
      && (c.other != null ==> Found(c.other))
      && (i in clients <==> c.kind == Client) && (i in clients ==> clients[i] == c)
    }

    /** `c` has not been deleted. */
    ghost predicate Live(c: Connection)
      reads this
    {
      c.sock in st.conns && Found(c) && c in repr
    }

    /** Nobody comes to life. */
    twostate predicate Stays()
      reads this
    {
      at == old(at) && old(repr) <= repr && (forall o :: o in repr ==> o in old(repr) || fresh(o))
    }

    /** An object that nobody has touched is what it was. */
    twostate lemma SitsStill(j: Id)
      requires j in old(st).conns && j in old(at) && old(Sits(at[j], j))
      requires at == old(at) && st.conns.Keys == old(st).conns.Keys && st.conns[j] == old(st).conns[j]
      requires (j in clients <==> j in old(clients)) && (j in clients ==> clients[j] == old(clients)[j])
      requires old(at)[j] in old(at[j].repr) && forall o :: o in old(at[j].repr) ==> unchanged(o)
      ensures Sits(at[j], j) && at[j].repr == old(at[j].repr)
    {
      hide Lists, Untouched;
      assert old(at[j].Shows(st.conns[j])) && at[j].Shows(st.conns[j]);
      hide Connection.Shows;
    }

    /** Nothing is allocated either, and no message written. */
    twostate predicate Still()
      reads this
    {
      at == old(at) && repr == old(repr) && mail == old(mail)
    }

    /** Only the connection `i` has changed, and so has what it shows. */
    twostate lemma Updated(i: Id)
      requires old(Valid()) && i in old(st).conns && i in st.conns
      requires at == old(at) && clients - {i} == old(clients - {i}) && mail == old(mail) && this !in repr
      requires st == Upd(old(st), i, st.conns[i]) && old(repr) <= repr
      requires var c, v := at[i], st.conns[i];
               && (forall o :: o in old(repr) && o !in old(c.repr) ==> unchanged(o))
               && c.Shows(v) && c.repr <= repr && fresh(c.repr - old(c.repr))
               && (i in clients <==> v.kind == Client) && (i in clients ==> clients[i] == c)
               && (c.other != null ==> Found(c.other))
      ensures Valid()
    {
      hide Connection.Shows;
      var c := at[i];
      c.Told(st.conns[i]);
      SameElsewhere(clients, old(clients), i);
      forall j | j in st.conns && j != i
        ensures at[j] in repr && at[j] in at[j].repr && at[j].repr <= repr && Sits(at[j], j)
        ensures at[j].repr == old(at[j].repr) && at[j].repr !! c.repr
      {
        assert old(at[j].repr !! c.repr);
        SitsStill(j);
      }
      assert Sits(c, i);
      hide Sits;
      forall j, k | j in st.conns && k in st.conns && j != k
        ensures at[j].repr !! at[k].repr
      {
        if j != i && k != i { assert old(at[j].repr !! at[k].repr); }
      }
    }

    /** The same for two connections. */
    twostate lemma UpdatedTwo(ids: (Id, Id))
      requires old(Valid()) && ids.0 in old(st).conns && ids.1 in old(st).conns && ids.0 != ids.1
      requires at == old(at) && clients == old(clients) && mail == old(mail) && repr == old(repr)
      requires ids.0 in st.conns && ids.1 in st.conns
      requires st == Upd(Upd(old(st), ids.0, st.conns[ids.0]), ids.1, st.conns[ids.1])
      requires var a, b, v, w := at[ids.0], at[ids.1], st.conns[ids.0], st.conns[ids.1];
               && (forall o :: o in old(repr) && o !in old(a.repr) && o !in old(b.repr) ==> unchanged(o))
               && a.Shows(v) && b.Shows(w) && v.kind == old(a.kind) && w.kind == old(b.kind)
               && a.repr !! b.repr && a.repr + b.repr == old(a.repr + b.repr)
               && a.other == old(a.other) && b.other == old(b.other)
      ensures Valid()
    {
      hide Connection.Shows;
      var a, b := at[ids.0], at[ids.1];
      a.Told(st.conns[ids.0]);
      b.Told(st.conns[ids.1]);
      forall j | j in st.conns && j != ids.0 && j != ids.1
        ensures at[j] in repr && at[j] in at[j].repr && at[j].repr <= repr && Sits(at[j], j)
        ensures at[j].repr == old(at[j].repr) && at[j].repr !! a.repr && at[j].repr !! b.repr
      {
        assert old(at[j].repr !! a.repr && at[j].repr !! b.repr);
        SitsStill(j);
      }
      assert Sits(a, ids.0) && Sits(b, ids.1);
      hide Sits;
      forall j, k | j in st.conns && k in st.conns && j != k
        ensures at[j].repr !! at[k].repr
      {
        if j != ids.0 && k != ids.0 && j != ids.1 && k != ids.1 { assert old(at[j].repr !! at[k].repr); }
      }
    }

    /** What is known of a live connection. */
    lemma Seen(c: Connection)
      requires Valid() && Live(c)
      ensures var v := st.conns[c.sock];
              && c.Fields(v) && c.Shows(v)
              && (c.other != null ==> Found(c.other))
              && (c.other != null && c.other.sock in st.conns ==> Live(c.other))
      ensures (c.sock in clients <==> c.kind == Client) && (c.sock in clients ==> clients[c.sock] == c)
      ensures c in c.repr && c.repr <= repr && this !in repr
    {
      hide Lists;
    }

    lemma SeenApart(c: Connection, d: Connection)
      requires Valid() && Live(c) && Live(d) && c != d
      ensures c.repr !! d.repr && c.sock != d.sock
    {
      hide Lists;
    }

    // -------------------------------------------------------------- single fields and queues

    method SetFlags(c: Connection, io: Io)
      requires Valid() && Live(c)
      modifies this`st, c`flags
      ensures Valid() && Still()
      ensures st == Upd(old(st), c.sock, old(st).conns[c.sock].(io := io))
    {
      hide Lists, Connection.Shows, Valid;
      Seen(c);
      ghost var v := st.conns[c.sock];
      st := Upd(st, c.sock, v.(io := io));
      c.SetFlags(io, v);
      Updated(c.sock);
    }

    method SetPeer(c: Connection, other: Connection?)
      requires Valid() && Live(c) && (other != null ==> Live(other))
      modifies this`st, c`other
      ensures Valid() && Still()
      ensures st == Upd(old(st), c.sock, old(st).conns[c.sock].(other := Name(other)))
    {
      hide Lists, Connection.Shows, Valid;
      Seen(c);
      ghost var v := st.conns[c.sock];
      st := Upd(st, c.sock, v.(other := Name(other)));
      c.SetOther(other, v);
      Updated(c.sock);
    }

    method SetDevice(c: Connection, devId: string)
      requires Valid() && Live(c)
      modifies this`st, c`devId
      ensures Valid() && Still()
      ensures st == Upd(old(st), c.sock, old(st).conns[c.sock].(devId := devId))
    {
      hide Lists, Connection.Shows, Valid;
      Seen(c);
      ghost var v := st.conns[c.sock];
      st := Upd(st, c.sock, v.(devId := devId));
      c.SetDevice(devId, v);
      Updated(c.sock);
    }

    method SetHost(c: Connection, worker: int)
      requires Valid() && Live(c)
      modifies this`st, c`host
      ensures Valid() && Still()
      ensures st == Upd(old(st), c.sock, old(st).conns[c.sock].(host := worker))
    {
      hide Lists, Connection.Shows, Valid;
      Seen(c);
      ghost var v := st.conns[c.sock];
      st := Upd(st, c.sock, v.(host := worker));
      c.SetHost(worker, v);
      Updated(c.sock);
    }

    /** The account of `c`, which no statement looks at. */
    ghost method Note(c: Connection, log: Log)
      requires Valid() && Live(c)
      modifies this`st, c`log
      ensures Valid() && Still()
      ensures st == Upd(old(st), c.sock, old(st).conns[c.sock].(log := log))
    {
      hide Lists, Connection.Shows, Valid;
      Seen(c);
      ghost var v := st.conns[c.sock];
      st := Upd(st, c.sock, v.(log := log));
      c.Note(log, v);
      Updated(c.sock);
    }

    method PushOut(c: Connection, data: Bytes)
      requires Valid() && Live(c)
      modifies this, repr
      ensures Valid() && Stays() && mail == old(mail)
      ensures st == Upd(old(st), c.sock, Push(old(st).conns[c.sock], data))
    {
      hide Lists, Connection.Shows, Valid;
      Seen(c);
      ghost var v := st.conns[c.sock];
      c.PushOut(data, v);
      assert this !in c.repr;
      st, repr := Upd(st, c.sock, Push(v, data)), repr + c.repr;
      assert c.Shows(Push(v, data));
      Updated(c.sock);
    }

    method PushIn(c: Connection, data: Bytes)
      requires Valid() && Live(c)
      modifies this, repr
      ensures Valid() && Stays() && mail == old(mail)
      ensures st == Upd(old(st), c.sock, Requested(old(st).conns[c.sock], data))
    {
      hide Lists, Connection.Shows, Valid;
      Seen(c);
      ghost var v := st.conns[c.sock];
      c.PushIn(data, v);
      assert this !in c.repr;
      st, repr := Upd(st, c.sock, Requested(v, data)), repr + c.repr;
      assert c.Shows(Requested(v, data));
      Updated(c.sock);
    }

    method SendLoop(c: Connection, script: seq<SendResult>) returns (full: bool)
      requires Valid() && Live(c)
      modifies this, repr
      ensures Valid() && Still()
      ensures var v := old(st).conns[c.sock];
              && st == Upd(old(st), c.sock, SentOut(v, Drain(v.outQ, script)))
              && (full <==> Drain(v.outQ, script).outcome == Blocked)
    {
      hide Lists, Connection.Shows, Valid, Drain;
      Seen(c);
      ghost var v := st.conns[c.sock];
      st := Upd(st, c.sock, SentOut(v, Drain(v.outQ, script)));
      full := c.SendLoop(script, v);
      Updated(c.sock);
    }

    /** type_ := BUSY_SERVER or IDLE_SERVER, of a server */
    method SetKind(c: Connection, kind: Kind)
      requires Valid() && Live(c) && c.kind != Client && kind != Client
      modifies this`st, c`kind
      ensures Valid() && Still()
      ensures st == Upd(old(st), c.sock, old(st).conns[c.sock].(kind := kind))
    {
      hide Lists, Connection.Shows, Valid;
      Seen(c);
      ghost var v := st.conns[c.sock];
      st := Upd(st, c.sock, v.(kind := kind));
      c.SetKind(kind, v);
      Updated(c.sock);
    }

    /** A client leaves the clients' table. */
    method TurnServer(c: Connection)
      requires Valid() && Live(c)
      modifies this`st, this`clients, c`kind
      ensures Valid() && Still()
      ensures st == Upd(old(st), c.sock, old(st).conns[c.sock].(kind := IdleServer))
    {
      hide Lists, Connection.Shows, Valid;
      Seen(c);
      ghost var v := st.conns[c.sock];
      clients := clients - {c.sock};
      st := Upd(st, c.sock, v.(kind := IdleServer));
      c.SetKind(IdleServer, v);
      Updated(c.sock);
    }

    /** out_queue_.push(conn->in_queue_) */
    method TakeRequests(s: Connection, c: Connection)
      requires Valid() && Live(s) && Live(c) && s != c
      modifies this, repr
      ensures Valid() && Still()
      ensures var v, w := old(st).conns[s.sock], old(st).conns[c.sock];
              st == Upd(Upd(old(st), s.sock, v.(outQ := v.outQ + w.inQ)), c.sock, w.(inQ := []))
    {
      hide Lists, Connection.Shows, Valid;
      Seen(s);
      Seen(c);
      SeenApart(s, c);
      ghost var v, w := st.conns[s.sock], st.conns[c.sock];
      st := Upd(Upd(st, s.sock, v.(outQ := v.outQ + w.inQ)), c.sock, w.(inQ := []));
      s.TakeRequests(c, v, w);
      UpdatedTwo((s.sock, c.sock));
    }

    // -------------------------------------------------------------- coming and going

    method Add(sock: Id, worker: int)
      requires Valid() && Inv(st) && sock !in st.conns
      modifies this
      ensures Valid() && st == Upd(old(st), sock, NewConn(worker)) && mail == old(mail) && fresh(repr - old(repr))
    {
      var c := new Connection(sock, worker);
      hide Connection.Shows, Inv;
      Enter(c, worker);
    }

    /** The constructor enters the connection into the clients' table. */
    method Enter(c: Connection, ghost worker: int)
      requires Valid() && Inv(st) && c.sock !in st.conns
      requires c.Shows(NewConn(worker)) && c.other == null && c.repr !! repr && this !in c.repr
      modifies this
      ensures Valid() && st == Upd(old(st), c.sock, NewConn(worker)) && mail == old(mail) && repr == old(repr) + c.repr
    {
      hide Connection.Shows, Inv, Lists;
      Nameless(c.sock);
      c.Told(NewConn(worker));
      clients, at, st, repr := clients[c.sock := c], at[c.sock := c], Upd(st, c.sock, NewConn(worker)), repr + c.repr;
      assert Sits(c, c.sock);
      Entered(c.sock);
    }

    /** The others have not noticed. */
    twostate lemma Entered(i: Id)
      requires old(Valid()) && i !in old(st).conns && i in st.conns && i in at && Sits(at[i], i)
      requires forall j :: j in old(st).conns && old(at)[j].other != null ==> old(at)[j].other.sock != i
      requires at == old(at)[i := at[i]] && clients == old(clients)[i := at[i]] && mail == old(mail) && i !in mail
      requires st == Upd(old(st), i, st.conns[i])
      requires repr == old(repr) + at[i].repr && at[i].repr !! old(repr) && this !in repr && at[i] in at[i].repr
      requires forall o :: o in old(repr) ==> unchanged(o)
      ensures Valid()
    {
      hide Connection.Shows;
      forall j | j in old(st).conns
        ensures at[j] == old(at)[j] && at[j] in repr && at[j] in at[j].repr && at[j].repr <= repr && Sits(at[j], j)
        ensures at[j].repr == old(at[j].repr) && at[j].repr !! at[i].repr
      {
        assert old(Sits(at[j], j)) && at[j].repr == old(at[j].repr);
        assert old(at[j].Shows(st.conns[j])) && at[j].Shows(st.conns[j]);
      }
      hide Sits;
      forall j, k | j in st.conns && k in st.conns && j != k
        ensures at[j].repr !! at[k].repr
      {
        if j != i && k != i { assert old(at[j].repr !! at[k].repr); }
      }
    }

    /** No pointer and no message waits for a connection of this name. */
    lemma Nameless(sock: Id)
      requires Valid() && Inv(st) && sock !in st.conns
      ensures sock !in mail && sock !in clients
      ensures forall i :: i in st.conns && at[i].other != null ==> at[i].other.sock != sock
    {
      forall i | i in st.conns && at[i].other != null
        ensures at[i].other.sock != sock
      {
        assert NodeOk(st, i) && Sits(at[i], i);
      }
      assert sock !in st.mail.Keys;
      hide Lists, NodeOk;
    }

    /** `delete this` */
    method Delete(c: Connection)
      requires Valid() && Live(c)
      modifies this`clients, this`st
      ensures Valid() && Still() && st == Del(old(st), c.sock)
    {
      hide Connection.Shows;
      clients := clients - {c.sock};
      st := Del(st, c.sock);
      forall i | i in st.conns
        ensures Sits(at[i], i)
      {
        assert old(Sits(at[i], i));
      }
      hide Sits;
    }

    // -------------------------------------------------------------- sending and closing

    /** What its fields say, without the pointers to its queues. */
    lemma Look(c: Connection)
      requires Valid() && Live(c)
      ensures c.Fields(st.conns[c.sock])
      ensures c.other != null && c.other.sock in st.conns ==> Live(c.other)
      ensures c.sock in clients <==> c.kind == Client
      ensures c.sock in clients ==> clients[c.sock] == c
    {
      hide Valid, Connection.Shows;
      Seen(c);
    }

    /** A client in the table is live. */
    lemma InTable(i: Id)
      requires Valid()
      ensures i in clients <==> i in st.conns && st.conns[i].kind == Client
      ensures i in clients ==> Live(clients[i]) && clients[i].sock == i
    {
      if i in st.conns { assert Sits(at[i], i); }
      hide Lists;
    }

    method IsLow(c: Connection) returns (low: bool)
      requires Valid() && Live(c)
      ensures low <==> Size(st.conns[c.sock].outQ) <= LOW_MARK
    {
      Seen(c);
      low := c.outQueue.IsLow();
    }

    method IsHigh(c: Connection) returns (high: bool)
      requires Valid() && Live(c)
      ensures high <==> Size(st.conns[c.sock].outQ) >= HIGH_MARK
    {
      Seen(c);
      high := c.outQueue.IsHigh();
    }

    method IsEmpty(c: Connection) returns (empty: bool)
      requires Valid() && Live(c)
      ensures empty <==> st.conns[c.sock].outQ == []
    {
      Seen(c);
      empty := c.outQueue.head == null;
    }

    /** enable_read */
    method EnableReading(c: Connection)
      requires Valid() && Live(c)
      modifies this, repr
      ensures Valid() && Still()
      ensures st == Upd(old(st), c.sock, EnableRead(old(st).conns[c.sock]))
    {
      hide Valid;
      Look(c);
      if !c.flags.enableRd {
        SetFlags(c, c.flags.(enableRd := true, wake := true));
      } else {
        UpdSelf(st, c.sock);
      }
    }

    /** `other_ = NULL` */
    method Separate(c: Connection)
      requires Valid() && Live(c)
      modifies this, repr
      ensures Valid() && Still()
      ensures st == Upd(old(st), c.sock, Unlink(old(st).conns[c.sock]))
    {
      hide Valid;
      SetPeer(c, null);
      Note(c, Unlink(st.conns[c.sock]).log);
    }

    /** async_send_impl */
    method AsyncSendImpl(c: Connection, script: seq<SendResult>, reason: Reason) returns (ex: Exception)
      requires Valid() && Live(c)
      modifies this, repr
      ensures Valid() && Still()
      ensures Thrown(ex, st) == SendImpl(old(st), c.sock, script, reason)
    {
      hide Valid, Drain;
      var full := SendLoop(c, script);
      ex := Nothing;
      if full {
        return;
      }
      Look(c);
      if c.flags.closing {
        ex := IoException(reason);
      } else if c.other == null && c.kind == BusyServer {
        SetKind(c, IdleServer);
      }
    }

    /** The socket of `c` is not established any more; its read event will find out. */
    method Wake(c: Connection)
      requires Valid() && Live(c)
      modifies this, repr
      ensures Valid() && Still()
      ensures st == Upd(old(st), c.sock, EnableRead(Disconnected(old(st).conns[c.sock])))
    {
      hide Valid;
      Look(c);
      ghost var st0, v := st, st.conns[c.sock];
      SetFlags(c, c.flags.(connected := false));
      Note(c, Disconnected(v).log);
      UpdTwice(st0, c.sock, v.(io := v.io.(connected := false)), Disconnected(v));
      UpdTwice(st0, c.sock, Disconnected(v), EnableRead(Disconnected(v)));
      hide EnableRead, Disconnected;
      EnableReading(c);
    }

    /** async_send: send, then let the peer read again if its socket is gone or the queue is low. */
    method AsyncSend(c: Connection, env: Env, reason: Reason) returns (ex: Exception)
      requires Valid() && Live(c) && Safe(st, c.sock)
      modifies this, repr
      ensures Valid() && Still()
      ensures Thrown(ex, st) == Send(old(st), c.sock, env, reason)
    {
      hide Valid, SendImpl, Size, EnableRead, Disconnected;
      ex := AsyncSendImpl(c, env.script, reason);
      Look(c);
      if ex != Nothing || c.other == null {
        return;
      }
      var o := c.other;
      Look(o);
      if o.flags.connected && !env.established {
        Wake(o);
        Note(c, Loud(st.conns[c.sock]).log);
      } else {
        var low := IsLow(c);
        if low {
          EnableReading(o);
        }
      }
    }

    /** The peer of a connection that will not read any more sends what it can. */
    method LetGo(other: Connection, env: Env)
      requires Valid() && Live(other)
      modifies this, repr
      ensures Valid() && Still()
      ensures var r := Send(Upd(old(st), other.sock, Closing(Unlink(old(st).conns[other.sock]))),
        other.sock, env, SelfWrite);
              st == if r.Done? then r.st else Del(r.st, other.sock)
    {
      hide Valid, Send, Del;
      Look(other);
      ghost var v := st.conns[other.sock];
      UpdTwice(st, other.sock, Closing(v), Closing(Unlink(v)));
      assert Unlink(Closing(v)) == Closing(Unlink(v));
      SetFlags(other, other.flags.(closing := true));
      Separate(other);
      var ex := AsyncSend(other, env, SelfWrite);
      if ex != Nothing {
        Delete(other);
      }
    }

    /** close(SELF_RD_ERROR) */
    method CloseRead(c: Connection, env: Env)
      requires Valid() && Live(c) && Safe(st, c.sock)
      modifies this, repr
      ensures Valid() && Still()
      ensures st == Close(old(st), c.sock, SelfRead, env)
    {
      hide Valid, Send, Unlink, Closing;
      Look(c);
      var other := c.other;
      if other != null {
        if c.kind == Client && c.flags.inBody {
          Delete(other);
        } else {
          LetGo(other, env);
        }
      }
      Delete(c);
    }

    /** close(IDLE_TIMEOUT) */
    method CloseIdle(c: Connection, env: Env)
      requires Valid() && Live(c) && Safe(st, c.sock)
      modifies this, repr
      ensures Valid() && Still()
      ensures st == Close(old(st), c.sock, IdleTimeout, env)
    {
      Look(c);
      CloseIdleIs(st, c.sock, env);
      hide Valid, Unlink, Del, Upd, Close;
      if c.other == null {
        Delete(c);
      } else if c.kind != Client {
        Separate(c.other);
        Delete(c);
      }
    }

    /** close(flag) */
    method CloseConn(c: Connection, reason: Reason, env: Env)
      requires Valid() && Live(c) && Safe(st, c.sock)
      modifies this, repr
      ensures Valid() && Still()
      ensures st == Close(old(st), c.sock, reason, env)
    {
      hide Valid, Send, Unlink;
      Look(c);
      var other := c.other;
      if reason == SelfRead {
        hide Close;
        CloseRead(c, env);
      } else if reason == IdleTimeout {
        CloseIdle(c, env);
      } else {
        if other != null {
          Delete(other);
        }
        Delete(c);
      }
    }

    /** A response of the proxy's own goes into the queue of `c`; `closing` says whether it is the last. */
    method Respond(c: Connection, page: Bytes, closing: bool)
      requires Valid() && Live(c) && Safe(st, c.sock)
      modifies this, repr
      ensures Valid() && Stays() && mail == old(mail)
      ensures var v := PushOwn(old(st).conns[c.sock], page);
              st == ForgetRelayed(Upd(old(st), c.sock, v.(io := v.io.(closing := closing))), v.other)
    {
      hide Valid;
      ghost var st0, v := st, PushOwn(st.conns[c.sock], page);
      PushOut(c, page);
      Note(c, v.log);
      Look(c);
      SetFlags(c, c.flags.(closing := closing));
      assert st == Upd(st0, c.sock, v.(io := v.io.(closing := closing)));
      if c.other != null {
        Note(c.other, NothingRelayed(st.conns[c.other.sock]).log);
      }
    }

    /** Send what is queued, or be closed. */
    method SendOrClose(c: Connection, env: Env)
      requires Valid() && Live(c) && Safe(st, c.sock)
      modifies this, repr
      ensures Valid() && Still()
      ensures var r := Send(old(st), c.sock, env, SelfWrite);
              st == if r.Done? then r.st else Close(r.st, c.sock, SelfWrite, env)
    {
      hide Valid, Send, Close;
      var ex := AsyncSend(c, env, SelfWrite);
      if ex != Nothing {
        CloseConn(c, SelfWrite, env);
      }
    }

    /** No more reads; the page is the last thing to be sent. */
    method PutPage(c: Connection, page: Bytes)
      requires Valid() && Live(c) && Safe(st, c.sock)
      modifies this, repr
      ensures Valid() && Stays() && mail == old(mail)
      ensures st == Paged(old(st), c.sock, page) && Safe(st, c.sock)
    {
      PageSteps(st, c.sock, page);
      hide Valid, Upd, PushOwn, Paged, ForgetRelayed, Muted;
      Mute(c);
      Respond(c, page, true);
    }

    /** Its write event is there, its read event is not. */
    method Mute(c: Connection)
      requires Valid() && Live(c)
      modifies this`st, c`flags
      ensures Valid() && Still() && st == Upd(old(st), c.sock, Muted(old(st).conns[c.sock]))
    {
      hide Valid;
      Look(c);
      var wake := c.flags.wake && !c.flags.reading;
      SetFlags(c, c.flags.(attached := true, reading := false, wake := wake));
    }

    /** send_error */
    method SendErrorPage(c: Connection, env: Env)
      requires Valid() && Live(c) && Safe(st, c.sock)
      modifies this, repr
      ensures Valid() && Stays() && mail == old(mail)
      ensures st == SendError(old(st), c.sock, env)
    {
      Look(c);
      if !c.flags.attached && !env.eventOk {
        hide Valid, Close;
        CloseConn(c, SelfWrite, env);
      } else {
        hide Valid, Send, Close, Upd, PushOwn, ForgetRelayed;
        PutPage(c, env.error);
        hide Paged;
        SendOrClose(c, env);
      }
    }

    /** The catch clauses of handle_read and handle_write. */
    method CatchAll(ex: Exception, c: Connection, env: Env)
      requires Valid() && Live(c) && Safe(st, c.sock)
      modifies this, repr
      ensures Valid() && Stays() && mail == old(mail)
      ensures st == Catch(Thrown(ex, old(st)), c.sock, env)
    {
      hide Valid, Close, SendError;
      match ex {
        case Nothing =>
        case IoException(reason) => CloseConn(c, reason, env);
        case HttpException => SendErrorPage(c, env);
      }
    }

    // -------------------------------------------------------------- requests and matching

    /** event_del(&ev_timer_), and the flag off */
    method Disarm(c: Connection)
      requires Valid() && Live(c)
      modifies this, repr
      ensures Valid() && Still()
      ensures st == Upd(old(st), c.sock, Disarmed(old(st).conns[c.sock]))
    {
      hide Valid;
      Look(c);
      SetFlags(c, c.flags.(armed := false, timeout := false));
    }

    /** request_new_server */
    method RequestNewServer(c: Connection, env: Env) returns (ex: Exception)
      requires Valid() && Live(c)
      modifies this, repr
      ensures Valid() && Still()
      ensures Thrown(ex, st) == RequestServer(old(st), c.sock, env)
    {
      Look(c);
      ghost var st0, v := st, st.conns[c.sock];
      OneAt(st0, c.sock);
      hide Valid, Upd;
      if c.flags.timeout {
        Disarm(c);
      }
      ghost var w := st.conns[c.sock];
      assert st == Upd(st0, c.sock, w) && w == if v.io.timeout then Disarmed(v) else v;
      if !env.timerOk {
        return HttpException;
      }
      Look(c);
      SetFlags(c, c.flags.(armed := true));
      assert st == Upd(st0, c.sock, w.(io := w.io.(armed := true)));
      if !env.askOk {
        return HttpException;
      }
      Look(c);
      SetFlags(c, c.flags.(timeout := true));
      ex := Nothing;
    }

    /** The requests of `c` go to `s`, and the accounts are opened. */
    method TakeOver(s: Connection, c: Connection, ghost sl: Log, ghost cl: Log)
      requires Valid() && Live(s) && Live(c) && s.sock != c.sock
      modifies this, repr
      ensures Valid() && Still()
      ensures var v, w := old(st).conns[s.sock], old(st).conns[c.sock];
              st == Upd(Upd(old(st), c.sock, w.(inQ := [], log := cl)), s.sock, v.(outQ := v.outQ + w.inQ, log := sl))
    {
      ghost var st0, i, j, w, v := st, c.sock, s.sock, st.conns[c.sock], st.conns[s.sock];
      ghost var w1, v1 := w.(inQ := []), v.(outQ := v.outQ + w.inQ);
      UpdSwap(st, j, v1, i, w1);
      TwoAt(st0, i, w1, j, v1, w1, v1.(log := sl));
      TwoAt(st0, i, w1, j, v1.(log := sl), w1.(log := cl), v1);
      hide Valid, Upd;
      TakeRequests(s, c);
      Note(s, sl);
      Note(c, cl);
    }

    /** The OK response and the requests of `c` go to `s`. */
    method Hello(s: Connection, c: Connection, ok: Bytes)
      requires Valid() && Live(s) && Live(c) && s.sock != c.sock
      modifies this, repr
      ensures Valid() && Stays() && mail == old(mail)
      ensures var v, w := old(st).conns[s.sock], old(st).conns[c.sock];
              st == Upd(Upd(old(st), c.sock, Asking(w)), s.sock, Greeted(v, ok, w.inQ))
    {
      ghost var sl, cl := Greeted(st.conns[s.sock], ok, st.conns[c.sock].inQ).log, Asking(st.conns[c.sock]).log;
      HelloSteps(st, s.sock, c.sock, ok);
      hide Valid, Push, Upd, Greeted, Asking;
      PushOut(s, ok);
      TakeOver(s, c, sl, cl);
    }

    /** The client's timer is off; the OK response and its requests are in the server's queue. */
    method Greet(s: Connection, c: Connection, ok: Bytes)
      requires Valid() && Live(s) && Live(c) && s.sock != c.sock
      modifies this, repr
      ensures Valid() && Stays() && mail == old(mail)
      ensures st == Upd(Upd(old(st), c.sock, Emptied(old(st).conns[c.sock])), s.sock,
                        Greeted(old(st).conns[s.sock], ok, old(st).conns[c.sock].inQ))
    {
      ghost var cc := st.conns[c.sock];
      UpdTwice(st, c.sock, Disarmed(cc), Emptied(cc));
      assert Asking(Disarmed(cc)) == Emptied(cc) && Disarmed(cc).inQ == cc.inQ;
      hide Valid, Greeted, Emptied, Disarmed, Asking;
      Disarm(c);
      Hello(s, c, ok);
    }

    /** `other_ = conn, conn->other_ = this` */
    method Link(s: Connection, c: Connection, ghost account: Log)
      requires Valid() && Live(s) && Live(c) && s.sock != c.sock
      requires st.conns[s.sock].kind != Client
      modifies this, repr
      ensures Valid() && Still()
      ensures st == Upd(Upd(old(st), c.sock, old(st).conns[c.sock].(other := Some(s.sock), log := account)), s.sock,
                        old(st).conns[s.sock].(kind := BusyServer, other := Some(c.sock)))
    {
      Look(s);
      ghost var st0, i, j, cc, sc := st, c.sock, s.sock, st.conns[c.sock], st.conns[s.sock];
      ghost var s1 := sc.(kind := BusyServer);
      ghost var s2, c2 := s1.(other := Some(i)), cc.(other := Some(j));
      UpdSelf(st0, i);
      TwoAt(st0, i, cc, j, s1, cc, s2);
      TwoAt(st0, i, cc, j, s2, c2, s2);
      TwoAt(st0, i, c2, j, s2, c2.(log := account), s2);
      hide Valid, Upd;
      SetKind(s, BusyServer);
      SetPeer(s, c);
      SetPeer(c, s);
      Note(c, account);
    }

    /** match(conn, true): this server takes over a waiting client, its requests first. */
    method MatchPair(s: Connection, c: Connection, env: Env) returns (ex: Exception)
      requires Valid() && Live(s) && Live(c) && s.sock != c.sock
      requires st.conns[s.sock].other == None && st.conns[c.sock].other == None && st.conns[s.sock].kind != Client
      modifies this, repr
      ensures Valid() && Stays() && mail == old(mail)
      ensures Thrown(ex, st) == Match(old(st), s.sock, c.sock, env)
    {
      hide Valid;
      Look(c);
      ghost var cc, sc := st.conns[c.sock], st.conns[s.sock];
      if !c.flags.timeout {
        return HttpException;
      }
      ghost var st1 := Upd(Upd(st, c.sock, Emptied(cc)), s.sock, Greeted(sc, env.ok, cc.inQ));
      ImplAside(st1, s.sock, env.script, SelfWrite);
      assert st1.conns[c.sock] == Emptied(cc) && st1.conns[s.sock].kind == sc.kind;
      assert Emptied(cc).(other := Some(s.sock), log := Taken(cc, s.sock).log) == Taken(cc, s.sock);
      hide Greeted, Emptied, Taken, SendImpl;
      Greet(s, c, env.ok);
      ex := AsyncSendImpl(s, env.script, SelfWrite);
      if ex != Nothing {
        return;
      }
      Link(s, c, Taken(cc, s.sock).log);
    }

    /** write_notify of a match message into another worker's pipe */
    method Post(c: Connection, dst: Id, worker: int)
      requires Valid() && Live(c)
      modifies this`mail, this`st
      ensures Valid() && Stays() && st == old(st).(mail := old(st).mail[c.sock := Letter(dst, worker)])
    {
      hide Connection.Shows;
      mail := mail[c.sock := Message(c, Letter(dst, worker))];
      st := st.(mail := st.mail[c.sock := Letter(dst, worker)]);
      forall i | i in st.conns
        ensures Sits(at[i], i)
      {
        assert old(Sits(at[i], i));
      }
      hide Sits;
    }

    /** The message about `i` leaves the pipe. */
    method TakeMessage(i: Id) returns (m: Message)
      requires Valid() && i in mail
      modifies this`mail, this`st
      ensures Valid() && Stays() && old(i in st.mail) && st == old(st).(mail := old(st).mail - {i})
      ensures m.letter == old(st).mail[i] && m.src.sock == i && (i in st.conns ==> Live(m.src))
    {
      hide Connection.Shows;
      m := mail[i];
      mail := mail - {i};
      st := st.(mail := st.mail - {i});
      forall j | j in st.conns
        ensures Sits(at[j], j)
      {
        assert old(Sits(at[j], j));
      }
      hide Sits;
    }

    /** detach; a timer whose flag is off is not deleted */
    method Detach(c: Connection)
      requires Valid() && Live(c)
      modifies this`st, c`flags
      ensures Valid() && Still() && st == Upd(old(st), c.sock, Detached(old(st).conns[c.sock]))
    {
      hide Valid;
      Look(c);
      var armed := c.flags.armed && !c.flags.timeout;
      var wake := c.flags.wake && !c.flags.reading;
      SetFlags(c, c.flags.(attached := false, reading := false, wake := wake, armed := armed, timeout := false));
    }

    /** match_client */
    method MatchToClient(s: Connection, dst: Id, env: Env) returns (ex: Exception)
      requires Valid() && Live(s) && st.conns[s.sock].other == None && st.conns[s.sock].kind != Client
      modifies this, repr
      ensures Valid() && Stays()
      ensures Thrown(ex, st) == MatchClient(old(st), s.sock, dst, env)
    {
      hide Valid, Match;
      Look(s);
      InTable(dst);
      if dst in clients {
        var c := clients[dst];
        Look(c);
        if s.host != c.host {
          Detach(s);
          if env.notifyOk {
            Post(s, dst, c.host);
            return Nothing;
          }
        } else if c.other == null {
          if Same(c.devId, s.devId) {
            ex := MatchPair(s, c, env);
            return;
          }
        }
      }
      return HttpException;
    }

    /** match(sock, true), for a connection that has been handed over */
    method MatchHanded(s: Connection, dst: Id, env: Env) returns (ex: Exception)
      requires Valid() && Live(s) && st.conns[s.sock].other == None && st.conns[s.sock].kind != Client
      modifies this, repr
      ensures Valid() && Stays() && mail == old(mail)
      ensures Thrown(ex, st) == MatchHere(old(st), s.sock, dst, env)
    {
      hide Valid, Match;
      Look(s);
      InTable(dst);
      if dst !in clients {
        return HttpException;
      }
      var c := clients[dst];
      Look(c);
      if c.host != s.host || c.other != null || !Same(c.devId, s.devId) {
        return HttpException;
      }
      ex := MatchPair(s, c, env);
    }

    // -------------------------------------------------------------- input

    /** Bytes of a matched client go to its server. */
    method PassOn(c: Connection, data: Bytes, env: Env) returns (ex: Exception)
      requires Valid() && Live(c) && Paired(st, c.sock) && c.other != null
      modifies this, repr
      ensures Valid() && Stays() && mail == old(mail)
      ensures old(st).conns[c.sock].other.Some? && Thrown(ex, st) == Forward(old(st), c.sock, data, env)
    {
      hide Valid, Send, Queued;
      Look(c);
      var o := c.other;
      PushFor(c, o, data);
      ex := AsyncSend(o, env, OtherWrite);
    }

    /** other_->out_queue_.push(buf) */
    method PushFor(c: Connection, o: Connection, data: Bytes)
      requires Valid() && Live(c) && Live(o) && Paired(st, c.sock) && st.conns[c.sock].other == Some(o.sock)
      modifies this, repr
      ensures Valid() && Stays() && mail == old(mail)
      ensures st == Queued(old(st), c.sock, data) && Safe(st, o.sock)
    {
      hide Valid;
      assert Push(st.conns[o.sock], data).other == st.conns[o.sock].other;
      hide Push;
      PushOut(o, data);
      Note(c, Asked(st.conns[c.sock], data).log);
    }

    /** handle_uri for a client's request header */
    method HandleClientUri(c: Connection, head: Bytes, dev: string, env: Env) returns (ex: Exception)
      requires Valid() && Live(c) && Paired(st, c.sock)
      modifies this, repr
      ensures Valid() && Stays() && mail == old(mail)
      ensures Thrown(ex, st) == ClientUri(old(st), c.sock, head, dev, env)
    {
      hide Valid, Forward, NewRequest;
      Look(c);
      if c.other != null && Same(c.devId, dev) {
        ex := PassOn(c, head, env);
      } else {
        ex := AskAnew(c, head, dev, env);
      }
    }

    /** The server of another device is closed. */
    method Abandon(c: Connection)
      requires Valid() && Live(c) && Safe(st, c.sock)
      modifies this, repr
      ensures Valid() && Still()
      ensures var v := old(st).conns[c.sock];
              st == if v.other.Some? then Upd(Del(old(st), v.other.value), c.sock, Unlink(v)) else old(st)
    {
      hide Valid, Unlink;
      Look(c);
      if c.other != null {
        Delete(c.other);
        Separate(c);
      }
    }

    /** The request waits for a server. */
    method Queue(c: Connection, head: Bytes, dev: string)
      requires Valid() && Live(c)
      modifies this, repr
      ensures Valid() && Stays() && mail == old(mail)
      ensures st == Upd(old(st), c.sock, Requested(old(st).conns[c.sock], head).(devId := dev))
    {
      ghost var v := Requested(st.conns[c.sock], head);
      UpdTwice(st, c.sock, v, v.(devId := dev));
      hide Valid, Requested;
      PushIn(c, head);
      SetDevice(c, dev);
    }

    /** The server of another device is closed, the request queued, and a server asked for. */
    method AskAnew(c: Connection, head: Bytes, dev: string, env: Env) returns (ex: Exception)
      requires Valid() && Live(c) && Safe(st, c.sock)
      modifies this, repr
      ensures Valid() && Stays() && mail == old(mail)
      ensures Thrown(ex, st) == NewRequest(old(st), c.sock, head, dev, env)
    {
      NewRequestSteps(st, c.sock, head, dev, env);
      hide Valid, RequestServer, Requested, Unlink, Del, Upd, NewRequest;
      Abandon(c);
      Queue(c, head, dev);
      ex := RequestNewServer(c, env);
    }

    /** handle_uri for the header of a device's connection */
    method HandleServerUri(c: Connection, dev: string, dst: Id, env: Env) returns (ex: Exception)
      requires Valid() && Live(c) && Safe(st, c.sock)
      modifies this, repr
      ensures Valid() && Stays()
      ensures Thrown(ex, st) == ServerUri(old(st), c.sock, dev, dst, env)
    {
      hide Valid, MatchClient;
      Look(c);
      if c.other != null {
        return HttpException;
      }
      Become(c, dev);
      ex := MatchToClient(c, dst, env);
    }

    /** A client turns server. */
    method Become(c: Connection, dev: string)
      requires Valid() && Live(c)
      modifies this, repr
      ensures Valid() && Still()
      ensures st == Upd(old(st), c.sock, old(st).conns[c.sock].(kind := IdleServer, devId := dev))
    {
      ghost var v := st.conns[c.sock];
      UpdTwice(st, c.sock, v.(devId := dev), v.(kind := IdleServer, devId := dev));
      hide Valid;
      SetDevice(c, dev);
      TurnServer(c);
    }

    /** onBody */
    method OnBodyBytes(c: Connection, data: Bytes, env: Env) returns (ex: Exception)
      requires Valid() && Live(c) && Paired(st, c.sock)
      modifies this, repr
      ensures Valid() && Stays() && mail == old(mail)
      ensures Thrown(ex, st) == OnBody(old(st), c.sock, data, env)
    {
      hide Valid, Forward, Requested;
      Look(c);
      if c.other != null {
        ex := PassOn(c, data, env);
      } else {
        PushIn(c, data);
        ex := Nothing;
      }
    }

    /** read_request after a complete piece of input */
    method Throttled(c: Connection)
      requires Valid() && Live(c) && Safe(st, c.sock)
      modifies this, repr
      ensures Valid() && Still() && st == Throttle(old(st), c.sock)
    {
      hide Valid, Size;
      Look(c);
      if c.other != null {
        var high := IsHigh(c.other);
        if high {
          Stop(c);
        }
      }
    }

    /** What follows a piece of input. */
    method Conclude(ex: Exception, c: Connection, inBody: bool, env: Env)
      requires Valid() && Live(c) && Safe(st, c.sock)
      modifies this, repr
      ensures Valid() && Stays() && mail == old(mail)
      ensures st == Finish(Thrown(ex, old(st)), c.sock, inBody, env)
    {
      hide Valid, Catch, Throttle;
      Look(c);
      if ex == Nothing {
        SetFlags(c, c.flags.(inBody := inBody));
        Throttled(c);
      } else {
        CatchAll(ex, c, env);
      }
    }

    /** The message about `i` is not followed any further. */
    method Spoil(i: Id)
      requires Valid() && i in mail
      modifies this`mail, this`st
      ensures Valid() && Stays() && st == Spoiled(old(st), i)
    {
      hide Connection.Shows;
      mail := mail - {i};
      st := Spoiled(st, i);
      forall j | j in st.conns
        ensures Sits(at[j], j)
      {
        assert old(Sits(at[j], j));
      }
      hide Sits;
    }

    /** read_request goes on inside a body although the connection has been handed over. */
    method ReadOn(c: Connection, rest: Rest, env: Env)
      requires Valid() && Live(c)
      modifies this, repr
      ensures Valid() && Stays()
      ensures st == ReadsOn(old(st), c.sock, rest, env)
    {
      Look(c);
      assert mail.Keys == st.mail.Keys && (c.sock in mail <==> c.sock in st.mail);
      hide Valid, SendError;
      if c.sock in mail && c.other == null && c.flags.inBody {
        match rest {
          case Settled(data) =>
            if data != [] {
              PushIn(c, data);
            }
          case Dropped =>
            Spoil(c.sock);
            CloseConn(c, SelfRead, env);
          case Refused =>
            Spoil(c.sock);
            SendErrorPage(c, env);
        }
      }
    }

    // -------------------------------------------------------------- handlers

    /** onHeader for a device's header, and what follows it; true if nothing was thrown */
    method OnServerHeader(c: Connection, item: Item, env: Env) returns (good: bool)
      requires Valid() && Live(c) && Safe(st, c.sock) && item.ServerHeader?
      modifies this, repr
      ensures Valid() && Stays()
      ensures var r := ServerUri(old(st), c.sock, item.serverDev, item.dst, env);
              good == r.Done? && st == Finish(r, c.sock, item.hasBody, env)
    {
      hide Valid, Finish, ServerUri;
      var ex := HandleServerUri(c, item.serverDev, item.dst, env);
      Conclude(ex, c, item.hasBody, env);
      good := ex == Nothing;
    }

    /** read_request, for the header of a device's connection */
    method ReadServerHeader(c: Connection, item: Item, env: Env)
      requires Valid() && Live(c) && Paired(st, c.sock) && c.sock !in st.mail && item.ServerHeader?
      modifies this, repr
      ensures Valid() && Stays()
      ensures st == Handles(old(st), c.sock, item, env)
    {
      hide Valid, Finish, ServerUri, ReadsOn;
      ServerUriMail(st, c.sock, item, env);
      assert Handles(st, c.sock, item, env)
             == ReadsOn(Finish(ServerUri(st, c.sock, item.serverDev, item.dst, env), c.sock, item.hasBody, env),
               c.sock, item.rest, env);
      hide Handles;
      var good := OnServerHeader(c, item, env);
      if good {
        ReadOn(c, item.rest, env);
      }
    }

    /** handle_read of a client, for one recv */
    method HandleClientRead(c: Connection, item: Item, env: Env)
      requires Valid() && Live(c) && Paired(st, c.sock) && c.sock !in st.mail
      modifies this, repr
      ensures Valid() && Stays()
      ensures st == ClientReads(old(st), c.sock, item, env)
    {
      Look(c);
      AwakeSame(st, c.sock);
      hide Valid, Upd, Handles;
      SetFlags(c, c.flags.(wake := false));
      ReadRequest(c, item, env);
    }

    /** read_request, for one recv */
    method ReadRequest(c: Connection, item: Item, env: Env)
      requires Valid() && Live(c) && Paired(st, c.sock) && c.sock !in st.mail
      modifies this, repr
      ensures Valid() && Stays()
      ensures st == Handles(old(st), c.sock, item, env)
    {
      hide Valid, Close, Throttle, SendError, Finish, ClientUri, OnBody, OwnResponse, ServerUri, ReadsOn;
      match item {
        case Again =>
        case Ended => CloseConn(c, SelfRead, env);
        case Partial => Throttled(c);
        case Malformed => SendErrorPage(c, env);
        case Special(response, hasBody) =>
          Answer(c, response, hasBody, env);
        case ClientHeader(head, dev, hasBody) =>
          var ex := HandleClientUri(c, head, dev, env);
          Conclude(ex, c, hasBody, env);
        case ServerHeader(_, _, _, _) =>
          ReadServerHeader(c, item, env);
        case Body(data, last) =>
          var ex := OnBodyBytes(c, data, env);
          Conclude(ex, c, !last, env);
      }
    }

    /** handle_special_request */
    method Answer(c: Connection, response: Bytes, hasBody: bool, env: Env)
      requires Valid() && Live(c) && Safe(st, c.sock)
      modifies this, repr
      ensures Valid() && Stays() && mail == old(mail)
      ensures st == Finish(OwnResponse(old(st), c.sock, response, env), c.sock, hasBody, env)
    {
      hide Valid, Send, Finish;
      Respond(c, response, false);
      hide PushOwn, ForgetRelayed, Upd;
      var ex := AsyncSend(c, env, SelfWrite);
      Conclude(ex, c, hasBody, env);
    }

    /** handle_read of a server, for one recv */
    method HandleServerRead(c: Connection, chunk: Chunked, env: Env)
      requires Valid() && Live(c) && Paired(st, c.sock)
      modifies this, repr
      ensures Valid() && Stays() && mail == old(mail)
      ensures st == ServerReads(old(st), c.sock, chunk, env)
    {
      Look(c);
      AwakeSame(st, c.sock);
      hide Valid, Upd, Close, Send, Catch, Relays;
      if c.other != null && chunk.ServerData? {
        PassBack(c, chunk.data, env);
      } else {
        SetFlags(c, c.flags.(wake := false));
        ReadNothing(c, chunk, env);
      }
    }

    /** read_message_no_parse, for a recv that brings nothing */
    method ReadNothing(c: Connection, chunk: Chunked, env: Env)
      requires Valid() && Live(c) && Paired(st, c.sock) && (chunk.ServerData? ==> c.other == null)
      modifies this, repr
      ensures Valid() && Stays() && mail == old(mail)
      ensures var v := old(st).conns[c.sock];
              st == if v.other == None then Del(old(st), c.sock)
                    else if chunk == ServerEnded then Close(old(st), c.sock, SelfRead, env)
                    else if old(st).conns[v.other.value].outQ == [] then old(st)
                    else Catch(Send(old(st), v.other.value, env, OtherWrite), c.sock, env)
    {
      hide Valid, Close, Send, Catch;
      Look(c);
      if c.other == null {
        Delete(c);
      } else if chunk == ServerEnded {
        CloseConn(c, SelfRead, env);
      } else {
        var empty := IsEmpty(c.other);
        if !empty {
          Flush(c, c.other, env);
        }
      }
    }

    /** async_send of the peer, with this connection's catch clauses */
    method Flush(c: Connection, o: Connection, env: Env)
      requires Valid() && Live(c) && Live(o) && Safe(st, o.sock) && Safe(st, c.sock)
      modifies this, repr
      ensures Valid() && Stays() && mail == old(mail)
      ensures st == Catch(Send(old(st), o.sock, env, OtherWrite), c.sock, env)
    {
      hide Valid, Send, Catch;
      var ex := AsyncSend(o, env, OtherWrite);
      CatchAll(ex, c, env);
    }

    /** A server's bytes go to its client; at the high mark reading stops and the client's queue is sent. */
    method PassBack(c: Connection, data: Bytes, env: Env)
      requires Valid() && Live(c) && Paired(st, c.sock) && c.other != null
      modifies this, repr
      ensures Valid() && Stays() && mail == old(mail)
      ensures old(st).conns[c.sock].other.Some? && st == Relays(old(st), c.sock, data, env)
    {
      hide Valid, Send, Catch, Size, Push, Delivered;
      Look(c);
      var o := c.other;
      RelaysSteps(st, c.sock, o.sock, data, env);
      hide Relays, Upd, Halted;
      Bring(c, o, data);
      Relieve(c, o, env);
    }

    /** At the high mark of the peer's queue reading stops and the queue is sent. */
    method Relieve(c: Connection, o: Connection, env: Env)
      requires Valid() && Live(c) && Live(o) && Safe(st, o.sock) && Safe(st, c.sock) && c.sock != o.sock
      modifies this, repr
      ensures Valid() && Stays() && mail == old(mail)
      ensures if Size(old(st).conns[o.sock].outQ) < HIGH_MARK then st == old(st)
              else var st1 := Upd(old(st), c.sock, Halted(old(st).conns[c.sock]));
                   Safe(st1, o.sock) && st == Catch(Send(st1, o.sock, env, OtherWrite), c.sock, env)
    {
      hide Valid, Send, Catch, Size, Halted;
      var high := IsHigh(o);
      if high {
        StopAndFlush(c, o, env);
      }
    }

    /** disable_read, then async_send of the peer */
    method StopAndFlush(c: Connection, o: Connection, env: Env)
      requires Valid() && Live(c) && Live(o) && Safe(st, o.sock) && Safe(st, c.sock) && c.sock != o.sock
      modifies this, repr
      ensures Valid() && Stays() && mail == old(mail)
      ensures var st1 := Upd(old(st), c.sock, Halted(old(st).conns[c.sock]));
              Safe(st1, o.sock) && st == Catch(Send(st1, o.sock, env, OtherWrite), c.sock, env)
    {
      assert Halted(st.conns[c.sock]).other == st.conns[c.sock].other;
      hide Valid, Send, Catch, Halted;
      Halt(c);
      Flush(c, o, env);
    }

    /** The bytes go into the peer's queue. */
    method Bring(c: Connection, o: Connection, data: Bytes)
      requires Valid() && Live(c) && Live(o) && c.sock != o.sock
      modifies this, repr
      ensures Valid() && Stays() && mail == old(mail)
      ensures st == Upd(Upd(old(st), c.sock, Delivered(old(st).conns[c.sock], data)),
        o.sock, Push(old(st).conns[o.sock], data))
    {
      ghost var v := st.conns[c.sock];
      assert v.(log := Delivered(v, data).log) == Delivered(v, data);
      assert Upd(st, c.sock, Delivered(v, data)).conns[o.sock] == st.conns[o.sock];
      hide Valid, Push, Delivered, Upd;
      Note(c, Delivered(v, data).log);
      PushOut(o, data);
    }

    /** disable_read, and the end of the loop */
    method Halt(c: Connection)
      requires Valid() && Live(c)
      modifies this`st, c`flags
      ensures Valid() && Still() && st == Upd(old(st), c.sock, Halted(old(st).conns[c.sock]))
    {
      hide Valid;
      Look(c);
      SetFlags(c, c.flags.(enableRd := false, wake := false));
    }

    /** disable_read */
    method Stop(c: Connection)
      requires Valid() && Live(c)
      modifies this`st, c`flags
      ensures Valid() && Still() && st == Upd(old(st), c.sock, Stopped(old(st).conns[c.sock]))
    {
      hide Valid;
      Look(c);
      SetFlags(c, c.flags.(enableRd := false));
    }

    /** attach */
    method Attach(c: Connection, worker: int)
      requires Valid() && Live(c)
      modifies this, repr
      ensures Valid() && Still() && st == Upd(old(st), c.sock, Attached(old(st).conns[c.sock], worker))
    {
      Look(c);
      ghost var v := st.conns[c.sock];
      UpdTwice(st, c.sock, v.(host := worker), Attached(v, worker));
      hide Valid;
      SetHost(c, worker);
      SetFlags(c, c.flags.(attached := true, reading := true, enableRd := true));
    }

    /** match by socket, with the catch clauses */
    method MatchOrCatch(c: Connection, dst: Id, env: Env)
      requires Valid() && Live(c) && st.conns[c.sock].other == None && st.conns[c.sock].kind != Client
      modifies this, repr
      ensures Valid() && Stays() && mail == old(mail)
      ensures st == Catch(MatchHere(old(st), c.sock, dst, env), c.sock, env)
    {
      hide Valid, MatchHere, Catch;
      var ex := MatchHanded(c, dst, env);
      CatchAll(ex, c, env);
    }

    /** A worker takes a hand-over message out of its pipe: attach, then match. */
    method HandleDelivery(i: Id, env: Env)
      requires Valid() && i in st.mail && i in st.conns && st.conns[i].other == None && st.conns[i].kind != Client
      modifies this, repr
      ensures Valid() && Stays()
      ensures st == Delivers(old(st), i, env)
    {
      assert i in mail;
      hide Valid, MatchHere, Catch;
      var m := TakeMessage(i);
      Attach(m.src, m.letter.worker);
      MatchOrCatch(m.src, m.letter.dst, env);
    }

    /** handle_write */
    method HandleWrite(c: Connection, env: Env)
      requires Valid() && Live(c) && Safe(st, c.sock)
      modifies this, repr
      ensures Valid() && Stays() && mail == old(mail)
      ensures st == Catch(Send(old(st), c.sock, env, SelfWrite), c.sock, env)
    {
      hide Valid, Send, Catch;
      var ex := AsyncSend(c, env, SelfWrite);
      CatchAll(ex, c, env);
    }

    /** handle_timeout */
    method HandleTimeout(c: Connection, env: Env)
      requires Valid() && Live(c) && Safe(st, c.sock)
      modifies this, repr
      ensures Valid() && Stays() && mail == old(mail)
      ensures var st1 := Upd(old(st), c.sock, Fired(old(st).conns[c.sock]));
              Safe(st1, c.sock) && st == SendError(st1, c.sock, env)
    {
      hide Valid, SendError;
      Look(c);
      SetFlags(c, c.flags.(armed := false));
      SendErrorPage(c, env);
    }

    /**
     Any event on connections that satisfy the invariant, `arg` being the connection its handler was registered
     with: the methods take the objects exactly where the transition system goes and keep its invariant.
    */
    method Handle(arg: Connection?, ev: Event)
      requires Valid() && Inv(st) && Enabled(st, ev)
      requires ev.Accept? || ev.Deliver? || (arg != null && Live(arg) && arg.sock == ev.id)
      modifies this, repr
      ensures Valid() && Inv(st) && st == Step(old(st), ev)
      ensures forall o :: o in repr ==> o in old(repr) || fresh(o)
    {
      StepKeeps(st, ev);
      Ready(st, ev);
      hide Valid, Inv, ClientReads, ServerReads, Send, Catch, SendError, Close, Delivers, Live;
      match ev {
        case Accept(i, worker) => Add(i, worker);
        case ClientRead(_, item, env) => HandleClientRead(arg, item, env);
        case ServerRead(_, chunk, env) => HandleServerRead(arg, chunk, env);
        case Writable(_, env) => HandleWrite(arg, env);
        case Timer(_, env) => HandleTimeout(arg, env);
        case Idle(_) => CloseConn(arg, IdleTimeout, NO_ENV);
        case Deliver(i, env) => HandleDelivery(i, env);
      }
    }

    /** Between events no pointer dangles: the peer of a live connection is live and points back. */
    lemma NoDanglingPointer(c: Connection)
      requires Valid() && Inv(st) && Live(c) && c.other != null
      ensures Live(c.other) && c.other != c && c.other.other == c
      ensures c.kind != c.other.kind && (c.kind == Client || c.other.kind == Client)
    {
      Seen(c);
      PeerBack(st, c.sock);
      assert NodeOk(st, c.sock);
      hide Connection.Shows;
      Seen(c.other);
    }

    /** Nor does the pointer in a hand-over message. */
    lemma NoDanglingMessage(i: Id)
      requires Valid() && Inv(st) && i in mail
      ensures Live(mail[i].src) && mail[i].src.other == null && mail[i].src.kind == IdleServer
    {
      assert i in st.mail.Keys && i in st.conns;
      assert NodeOk(st, i);
      hide Connection.Shows;
      Seen(mail[i].src);
    }
  }

  /** What the handlers expect of an event's connection. */
  lemma Ready(st: State, ev: Event)
    requires Inv(st) && Enabled(st, ev)
    ensures !ev.Accept? ==> ev.id in st.conns && Paired(st, ev.id)
    ensures ev.ClientRead? ==> ev.id !in st.mail
    ensures ev.Deliver? ==> st.conns[ev.id].other == None && st.conns[ev.id].kind != Client
  {
    if !ev.Accept? {
      InvPaired(st, ev.id);
      assert NodeOk(st, ev.id);
    }
  }

  /** What a server's bytes come to. */
  lemma RelaysSteps(st: State, i: Id, o: Id, data: Bytes, env: Env)
    requires Paired(st, i) && st.conns[i].other == Some(o)
    ensures var st1 := Upd(Upd(st, i, Delivered(st.conns[i], data)), o, Push(st.conns[o], data));
            && i in st1.conns && o in st1.conns && Safe(st1, i) && Safe(st1, o)
            && Relays(st, i, data, env) ==
               if Size(st1.conns[o].outQ) < HIGH_MARK then st1
               else (var st2 := Upd(st1, i, Halted(st1.conns[i]));
                     assert Safe(st2, o); Catch(Send(st2, o, env, OtherWrite), i, env))
  {
    assert Push(st.conns[o], data).other == st.conns[o].other;
    hide Send, Catch, Size, Push;
  }

  lemma CloseIdleIs(st: State, i: Id, env: Env)
    requires Safe(st, i)
    ensures var c := st.conns[i];
            Close(st, i, IdleTimeout, env) ==
            if c.other == None then Del(st, i)
            else if c.kind == Client then st
            else Del(Upd(st, c.other.value, Unlink(st.conns[c.other.value])), i)
    ensures st.conns[i].other.Some? ==>
      i in Upd(st, st.conns[i].other.value, Unlink(st.conns[st.conns[i].other.value])).conns
  {
    hide Send;
  }

  /** The steps to a new request. */
  lemma NewRequestSteps(st: State, i: Id, head: Bytes, dev: string, env: Env)
    requires Safe(st, i)
    ensures var v := st.conns[i];
            var st1 := if v.other.Some? then Upd(Del(st, v.other.value), i, Unlink(v)) else st;
            && i in st1.conns
            && var st2 := Upd(st1, i, Requested(st1.conns[i], head).(devId := dev));
               i in st2.conns && NewRequest(st, i, head, dev, env) == RequestServer(st2, i, env)
  {
    var v := st.conns[i];
    if v.other.Some? {
      UpdTwice(Del(st, v.other.value), i, Unlink(v), Requested(Unlink(v), head).(devId := dev));
    }
    hide RequestServer;
  }

  /** Where something is thrown, no hand-over message has been written. */
  lemma ServerUriMail(st: State, i: Id, item: Item, env: Env)
    requires Safe(st, i) && i !in st.mail && item.ServerHeader?
    ensures var r := ServerUri(st, i, item.serverDev, item.dst, env);
            && (!r.Done? ==>
                  ReadsOn(Finish(r, i, item.hasBody, env), i, item.rest, env) == Finish(r, i, item.hasBody, env))
            && (r.Done? ==> i in Finish(r, i, item.hasBody, env).conns)
  {
    var r := ServerUri(st, i, item.serverDev, item.dst, env);
    ServerUriThrows(st, i, item.serverDev, item.dst, env);
    hide ServerUri, Size;
    if !r.Done? { CatchMail(r, i, env); }
    hide Catch;
  }

  lemma ServerUriThrows(st: State, i: Id, dev: string, dst: Id, env: Env)
    requires Safe(st, i)
    ensures var r := ServerUri(st, i, dev, dst, env); !r.Done? ==> r.st.mail == st.mail
  {
    hide Drain, Pending, Greeted;
  }

  lemma CatchMail(r: Result, i: Id, env: Env)
    requires Safe(r.st, i)
    ensures Catch(r, i, env).mail == r.st.mail
  {
    hide Drain, Size, PushOwn;
  }

  lemma AwakeSame(st: State, i: Id)
    requires Paired(st, i)
    ensures var st0 := Upd(st, i, Awake(st.conns[i]));
            Paired(st0, i) && st0.mail == st.mail && st0.conns[i].other == st.conns[i].other
  {
  }

  lemma ImplAside(st: State, i: Id, script: seq<SendResult>, reason: Reason)
    requires i in st.conns
    ensures var r := SendImpl(st, i, script, reason).st;
            && r == Upd(st, i, r.conns[i])
            && (r.conns[i].kind == Client <==> st.conns[i].kind == Client)
  {
    hide Drain;
  }

  function Muted(c: Conn): Conn {
    Unheard(c).(io := Unheard(c).io.(attached := true))
  }

  /** The two steps to an error page. */
  lemma PageSteps(st: State, i: Id, page: Bytes)
    requires Safe(st, i)
    ensures var v := Muted(st.conns[i]);
            var w := PushOwn(v, page);
            && Safe(Upd(st, i, v), i)
            && Paged(st, i, page) == ForgetRelayed(Upd(Upd(st, i, v), i, w.(io := w.io.(closing := true))), w.other)
            && Upd(st, i, v).conns[i] == v && v.other == st.conns[i].other
    ensures Safe(Paged(st, i, page), i)
  {
    var v := Muted(st.conns[i]);
    var w := PushOwn(v, page);
    UpdTwice(st, i, v, w.(io := w.io.(closing := true)));
    var c := Unheard(PushOwn(st.conns[i], page));
    assert w.(io := w.io.(closing := true)) == c.(io := c.io.(attached := true, closing := true));
  }

  lemma UpdTwice(st: State, i: Id, c: Conn, c': Conn)
    ensures Upd(Upd(st, i, c), i, c') == Upd(st, i, c')
  {
  }

  /** Updating one connection again and again. */
  lemma OneAt(st: State, i: Id)
    requires i in st.conns
    ensures Upd(st, i, st.conns[i]) == st
    ensures forall x, y :: Upd(Upd(st, i, x), i, y) == Upd(st, i, y)
    ensures forall x :: i in Upd(st, i, x).conns && Upd(st, i, x).conns[i] == x
  {
    UpdSelf(st, i);
    forall x, y
      ensures Upd(Upd(st, i, x), i, y) == Upd(st, i, y)
    {
      UpdTwice(st, i, x, y);
    }
  }

  /** The same for two connections. */
  lemma TwoAt(st: State, i: Id, x: Conn, j: Id, y: Conn, x': Conn, y': Conn)
    requires i != j && i in st.conns && j in st.conns
    ensures var t := Upd(Upd(st, i, x), j, y);
            && i in t.conns && t.conns[i] == x && j in t.conns && t.conns[j] == y
            && Upd(t, i, x') == Upd(Upd(st, i, x'), j, y)
            && Upd(t, j, y') == Upd(Upd(st, i, x), j, y')
            && (y == st.conns[j] ==> t == Upd(st, i, x))
  {
    UpdAgain(st, i, x, j, y, x');
    UpdSwap(st, i, x', j, y);
    UpdTwice(Upd(st, i, x), j, y, y');
    if y == st.conns[j] { UpdSelf(Upd(st, i, x), j); }
  }

  lemma UpdSelf(st: State, i: Id)
    requires i in st.conns
    ensures Upd(st, i, st.conns[i]) == st
  {
  }

  /** The steps to a greeting. */
  lemma HelloSteps(st: State, j: Id, i: Id, ok: Bytes)
    requires i in st.conns && j in st.conns && i != j
    ensures var v, w := st.conns[j], st.conns[i];
            var st1 := Upd(st, j, Push(v, ok));
            && i in st1.conns && st1.conns[i] == w && j in st1.conns && st1.conns[j] == Push(v, ok)
            && Upd(Upd(st1, i, w.(inQ := [], log := Asking(w).log)), j,
                   Push(v, ok).(outQ := Push(v, ok).outQ + w.inQ, log := Greeted(v, ok, w.inQ).log))
               == Upd(Upd(st, i, Asking(w)), j, Greeted(v, ok, w.inQ))
  {
    var v, w := st.conns[j], st.conns[i];
    var s1, s2, c2 := Push(v, ok), Greeted(v, ok, w.inQ), Asking(w);
    assert s1.(outQ := s1.outQ + w.inQ, log := s2.log) == s2 && w.(inQ := [], log := c2.log) == c2;
    hide Greeted, Asking, Push;
    UpdSwap(st, j, s1, i, c2);
    UpdTwice(Upd(st, i, c2), j, s1, s2);
  }

  /** A client whose queued requests have been taken away. */
  function Asking(c: Conn): Conn {
    c.(inQ := [], log := c.log.(req := []))
  }
}
