/**
 The pairing and relay protocol of core/connection.cpp, as a transition system over the live connections.

 A step is one `recv` result handled to its end, one writable, timer or idle event, or one delivered
 hand-over message; everything the environment decides (short reads and writes, errors, peer socket
 states) is part of the event.  Connections are named by their sockets.
*/
module Relay {
  import opened Chunks
  import opened Ascii

  type Id = int

  datatype Kind = Client | IdleServer | BusyServer

  /** Why a connection is closed. */
  datatype Reason = SelfRead | SelfWrite | OtherWrite | IdleTimeout

  /** The state bits of a connection. */
  datatype Io = Io(
    attached: bool,   // has a place in its worker's bucket and registered events
    reading: bool,    // MASK_BIT_RD
    enableRd: bool,   // MASK_BIT_ENABLE_RD
    wake: bool,       // a read event has been activated by enable_read and not been handled to its end
    connected: bool,  // MASK_BIT_CONNECTED
    armed: bool,      // the response timer is pending
    timeout: bool,    // MASK_BIT_TIMEOUT
    closing: bool,    // MASK_BIT_CLOSE
    inBody: bool)     // is_data_break()

  /** What has happened on a connection; the protocol never looks at it. */
  datatype Log = Log(
    sent: Bytes,      // what the socket has taken
    pushed: Bytes,    // what has ever been put into the out-queue
    req: Bytes,       // a client's request bytes since it last was without server and without queued requests
    delivered: Bytes, // what a server's socket has delivered in the present match
    mark: nat,        // where in `pushed` the present match starts
    ok: Bytes,        // the OK response of the present match
    quiet: bool)      // nothing but deliveries has gone into a client's queue, and both ends are established

  datatype Conn = Conn(
    kind: Kind,
    other: Option<Id>,
    host: int,
    devId: string,
    io: Io,
    inQ: seq<Chunk>,
    outQ: seq<Chunk>,
    log: Log)

  /**
   `mail` holds the hand-over messages in the workers' pipes: who moves where to be matched with whom.
   `spoiled` counts the messages whose connection was closed or registered again before they were handled,
   `stray` the connections deleted with their timer pending.
  */
  datatype State = State(conns: map<Id, Conn>, mail: map<Id, Letter>, spoiled: nat, stray: nat)

  datatype Letter = Letter(dst: Id, worker: int)

  /** What the environment answers while one event is handled. */
  datatype Env = Env(
    script: seq<SendResult>,  // what the socket takes, call by call
    established: bool,        // the peer's socket is in state ESTABLISHED
    timerOk: bool,            // the response timer could be added
    askOk: bool,              // the device was asked for a connection
    notifyOk: bool,           // the message fitted into the other worker's pipe
    eventOk: bool,            // the write event could be added
    ok: Bytes,                // the OK response
    error: Bytes)             // the error page

  /** How a handler's reading ends after it has handed its connection over inside the body. */
  datatype Rest = Settled(data: Bytes) | Dropped | Refused

  /** What one `recv` of a client amounts to. */
  datatype Item =
    | Again
    | Ended
    | Partial
    | Malformed
    | Special(response: Bytes, hasBody: bool)
    | ClientHeader(head: Bytes, dev: string, hasBody: bool)
    | ServerHeader(serverDev: string, dst: Id, hasBody: bool, rest: Rest)
    | Body(data: Bytes, last: bool)

  /** What one `recv` of a server amounts to. */
  datatype Chunked = ServerAgain | ServerEnded | ServerData(data: Bytes)

  datatype Event =
    | Accept(id: Id, worker: int)
    | ClientRead(id: Id, item: Item, env: Env)
    | ServerRead(id: Id, chunk: Chunked, env: Env)
    | Writable(id: Id, env: Env)
    | Timer(id: Id, env: Env)
    | Idle(id: Id)
    | Deliver(id: Id, env: Env)

  /** How a handler's call ended: normally, or by one of the two exceptions. */
  datatype Result = Done(st: State) | IoError(st: State, reason: Reason) | HttpError(st: State)

  const READABLE_MAX_LEN := 65535

  function Lower(c: char): char {
    if 'A' <= c <= 'Z' then c - 'A' + 'a' else c
  }

  /** strcasecmp(a, b) == 0 */
  predicate Same(a: string, b: string) {
    |a| == |b| && forall i :: 0 <= i < |a| ==> Lower(a[i]) == Lower(b[i])
  }

  /** The two forms of one ASCII letter. */
  ghost predicate OneLetter(a: char, b: char) {
    exists k :: 0 <= k < 26 && ((a == CAPITALS[k] && b == SMALLS[k]) || (a == SMALLS[k] && b == CAPITALS[k]))
  }

  /** The same id, up to the case of its letters. */
  ghost predicate SameId(a: string, b: string) {
    |a| == |b| && forall i :: 0 <= i < |a| ==> a[i] == b[i] || OneLetter(a[i], b[i])
  }

  lemma LowerIff(a: char, b: char)
    ensures Lower(a) == Lower(b) <==> a == b || OneLetter(a, b)
  {
    hide CAPITALS, SMALLS, Lower, OneLetter;
    if a != b && Lower(a) == Lower(b) { SameLower(a, b); }
    if OneLetter(a, b) { LetterLower(a, b); }
  }

  lemma SameLower(a: char, b: char)
    requires a != b && Lower(a) == Lower(b)
    ensures OneLetter(a, b)
  {
    hide CAPITALS, SMALLS;
    var k := (if 'A' <= a <= 'Z' then a else b) as int - 'A' as int;
    Alphabet(k);
  }

  lemma LetterLower(a: char, b: char)
    requires OneLetter(a, b)
    ensures Lower(a) == Lower(b)
  {
    hide CAPITALS, SMALLS;
    Alphabet(0);
    var k :| 0 <= k < 26 && ((a == CAPITALS[k] && b == SMALLS[k]) || (a == SMALLS[k] && b == CAPITALS[k]));
    Alphabet(k);
  }

  /** strcasecmp finds two device ids equal if and only if they differ at most in the case of ASCII letters. */
  lemma SameIff(a: string, b: string)
    ensures Same(a, b) <==> SameId(a, b)
  {
    forall i | 0 <= i < |a| && i < |b| ensures Lower(a[i]) == Lower(b[i]) <==> a[i] == b[i] || OneLetter(a[i], b[i]) {
      LowerIff(a[i], b[i]);
    }
    hide Lower, OneLetter;
  }

  // ---------------------------------------------------------------- single connections

  function NewConn(worker: int): Conn {
    Conn(Client, None, worker, "", Io(true, true, true, false, true, false, false, false, false), [], [],
         Log([], [], [], [], 0, [], false))
  }

  function Push(c: Conn, data: Bytes): Conn {
    c.(outQ := c.outQ + [Chunk(data, 0)], log := c.log.(pushed := c.log.pushed + data))
  }

  /** enable_read: reading is allowed again and a read event is activated. */
  function EnableRead(c: Conn): Conn {
    if c.io.enableRd then c else c.(io := c.io.(enableRd := true, wake := true))
  }

  /** A response of the proxy's own goes out; what is relayed counts from here. */
  function PushOwn(c: Conn, data: Bytes): Conn {
    var c' := Push(c, data);
    c'.(log := c'.log.(mark := |c'.log.pushed|, ok := [], quiet := false))
  }

  function Loud(c: Conn): Conn {
    c.(log := c.log.(quiet := false))
  }

  /** The socket of `c` is no longer established. */
  function Disconnected(c: Conn): Conn {
    Loud(c).(io := c.io.(connected := false))
  }

  function Closing(c: Conn): Conn {
    c.(io := c.io.(closing := true))
  }

  function Unlink(c: Conn): Conn {
    c.(other := None, log := c.log.(req := if c.kind == Client then [] else c.log.req))
  }

  // ---------------------------------------------------------------- operations on the state

  function Upd(st: State, i: Id, c: Conn): State {
    st.(conns := st.conns[i := c])
  }

  /** Its destructor will leave the timer pending: detach looks at the flag. */
  predicate Stray(c: Conn) {
    c.io.armed && !c.io.timeout
  }

  /** `delete this` */
  function Del(st: State, i: Id): State {
    st.(conns := st.conns - {i}, stray := st.stray + if i in st.conns && Stray(st.conns[i]) then 1 else 0)
  }

  /** Every pointer an operation on `i` follows is live. */
  predicate Safe(st: State, i: Id) {
    && i in st.conns
    && (st.conns[i].other.Some? ==> st.conns[i].other.value in st.conns && st.conns[i].other.value != i)
  }

  /** The same for operations that also follow the peer's pointers. */
  predicate Paired(st: State, i: Id) {
    Safe(st, i) && (st.conns[i].other.Some? ==> st.conns[st.conns[i].other.value].other == Some(i))
  }

  /** Same connections, same peers. */
  predicate SameLinks(st: State, st': State) {
    && st.conns.Keys == st'.conns.Keys && st.mail == st'.mail
    && forall j :: j in st.conns ==> st'.conns[j].other == st.conns[j].other
  }

  /** The connection after its send loop; a broken socket marks it for closing. */
  function SentOut(c: Conn, d: DrainResult): Conn {
    c.(outQ := d.q, log := c.log.(sent := c.log.sent + d.sent),
      io := c.io.(closing := c.io.closing || d.outcome == Broken))
  }

  /** async_send_impl */
  function SendImpl(st: State, i: Id, script: seq<SendResult>, reason: Reason): (r: Result)
    requires i in st.conns
    ensures !r.HttpError? && SameLinks(st, r.st)
  {
    var c := st.conns[i];
    var d := Drain(c.outQ, script);
    var c1 := SentOut(c, d);
    if d.outcome == Blocked then Done(Upd(st, i, c1))
    else if c1.io.closing then IoError(Upd(st, i, c1), reason)
    else if c1.other == None && c1.kind == BusyServer then Done(Upd(st, i, c1.(kind := IdleServer)))
    else Done(Upd(st, i, c1))
  }

  /** async_send */
  function Send(st: State, i: Id, env: Env, reason: Reason): (r: Result)
    requires Safe(st, i)
    ensures !r.HttpError? && SameLinks(st, r.st)
  {
    var r := SendImpl(st, i, env.script, reason);
    if r.IoError? || st.conns[i].other == None then r
    else
      var o := st.conns[i].other.value;
      var oc := r.st.conns[o];
      if oc.io.connected && !env.established then
        Done(Upd(Upd(r.st, o, EnableRead(Disconnected(oc))), i, Loud(r.st.conns[i])))
      else if Size(r.st.conns[i].outQ) <= LOW_MARK then
        Done(Upd(r.st, o, EnableRead(oc)))
      else r
  }

  /** close(flag) */
  function Close(st: State, i: Id, reason: Reason, env: Env): State
    requires Safe(st, i)
  {
    var c := st.conns[i];
    if c.other == None then
      Del(st, i)
    else
      var o := c.other.value;
      match reason
      case SelfRead =>
        if c.kind == Client && c.io.inBody then
          Del(Del(st, o), i)
        else
          var st1 := Upd(st, o, Closing(Unlink(st.conns[o])));
          var r := Send(st1, o, env, SelfWrite);
          Del(if r.Done? then r.st else Del(r.st, o), i)
      case SelfWrite => Del(Del(st, o), i)
      case OtherWrite => Del(Del(st, o), i)
      case IdleTimeout =>
        if c.kind == Client then st
        else Del(Upd(st, o, Unlink(st.conns[o])), i)
  }

  /** send_error; the error page is `env.error` */
  function SendError(st: State, i: Id, env: Env): State
    requires Safe(st, i)
  {
    if !st.conns[i].io.attached && !env.eventOk then Close(st, i, SelfWrite, env)
    else
      var st1 := Paged(st, i, env.error);
      var r := Send(st1, i, env, SelfWrite);
      if r.Done? then r.st else Close(r.st, i, SelfWrite, env)
  }

  /** An error page is in the queue, nothing more will be read, and the connection will be closed. */
  function Paged(st: State, i: Id, page: Bytes): (r: State)
    requires Safe(st, i)
    ensures SameLinks(st, r)
  {
    var c := PushOwn(st.conns[i], page);
    ForgetRelayed(Upd(st, i, Unheard(c).(io := Unheard(c).io.(attached := true, closing := true))), c.other)
  }

  /** The read event is deleted, pending or activated, if it is there. */
  function Unheard(c: Conn): Conn {
    c.(io := c.io.(reading := false, wake := c.io.wake && !c.io.reading))
  }

  /** What this connection has brought its peer is accounted for anew. */
  function NothingRelayed(c: Conn): Conn {
    c.(log := c.log.(delivered := [], req := []))
  }

  function ForgetRelayed(st: State, other: Option<Id>): (r: State)
    requires other.Some? ==> other.value in st.conns
    ensures SameLinks(st, r)
  {
    if other == None then st else Upd(st, other.value, NothingRelayed(st.conns[other.value]))
  }

  function Disarmed(c: Conn): Conn {
    c.(io := c.io.(armed := false, timeout := false))
  }

  /** A connection after request_new_server: the flag is set only once the device has been asked. */
  function Timed(c: Conn, env: Env): Conn {
    var c' := if c.io.timeout then Disarmed(c) else c;
    if env.timerOk then c'.(io := c'.io.(armed := true, timeout := env.askOk)) else c'
  }

  /** request_new_server: arm the timer and ask the device for a connection. */
  function RequestServer(st: State, i: Id, env: Env): (r: Result)
    requires i in st.conns
    ensures SameLinks(st, r.st)
  {
    var st1 := Upd(st, i, Timed(st.conns[i], env));
    if env.timerOk && env.askOk then Done(st1) else HttpError(st1)
  }

  /** The timer has gone off. */
  function Fired(c: Conn): Conn {
    c.(io := c.io.(armed := false))
  }

  /** match: server `s` takes over client `c`. */
  function Match(st: State, s: Id, c: Id, env: Env): (r: Result)
    requires s in st.conns && c in st.conns && s != c
    requires st.conns[s].other == None && st.conns[c].other == None
    ensures Safe(r.st, s)
  {
    var cc, sc := st.conns[c], st.conns[s];
    if !cc.io.timeout then HttpError(st)
    else
      var st1 := Upd(Upd(st, c, Emptied(cc)), s, Greeted(sc, env.ok, cc.inQ));
      var r := SendImpl(st1, s, env.script, SelfWrite);
      if r.IoError? then r
      else Done(Upd(Upd(r.st, c, Taken(cc, s)), s, r.st.conns[s].(kind := BusyServer, other := Some(c))))
  }

  /** A client whose timer is off and whose queued requests have been taken away. */
  function Emptied(c: Conn): Conn {
    Disarmed(c).(inQ := [], log := c.log.(req := []))
  }

  /** The same client once it has a server. */
  function Taken(c: Conn, s: Id): Conn {
    Disarmed(c).(inQ := [], other := Some(s),
                     log := c.log.(mark := |c.log.pushed|, quiet := Size(c.outQ) < HIGH_MARK))
  }

  /** A server with the OK response and the client's queued requests in its out-queue. */
  function Greeted(c: Conn, ok: Bytes, requests: seq<Chunk>): Conn {
    c.(outQ := c.outQ + [Chunk(ok, 0)] + requests,
       log := c.log.(pushed := c.log.pushed + ok + Pending(requests),
         mark := |c.log.pushed|, ok := ok, delivered := []))
  }

  /** detach; a timer whose flag is off stays pending. */
  function Detached(c: Conn): Conn {
    c.(io := c.io.(attached := false, reading := false, wake := c.io.wake && !c.io.reading,
      armed := Stray(c), timeout := false))
  }

  /** match_client: find the client that is waiting on socket `dst`, here or in another worker. */
  function MatchClient(st: State, s: Id, dst: Id, env: Env): (r: Result)
    requires s in st.conns && st.conns[s].other == None
    ensures Safe(r.st, s)
  {
    if dst !in st.conns || st.conns[dst].kind != Client || dst == s then HttpError(st)
    else if st.conns[dst].host != st.conns[s].host then
      var st1 := Upd(st, s, Detached(st.conns[s]));
      if env.notifyOk then Done(st1.(mail := st1.mail[s := Letter(dst, st.conns[dst].host)])) else HttpError(st1)
    else if st.conns[dst].other.Some? || !Same(st.conns[dst].devId, st.conns[s].devId) then HttpError(st)
    else Match(st, s, dst, env)
  }

  /** A client without server queues its request. */
  function Requested(c: Conn, data: Bytes): Conn {
    c.(inQ := c.inQ + [Chunk(data, 0)], log := c.log.(req := c.log.req + data))
  }

  /** handle_uri for a client's request header. */
  function ClientUri(st: State, i: Id, head: Bytes, dev: string, env: Env): (r: Result)
    requires Paired(st, i)
    ensures Safe(r.st, i)
  {
    if st.conns[i].other.Some? && Same(st.conns[i].devId, dev) then Forward(st, i, head, env)
    else NewRequest(st, i, head, dev, env)
  }

  /** Queue the request, drop a server of another device, and ask for a server. */
  function NewRequest(st: State, i: Id, head: Bytes, dev: string, env: Env): (r: Result)
    requires Safe(st, i)
    ensures Safe(r.st, i)
  {
    var c := st.conns[i];
    var st1 := if c.other.Some? then Del(st, c.other.value) else st;
    var c1 := Requested(if c.other.Some? then Unlink(c) else c, head);
    RequestServer(Upd(st1, i, c1.(devId := dev)), i, env)
  }

  /** Queue a client's bytes for its server and send. */
  function Forward(st: State, i: Id, data: Bytes, env: Env): (r: Result)
    requires Paired(st, i) && st.conns[i].other.Some?
    ensures SameLinks(st, r.st)
  {
    Send(Queued(st, i, data), st.conns[i].other.value, env, OtherWrite)
  }

  function Asked(c: Conn, data: Bytes): Conn {
    c.(log := c.log.(req := c.log.req + data))
  }

  function Queued(st: State, i: Id, data: Bytes): State
    requires Paired(st, i) && st.conns[i].other.Some?
  {
    var o := st.conns[i].other.value;
    Upd(Upd(st, o, Push(st.conns[o], data)), i, Asked(st.conns[i], data))
  }

  /** handle_uri for the header of a device's connection. */
  function ServerUri(st: State, i: Id, dev: string, dst: Id, env: Env): (r: Result)
    requires Safe(st, i)
    ensures Safe(r.st, i)
  {
    if st.conns[i].other.Some? then HttpError(st)
    else MatchClient(Upd(st, i, st.conns[i].(kind := IdleServer, devId := dev)), i, dst, env)
  }

  /** disable_read */
  function Stopped(c: Conn): Conn {
    c.(io := c.io.(enableRd := false))
  }

  /** The loop of a server's handler ends with its reading stopped. */
  function Halted(c: Conn): Conn {
    Stopped(c).(io := Stopped(c).io.(wake := false))
  }

  /** After a piece of input: stop reading while the peer's queue is above the high mark. */
  function Throttle(st: State, i: Id): State
  {
    if i in st.conns && st.conns[i].other.Some? && st.conns[i].other.value in st.conns
       && Size(st.conns[st.conns[i].other.value].outQ) >= HIGH_MARK
    then Upd(st, i, Stopped(st.conns[i]))
    else st
  }

  /** The catch clauses around a handler. */
  function Catch(r: Result, i: Id, env: Env): State
    requires Safe(r.st, i)
  {
    match r
    case Done(st) => st
    case IoError(st, reason) => Close(st, i, reason, env)
    case HttpError(st) => SendError(st, i, env)
  }

  // ---------------------------------------------------------------- handlers

  /** The activated read event is being handled. */
  function Awake(c: Conn): Conn {
    c.(io := c.io.(wake := false))
  }

  /** handle_read of a client. */
  function ClientReads(st: State, i: Id, item: Item, env: Env): State
    requires Paired(st, i)
  {
    Handles(Upd(st, i, Awake(st.conns[i])), i, item, env)
  }

  /** What a client's input does once its read event has been taken. */
  function Handles(st: State, i: Id, item: Item, env: Env): State
    requires Paired(st, i)
  {
    match item
    case Again => st
    case Ended => Close(st, i, SelfRead, env)
    case Partial => Throttle(st, i)
    case Malformed => SendError(st, i, env)
    case Special(response, hasBody) => Finish(OwnResponse(st, i, response, env), i, hasBody, env)
    case ClientHeader(head, dev, hasBody) => Finish(ClientUri(st, i, head, dev, env), i, hasBody, env)
    case ServerHeader(dev, dst, hasBody, rest) =>
      ReadsOn(Finish(ServerUri(st, i, dev, dst, env), i, hasBody, env), i, rest, env)
    case Body(data, last) => Finish(OnBody(st, i, data, env), i, !last, env)
  }

  /** Inside a body read_request goes on reading although the connection has just been handed over. */
  function ReadsOn(st: State, i: Id, rest: Rest, env: Env): State {
    if i in st.mail && i in st.conns && st.conns[i].other == None && st.conns[i].io.inBody then
      match rest
      case Settled(data) => if data == [] then st else Upd(st, i, Requested(st.conns[i], data))
      case Dropped => Close(Spoiled(st, i), i, SelfRead, env)
      case Refused => SendError(Spoiled(st, i), i, env)
    else st
  }

  /** The message about `i` is worthless from here on. */
  function Spoiled(st: State, i: Id): State {
    st.(mail := st.mail - {i}, spoiled := st.spoiled + 1)
  }

  /** handle_special_request: answer out of the proxy itself. */
  function OwnResponse(st: State, i: Id, response: Bytes, env: Env): (r: Result)
    requires Safe(st, i)
    ensures Safe(r.st, i)
  {
    Send(Answered(st, i, response), i, env, SelfWrite)
  }

  /** The proxy's own answer is in the queue. */
  function Answered(st: State, i: Id, response: Bytes): (r: State)
    requires Safe(st, i)
    ensures SameLinks(st, r)
  {
    var c := PushOwn(st.conns[i], response);
    ForgetRelayed(Upd(st, i, c.(io := c.io.(closing := false))), c.other)
  }

  /** onBody */
  function OnBody(st: State, i: Id, data: Bytes, env: Env): (r: Result)
    requires Paired(st, i)
    ensures Safe(r.st, i)
  {
    if st.conns[i].other.Some? then Forward(st, i, data, env)
    else Done(Upd(st, i, Requested(st.conns[i], data)))
  }

  /** Go on after a complete piece of input, or run the catch clauses. */
  function Finish(r: Result, i: Id, inBody: bool, env: Env): State
    requires Safe(r.st, i)
  {
    if r.Done? then Throttle(Upd(r.st, i, AtBody(r.st.conns[i], inBody)), i) else Catch(r, i, env)
  }

  function AtBody(c: Conn, inBody: bool): Conn {
    c.(io := c.io.(inBody := inBody))
  }

  /** handle_read of a server: read_message_no_parse, one recv at a time. */
  function ServerReads(st: State, i: Id, chunk: Chunked, env: Env): State
    requires Paired(st, i)
  {
    var st0 := Upd(st, i, Awake(st.conns[i]));
    if st.conns[i].other == None then Del(st0, i)
    else
      match chunk
      case ServerEnded => Close(st0, i, SelfRead, env)
      case ServerAgain =>
        var o := st.conns[i].other.value;
        if st.conns[o].outQ == [] then st0 else Catch(Send(st0, o, env, OtherWrite), i, env)
      case ServerData(data) => Relays(st, i, data, env)
  }

  /**
   A server's data goes to its client.  At the high mark the handler's loop ends: reading stops and the client's
   queue is sent.
  */
  function Relays(st: State, i: Id, data: Bytes, env: Env): State
    requires Paired(st, i) && st.conns[i].other.Some?
  {
    var o := st.conns[i].other.value;
    var st1 := Upd(Upd(st, i, Delivered(st.conns[i], data)), o, Push(st.conns[o], data));
    if Size(st1.conns[o].outQ) >= HIGH_MARK then
      Catch(Send(Upd(st1, i, Halted(st1.conns[i])), o, env, OtherWrite), i, env)
    else st1
  }

  function Delivered(c: Conn, data: Bytes): Conn {
    c.(log := c.log.(delivered := c.log.delivered + data))
  }

  /** A worker takes a handed-over connection out of its pipe: attach, then match. */
  function Delivers(st: State, i: Id, env: Env): State
    requires i in st.conns && i in st.mail && st.conns[i].other == None
  {
    var letter := st.mail[i];
    var st0 := st.(conns := st.conns[i := Attached(st.conns[i], letter.worker)], mail := st.mail - {i});
    Catch(MatchHere(st0, i, letter.dst, env), i, env)
  }

  /** attach */
  function Attached(c: Conn, worker: int): Conn {
    c.(host := worker, io := c.io.(attached := true, reading := true, enableRd := true))
  }

  /** match, by socket, in the client's own worker. */
  function MatchHere(st: State, s: Id, dst: Id, env: Env): (r: Result)
    requires s in st.conns && st.conns[s].other == None
    ensures Safe(r.st, s)
  {
    if dst !in st.conns || st.conns[dst].kind != Client || dst == s then HttpError(st)
    else if st.conns[dst].host != st.conns[s].host then HttpError(st)
    else if st.conns[dst].other.Some? || !Same(st.conns[dst].devId, st.conns[s].devId) then HttpError(st)
    else Match(st, s, dst, env)
  }
}
