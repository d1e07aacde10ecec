# A verified model of the proxy's core

The repository is an HTTP reverse proxy: clients ask for a device, the device opens a connection of its own, and
the proxy relays bytes between the two.  This project models the parts of it that carry state or delicate
arithmetic and proves what they keep, for every input, every run and every way the environment cuts reads and
writes.

| part | files | main results |
|---|---|---|
| memory pool | Layouts, BasicPool, SmartPool | disjointness of all blocks, exact conservation of bytes through the re-entrant bookkeeping, termination with at most two heaps a request, how many nodes every refill gets and what it leaves of the region, which node is recycled and when exactly the size remembered for an address becomes wrong |
| pairing and relay | Ascii, Chunks, BufferQueue, Relay, RelayInvariant, RelaySteps, RelayEffects, RelayElsewhere, RelayTheorems, RelayQueues, RelayOutcomes, RelayWitnesses, Connections | an invariant kept by every event: mutual peers, exact relaying, no lost wake-up; what each event does to the connections it concerns, and that it touches no other; over whole runs: bounded queues in both directions, and the exact conditions of a safe hand-over, of the timer's assertions and of the last byte after an error page; connection objects with pointers and linked queues refine all of it |
| idle timer | CircleBuffer, TimingWheel, Worker | the ring of buckets is a table of timestamps; the sweep is safe and does not depend on the order of the walk |
| worker pipe | PipeDecoder | the messages handled are the messages written, for every fragmentation |
| HTTP streams | HeadReader, HeaderCodec, BodyFraming, BodyReader, SizeLines, Responses | heads, fields and bodies end where they should, and exactly the malformed ones are refused; printing and parsing are inverse; what every chunk size line says, padded or extended or not; when a response of the proxy's own has the size reserved for it |
| percent-encoding | UriCodec, UriText | what any text encodes and decodes to, character by character; the decoder that works in place refines the plain one; round trips |
| log pipeline | ScatterWrite, LogFrames | short writes and short reads lose, repeat and reorder nothing; exactly which failed write spoils what follows |

Bytes are characters.  What the environment decides (how many bytes a `recv`, `send`, `read` or `writev` moves,
whether it fails, whether `malloc` fails, the state of a peer's socket, the iteration order of a hash set) is a
parameter, and the theorems hold for all its values.  Code that updates fields in loops is modelled by classes and
methods with loops; each such method is proved equal to a function on values, and the theorems are about those
functions.  `Connections.Connection` is an object with a pointer to its peer and two linked queues;
`Connections.Proxy` holds the methods of core/connection.cpp on such objects, and the transition system of `Relay`, in
which connections are named by their sockets, specifies them.  Properties of runs are stated with `Always` (in every
state) and `Never` (by no step): a property that fails of the code is given the steps that break it, exactly, and a
run that takes one.

What the code does that one might not expect:

- When the class of `heap_node` itself is refilled through `malloc`, the inner refill fills the list and the outer
  one overwrites it.  The conservation law counts these bytes (`BasicPool.Conservation`).
- A client that waits for a server and then sends a device's request becomes a server with its response timer still
  pending.  The assertion at core/connection.cpp:674 holds all along a run exactly if no step matches such a client
  with another waiting one (`RelayTheorems.TimerPeerlessIff`, `RelayWitnesses.TimerPeerCanFail`).  A release build
  (Makefile.in:20) goes on where the assertion would stop: the server gets an error page, and the model has that too.
- When the timer of a request could be added but the device could not be asked, the timer stays pending with its flag
  off.  The assertion at core/connection.cpp:675 holds all along a run, and no connection is deleted with its timer
  pending, exactly if that never happens (`RelayTheorems.TimerFlaggedIff`, `RelayWitnesses.TimerFlagCanFail`).
- A device's header with a body is handed over to another worker while the old one goes on reading.  If the stream ends
  or a chunk is malformed in that handler run, the message on its way is about a connection that has been closed, or
  registered again.  That happens exactly then (`RelayTheorems.HandOverIsSafeIff`, `RelayWitnesses.HandOverCanFail`).
- A matched client that gets an error page stays linked; what its server delivers goes behind the page.  The page is the
  last thing exactly if nothing of the kind happens (`RelayQueues.PageIsLastIff`, `RelayWitnesses.PageCanBeFollowed`).
- `send_error` deletes the read event, but `enable_read` (core/connection.cpp:491-497) activates it all the same: a server
  that was throttled when its timer went off is read once more behind its error page, after the send that drains its
  client's queue or finds its socket gone, and after no other (`RelayQueues.ReadAgainIff`).
- When malloc fails, a node of a larger class is carved up and its address changes its class, which `SmartPool` does not
  notice: the size it remembers for the address stays that of the larger class (`SmartPool.SmartPool.Malloc` says exactly
  when, `SmartPool.StaleSize` is a run).  When there is no such node, refill writes through the NULL chunk, although
  mem/basic_pool.cpp:26 promises an exception.
- The version of a request is kept in two chars (core/http.h:129-130), and `send_response` counts their digits as those
  of a size_t.  For `GET / HTTP/200.1` the major number is -56: 20 digits are reserved, three characters printed, and 17
  bytes that nobody has written go out.  The size is right exactly if neither number is negative, and never too small
  (`Responses.SendResponse`, `Responses.VersionCanWrap`).
- A matched client whose bucket is swept while its server is active drops out of the timing wheel, and an update puts
  it back only in a tick of another bucket; if it loses its server and stays silent it is never closed for idleness
  (`TimingWheel.SweptIsReached`, `TimingWheel.SweptNeverCloses`, `TimingWheel.UpdateRevives`).
- `decode_plus == -1` is documented in core/http.h:116-117 as decoding a plus only behind a `?`; the code decodes every
  plus, so `+?` comes out different.  The two agree exactly if no plus stands before the first `?`
  (`UriCodec.DocumentedIff`, `UriCodec.DocumentedFails`).
- A chunk size of 2^64 - 2 or 2^64 - 1 wraps around when the CRLF is added, and one byte is taken as the chunk
  (`BodyFraming.SizeThatWraps`, `BodyFraming.WrappedIsChunked`).
- Behind the digits of a chunk size anything may stand, and white space, a sign or `0x` before them: the number parser is
  called without its check (core/http.cpp:1152).  `-1` is read as 2^64 - 1 (`SizeLines.NumberRead`).
- A header value with a tab is refused, because the test at core/http.cpp:599 is true of every control character
  (`HeaderCodec.ValueSurvives`).
- `push` adds only the first buffer's length to the byte count although it links a whole chain
  (`BufferQueue.BufferQueue.Push`).
- The decoder that works in place computes a wrapped length exactly if an escape straddles the end and none is
  complete before it (`UriCodec.DecodeInPlace`).  The caller at core/connection.cpp:456-457 copies a device id without a
  terminator, so an id `%` with two digits in the memory behind it is such a case (`UriCodec.LonePercentStraddles`).
- A log record whose write failed halfway takes the bytes it lacks from the records after it
  (`LogFrames.TornFrame`); ipc/fifo_tls.cpp keeps the fifo unless its reader is gone.  A write that failed without
  putting a byte does no harm, and the first one that put a part puts the reader out of step (`LogFrames.SpoilsIff`).

## Model

| member | source | states |
|---|---|---|
| BasicPool.RoundUp | mem/basic_pool.h:30-32 | the least multiple of 16 that is at least the size |
| BasicPool.ChunkIndex | mem/basic_pool.h:34-37 | the class whose node size is the first to hold the request; below 1024 |
| BasicPool.RoundUpIsClassSize | mem/basic_pool.h:30-37 | rounding and indexing agree: the rounded size is that of the class and has the same class |
| BasicPool.BasicPool.Malloc | mem/basic_pool.cpp:175 | any region clear of all others, or NULL where it may fail |
| BasicPool.BasicPool.Pop | mem/basic_pool.cpp:43-44 | the head of a list is handed out or recycled; the other lists and all blocks keep their shape |
| BasicPool.BasicPool.Push | mem/basic_pool.cpp:61-64 | a block of the list's size becomes its first node |
| BasicPool.BasicPool.TakeFront | mem/basic_pool.cpp:155-165 | cutting off the front of the carve region leaves one raw block and a shorter carve region |
| BasicPool.BasicPool.Thread | mem/basic_pool.cpp:131-140 | the loop links exactly the pieces of the chunk but the first, in address order |
| BasicPool.BasicPool.Refill | mem/basic_pool.cpp:120-142 | one node of the class is handed out, nothing taken is touched, at most `Rank` heaps are needed, and a list is overwritten exactly when heap_node's class got a new heap; NULL only if malloc failed and nothing could be recycled.  A carve region with room for one node serves it: nothing is recycled, no heap is taken, and as many nodes as fit, at most 16, come from its front.  Without a new heap a node is recycled exactly if that region is shorter than one node and a larger list has a node, and it is the head of the nearest such list.  The list gets one node less than are cut off, and as many are cut off as fit into the region they come from, at most 16: what is left of the carve region, the recycled node, or the new heap of 32 nodes less the 512 bytes its heap_node may cost.  What is left of that region is the carve region afterwards |
| BasicPool.BasicPool.AdoptChunk | mem/basic_pool.cpp:131-141 | accounting of a refill: 15 nodes are lost if the list was filled meanwhile |
| BasicPool.BasicPool.ChunkAlloc | mem/basic_pool.cpp:144-193 | 1 to 16 nodes of raw memory; NULL only if malloc failed and no larger list had a node; exactly how many, and what is left of the region they are cut off |
| BasicPool.BasicPool.Replenish | mem/basic_pool.cpp:166-192 | one more call suffices afterwards; the number of heaps still needed goes down |
| BasicPool.BasicPool.PushLeftover | mem/basic_pool.cpp:168-173 | the rest of the carve region goes to the list of its exact size |
| BasicPool.BasicPool.TakeLarger | mem/basic_pool.cpp:176-187 | finds a node exactly if some larger list has one, and it is the head of the nearest; it becomes the carve region and counts as recycled |
| BasicPool.BasicPool.Fetch | mem/basic_pool.cpp:174-191 | the carve region becomes one new heap or, if malloc gives none, the head of the nearest larger list; if there is none either, lists and blocks are left alone |
| BasicPool.BasicPool.Recycle | mem/basic_pool.cpp:179-184 | the head of a larger list becomes the carve region, and its block is no list node any more |
| BasicPool.BasicPool.TakeHeap | mem/basic_pool.cpp:189-190 | the new heap is the carve region and is recorded; its heap_node comes from the list or costs 512 bytes of the heap |
| BasicPool.BasicPool.AddHeap | mem/basic_pool.cpp:106-118 | the heap is recorded in memory of the same pool |
| BasicPool.BasicPool.Allocate | mem/basic_pool.cpp:27-50 | a live block of the rounded size that was not taken before, or memory from malloc above 16K; at most two heaps; the head of its list if there is one; NULL for a small request only if malloc may fail, its list is empty and neither the carve region nor a larger list could serve it; what is carved, which node is recycled, how many nodes the list gets and what is left is as for Refill, for an empty list |
| BasicPool.BasicPool.Deallocate | mem/basic_pool.cpp:53-68 | exactly this block becomes the first node of its class's list |
| BasicPool.BasicPool.CollectHeaps | mem/basic_pool.cpp:76-86 | the heap list records all heaps, in order |
| BasicPool.BasicPool.Release | mem/basic_pool.cpp:74-92 | every heap is freed exactly once, or none if there is no memory for the copy |
| BasicPool.Conservation | mem/basic_pool.cpp:106-193 | bytes of all heaps = live + heap_nodes + listed + carve region + 15 nodes for each overwritten list, in every reachable state |
| BasicPool.BlocksApart | mem/basic_pool.cpp:27-193 | two blocks in use, live or holding a heap_node, are disjoint |
| BasicPool.BlockInHeap | mem/basic_pool.cpp:189-190 | a block lies inside one heap and in no other, its length a multiple of 16 |
| BasicPool.NodeApart | mem/basic_pool.cpp:36-44 | a list node is disjoint from every block in use and lies inside one heap |
| BasicPool.NodesApart | mem/basic_pool.cpp:131-140 | two list nodes are disjoint; list k holds nodes of 16(k+1) bytes |
| BasicPool.CarveApart | mem/basic_pool.cpp:144-193 | the carve region is empty, or a multiple of 16 bytes inside one heap, apart from all blocks in use and all list nodes |
| BasicPool.FreeBytesAreListBytes | mem/basic_pool.cpp:36-44 | the bytes of free blocks are those reachable through the lists |
| BasicPool.RefillStep | mem/basic_pool.cpp:120-142 | the effect of one refill on all blocks and lists |
| BasicPool.RefillKeepsLists | mem/basic_pool.cpp:131-140 | refilling one list leaves all others intact |
| BasicPool.LoseKeepsLists | mem/basic_pool.cpp:133 | overwriting a list loses its nodes and no other |
| SmartPool.SmartPool.Malloc | mem/smart_pool.cpp:5-15 | the size remembered for an address is right as long as no node was recycled and no request was above 16K.  In the first request to which malloc gives no new heap after such a time, it is right if and only if the list of the class has a node, or the carve region has room for one, or the address was never given out; which address it is, is said as for Refill |
| SmartPool.SmartPool.Insert | mem/smart_pool.cpp:9 | an address that is in the map keeps the size it has there |
| SmartPool.SmartPool.TakeBack | mem/smart_pool.cpp:8-13 | an insertion that fails, for an address in the map or not, gives the memory back to where it came from |
| SmartPool.SmartPool.FreePtr | mem/smart_pool.cpp:17-30 | the block goes back to the list of its own class although the remembered size may be stale, or to the C library |
| SmartPool.Remembered | mem/smart_pool.cpp:9 | what a request means for the size remembered for the address it returns |
| SmartPool.StaleSize | mem/smart_pool.cpp:5-30 | a run: 32 bytes are given out and taken back, then malloc has nothing left; the next 16 bytes are at the same address, for which 32 is remembered |
| SmartPool.SameClass | mem/smart_pool.cpp:9 | an entry that insert does not overwrite has the class of the new request |
| Chunks.AdvancePending | core/connection.cpp:507-513 | the bytes sent and the bytes left are the bytes there were |
| Chunks.DrainConserves | core/connection.cpp:499-522 | for all short writes, stalls and errors: sent + queued = queued before; drained exactly if empty |
| Chunks.DrainSteps | core/connection.cpp:499-522 | the loop is a run of single sends, each of the first buffer that is left; it stops drained exactly if the queue is empty, blocked exactly if the socket has no room, broken exactly if a send fails |
| Chunks.DrainOpen | core/connection.cpp:507-513 | a buffer that is used up never stays in the queue |
| BufferQueue.BufferQueue.Link | core/buffer.h:73-83 | the list stays well formed and the tail is the chain's last buffer |
| BufferQueue.BufferQueue.ChainEnd | core/buffer.h:79-83 | the loop ends at the last buffer of the chain |
| BufferQueue.BufferQueue.Push | core/buffer.h:68-86 | a chain is appended; the byte count stays exact if and only if nothing unsent follows its first buffer |
| BufferQueue.BufferQueue.Pop | core/buffer.h:97-111 | the first buffer is unlinked, the count reduced on request |
| BufferQueue.BufferQueue.PushQueue | core/buffer.h:88-95 | all buffers move over in order; the count stays exact if and only if none of them was partly sent |
| BufferQueue.LensIsSize | core/buffer.h:85 | summing the buffers' lengths counts the unsent bytes if and only if none has been sent |
| BufferQueue.BufferQueue.MoveOne | core/buffer.h:91-94 | one turn of that loop |
| BufferQueue.BufferQueue.Clear | core/buffer.h:113-124 | the walk reaches each buffer of the queue once, in order, and the queue is empty |
| BufferQueue.BufferQueue.IsLow | core/buffer.h:150-154 | true exactly if at most 16K bytes are unsent |
| BufferQueue.BufferQueue.IsHigh | core/buffer.h:156-160 | true exactly if at least 64K bytes are unsent |
| BufferQueue.BufferQueue.SendOne | core/connection.cpp:507-513 | the list after one send is the value-level advance, count exact |
| BufferQueue.BufferQueue.SendLoop | core/connection.cpp:499-522 | the loop on the linked list is the drain on values |
| BufferQueue.PushCount | core/buffer.h:79-85 | when the count is exact after pushing a chain |
| RelayInvariant.ImplKeeps | core/connection.cpp:499-528 | the send loop changes one connection: its queue gets shorter by what was sent, its closing flag only goes on |
| RelayInvariant.SendDone | core/connection.cpp:530-547 | sending changes the two ends only: less to send here, and the peer reads again exactly as the queue and its socket say |
| RelayInvariant.Local | core/connection.cpp:554-614 | only the connections a step touches, and their peers, need checking |
| RelayInvariant.SentPairOk | core/connection.cpp:530-547 | a send keeps both ends' invariant, including flow control |
| RelayInvariant.SendKeeps | core/connection.cpp:499-547 | async_send keeps the invariant or throws having only sent |
| RelayInvariant.CloseKeeps | core/connection.cpp:554-614 | every way of closing leaves no dangling pointer |
| RelayInvariant.CloseReadKeeps | core/connection.cpp:573-587 | the peer left behind is unlinked and flushed, or closed too |
| RelayInvariant.SendErrorKeeps | core/connection.cpp:237-255 | error pages keep the invariant |
| RelayInvariant.ThrottleKeeps | core/http.cpp:925-931 | reading stops only while the peer has much to send; that it does stop then is `RelayElsewhere.ClientStopsIff` |
| RelayInvariant.ForwardKeeps | core/connection.cpp:460-462 | forwarded bytes move from the client's account to the server's queue |
| RelayInvariant.NewRequestKeeps | core/connection.cpp:463-470 | a request for another device drops the old server and queues from scratch |
| RelayInvariant.NewRequestFails | core/connection.cpp:428-430 | a request that cannot be made ends in an error page, with the timer pending or not |
| RelayInvariant.ClientUriKeeps | core/connection.cpp:455-470 | a client's header keeps the invariant on every branch |
| RelayInvariant.MatchedPair | core/connection.cpp:376-397 | both ends satisfy the pair invariant right after a match |
| RelayInvariant.MatchKeeps | core/connection.cpp:364-398 | matching keeps the invariant, also when it throws |
| RelayInvariant.MatchClientKeeps | core/connection.cpp:257-294 | so does looking the client up, here or in another worker |
| RelayInvariant.ServerUriKeeps | core/connection.cpp:471-488 | so does a device's header |
| RelayInvariant.ReadsOnKeeps | core/http.cpp:915-935 | and reading on after a hand-over, wherever it ends |
| RelayInvariant.OnBodyKeeps | core/http.cpp:1275-1285 | and a piece of a body |
| RelayInvariant.OwnResponseKeeps | core/http.cpp:1225-1249 | and a response of the proxy's own |
| RelayInvariant.TimerKeeps | core/connection.cpp:669-678 | and a timer, also at a matched server |
| RelayInvariant.DeliversKeeps | core/worker.cpp:269-278 | and matching after a hand-over |
| RelayInvariant.DeliveredPair | core/http.cpp:972-982 | delivered bytes move from the server's account to the client's queue, which stays bounded |
| RelayInvariant.RelaysKeeps | core/http.cpp:972-982 | the server's reading step keeps the invariant |
| RelayInvariant.ServerReadsKeeps | core/http.cpp:954-997 | all outcomes of a server's recv keep the invariant; what they do is said in `RelayEffects` |
| RelayInvariant.ClientReadsKeeps | core/http.cpp:915-947 | all outcomes of a client's recv |
| RelayInvariant.StepKeeps | core/connection.cpp:616-678 | every event keeps the invariant; among them the one read that `enable_read` still activates after the read event was deleted |
| RelaySteps.SendCarried | core/connection.cpp:530-547 | sending puts nothing into a queue and touches no timer |
| RelaySteps.CloseCarried | core/connection.cpp:554-614 | nor does closing; the count of stray timers grows exactly if a connection with one is deleted |
| RelaySteps.MatchDoneIff | core/connection.cpp:364-398 | a match succeeds exactly if the client waits and the greeting goes out or is held up by a socket that works |
| RelaySteps.StepCarried | core/connection.cpp:616-678 | for every event: what is put into queues, which timers are set and who is linked is decided by its guards; after that the step only sends, unlinks and deletes |
| Relay.SameIff | core/connection.cpp:273-279 | strcasecmp finds two ids equal if and only if they have the same length and at each place the same character or the two forms of one ASCII letter |
| RelayEffects.WritableSends | core/connection.cpp:530-547 | a writable socket: both ends go if a send fails or the last one closes; otherwise what was sent has left the queue, and the peer reads again if the queue is low or its own socket gone |
| RelayEffects.TimerPages | core/connection.cpp:669-678 | a timer: its connection gets an error page, and no timer is pending |
| RelayEffects.ErrorOut | core/connection.cpp:237-255 | an error page goes behind what is queued, reading ends, and the connection is closed once it is sent |
| RelayEffects.EndOut | core/connection.cpp:573-587 | the end of a stream: the connection goes; its peer too if a body breaks off or its last write fails, else it sends what it has and is to be closed |
| RelayEffects.IdleEnds | core/connection.cpp:603-610 | idleness: a matched client stays, any other goes, and the client of a server loses it |
| RelayEffects.LonelyServerGoes | core/connection.cpp:622-627 | a server without client that can be read is closed |
| RelayEffects.ServerEnds | core/http.cpp:988-994 | the end of a server's stream is that of any stream |
| RelayEffects.NoMoreFlushes | core/http.cpp:985-987 | recv has no more: both ends are gone, or the client has been sent what its socket took, and its queue is empty unless the socket is full |
| RelayEffects.ServerDelivers | core/http.cpp:974-984 | what a server delivers goes behind its client's queue; at the high mark, and only there, the server stops reading and the client sends |
| RelayEffects.ClientEnds | core/http.cpp:941-944 | the end of a client's stream is that of any stream |
| RelayEffects.ClientPart | core/http.cpp:925-929 | a part of a head or of a body changes nothing but whether the client reads on |
| RelayEffects.ClientPasses | core/connection.cpp:460-462 | a piece of a body or a request for the same device goes behind the server's queue, as much is sent as its socket takes, and the client reads on only below the high mark |
| RelayEffects.ClientKeeps | core/http.cpp:1275-1285 | without server a piece of a body is kept behind the requests that wait |
| RelayEffects.ClientAnswered | core/http.cpp:1225-1249 | a response of the proxy's own goes out behind what is queued and calls off a pending close |
| RelayEffects.ClientAsks | core/connection.cpp:463-470 | a request for another device: the old server goes, the request is queued, and the client waits with a timer of its own or gets an error page |
| RelayEffects.ClientErrs | core/http.cpp:1287-1290 | a malformed message is answered by an error page |
| RelayEffects.HeaderErrs | core/connection.cpp:476-477 | a device's header from a matched client is answered by an error page |
| RelayEffects.HeaderIntroduces | core/connection.cpp:257-294 | a device's header in the client's worker: greeting and waiting requests are sent and the two are linked, or there is an error page; nothing else |
| RelayEffects.HeaderHandsOver | core/connection.cpp:262-270 | for a client of another worker the connection leaves its own, with a message about it unless the handler spoils it or the pipe fails |
| RelayEffects.DeliveredIntroduces | core/worker.cpp:269-278 | the message is taken: the connection is registered and introduced as in its own worker |
| RelayElsewhere.Elsewhere | core/connection.cpp:616-678 | no event touches a connection other than its own, its peer, and the client without server that a device's header names; none appears |
| RelayElsewhere.Accepted | core/connection.cpp:190-214 | a new connection is a client that reads, with nothing queued and no timer |
| RelayElsewhere.ClientStopsIff | core/http.cpp:925-929 | a client that survives its own input without an exception reads on if and only if its server's queue is below the high mark |
| RelayElsewhere.MatchedIff | core/connection.cpp:257-294 | a device's header is matched with the client it names if and only if that client waits in the same worker for the same id, in whatever case, and the greeting neither breaks nor meets a closing flag |
| RelayTheorems.After | core/connection.cpp:616-678 | every state reached by any run of events satisfies the invariant |
| RelayTheorems.PeersAgree | core/connection.cpp:257-294 | in every reachable state peers are live, mutual, in one worker, one CLIENT and one BUSY_SERVER, and their device ids have the same length and at each place the same character or the two forms of one ASCII letter |
| RelayTheorems.RelayIsExact | core/connection.cpp:381-383 | bytes sent to the server and queued for it are the OK response and the client's request bytes in order; the client is sent exactly what the server delivered; both counted from the match or the last response of the proxy's own |
| RelayTheorems.NoLostWakeUp | core/connection.cpp:530-547 | a matched connection that is not reading has a peer above the low mark |
| RelayTheorems.DrainingWakes | core/connection.cpp:491-497 | the send that drains to the low mark re-enables and activates reading; otherwise only a lost peer socket does |
| RelayTheorems.HandedOverAlive | core/connection.cpp:266-270 | a connection in a worker's pipe is alive, idle, unmatched, without timer and nowhere attached |
| RelayTheorems.HandOverIsSafeIff | core/http.cpp:915-935 | no message outlives its connection, all along a run, if and only if no handler that handed its connection over inside a body read on to the end of the stream or a malformed chunk |
| RelayTheorems.TimedMatchFails | core/connection.cpp:364-377 | after a timed match the new server's timer is pending |
| RelayTheorems.TimerPeerlessIff | core/connection.cpp:674 | a pending timer's connection has no peer, all along a run, if and only if no step is a timed match: a waiting client becomes the server of another waiting one of its worker and device, and its greeting neither breaks nor meets a closing flag |
| RelayTheorems.AskFailsStray | core/connection.cpp:428-430 | after a failed request a timer is pending without its flag, or has outlived its connection |
| RelayTheorems.TimerFlaggedIff | core/connection.cpp:675 | a pending timer's flag is set and no deleted connection has left its timer behind, all along a run, if and only if the device could be asked whenever the timer had been added |
| RelayQueues.QuietAtMatch | core/connection.cpp:376-397 | only a match gives a client a server, and its account is opened exactly if its queue is below the high mark |
| RelayQueues.QuietLasts | core/http.cpp:954-988 | the account lasts while `c` stays with its server and no event at the two ends finds a socket gone or puts a response of the proxy's own between |
| RelayQueues.QueueBounded | core/http.cpp:954-988 | a client whose queue is below the high mark at its match never has more than 131070 bytes queued, in any run on which it stays with its server undisturbed |
| RelayQueues.HeldLasts | core/http.cpp:925-929 | while a client reads, its server's queue is within the limit, and at most one piece of input beyond it, after every event that leaves the pair's sockets established |
| RelayQueues.ServerQueueBounded | core/http.cpp:925-929 | from any reachable state with a matched pair, in any run on which it stays so undisturbed: the server's queue never has more than it had, or the high mark, and one piece of its client's input |
| RelayQueues.StepBehind | core/connection.cpp:237-255 | what a step puts behind the page of a finished connection |
| RelayQueues.ReadAgainIff | core/connection.cpp:491-497 | a server that was throttled when it got its error page is read once more after the send of its client that leaves the queue at most at the low mark, or finds the socket gone, and after no other send |
| RelayQueues.PageIsLastIff | core/connection.cpp:237-255 | what a connection that survives an error is sent after the page is what its peer brings and its timer's pages; the page is the last thing if and only if no event brings any |
| RelayWitnesses.HandOverCanFail | core/http.cpp:930 | a run of three events after which a message is about a closed connection |
| RelayWitnesses.TimerPeerCanFail | core/connection.cpp:674 | a run of five events after which a matched server's timer is pending |
| RelayWitnesses.TimerFlagCanFail | core/connection.cpp:675 | a run of two events after which a timer is pending without its flag |
| RelayWitnesses.PageCanBeFollowed | core/connection.cpp:237-255 | a run of six events after which a server's bytes stand behind its client's error page |
| RelayOutcomes.ReadEnds | core/connection.cpp:554-587 | a connection whose reading ends is deleted; its peer goes too inside a client's body, otherwise it stays exactly while it has unsent bytes its socket does not take, and loses none of them |
| RelayOutcomes.ClosesOnceSent | core/connection.cpp:524-525 | a connection marked for closing is deleted by the write that empties its queue or fails, and by no other |
| RelayOutcomes.WriteFails | core/connection.cpp:499-601 | a write takes connections down if and only if it fails or empties the queue of one that is to be closed; then both ends go and nothing else, whichever end the event came to |
| RelayOutcomes.IdleCloses | core/connection.cpp:603-610 | idleness deletes everything but a matched client, which is left without its server |
| RelayOutcomes.ErrorPageQueued | core/connection.cpp:237-255 | a connection that survives an error has the page last in its queue and will be closed; its read event is deleted, registered or activated, unless it had none when it was activated |
| RelayOutcomes.AsksForServer | core/connection.cpp:424-431 | the old server is gone and the request queued behind the earlier ones; the timer is pending exactly if it could be added, its flag set exactly if the device was asked as well |
| RelayOutcomes.ReadsOnUnlessHigh | core/http.cpp:972-988 | a server reads on exactly if its client's queue is below the high mark, or was sent down to the low mark at once |
| Connections.Connection.SendLoop | core/connection.cpp:499-522 | the loop on the linked queue takes the connection where the drain takes its value |
| Connections.Connection.TakeRequests | core/connection.cpp:382 | the buffers change hands, the two connections share nothing before and after |
| Connections.Proxy.AsyncSend | core/connection.cpp:530-547 | async_send on the objects has the effect and the exception of its function; the peer's object is live when it is woken |
| Connections.Proxy.CloseConn | core/connection.cpp:554-614 | the objects left alive by each flag are those the function leaves, with their pointers |
| Connections.Proxy.MatchPair | core/connection.cpp:364-398 | match links the two objects and moves the queue, or throws having only taken the requests |
| Connections.Proxy.Handle | core/connection.cpp:616-678 | every event, the activated read among them, takes the objects where the transition system goes and keeps its invariant; no method is called on a deleted one |
| Connections.Proxy.NoDanglingPointer | core/connection.h:121-123 | between events the peer of a live object is live and points back, one of the two a client |
| Connections.Proxy.NoDanglingMessage | core/worker.cpp:269-278 | the object in a hand-over message is live, unmatched and idle, unless the message has been spoiled |
| CircleBuffer.CircleBuffer.constructor | base/circle_buffer.h:13-22 | `n` copies of the value, also for n = 0 |
| CircleBuffer.CircleBuffer.PushBack | base/circle_buffer.h:35-48 | a full ring loses its oldest element, one of capacity 0 ignores the call |
| CircleBuffer.CircleBuffer.PopFront | base/circle_buffer.h:50-55 | the oldest element goes |
| CircleBuffer.CircleBuffer.Clear | base/circle_buffer.h:86-89 | the ring is empty |
| CircleBuffer.CircleBuffer.Front | base/circle_buffer.h:62-72 | the oldest element |
| CircleBuffer.CircleBuffer.Back | base/circle_buffer.h:74-84 | the newest element |
| TimingWheel.StepReachable | core/worker.cpp:35-60 | every event keeps peers mutual and every connection of the wheel within its n ticks |
| TimingWheel.StepElsewhere | core/worker.cpp:35-60 | an event leaves every connection alone that it does not name and that is not the peer of one it closes; a tick keeps kind, peer and time of those that stay |
| TimingWheel.VictimsOfOneMore | core/worker.cpp:40-49 | what closing one more connection of a bucket closes |
| TimingWheel.VictimsOfSeen | core/connection.cpp:603-610 | passing over matched clients closes nothing |
| TimingWheel.CountsFromNow | core/connection.cpp:680-690 | attaching or updating starts the count in the present tick |
| TimingWheel.BucketsDiffer | core/connection.cpp:684-685 | comparing bucket pointers compares ticks, within n ticks |
| TimingWheel.ClosedByNthRotation | core/worker.cpp:322-325 | a connection that is no matched client and last moved in tick t is there after any run that leaves it alone if and only if fewer than n rotations have happened |
| TimingWheel.SweptByRotation | core/worker.cpp:35-51 | exactly the matched clients of the oldest bucket whose servers are not in it drop out of the wheel |
| TimingWheel.SweptIsReached | core/worker.cpp:35-60 | for every capacity from 2 on there is a run after which a swept connection has no peer |
| TimingWheel.SweptNeverCloses | core/connection.cpp:603-610 | one that dropped out and is left alone is never closed for idleness |
| TimingWheel.UpdateRevives | core/connection.cpp:680-690 | an update puts it back exactly if its old bucket is not the newest one then |
| Worker.EraseBeside | core/worker.cpp:44-47 | the iterator must be moved exactly if it points to the client about to be erased, and then stands right |
| Worker.Worker.Delete | core/connection.cpp:216-235 | a deleted connection leaves the bucket it refers to, and so all buckets |
| Worker.Worker.CloseIdle | core/connection.cpp:603-610 | matched clients are spared, servers let go of their peer and are deleted |
| Worker.Worker.CloseClient | core/worker.cpp:43-48 | the client of a closed server is deleted and the iterator stays on a live element |
| Worker.Worker.SweepOne | core/worker.cpp:40-49 | one turn: exactly the connection and its client go, the rest of the walk is intact |
| Worker.Worker.Sweep | core/worker.cpp:35-51 | for every order of the walk: only live elements are visited, each victim is closed once, and the same connections are left |
| Worker.Worker.constructor | core/worker.cpp:62-80 | n empty buckets |
| Worker.Worker.OldestAtFront | core/worker.cpp:322-325 | the front bucket holds exactly those whose time is up |
| Worker.RotatedShown | core/worker.cpp:53-60 | sweeping and emptying the front bucket is a rotation of the timestamps |
| Worker.Worker.HandleTimeout | core/worker.cpp:322-325 | the tick of the ring is the tick of the timestamps |
| Worker.Worker.Attach | core/connection.cpp:190-214 | into the newest bucket |
| Worker.Worker.Update | core/connection.cpp:680-690 | into the newest bucket unless it refers to it already |
| Worker.Worker.Close | core/connection.cpp:216-235 | out of its bucket; the peer is unlinked |
| Worker.Worker.Become | core/connection.cpp:485 | a client turns server |
| Worker.Worker.Match | core/connection.cpp:397 | mutual pointers |
| PipeDecoder.DecodeEncode | core/worker.cpp:174-227 | decoding what was written gives the messages back, up to the first exit |
| PipeDecoder.DecodeMore | core/worker.cpp:300-320 | decoding goes on from the incomplete message |
| PipeDecoder.HandledInOrder | core/worker.cpp:229-320 | any prefix of the written bytes gives the first of the messages; all bytes, or an exit, give all of them |
| PipeDecoder.ExitIsLast | core/worker.cpp:243-245 | nothing follows an exit |
| PipeDecoder.Reader.StateMachine | core/worker.cpp:229-280 | one transition handles a message exactly when it is complete |
| PipeDecoder.Reader.Fill | core/worker.cpp:305 | the read stays inside pipe_buf_ |
| PipeDecoder.Reader.Full | core/worker.cpp:305 | no byte is asked for exactly after an exit |
| PipeDecoder.Reader.HandleNotify | core/worker.cpp:300-320 | for every fragmentation the messages handled are those of the bytes consumed; none is consumed after an exit; reading goes on until a read brings nothing |
| HeadReader.HeadIsUnique | core/http.cpp:1057 | a stream starts with at most one head |
| HeadReader.HeadReader.ReadByte | core/http.cpp:1051-1097 | done, refused or doubled: the buffer never overflows |
| HeadReader.HeadReader.ReadHead | core/http.cpp:1040-1104 | for every fragmentation the head ends behind the first blank line, or is refused at the limit; it waits, or reports a closed or broken connection, exactly as the first recv says that brings nothing |
| HeaderCodec.FoldLeads | core/http.cpp:550-576 | a folded line appends its text to the value as it is |
| HeaderCodec.FieldLeads | core/http.cpp:547-603 | a printed field is read as that field and the one before it is entered |
| HeaderCodec.PrintParse | core/http.cpp:537-624 | parsing a printed section takes exactly its bytes and gives each name its first value, folds appended |
| HeaderCodec.AcceptedIsPrinted | core/http.cpp:537-624 | the converse: the bytes of any section that is accepted are those of legal fields, printed, and the table is what is collected from them |
| HeaderCodec.FailsIff | core/http.cpp:537-624 | failure comes at the first byte after which no continuation makes a header section of what was read, and never before |
| HeaderCodec.TokenIff | core/http.cpp:670-691 | the characters of a name are letters, digits and the marks of section 3.2.6 of RFC 7230 |
| HeaderCodec.CollectIsFirst | core/http.cpp:556-557 | the first field of a name wins |
| HeaderCodec.CollectNames | core/http.cpp:556-557 | no name is made up |
| HeaderCodec.TableRoundTrip | core/http.cpp:744-750 | printing a table of headers in any order and parsing it gives the table back |
| HeaderCodec.ValuesStayClean | core/http.cpp:596-603 | no control character ever gets into a value |
| HeaderCodec.ValueSurvives | core/http.cpp:596-603 | a printed field survives if and only if its value has no control character |
| HeaderCodec.HeaderParser.Switch | core/http.cpp:545-621 | positions into the buffer and the local value show the automaton's state |
| HeaderCodec.HeaderParser.ParseHeaderLine | core/http.cpp:537-624 | result, position and headers are those of the automaton |
| Responses.GetDigitLen | base/util.cpp:9-16 | the number of digits printed |
| Responses.DecimalReadBack | core/http.cpp:713-751 | the digits printed have the value of the number and no leading zero |
| Responses.SurplusIff | core/http.cpp:718 | the digits counted for a number of the version are those printed if and only if it is not negative, and 16 to 18 too many otherwise |
| Responses.VersionIsCut | core/http.cpp:472-486 | the version kept is the number written, cut to a signed char |
| Responses.VersionCanWrap | core/http.h:129-130 | 200 is kept as -56, for which 17 bytes too many are reserved |
| Responses.SendResponse | core/http.cpp:713-751 | the size reserved for status line, headers and body is the number of bytes written if and only if neither version number is negative as a char; otherwise it is larger by what SurplusIff says for each |
| BodyFraming.StrToUL | base/cstring.cpp:25-41 | the number read from a size line is below 2^64, or none; which number, is said in `SizeLines` |
| BodyFraming.RunConcat | core/http.cpp:1106-1183 | the automaton may be fed in pieces |
| BodyFraming.RunTaken | core/http.cpp:1106-1183 | what it does not take it does not look at |
| BodyFraming.CountedRun | core/http.cpp:1115-1135 | a counted body takes exactly its length |
| BodyFraming.ChunkedExactly | core/http.cpp:1117-1175 | the reader is done with a string if and only if it is chunks up to the last size line |
| BodyFraming.RefusedIff | core/http.cpp:1143-1175 | the reader refuses a string if and only if, behind whole chunks, a size line does not end within 18 bytes or says no number below 2^64 |
| BodyFraming.SizeRoundTrip | core/http.cpp:1152 | every size below 2^64 is read back from a line of at most 18 bytes |
| BodyFraming.SizeThatWraps | core/http.cpp:1159 | data and CRLF are taken whole if the size plus 2 is below 2^64, one byte otherwise |
| BodyFraming.WrappedIsChunked | core/buffer.cpp:11 | a chunk of a size that does not fit, with one byte behind its line, passes for complete |
| BodyFraming.EncodedIsChunked | core/http.cpp:1143-1164 | what a sender writes is chunked |
| BodyFraming.ChunksRoundTrip | core/http.cpp:1143-1164 | the reader takes the chunks to the last byte and nothing of what follows |
| BodyReader.BodyReader.constructor | core/http.cpp:1073-1078 | how read_header starts a body |
| BodyReader.BodyReader.PushFull | core/http.cpp:1120-1134 | a full buffer is pushed and the next one fits what is left |
| BodyReader.BodyReader.ReadCounted | core/http.cpp:1117-1136 | counted bytes, for every short read |
| BodyReader.BodyReader.PushLine | core/http.cpp:1155-1164 | a size line is pushed; its data or the trailer follows, in a buffer of at least one byte |
| BodyReader.BodyReader.Double | core/http.cpp:1165-1170 | the buffer grows and keeps its bytes |
| BodyReader.BodyReader.ReadSizeLine | core/http.cpp:1145-1173 | one byte of a size line is one step of the automaton; never more than 18 bytes, never past the buffer |
| BodyReader.BodyReader.ReadBody | core/http.cpp:1106-1183 | one recv is the automaton on the bytes it brought, and brings some if there are any; if it brings none, the answer is that of recv |
| BodyReader.BodyReader.ReadBodies | core/http.cpp:915-947 | for every fragmentation exactly the automaton's bytes are taken and all of them are pushed or held; if it stops for another reason than the body's end, recv brought nothing |
| BodyReader.BodyReader.ContentDelivered | core/http.cpp:1117-1135 | the buffers pushed concatenate to exactly Content-Length bytes |
| BodyReader.BodyReader.ChunksDelivered | core/http.cpp:1106-1164 | the buffers pushed concatenate to exactly what the sender of chunks wrote |
| SizeLines.NumberRead | base/cstring.cpp:25-41 | white space, a sign or none, 0x or nothing, digits in either case, and anything that does not start with a digit: the answer is the value of the digits as powers of 16 if that is below 2^64, counted down from 2^64 behind a minus |
| SizeLines.NothingRead | base/cstring.cpp:25-41 | without a digit there is no number |
| SizeLines.EveryLine | base/cstring.cpp:25-41 | every line is of one of these two kinds |
| SizeLines.PaddedAreChunked | core/http.cpp:1143-1164 | chunks whose size lines carry white space, a prefix, leading zeros or extensions, within 18 bytes, are chunked |
| SizeLines.PaddedTakenExactly | core/http.cpp:1143-1164 | and the reader takes them to the last byte and nothing of what follows |
| UriCodec.DecodeCode | core/http.cpp:202-250 | the code of a character is decoded as a whole and does not change the mode |
| UriCodec.DecodeEncode | core/http.cpp:202-250 | without plus, decoding undoes encoding in every mode |
| UriCodec.DecodeEncodePlus | core/http.cpp:202-250 | with plus it does so if and only if the mode decodes plus or there is no space |
| UriCodec.DocumentedIff | core/http.h:116-117 | mode -1 decodes as documented if and only if no plus stands before the first `?` |
| UriCodec.DocumentedFails | core/http.cpp:238-242 | an input on which it does not |
| UriCodec.EncodeUri | core/http.cpp:201-218 | the loop computes the encoding |
| UriText.PlainIff | core/http.cpp:175-197 | the characters that stand for themselves are letters, digits and the marks of section 2.3 of RFC 3986 |
| UriText.EncodedInPieces | core/http.cpp:201-218 | an encoded text is one code for each character: itself, a plus for a space if asked for, or a percent sign and two capital digits of its value |
| UriText.DecodedInPieces | core/http.cpp:231-250 | any text is a sequence of escapes and other characters, no escape being written as three characters, and is decoded to one character for each |
| UriCodec.DecodeUri | core/http.cpp:231-250 | looking past the end of the input does not show, given what the decoder needs there |
| UriCodec.TerminatedEndsClean | core/http.cpp:274 | a byte behind the end that is no hexadecimal digit is enough |
| UriCodec.StaleBytes | core/http.cpp:277-278 | the bytes left behind the shrinking end complete no escape |
| UriCodec.TakeOutDigits | core/http.cpp:275-278 | the bytes behind an escape move over its digits |
| UriCodec.DecodeOne | core/http.cpp:267-281 | one turn of the loop decodes one character and keeps what comes after it |
| UriCodec.DecodeInPlace | core/http.cpp:263-283 | the bytes in place are those of the copying decoder; the length wraps around if and only if an escape straddles the end and none is complete before it |
| UriCodec.LonePercentStraddles | core/connection.cpp:456-457 | the device id `%` with two digits in memory behind it is such a case |
| ScatterWrite.GetIovTranIndex | ipc/io_ext.cpp:56-68 | the vector in which the given byte lies, and its offset there |
| ScatterWrite.ResumesAt | ipc/io_ext.cpp:138-141 | from there on the vectors hold exactly the bytes left |
| ScatterWrite.Writevn | ipc/io_ext.cpp:113-153 | for all short writes: a prefix of the vectors' bytes, each byte once and in order, as many as the writes take up to the first that fails; true exactly for all of them |
| ScatterWrite.GoesOut | ipc/io_ext.cpp:129-150 | short writes alone keep nothing back |
| LogFrames.LengthRoundTrip | log/log_send.cpp:33-36 | the eight bytes of a length give it back |
| LogFrames.FramesRoundTrip | logsrv/fifo_srv.cpp:31-58 | frames of non-empty records decode to exactly the records |
| LogFrames.CutStream | logsrv/fifo_srv.cpp:31-58 | a stream cut anywhere delivers the first of them |
| LogFrames.DecodeMore | logsrv/fifo_srv.cpp:31-58 | decoding goes on from the incomplete frame |
| LogFrames.LogSend | log/log_send.cpp:22-41 | the three vectors are one frame, of which goes out what the writes take up to the first that fails; true exactly if it went out whole |
| LogFrames.SendAll | ipc/fifo_tls.cpp:131-141 | each message puts its frame or a part of it into the fifo, and its answer says which |
| LogFrames.TornFrame | ipc/fifo_tls.cpp:131-141 | what is delivered of a frame cut anywhere and of any bytes written after it: cut in the record, the record with its end taken from them; cut in the length, a record of as many of their bytes as the length completed from them says; then the records of the rest |
| LogFrames.CleanFrames | ipc/fifo_tls.cpp:131-141 | while each write puts all of its frame or nothing, the fifo holds the frames of the records that went out |
| LogFrames.SpoilsIff | ipc/fifo_tls.cpp:131-141 | up to the first frame cut short the reader is in step; whatever whole frames follow are delivered as they were sent if and only if the last write put all of its frame or nothing |
| LogFrames.FrameReader.ToHead | logsrv/fifo_srv.cpp:79-86 | back to reading a length |
| LogFrames.FrameReader.ToBody | logsrv/fifo_srv.cpp:88-93 | a buffer that holds the record |
| LogFrames.FrameReader.Fill | logsrv/fifo_srv.cpp:36 | the read stays inside the buffer |
| LogFrames.FrameReader.Act | logsrv/fifo_srv.cpp:38-49 | a full buffer is a length or delivers a record |
| LogFrames.FrameReader.AsyncReadMsg | logsrv/fifo_srv.cpp:31-58 | for every fragmentation the records delivered are those of the bytes consumed; it ends at the first read that brings nothing, and says why |
| LogFrames.NeverStuck | logsrv/fifo_srv.cpp:31-58 | a reader of whole frames never comes to wait behind a length of 0 |
| LogFrames.Pipeline | log/log_send.cpp:22-41 | messages sent by log_send and read by async_read_msg, however writes and reads cut the stream: while no frame is cut short, the records delivered are the first of those log_send reported as sent; once the reads have brought everything, all of those before the first frame cut short have been delivered; with no failed write that is every record |

## Left out

- Sockets, libevent, OpenSSL, threads, the /proc and configuration code: their answers are parameters; one handler run and one operation on a locked table are atomic.
- SSL connections: their `close` may defer the deletion, which the model of `delete` does not have.
- Failures of event registration and of allocation inside attach; `send_error` on an unattached connection models the failing registration of its write event.
- BasicPool.BasicPool.Refill: ends with NULL where the code goes on to write through the NULL chunk.
- BasicPool.BasicPool.Allocate: heap_node is taken to have 24 bytes (64-bit pointers).
- SmartPool.SmartPool.Malloc: says nothing of the sizes remembered once a node has been recycled or a request above 16K has been made, because the C library may give its region back to the pool as a heap.
- The reuse of idle servers (`match_server` with reuse, `get_idle`): its only caller leaves it off.
- What happens to a hand-over message after its connection was closed or registered again: `spoiled` counts it, and it is not delivered.
- What happens when a stray timer goes off after its connection was deleted: `stray` counts it.
- The partly filled body buffer of a connection that becomes a server in its own worker: it reads only as a server from the next recv on.
- Connections.Proxy.Handle: one recv at a time; the loops of read_request and read_message_no_parse are runs of such events.
- Connections.Proxy.Handle: the flags of a connection are one record, and the tables of servers by device, which only reuse reads, are not there.
- RelayTheorems.RelayIsExact: request bytes of a client count from the time it last had neither server nor queued requests.
- The branch of match_client for a connection that finds itself: a device's socket is no longer in the clients' table when it looks there.
- TimingWheel.ClosedByNthRotation: leaves out a capacity of 0, for which the worker's `back()` asserts.
- The first-line parser, `get_body_info` and the 100-continue rewrite of a head.
- Trailers: parse_trailer runs on the state parse_header left behind, so the model stops at the entry to them.
- A size line of white space alone: the library's number parser would read on behind it; the model takes it for a line without number.
- `readvn`, whose loop is that of `writevn`, and `readn` and `writen`.
- Log messages longer than the buffer they are formatted in.
- The connector's and the acceptor's message handling, statistics, string hashes, singletons and time arithmetic.
