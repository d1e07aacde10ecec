/**
 The segregated-fit pool of mem/basic_pool: 1024 free lists of 16-byte size classes, a carve region,
 and a list of all heaps kept in memory the pool takes from itself.
*/
module BasicPool {
  import opened Layouts

  const ALIGNMENT := 16
  const MAX_CHUNK_SIZE := 16 * 1024
  const NODE_NUM := 16
  const CHUNK_NUM := MAX_CHUNK_SIZE / ALIGNMENT
  const HEAP_NODE_SIZE := 24 // two pointers and a size_t
  const NULL := 0

  function RoundUp(size: nat): (r: nat)
    ensures size <= r < size + 16 && r % 16 == 0
  {
    (size + 15) / 16 * 16
  }

  function ChunkIndex(size: nat): (k: nat)
    requires 0 < size <= MAX_CHUNK_SIZE
    ensures k < CHUNK_NUM
    ensures 16 * k < size <= 16 * (k + 1)
  {
    (size - 1) / 16
  }

  /** The bytes a node of class `k` spans. */
  function ClassSize(k: nat): nat {
    16 * (k + 1)
  }

  /** Rounding up to the alignment gives the size of the class: `round_up` and `chunk_index` agree. */
  lemma RoundUpIsClassSize(size: nat)
    requires 0 < size <= MAX_CHUNK_SIZE
    ensures RoundUp(size) == ClassSize(ChunkIndex(size))
    ensures ChunkIndex(RoundUp(size)) == ChunkIndex(size)
  {
  }

  datatype HeapNode = HeapNode(mem: int, size: nat, next: int)

  /** The node after the i-th one, or NULL. */
  ghost function After(nodes: seq<int>, i: nat): int {
    if i + 1 < |nodes| then nodes[i + 1] else NULL
  }

  /** The nodes reached from `head` through the next words are exactly `nodes`, in order. */
  ghost predicate Chain(next: map<int, int>, head: int, nodes: seq<int>) {
    && head == (if nodes == [] then NULL else nodes[0])
    && (forall i :: 0 <= i < |nodes| ==>
          && nodes[i] != NULL
          && nodes[i] in next
          && next[nodes[i]] == After(nodes, i))
  }

  ghost predicate Distinct(s: seq<int>) {
    forall i, j :: 0 <= i < j < |s| ==> s[i] != s[j]
  }

  ghost predicate IsFree(bs: Layout, a: int, size: nat) {
    a in bs && bs[a].kind == Free && bs[a].len == size
  }

  /** One free list: well linked, without repetition, and holding exactly the free blocks of its size. */
  ghost predicate ListOk(bs: Layout, next: map<int, int>, head: int, nodes: seq<int>, size: nat) {
    && Chain(next, head, nodes)
    && Distinct(nodes)
    && (forall i :: 0 <= i < |nodes| ==> IsFree(bs, nodes[i], size))
    && (forall a :: IsFree(bs, a, size) ==> a in nodes)
  }

  /** All free lists; together they hold every free block. */
  ghost predicate ListsOk(bs: Layout, next: map<int, int>, heads: seq<int>, lists: seq<seq<int>>) {
    && |heads| == |lists| == CHUNK_NUM
    && (forall k :: 0 <= k < CHUNK_NUM ==> ListOk(bs, next, heads[k], lists[k], ClassSize(k)))
    && (forall a :: a in bs && bs[a].kind == Free ==> bs[a].len <= MAX_CHUNK_SIZE)
  }

  /** A list does not notice changes to other blocks and other words. */
  lemma ListFrame(bs: Layout, bs': Layout, next: map<int, int>, next': map<int, int>,
                  head: int, nodes: seq<int>, size: nat)
    requires ListOk(bs, next, head, nodes, size)
    requires forall a :: IsFree(bs, a, size) <==> IsFree(bs', a, size)
    requires forall i :: 0 <= i < |nodes| ==> nodes[i] in next' && next'[nodes[i]] == next[nodes[i]]
    ensures ListOk(bs', next', head, nodes, size)
  {
  }

  lemma PopList(bs: Layout, next: map<int, int>, nodes: seq<int>, size: nat, kind: Kind)
    requires nodes != [] && ListOk(bs, next, nodes[0], nodes, size)
    requires kind != Free
    ensures IsFree(bs, nodes[0], size)
    ensures ListOk(Use(bs, nodes[0], kind), next, next[nodes[0]], nodes[1..], size)
  {
    assert IsFree(bs, nodes[0], size);
    var bs' := Use(bs, nodes[0], kind);
    forall i | 0 <= i < |nodes[1..]|
      ensures IsFree(bs', nodes[1..][i], size)
    {
      assert IsFree(bs, nodes[i + 1], size);
    }
    forall a | IsFree(bs', a, size)
      ensures a in nodes[1..]
    {
      assert IsFree(bs, a, size);
      var i :| 0 <= i < |nodes| && nodes[i] == a;
      assert nodes[1..][i - 1] == a;
    }
    var tail := nodes[1..];
    forall i | 0 <= i < |tail|
      ensures tail[i] != NULL && tail[i] in next
      ensures next[tail[i]] == After(tail, i)
    {
      assert tail[i] == nodes[i + 1];
      assert After(tail, i) == After(nodes, i + 1);
    }
    assert next[nodes[0]] == After(nodes, 0);
  }

  lemma PopKeepsLists(bs: Layout, next: map<int, int>, heads: seq<int>, lists: seq<seq<int>>, k: nat, kind: Kind)
    requires ListsOk(bs, next, heads, lists)
    requires k < CHUNK_NUM && heads[k] != NULL && kind != Free
    ensures |lists| == CHUNK_NUM && lists[k] != [] && lists[k][0] == heads[k]
      && IsFree(bs, heads[k], ClassSize(k)) && heads[k] in next
    ensures ListsOk(Use(bs, heads[k], kind), next, heads[k := next[heads[k]]], lists[k := lists[k][1..]])
  {
    assert ListOk(bs, next, heads[k], lists[k], ClassSize(k));
    var p, nodes := heads[k], lists[k];
    assert IsFree(bs, nodes[0], ClassSize(k));
    var bs' := Use(bs, p, kind);
    forall j | 0 <= j < CHUNK_NUM
      ensures ListOk(bs', next, heads[k := next[p]][j], lists[k := nodes[1..]][j], ClassSize(j))
    {
      assert ListOk(bs, next, heads[j], lists[j], ClassSize(j));
      if j != k {
        ListFrame(bs, bs', next, next, heads[j], lists[j], ClassSize(j));
      } else {
        PopList(bs, next, nodes, ClassSize(k), kind);
      }
    }
  }

  lemma PushChain(next: map<int, int>, head: int, nodes: seq<int>, p: int)
    requires Chain(next, head, nodes) && Distinct(nodes)
    requires p != NULL && p !in nodes
    ensures Chain(next[p := head], p, [p] + nodes) && Distinct([p] + nodes)
  {
    var all := [p] + nodes;
    forall i | 0 <= i < |all|
      ensures all[i] != NULL && all[i] in next[p := head] && next[p := head][all[i]] == After(all, i)
    {
      if i > 0 {
        assert all[i] == nodes[i - 1];
        assert After(all, i) == After(nodes, i - 1);
      }
    }
  }

  lemma PushList(bs: Layout, next: map<int, int>, head: int, nodes: seq<int>, size: nat, p: int)
    requires ListOk(bs, next, head, nodes, size)
    requires p != NULL && p in bs && bs[p].kind != Free && bs[p].len == size
    ensures ListOk(Use(bs, p, Free), next[p := head], p, [p] + nodes, size)
  {
    hide Chain, Distinct;
    var bs' := Use(bs, p, Free);
    assert p !in nodes by {
      assert forall i :: 0 <= i < |nodes| ==> IsFree(bs, nodes[i], size);
    }
    PushChain(next, head, nodes, p);
    assert forall a :: IsFree(bs', a, size) <==> IsFree(bs, a, size) || a == p;
    assert ([p] + nodes)[0] == p;
  }

  lemma PushKeepsLists(bs: Layout, next: map<int, int>, heads: seq<int>, lists: seq<seq<int>>, k: nat, p: int)
    requires ListsOk(bs, next, heads, lists)
    requires k < CHUNK_NUM && p != NULL
    requires p in bs && bs[p].kind != Free && bs[p].len == ClassSize(k)
    ensures |lists| == CHUNK_NUM
      && ListsOk(Use(bs, p, Free), next[p := heads[k]], heads[k := p], lists[k := [p] + lists[k]])
  {
    hide ListOk;
    var bs' := Use(bs, p, Free);
    var next' := next[p := heads[k]];
    forall j | 0 <= j < CHUNK_NUM
      ensures ListOk(bs', next', heads[k := p][j], lists[k := [p] + lists[k]][j], ClassSize(j))
    {
      assert ListOk(bs, next, heads[j], lists[j], ClassSize(j));
      if j != k {
        ListWithout(bs, next, heads[j], lists[j], ClassSize(j), p);
        ListFrame(bs, bs', next, next', heads[j], lists[j], ClassSize(j));
      } else {
        PushList(bs, next, heads[j], lists[j], ClassSize(j), p);
      }
    }
  }

  lemma NotNull(bs: Layout, heaps: map<int, nat>, p: int)
    requires Tiled(bs, heaps) && p in bs
    ensures p != NULL
  {
    assert Fits(p, bs[p], heaps);
  }

  lemma ListLinked(bs: Layout, next: map<int, int>, head: int, nodes: seq<int>, size: nat)
    requires ListOk(bs, next, head, nodes, size)
    ensures forall i :: 0 <= i < |nodes| ==> nodes[i] in next
  {
  }

  lemma ListWithout(bs: Layout, next: map<int, int>, head: int, nodes: seq<int>, size: nat, p: int)
    requires ListOk(bs, next, head, nodes, size)
    requires !IsFree(bs, p, size)
    ensures p !in nodes
    ensures forall i :: 0 <= i < |nodes| ==> nodes[i] in next && nodes[i] != p
  {
    assert forall i :: 0 <= i < |nodes| ==> IsFree(bs, nodes[i], size);
  }

  /** `heap_list_` reaches exactly `nodes`, which record exactly the heaps `mems`. */
  ghost predicate HeapChain(mem: map<int, HeapNode>, head: int, nodes: seq<int>, mems: seq<int>, heaps: map<int, nat>) {
    && |nodes| == |mems|
    && head == (if nodes == [] then NULL else nodes[0])
    && (forall i :: 0 <= i < |nodes| ==>
          && nodes[i] != NULL
          && nodes[i] in mem
          && mems[i] in heaps
          && mem[nodes[i]] == HeapNode(mems[i], heaps[mems[i]], After(nodes, i)))
  }

  /** Where the list begins. */
  lemma HeapFirst(mem: map<int, HeapNode>, head: int, nodes: seq<int>, mems: seq<int>, heaps: map<int, nat>)
    requires HeapChain(mem, head, nodes, mems, heaps)
    ensures |nodes| == |mems| && (head == NULL <==> nodes == []) && (nodes != [] ==> head == nodes[0])
  {
  }

  /** Where it goes on. */
  lemma HeapAt(mem: map<int, HeapNode>, head: int, nodes: seq<int>, mems: seq<int>, heaps: map<int, nat>, i: nat)
    requires HeapChain(mem, head, nodes, mems, heaps) && i < |nodes|
    ensures i < |mems| && nodes[i] in mem && mem[nodes[i]].mem == mems[i]
    ensures var p := mem[nodes[i]].next; (p == NULL <==> i + 1 == |nodes|) && (i + 1 < |nodes| ==> p == nodes[i + 1])
  {
    if i + 1 < |nodes| { assert nodes[i + 1] != NULL; }
  }

  ghost predicate AllNodes(bs: Layout, addrs: seq<int>) {
    forall i :: 0 <= i < |addrs| ==> addrs[i] in bs && bs[addrs[i]].kind == Node
  }

  /** The blocks whose fate is decided: everything but the carve region and a raw chunk. */
  ghost function Settled(bs: Layout): Layout {
    map a | a in bs && bs[a].kind != Carve && bs[a].kind != Raw :: bs[a]
  }

  /** No settled block ever changes its extent again. */
  ghost predicate SameExtents(bs: Layout, bs': Layout) {
    forall a :: a in Settled(bs) ==> a in Settled(bs') && bs'[a].len == bs[a].len
  }

  /** Blocks that are handed out, hold bookkeeping or are lost stay exactly as they are. */
  ghost predicate KeepsTaken(bs: Layout, bs': Layout) {
    forall a :: a in bs && (bs[a].kind == Live || bs[a].kind == Node || bs[a].kind == Lost)
      ==> a in bs' && bs'[a] == bs[a]
  }

  /** Some list of a larger class has a node. */
  ghost predicate HasLarger(lists: seq<seq<int>>, size: nat) {
    exists k :: 0 <= k < |lists| && size < ClassSize(k) && lists[k] != []
  }

  lemma NodeListServes(lists: seq<seq<int>>)
    ensures |lists| > 1 && lists[1] != [] ==> HasLarger(lists, 16)
  {
  }

  /** The nodes refill links into the list: every piece of the chunk but the first. */
  ghost function Nodes(chunk: int, size: nat, num: nat): (nodes: seq<int>)
    requires 0 < num
    ensures |nodes| == num - 1
    ensures forall i :: 0 <= i < |nodes| ==> nodes[i] == Piece(chunk, size, i + 1)
  {
    seq(num - 1, i requires 0 <= i => Piece(chunk, size, i + 1))
  }

  lemma PieceOrder(chunk: int, size: nat, i: nat, j: nat)
    requires 0 < size && i < j
    ensures Piece(chunk, size, i) < Piece(chunk, size, j)
  {
    assert i * size < j * size;
  }

  lemma NodesDistinct(chunk: int, size: nat, num: nat)
    requires 0 < size && 0 < num
    ensures Distinct(Nodes(chunk, size, num))
    ensures forall i :: 0 <= i < num - 1 ==> Nodes(chunk, size, num)[i] != chunk
  {
    var nodes := Nodes(chunk, size, num);
    forall i | 0 <= i < |nodes|
      ensures nodes[i] != chunk
    {
      PieceOrder(chunk, size, 0, i + 1);
    }
    forall i, j | 0 <= i < j < |nodes|
      ensures nodes[i] != nodes[j]
    {
      PieceOrder(chunk, size, i + 1, j + 1);
    }
  }

  /** The chunk at `chunk` becomes one live block followed by `num - 1` free ones. */
  ghost function Refilled(bs: Layout, chunk: int, size: nat, num: nat): Layout
    requires 0 < size && 0 < num
    requires chunk in bs && bs[chunk].len == num * size
  {
    Use(Cut(bs, chunk, size, num, Free), chunk, Live)
  }

  lemma PiecesAreNodes(chunk: int, size: nat, num: nat)
    requires 0 < size && 0 < num
    ensures forall a :: IsPiece(a, chunk, size, num) <==> a == chunk || a in Nodes(chunk, size, num)
  {
    var nodes := Nodes(chunk, size, num);
    assert Piece(chunk, size, 0) == chunk;
    forall a
      ensures IsPiece(a, chunk, size, num) <==> a == chunk || a in nodes
    {
      if IsPiece(a, chunk, size, num) && a != chunk {
        var i :| 0 <= i < num && a == Piece(chunk, size, i);
        assert nodes[i - 1] == a;
      }
      if a in nodes {
        var i :| 0 <= i < |nodes| && nodes[i] == a;
        assert a == Piece(chunk, size, i + 1);
      }
    }
  }

  /** What is in the refilled layout: the old blocks, and the new nodes. */
  lemma RefilledBlocks(bs: Layout, heaps: map<int, nat>, chunk: int, size: nat, num: nat)
    requires 0 < size && size % 16 == 0 && 0 < num
    requires Tiled(bs, heaps)
    requires chunk in bs && bs[chunk].len == num * size && bs[chunk].kind == Raw
    ensures Tiled(Refilled(bs, chunk, size, num), heaps)
    ensures Total(Refilled(bs, chunk, size, num)) == Total(bs)
    ensures Bytes(Refilled(bs, chunk, size, num), Lost) == Bytes(bs, Lost)
    ensures forall a :: a in Refilled(bs, chunk, size, num) <==> a in bs || a in Nodes(chunk, size, num)
    ensures forall a :: a in bs && a != chunk ==>
              a !in Nodes(chunk, size, num) && !IsPiece(a, chunk, size, num)
                && Refilled(bs, chunk, size, num)[a] == bs[a]
    ensures Refilled(bs, chunk, size, num)[chunk] == Block(size, Live, bs[chunk].home)
    ensures forall a :: a in Nodes(chunk, size, num) ==>
              a != NULL && Refilled(bs, chunk, size, num)[a] == Block(size, Free, bs[chunk].home)
  {
    hide Tiled, Total, Bytes, Cut, IsPiece, Nodes;
    CutKeeps(bs, heaps, chunk, size, num, Free);
    CutPieces(bs, heaps, chunk, size, num, Free);
    var cut := Cut(bs, chunk, size, num, Free);
    UseKeeps(cut, heaps, chunk, Live);
    NodesDistinct(chunk, size, num);
    var nodes := Nodes(chunk, size, num);
    PiecesAreNodes(chunk, size, num);
    forall a | a in nodes
      ensures a != NULL
    {
      NotNull(cut, heaps, a);
    }
  }

  ghost function PieceAfter(chunk: int, size: nat, num: nat, j: nat): int {
    if j + 1 < num then Piece(chunk, size, j + 1) else NULL
  }

  /** The words refill writes: each node points at the following piece, the last one at nothing. */
  ghost predicate Threaded(next: map<int, int>, chunk: int, size: nat, num: nat) {
    ThreadedTo(next, chunk, size, num, num)
  }

  /** The same for the pieces before the i-th. */
  ghost predicate ThreadedTo(next: map<int, int>, chunk: int, size: nat, num: nat, i: nat) {
    forall j :: 1 <= j < i ==>
      && Piece(chunk, size, j) in next
      && next[Piece(chunk, size, j)] == PieceAfter(chunk, size, num, j)
  }

  lemma ThreadStep(next: map<int, int>, chunk: int, size: nat, num: nat, i: nat)
    requires ThreadedTo(next, chunk, size, num, i) && 0 < size && 1 <= i < num
    ensures ThreadedTo(next[Piece(chunk, size, i) := PieceAfter(chunk, size, num, i)], chunk, size, num, i + 1)
    ensures IsPiece(Piece(chunk, size, i), chunk, size, num)
  {
    OtherPieces(chunk, size, i);
    hide PieceAfter;
  }

  lemma ThreadedIsChain(next: map<int, int>, chunk: int, size: nat, num: nat)
    requires 0 < num && Threaded(next, chunk, size, num)
    requires NULL !in Nodes(chunk, size, num)
    ensures Chain(next, if num == 1 then NULL else Piece(chunk, size, 1), Nodes(chunk, size, num))
  {
    var nodes := Nodes(chunk, size, num);
    forall i | 0 <= i < |nodes|
      ensures nodes[i] != NULL && nodes[i] in next && next[nodes[i]] == After(nodes, i)
    {
      assert nodes[i] == Piece(chunk, size, i + 1);
      assert next[Piece(chunk, size, i + 1)] == PieceAfter(chunk, size, num, i + 1);
      if i + 1 < |nodes| { assert nodes[i + 1] == Piece(chunk, size, i + 1 + 1); }
    }
  }

  /** After refill, list `k` is the new nodes and every other list is as before. */
  lemma RefillKeepsLists(bs: Layout, heaps: map<int, nat>, next: map<int, int>, next': map<int, int>,
                         heads: seq<int>, lists: seq<seq<int>>, k: nat, chunk: int, num: nat)
    requires Tiled(bs, heaps)
    requires ListsOk(bs, next, heads, lists)
    requires k < CHUNK_NUM && lists[k] == [] && 0 < num
    requires chunk in bs && bs[chunk].len == num * ClassSize(k) && bs[chunk].kind == Raw
    requires Threaded(next', chunk, ClassSize(k), num)
    requires forall a :: a in next && !IsPiece(a, chunk, ClassSize(k), num) ==> a in next' && next'[a] == next[a]
    ensures ListsOk(Refilled(bs, chunk, ClassSize(k), num), next',
                    heads[k := if num == 1 then NULL else Piece(chunk, ClassSize(k), 1)],
                    lists[k := Nodes(chunk, ClassSize(k), num)])
  {
    hide Tiled, Total, Bytes, Refilled, IsPiece, Chain;
    var size, nodes := ClassSize(k), Nodes(chunk, ClassSize(k), num);
    RefilledBlocks(bs, heaps, chunk, size, num);
    var bs' := Refilled(bs, chunk, size, num);
    var head := if num == 1 then NULL else Piece(chunk, size, 1);
    NodesDistinct(chunk, size, num);
    ThreadedIsChain(next', chunk, size, num);
    forall j | 0 <= j < CHUNK_NUM
      ensures ListOk(bs', next', heads[k := head][j], lists[k := nodes][j], ClassSize(j))
    {
      assert ListOk(bs, next, heads[j], lists[j], ClassSize(j));
      if j == k {
        assert forall a :: !IsFree(bs, a, size);
        assert forall a :: a in bs && a != chunk ==> (IsFree(bs', a, size) <==> IsFree(bs, a, size));
      } else {
        assert forall i :: 0 <= i < |lists[j]| ==> IsFree(bs, lists[j][i], ClassSize(j));
        ListWithout(bs, next, heads[j], lists[j], ClassSize(j), chunk);
        ListFrame(bs, bs', next, next', heads[j], lists[j], ClassSize(j));
      }
    }
  }

  /** Overwriting a list turns exactly its nodes into lost blocks. */
  lemma LoseKeepsLists(bs: Layout, next: map<int, int>, heads: seq<int>, lists: seq<seq<int>>, k: nat)
    requires ListsOk(bs, next, heads, lists)
    requires k < CHUNK_NUM
    ensures ListsOk(Lose(bs, lists[k]), next, heads[k := NULL], lists[k := []])
  {
    hide Chain;
    var bs' := Lose(bs, lists[k]);
    assert ListOk(bs, next, heads[k], lists[k], ClassSize(k));
    forall j | 0 <= j < CHUNK_NUM
      ensures ListOk(bs', next, heads[k := NULL][j], lists[k := []][j], ClassSize(j))
    {
      assert ListOk(bs, next, heads[j], lists[j], ClassSize(j));
      if j == k {
        assert Chain(next, NULL, []) by { EmptyChain(next); }
        var lost := lists[k];
        assert forall a :: IsFree(bs, a, ClassSize(k)) ==> a in lost;
        assert forall a :: IsFree(bs', a, ClassSize(k)) ==> IsFree(bs, a, ClassSize(k));
        assert forall a :: a in lost && a in bs' ==> bs'[a].kind == Lost;
      } else {
        forall a
          ensures IsFree(bs, a, ClassSize(j)) <==> IsFree(bs', a, ClassSize(j))
        {
          if a in lists[k] {
            var i :| 0 <= i < |lists[k]| && lists[k][i] == a;
            assert IsFree(bs, lists[k][i], ClassSize(k));
          }
        }
        ListLinked(bs, next, heads[j], lists[j], ClassSize(j));
        ListFrame(bs, bs', next, next, heads[j], lists[j], ClassSize(j));
      }
    }
  }

  lemma EmptyChain(next: map<int, int>)
    ensures Chain(next, NULL, [])
  {
  }

  /** `[p, p + bytes)` overlaps none of the regions. */
  predicate Clear(regions: map<int, nat>, p: int, bytes: nat) {
    forall r :: r in regions ==> r + regions[r] <= p || p + bytes <= r
  }

  lemma {:induction false} SomewhereClear(regions: map<int, nat>) returns (p: int)
    ensures 0 < p
    ensures forall r :: r in regions ==> r < p && r + regions[r] <= p
    decreases |regions|
  {
    p := 1;
    if regions != map[] {
      NonEmptyHasKey(regions);
      var k :| k in regions;
      var q := SomewhereClear(regions - {k});
      p := if q < k + regions[k] + 1 then k + regions[k] + 1 else q;
      assert forall r :: r in regions ==> r == k || (r in regions - {k} && (regions - {k})[r] == regions[r]);
    } else {
      assert forall r :: r !in regions;
    }
  }

  /** The whole effect of refill on the layout and the lists; a list that was filled meanwhile is lost. */
  lemma RefillStep(bs: Layout, heaps: map<int, nat>, next: map<int, int>, next': map<int, int>, heads: seq<int>,
                   lists: seq<seq<int>>, addrs: seq<int>, k: nat, chunk: int, num: nat)
    returns (r: Layout)
    requires Tiled(bs, heaps) && ListsOk(bs, next, heads, lists) && AllNodes(bs, addrs)
    requires k < CHUNK_NUM && 0 < num
    requires chunk in bs && bs[chunk].kind == Raw && bs[chunk].len == num * ClassSize(k)
    requires forall a :: a in bs && bs[a].kind == Raw ==> a == chunk
    requires Threaded(next', chunk, ClassSize(k), num)
    requires forall a :: a in next && !IsPiece(a, chunk, ClassSize(k), num) ==> a in next' && next'[a] == next[a]
    ensures Tiled(r, heaps) && Total(r) == Total(bs) && AllNodes(r, addrs)
    ensures |lists| == CHUNK_NUM == |heads|
    ensures Bytes(r, Lost) == Bytes(bs, Lost) + |lists[k]| * ClassSize(k)
    ensures ListsOk(r, next', heads[k := if num == 1 then NULL else Piece(chunk, ClassSize(k), 1)],
                    lists[k := Nodes(chunk, ClassSize(k), num)])
    ensures chunk in r && r[chunk].kind == Live && r[chunk].len == ClassSize(k)
    ensures forall a :: a in r ==> r[a].kind != Raw
    ensures forall a :: a in bs && bs[a].kind == Carve ==> a in r && r[a] == bs[a]
    ensures forall a :: a in r && r[a].kind == Carve ==> a in bs && r[a] == bs[a]
    ensures KeepsTaken(bs, r) && SameExtents(bs, r)
  {
    hide Tiled, Total, Bytes, ListOk, Refilled, IsPiece;
    var size := ClassSize(k);
    LoseList(bs, heaps, next, heads, lists, k);
    var lost := Lose(bs, lists[k]);
    assert forall a :: a in lists[k] ==> a in bs && bs[a].kind == Free;
    RefilledBlocks(lost, heaps, chunk, size, num);
    RefillKeepsLists(lost, heaps, next, next', heads[k := NULL], lists[k := []], k, chunk, num);
    r := Refilled(lost, chunk, size, num);
    var head := if num == 1 then NULL else Piece(chunk, size, 1);
    forall i | 0 <= i < |addrs|
      ensures addrs[i] in r && r[addrs[i]].kind == Node
    {
      assert bs[addrs[i]].kind == Node && addrs[i] !in lists[k];
      assert addrs[i] in lost && lost[addrs[i]] == bs[addrs[i]] && addrs[i] != chunk;
    }
    assert heads[k := NULL][k := head] == heads[k := head];
    assert lists[k := []][k := Nodes(chunk, size, num)] == lists[k := Nodes(chunk, size, num)];
  }

  /** Losing list `k` keeps the tiling and the other lists, and loses exactly its bytes. */
  lemma LoseList(bs: Layout, heaps: map<int, nat>, next: map<int, int>, heads: seq<int>, lists: seq<seq<int>>, k: nat)
    requires Tiled(bs, heaps) && ListsOk(bs, next, heads, lists)
    requires k < CHUNK_NUM
    ensures |lists| == CHUNK_NUM == |heads|
    ensures Tiled(Lose(bs, lists[k]), heaps) && Total(Lose(bs, lists[k])) == Total(bs)
    ensures Bytes(Lose(bs, lists[k]), Lost) == Bytes(bs, Lost) + |lists[k]| * ClassSize(k)
    ensures ListsOk(Lose(bs, lists[k]), next, heads[k := NULL], lists[k := []])
    ensures forall a :: a in lists[k] ==> a in bs && bs[a].kind == Free
  {
    hide Tiled, Total, Bytes, Chain;
    assert ListOk(bs, next, heads[k], lists[k], ClassSize(k));
    assert forall i :: 0 <= i < |lists[k]| ==> IsFree(bs, lists[k][i], ClassSize(k));
    LoseKeeps(bs, heaps, lists[k], ClassSize(k));
    LoseKeepsLists(bs, next, heads, lists, k);
  }

  lemma DivBounds(left: nat, size: nat)
    requires 0 < size <= left && left < NODE_NUM * size && size % 16 == 0
    ensures 1 <= left / size < NODE_NUM
    ensures 0 < left / size * size <= left
    ensures left / size * size % 16 == 0
  {
    var n := left / size;
    assert n * size <= left < n * size + size;
    assert n >= NODE_NUM ==> n * size >= NODE_NUM * size;
    assert n * size == 16 * (n * (size / 16));
  }

  lemma BlockSize(bs: Layout, heaps: map<int, nat>, a: int)
    requires Tiled(bs, heaps) && a in bs
    ensures bs[a].len % 16 == 0
  {
    assert Fits(a, bs[a], heaps);
  }

  lemma OtherPieces(chunk: int, size: nat, i: nat)
    requires 0 < size
    ensures forall j: nat :: j < i ==> Piece(chunk, size, j) < Piece(chunk, size, i)
    ensures forall n: nat :: i < n ==> IsPiece(Piece(chunk, size, i), chunk, size, n)
  {
    forall j: nat | j < i
      ensures Piece(chunk, size, j) < Piece(chunk, size, i)
    {
      PieceOrder(chunk, size, j, i);
    }
  }

  lemma ThreadedOne(next: map<int, int>, chunk: int, size: nat, num: nat)
    ensures ThreadedTo(next, chunk, size, num, 1)
    ensures num == 1 ==> Threaded(next, chunk, size, num)
  {
  }

  lemma ListsHead(bs: Layout, next: map<int, int>, heads: seq<int>, lists: seq<seq<int>>, k: nat)
    requires ListsOk(bs, next, heads, lists) && k < CHUNK_NUM
    ensures |heads| == |lists| == CHUNK_NUM
    ensures heads[k] == if lists[k] == [] then NULL else lists[k][0]
    ensures lists[k] == [] <==> heads[k] == NULL
  {
    assert ListOk(bs, next, heads[k], lists[k], ClassSize(k));
  }

  lemma NotTaken(bs: Layout, bs': Layout, a: int)
    requires KeepsTaken(bs, bs')
    requires a in bs' && bs'[a].kind == Raw
    requires forall b :: b in bs ==> bs[b].kind != Raw
    ensures a in bs ==> bs[a].kind == Free || bs[a].kind == Carve
  {
  }

  lemma TakenTrans(bs: Layout, bs': Layout, bs'': Layout)
    requires KeepsTaken(bs, bs') && KeepsTaken(bs', bs'')
    ensures KeepsTaken(bs, bs'')
  {
  }

  lemma ExtentsTrans(bs: Layout, bs': Layout, bs'': Layout)
    ensures SameExtents(bs, bs') && SameExtents(bs', bs'') ==> SameExtents(bs, bs'')
  {
  }

  lemma KeepsRefl(bs: Layout)
    ensures KeepsTaken(bs, bs) && SameExtents(bs, bs)
  {
  }

  lemma UseKeepsTaken(bs: Layout, p: int, kind: Kind)
    requires p in bs && bs[p].kind == Free && (kind == Live || kind == Carve)
    ensures KeepsTaken(bs, Use(bs, p, kind))
    ensures kind == Live ==> SameExtents(bs, Use(bs, p, kind))
  {
  }

  /** Turning the block just handed out into a heap_node touches no other block. */
  lemma NodeKeepsTaken(bs: Layout, bs': Layout, chunk: int)
    requires KeepsTaken(bs, bs')
    requires chunk in bs' && bs'[chunk].kind == Live
    requires chunk in bs ==> bs[chunk].kind == Free || bs[chunk].kind == Carve
    ensures KeepsTaken(bs, Use(bs', chunk, Node))
    ensures SameExtents(bs, bs') ==> SameExtents(bs, Use(bs', chunk, Node))
  {
  }

  lemma NodeKeepsLists(bs: Layout, next: map<int, int>, heads: seq<int>, lists: seq<seq<int>>, chunk: int)
    requires ListsOk(bs, next, heads, lists)
    requires chunk in bs && bs[chunk].kind == Live
    ensures ListsOk(Use(bs, chunk, Node), next, heads, lists)
  {
    hide Chain;
    var bs' := Use(bs, chunk, Node);
    forall j | 0 <= j < CHUNK_NUM
      ensures ListOk(bs', next, heads[j], lists[j], ClassSize(j))
    {
      assert ListOk(bs, next, heads[j], lists[j], ClassSize(j));
      assert forall a, size :: IsFree(bs', a, size) <==> IsFree(bs, a, size);
      ListLinked(bs, next, heads[j], lists[j], ClassSize(j));
      ListFrame(bs, bs', next, next, heads[j], lists[j], ClassSize(j));
    }
  }

  /** Linking a heap_node at the head of the heap list. */
  lemma RecordHeap(bs: Layout, heaps: map<int, nat>, mem: map<int, HeapNode>, head: int,
                   addrs: seq<int>, mems: seq<int>, chunk: int, base: int)
    requires HeapChain(mem, head, addrs, mems, heaps) && Distinct(addrs) && Distinct(mems) && AllNodes(bs, addrs)
    requires chunk in bs && bs[chunk].kind == Live && chunk != NULL
    requires base in heaps && base !in mems
    ensures HeapChain(mem[chunk := HeapNode(base, heaps[base], head)], chunk, [chunk] + addrs, [base] + mems, heaps)
    ensures Distinct([chunk] + addrs) && Distinct([base] + mems)
    ensures AllNodes(Use(bs, chunk, Node), [chunk] + addrs)
  {
    hide HeapChain, Distinct;
    assert chunk !in addrs;
    LinkHeap(heaps, mem, head, addrs, mems, chunk, base);
    DistinctPush(addrs, chunk);
    DistinctPush(mems, base);
  }

  lemma LinkHeap(heaps: map<int, nat>, mem: map<int, HeapNode>, head: int,
                 addrs: seq<int>, mems: seq<int>, chunk: int, base: int)
    requires HeapChain(mem, head, addrs, mems, heaps)
    requires chunk != NULL && chunk !in addrs && base in heaps
    ensures HeapChain(mem[chunk := HeapNode(base, heaps[base], head)], chunk, [chunk] + addrs, [base] + mems, heaps)
  {
    var addrs', mems' := [chunk] + addrs, [base] + mems;
    var mem' := mem[chunk := HeapNode(base, heaps[base], head)];
    forall i | 0 <= i < |addrs'|
      ensures addrs'[i] != NULL && addrs'[i] in mem' && mems'[i] in heaps
      ensures mem'[addrs'[i]] == HeapNode(mems'[i], heaps[mems'[i]], After(addrs', i))
    {
      if i > 0 {
        assert addrs'[i] == addrs[i - 1] && mems'[i] == mems[i - 1];
        assert After(addrs', i) == After(addrs, i - 1);
      }
    }
  }

  lemma DistinctPush(s: seq<int>, x: int)
    requires Distinct(s) && x !in s
    ensures Distinct([x] + s)
  {
  }

  lemma UseKeepsNodes(bs: Layout, addrs: seq<int>, p: int, kind: Kind)
    requires AllNodes(bs, addrs)
    requires p in bs && bs[p].kind != Node
    ensures AllNodes(Use(bs, p, kind), addrs)
  {
  }

  lemma CarveUnsettled(bs: Layout, a: int, b: Block)
    requires a !in bs && b.kind == Carve
    ensures Settled(bs[a := b]) == Settled(bs)
  {
  }

  /** A heap is entered whole, as the carve region. */
  lemma HeapEntered(bs: Layout, heaps: map<int, nat>, base: int, size: nat)
    requires Tiled(bs, heaps) && Total(bs) == Sum(heaps)
    requires 0 < base && 0 < size && size % 16 == 0 && base !in heaps && Clear(heaps, base, size)
    ensures var bs', heaps' := bs[base := Block(size, Carve, base)], heaps[base := size];
            && Tiled(bs', heaps') && Total(bs') == Sum(heaps') && Bytes(bs', Lost) == Bytes(bs, Lost)
            && Settled(bs') == Settled(bs) && KeepsTaken(bs, bs') && SameExtents(bs, bs') && base !in bs
  {
    hide Tiled, Total, Bytes, Sum, KeepsTaken, SameExtents;
    HeapKeeps(bs, heaps, base, size, Carve);
    CarveUnsettled(bs, base, Block(size, Carve, base));
    SettledKeepsTaken(bs, bs[base := Block(size, Carve, base)]);
  }

  lemma HeapChainGrows(mem: map<int, HeapNode>, head: int, addrs: seq<int>, mems: seq<int>,
                       heaps: map<int, nat>, base: int, size: nat)
    requires HeapChain(mem, head, addrs, mems, heaps)
    requires base !in heaps
    ensures HeapChain(mem, head, addrs, mems, heaps[base := size])
    ensures base !in mems
  {
  }

  lemma SettledKeepsTaken(bs: Layout, bs': Layout)
    requires Settled(bs) == Settled(bs')
    ensures KeepsTaken(bs, bs') && SameExtents(bs, bs')
  {
    forall a | a in bs && bs[a].kind != Carve && bs[a].kind != Raw
      ensures a in bs' && bs'[a] == bs[a]
    {
      assert a in Settled(bs');
    }
  }

  lemma SettledKeepsNodes(bs: Layout, bs': Layout, addrs: seq<int>)
    requires AllNodes(bs, addrs)
    requires Settled(bs) == Settled(bs')
    ensures AllNodes(bs', addrs)
  {
    forall i | 0 <= i < |addrs|
      ensures addrs[i] in bs' && bs'[addrs[i]].kind == Node
    {
      assert addrs[i] in Settled(bs');
    }
  }

  /** Taking `bytes` off the front of the carve block leaves a raw block and a shorter carve block. */
  lemma FrontTaken(bs: Layout, heaps: map<int, nat>, chunk: int, bytes: nat) returns (r: Layout)
    requires Tiled(bs, heaps)
    requires chunk in bs && bs[chunk].kind == Carve
    requires 0 < bytes <= bs[chunk].len && bytes % 16 == 0
    requires forall a :: a in bs && bs[a].kind == Carve ==> a == chunk
    requires forall a :: a in bs ==> bs[a].kind != Raw
    ensures Tiled(r, heaps) && Total(r) == Total(bs) && Bytes(r, Lost) == Bytes(bs, Lost)
    ensures Settled(r) == Settled(bs)
    ensures chunk in r && r[chunk].kind == Raw && r[chunk].len == bytes
    ensures forall a :: a in r && r[a].kind == Raw ==> a == chunk
    ensures forall a :: a in r && r[a].kind == Carve ==> a == chunk + bytes && bytes < bs[chunk].len
    ensures bytes < bs[chunk].len ==>
              chunk + bytes in r && r[chunk + bytes].kind == Carve && r[chunk + bytes].len == bs[chunk].len - bytes
  {
    hide Tiled, Total, Bytes;
    r := bs;
    if bytes < bs[chunk].len {
      SplitKeeps(bs, heaps, chunk, bytes);
      r := Split(bs, chunk, bytes);
    }
    UseKeeps(r, heaps, chunk, Raw);
    r := Use(r, chunk, Raw);
  }

  /** The free lists only look at settled blocks. */
  lemma SettledKeepsLists(bs: Layout, bs': Layout, next: map<int, int>, heads: seq<int>, lists: seq<seq<int>>)
    requires ListsOk(bs, next, heads, lists)
    requires Settled(bs) == Settled(bs')
    ensures ListsOk(bs', next, heads, lists)
  {
    forall a, size
      ensures IsFree(bs, a, size) <==> IsFree(bs', a, size)
    {
      assert IsFree(bs, a, size) ==> a in Settled(bs);
      assert IsFree(bs', a, size) ==> a in Settled(bs');
    }
    forall a | a in bs' && bs'[a].kind == Free
      ensures bs'[a].len <= MAX_CHUNK_SIZE
    {
      assert a in Settled(bs');
    }
    forall j | 0 <= j < CHUNK_NUM
      ensures ListOk(bs', next, heads[j], lists[j], ClassSize(j))
    {
      assert ListOk(bs, next, heads[j], lists[j], ClassSize(j));
      ListLinked(bs, next, heads[j], lists[j], ClassSize(j));
      ListFrame(bs, bs', next, next, heads[j], lists[j], ClassSize(j));
    }
  }

  /** At `a` there is a free block of more than `size` bytes. */
  ghost predicate Longer(bs: Layout, a: int, size: nat) {
    a in bs && bs[a].kind == Free && bs[a].len > size
  }

  lemma LongerIn(bs: Layout, a: int, size: nat)
    requires Longer(bs, a, size)
    ensures a in bs && bs[a].kind == Free && bs[a].len > size
  {
  }

  /** `p` is the head of the nearest list of a larger class that has a node. */
  ghost predicate IsNearest(lists: seq<seq<int>>, size: nat, p: int) {
    exists k :: 0 <= k < |lists| && size < ClassSize(k) && lists[k] != [] && p == lists[k][0]
                && forall j :: 0 <= j < k && size < ClassSize(j) ==> lists[j] == []
  }

  /** Only the lists of larger classes matter. */
  lemma LargerOnly(lists: seq<seq<int>>, lists': seq<seq<int>>, size: nat)
    requires |lists| == |lists'| && forall k :: 0 <= k < |lists| && size < ClassSize(k) ==> lists[k] == lists'[k]
    ensures HasLarger(lists, size) <==> HasLarger(lists', size)
    ensures forall p :: IsNearest(lists, size, p) <==> IsNearest(lists', size, p)
  {
    assert forall k :: 0 <= k < |lists| && size < ClassSize(k) ==> (lists[k] == [] <==> lists'[k] == []);
    forall p
      ensures IsNearest(lists, size, p) ==> IsNearest(lists', size, p)
      ensures IsNearest(lists', size, p) ==> IsNearest(lists, size, p)
    {
      if IsNearest(lists, size, p) {
        var k :| 0 <= k < |lists| && size < ClassSize(k) && lists[k] != [] && p == lists[k][0]
                 && forall j :: 0 <= j < k && size < ClassSize(j) ==> lists[j] == [];
        assert lists'[k] != [] && p == lists'[k][0];
      }
      if IsNearest(lists', size, p) {
        var k :| 0 <= k < |lists'| && size < ClassSize(k) && lists'[k] != [] && p == lists'[k][0]
                 && forall j :: 0 <= j < k && size < ClassSize(j) ==> lists'[j] == [];
        assert lists[k] != [] && p == lists[k][0];
      }
    }
  }

  /** The lists once the rest of the carve region, `left` bytes at `p`, is on the list of its size. */
  ghost function WithLeftover(lists: seq<seq<int>>, left: nat, p: int): (r: seq<seq<int>>)
    requires |lists| == CHUNK_NUM && left <= MAX_CHUNK_SIZE
    ensures |r| == CHUNK_NUM
  {
    if left == 0 then lists else lists[ChunkIndex(left) := [p] + lists[ChunkIndex(left)]]
  }

  lemma LeftoverLists(lists: seq<seq<int>>, left: nat, p: int, size: nat)
    requires |lists| == CHUNK_NUM && left < size <= MAX_CHUNK_SIZE && left % 16 == 0
    ensures var r := WithLeftover(lists, left, p);
            && (forall j :: 0 <= j < CHUNK_NUM && ClassSize(j) != left ==> r[j] == lists[j])
            && (HasLarger(lists, size) <==> HasLarger(r, size))
            && (forall q :: IsNearest(lists, size, q) <==> IsNearest(r, size, q))
            && (r[1] == [] <==> lists[1] == [] && left != 32)
  {
    LargerOnly(lists, WithLeftover(lists, left, p), size);
    hide HasLarger, IsNearest;
  }

  /** How many nodes a chunk has, if the carve region can serve one at all. */
  function Fitting(left: nat, size: nat): nat
    requires 0 < size
  {
    if NODE_NUM * size <= left then NODE_NUM else left / size
  }

  /** What the C library's malloc has left: all that is asked for, who knows what, or so many regions. */
  datatype Memory = Plenty | Perhaps | Only(regions: nat)

  class BasicPool {
    const memory: Memory
    const freeList: array<int>
    var next: map<int, int>          // the first word of each free node
    var heapNodes: map<int, HeapNode> // the contents of the heap_node structures
    var heapList: int
    var startFree: int
    var endFree: int
    var regions: map<int, nat>       // what the C library has handed out and not got back

    ghost var lists: seq<seq<int>>
    ghost var blocks: Layout
    ghost var heaps: map<int, nat>
    ghost var heapAddrs: seq<int>    // the heap_node structures in list order
    ghost var heapMems: seq<int>     // the heaps they record
    ghost var unrecorded: set<int>   // heaps malloc returned whose heap_node is not linked yet
    ghost var overwrites: nat        // how often refill overwrote a non-empty list
    ghost var recycled: nat          // how often a node became the carve region because malloc failed

    /** Everything but the carve region. */
    ghost predicate Inv()
      reads this`heapNodes, this`heapList, this`heapAddrs, this`heapMems, this`heaps, this`blocks, this`unrecorded
      reads this`regions, this`next, this`lists, this`overwrites, freeList
    {
      && freeList.Length == CHUNK_NUM == |lists|
      && RegionsOk()
      && Tiled(blocks, heaps)
      && Total(blocks) == Sum(heaps)
      && Bytes(blocks, Lost) == overwrites * (15 * RoundUp(HEAP_NODE_SIZE))
      && ListsOk(blocks, next, freeList[..], lists)
      && HeapsOk()
    }

    ghost predicate RegionsOk()
      reads this`regions, this`heaps
    {
      && (forall r :: r in regions ==> 0 < r)
      && (forall r, q :: r in regions && q in regions && r < q ==> r + regions[r] <= q)
      && (forall h :: h in heaps ==> h in regions && regions[h] == heaps[h])
    }

    ghost predicate HeapsOk()
      reads this`heapNodes, this`heapList, this`heapAddrs, this`heapMems, this`heaps, this`blocks, this`unrecorded
    {
      && HeapChain(heapNodes, heapList, heapAddrs, heapMems, heaps)
      && Distinct(heapAddrs)
      && Distinct(heapMems)
      && AllNodes(blocks, heapAddrs)
      && (forall h :: h in heaps <==> h in unrecorded || h in heapMems)
      && (forall h :: h in unrecorded ==> h !in heapMems)
    }

    /** The carve region is one block, or empty. */
    ghost predicate CarveOk()
      reads this`blocks, this`startFree, this`endFree
    {
      && startFree <= endFree
      && (startFree < endFree ==>
            startFree in blocks && blocks[startFree].kind == Carve && blocks[startFree].len == endFree - startFree)
      && (forall a :: a in blocks && blocks[a].kind == Carve ==> a == startFree && startFree < endFree)
    }

    ghost predicate NoRaw()
      reads this`blocks
    {
      forall a :: a in blocks ==> blocks[a].kind != Raw
    }

    ghost predicate Ready()
      reads this, freeList
    {
      Inv() && CarveOk() && NoRaw()
    }

    /** The state between two operations. */
    ghost predicate Valid()
      reads this, freeList
    {
      Ready() && unrecorded == {}
    }

    /** A request for a node of `size` bytes cannot come back empty-handed. */
    ghost predicate Servable(size: nat)
      reads this
    {
      || !MayFail()
      || endFree - startFree >= size
      || HasLarger(lists, size)
    }

    /** An upper bound on the heaps a chunk of `size`-byte nodes still needs. */
    ghost function Rank(size: nat): nat
      requires |lists| == CHUNK_NUM
      reads this
    {
      if endFree - startFree >= size then 0
      else if size > 16 || lists[1] != [] then 1
      else 2
    }

    predicate MayFail() {
      memory != Plenty
    }

    /** malloc will fail until something is given back. */
    ghost predicate Exhausted()
      reads this`regions
    {
      memory.Only? && |regions| >= memory.regions
    }

    constructor (memory: Memory)
      ensures Valid()
      ensures fresh(freeList)
      ensures this.memory == memory && regions == map[]
      ensures lists == seq(CHUNK_NUM, _ => []) && startFree == endFree
      ensures heaps == map[] && blocks == map[] && overwrites == 0 && recycled == 0
    {
      this.memory := memory;
      freeList := new int[CHUNK_NUM](_ => NULL);
      next, heapNodes, heapList := map[], map[], NULL;
      startFree, endFree, regions := NULL, NULL, map[];
      lists := seq(CHUNK_NUM, _ => []);
      blocks, heaps, heapAddrs, heapMems, unrecorded, overwrites, recycled := map[], map[], [], [], {}, 0, 0;
      new;
      assert SizesOf(blocks, Lost) == map[];
      assert Sizes(blocks) == map[];
    }

    /** The C library's malloc: any region that overlaps none it has handed out, or NULL where it may fail. */
    method Malloc(bytes: nat) returns (p: int)
      requires Inv()
      requires 0 < bytes
      modifies this`regions
      ensures !MayFail() ==> p != NULL
      ensures memory.Only? ==> (p == NULL <==> old(Exhausted()))
      ensures p == NULL ==> regions == old(regions)
      ensures p != NULL ==>
        && p > 0 && p !in old(regions) && Clear(old(regions), p, bytes) && regions == old(regions)[p := bytes]
        && p !in heaps && Clear(heaps, p, bytes)
      ensures Inv()
    {
      hide Tiled, Total, Bytes, Sum, ListsOk, HeapsOk;
      match memory {
        case Plenty =>
        case Perhaps => if * { return NULL; }
        case Only(n) => if |regions| >= n { return NULL; }
      }
      ghost var q := SomewhereClear(regions);
      assert q > 0 && q !in regions && Clear(regions, q, bytes);
      p :| p > 0 && p !in regions && Clear(regions, p, bytes);
      regions := regions[p := bytes];
    }

    /** Take the head of list `k`. */
    method Pop(k: nat, ghost kind: Kind) returns (p: int)
      requires Inv()
      requires k < CHUNK_NUM && freeList[k] != NULL
      requires kind == Live || kind == Carve
      modifies this`lists, this`blocks, freeList
      ensures Inv()
      ensures old(lists[k]) != [] && p == old(lists[k])[0] && p != NULL
      ensures lists == old(lists)[k := old(lists[k])[1..]]
      ensures p in old(blocks) && old(blocks)[p].kind == Free && old(blocks)[p].len == ClassSize(k)
      ensures blocks == Use(old(blocks), p, kind)
    {
      hide Tiled, Total, Bytes, Sum, ListsOk, RegionsOk, HeapChain, Distinct, AllNodes;
      p := freeList[k];
      PopKeepsLists(blocks, next, freeList[..], lists, k, kind);
      UseKeeps(blocks, heaps, p, kind);
      UseKeepsNodes(blocks, heapAddrs, p, kind);
      freeList[k] := next[p];
      assert freeList[..] == old(freeList[..])[k := next[p]];
      lists := lists[k := lists[k][1..]];
      blocks := Use(blocks, p, kind);
    }

    /** Put the block at `p` at the head of list `k`. */
    method Push(k: nat, p: int)
      requires Inv()
      requires k < CHUNK_NUM
      requires p in blocks && blocks[p].len == ClassSize(k)
      requires blocks[p].kind == Live || blocks[p].kind == Carve
      modifies this`lists, this`blocks, this`next, freeList
      ensures Inv()
      ensures lists == old(lists)[k := [p] + old(lists[k])]
      ensures blocks == Use(old(blocks), p, Free)
    {
      hide Total, Bytes, Sum, ListsOk, Tiled, RegionsOk, HeapChain, Distinct, AllNodes;
      NotNull(blocks, heaps, p);
      PushKeepsLists(blocks, next, freeList[..], lists, k, p);
      UseKeeps(blocks, heaps, p, Free);
      UseKeepsNodes(blocks, heapAddrs, p, Free);
      next := next[p := freeList[k]];
      freeList[k] := p;
      assert freeList[..] == old(freeList[..])[k := p];
      lists := lists[k := [p] + lists[k]];
      blocks := Use(blocks, p, Free);
    }

    /** Nothing but the free lists and the carve region has changed. */
    twostate predicate SameBooks()
      reads this
    {
      && regions == old(regions) && heaps == old(heaps) && overwrites == old(overwrites) && recycled == old(recycled)
      && heapNodes == old(heapNodes) && heapList == old(heapList)
      && heapAddrs == old(heapAddrs) && heapMems == old(heapMems) && unrecorded == old(unrecorded)
    }

    /**
     What a request that hands out `size` bytes at `a` may do to the extents of blocks: nothing, unless a node
     is recycled; and if one is, and there is no new heap, `a` is such a node, which was longer before.
    */
    twostate predicate Recycles(a: int, size: nat)
      reads this
    {
      && old(recycled) <= recycled <= old(recycled) + 1
      && (!MayFail() ==> recycled == old(recycled))
      && (recycled == old(recycled) ==> SameExtents(old(blocks), blocks))
      && (recycled != old(recycled) && heaps == old(heaps) ==> Longer(old(blocks), a, size))
    }

    /**
     Where the `size` bytes at `a` come from when their list is empty.  A carve region that can serve one node is
     all that is used.  Otherwise, without a new heap, it is the head of the nearest larger list that has one,
     which is recycled; and if there is none, it is nothing.
    */
    twostate predicate Choice(a: int, size: nat)
      reads this
    {
      && (old(endFree - startFree) >= size ==> recycled == old(recycled) && heaps == old(heaps))
      && (heaps == old(heaps) ==>
            && (recycled != old(recycled) <==> old(endFree - startFree) < size && HasLarger(old(lists), size))
            && (recycled != old(recycled) ==> IsNearest(old(lists), size, a))
            && (a == NULL <==> old(endFree - startFree) < size && !HasLarger(old(lists), size)))
      && (heaps != old(heaps) && size > 16 ==> recycled == old(recycled))
      && (old(Exhausted()) ==> heaps == old(heaps))
      && (a == NULL && size > 16 && memory.Only? ==> old(Exhausted()))
    }

    /**
     How long the region is that the nodes for a request are cut off, when their list is empty: what is left of the
     carve region if one fits, the recycled node, or the new heap without the memory of its heap_node.  For 16 bytes
     that memory may be all of a first heap; its list then serves the second heap, or gives the node to recycle.
    */
    twostate function Region(a: int, size: nat): int
      reads this
    {
      var left := old(endFree - startFree);
      if left >= size then left
      else if recycled != old(recycled) then
        if heaps == old(heaps) && a in old(blocks) then old(blocks)[a].len else RoundUp(HEAP_NODE_SIZE)
      else if size == 16 then 2 * NODE_NUM * size
      else 2 * NODE_NUM * size - if |old(lists)| > 1 && old(lists)[1] == [] && left != 32 then 512 else 0
    }

    /** How many nodes are cut off that region: as many as fit, but not more than 16. */
    twostate function Cut(a: int, size: nat): nat
      requires size > 0
      reads this
    {
      var region := Region(a, size);
      if region < 0 then 0 else Fitting(region, size)
    }

    /**
     What a request for nodes of class `k` does to the other lists, and what it leaves of the region: what the nodes
     did not take.
    */
    twostate predicate Rest(a: int, k: nat, size: nat)
      requires old(|lists|) == |lists| == CHUNK_NUM && size > 0
      reads this
    {
      && (recycled == old(recycled) ==>
            forall j :: 0 <= j < CHUNK_NUM && j != k && j != 1 && ClassSize(j) != old(endFree - startFree) ==>
              lists[j] == old(lists)[j])
      && (a != NULL ==> endFree - startFree == Region(a, size) - Cut(a, size) * size)
    }

    /** The only raw block is the `bytes` at `chunk`. */
    ghost predicate OnlyRaw(chunk: int, bytes: nat)
      reads this
    {
      && chunk in blocks && blocks[chunk].kind == Raw && blocks[chunk].len == bytes
      && forall a :: a in blocks && blocks[a].kind == Raw ==> a == chunk
    }

    /** Cut `bytes` off the front of the carve region. */
    method TakeFront(bytes: nat) returns (chunk: int)
      requires Ready()
      requires 0 < bytes <= endFree - startFree && bytes % 16 == 0
      modifies this`startFree, this`blocks
      ensures Inv() && CarveOk() && OnlyRaw(chunk, bytes)
      ensures chunk == old(startFree) && startFree == chunk + bytes && chunk != NULL
      ensures Settled(blocks) == Settled(old(blocks))
      ensures KeepsTaken(old(blocks), blocks) && SameExtents(old(blocks), blocks)
    {
      hide Tiled, Total, Bytes, ListsOk, AllNodes, HeapChain, Distinct, RegionsOk, KeepsTaken, SameExtents;
      chunk := startFree;
      NotNull(blocks, heaps, chunk);
      ghost var bs := FrontTaken(blocks, heaps, chunk, bytes);
      SettledKeepsLists(blocks, bs, next, freeList[..], lists);
      SettledKeepsNodes(blocks, bs, heapAddrs);
      SettledKeepsTaken(blocks, bs);
      blocks := bs;
      startFree := startFree + bytes;
    }

    /** Link the pieces of a fresh chunk, all but the first, into list `k`. */
    method Thread(k: nat, chunk: int, size: nat, num: nat)
      requires freeList.Length == CHUNK_NUM && k < CHUNK_NUM
      requires 0 < size && 1 < num
      modifies this`next, freeList
      ensures Threaded(next, chunk, size, num)
      ensures forall a :: a in old(next) && !IsPiece(a, chunk, size, num) ==> a in next && next[a] == old(next)[a]
      ensures freeList[..] == old(freeList[..])[k := Piece(chunk, size, 1)]
    {
      var cur, nx := NULL, chunk + size;
      assert nx == Piece(chunk, size, 1);
      freeList[k] := nx;
      assert freeList[..] == old(freeList[..])[k := nx];
      var i := 1;
      hide IsPiece, ThreadedTo;
      assert ThreadedTo(next, chunk, size, num, 1) by { ThreadedOne(next, chunk, size, num); }
      while i < num - 1
        invariant 1 <= i <= num - 1
        invariant nx == Piece(chunk, size, i)
        invariant freeList[..] == old(freeList[..])[k := Piece(chunk, size, 1)]
        invariant ThreadedTo(next, chunk, size, num, i)
        invariant forall a :: a in old(next) && !IsPiece(a, chunk, size, num) ==> a in next && next[a] == old(next)[a]
      {
        cur := nx;
        nx := cur + size;
        ThreadStep(next, chunk, size, num, i);
        assert nx == Piece(chunk, size, i + 1) == PieceAfter(chunk, size, num, i);
        next := next[cur := nx];
        i := i + 1;
      }
      ThreadStep(next, chunk, size, num, i);
      next := next[nx := NULL];
    }

    /**
     Get a chunk of nodes; hand out the first and make the others list `k`.  NULL stands for the end: without a
     chunk, because malloc failed and no larger list had a node, refill writes through the NULL pointer.
    */
    method Refill(k: nat, size: nat) returns (chunk: int)
      requires Ready()
      requires k < CHUNK_NUM && size == ClassSize(k)
      requires freeList[k] == NULL && lists[k] == []
      modifies this, freeList
      decreases Rank(size), 3
      ensures Ready() && unrecorded == old(unrecorded)
      ensures chunk == NULL ==> MayFail() && !old(Servable(size))
      ensures chunk != NULL ==>
        && chunk in blocks && blocks[chunk].kind == Live && blocks[chunk].len == size
        && (chunk in old(blocks) ==> old(blocks)[chunk].kind == Free || old(blocks)[chunk].kind == Carve)
        && overwrites == old(overwrites) + (if k == 1 && heaps != old(heaps) then 1 else 0)
      ensures KeepsTaken(old(blocks), blocks)
      ensures Recycles(chunk, size) && Choice(chunk, size)
      ensures old(|lists|) == |lists| == CHUNK_NUM && Rest(chunk, k, size)
      ensures chunk != NULL ==> |lists[k]| == Cut(chunk, size) - 1
      ensures old(heaps.Keys) <= heaps.Keys && |heaps| <= |old(heaps)| + old(Rank(size))
      ensures old(endFree - startFree) >= size ==>
        && SameBooks() && chunk == old(startFree) && endFree == old(endFree)
        && var num := Fitting(old(endFree - startFree), size);
           startFree == chunk + num * size && lists == old(lists)[k := lists[k]] && |lists[k]| == num - 1
    {
      hide CarveOk, HeapsOk, RegionsOk, Tiled, Total, Bytes, Sum, ListsOk, KeepsTaken, SameExtents,
        IsNearest, HasLarger, Servable, Longer;
      var num;
      chunk, num := ChunkAlloc(k, size);
      if chunk == NULL {
        return;
      }
      NotTaken(old(blocks), blocks, chunk);
      ghost var bs := blocks;
      ThreadRest(k, chunk, size, num);
      TakenTrans(old(blocks), bs, blocks);
      ExtentsTrans(old(blocks), bs, blocks);
    }

    /** Hand out the first node of a chunk and make the others list `k`. */
    method ThreadRest(k: nat, chunk: int, size: nat, num: nat)
      requires 0 < num && OnlyRaw(chunk, num * size)
      requires k < CHUNK_NUM && size == ClassSize(k)
      requires |lists| == CHUNK_NUM && (lists[k] == [] || (k == 1 && |lists[k]| == NODE_NUM - 1))
      requires num == 1 ==> lists[k] == []
      requires Inv() && CarveOk()
      modifies this`next, freeList, this`blocks, this`lists, this`overwrites
      ensures Ready()
      ensures chunk in blocks && blocks[chunk].kind == Live && blocks[chunk].len == size
      ensures KeepsTaken(old(blocks), blocks) && SameExtents(old(blocks), blocks)
      ensures lists == old(lists)[k := lists[k]] && |lists[k]| == num - 1
      ensures overwrites == old(overwrites) + if old(lists[k]) == [] then 0 else 1
    {
      hide Tiled, Total, Bytes, Sum, ListsOk, HeapChain, Distinct, AllNodes, RegionsOk, Threaded, IsPiece,
           KeepsTaken, SameExtents;
      ghost var before, heads := next, freeList[..];
      if num != 1 {
        Thread(k, chunk, size, num);
      } else {
        ThreadedOne(next, chunk, size, num);
        ListsHead(blocks, before, heads, lists, k);
        assert heads[k := NULL] == heads;
      }
      AdoptChunk(k, chunk, num, before, heads);
    }

    /** Account for the threaded chunk; a list filled in the meantime is overwritten, hence lost. */
    ghost method AdoptChunk(k: nat, chunk: int, num: nat, before: map<int, int>, heads: seq<int>)
      requires k < CHUNK_NUM && 0 < num && OnlyRaw(chunk, num * ClassSize(k))
      requires freeList.Length == CHUNK_NUM == |lists| && RegionsOk() && HeapsOk() && CarveOk()
      requires Tiled(blocks, heaps) && Total(blocks) == Sum(heaps)
      requires Bytes(blocks, Lost) == overwrites * (15 * RoundUp(HEAP_NODE_SIZE))
      requires ListsOk(blocks, before, heads, lists)
      requires Threaded(next, chunk, ClassSize(k), num)
      requires forall a :: a in before && !IsPiece(a, chunk, ClassSize(k), num) ==> a in next && next[a] == before[a]
      requires |heads| == CHUNK_NUM
      requires freeList[..] == heads[k := if num == 1 then NULL else Piece(chunk, ClassSize(k), 1)]
      requires lists[k] == [] || (k == 1 && |lists[k]| == NODE_NUM - 1)
      modifies this`blocks, this`lists, this`overwrites
      ensures Ready()
      ensures chunk in blocks && blocks[chunk].kind == Live && blocks[chunk].len == ClassSize(k)
      ensures KeepsTaken(old(blocks), blocks) && SameExtents(old(blocks), blocks)
      ensures lists == old(lists)[k := lists[k]] && |lists[k]| == num - 1
      ensures overwrites == old(overwrites) + if old(lists[k]) == [] then 0 else 1
    {
      hide Tiled, Total, Bytes, Sum, ListsOk, HeapChain, Distinct, AllNodes, RegionsOk, Threaded, IsPiece,
           KeepsTaken, SameExtents;
      ghost var r := RefillStep(blocks, heaps, before, next, heads, lists, heapAddrs, k, chunk, num);
      if lists[k] != [] {
        overwrites := overwrites + 1;
      }
      lists := lists[k := Nodes(chunk, ClassSize(k), num)];
      blocks := r;
    }

    /** What chunk_alloc and each of its branches promise. */
    twostate predicate Chunked(k: nat, size: nat, chunk: int, num: nat)
      requires old(|lists|) == |lists| == CHUNK_NUM && k < CHUNK_NUM && size > 0
      reads this
    {
      && (chunk == NULL ==> NoRaw() && MayFail())
      && (chunk != NULL ==> 1 <= num <= NODE_NUM && OnlyRaw(chunk, num * size) && num == Cut(chunk, size))
      && (old(Servable(size)) ==> chunk != NULL)
      && KeepsTaken(old(blocks), blocks)
      && Recycles(chunk, size) && Choice(chunk, size) && Rest(chunk, k, size)
      && unrecorded == old(unrecorded) && overwrites == old(overwrites)
      && old(heaps.Keys) <= heaps.Keys && |heaps| <= |old(heaps)| + old(Rank(size))
      && (old(lists)[k] == [] ==>
            if k == 1 && heaps != old(heaps) then |lists[k]| == NODE_NUM - 1 && num == NODE_NUM else lists[k] == [])
    }

    /**
     Cut a chunk of up to 16 nodes off the carve region, getting more memory first if not even one fits.
     NULL is returned only when malloc failed and no larger list had a node.
    */
    method ChunkAlloc(k: nat, size: nat) returns (chunk: int, num: nat)
      requires Ready()
      requires k < CHUNK_NUM && size == ClassSize(k)
      modifies this, freeList
      decreases Rank(size), 2, 1
      ensures Inv() && CarveOk()
      ensures Chunked(k, size, chunk, num)
      ensures old(endFree - startFree) >= size ==>
        && SameBooks() && lists == old(lists) && endFree == old(endFree) && chunk == old(startFree)
        && num == Fitting(old(endFree - startFree), size) && startFree == chunk + num * size
    {
      hide Tiled, Total, Bytes, Sum, ListsOk, HeapChain, Distinct, AllNodes, RegionsOk, KeepsTaken, SameExtents;
      num := NODE_NUM;
      var leftBytes := endFree - startFree;
      var totalBytes := size * num;
      if totalBytes <= leftBytes {
        chunk := TakeFront(totalBytes);
      } else if leftBytes >= size {
        num := leftBytes / size;
        totalBytes := num * size;
        DivBounds(leftBytes, size);
        chunk := TakeFront(totalBytes);
      } else {
        chunk, num := AllocAnew(k, size);
      }
    }

    /** With a node in heap_node's list, that is the one to recycle for 16 bytes. */
    lemma NearestOfThese()
      requires Ready()
      ensures |lists| > 1 && lists[1] != [] ==>
                forall a :: IsNearest(lists, 16, a) ==> a in blocks && blocks[a].len == RoundUp(HEAP_NODE_SIZE)
    {
      hide Tiled, Total, Bytes, Sum, HeapsOk, RegionsOk;
      if |lists| > 1 && lists[1] != [] {
        assert ListOk(blocks, next, freeList[..][1], lists[1], ClassSize(1));
        assert IsFree(blocks, lists[1][0], ClassSize(1));
      }
    }

    /** After more memory has been found: try again. */
    method AllocAnew(k: nat, size: nat) returns (chunk: int, num: nat)
      requires Ready()
      requires k < CHUNK_NUM && size == ClassSize(k)
      requires endFree - startFree < size
      modifies this, freeList
      decreases Rank(size), 2, 0
      ensures Inv() && CarveOk()
      ensures Chunked(k, size, chunk, num)
    {
      hide Inv, CarveOk, NoRaw, OnlyRaw, KeepsTaken, SameExtents, HasLarger, IsNearest, Longer;
      var ok := Replenish(k, size);
      if !ok {
        return NULL, NODE_NUM;
      }
      ghost var mid := blocks;
      NearestOfThese();
      label replenished:
      chunk, num := ChunkAlloc(k, size);
      TakenTrans(old(blocks), mid, blocks);
      ExtentsTrans(old(blocks), mid, blocks);
      assert chunk != NULL ==> Region(chunk, size) == Region@replenished(chunk, size);
      hide Region, Fitting;
    }

    /**
     The carve region cannot serve one more node: put its rest on a list and replace it, by a new heap
     or, where malloc fails, by a node of a larger class.
    */
    method Replenish(k: nat, size: nat) returns (ok: bool)
      requires Ready()
      requires k < CHUNK_NUM && size == ClassSize(k)
      requires endFree - startFree < size
      modifies this, freeList
      decreases Rank(size), 1
      ensures Ready() && unrecorded == old(unrecorded) && overwrites == old(overwrites)
      ensures !ok ==> MayFail() && !old(Servable(size))
      ensures ok ==> |heaps| + Rank(size) <= |old(heaps)| + old(Rank(size)) && Rank(size) < old(Rank(size))
      ensures !ok ==> heaps == old(heaps)
      ensures ok ==> Servable(size)
      ensures old(heaps.Keys) <= heaps.Keys
      ensures KeepsTaken(old(blocks), blocks)
      ensures Recycles(startFree, size) && Choice(startFree, size)
      ensures |lists| == CHUNK_NUM == old(|lists|)
      ensures recycled == old(recycled) ==>
        forall j :: 0 <= j < CHUNK_NUM && j != 1 && ClassSize(j) != old(endFree - startFree) ==>
          lists[j] == old(lists)[j]
      ensures recycled == old(recycled) && ok ==>
        endFree - startFree ==
          2 * NODE_NUM * size - if old(lists)[1] == [] && old(endFree - startFree) != 32 then 512 else 0
      ensures if recycled == old(recycled) then ok ==> !(heaps.Keys <= old(heaps.Keys))
              else ok && heaps == old(heaps) && endFree - startFree > size
      ensures recycled != old(recycled) ==>
        startFree in old(blocks) && endFree - startFree == old(blocks)[startFree].len
      ensures old(lists)[k] == [] ==>
        if k == 1 && heaps != old(heaps)
        then |lists[k]| == NODE_NUM - 1 && endFree - startFree >= NODE_NUM * size
        else lists[k] == []
    {
      hide Inv, HasLarger, KeepsTaken, SameExtents, Longer, IsNearest, WithLeftover;
      PushLeftover();
      LeftoverLists(old(lists), endFree - startFree, startFree, size);
      ghost var mid := blocks;
      ok := Fetch(size);
      TakenTrans(old(blocks), mid, blocks);
      ExtentsTrans(old(blocks), mid, blocks);
      if recycled != old(recycled) { LongerIn(old(blocks), startFree, size); }
      assert Choice(startFree, size);
      hide Choice;
      assert Recycles(startFree, size);
      hide Recycles, Exhausted;
    }

    /** A new heap, or, where malloc fails, a node of a larger class becomes the carve region. */
    method Fetch(size: nat) returns (ok: bool)
      requires Inv() && NoRaw()
      requires forall a :: a in blocks ==> blocks[a].kind != Carve
      requires 0 < size <= MAX_CHUNK_SIZE && size % 16 == 0
      modifies this, freeList
      decreases 0, 8
      ensures Ready() && unrecorded == old(unrecorded) && overwrites == old(overwrites)
      ensures old(heaps.Keys) <= heaps.Keys && KeepsTaken(old(blocks), blocks)
      ensures |lists| == CHUNK_NUM == old(|lists|)
      ensures old(Exhausted()) ==> heaps == old(heaps)
      ensures ok ==> endFree - startFree >= size || (endFree == startFree && size == 16 && HasLarger(lists, size))
      ensures endFree > startFree ==> startFree != NULL
      ensures !ok ==>
        && MayFail() && !HasLarger(old(lists), size) && (memory.Only? ==> old(Exhausted()))
        && startFree == NULL && heaps == old(heaps) && lists == old(lists) && recycled == old(recycled)
        && SameExtents(old(blocks), blocks)
      ensures ok && recycled == old(recycled) ==>
        && !(heaps.Keys <= old(heaps.Keys)) && |heaps| == |old(heaps)| + 1
        && SameExtents(old(blocks), blocks) && lists == old(lists)[1 := lists[1]]
        && endFree - startFree == 2 * NODE_NUM * size - (if old(lists)[1] == [] then 512 else 0)
        && (old(lists)[1] == [] ==> |lists[1]| == NODE_NUM - 1)
      ensures recycled != old(recycled) ==>
        && ok && MayFail() && recycled == old(recycled) + 1 && heaps == old(heaps) && endFree - startFree > size
        && HasLarger(old(lists), size) && IsNearest(old(lists), size, startFree) && startFree != NULL
        && Longer(old(blocks), startFree, size) && endFree - startFree == old(blocks)[startFree].len
        && forall k :: 0 <= k < CHUNK_NUM && ClassSize(k) <= size ==> lists[k] == old(lists)[k]
    {
      hide Tiled, Total, Bytes, Sum, ListsOk, HeapsOk, RegionsOk, NoRaw, CarveOk,
        HasLarger, KeepsTaken, SameExtents, Longer, IsNearest, ClassSize, RoundUp;
      var bytes := size * NODE_NUM * 2;
      startFree := Malloc(bytes);
      if startFree == NULL {
        KeepsRefl(blocks);
        ok := TakeLarger(size);
      } else {
        ghost var base := startFree;
        TakeHeap(bytes);
        assert base in heaps;
        NodeListServes(lists);
        ok := true;
      }
      CarveNotNull();
    }

    lemma CarveNotNull()
      requires Ready()
      ensures endFree > startFree ==> startFree != NULL
    {
      hide Tiled, Total, Bytes, Sum, ListsOk, HeapsOk, RegionsOk;
      if endFree > startFree { NotNull(blocks, heaps, startFree); }
    }

    /** Put what is left of the carve region on the list of its size. */
    method PushLeftover()
      requires Ready()
      requires endFree - startFree <= MAX_CHUNK_SIZE
      modifies this`lists, this`blocks, this`next, freeList
      ensures Inv() && NoRaw()
      ensures forall a :: a in blocks ==> blocks[a].kind != Carve
      ensures KeepsTaken(old(blocks), blocks) && SameExtents(old(blocks), blocks)
      ensures startFree <= endFree && (endFree - startFree) % 16 == 0 && old(|lists|) == CHUNK_NUM
      ensures lists == WithLeftover(old(lists), endFree - startFree, startFree)
      ensures forall a, size :: Longer(blocks, a, size) && endFree - startFree <= size ==>
        Longer(old(blocks), a, size) && blocks[a].len == old(blocks)[a].len
    {
      hide Tiled, Total, Bytes, Sum, ListsOk, HeapChain, Distinct, AllNodes, RegionsOk;
      if startFree < endFree {
        BlockSize(blocks, heaps, startFree);
        Push(ChunkIndex(endFree - startFree), startFree);
      }
    }

    /** The first node of list `i` becomes the carve region. */
    method Recycle(i: nat, n: nat)
      requires Inv() && NoRaw()
      requires forall a :: a in blocks ==> blocks[a].kind != Carve
      requires i < CHUNK_NUM && n == ClassSize(i) && freeList[i] != NULL
      modifies this`lists, this`blocks, this`startFree, this`endFree, this`recycled, freeList
      ensures Ready() && KeepsTaken(old(blocks), blocks)
      ensures recycled == old(recycled) + 1 && endFree - startFree == n
      ensures startFree in old(blocks) && old(blocks)[startFree].kind == Free && old(blocks)[startFree].len == n
      ensures |lists| == CHUNK_NUM == old(|lists|) && old(lists)[i] != []
        && startFree == old(lists)[i][0] && startFree != NULL
      ensures lists == old(lists)[i := old(lists)[i][1..]]
    {
      hide Tiled, Total, Bytes, Sum, ListsOk, HeapChain, Distinct, AllNodes, RegionsOk;
      startFree := Pop(i, Carve);
      UseKeepsTaken(old(blocks), startFree, Carve);
      endFree := startFree + n;
      recycled := recycled + 1;
    }

    /** After malloc failed: the first node of the nearest larger non-empty list becomes the carve region. */
    method TakeLarger(size: nat) returns (found: bool)
      requires Inv() && NoRaw()
      requires forall a :: a in blocks ==> blocks[a].kind != Carve
      requires 0 < size <= MAX_CHUNK_SIZE && size % 16 == 0
      requires startFree == NULL
      modifies this`lists, this`blocks, this`startFree, this`endFree, this`recycled, freeList
      ensures Ready()
      ensures KeepsTaken(old(blocks), blocks)
      ensures recycled == old(recycled) + if found then 1 else 0
      ensures found ==>
        Longer(old(blocks), startFree, size) && IsNearest(old(lists), size, startFree) && startFree != NULL
      ensures !found ==> startFree == NULL && lists == old(lists)
      ensures found <==> HasLarger(old(lists), size)
      ensures found ==> endFree - startFree > size && endFree - startFree == old(blocks)[startFree].len
      ensures !found ==> blocks == old(blocks)
      ensures |lists| == CHUNK_NUM
      ensures forall k :: 0 <= k < CHUNK_NUM && ClassSize(k) <= size ==> lists[k] == old(lists)[k]
    {
      hide Tiled, Total, Bytes, Sum, ListsOk, HeapChain, Distinct, AllNodes, RegionsOk;
      var n := size + ALIGNMENT;
      while n <= MAX_CHUNK_SIZE
        invariant size < n <= MAX_CHUNK_SIZE + 16 && n % 16 == 0
        invariant Inv() && NoRaw() && blocks == old(blocks) && lists == old(lists) && startFree == old(startFree)
        invariant recycled == old(recycled)
        invariant forall k :: 0 <= k < CHUNK_NUM && size < ClassSize(k) < n ==> lists[k] == []
      {
        var i := ChunkIndex(n);
        ListsHead(blocks, next, freeList[..], lists, i);
        if freeList[i] != NULL {
          assert forall j :: 0 <= j < i && size < ClassSize(j) ==> lists[j] == [];
          Recycle(i, n);
          assert startFree == old(lists)[i][0];
          return true;
        }
        n := n + ALIGNMENT;
      }
      assert !HasLarger(old(lists), size);
      endFree := NULL;
      return false;
    }

    /** Make the heap malloc has just returned the carve region and record it. */
    method TakeHeap(bytes: nat)
      requires Inv() && NoRaw()
      requires forall a :: a in blocks ==> blocks[a].kind != Carve
      requires bytes % 16 == 0 && bytes >= NODE_NUM * RoundUp(HEAP_NODE_SIZE)
      requires startFree > 0 && startFree !in heaps && startFree in regions && regions[startFree] == bytes
      requires Clear(heaps, startFree, bytes)
      modifies this, freeList
      decreases 0, 7
      ensures Ready() && unrecorded == old(unrecorded) && overwrites == old(overwrites) && recycled == old(recycled)
      ensures heaps == old(heaps)[old(startFree) := bytes]
      ensures KeepsTaken(old(blocks), blocks) && SameExtents(old(blocks), blocks)
      ensures |lists| == CHUNK_NUM && lists == old(lists)[1 := lists[1]]
      ensures if old(lists)[1] != [] then
          lists[1] == old(lists)[1][1..] && endFree - startFree == bytes
        else
          |lists[1]| == NODE_NUM - 1 && endFree - startFree == bytes - 512
    {
      hide Tiled, Total, Bytes, Sum, ListsOk, HeapChain, Distinct, AllNodes, RegionsOk, KeepsTaken, SameExtents;
      endFree := startFree + bytes;
      EnterHeap(bytes);
      ghost var mid := blocks;
      AddHeap(startFree, bytes);
      TakenTrans(old(blocks), mid, blocks);
      ExtentsTrans(old(blocks), mid, blocks);
    }

    /** Account for the heap malloc has just returned: it becomes the carve region. */
    ghost method EnterHeap(bytes: nat)
      requires Inv() && NoRaw()
      requires forall a :: a in blocks ==> blocks[a].kind != Carve
      requires 0 < bytes && bytes % 16 == 0
      requires startFree > 0 && endFree == startFree + bytes
      requires startFree !in heaps && startFree in regions && regions[startFree] == bytes
      requires Clear(heaps, startFree, bytes)
      modifies this`heaps, this`blocks, this`unrecorded
      ensures Ready()
      ensures heaps == old(heaps)[startFree := bytes]
      ensures KeepsTaken(old(blocks), blocks) && SameExtents(old(blocks), blocks)
      ensures unrecorded == old(unrecorded) + {startFree}
    {
      hide Tiled, Total, Bytes, Sum, Distinct, ListsOk, HeapChain, AllNodes, KeepsTaken, SameExtents, Clear;
      HeapEntered(blocks, heaps, startFree, bytes);
      ghost var bs := blocks[startFree := Block(bytes, Carve, startFree)];
      SettledKeepsLists(blocks, bs, next, freeList[..], lists);
      SettledKeepsNodes(blocks, bs, heapAddrs);
      HeapChainGrows(heapNodes, heapList, heapAddrs, heapMems, heaps, startFree, bytes);
      blocks := bs;
      heaps := heaps[startFree := bytes];
      unrecorded := unrecorded + {startFree};
    }

    /** Memory for a heap_node: a node of list 1, or the front of the carve region. */
    method NodeMemory() returns (chunk: int)
      requires Ready()
      requires endFree - startFree >= NODE_NUM * RoundUp(HEAP_NODE_SIZE)
      modifies this, freeList
      decreases 0, 5
      ensures Ready() && unrecorded == old(unrecorded)
      ensures heaps == old(heaps) && regions == old(regions)
        && overwrites == old(overwrites) && recycled == old(recycled)
      ensures chunk in blocks && blocks[chunk].kind == Live
      ensures chunk in old(blocks) ==> old(blocks)[chunk].kind == Free || old(blocks)[chunk].kind == Carve
      ensures KeepsTaken(old(blocks), blocks) && SameExtents(old(blocks), blocks)
      ensures lists == old(lists)[1 := lists[1]]
      ensures if old(lists)[1] != [] then
          lists[1] == old(lists)[1][1..] && startFree == old(startFree) && endFree == old(endFree)
        else
          |lists[1]| == NODE_NUM - 1 && startFree == old(startFree) + 512 && endFree == old(endFree)
    {
      hide Tiled, Total, Bytes, Sum, ListsOk, HeapChain, Distinct, AllNodes, RegionsOk, KeepsTaken, SameExtents,
           IsNearest, HasLarger, Servable, Longer;
      chunk := Allocate(HEAP_NODE_SIZE);
    }

    /** Record a heap in a heap_node, allocated from this very pool. */
    method AddHeap(mem: int, size: nat)
      requires Ready()
      requires mem in unrecorded && mem in heaps && heaps[mem] == size
      requires endFree - startFree >= NODE_NUM * RoundUp(HEAP_NODE_SIZE)
      modifies this, freeList
      decreases 0, 6
      ensures Ready()
      ensures heaps == old(heaps) && regions == old(regions)
        && overwrites == old(overwrites) && recycled == old(recycled)
      ensures unrecorded == old(unrecorded) - {mem}
      ensures KeepsTaken(old(blocks), blocks) && SameExtents(old(blocks), blocks)
      ensures lists == old(lists)[1 := lists[1]]
      ensures if old(lists)[1] != [] then
          lists[1] == old(lists)[1][1..] && startFree == old(startFree) && endFree == old(endFree)
        else
          |lists[1]| == NODE_NUM - 1 && startFree == old(startFree) + 512 && endFree == old(endFree)
    {
      hide Tiled, Total, Bytes, Sum, ListsOk, HeapChain, Distinct, AllNodes, RegionsOk, KeepsTaken, SameExtents;
      var chunk := NodeMemory();
      NodeKeepsTaken(old(blocks), blocks, chunk);
      ghost var before, head := heapNodes, heapList;
      heapNodes := heapNodes[chunk := HeapNode(mem, size, heapList)];
      heapList := chunk;
      AdoptNode(chunk, mem, before, head);
    }

    /** Account for a heap_node that has just been written and linked. */
    ghost method AdoptNode(chunk: int, mem: int, before: map<int, HeapNode>, head: int)
      requires freeList.Length == CHUNK_NUM == |lists| && RegionsOk() && CarveOk() && NoRaw()
      requires Tiled(blocks, heaps) && Total(blocks) == Sum(heaps)
      requires Bytes(blocks, Lost) == overwrites * (15 * RoundUp(HEAP_NODE_SIZE))
      requires ListsOk(blocks, next, freeList[..], lists)
      requires HeapChain(before, head, heapAddrs, heapMems, heaps)
      requires Distinct(heapAddrs) && Distinct(heapMems) && AllNodes(blocks, heapAddrs)
      requires forall h :: h in heaps <==> h in unrecorded || h in heapMems
      requires forall h :: h in unrecorded ==> h !in heapMems
      requires mem in unrecorded && mem in heaps
      requires chunk in blocks && blocks[chunk].kind == Live
      requires heapNodes == before[chunk := HeapNode(mem, heaps[mem], head)] && heapList == chunk
      modifies this`blocks, this`heapAddrs, this`heapMems, this`unrecorded
      ensures Ready()
      ensures unrecorded == old(unrecorded) - {mem}
      ensures blocks == Use(old(blocks), chunk, Node)
    {
      hide Tiled, Total, Bytes, Sum, ListsOk, HeapChain, Distinct, AllNodes, RegionsOk;
      NotNull(blocks, heaps, chunk);
      RecordHeap(blocks, heaps, before, head, heapAddrs, heapMems, chunk, mem);
      UseKeeps(blocks, heaps, chunk, Node);
      NodeKeepsLists(blocks, next, freeList[..], lists, chunk);
      heapAddrs := [chunk] + heapAddrs;
      heapMems := [mem] + heapMems;
      unrecorded := unrecorded - {mem};
      blocks := Use(blocks, chunk, Node);
    }

    /**
     Hand out `size` bytes: a node of the request's class, or memory straight from malloc.  NULL is the end of a
     small request that could not be served, or an answer of malloc's to a large one.
    */
    method Allocate(size: nat) returns (ptr: int)
      requires Ready()
      requires 0 < size
      modifies this, freeList
      decreases Need(size), 4
      ensures Ready() && unrecorded == old(unrecorded)
      ensures KeepsTaken(old(blocks), blocks)
      ensures Recycles(ptr, RoundUp(size))
      ensures size <= MAX_CHUNK_SIZE && old(lists)[ChunkIndex(size)] == [] ==>
        && Choice(ptr, RoundUp(size)) && old(|lists|) == |lists| == CHUNK_NUM
          && Rest(ptr, ChunkIndex(size), RoundUp(size))
        && (ptr != NULL ==> |lists[ChunkIndex(size)]| == Cut(ptr, RoundUp(size)) - 1)
      ensures size <= MAX_CHUNK_SIZE && ptr == NULL ==>
        MayFail() && old(lists)[ChunkIndex(size)] == [] && !old(Servable(RoundUp(size)))
      ensures old(heaps.Keys) <= heaps.Keys && |heaps| <= |old(heaps)| + old(Need(size))
      ensures size <= MAX_CHUNK_SIZE && ptr != NULL ==>
        && ptr in blocks && blocks[ptr].kind == Live && blocks[ptr].len == RoundUp(size)
        && (ptr in old(blocks) ==> old(blocks)[ptr].kind == Free || old(blocks)[ptr].kind == Carve)
        && overwrites == old(overwrites) + (if ChunkIndex(size) == 1 && heaps != old(heaps) then 1 else 0)
        && var k := ChunkIndex(size);
           if old(lists)[k] != [] then
             && ptr == old(lists)[k][0] && lists == old(lists)[k := old(lists)[k][1..]]
             && SameBooks() && startFree == old(startFree) && endFree == old(endFree)
           else
             old(endFree - startFree) >= RoundUp(size) ==>
               && SameBooks() && ptr == old(startFree) && endFree == old(endFree)
               && var num := Fitting(old(endFree - startFree), RoundUp(size));
                  startFree == ptr + num * RoundUp(size) && lists == old(lists)[k := lists[k]] && |lists[k]| == num - 1
      ensures size > MAX_CHUNK_SIZE ==>
        && blocks == old(blocks) && lists == old(lists) && heaps == old(heaps) && overwrites == old(overwrites)
        && (ptr == NULL ==> MayFail() && regions == old(regions))
        && (ptr != NULL ==>
              ptr !in old(regions) && Clear(old(regions), ptr, size) && regions == old(regions)[ptr := size])
    {
      hide Tiled, Total, Bytes, Sum, ListsOk, HeapChain, Distinct, AllNodes, RegionsOk, KeepsTaken, SameExtents,
        Choice, Rest, Cut, Region, Servable, Longer, HeapsOk, Clear, RoundUp, ChunkIndex;
      if size <= MAX_CHUNK_SIZE {
        var idx := ChunkIndex(size);
        RoundUpIsClassSize(size);
        ListsHead(blocks, next, freeList[..], lists, idx);
        if freeList[idx] == NULL {
          ptr := Refill(idx, RoundUp(size));
        } else {
          ptr := Pop(idx, Live);
          UseKeepsTaken(old(blocks), ptr, Live);
        }
      } else {
        ptr := Malloc(size);
        KeepsRefl(blocks);
      }
    }

    /** How many heaps the request may take. */
    ghost function Need(size: nat): nat
      requires |lists| == CHUNK_NUM
      reads this
    {
      if size == 0 || size > MAX_CHUNK_SIZE || lists[ChunkIndex(size)] != [] then 0 else Rank(RoundUp(size))
    }

    /** Take back what Allocate(size) handed out. */
    method Deallocate(ptr: int, size: nat)
      requires Ready()
      requires 0 < size
      requires size <= MAX_CHUNK_SIZE ==>
        ptr in blocks && blocks[ptr].kind == Live && blocks[ptr].len == RoundUp(size)
      requires size > MAX_CHUNK_SIZE ==> ptr in regions && ptr !in heaps
      modifies this`lists, this`blocks, this`next, this`regions, freeList
      ensures Ready()
      ensures size <= MAX_CHUNK_SIZE ==>
        && regions == old(regions)
        && blocks == Use(old(blocks), ptr, Free)
        && var k := ChunkIndex(size); lists == old(lists)[k := [ptr] + old(lists)[k]]
      ensures size > MAX_CHUNK_SIZE ==>
        regions == old(regions) - {ptr} && blocks == old(blocks) && lists == old(lists)
    {
      hide Tiled, Total, Bytes, Sum, ListsOk, HeapChain, Distinct, AllNodes;
      if size <= MAX_CHUNK_SIZE {
        RoundUpIsClassSize(size);
        Push(ChunkIndex(size), ptr);
      } else {
        regions := regions - {ptr};
      }
    }

    /** Copy the heap bases off the heap list; every node is read while its heap is still allocated. */
    method CollectHeaps() returns (mems: seq<int>)
      requires HeapChain(heapNodes, heapList, heapAddrs, heapMems, heaps)
      ensures mems == heapMems
    {
      HeapFirst(heapNodes, heapList, heapAddrs, heapMems, heaps);
      hide HeapChain;
      mems := [];
      var p := heapList;
      ghost var i := 0;
      while p != NULL
        invariant 0 <= i <= |heapAddrs| == |heapMems| && mems == heapMems[..i]
        invariant (p == NULL <==> i == |heapAddrs|) && (i < |heapAddrs| ==> p == heapAddrs[i])
        decreases |heapAddrs| - i
      {
        HeapAt(heapNodes, heapList, heapAddrs, heapMems, heaps, i);
        mems := mems + [heapNodes[p].mem];
        p := heapNodes[p].next;
        i := i + 1;
      }
    }

    /**
     Free every heap.  The heap list itself lives in the heaps, so it is read to its end, into memory
     obtained separately, before the first heap is freed.
    */
    method Release() returns (freed: seq<int>)
      requires Valid()
      modifies this`regions
      ensures freed == [] || freed == Backwards(heapMems)
      ensures regions.Keys == old(regions.Keys) - (set h | h in freed)
      ensures freed != [] ==> Distinct(freed) && forall h :: h in freed <==> h in heaps
    {
      hide Tiled, Total, Bytes, Sum, ListsOk, Distinct, RegionsOk, HeapChain, AllNodes;
      assert HeapChain(heapNodes, heapList, heapAddrs, heapMems, heaps);
      var mems := CollectHeaps();
      BackwardsSame(mems);
      if * { return []; } // no memory for the copy of the list
      freed := [];
      var n := |mems|;
      while n != 0
        invariant 0 <= n <= |mems|
        invariant freed == Backwards(mems[n..])
        invariant regions.Keys == old(regions.Keys) - (set h | h in freed)
      {
        n := n - 1;
        assert mems[n..] == [mems[n]] + mems[n + 1..];
        freed := freed + [mems[n]];
        regions := regions - {mems[n]};
      }
      assert mems[0..] == mems;
    }
  }

  ghost function Backwards(s: seq<int>): seq<int> {
    if s == [] then [] else Backwards(s[1..]) + [s[0]]
  }

  /** Reversing keeps the elements and keeps them distinct. */
  lemma {:induction false} BackwardsSame(s: seq<int>)
    ensures |Backwards(s)| == |s|
    ensures forall x :: x in Backwards(s) <==> x in s
    ensures Distinct(s) ==> Distinct(Backwards(s))
  {
    if s != [] {
      BackwardsSame(s[1..]);
      assert forall x :: x in s <==> x == s[0] || x in s[1..];
      if Distinct(s) {
        assert Distinct(s[1..]) && s[0] !in s[1..];
      }
    }
  }

  // ---------------------------------------------------------------- what every reachable state satisfies

  /** The bytes on the lists from class `k` on. */
  ghost function ListBytes(lists: seq<seq<int>>, k: nat): nat
    requires k <= |lists|
    decreases |lists| - k
  {
    if k == |lists| then 0 else |lists[k]| * ClassSize(k) + ListBytes(lists, k + 1)
  }

  ghost function FreeFrom(bs: Layout, k: nat): map<int, nat> {
    map a | a in bs && bs[a].kind == Free && bs[a].len >= ClassSize(k) :: bs[a].len
  }

  ghost function Uniform(nodes: seq<int>, size: nat): map<int, nat> {
    map a | a in nodes :: size
  }

  lemma {:induction false} SumUniform(nodes: seq<int>, size: nat)
    requires Distinct(nodes)
    ensures Sum(Uniform(nodes, size)) == |nodes| * size
  {
    hide Sum;
    if nodes == [] {
      assert Uniform(nodes, size) == map[];
      SumEmpty();
    } else {
      var tail := nodes[1..];
      assert nodes[0] !in tail;
      assert Distinct(tail) by { hide Uniform; }
      SumUniform(tail, size);
      assert Uniform(nodes, size) == Uniform(tail, size)[nodes[0] := size];
      hide Distinct, Uniform;
      SumPut(Uniform(tail, size), nodes[0], size);
      assert nodes[0] !in Uniform(tail, size) by { UniformKeys(tail, size); }
      assert |nodes| * size == |tail| * size + size;
    }
  }

  lemma UniformKeys(nodes: seq<int>, size: nat)
    ensures forall a :: a in Uniform(nodes, size) <==> a in nodes
  {
  }

  /** The free blocks of class `k` and up are the nodes of list `k` and the free blocks above. */
  lemma FreeFromSplits(bs: Layout, heaps: map<int, nat>, nodes: seq<int>, k: nat)
    requires forall a :: a in bs ==> bs[a].len % 16 == 0
    requires forall a :: a in nodes <==> IsFree(bs, a, ClassSize(k))
    requires Distinct(nodes)
    ensures Sum(FreeFrom(bs, k)) == |nodes| * ClassSize(k) + Sum(FreeFrom(bs, k + 1))
  {
    var m := FreeFrom(bs, k);
    var s := set a | a in nodes;
    hide Sum;
    SumFilter(m, s);
    SumUniform(nodes, ClassSize(k));
    hide Distinct;
    FreeFromInside(bs, nodes, k);
    FreeFromAbove(bs, nodes, k);
  }

  lemma FreeFromInside(bs: Layout, nodes: seq<int>, k: nat)
    requires forall a :: a in nodes <==> IsFree(bs, a, ClassSize(k))
    ensures var m, s := FreeFrom(bs, k), (set a | a in nodes);
            (map a | a in m && a in s :: m[a]) == Uniform(nodes, ClassSize(k))
  {
    var m, u := FreeFrom(bs, k), Uniform(nodes, ClassSize(k));
    var s := set a | a in nodes;
    var inside := map a | a in m && a in s :: m[a];
    forall a
      ensures a in inside <==> a in u
      ensures a in inside ==> inside[a] == u[a]
    {
      assert a in nodes <==> IsFree(bs, a, ClassSize(k));
    }
    assert inside == u;
  }

  lemma FreeFromAbove(bs: Layout, nodes: seq<int>, k: nat)
    requires forall a :: a in bs ==> bs[a].len % 16 == 0
    requires forall a :: a in nodes <==> IsFree(bs, a, ClassSize(k))
    ensures var m, s := FreeFrom(bs, k), (set a | a in nodes);
            m - s == FreeFrom(bs, k + 1)
  {
    forall a | a in bs && bs[a].kind == Free
      ensures bs[a].len >= ClassSize(k) && a !in nodes <==> bs[a].len >= ClassSize(k + 1)
    {
      assert a in nodes <==> IsFree(bs, a, ClassSize(k));
    }
  }

  lemma {:induction false} FreeBytesAreListBytes(bs: Layout, heaps: map<int, nat>, next: map<int, int>,
                                                 heads: seq<int>, lists: seq<seq<int>>, k: nat)
    requires Tiled(bs, heaps) && ListsOk(bs, next, heads, lists)
    requires k <= CHUNK_NUM
    ensures |lists| == CHUNK_NUM && Sum(FreeFrom(bs, k)) == ListBytes(lists, k)
    decreases CHUNK_NUM - k
  {
    hide Sum, Tiled, Chain, Distinct;
    if k == CHUNK_NUM {
      assert forall a :: a !in FreeFrom(bs, k);
      assert FreeFrom(bs, k) == map[];
      SumEmpty();
    } else {
      FreeBytesAreListBytes(bs, heaps, next, heads, lists, k + 1);
      assert ListOk(bs, next, heads[k], lists[k], ClassSize(k));
      forall a | a in bs
        ensures bs[a].len % 16 == 0
      {
        BlockSize(bs, heaps, a);
      }
      FreeFromSplits(bs, heaps, lists[k], k);
    }
  }

  /** The carve block's bytes are the distance between the two carve pointers. */
  lemma CarveBytes(bs: Layout, from: int, to: int)
    requires from <= to
    requires from < to ==> from in bs && bs[from].kind == Carve && bs[from].len == to - from
    requires forall a :: a in bs && bs[a].kind == Carve ==> a == from && from < to
    ensures Bytes(bs, Carve) == to - from
  {
    hide Sum;
    SumEmpty();
    if from < to {
      SumPut(map[], from, to - from);
      assert forall a :: a in SizesOf(bs, Carve) <==> a == from;
      assert SizesOf(bs, Carve) == map[][from := to - from];
    } else {
      NoBytes(bs, Carve);
    }
  }

  lemma NoBytes(bs: Layout, kind: Kind)
    requires forall a :: a in bs ==> bs[a].kind != kind
    ensures Bytes(bs, kind) == 0
  {
    SumEmpty();
    assert forall a :: a !in SizesOf(bs, kind);
    assert SizesOf(bs, kind) == map[];
  }

  lemma FreeBytes(bs: Layout, heaps: map<int, nat>)
    requires Tiled(bs, heaps)
    ensures Bytes(bs, Free) == Sum(FreeFrom(bs, 0))
  {
    hide Sum;
    forall a | a in bs
      ensures bs[a].len >= ClassSize(0)
    {
      assert Fits(a, bs[a], heaps);
    }
    assert SizesOf(bs, Free) == FreeFrom(bs, 0);
  }

  /**
   Every byte malloc gave the pool for its heaps is live, holds a heap_node, is on a free list, is in the
   carve region, or was lost when refill overwrote the heap_node class's list, 15 nodes at a time.
  */
  lemma Conservation(p: BasicPool)
    requires p.Valid()
    ensures Sum(p.heaps) == Bytes(p.blocks, Live) + Bytes(p.blocks, Node) + ListBytes(p.lists, 0)
                            + (p.endFree - p.startFree) + p.overwrites * (15 * RoundUp(HEAP_NODE_SIZE))
  {
    hide Sum, Bytes, Total, Tiled, ListsOk, HeapChain, FreeFrom, ListBytes;
    KindsAddUp(p.blocks);
    FreeBytes(p.blocks, p.heaps);
    FreeBytesAreListBytes(p.blocks, p.heaps, p.next, p.freeList[..], p.lists, 0);
    NoBytes(p.blocks, Raw);
    CarveBytes(p.blocks, p.startFree, p.endFree);
  }

  /** `n` bytes at `a` and `m` bytes at `b` have none in common. */
  ghost predicate Apart(a: int, n: nat, b: int, m: nat) {
    a + n <= b || b + m <= a
  }

  /** Handed out, or holding a heap_node. */
  ghost predicate InUse(bs: Layout, a: int) {
    a in bs && (bs[a].kind == Live || bs[a].kind == Node)
  }

  /** `n` bytes at `a` lie inside one heap, and in no other. */
  ghost predicate InOneHeap(heaps: map<int, nat>, a: int, n: nat) {
    exists h :: h in heaps && h <= a && a + n <= h + heaps[h]
                && forall g :: g in heaps && g != h ==> Apart(g, heaps[g], a, n)
  }

  /** Two blocks in use are disjoint. */
  lemma BlocksApart(p: BasicPool, a: int, b: int)
    requires p.Valid() && InUse(p.blocks, a) && InUse(p.blocks, b) && a != b
    ensures Apart(a, p.blocks[a].len, b, p.blocks[b].len)
  {
    hide Total, Bytes, Sum, HeapChain, ListsOk;
  }

  /** A block of the layout that is not empty lies inside one heap. */
  lemma BlockInHeap(p: BasicPool, a: int)
    requires p.Valid() && a in p.blocks
    ensures InOneHeap(p.heaps, a, p.blocks[a].len) && p.blocks[a].len % 16 == 0
  {
    hide Total, Bytes, Sum, HeapChain, ListsOk;
    assert Fits(a, p.blocks[a], p.heaps);
    var h := p.blocks[a].home;
    forall g | g in p.heaps && g != h
      ensures Apart(g, p.heaps[g], a, p.blocks[a].len)
    {
      assert g in p.regions && h in p.regions && p.regions[g] == p.heaps[g] && p.regions[h] == p.heaps[h];
    }
  }

  /** The i-th node of list `k` is a free block of the size of its class. */
  lemma NodeIsBlock(p: BasicPool, k: nat, i: nat)
    requires p.Valid() && k < |p.lists| && i < |p.lists[k]|
    ensures var n := p.lists[k][i]; n in p.blocks && p.blocks[n] == Block(16 * (k + 1), Free, p.blocks[n].home)
  {
    hide Total, Bytes, Sum, HeapChain, Chain, Tiled;
    assert ListOk(p.blocks, p.next, p.freeList[..][k], p.lists[k], ClassSize(k));
    assert IsFree(p.blocks, p.lists[k][i], ClassSize(k));
  }

  /** A list node is disjoint from every block in use and lies inside one heap. */
  lemma NodeApart(p: BasicPool, k: nat, i: nat, a: int)
    requires p.Valid() && k < |p.lists| && i < |p.lists[k]|
    ensures InUse(p.blocks, a) ==> Apart(a, p.blocks[a].len, p.lists[k][i], 16 * (k + 1))
    ensures InOneHeap(p.heaps, p.lists[k][i], 16 * (k + 1))
  {
    hide BasicPool.Valid;
    NodeIsBlock(p, k, i);
    BlockInHeap(p, p.lists[k][i]);
    if InUse(p.blocks, a) { TwoBlocks(p, a, p.lists[k][i]); }
  }

  lemma NodesDiffer(p: BasicPool, k: nat, i: nat, i': nat)
    requires p.Valid() && k < |p.lists| && i < |p.lists[k]| && i' < |p.lists[k]| && i != i'
    ensures p.lists[k][i] != p.lists[k][i']
  {
    hide Tiled, Total, Bytes, Sum, HeapChain, Chain;
    assert ListOk(p.blocks, p.next, p.freeList[..][k], p.lists[k], ClassSize(k));
    hide ListsOk;
  }

  lemma TwoBlocks(p: BasicPool, a: int, b: int)
    requires p.Valid() && a in p.blocks && b in p.blocks && a != b
    ensures Apart(a, p.blocks[a].len, b, p.blocks[b].len)
  {
    hide Total, Bytes, Sum, HeapChain, ListsOk;
  }

  /** Two list nodes are disjoint, on one list or on two. */
  lemma NodesApart(p: BasicPool, k: nat, i: nat, k': nat, i': nat)
    requires p.Valid() && k < |p.lists| && i < |p.lists[k]| && k' < |p.lists| && i' < |p.lists[k']|
    requires k != k' || i != i'
    ensures Apart(p.lists[k][i], 16 * (k + 1), p.lists[k'][i'], 16 * (k' + 1))
  {
    hide BasicPool.Valid;
    NodeIsBlock(p, k, i);
    NodeIsBlock(p, k', i');
    if k == k' { NodesDiffer(p, k, i, i'); }
    TwoBlocks(p, p.lists[k][i], p.lists[k'][i']);
  }

  /** The carve region is empty, or lies inside one heap, apart from all blocks in use and all list nodes. */
  lemma CarveApart(p: BasicPool)
    requires p.Valid()
    ensures p.startFree <= p.endFree && (p.endFree - p.startFree) % 16 == 0
    ensures p.startFree < p.endFree ==> InOneHeap(p.heaps, p.startFree, p.endFree - p.startFree)
    ensures forall a :: InUse(p.blocks, a) ==>
      p.startFree == p.endFree || Apart(a, p.blocks[a].len, p.startFree, p.endFree - p.startFree)
    ensures forall k, i :: 0 <= k < |p.lists| && 0 <= i < |p.lists[k]| ==>
              p.startFree == p.endFree || Apart(p.lists[k][i], 16 * (k + 1), p.startFree, p.endFree - p.startFree)
  {
    hide Total, Bytes, Sum, HeapChain, ListsOk;
    if p.startFree < p.endFree {
      BlockInHeap(p, p.startFree);
      forall k, i | 0 <= k < |p.lists| && 0 <= i < |p.lists[k]|
        ensures Apart(p.lists[k][i], 16 * (k + 1), p.startFree, p.endFree - p.startFree)
      {
        NodeIsBlock(p, k, i);
      }
    }
  }
}
