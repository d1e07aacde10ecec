/**
 Exact accounting of the memory a pool owns.

 A layout maps the start address of every block the pool has cut out of its heaps to the block's
 length, its current use and the base of the heap it lies in.  Every pool operation is one of three
 layout changes: a new heap appears, a block changes its use, or a block is split in two.
*/
module Layouts {
  /** What a block is used for. `Raw` only exists while a fresh chunk is being threaded. */
  datatype Kind =
    | Live   // handed out to a caller
    | Node   // holds a heap_node, the pool's own bookkeeping
    | Free   // on a free list
    | Lost   // unreachable: the list it was on has been overwritten
    | Carve  // the region between start_free_ and end_free_
    | Raw

  datatype Block = Block(len: nat, kind: Kind, home: int)

  type Layout = map<int, Block>

  /** Block `b` at address `a` lies inside the heap it came from. */
  ghost predicate Fits(a: int, b: Block, heaps: map<int, nat>) {
    && 0 < a
    && 0 < b.len
    && b.len % 16 == 0
    && b.home in heaps
    && b.home <= a
    && a + b.len <= b.home + heaps[b.home]
  }

  /** Every block lies inside one heap and no two blocks overlap. */
  ghost predicate Tiled(bs: Layout, heaps: map<int, nat>) {
    && (forall a :: a in bs ==> Fits(a, bs[a], heaps))
    && (forall a, b :: a in bs && b in bs && a < b ==> a + bs[a].len <= b)
  }

  ghost function Use(bs: Layout, a: int, kind: Kind): Layout
    requires a in bs
  {
    bs[a := bs[a].(kind := kind)]
  }

  /** Cut `n` bytes off the front of block `a`; the rest keeps its use. */
  ghost function Split(bs: Layout, a: int, n: nat): Layout
    requires a in bs
    requires 0 < n < bs[a].len
  {
    bs[a := bs[a].(len := n)][a + n := bs[a].(len := bs[a].len - n)]
  }

  // ---------------------------------------------------------------- sums over finite maps

  lemma NonEmptyHasKey(m: map<int, nat>)
    requires m != map[]
    ensures exists k :: k in m
  {
    assert (forall k :: k !in m) ==> m == map[];
  }

  ghost function Sum(m: map<int, nat>): nat
    decreases |m|
  {
    if m == map[] then 0 else
      NonEmptyHasKey(m);
      var k :| k in m;
      m[k] + Sum(m - {k})
  }

  lemma SumEmpty()
    ensures Sum(map[]) == 0
  {
  }

  /** The sum does not depend on which key is taken first. */
  lemma {:induction false} SumAny(m: map<int, nat>, k: int)
    requires k in m
    ensures Sum(m) == m[k] + Sum(m - {k})
    decreases |m|
  {
    var j :| j in m && Sum(m) == m[j] + Sum(m - {j});
    if j != k {
      SumAny(m - {j}, k);
      SumAny(m - {k}, j);
      assert m - {j} - {k} == m - {k} - {j};
    }
  }

  lemma SumPut(m: map<int, nat>, k: int, v: nat)
    ensures Sum(m[k := v]) == Sum(m) - (if k in m then m[k] else 0) + v
  {
    hide Sum;
    SumAny(m[k := v], k);
    assert m[k := v] - {k} == m - {k};
    if k in m { SumAny(m, k); } else { assert m - {k} == m; }
  }

  /** Splitting a map by a predicate on its keys splits the sum. */
  lemma {:induction false} SumFilter(m: map<int, nat>, s: set<int>)
    ensures Sum(m) == Sum(map a | a in m && a in s :: m[a]) + Sum(m - s)
    decreases |m|
  {
    var inside := map a | a in m && a in s :: m[a];
    if m != map[] {
      NonEmptyHasKey(m);
      var k :| k in m;
      SumAny(m, k);
      SumFilter(m - {k}, s);
      var inside' := map a | a in m - {k} && a in s :: (m - {k})[a];
      if k in s {
        SumAny(inside, k);
        assert inside - {k} == inside';
        assert m - {k} - s == m - s;
      } else {
        SumAny(m - s, k);
        assert inside == inside';
        assert m - {k} - s == m - s - {k};
      }
    } else {
      assert inside == map[];
      assert m - s == m;
    }
  }

  // ---------------------------------------------------------------- bytes of a layout

  ghost function Sizes(bs: Layout): map<int, nat> {
    map a | a in bs :: bs[a].len
  }

  ghost function SizesOf(bs: Layout, kind: Kind): map<int, nat> {
    map a | a in bs && bs[a].kind == kind :: bs[a].len
  }

  ghost function Total(bs: Layout): nat {
    Sum(Sizes(bs))
  }

  /** The number of bytes in use as `kind`. */
  ghost function Bytes(bs: Layout, kind: Kind): nat {
    Sum(SizesOf(bs, kind))
  }

  lemma TotalPut(bs: Layout, a: int, b: Block)
    ensures Total(bs[a := b]) == Total(bs) - (if a in bs then bs[a].len else 0) + b.len
  {
    hide Sum;
    SumPut(Sizes(bs), a, b.len);
    assert Sizes(bs[a := b]) == Sizes(bs)[a := b.len];
  }

  lemma BytesPut(bs: Layout, a: int, b: Block, kind: Kind)
    ensures Bytes(bs[a := b], kind)
         == Bytes(bs, kind)
            - (if a in bs && bs[a].kind == kind then bs[a].len else 0)
            + (if b.kind == kind then b.len else 0)
  {
    hide Sum;
    var m, m' := SizesOf(bs, kind), SizesOf(bs[a := b], kind);
    assert m - {a} == m' - {a};
    if a in m { SumAny(m, a); } else { assert m - {a} == m; }
    if a in m' { SumAny(m', a); } else { assert m' - {a} == m'; }
  }

  /** The bytes of one kind and the bytes of everything else make up the total. */
  lemma TotalSplits(bs: Layout, kind: Kind)
    ensures Total(bs) == Bytes(bs, kind) + Total(Without(bs, kind))
    ensures forall k :: k != kind ==> Bytes(Without(bs, kind), k) == Bytes(bs, k)
    ensures Bytes(Without(bs, kind), kind) == 0
  {
    hide Sum;
    var s := set a | a in bs && bs[a].kind == kind;
    SumFilter(Sizes(bs), s);
    assert SizesOf(bs, kind) == map a | a in Sizes(bs) && a in s :: Sizes(bs)[a];
    assert Sizes(Without(bs, kind)) == Sizes(bs) - s;
    forall k | k != kind
      ensures Bytes(Without(bs, kind), k) == Bytes(bs, k)
    {
      OthersStay(bs, kind, k);
    }
    assert SizesOf(Without(bs, kind), kind) == map[];
    SumEmpty();
  }

  lemma OthersStay(bs: Layout, kind: Kind, k: Kind)
    requires k != kind
    ensures Bytes(Without(bs, kind), k) == Bytes(bs, k)
  {
    hide Sum;
    assert SizesOf(Without(bs, kind), k) == SizesOf(bs, k);
  }

  ghost function Without(bs: Layout, kind: Kind): Layout {
    map a | a in bs && bs[a].kind != kind :: bs[a]
  }

  /** The six kinds account for every byte. */
  lemma KindsAddUp(bs: Layout)
    ensures Total(bs) == Bytes(bs, Live) + Bytes(bs, Node) + Bytes(bs, Free)
                         + Bytes(bs, Lost) + Bytes(bs, Carve) + Bytes(bs, Raw)
  {
    hide Sum;
    var b1 := Without(bs, Live);
    var b2 := Without(b1, Node);
    var b3 := Without(b2, Free);
    var b4 := Without(b3, Lost);
    var b5 := Without(b4, Carve);
    var b6 := Without(b5, Raw);
    TotalSplits(bs, Live);
    TotalSplits(b1, Node);
    TotalSplits(b2, Free);
    TotalSplits(b3, Lost);
    TotalSplits(b4, Carve);
    TotalSplits(b5, Raw);
    assert forall a :: a in b6 ==> false;
    assert Sizes(b6) == map[];
  }

  // ---------------------------------------------------------------- the three layout changes

  lemma UseKeeps(bs: Layout, heaps: map<int, nat>, a: int, kind: Kind)
    requires Tiled(bs, heaps)
    requires a in bs
    ensures Tiled(Use(bs, a, kind), heaps)
    ensures Total(Use(bs, a, kind)) == Total(bs)
    ensures kind != Lost && bs[a].kind != Lost ==> Bytes(Use(bs, a, kind), Lost) == Bytes(bs, Lost)
    ensures kind == Lost && bs[a].kind != Lost ==> Bytes(Use(bs, a, kind), Lost) == Bytes(bs, Lost) + bs[a].len
  {
    hide Total, Bytes;
    TotalPut(bs, a, bs[a].(kind := kind));
    BytesPut(bs, a, bs[a].(kind := kind), Lost);
  }

  /** Splitting keeps the tiling and every byte: the second half is a new block. */
  lemma SplitKeeps(bs: Layout, heaps: map<int, nat>, a: int, n: nat)
    requires Tiled(bs, heaps)
    requires a in bs
    requires 0 < n < bs[a].len
    requires n % 16 == 0
    ensures a + n !in bs
    ensures Tiled(Split(bs, a, n), heaps)
    ensures Total(Split(bs, a, n)) == Total(bs)
    ensures bs[a].kind != Lost ==> Bytes(Split(bs, a, n), Lost) == Bytes(bs, Lost)
  {
    hide Total, Bytes;
    SplitTiled(bs, heaps, a, n);
    var front := bs[a].(len := n);
    var rest := bs[a].(len := bs[a].len - n);
    TotalPut(bs, a, front);
    TotalPut(bs[a := front], a + n, rest);
    BytesPut(bs, a, front, Lost);
    BytesPut(bs[a := front], a + n, rest, Lost);
  }

  lemma SplitTiled(bs: Layout, heaps: map<int, nat>, a: int, n: nat)
    requires Tiled(bs, heaps)
    requires a in bs
    requires 0 < n < bs[a].len
    requires n % 16 == 0
    ensures a + n !in bs
    ensures Tiled(Split(bs, a, n), heaps)
  {
    var r := Split(bs, a, n);
    forall b | b in r
      ensures Fits(b, r[b], heaps)
    {
      assert Fits(a, bs[a], heaps);
      assert b in bs ==> Fits(b, bs[b], heaps);
    }
    forall b, c | b in r && c in r && b < c
      ensures b + r[b].len <= c
    {
      if b in bs && c in bs {
        assert b + bs[b].len <= c;
      } else if b in bs {
        assert b < a ==> b + bs[b].len <= a;
        if a < b { assert false; }
      } else {
        assert a + bs[a].len <= c;
      }
    }
  }

  /** A heap that overlaps no other heap overlaps no block; it enters the accounts as one block. */
  lemma HeapKeeps(bs: Layout, heaps: map<int, nat>, base: int, size: nat, kind: Kind)
    requires Tiled(bs, heaps)
    requires Total(bs) == Sum(heaps)
    requires 0 < base && 0 < size && size % 16 == 0
    requires base !in heaps
    requires forall h :: h in heaps ==> h + heaps[h] <= base || base + size <= h
    requires kind != Lost
    ensures base !in bs
    ensures Tiled(bs[base := Block(size, kind, base)], heaps[base := size])
    ensures Total(bs[base := Block(size, kind, base)]) == Sum(heaps[base := size])
    ensures Bytes(bs[base := Block(size, kind, base)], Lost) == Bytes(bs, Lost)
  {
    hide Total, Bytes;
    forall a | a in bs
      ensures a + bs[a].len <= base || base + size <= a
    {
      assert Fits(a, bs[a], heaps);
    }
    SumPut(heaps, base, size);
    TotalPut(bs, base, Block(size, kind, base));
    BytesPut(bs, base, Block(size, kind, base), Lost);
  }

  // ---------------------------------------------------------------- cutting a chunk into nodes

  /** The i-th of the equal pieces a chunk is cut into. */
  function Piece(chunk: int, size: nat, i: nat): int {
    chunk + i * size
  }

  ghost predicate IsPiece(b: int, chunk: int, size: nat, n: nat) {
    exists i :: 0 <= i < n && b == Piece(chunk, size, i)
  }

  /** Cut the chunk at `a` into `n` pieces of `size` bytes, all of use `kind`. */
  ghost function Cut(bs: Layout, a: int, size: nat, n: nat, kind: Kind): (r: Layout)
    requires 0 < size && 0 < n
    requires a in bs && bs[a].len == n * size
    ensures bs.Keys <= r.Keys
    decreases n
  {
    if n == 1 then Use(bs, a, kind)
    else
      PieceSmaller(size, n);
      Cut(Use(Split(bs, a, size), a, kind), a + size, size, n - 1, kind)
  }

  lemma PieceSmaller(size: nat, n: nat)
    requires 0 < size && 1 < n
    ensures 0 < size < n * size
    ensures n * size - size == (n - 1) * size
  {
  }

  /** Cutting keeps the tiling and every byte. */
  lemma {:induction false} CutKeeps(bs: Layout, heaps: map<int, nat>, a: int, size: nat, n: nat, kind: Kind)
    requires 0 < size && size % 16 == 0 && 0 < n
    requires Tiled(bs, heaps)
    requires a in bs && bs[a].len == n * size
    requires kind != Lost && bs[a].kind != Lost
    ensures Tiled(Cut(bs, a, size, n, kind), heaps)
    ensures Total(Cut(bs, a, size, n, kind)) == Total(bs)
    ensures Bytes(Cut(bs, a, size, n, kind), Lost) == Bytes(bs, Lost)
    decreases n
  {
    hide Tiled, Total, Bytes;
    if n == 1 {
      UseKeeps(bs, heaps, a, kind);
    } else {
      PieceSmaller(size, n);
      SplitKeeps(bs, heaps, a, size);
      UseKeeps(Split(bs, a, size), heaps, a, kind);
      CutKeeps(Use(Split(bs, a, size), a, kind), heaps, a + size, size, n - 1, kind);
    }
  }

  /** Cutting leaves every other block as it was and yields exactly the n pieces. */
  lemma {:induction false} CutPieces(bs: Layout, heaps: map<int, nat>, a: int, size: nat, n: nat, kind: Kind)
    requires 0 < size && size % 16 == 0 && 0 < n
    requires Tiled(bs, heaps)
    requires a in bs && bs[a].len == n * size
    ensures forall b :: b in Cut(bs, a, size, n, kind) <==> b in bs || IsPiece(b, a, size, n)
    ensures forall b :: b in bs && b != a ==> !IsPiece(b, a, size, n) && Cut(bs, a, size, n, kind)[b] == bs[b]
    ensures forall b :: IsPiece(b, a, size, n) ==> Cut(bs, a, size, n, kind)[b] == Block(size, kind, bs[a].home)
    decreases n
  {
    hide Tiled, Fits;
    assert Piece(a, size, 0) == a;
    if n == 1 {
      assert forall b :: IsPiece(b, a, size, 1) <==> b == a;
    } else {
      PieceSmaller(size, n);
      SplitTiled(bs, heaps, a, size);
      var bs1 := Split(bs, a, size);
      assert Tiled(Use(bs1, a, kind), heaps) by { UseKeeps(bs1, heaps, a, kind); }
      CutPieces(Use(bs1, a, kind), heaps, a + size, size, n - 1, kind);
      forall b
        ensures IsPiece(b, a, size, n) <==> b == a || IsPiece(b, a + size, size, n - 1)
      {
        PieceStep(b, a, size, n);
      }
      assert IsPiece(a + size, a + size, size, n - 1) by { assert Piece(a + size, size, 0) == a + size; }
    }
  }

  lemma PieceStep(b: int, a: int, size: nat, n: nat)
    requires 0 < size && 1 < n
    ensures IsPiece(b, a, size, n) <==> b == a || IsPiece(b, a + size, size, n - 1)
  {
    assert Piece(a, size, 0) == a;
    if IsPiece(b, a, size, n) {
      var i :| 0 <= i < n && b == Piece(a, size, i);
      if i > 0 { assert b == Piece(a + size, size, i - 1); }
    }
    if IsPiece(b, a + size, size, n - 1) {
      var i :| 0 <= i < n - 1 && b == Piece(a + size, size, i);
      assert b == Piece(a, size, i + 1);
    }
  }

  // ---------------------------------------------------------------- losing an overwritten list

  /** Mark the blocks of a list as lost. */
  ghost function Lose(bs: Layout, nodes: seq<int>): Layout {
    map a | a in bs :: if a in nodes then bs[a].(kind := Lost) else bs[a]
  }

  /** Losing a list of `|nodes|` distinct blocks of `size` bytes loses exactly that many bytes. */
  lemma {:induction false} LoseKeeps(bs: Layout, heaps: map<int, nat>, nodes: seq<int>, size: nat)
    requires Tiled(bs, heaps)
    requires forall i :: 0 <= i < |nodes| ==> nodes[i] in bs && bs[nodes[i]].kind == Free && bs[nodes[i]].len == size
    requires forall i, j :: 0 <= i < j < |nodes| ==> nodes[i] != nodes[j]
    ensures Tiled(Lose(bs, nodes), heaps)
    ensures Total(Lose(bs, nodes)) == Total(bs)
    ensures Bytes(Lose(bs, nodes), Lost) == Bytes(bs, Lost) + |nodes| * size
  {
    hide Tiled, Total, Bytes;
    if nodes == [] {
      assert Lose(bs, nodes) == bs;
    } else {
      var bs1 := Use(bs, nodes[0], Lost);
      UseKeeps(bs, heaps, nodes[0], Lost);
      LoseKeeps(bs1, heaps, nodes[1..], size);
      assert Lose(bs, nodes) == Lose(bs1, nodes[1..]);
    }
  }
}
