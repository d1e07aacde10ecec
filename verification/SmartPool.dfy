/**
 mem/smart_pool: a pool whose `free` takes no size.  It remembers the size of every address it has handed
 out in a map whose entries are never erased and never overwritten.
*/
module SmartPool {
  import opened Layouts
  import opened BasicPool

  /** The remembered sizes are stale in general, but always of the class the block still has. */
  ghost predicate SizesOk(sizes: map<int, nat>, bs: Layout) {
    forall a :: a in sizes ==>
      && 0 < sizes[a] <= MAX_CHUNK_SIZE
      && a in Settled(bs)
      && bs[a].len == RoundUp(sizes[a])
  }

  /** Stale entries survive everything the pool does as long as no block changes its extent. */
  lemma SizesSurvive(sizes: map<int, nat>, bs: Layout, bs': Layout)
    requires SizesOk(sizes, bs)
    requires SameExtents(bs, bs')
    ensures SizesOk(sizes, bs')
  {
  }

  class SmartPool {
    const pool: BasicPool
    var sizes: map<int, nat>
    ghost var large: nat // how many requests went past the lists to malloc

    ghost predicate Valid()
      reads this, pool, pool.freeList
    {
      && pool.Valid()
      && (forall a :: a in sizes ==> 0 < sizes[a])
      && (Sound() ==> SizesOk(sizes, pool.blocks))
    }

    /** No node has been recycled, and no address remembered that is not the pool's. */
    ghost predicate Sound()
      reads this, pool
    {
      pool.recycled == 0 && large == 0
    }

    /** The size remembered for `ptr` is of what is there: a live block, or a region of the C library's. */
    ghost predicate Right(ptr: int)
      requires ptr in sizes
      reads this, pool
    {
      if sizes[ptr] <= MAX_CHUNK_SIZE
      then ptr in pool.blocks && pool.blocks[ptr].kind == Live && pool.blocks[ptr].len == RoundUp(sizes[ptr])
      else ptr in pool.regions && ptr !in pool.heaps && ptr !in pool.blocks
    }

    constructor (memory: Memory)
      ensures Valid() && fresh(pool) && fresh(pool.freeList) && pool.memory == memory && pool.regions == map[]
      ensures pool.lists == seq(CHUNK_NUM, _ => []) && pool.startFree == pool.endFree && pool.heaps == map[]
      ensures sizes == map[] && Sound()
    {
      pool := new BasicPool(memory);
      sizes, large := map[], 0;
    }

    /**
     Hand out `size` bytes; `insertFails` is a failing insertion into the map of sizes.  The size remembered for
     the address is right as long as no node was ever recycled and no request went past the lists.  In a request
     to which malloc gives no new heap it becomes wrong exactly if the list of its class is empty, the carve
     region cannot serve one node, and the address, the head of the nearest larger list, was given out before.
    */
    method Malloc(size: nat, insertFails: bool) returns (ptr: int)
      requires Valid()
      requires 0 < size
      modifies this`sizes, this`large, pool, pool.freeList
      ensures Valid()
      ensures ptr != NULL ==> sizes == if ptr in old(sizes) then old(sizes) else old(sizes)[ptr := size]
      ensures ptr == NULL ==> insertFails || pool.MayFail()
      ensures ptr == NULL && size <= MAX_CHUNK_SIZE ==> sizes == old(sizes)
      ensures large == old(large) + if size <= MAX_CHUNK_SIZE then 0 else 1
      ensures ptr != NULL && size <= MAX_CHUNK_SIZE ==>
        && ptr in pool.blocks && pool.blocks[ptr].kind == Live && pool.blocks[ptr].len == RoundUp(size)
        && (ptr in old(pool.blocks) ==> old(pool.blocks)[ptr].kind == Free || old(pool.blocks)[ptr].kind == Carve)
      ensures ptr != NULL && Sound() ==> Right(ptr)
      ensures ptr != NULL && size <= MAX_CHUNK_SIZE && old(Sound()) && pool.heaps == old(pool.heaps) ==>
        (Right(ptr) <==>
           old(pool.lists[ChunkIndex(size)]) != []
             || old(pool.endFree - pool.startFree) >= RoundUp(size) || ptr !in old(sizes))
      ensures pool.recycled == old(pool.recycled) ==> SameExtents(old(pool.blocks), pool.blocks)
      ensures !insertFails && size <= MAX_CHUNK_SIZE && old(pool.lists[ChunkIndex(size)]) == [] ==>
        && pool.Choice(ptr, RoundUp(size))
        && |pool.lists| == CHUNK_NUM == old(|pool.lists|) && pool.Rest(ptr, ChunkIndex(size), RoundUp(size))
        && (ptr != NULL ==> |pool.lists[ChunkIndex(size)]| == pool.Cut(ptr, RoundUp(size)) - 1)
      ensures !pool.MayFail() ==> pool.recycled == old(pool.recycled)
      ensures KeepsTaken(old(pool.blocks), pool.blocks)
    {
      hide Tiled, Total, Bytes, Sum, ListsOk, HeapChain, AllNodes,
        Distinct, SameExtents, KeepsTaken, SizesOk, IsNearest, HasLarger,
        RoundUp, ChunkIndex, BasicPool.CarveOk, BasicPool.NoRaw, BasicPool.HeapsOk;
      ptr := pool.Allocate(size);
      if Sound() { SizesSurvive(sizes, old(pool.blocks), pool.blocks); }
      if size > MAX_CHUNK_SIZE {
        large := large + 1;
        KeepsRefl(pool.blocks);
      } else if ptr != NULL {
        Remembered(sizes, old(pool.blocks), pool.blocks, old(pool.recycled + large), pool.recycled + large, ptr, size);
        FreeKeeps(old(pool.blocks), pool.blocks, ptr);
      }
      if ptr == NULL && size <= MAX_CHUNK_SIZE {
        // the pool has not come this far
      } else if insertFails {
        TakeBack(ptr, size);
        ptr := NULL;
      } else {
        Insert(ptr, size);
      }
    }

    /** insert: an address that is there keeps the size it has. */
    method Insert(p: int, size: nat)
      requires Valid() && 0 < size
      requires Sound() && p !in sizes ==> SizesOk(sizes[p := size], pool.blocks)
      modifies this`sizes
      ensures Valid() && sizes == if p in old(sizes) then old(sizes) else old(sizes)[p := size]
    {
      hide SizesOk;
      if p !in sizes {
        sizes := sizes[p := size];
      }
    }

    /** An insertion that failed, also for an address that is there: the memory goes back. */
    method TakeBack(p: int, size: nat)
      requires Valid() && 0 < size
      requires size <= MAX_CHUNK_SIZE ==>
        p in pool.blocks && pool.blocks[p].kind == Live && pool.blocks[p].len == RoundUp(size)
      requires size > MAX_CHUNK_SIZE ==> p == NULL || (p in pool.regions && p !in pool.heaps)
      modifies pool`lists, pool`blocks, pool`next, pool`regions, pool.freeList
      ensures Valid()
      ensures pool.blocks == if size <= MAX_CHUNK_SIZE then Use(old(pool.blocks), p, Free) else old(pool.blocks)
    {
      hide Tiled, Total, Bytes, Sum, ListsOk, HeapChain, AllNodes, Distinct;
      if size <= MAX_CHUNK_SIZE || p != NULL { // free(NULL) does nothing
        pool.Deallocate(p, size);
      }
    }

    /** Return `ptr` to where its remembered size says: to the list of its own class, if all has been sound. */
    method FreePtr(ptr: int)
      requires Valid()
      requires ptr in sizes
      requires Right(ptr) || (Sound() && ptr in pool.blocks && pool.blocks[ptr].kind == Live)
      modifies pool`lists, pool`blocks, pool`next, pool`regions, pool.freeList
      ensures Valid()
      ensures sizes[ptr] > MAX_CHUNK_SIZE ==>
        pool.regions == old(pool.regions) - {ptr} && pool.blocks == old(pool.blocks) && pool.lists == old(pool.lists)
      ensures sizes[ptr] <= MAX_CHUNK_SIZE ==>
        && pool.regions == old(pool.regions) && pool.blocks == Use(old(pool.blocks), ptr, Free)
        && var k := ChunkIndex(sizes[ptr]);
           && ClassSize(k) == old(pool.blocks)[ptr].len && k < |old(pool.lists)|
           && pool.lists == old(pool.lists)[k := [ptr] + old(pool.lists)[k]]
    {
      hide Tiled, Total, Bytes, Sum, HeapChain, AllNodes, Distinct, Chain;
      if sizes[ptr] <= MAX_CHUNK_SIZE { RoundUpIsClassSize(sizes[ptr]); }
      pool.Deallocate(ptr, sizes[ptr]);
    }
  }

  /** A remembered size and a new request for the same address fall into one class. */
  lemma SameClass(sizes: map<int, nat>, bs: Layout, ptr: int, size: nat)
    requires SizesOk(sizes, bs)
    requires 0 < size <= MAX_CHUNK_SIZE
    requires ptr in bs && bs[ptr].len == RoundUp(size)
    ensures ptr in sizes ==> ChunkIndex(sizes[ptr]) == ChunkIndex(size)
  {
    if ptr in sizes {
      RoundUpIsClassSize(size);
      RoundUpIsClassSize(sizes[ptr]);
    }
  }

  lemma FreeKeeps(bs: Layout, bs': Layout, ptr: int)
    requires KeepsTaken(bs, bs')
    requires ptr in bs' && bs'[ptr].kind == Live
    requires ptr in bs ==> bs[ptr].kind == Free || bs[ptr].kind == Carve
    ensures KeepsTaken(bs, Use(bs', ptr, Free))
    ensures SameExtents(bs, bs') ==> SameExtents(bs, Use(bs', ptr, Free))
  {
  }

  /** What a request means for the size remembered for the address it returns. */
  lemma Remembered(sizes: map<int, nat>, bs: Layout, bs': Layout, before: nat, after: nat, ptr: int, size: nat)
    requires 0 < size <= MAX_CHUNK_SIZE && before <= after && ptr in bs'
      && bs'[ptr].kind == Live && bs'[ptr].len == RoundUp(size)
    requires before == 0 ==> SizesOk(sizes, bs)
    requires after == before ==> SameExtents(bs, bs')
    ensures after == 0 ==> SizesOk(sizes, bs') && (ptr in sizes ==> ChunkIndex(sizes[ptr]) == ChunkIndex(size))
    ensures after == 0 ==> SizesOk(sizes[ptr := size], bs')
    ensures ptr in sizes && before == 0 && Longer(bs, ptr, RoundUp(size)) ==> ChunkIndex(sizes[ptr]) > ChunkIndex(size)
  {
    if after == 0 {
      SizesSurvive(sizes, bs, bs');
      SameClass(sizes, bs', ptr, size);
    }
    if ptr in sizes && before == 0 && Longer(bs, ptr, RoundUp(size)) {
      RoundUpIsClassSize(size);
      RoundUpIsClassSize(sizes[ptr]);
    }
  }

  /** A pool whose only heap has been used up for the first request. */
  method FirstBlock() returns (s: SmartPool, p: int)
    ensures fresh(s) && fresh(s.pool) && fresh(s.pool.freeList)
    ensures s.Valid() && s.Sound() && s.pool.Exhausted()
    ensures p != NULL && p in s.pool.blocks && s.pool.blocks[p].kind == Live && p in s.sizes && s.sizes[p] == 32
    ensures |s.pool.lists| == CHUNK_NUM && s.pool.lists[0] == [] && s.pool.startFree == s.pool.endFree
  {
    hide IsNearest, HasLarger, SizesOk, BasicPool.Valid, SmartPool.Valid, SameExtents, KeepsTaken, Longer;
    s := new SmartPool(Only(1));
    NoneLarger(s.pool.lists, 32);
    p := s.Malloc(32, false);
    HeapsAreRegions(s, p);
  }

  /** The block is taken back. */
  method FreedBlock() returns (s: SmartPool, p: int)
    ensures fresh(s) && fresh(s.pool) && fresh(s.pool.freeList)
    ensures s.Valid() && s.Sound() && s.pool.Exhausted() && p != NULL && p in s.sizes && s.sizes[p] == 32
    ensures |s.pool.lists| == CHUNK_NUM && s.pool.lists[0] == [] && s.pool.startFree == s.pool.endFree
    ensures s.pool.lists[1] != [] && s.pool.lists[1][0] == p
  {
    hide SizesOk, BasicPool.Valid, SmartPool.Valid;
    s, p := FirstBlock();
    s.FreePtr(p);
  }

  /**
   The run: a block of 32 bytes is given out and taken back, then malloc has nothing left.  The next 16 bytes are
   at the same address, for which 32 is remembered.
  */
  method StaleSize() returns (s: SmartPool, p: int, q: int)
    ensures s.Valid() && p != NULL && q == p
    ensures p in s.sizes && s.sizes[p] == 32 && !s.Right(p)
  {
    hide IsNearest, HasLarger, SizesOk, BasicPool.Valid, SmartPool.Valid, SameExtents, KeepsTaken;
    s, p := FreedBlock();
    NearestIsSecond(s.pool.lists, p);
    q := s.Malloc(16, false);
  }

  lemma NoneLarger(lists: seq<seq<int>>, size: nat)
    requires forall k :: 0 <= k < |lists| ==> lists[k] == []
    ensures !HasLarger(lists, size)
  {
  }

  lemma NearestIsSecond(lists: seq<seq<int>>, p: int)
    requires |lists| > 1 && lists[1] != [] && lists[1][0] == p
    ensures HasLarger(lists, 16) && forall q :: IsNearest(lists, 16, q) ==> q == p
  {
    assert 16 < ClassSize(1);
  }

  lemma HeapsAreRegions(s: SmartPool, p: int)
    requires s.Valid() && p in s.pool.blocks
    ensures |s.pool.regions| >= 1
  {
    hide Total, Bytes, ListsOk, HeapChain, SizesOk;
    var pool := s.pool;
    assert Fits(p, pool.blocks[p], pool.heaps);
    assert pool.blocks[p].home in pool.regions;
  }
}
