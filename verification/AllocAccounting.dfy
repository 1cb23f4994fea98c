/** The byte counters of the memory profiler: every live block is counted, under its size cut
    to 32 bits, at the table position of the backtrace that allocated it.  Each method has one
    atomic effect on the counters, so any interleaving of threads is a sequence of calls. */
module AllocAccounting {
  import opened Common

  type Ptr(==, !new) = nat   // 0 is the null pointer

  datatype Block = Block(size: int, htPos: nat, data: seq<bv8>)

  /** `static_cast<std::int32_t>` of a size_t */
  function ToInt32(n: nat): (r: int)
    ensures -0x8000_0000 <= r < 0x8000_0000 && (n - r) % 0x1_0000_0000 == 0
    ensures r <= n && (r == n <==> n < 0x8000_0000)
  {
    (n + 0x8000_0000) % 0x1_0000_0000 - 0x8000_0000
  }

  /** What position p must show for these blocks. */
  ghost function LiveAt(blocks: map<Ptr, Block>, p: nat): int
    decreases |blocks|
  {
    if blocks == map[] then 0
    else
      var k :| k in blocks;
      Share(blocks[k], p) + LiveAt(blocks - {k}, p)
  }

  ghost function Live(blocks: map<Ptr, Block>): int
    decreases |blocks|
  {
    if blocks == map[] then 0
    else
      var k :| k in blocks;
      blocks[k].size + Live(blocks - {k})
  }

  function Share(b: Block, p: nat): int {
    if b.htPos == p then b.size else 0
  }

  lemma {:induction false} LiveAtRemove(blocks: map<Ptr, Block>, k: Ptr, p: nat)
    requires k in blocks
    ensures LiveAt(blocks, p) == Share(blocks[k], p) + LiveAt(blocks - {k}, p)
    decreases |blocks|
  {
    var j :| j in blocks && LiveAt(blocks, p) == Share(blocks[j], p) + LiveAt(blocks - {j}, p);
    if j != k {
      LiveAtRemove(blocks - {j}, k, p);
      LiveAtRemove(blocks - {k}, j, p);
      assert blocks - {j} - {k} == blocks - {k} - {j};
    }
  }

  lemma {:induction false} LiveRemove(blocks: map<Ptr, Block>, k: Ptr)
    requires k in blocks
    ensures Live(blocks) == blocks[k].size + Live(blocks - {k})
    decreases |blocks|
  {
    var j :| j in blocks && Live(blocks) == blocks[j].size + Live(blocks - {j});
    if j != k {
      LiveRemove(blocks - {j}, k);
      LiveRemove(blocks - {k}, j);
      assert blocks - {j} - {k} == blocks - {k} - {j};
    }
  }

  lemma {:induction false} LiveAtNonNegative(blocks: map<Ptr, Block>, p: nat)
    requires forall k | k in blocks :: blocks[k].size >= 0
    ensures LiveAt(blocks, p) >= 0
    decreases |blocks|
  {
    if blocks != map[] {
      var k :| k in blocks;
      LiveAtRemove(blocks, k, p);
      LiveAtNonNegative(blocks - {k}, p);
    }
  }

  ghost predicate Accounts(sizes: seq<int>, blocks: map<Ptr, Block>) {
    && (forall k | k in blocks :: k != 0 && blocks[k].size >= 0 && blocks[k].htPos < |sizes|)
    && (forall p | 0 <= p < |sizes| :: sizes[p] == LiveAt(blocks, p))
    && Sum(sizes) == Live(blocks)
  }

  lemma AddAccounts(sizes: seq<int>, blocks: map<Ptr, Block>, k: Ptr, b: Block)
    requires Accounts(sizes, blocks) && k != 0 && k !in blocks && b.size >= 0 && b.htPos < |sizes|
    ensures Accounts(sizes[b.htPos := sizes[b.htPos] + b.size], blocks[k := b])
  {
    var more := blocks[k := b];
    assert more - {k} == blocks;
    LiveRemove(more, k);
    SumChange(sizes, b.htPos, b.size);
    forall p | 0 <= p < |sizes| ensures LiveAt(more, p) == Share(b, p) + LiveAt(blocks, p) {
      LiveAtRemove(more, k, p);
    }
  }

  /** A block can always be taken off its counter: the counter holds at least the block. */
  lemma RemoveAccounts(sizes: seq<int>, blocks: map<Ptr, Block>, k: Ptr)
    requires Accounts(sizes, blocks) && k in blocks
    ensures var b := blocks[k];
      sizes[b.htPos] >= b.size && Accounts(sizes[b.htPos := sizes[b.htPos] - b.size], blocks - {k})
  {
    var b, less := blocks[k], blocks - {k};
    LiveRemove(blocks, k);
    SumChange(sizes, b.htPos, -b.size);
    LiveAtNonNegative(less, b.htPos);
    forall p | 0 <= p < |sizes| ensures LiveAt(blocks, p) == Share(b, p) + LiveAt(less, p) {
      LiveAtRemove(blocks, k, p);
    }
  }

  class MemoryProfile {
    const sizes: array<int>
    var blocks: map<Ptr, Block>

    ghost predicate Valid() reads this, sizes {
      Accounts(sizes[..], blocks) && forall k | k in blocks :: blocks[k].size <= |blocks[k].data|
    }

    constructor (m: nat)
      ensures Valid() && fresh(sizes) && sizes.Length == m && blocks == map[]
    {
      sizes := new int[m](_ => 0);
      blocks := map[];
      new;
      SumConst(sizes[..], 0);
    }

    /** Fails where the source aborts: when the size cut to 32 bits is negative.  `ptr` and
        `data` are what the C library returned. */
    method Malloc(requested: nat, htPos: nat, ptr: Ptr, data: seq<bv8>) returns (ok: bool)
      requires Valid() && ptr != 0 && ptr !in blocks && |data| == requested && htPos < sizes.Length
      modifies this, sizes
      ensures Valid()
      ensures ok <==> ToInt32(requested) >= 0
      ensures ok ==> blocks == old(blocks)[ptr := Block(ToInt32(requested), htPos, data)]
      ensures !ok ==> blocks == old(blocks)
    {
      var info := Block(ToInt32(requested), htPos, data);
      if info.size < 0 {
        return false;
      }
      AddAccounts(sizes[..], blocks, ptr, info);
      ghost var before := sizes[..];
      sizes[htPos] := sizes[htPos] + info.size;
      assert sizes[..] == before[htPos := before[htPos] + info.size];
      blocks := blocks[ptr := info];
      return true;
    }

    /** Never fails its assertion that the counter is large enough. */
    method Free(ptr: Ptr)
      requires Valid() && (ptr == 0 || ptr in blocks)
      modifies this, sizes
      ensures Valid() && blocks == old(blocks) - {ptr}
    {
      if ptr == 0 {
        return;
      }
      var info := blocks[ptr];
      RemoveAccounts(sizes[..], blocks, ptr);
      ghost var before := sizes[..];
      var oldValue := sizes[info.htPos];
      sizes[info.htPos] := oldValue - info.size;
      assert oldValue >= info.size;
      assert sizes[..] == before[info.htPos := before[info.htPos] - info.size];
      blocks := blocks - {ptr};
    }

    /** The new block starts with the bytes of the old one, as far as both reach. */
    method Realloc(ptr: Ptr, requested: nat, htPos: nat, newPtr: Ptr, data: seq<bv8>) returns (ok: bool)
      requires Valid() && (ptr == 0 || ptr in blocks) && htPos < sizes.Length
      requires newPtr != 0 && newPtr !in blocks && |data| == requested
      modifies this, sizes
      ensures Valid()
      ensures ok <==> ToInt32(requested) >= 0
      ensures ok ==>
        && newPtr in blocks && blocks == (old(blocks) - {ptr})[newPtr := blocks[newPtr]]
        && blocks[newPtr].size == ToInt32(requested) && blocks[newPtr].htPos == htPos
        && |blocks[newPtr].data| == requested
        && (ptr in old(blocks) ==>
          forall i | 0 <= i < blocks[newPtr].size && i < old(blocks)[ptr].size ::
            blocks[newPtr].data[i] == old(blocks)[ptr].data[i])
    {
      ok := Malloc(requested, htPos, newPtr, data);
      if ptr == 0 || !ok {
        assert ok ==> blocks == (old(blocks) - {ptr})[newPtr := blocks[newPtr]];
        return;
      }
      var info, fresh' := blocks[ptr], blocks[newPtr];
      var toCopy := if fresh'.size < info.size then fresh'.size else info.size;
      CopyKeeps(sizes[..], blocks, newPtr, info.data[..toCopy] + data[toCopy..]);
      blocks := blocks[newPtr := fresh'.(data := info.data[..toCopy] + data[toCopy..])];
      Free(ptr);
    }

    /** Sums the counters that are not zero. */
    method GetUsedMemorySize() returns (res: int)
      requires Valid()
      ensures res == Live(blocks)
    {
      res := 0;
      var i := 0;
      while i < sizes.Length
        invariant 0 <= i <= sizes.Length && res == Sum(sizes[..i])
      {
        assert sizes[..i + 1][..i] == sizes[..i];
        if sizes[i] != 0 {
          res := res + sizes[i];
        }
        i := i + 1;
      }
      assert sizes[..i] == sizes[..];
    }
  }

  /** The bytes of a block are not accounted. */
  lemma CopyKeeps(sizes: seq<int>, blocks: map<Ptr, Block>, k: Ptr, data: seq<bv8>)
    requires Accounts(sizes, blocks) && k in blocks
    ensures Accounts(sizes, blocks[k := blocks[k].(data := data)])
  {
    var b, less := blocks[k], blocks - {k};
    RemoveAccounts(sizes, blocks, k);
    var s := sizes[b.htPos := sizes[b.htPos] - b.size];
    AddAccounts(s, less, k, b.(data := data));
    assert s[b.htPos := s[b.htPos] + b.size] == sizes;
    assert less[k := b.(data := data)] == blocks[k := b.(data := data)];
  }
}
