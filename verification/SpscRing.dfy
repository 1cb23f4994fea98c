/** The single-producer single-consumer ring of `BufferQueue`: 1024 slots, 32-bit indices that
    wrap around, and on each side a cached copy of the other side's index. */
module SpscRing {

  const SIZE := 1024
  const WORD := 0x1_0000_0000

  type Index = i: nat | i < WORD

  function Inc(i: Index): Index { (i + 1) % WORD }

  function Minus(i: int, j: int): Index { (i - j) % WORD }

  /** All fields of the queue.  `writerIndex` and `readerIndex` are the shared atomics, the
      other four indices belong to one side each. */
  datatype Ring = Ring(slots: seq<int>, writerIndex: Index, readerIndex: Index,
                       writerLocalWrite: Index, writerLocalRead: Index,
                       readerLocalRead: Index, readerLocalWrite: Index)
  {
    predicate ReaderEmpty() { readerLocalWrite == readerLocalRead }

    predicate WriterEmpty() { writerLocalWrite == (writerLocalRead + SIZE) % WORD }

    function ReaderReady(): Index { Minus(readerLocalWrite, readerLocalRead) }

    function WriterReady(): Index { Minus(writerLocalRead + SIZE, writerLocalWrite) }

    function GetUnsafe(): (Ring, int)
      requires |slots| == SIZE
    {
      (this.(readerLocalRead := Inc(readerLocalRead)), slots[readerLocalRead % SIZE])
    }

    function FlushReader(): Ring { this.(readerIndex := readerLocalRead) }

    function UpdateReader(): Ring { this.(readerLocalWrite := writerIndex) }

    function PutUnsafe(v: int): Ring
      requires |slots| == SIZE
    {
      this.(slots := slots[writerLocalWrite % SIZE := v], writerLocalWrite := Inc(writerLocalWrite))
    }

    function FlushWriter(): Ring { this.(writerIndex := writerLocalWrite) }

    function UpdateWriter(): Ring { this.(writerLocalRead := readerIndex) }
  }

  /** What happened so far: the values put and got, and the unwrapped counts behind the
      two shared and the two cached indices. */
  datatype History = History(puts: seq<int>, gots: seq<int>, published: nat, released: nat,
                             seenPublished: nat, seenReleased: nat)

  ghost predicate Counts(h: History) {
    h.seenReleased <= h.released <= |h.gots| <= h.seenPublished <= h.published <= |h.puts| <= h.seenReleased + SIZE
  }

  ghost predicate Indices(r: Ring, h: History) {
    && r.writerIndex == h.published % WORD
    && r.readerIndex == h.released % WORD
    && r.writerLocalWrite == |h.puts| % WORD
    && r.writerLocalRead == h.seenReleased % WORD
    && r.readerLocalRead == |h.gots| % WORD
    && r.readerLocalWrite == h.seenPublished % WORD
  }

  /** Every value put and not yet released by the reader is still in its slot. */
  ghost predicate SlotsHold(r: Ring, h: History)
    requires |r.slots| == SIZE
  {
    forall k | h.released <= k < |h.puts| :: r.slots[k % SIZE] == h.puts[k]
  }

  ghost predicate RingInv(r: Ring, h: History) {
    && |r.slots| == SIZE && Counts(h) && Indices(r, h) && SlotsHold(r, h)
    && h.gots == h.puts[..|h.gots|]
  }

  // --- 32-bit arithmetic ---

  lemma WrappedDifference(a: nat, b: nat)
    requires b <= a <= b + SIZE
    ensures Minus(a % WORD, b % WORD) == a - b
    ensures a % WORD == b % WORD <==> a == b
  {
  }

  lemma WrappedRoom(a: nat, b: nat)
    requires b <= a <= b + SIZE
    ensures Minus(b % WORD + SIZE, a % WORD) == b + SIZE - a
    ensures a % WORD == (b % WORD + SIZE) % WORD <==> a == b + SIZE
  {
  }

  lemma WrappedSlot(k: nat)
    ensures (k % WORD) % SIZE == k % SIZE
  {
    WholeTurns(k / WORD * (WORD / SIZE), k % WORD);
  }

  lemma WholeTurns(q: int, r: int)
    ensures (q * SIZE + r) % SIZE == r % SIZE
  {
  }

  lemma WrappedNext(k: nat)
    ensures Inc(k % WORD) == (k + 1) % WORD
  {
  }

  lemma SameSlot(j: nat, k: nat)
    requires j % SIZE == k % SIZE && j <= k < j + SIZE
    ensures j == k
  {
  }

  // --- what the local tests mean ---

  /** The four tests say what they are for, whatever the indices wrapped to: how many values
      the reader may read and the writer may write by what each of them has seen. */
  lemma TestsExact(r: Ring, h: History)
    requires RingInv(r, h)
    ensures r.ReaderEmpty() <==> |h.gots| == h.seenPublished
    ensures r.ReaderReady() == h.seenPublished - |h.gots| <= SIZE
    ensures r.WriterEmpty() <==> |h.puts| == h.seenReleased + SIZE
    ensures r.WriterReady() == h.seenReleased + SIZE - |h.puts| <= SIZE
  {
    WrappedDifference(h.seenPublished, |h.gots|);
    WrappedRoom(|h.puts|, h.seenReleased);
  }

  // --- the six atomic steps keep the invariant ---

  lemma PutKeeps(r: Ring, h: History, v: int)
    requires RingInv(r, h) && !r.WriterEmpty()
    ensures RingInv(r.PutUnsafe(v), h.(puts := h.puts + [v]))
  {
    TestsExact(r, h);
    WrappedSlot(|h.puts|);
    WrappedNext(|h.puts|);
    var r', h' := r.PutUnsafe(v), h.(puts := h.puts + [v]);
    forall k | h.released <= k < |h'.puts| ensures r'.slots[k % SIZE] == h'.puts[k] {
      if k < |h.puts| && k % SIZE == |h.puts| % SIZE {
        SameSlot(k, |h.puts|);
      }
    }
  }

  /** The value read is the next one put: no unwritten and no overwritten slot is read. */
  lemma GetKeeps(r: Ring, h: History)
    requires RingInv(r, h) && !r.ReaderEmpty()
    ensures |h.gots| < h.published && r.GetUnsafe().1 == h.puts[|h.gots|]
    ensures RingInv(r.GetUnsafe().0, h.(gots := h.gots + [r.GetUnsafe().1]))
  {
    TestsExact(r, h);
    WrappedSlot(|h.gots|);
    WrappedNext(|h.gots|);
    assert r.slots[|h.gots| % SIZE] == h.puts[|h.gots|];
  }

  lemma FlushWriterKeeps(r: Ring, h: History)
    requires RingInv(r, h)
    ensures RingInv(r.FlushWriter(), h.(published := |h.puts|))
  {
  }

  lemma FlushReaderKeeps(r: Ring, h: History)
    requires RingInv(r, h)
    ensures RingInv(r.FlushReader(), h.(released := |h.gots|))
  {
  }

  lemma UpdateWriterKeeps(r: Ring, h: History)
    requires RingInv(r, h)
    ensures RingInv(r.UpdateWriter(), h.(seenReleased := h.released))
  {
  }

  lemma UpdateReaderKeeps(r: Ring, h: History)
    requires RingInv(r, h)
    ensures RingInv(r.UpdateReader(), h.(seenPublished := h.published))
  {
  }

  /** The queue object.  Each method is one atomic step of one side, so any interleaving of
      the two threads is a sequence of these calls; what a side tests before a call reads
      only the indices that side owns. */
  class BufferQueue {
    const q: array<int>
    var writerIndex: Index
    var readerIndex: Index
    var writerLocalWrite: Index
    var writerLocalRead: Index
    var readerLocalRead: Index
    var readerLocalWrite: Index
    ghost var history: History

    ghost function Snapshot(): Ring reads this, q {
      Ring(q[..], writerIndex, readerIndex, writerLocalWrite, writerLocalRead, readerLocalRead, readerLocalWrite)
    }

    ghost predicate Valid() reads this, q {
      RingInv(Snapshot(), history)
    }

    constructor ()
      ensures Valid() && fresh(q) && history == History([], [], 0, 0, 0, 0)
    {
      q := new int[SIZE];
      writerIndex, readerIndex := 0, 0;
      writerLocalWrite, writerLocalRead := 0, 0;
      readerLocalRead, readerLocalWrite := 0, 0;
      history := History([], [], 0, 0, 0, 0);
    }

    method PutUnsafe(v: int)
      requires Valid() && !Snapshot().WriterEmpty()
      modifies this`writerLocalWrite, this`history, q
      ensures Valid() && Snapshot() == old(Snapshot()).PutUnsafe(v)
      ensures history == old(history).(puts := old(history).puts + [v])
    {
      PutKeeps(Snapshot(), history, v);
      q[writerLocalWrite % SIZE] := v;
      writerLocalWrite := Inc(writerLocalWrite);
      history := history.(puts := history.puts + [v]);
      assert Snapshot() == old(Snapshot()).PutUnsafe(v);
    }

    method FlushWriter()
      requires Valid()
      modifies this`writerIndex, this`history
      ensures Valid() && Snapshot() == old(Snapshot()).FlushWriter()
      ensures history == old(history).(published := |old(history).puts|)
    {
      FlushWriterKeeps(Snapshot(), history);
      writerIndex := writerLocalWrite;
      history := history.(published := |history.puts|);
    }

    method UpdateWriter() returns (ready: nat)
      requires Valid()
      modifies this`writerLocalRead, this`history
      ensures Valid() && Snapshot() == old(Snapshot()).UpdateWriter()
      ensures history == old(history).(seenReleased := old(history).released)
      ensures ready == SIZE - (|history.puts| - history.released)
    {
      UpdateWriterKeeps(Snapshot(), history);
      writerLocalRead := readerIndex;
      history := history.(seenReleased := history.released);
      TestsExact(Snapshot(), history);
      ready := Minus(writerLocalRead + SIZE, writerLocalWrite);
    }

    method GetUnsafe() returns (v: int)
      requires Valid() && !Snapshot().ReaderEmpty()
      modifies this`readerLocalRead, this`history
      ensures Valid() && (Snapshot(), v) == old(Snapshot()).GetUnsafe()
      ensures history == old(history).(gots := old(history).gots + [v])
      ensures |old(history).gots| < |old(history).puts| && v == old(history).puts[|old(history).gots|]
    {
      GetKeeps(Snapshot(), history);
      v := q[readerLocalRead % SIZE];
      readerLocalRead := Inc(readerLocalRead);
      history := history.(gots := history.gots + [v]);
    }

    method FlushReader()
      requires Valid()
      modifies this`readerIndex, this`history
      ensures Valid() && Snapshot() == old(Snapshot()).FlushReader()
      ensures history == old(history).(released := |old(history).gots|)
    {
      FlushReaderKeeps(Snapshot(), history);
      readerIndex := readerLocalRead;
      history := history.(released := |history.gots|);
    }

    method UpdateReader() returns (ready: nat)
      requires Valid()
      modifies this`readerLocalWrite, this`history
      ensures Valid() && Snapshot() == old(Snapshot()).UpdateReader()
      ensures history == old(history).(seenPublished := old(history).published)
      ensures ready == history.published - |history.gots|
    {
      UpdateReaderKeeps(Snapshot(), history);
      readerLocalWrite := writerIndex;
      history := history.(seenPublished := history.published);
      TestsExact(Snapshot(), history);
      ready := Minus(readerLocalWrite, readerLocalRead);
    }
  }
}
