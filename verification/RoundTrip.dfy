/** Storing GPU blocks to files and loading them back, from any starting block, byte for byte. */
module RoundTrip {
  import opened OrderedKeys
  import opened Transfer

  type Byte = b: int | 0 <= b < 256

  /** Contents of all addresses. */
  type Memory = int -> Byte

  // ---------- Batched copies ----------

  function CopyOne(m: Memory, e: Entry): Memory {
    a => if e.dst <= a < e.dst + e.size then m(a - e.dst + e.src) else m(a)
  }

  /** The regions of a batch, copied one after the other. */
  function CopyBatch(m: Memory, es: seq<Entry>): Memory {
    if es == [] then m else CopyOne(CopyBatch(m, es[..|es| - 1]), es[|es| - 1])
  }

  /** Two address ranges share no address. */
  predicate Apart(a: int, n: nat, b: int, m: nat) {
    a + n <= b || b + m <= a || n == 0 || m == 0
  }

  /** No entry writes where another one writes, nor where any one reads. */
  ghost predicate Independent(es: seq<Entry>) {
    && (forall i, j :: 0 <= i < j < |es| ==> Apart(es[i].dst, es[i].size, es[j].dst, es[j].size))
    && (forall i, j :: 0 <= i < |es| && 0 <= j < |es| ==> Apart(es[i].dst, es[i].size, es[j].src, es[j].size))
  }

  lemma {:induction false} CopyBatchElsewhere(m: Memory, es: seq<Entry>, a: int)
    requires forall i :: 0 <= i < |es| ==> !(es[i].dst <= a < es[i].dst + es[i].size)
    ensures CopyBatch(m, es)(a) == m(a)
  {
    if es != [] {
      CopyBatchElsewhere(m, es[..|es| - 1], a);
    }
  }

  lemma IndependentPrefix(es: seq<Entry>, n: nat)
    requires Independent(es) && n <= |es|
    ensures Independent(es[..n])
  {
  }

  /** An independent batch puts at every destination what its source held before the batch. */
  lemma {:induction false} CopyBatchAt(m: Memory, es: seq<Entry>, i: nat, t: nat)
    requires Independent(es) && i < |es| && t < es[i].size
    ensures CopyBatch(m, es)(es[i].dst + t) == m(es[i].src + t)
  {
    var n := |es| - 1;
    var before, e := es[..n], es[n];
    IndependentPrefix(es, n);
    if i < n {
      CopyBatchAt(m, before, i, t);
      assert Apart(es[i].dst, es[i].size, e.dst, e.size);
      assert !(e.dst <= es[i].dst + t < e.dst + e.size);
    } else {
      forall k | 0 <= k < |before| ensures !(before[k].dst <= e.src + t < before[k].dst + before[k].size) {
        assert Apart(es[k].dst, es[k].size, es[n].src, es[n].size);
      }
      CopyBatchElsewhere(m, before, e.src + t);
      assert CopyOne(CopyBatch(m, before), e)(e.dst + t) == CopyBatch(m, before)(e.src + t);
    }
  }

  // ---------- Indexing the entries ----------

  lemma {:induction false} EntryAt(y: Layout, mapping: seq<(int, int)>, slot: int, toGpu: bool, layers: nat, l: nat, k: nat)
    requires y.Valid() && l < layers <= |y.bytes| && k < |mapping|
    ensures l * |mapping| + k < |Entries(y, mapping, slot, toGpu, layers)|
    ensures Entries(y, mapping, slot, toGpu, layers)[l * |mapping| + k] == EntryOf(y, mapping[k], slot, toGpu, l)
  {
    hide EntryOf;
    EntriesCount(y, mapping, slot, toGpu, layers - 1);
    if l < layers - 1 {
      EntryAt(y, mapping, slot, toGpu, layers - 1, l, k);
    }
  }

  /** Every entry belongs to some row of some layer. */
  lemma {:induction false} RowOf(y: Layout, mapping: seq<(int, int)>, slot: int, toGpu: bool, layers: nat, i: nat)
    returns (l: nat, k: nat)
    requires y.Valid() && layers <= |y.bytes| && i < |Entries(y, mapping, slot, toGpu, layers)|
    ensures l < layers && k < |mapping| && i == l * |mapping| + k
    ensures Entries(y, mapping, slot, toGpu, layers)[i] == EntryOf(y, mapping[k], slot, toGpu, l)
  {
    hide EntryOf;
    var before := Entries(y, mapping, slot, toGpu, layers - 1);
    EntriesCount(y, mapping, slot, toGpu, layers - 1);
    if i < |before| {
      l, k := RowOf(y, mapping, slot, toGpu, layers - 1, i);
    } else {
      l, k := layers - 1, i - |before|;
    }
  }

  // ---------- Address space ----------

  /** The staging buffer (of `slots` slots) and the layers' tensors (of `blocks` blocks each) are
      separate allocations. */
  ghost predicate Separate(y: Layout, blocks: nat, slots: nat) {
    && y.Valid()
    && (forall l :: 0 <= l < |y.bytes| ==>
          Apart(y.gpu[l], blocks * y.bytes[l], y.staging, slots * SlotBytes(y.factor, y.bytes)))
    && (forall l, l' :: 0 <= l < l' < |y.bytes| ==>
          Apart(y.gpu[l], blocks * y.bytes[l], y.gpu[l'], blocks * y.bytes[l']))
  }

  lemma GpuRange(y: Layout, blocks: nat, l: nat, id: int)
    requires y.Valid() && l < |y.bytes| && 0 <= id < blocks
    ensures y.gpu[l] <= y.GpuPtr(l, id) && y.GpuPtr(l, id) + y.bytes[l] <= y.gpu[l] + blocks * y.bytes[l]
  {
    Scaled(id + 1, blocks, y.bytes[l]);
    NextMultiple(id, y.bytes[l]);
  }

  lemma StagingRange(y: Layout, slots: nat, slot: nat, l: nat, r: nat)
    requires y.Valid() && slot < slots && l < |y.bytes| && r < y.factor
    ensures y.staging + slot * SlotBytes(y.factor, y.bytes) <= y.StagingPtr(slot, l, r)
    ensures y.StagingPtr(slot, l, r) + y.bytes[l] <= y.staging + (slot + 1) * SlotBytes(y.factor, y.bytes)
    ensures 0 <= slot * SlotBytes(y.factor, y.bytes)
    ensures (slot + 1) * SlotBytes(y.factor, y.bytes) == slot * SlotBytes(y.factor, y.bytes) + SlotBytes(y.factor, y.bytes)
    ensures (slot + 1) * SlotBytes(y.factor, y.bytes) <= slots * SlotBytes(y.factor, y.bytes)
  {
    Scaled(slot + 1, slots, SlotBytes(y.factor, y.bytes));
    NextMultiple(slot, SlotBytes(y.factor, y.bytes));
    OffsetsOrdered(y.factor, y.bytes, l, |y.bytes|);
    assert y.bytes[..|y.bytes|] == y.bytes;
    Scaled(r + 1, y.factor, y.bytes[l]);
    NextMultiple(r, y.bytes[l]);
  }

  lemma GpuBlocksApart(y: Layout, blocks: nat, slots: nat, l: nat, id: int, l': nat, id': int)
    requires y.Valid() && Separate(y, blocks, slots) && l < |y.bytes| && l' < |y.bytes|
    requires 0 <= id < blocks && 0 <= id' < blocks && (l != l' || id != id')
    ensures Apart(y.GpuPtr(l, id), y.bytes[l], y.GpuPtr(l', id'), y.bytes[l'])
  {
    GpuRange(y, blocks, l, id);
    GpuRange(y, blocks, l', id');
    if l == l' {
      if id < id' {
        Scaled(id + 1, id', y.bytes[l]);
        NextMultiple(id, y.bytes[l]);
      } else {
        Scaled(id' + 1, id, y.bytes[l]);
        NextMultiple(id', y.bytes[l]);
      }
    }
  }

  lemma GpuStagingApart(y: Layout, blocks: nat, slots: nat, l: nat, id: int, slot: nat, l': nat, r: nat)
    requires y.Valid() && Separate(y, blocks, slots) && l < |y.bytes| && l' < |y.bytes|
    requires 0 <= id < blocks && slot < slots && r < y.factor
    ensures Apart(y.GpuPtr(l, id), y.bytes[l], y.StagingPtr(slot, l', r), y.bytes[l'])
  {
    GpuRange(y, blocks, l, id);
    StagingRange(y, slots, slot, l', r);
    hide SlotBytes, LayerOffset;
  }

  lemma StagingCellsApart(y: Layout, slot: nat, l: nat, r: nat, l': nat, r': nat)
    requires y.Valid() && l < |y.bytes| && l' < |y.bytes| && r < y.factor && r' < y.factor && (l != l' || r != r')
    ensures Apart(y.StagingPtr(slot, l, r), y.bytes[l], y.StagingPtr(slot, l', r'), y.bytes[l'])
  {
    var p := Position(y.factor, y.bytes, l, r, 0);
    var p' := Position(y.factor, y.bytes, l', r', 0);
    if !Apart(p, y.bytes[l], p', y.bytes[l']) {
      var q := if p >= p' then p else p';
      CellsApart(y.factor, y.bytes, l, r, q - p, l', r', q - p');
    }
  }

  // ---------- The two mappings ----------

  predicate InRange(ids: seq<int>, blocks: nat) {
    forall k :: 0 <= k < |ids| ==> 0 <= ids[k] < blocks
  }

  /** GPU blocks of a full chunk to the sub-blocks of a slot. */
  function StoreMapping(factor: nat, slot: nat, chunk: seq<int>): (r: seq<(int, int)>)
    ensures |r| == |chunk|
  {
    seq(|chunk|, k requires 0 <= k < |chunk| => (chunk[k], slot * factor + k))
  }

  /** The last sub-blocks of a slot to the GPU blocks of a chunk. */
  function LoadMapping(factor: nat, slot: nat, chunk: seq<int>): (r: seq<(int, int)>)
    requires |chunk| <= factor
    ensures |r| == |chunk|
  {
    seq(|chunk|, k requires 0 <= k < |chunk| => (slot * factor + (factor - |chunk|) + k, chunk[k]))
  }

  /** These are the rows that `BuildBlockMapping` produces for a store and for a load. */
  lemma MappingsAreBuilt(factor: nat, slot: nat, chunk: seq<int>, k: nat)
    requires factor > 0 && k < |chunk| <= factor
    ensures k < |chunk| * 1 && k < |[slot]| * factor && k + Skipped(|chunk|, factor) < |[slot]| * factor
    ensures |chunk| == factor ==>
      StoreMapping(factor, slot, chunk)[k] == (SubBlock(chunk, 1, 0, k), SubBlock([slot], factor, 0, k))
    ensures LoadMapping(factor, slot, chunk)[k]
         == (SubBlock([slot], factor, Skipped(|chunk|, factor), k), SubBlock(chunk, 1, 0, k))
  {
    LoadMappingLinesUpIff(factor, |chunk|);
    SubBlockIs(chunk, 1, 0, k, k, 0);
    SubBlockIs([slot], factor, factor - |chunk|, k, 0, factor - |chunk| + k);
    SubBlockIs([slot], factor, 0, k, 0, k);
  }

  function StoreEntries(y: Layout, slot: nat, chunk: seq<int>): seq<Entry>
    requires y.Valid()
  {
    Entries(y, StoreMapping(y.factor, slot, chunk), slot, false, |y.bytes|)
  }

  function LoadEntries(y: Layout, slot: nat, chunk: seq<int>): seq<Entry>
    requires y.Valid() && |chunk| <= y.factor
  {
    Entries(y, LoadMapping(y.factor, slot, chunk), slot, true, |y.bytes|)
  }

  lemma StoreEntryIs(y: Layout, slot: nat, chunk: seq<int>, l: nat, k: nat)
    requires y.Valid() && l < |y.bytes| && k < |chunk|
    ensures EntryOf(y, StoreMapping(y.factor, slot, chunk)[k], slot, false, l)
         == Entry(y.GpuPtr(l, chunk[k]), y.StagingPtr(slot, l, k), y.bytes[l])
  {
  }

  lemma LoadEntryIs(y: Layout, slot: nat, chunk: seq<int>, l: nat, k: nat)
    requires y.Valid() && l < |y.bytes| && k < |chunk| <= y.factor
    ensures EntryOf(y, LoadMapping(y.factor, slot, chunk)[k], slot, true, l)
         == Entry(y.StagingPtr(slot, l, y.factor - |chunk| + k), y.GpuPtr(l, chunk[k]), y.bytes[l])
  {
  }

  lemma StoreIndependent(y: Layout, blocks: nat, slots: nat, slot: nat, chunk: seq<int>)
    requires y.Valid() && Separate(y, blocks, slots) && slot < slots && |chunk| == y.factor && InRange(chunk, blocks)
    ensures Independent(StoreEntries(y, slot, chunk))
  {
    hide EntryOf, Entries, Layout.GpuPtr, Layout.StagingPtr, StoreMapping, Separate, Apart, SlotBytes;
    var es := StoreEntries(y, slot, chunk);
    forall i, j | 0 <= i < |es| && 0 <= j < |es|
      ensures i < j ==> Apart(es[i].dst, es[i].size, es[j].dst, es[j].size)
      ensures Apart(es[i].dst, es[i].size, es[j].src, es[j].size)
    {
      var l, k := RowOf(y, StoreMapping(y.factor, slot, chunk), slot, false, |y.bytes|, i);
      var l', k' := RowOf(y, StoreMapping(y.factor, slot, chunk), slot, false, |y.bytes|, j);
      StoreEntryIs(y, slot, chunk, l, k);
      StoreEntryIs(y, slot, chunk, l', k');
      if i < j { StagingCellsApart(y, slot, l, k, l', k'); }
      GpuStagingApart(y, blocks, slots, l', chunk[k'], slot, l, k);
      ApartSymmetric(es[i].dst, es[i].size, es[j].src, es[j].size);
    }
  }

  lemma ApartSymmetric(a: int, n: nat, b: int, m: nat)
    ensures Apart(a, n, b, m) <==> Apart(b, m, a, n)
  {
  }

  lemma LoadIndependent(y: Layout, blocks: nat, slots: nat, slot: nat, chunk: seq<int>)
    requires y.Valid() && Separate(y, blocks, slots) && slot < slots && |chunk| <= y.factor && InRange(chunk, blocks) && Distinct(chunk)
    ensures Independent(LoadEntries(y, slot, chunk))
  {
    hide EntryOf, Entries, Layout.GpuPtr, Layout.StagingPtr, LoadMapping, Separate, Apart, SlotBytes;
    var es := LoadEntries(y, slot, chunk);
    forall i, j | 0 <= i < |es| && 0 <= j < |es|
      ensures i < j ==> Apart(es[i].dst, es[i].size, es[j].dst, es[j].size)
      ensures Apart(es[i].dst, es[i].size, es[j].src, es[j].size)
    {
      var l, k := RowOf(y, LoadMapping(y.factor, slot, chunk), slot, true, |y.bytes|, i);
      var l', k' := RowOf(y, LoadMapping(y.factor, slot, chunk), slot, true, |y.bytes|, j);
      LoadEntryIs(y, slot, chunk, l, k);
      LoadEntryIs(y, slot, chunk, l', k');
      if i < j { GpuBlocksApart(y, blocks, slots, l, chunk[k], l', chunk[k']); }
      GpuStagingApart(y, blocks, slots, l, chunk[k], slot, l', y.factor - |chunk| + k');
    }
  }

  // ---------- One file ----------

  function SlotBase(y: Layout, slot: nat): int { y.staging + slot * SlotBytes(y.factor, y.bytes) }

  /** The bytes of a slot: what a write puts in the file. */
  function Image(y: Layout, m: Memory, slot: nat): seq<Byte> {
    seq(SlotBytes(y.factor, y.bytes), q => m(SlotBase(y, slot) + q))
  }

  /** A completed read of the file into a slot. */
  function ReadInto(y: Layout, m: Memory, slot: nat, image: seq<Byte>): Memory {
    a => if 0 <= a - SlotBase(y, slot) < |image| then image[a - SlotBase(y, slot)] else m(a)
  }

  function StoreFile(y: Layout, m: Memory, slot: nat, chunk: seq<int>): seq<Byte>
    requires y.Valid()
  {
    Image(y, CopyBatch(m, StoreEntries(y, slot, chunk)), slot)
  }

  function LoadFile(y: Layout, m: Memory, slot: nat, image: seq<Byte>, chunk: seq<int>): Memory
    requires y.Valid() && |chunk| <= y.factor
  {
    CopyBatch(ReadInto(y, m, slot, image), LoadEntries(y, slot, chunk))
  }

  lemma CellAddress(y: Layout, slot: nat, l: nat, r: nat, t: nat)
    requires y.Valid() && l < |y.bytes|
    ensures SlotBase(y, slot) + Position(y.factor, y.bytes, l, r, t) == y.StagingPtr(slot, l, r) + t
  {
  }

  lemma StoreEffect(y: Layout, blocks: nat, slots: nat, m: Memory, slot: nat, chunk: seq<int>, l: nat, r: nat, t: nat)
    requires y.Valid() && Separate(y, blocks, slots) && slot < slots && |chunk| == y.factor && InRange(chunk, blocks)
    requires l < |y.bytes| && r < y.factor && t < y.bytes[l]
    ensures CopyBatch(m, StoreEntries(y, slot, chunk))(y.StagingPtr(slot, l, r) + t) == m(y.GpuPtr(l, chunk[r]) + t)
  {
    hide *;
    StoreIndependent(y, blocks, slots, slot, chunk);
    var i := StoreEntryAt(y, slot, chunk, l, r);
    CopyBatchAt(m, StoreEntries(y, slot, chunk), i, t);
  }

  lemma StoreEntryAt(y: Layout, slot: nat, chunk: seq<int>, l: nat, k: nat) returns (i: nat)
    requires y.Valid() && l < |y.bytes| && k < |chunk|
    ensures i < |StoreEntries(y, slot, chunk)|
    ensures StoreEntries(y, slot, chunk)[i]
         == Entry(y.GpuPtr(l, chunk[k]), y.StagingPtr(slot, l, k), y.bytes[l])
  {
    hide EntryOf, Entries, Layout.GpuPtr, Layout.StagingPtr;
    i := l * |chunk| + k;
    EntryAt(y, StoreMapping(y.factor, slot, chunk), slot, false, |y.bytes|, l, k);
    StoreEntryIs(y, slot, chunk, l, k);
  }

  lemma LoadEffect(y: Layout, blocks: nat, slots: nat, m: Memory, slot: nat, chunk: seq<int>, l: nat, k: nat, t: nat)
    requires y.Valid() && Separate(y, blocks, slots) && slot < slots && |chunk| <= y.factor && InRange(chunk, blocks) && Distinct(chunk)
    requires l < |y.bytes| && k < |chunk| && t < y.bytes[l]
    ensures CopyBatch(m, LoadEntries(y, slot, chunk))(y.GpuPtr(l, chunk[k]) + t)
         == m(y.StagingPtr(slot, l, y.factor - |chunk| + k) + t)
  {
    hide *;
    LoadIndependent(y, blocks, slots, slot, chunk);
    var i := LoadEntryAt(y, slot, chunk, l, k);
    CopyBatchAt(m, LoadEntries(y, slot, chunk), i, t);
  }

  lemma LoadEntryAt(y: Layout, slot: nat, chunk: seq<int>, l: nat, k: nat) returns (i: nat)
    requires y.Valid() && l < |y.bytes| && k < |chunk| <= y.factor
    ensures i < |LoadEntries(y, slot, chunk)|
    ensures LoadEntries(y, slot, chunk)[i]
         == Entry(y.StagingPtr(slot, l, y.factor - |chunk| + k), y.GpuPtr(l, chunk[k]), y.bytes[l])
  {
    hide EntryOf, Entries, Layout.GpuPtr, Layout.StagingPtr;
    i := l * |chunk| + k;
    EntryAt(y, LoadMapping(y.factor, slot, chunk), slot, true, |y.bytes|, l, k);
    LoadEntryIs(y, slot, chunk, l, k);
  }

  lemma ImageAt(y: Layout, m: Memory, slot: nat, l: nat, r: nat, t: nat)
    requires y.Valid() && IsCell(y.factor, y.bytes, l, r, t)
    ensures Position(y.factor, y.bytes, l, r, t) < |Image(y, m, slot)| == SlotBytes(y.factor, y.bytes)
    ensures Image(y, m, slot)[Position(y.factor, y.bytes, l, r, t)] == m(y.StagingPtr(slot, l, r) + t)
  {
    CellInLayer(y.factor, y.bytes, l, r, t);
    CellAddress(y, slot, l, r, t);
    hide SlotBytes, Position, Layout.StagingPtr;
  }

  lemma ReadIntoAt(y: Layout, m: Memory, slot: nat, image: seq<Byte>, l: nat, r: nat, t: nat)
    requires y.Valid() && IsCell(y.factor, y.bytes, l, r, t) && |image| == SlotBytes(y.factor, y.bytes)
    ensures Position(y.factor, y.bytes, l, r, t) < |image|
    ensures ReadInto(y, m, slot, image)(y.StagingPtr(slot, l, r) + t) == image[Position(y.factor, y.bytes, l, r, t)]
  {
    CellInLayer(y.factor, y.bytes, l, r, t);
    CellAddress(y, slot, l, r, t);
    hide SlotBytes, Position, Layout.StagingPtr;
  }

  /** A stored file holds, at the place of each (layer, sub-block), the bytes of that GPU block. */
  lemma StoredBytes(y: Layout, blocks: nat, slots: nat, m: Memory, slot: nat, chunk: seq<int>, l: nat, r: nat, t: nat)
    requires y.Valid() && Separate(y, blocks, slots) && slot < slots && |chunk| == y.factor && InRange(chunk, blocks)
    requires l < |y.bytes| && r < y.factor && t < y.bytes[l]
    ensures Position(y.factor, y.bytes, l, r, t) < |StoreFile(y, m, slot, chunk)|
    ensures StoreFile(y, m, slot, chunk)[Position(y.factor, y.bytes, l, r, t)] == m(y.GpuPtr(l, chunk[r]) + t)
  {
    assert IsCell(y.factor, y.bytes, l, r, t);
    hide Separate, InRange, StoreEntries, CopyBatch, Image, Position, SlotBytes, Layout.GpuPtr, Layout.StagingPtr;
    StoreEffect(y, blocks, slots, m, slot, chunk, l, r, t);
    ImageAt(y, CopyBatch(m, StoreEntries(y, slot, chunk)), slot, l, r, t);
  }

  /** A load gives the `k`-th block of its chunk the file's bytes of the matching sub-block. */
  lemma LoadedBytes(y: Layout, blocks: nat, slots: nat, m: Memory, slot: nat, image: seq<Byte>, chunk: seq<int>,
                    l: nat, k: nat, t: nat)
    requires y.Valid() && Separate(y, blocks, slots) && slot < slots && |chunk| <= y.factor && InRange(chunk, blocks) && Distinct(chunk)
    requires |image| == SlotBytes(y.factor, y.bytes) && k < |chunk| && l < |y.bytes| && t < y.bytes[l]
    ensures Position(y.factor, y.bytes, l, y.factor - |chunk| + k, t) < |image|
    ensures LoadFile(y, m, slot, image, chunk)(y.GpuPtr(l, chunk[k]) + t)
         == image[Position(y.factor, y.bytes, l, y.factor - |chunk| + k, t)]
  {
    hide Separate, InRange, Distinct, LoadEntries, CopyBatch, ReadInto, Position, SlotBytes, Layout.GpuPtr, Layout.StagingPtr;
    LoadEffect(y, blocks, slots, ReadInto(y, m, slot, image), slot, chunk, l, k, t);
    ReadIntoAt(y, m, slot, image, l, y.factor - |chunk| + k, t);
  }

  lemma OutsideEntries(y: Layout, blocks: nat, slots: nat, slot: nat, chunk: seq<int>, l: nat, id: int, t: nat, i: nat)
    requires y.Valid() && Separate(y, blocks, slots) && |chunk| <= y.factor && InRange(chunk, blocks)
    requires l < |y.bytes| && t < y.bytes[l] && 0 <= id < blocks && id !in chunk && i < |LoadEntries(y, slot, chunk)|
    ensures var e := LoadEntries(y, slot, chunk)[i];
      !(e.dst <= y.GpuPtr(l, id) + t < e.dst + e.size)
  {
    hide EntryOf, Entries, Layout.GpuPtr, Layout.StagingPtr, LoadMapping, Separate, SlotBytes;
    var l', k := RowOf(y, LoadMapping(y.factor, slot, chunk), slot, true, |y.bytes|, i);
    LoadEntryIs(y, slot, chunk, l', k);
    GpuBlocksApart(y, blocks, slots, l, id, l', chunk[k]);
  }

  /** A load leaves every other GPU block alone. */
  lemma OtherBlocksKept(y: Layout, blocks: nat, slots: nat, m: Memory, slot: nat, image: seq<Byte>, chunk: seq<int>,
                        l: nat, id: int, t: nat)
    requires y.Valid() && Separate(y, blocks, slots) && slot < slots && |chunk| <= y.factor && InRange(chunk, blocks)
    requires |image| == SlotBytes(y.factor, y.bytes) && l < |y.bytes| && t < y.bytes[l]
    requires 0 <= id < blocks && id !in chunk
    ensures LoadFile(y, m, slot, image, chunk)(y.GpuPtr(l, id) + t) == m(y.GpuPtr(l, id) + t)
  {
    hide Separate, InRange, LoadEntries, CopyBatch, SlotBytes, Layout.GpuPtr, SlotBase;
    forall i | 0 <= i < |LoadEntries(y, slot, chunk)|
      ensures var e := LoadEntries(y, slot, chunk)[i]; !(e.dst <= y.GpuPtr(l, id) + t < e.dst + e.size)
    {
      OutsideEntries(y, blocks, slots, slot, chunk, l, id, t, i);
    }
    CopyBatchElsewhere(ReadInto(y, m, slot, image), LoadEntries(y, slot, chunk), y.GpuPtr(l, id) + t);
    OutsideSlot(y, blocks, slots, slot, l, id, t);
  }

  lemma OutsideSlot(y: Layout, blocks: nat, slots: nat, slot: nat, l: nat, id: int, t: nat)
    requires y.Valid() && Separate(y, blocks, slots) && slot < slots && l < |y.bytes| && t < y.bytes[l] && 0 <= id < blocks
    ensures !(0 <= y.GpuPtr(l, id) + t - SlotBase(y, slot) < SlotBytes(y.factor, y.bytes))
  {
    GpuRange(y, blocks, l, id);
    Scaled(slot + 1, slots, SlotBytes(y.factor, y.bytes));
    NextMultiple(slot, SlotBytes(y.factor, y.bytes));
    hide SlotBytes;
  }

  // ---------- Whole jobs ----------

  /** The files written by a store of `src`, one slot per file. */
  function StoreFiles(y: Layout, m: Memory, src: seq<int>, slots: seq<nat>): seq<seq<Byte>>
    requires y.Valid()
  {
    seq(|slots|, i requires 0 <= i < |slots| => StoreFile(y, m, slots[i], Chunk(src, y.factor, 0, i)))
  }

  /** Loading the first `n` files into the chunks of `dst`. */
  function LoadFiles(y: Layout, m: Memory, files: seq<seq<Byte>>, dst: seq<int>, skip: nat, slots: seq<nat>, n: nat): Memory
    requires y.Valid() && skip < y.factor && n <= |files| == |slots|
  {
    if n == 0 then m
    else
      ChunkFits(dst, y.factor, skip, n - 1);
      LoadFile(y, LoadFiles(y, m, files, dst, skip, slots, n - 1), slots[n - 1], files[n - 1],
               Chunk(dst, y.factor, skip, n - 1))
  }

  lemma ChunkFits(ids: seq<int>, factor: nat, skip: nat, i: nat)
    requires skip < factor
    ensures |Chunk(ids, factor, skip, i)| <= factor
  {
    NextMultiple(i, factor);
    assert i * factor >= 0;
  }

  lemma ChunkProperties(ids: seq<int>, factor: nat, skip: nat, i: nat, blocks: nat)
    requires skip < factor && InRange(ids, blocks) && Distinct(ids)
    ensures InRange(Chunk(ids, factor, skip, i), blocks) && Distinct(Chunk(ids, factor, skip, i))
    ensures |Chunk(ids, factor, skip, i)| <= factor
  {
    ChunkFits(ids, factor, skip, i);
  }

  lemma {:induction false} CutMonotone(count: nat, factor: nat, skip: nat, i: nat, j: nat)
    requires skip < factor && i <= j
    ensures Cut(count, factor, skip, i) <= Cut(count, factor, skip, j)
    decreases j - i
  {
    if i < j {
      CutMonotone(count, factor, skip, i + 1, j);
      CutsOrdered(count, factor, skip, i);
    }
  }

  /** Blocks of different chunks are different. */
  lemma ChunksDisjoint(ids: seq<int>, factor: nat, skip: nat, i: nat, j: nat, k: nat)
    requires skip < factor && Distinct(ids) && i < j && k < |Chunk(ids, factor, skip, i)|
    ensures Chunk(ids, factor, skip, i)[k] !in Chunk(ids, factor, skip, j)
  {
    CutMonotone(|ids|, factor, skip, i + 1, j);
    CutsOrdered(|ids|, factor, skip, i);
    CutsOrdered(|ids|, factor, skip, j);
    hide Cut;
  }

  lemma LoadFilesStep(y: Layout, m: Memory, files: seq<seq<Byte>>, dst: seq<int>, skip: nat, slots: seq<nat>, n: nat)
    requires y.Valid() && skip < y.factor && 0 < n <= |files| == |slots|
    ensures |Chunk(dst, y.factor, skip, n - 1)| <= y.factor
    ensures LoadFiles(y, m, files, dst, skip, slots, n)
         == LoadFile(y, LoadFiles(y, m, files, dst, skip, slots, n - 1), slots[n - 1], files[n - 1],
                     Chunk(dst, y.factor, skip, n - 1))
  {
    ChunkFits(dst, y.factor, skip, n - 1);
  }

  /** The `k`-th block of chunk `i` holds, in layer `l`, the bytes of the sub-block it is paired with. */
  ghost predicate HoldsFile(y: Layout, m: Memory, file: seq<Byte>, chunk: seq<int>, l: nat, k: nat, t: nat)
    requires y.Valid() && k < |chunk| <= y.factor && l < |y.bytes|
  {
    var q := Position(y.factor, y.bytes, l, y.factor - |chunk| + k, t);
    q < |file| && m(y.GpuPtr(l, chunk[k]) + t) == file[q]
  }

  /** Loading one more file fills its own chunk and keeps what other chunks hold. */
  lemma LoadFileHolds(y: Layout, blocks: nat, slotCount: nat, m: Memory, slot: nat, image: seq<Byte>, chunk: seq<int>,
                      l: nat, k: nat, t: nat)
    requires y.Valid() && Separate(y, blocks, slotCount) && slot < slotCount && |chunk| <= y.factor
    requires InRange(chunk, blocks) && Distinct(chunk) && |image| == SlotBytes(y.factor, y.bytes)
    requires k < |chunk| && l < |y.bytes| && t < y.bytes[l]
    ensures HoldsFile(y, LoadFile(y, m, slot, image, chunk), image, chunk, l, k, t)
  {
    hide Separate, InRange, Distinct, SlotBytes, LoadFile, Position, Layout.GpuPtr;
    LoadedBytes(y, blocks, slotCount, m, slot, image, chunk, l, k, t);
  }

  lemma LoadFileKeeps(y: Layout, blocks: nat, slotCount: nat, m: Memory, slot: nat, image: seq<Byte>, chunk: seq<int>,
                      file: seq<Byte>, earlier: seq<int>, l: nat, k: nat, t: nat)
    requires y.Valid() && Separate(y, blocks, slotCount) && slot < slotCount && |chunk| <= y.factor
    requires InRange(chunk, blocks) && InRange(earlier, blocks) && |image| == SlotBytes(y.factor, y.bytes)
    requires k < |earlier| <= y.factor && earlier[k] !in chunk && l < |y.bytes| && t < y.bytes[l]
    requires HoldsFile(y, m, file, earlier, l, k, t)
    ensures HoldsFile(y, LoadFile(y, m, slot, image, chunk), file, earlier, l, k, t)
  {
    assert 0 <= earlier[k] < blocks;
    hide Separate, InRange, SlotBytes, LoadFile, Position, Layout.GpuPtr;
    OtherBlocksKept(y, blocks, slotCount, m, slot, image, chunk, l, earlier[k], t);
  }

  /** What the files and slots of a load look like. */
  ghost predicate LoadSetup(y: Layout, blocks: nat, slotCount: nat, files: seq<seq<Byte>>, dst: seq<int>, skip: nat,
                            slots: seq<nat>)
  {
    && Separate(y, blocks, slotCount) && skip < y.factor && |files| == |slots|
    && (forall i :: 0 <= i < |slots| ==> slots[i] < slotCount)
    && (forall i :: 0 <= i < |files| ==> |files[i]| == SlotBytes(y.factor, y.bytes))
    && InRange(dst, blocks) && Distinct(dst)
  }

  lemma SetupParts(y: Layout, blocks: nat, slotCount: nat, files: seq<seq<Byte>>, dst: seq<int>, skip: nat, slots: seq<nat>)
    requires LoadSetup(y, blocks, slotCount, files, dst, skip, slots)
    ensures y.Valid() && Separate(y, blocks, slotCount) && skip < y.factor && |files| == |slots|
    ensures InRange(dst, blocks) && Distinct(dst)
  {
  }

  lemma SetupFile(y: Layout, blocks: nat, slotCount: nat, files: seq<seq<Byte>>, dst: seq<int>, skip: nat, slots: seq<nat>, i: nat)
    requires LoadSetup(y, blocks, slotCount, files, dst, skip, slots) && i < |files|
    ensures |files| == |slots| && slots[i] < slotCount && |files[i]| == SlotBytes(y.factor, y.bytes)
  {
  }

  lemma LastLoaded(y: Layout, blocks: nat, slotCount: nat, m: Memory, files: seq<seq<Byte>>,
                   dst: seq<int>, skip: nat, slots: seq<nat>, i: nat, l: nat, k: nat, t: nat)
    requires LoadSetup(y, blocks, slotCount, files, dst, skip, slots) && i < |files|
    requires k < |Chunk(dst, y.factor, skip, i)| && l < |y.bytes| && t < y.bytes[l]
    ensures |Chunk(dst, y.factor, skip, i)| <= y.factor
    ensures HoldsFile(y, LoadFiles(y, m, files, dst, skip, slots, i + 1), files[i], Chunk(dst, y.factor, skip, i), l, k, t)
  {
    hide *;
    SetupParts(y, blocks, slotCount, files, dst, skip, slots);
    SetupFile(y, blocks, slotCount, files, dst, skip, slots, i);
    LoadFilesStep(y, m, files, dst, skip, slots, i + 1);
    ChunkProperties(dst, y.factor, skip, i, blocks);
    LoadFileHolds(y, blocks, slotCount, LoadFiles(y, m, files, dst, skip, slots, i), slots[i], files[i],
                  Chunk(dst, y.factor, skip, i), l, k, t);
  }

  lemma EarlierKept(y: Layout, blocks: nat, slotCount: nat, m: Memory, files: seq<seq<Byte>>,
                    dst: seq<int>, skip: nat, slots: seq<nat>, n: nat, i: nat, l: nat, k: nat, t: nat)
    requires LoadSetup(y, blocks, slotCount, files, dst, skip, slots) && i < n < |files|
    requires k < |Chunk(dst, y.factor, skip, i)| <= y.factor && l < |y.bytes| && t < y.bytes[l]
    requires HoldsFile(y, LoadFiles(y, m, files, dst, skip, slots, n), files[i], Chunk(dst, y.factor, skip, i), l, k, t)
    ensures HoldsFile(y, LoadFiles(y, m, files, dst, skip, slots, n + 1), files[i], Chunk(dst, y.factor, skip, i), l, k, t)
  {
    hide *;
    SetupParts(y, blocks, slotCount, files, dst, skip, slots);
    SetupFile(y, blocks, slotCount, files, dst, skip, slots, n);
    LoadFilesStep(y, m, files, dst, skip, slots, n + 1);
    ChunkProperties(dst, y.factor, skip, n, blocks);
    ChunkProperties(dst, y.factor, skip, i, blocks);
    ChunksDisjoint(dst, y.factor, skip, i, n, k);
    LoadFileKeeps(y, blocks, slotCount, LoadFiles(y, m, files, dst, skip, slots, n), slots[n], files[n],
                  Chunk(dst, y.factor, skip, n), files[i], Chunk(dst, y.factor, skip, i), l, k, t);
  }

  /** After `n` files are loaded, every block of the first `n` chunks holds its file's bytes. */
  lemma {:induction false} LoadedSoFar(y: Layout, blocks: nat, slotCount: nat, m: Memory, files: seq<seq<Byte>>,
                                       dst: seq<int>, skip: nat, slots: seq<nat>, n: nat, i: nat, l: nat, k: nat, t: nat)
    requires LoadSetup(y, blocks, slotCount, files, dst, skip, slots) && i < n <= |files|
    requires k < |Chunk(dst, y.factor, skip, i)| && l < |y.bytes| && t < y.bytes[l]
    ensures |Chunk(dst, y.factor, skip, i)| <= y.factor
    ensures HoldsFile(y, LoadFiles(y, m, files, dst, skip, slots, n), files[i], Chunk(dst, y.factor, skip, i), l, k, t)
    decreases n
  {
    hide *;
    SetupParts(y, blocks, slotCount, files, dst, skip, slots);
    LastLoaded(y, blocks, slotCount, m, files, dst, skip, slots, i, l, k, t);
    if i + 1 < n {
      LoadedSoFar(y, blocks, slotCount, m, files, dst, skip, slots, n - 1, i, l, k, t);
      EarlierKept(y, blocks, slotCount, m, files, dst, skip, slots, n - 1, i, l, k, t);
    }
  }

  /** The file and place that hold destination block `j`. */
  lemma PlaceOf(count: nat, factor: nat, skip: nat, fileCount: nat, j: nat) returns (i: nat, k: nat)
    requires skip < factor && 0 < fileCount && count == fileCount * factor - skip && j < count
    ensures i < fileCount && Cut(count, factor, skip, i) + k == j < Cut(count, factor, skip, i + 1)
  {
    i := (j + skip) / factor;
    assert j + skip == i * factor + (j + skip) % factor;
    QuotientInRange(j + skip, factor, fileCount);
    CutExact(factor, skip, fileCount, i);
    CutExact(factor, skip, fileCount, i + 1);
    NextMultiple(i, factor);
    k := j - Cut(count, factor, skip, i);
  }

  /** In a destination of full length, chunk `i` ends where file `i` ends. */
  lemma SourceOfPlace(factor: nat, skip: nat, fileCount: nat, i: nat)
    requires skip < factor && i < fileCount
    ensures fileCount * factor >= factor
    ensures var count := fileCount * factor - skip;
      var size := Cut(count, factor, skip, i + 1) - Cut(count, factor, skip, i);
      0 <= factor - size && i * factor + (factor - size) == skip + Cut(count, factor, skip, i)
  {
    CutExact(factor, skip, fileCount, i);
    CutExact(factor, skip, fileCount, i + 1);
    NextMultiple(i, factor);
  }

  /** A source chunk of a store that covers whole files. */
  lemma SourceChunk(src: seq<int>, factor: nat, fileCount: nat, i: nat, r: nat)
    requires factor > 0 && |src| == fileCount * factor && i < fileCount && r < factor
    ensures |Chunk(src, factor, 0, i)| == factor && 0 <= i * factor + r < |src|
    ensures Chunk(src, factor, 0, i)[r] == src[i * factor + r]
  {
    CutExact(factor, 0, fileCount, i);
    CutExact(factor, 0, fileCount, i + 1);
    NextMultiple(i, factor);
    Scaled(i + 1, fileCount, factor);
  }

  /** Round trip. `src` is stored to `fileCount` files; later, whatever memory holds by then, the files
      are loaded into `dst` from starting block `first` on. If `dst` reaches to the end of the last
      file, its block `j` receives, in every layer, exactly the bytes that source block
      `first mod factor + j` had when it was stored. */
  lemma StoreThenLoad(y: Layout, blocks: nat, slotCount: nat, atStore: Memory, atLoad: Memory,
                      src: seq<int>, dst: seq<int>, fileCount: nat, first: int,
                      storeSlots: seq<nat>, loadSlots: seq<nat>, l: nat, j: nat, t: nat)
    requires y.Valid() && y.factor > 0 && Separate(y, blocks, slotCount) && fileCount > 0
    requires |src| == fileCount * y.factor && |dst| == fileCount * y.factor - first % y.factor
    requires InRange(src, blocks) && InRange(dst, blocks) && Distinct(dst)
    requires |storeSlots| == |loadSlots| == fileCount
    requires forall s :: s in storeSlots || s in loadSlots ==> s < slotCount
    requires l < |y.bytes| && j < |dst| && t < y.bytes[l]
    ensures 0 <= first % y.factor + j < |src|
    ensures LoadFiles(y, atLoad, StoreFiles(y, atStore, src, storeSlots), dst, first % y.factor, loadSlots, fileCount)
              (y.GpuPtr(l, dst[j]) + t)
         == atStore(y.GpuPtr(l, src[first % y.factor + j]) + t)
  {
    hide *;
    StoreThenLoadFrom(y, blocks, slotCount, atStore, atLoad, src, dst, fileCount, first % y.factor, storeSlots, loadSlots,
                      l, j, t);
  }

  lemma StoreThenLoadFrom(y: Layout, blocks: nat, slotCount: nat, atStore: Memory, atLoad: Memory,
                          src: seq<int>, dst: seq<int>, fileCount: nat, skip: nat,
                          storeSlots: seq<nat>, loadSlots: seq<nat>, l: nat, j: nat, t: nat)
    requires y.Valid() && Separate(y, blocks, slotCount) && fileCount > 0 && skip < y.factor
    requires |src| == fileCount * y.factor && |dst| == fileCount * y.factor - skip
    requires InRange(src, blocks) && InRange(dst, blocks) && Distinct(dst)
    requires |storeSlots| == |loadSlots| == fileCount
    requires forall s :: s in storeSlots || s in loadSlots ==> s < slotCount
    requires l < |y.bytes| && j < |dst| && t < y.bytes[l]
    ensures 0 <= skip + j < |src|
    ensures LoadFiles(y, atLoad, StoreFiles(y, atStore, src, storeSlots), dst, skip, loadSlots, fileCount)
              (y.GpuPtr(l, dst[j]) + t)
         == atStore(y.GpuPtr(l, src[skip + j]) + t)
  {
    hide *;
    var files := StoreFiles(y, atStore, src, storeSlots);
    var i, k := PlaceOf(|dst|, y.factor, skip, fileCount, j);
    var r := SourceOfDestination(y, src, dst, fileCount, skip, i, k, j);
    SourceInRange(src, y.factor, i, blocks);
    assert storeSlots[i] in storeSlots;
    StoredFileSizes(y, atStore, src, storeSlots);
    StoredFileIs(y, atStore, src, storeSlots, i);
    SetupHolds(y, blocks, slotCount, files, dst, skip, loadSlots);
    LoadedSoFar(y, blocks, slotCount, atLoad, files, dst, skip, loadSlots, fileCount, i, l, k, t);
    HoldsFileMeans(y, LoadFiles(y, atLoad, files, dst, skip, loadSlots, fileCount), files[i], Chunk(dst, y.factor, skip, i),
                   l, k, t);
    StoredBytes(y, blocks, slotCount, atStore, storeSlots[i], Chunk(src, y.factor, 0, i), l, r, t);
  }

  lemma HoldsFileMeans(y: Layout, m: Memory, file: seq<Byte>, chunk: seq<int>, l: nat, k: nat, t: nat)
    requires y.Valid() && k < |chunk| <= y.factor && l < |y.bytes| && HoldsFile(y, m, file, chunk, l, k, t)
    ensures Position(y.factor, y.bytes, l, y.factor - |chunk| + k, t) < |file|
    ensures m(y.GpuPtr(l, chunk[k]) + t) == file[Position(y.factor, y.bytes, l, y.factor - |chunk| + k, t)]
  {
  }

  /** A block that holds its part of a stored file has the bytes of the GPU block that part was stored from. */
  lemma StoredThenHeld(y: Layout, blocks: nat, slotCount: nat, atStore: Memory, slot: nat, src: seq<int>,
                       m: Memory, chunk: seq<int>, l: nat, k: nat, t: nat)
    requires y.Valid() && Separate(y, blocks, slotCount) && slot < slotCount && |src| == y.factor && InRange(src, blocks)
    requires k < |chunk| <= y.factor && l < |y.bytes| && t < y.bytes[l]
    requires HoldsFile(y, m, StoreFile(y, atStore, slot, src), chunk, l, k, t)
    ensures m(y.GpuPtr(l, chunk[k]) + t) == atStore(y.GpuPtr(l, src[y.factor - |chunk| + k]) + t)
  {
    hide *;
    HoldsFileMeans(y, m, StoreFile(y, atStore, slot, src), chunk, l, k, t);
    StoredBytes(y, blocks, slotCount, atStore, slot, src, l, y.factor - |chunk| + k, t);
  }

  lemma StoredFileIs(y: Layout, m: Memory, src: seq<int>, slots: seq<nat>, i: nat)
    requires y.Valid() && i < |slots|
    ensures |StoreFiles(y, m, src, slots)| == |slots|
    ensures StoreFiles(y, m, src, slots)[i] == StoreFile(y, m, slots[i], Chunk(src, y.factor, 0, i))
  {
  }

  /** The stored sub-block that place `(i, k)` of the destination is paired with. */
  lemma SourceOfDestination(y: Layout, src: seq<int>, dst: seq<int>, fileCount: nat, skip: nat, i: nat, k: nat, j: nat)
    returns (r: nat)
    requires y.Valid() && skip < y.factor && i < fileCount
    requires |src| == fileCount * y.factor && |dst| == fileCount * y.factor - skip && j < |dst|
    requires Cut(|dst|, y.factor, skip, i) + k == j < Cut(|dst|, y.factor, skip, i + 1)
    ensures var chunk := Chunk(dst, y.factor, skip, i);
      k < |chunk| <= y.factor && chunk[k] == dst[j] && r == y.factor - |chunk| + k
    ensures r < y.factor && 0 <= skip + j < |src| && |Chunk(src, y.factor, 0, i)| == y.factor
    ensures Chunk(src, y.factor, 0, i)[r] == src[skip + j]
  {
    var chunk := Chunk(dst, y.factor, skip, i);
    ChunkFits(dst, y.factor, skip, i);
    assert chunk[k] == dst[j];
    SourceOfPlace(y.factor, skip, fileCount, i);
    r := y.factor - |chunk| + k;
    SourceChunk(src, y.factor, fileCount, i, r);
  }

  lemma SetupHolds(y: Layout, blocks: nat, slotCount: nat, files: seq<seq<Byte>>, dst: seq<int>, skip: nat, slots: seq<nat>)
    requires y.Valid() && Separate(y, blocks, slotCount) && skip < y.factor && |files| == |slots|
    requires forall s :: s in slots ==> s < slotCount
    requires forall i :: 0 <= i < |files| ==> |files[i]| == SlotBytes(y.factor, y.bytes)
    requires InRange(dst, blocks) && Distinct(dst)
    ensures LoadSetup(y, blocks, slotCount, files, dst, skip, slots)
  {
    hide Separate, SlotBytes, InRange, Distinct;
    forall i | 0 <= i < |slots| ensures slots[i] < slotCount {
      assert slots[i] in slots;
    }
  }

  lemma SourceInRange(src: seq<int>, factor: nat, i: nat, blocks: nat)
    requires factor > 0 && InRange(src, blocks)
    ensures InRange(Chunk(src, factor, 0, i), blocks)
  {
    var c := Chunk(src, factor, 0, i);
    forall k | 0 <= k < |c| ensures 0 <= c[k] < blocks {
      assert c[k] == src[Cut(|src|, factor, 0, i) + k];
    }
  }

  lemma StoredFileSizes(y: Layout, m: Memory, src: seq<int>, slots: seq<nat>)
    requires y.Valid()
    ensures var files := StoreFiles(y, m, src, slots);
      && |files| == |slots|
      && (forall f :: 0 <= f < |files| ==> |files[f]| == SlotBytes(y.factor, y.bytes))
  {
  }
}
