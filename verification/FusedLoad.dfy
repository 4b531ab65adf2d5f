/** Several files loaded by one fused batch: one list of regions for all of their slots. */
module FusedLoad {
  import opened OrderedKeys
  import opened Transfer
  import opened RoundTrip

  /** A staged file and the GPU blocks it is for. */
  datatype Piece = Piece(slot: nat, chunk: seq<int>)

  predicate Fit(y: Layout, ps: seq<Piece>) {
    forall a :: 0 <= a < |ps| ==> |ps[a].chunk| <= y.factor
  }

  /** The regions of the batch: those of each piece, one piece after the other. */
  function BatchEntries(y: Layout, ps: seq<Piece>): seq<Entry>
    requires y.Valid() && Fit(y, ps)
  {
    if ps == [] then []
    else BatchEntries(y, ps[..|ps| - 1]) + LoadEntries(y, ps[|ps| - 1].slot, ps[|ps| - 1].chunk)
  }

  function Rows(ps: seq<Piece>): nat {
    if ps == [] then 0 else Rows(ps[..|ps| - 1]) + |ps[|ps| - 1].chunk|
  }

  /** Slots and blocks exist, and no block is the target of two places of the batch. Slots may repeat: several
      files can be copied from one shared slot. */
  ghost predicate BatchSetup(y: Layout, blocks: nat, slotCount: nat, ps: seq<Piece>) {
    && Separate(y, blocks, slotCount) && Fit(y, ps)
    && (forall a :: 0 <= a < |ps| ==> ps[a].slot < slotCount && InRange(ps[a].chunk, blocks) && Distinct(ps[a].chunk))
    && (forall a, b :: 0 <= a < b < |ps| ==> DisjointChunks(ps[a].chunk, ps[b].chunk))
  }

  ghost predicate DisjointChunks(c: seq<int>, d: seq<int>) {
    forall k :: 0 <= k < |c| ==> c[k] !in d
  }

  lemma {:induction false} BatchCount(y: Layout, ps: seq<Piece>)
    requires y.Valid() && Fit(y, ps)
    ensures |BatchEntries(y, ps)| == |y.bytes| * Rows(ps)
  {
    hide LoadEntries;
    if ps != [] {
      var front, p := ps[..|ps| - 1], ps[|ps| - 1];
      BatchCount(y, front);
      PieceCount(y, p);
      Distribute(|y.bytes|, Rows(front), |p.chunk|);
    }
  }

  lemma Distribute(n: nat, a: nat, b: nat)
    ensures n * (a + b) == n * a + n * b
  {
  }

  lemma PieceCount(y: Layout, p: Piece)
    requires y.Valid() && |p.chunk| <= y.factor
    ensures |LoadEntries(y, p.slot, p.chunk)| == |y.bytes| * |p.chunk|
  {
    EntriesCount(y, LoadMapping(y.factor, p.slot, p.chunk), p.slot, true, |y.bytes|);
  }

  /** Fills the pointer arrays for the whole batch, slot by slot. */
  method FillBatch(y: Layout, ps: seq<Piece>, srcArr: array<int>, dstArr: array<int>, sizesArr: array<int>) returns (offset: nat)
    requires y.Valid() && Fit(y, ps) && srcArr != dstArr && srcArr != sizesArr && dstArr != sizesArr
    requires |y.bytes| * Rows(ps) <= srcArr.Length && srcArr.Length == dstArr.Length == sizesArr.Length
    modifies srcArr, dstArr, sizesArr
    ensures offset == |BatchEntries(y, ps)| == |y.bytes| * Rows(ps)
    ensures Written(BatchEntries(y, ps), srcArr, dstArr, sizesArr, 0)
    ensures forall i :: offset <= i < srcArr.Length ==>
      srcArr[i] == old(srcArr[i]) && dstArr[i] == old(dstArr[i]) && sizesArr[i] == old(sizesArr[i])
  {
    hide LoadEntries, LoadMapping, Entries;
    offset := 0;
    for n := 0 to |ps|
      invariant offset == |BatchEntries(y, ps[..n])| == |y.bytes| * Rows(ps[..n])
      invariant offset <= srcArr.Length && Written(BatchEntries(y, ps[..n]), srcArr, dstArr, sizesArr, 0)
      invariant forall i :: offset <= i < srcArr.Length ==>
        srcArr[i] == old(srcArr[i]) && dstArr[i] == old(dstArr[i]) && sizesArr[i] == old(sizesArr[i])
    {
      var p := ps[n];
      NextPiece(y, ps, n);
      offset := FillSwapPtrs(y, LoadMapping(y.factor, p.slot, p.chunk), p.slot, true, srcArr, dstArr, sizesArr, offset);
      EntriesAreLoad(y, p);
      WrittenConcat(BatchEntries(y, ps[..n]), LoadEntries(y, p.slot, p.chunk), srcArr, dstArr, sizesArr, 0);
    }
    assert ps[..|ps|] == ps;
  }

  lemma EntriesAreLoad(y: Layout, p: Piece)
    requires y.Valid() && |p.chunk| <= y.factor
    ensures LoadEntries(y, p.slot, p.chunk) == Entries(y, LoadMapping(y.factor, p.slot, p.chunk), p.slot, true, |y.bytes|)
  {
  }

  lemma {:induction false} RowsGrow(ps: seq<Piece>, n: nat)
    requires n <= |ps|
    ensures Rows(ps[..n]) <= Rows(ps)
    decreases |ps|
  {
    if n < |ps| {
      var front := ps[..|ps| - 1];
      assert front[..n] == ps[..n];
      RowsGrow(front, n);
    } else {
      assert ps[..n] == ps;
    }
  }

  /** The next piece's regions, and the room for them. */
  lemma NextPiece(y: Layout, ps: seq<Piece>, n: nat)
    requires y.Valid() && Fit(y, ps) && n < |ps|
    ensures BatchEntries(y, ps[..n + 1]) == BatchEntries(y, ps[..n]) + LoadEntries(y, ps[n].slot, ps[n].chunk)
    ensures |BatchEntries(y, ps[..n + 1])| == |y.bytes| * Rows(ps[..n + 1])
    ensures |y.bytes| * Rows(ps[..n]) + |y.bytes| * |ps[n].chunk| == |y.bytes| * Rows(ps[..n + 1]) <= |y.bytes| * Rows(ps)
    ensures |LoadEntries(y, ps[n].slot, ps[n].chunk)| == |y.bytes| * |ps[n].chunk|
  {
    hide LoadEntries;
    assert ps[..n + 1][..n] == ps[..n];
    BatchCount(y, ps[..n + 1]);
    PieceCount(y, ps[n]);
    RowsGrow(ps, n + 1);
    Distribute(|y.bytes|, Rows(ps[..n]), |ps[n].chunk|);
    Distribute(|y.bytes|, Rows(ps[..n + 1]), Rows(ps) - Rows(ps[..n + 1]));
  }

  // ---------- The order does not matter ----------

  /** Entry `i` of the batch is the region of layer `l` and row `k` of piece `a`. */
  ghost predicate IsRegion(y: Layout, ps: seq<Piece>, e: Entry, a: nat, l: nat, k: nat) {
    && y.Valid() && Fit(y, ps) && a < |ps| && l < |y.bytes| && k < |ps[a].chunk|
    && e == Entry(y.StagingPtr(ps[a].slot, l, y.factor - |ps[a].chunk| + k), y.GpuPtr(l, ps[a].chunk[k]), y.bytes[l])
  }

  /** The index of a region. */
  function IndexOf(y: Layout, ps: seq<Piece>, a: nat, l: nat, k: nat): int
    requires y.Valid() && Fit(y, ps) && a < |ps|
  {
    |BatchEntries(y, ps[..a])| + l * |ps[a].chunk| + k
  }

  lemma {:induction false} RegionOf(y: Layout, ps: seq<Piece>, i: nat) returns (a: nat, l: nat, k: nat)
    requires y.Valid() && Fit(y, ps) && i < |BatchEntries(y, ps)|
    ensures IsRegion(y, ps, BatchEntries(y, ps)[i], a, l, k) && i == IndexOf(y, ps, a, l, k)
  {
    hide LoadEntries, Entries, EntryOf, Layout.GpuPtr, Layout.StagingPtr, LoadMapping;
    var front, p := ps[..|ps| - 1], ps[|ps| - 1];
    if i < |BatchEntries(y, front)| {
      a, l, k := RegionOf(y, front, i);
      assert front[..a] == ps[..a];
    } else {
      a := |ps| - 1;
      EntriesAreLoad(y, p);
      l, k := RowOf(y, LoadMapping(y.factor, p.slot, p.chunk), p.slot, true, |y.bytes|, i - |BatchEntries(y, front)|);
      LoadEntryIs(y, p.slot, p.chunk, l, k);
    }
  }

  lemma {:induction false} RegionAt(y: Layout, ps: seq<Piece>, a: nat, l: nat, k: nat) returns (i: nat)
    requires y.Valid() && Fit(y, ps) && a < |ps| && l < |y.bytes| && k < |ps[a].chunk|
    ensures i < |BatchEntries(y, ps)| && IsRegion(y, ps, BatchEntries(y, ps)[i], a, l, k)
  {
    hide LoadEntries, Entries, EntryOf, Layout.GpuPtr, Layout.StagingPtr, LoadMapping;
    var front, p := ps[..|ps| - 1], ps[|ps| - 1];
    if a < |front| {
      i := RegionAt(y, front, a, l, k);
    } else {
      var n := LoadEntryAt(y, p.slot, p.chunk, l, k);
      i := |BatchEntries(y, front)| + n;
    }
  }

  /** Two regions of the batch go to different blocks and neither goes where the other comes from. */
  lemma RegionsApart(y: Layout, blocks: nat, slotCount: nat, ps: seq<Piece>, e: Entry, a: nat, l: nat, k: nat,
                     e': Entry, a': nat, l': nat, k': nat)
    requires BatchSetup(y, blocks, slotCount, ps) && IsRegion(y, ps, e, a, l, k) && IsRegion(y, ps, e', a', l', k')
    ensures (a, l, k) != (a', l', k') ==> Apart(e.dst, e.size, e'.dst, e'.size)
    ensures Apart(e.dst, e.size, e'.src, e'.size)
  {
    hide Layout.GpuPtr, Layout.StagingPtr, Separate;
    var id, id' := ps[a].chunk[k], ps[a'].chunk[k'];
    if (a, l, k) != (a', l', k') {
      if l == l' { DifferentBlocks(y, blocks, slotCount, ps, a, k, a', k'); }
      GpuBlocksApart(y, blocks, slotCount, l, id, l', id');
    }
    GpuStagingApart(y, blocks, slotCount, l, id, ps[a'].slot, l', y.factor - |ps[a'].chunk| + k');
  }

  lemma DifferentBlocks(y: Layout, blocks: nat, slotCount: nat, ps: seq<Piece>, a: nat, k: nat, a': nat, k': nat)
    requires BatchSetup(y, blocks, slotCount, ps) && a < |ps| && a' < |ps| && k < |ps[a].chunk| && k' < |ps[a'].chunk|
    requires a != a' || k != k'
    ensures ps[a].chunk[k] != ps[a'].chunk[k']
  {
    hide Separate, InRange;
    if a < a' {
      assert DisjointChunks(ps[a].chunk, ps[a'].chunk);
    } else if a' < a {
      assert DisjointChunks(ps[a'].chunk, ps[a].chunk);
    } else {
      assert Distinct(ps[a].chunk);
    }
  }

  /** A fused batch is independent, so the order in which the device carries out its regions does not matter. */
  lemma BatchIndependent(y: Layout, blocks: nat, slotCount: nat, ps: seq<Piece>)
    requires y.Valid() && BatchSetup(y, blocks, slotCount, ps)
    ensures Independent(BatchEntries(y, ps))
  {
    hide BatchEntries, BatchSetup, IsRegion, Apart;
    SetupFits(y, blocks, slotCount, ps);
    var es := BatchEntries(y, ps);
    forall i, j | 0 <= i < |es| && 0 <= j < |es|
      ensures i < j ==> Apart(es[i].dst, es[i].size, es[j].dst, es[j].size)
      ensures Apart(es[i].dst, es[i].size, es[j].src, es[j].size)
    {
      var a, l, k := RegionOf(y, ps, i);
      var a', l', k' := RegionOf(y, ps, j);
      RegionsApart(y, blocks, slotCount, ps, es[i], a, l, k, es[j], a', l', k');
    }
  }

  lemma SetupFits(y: Layout, blocks: nat, slotCount: nat, ps: seq<Piece>)
    requires BatchSetup(y, blocks, slotCount, ps)
    ensures y.Valid() && Fit(y, ps) && Separate(y, blocks, slotCount)
    ensures forall a :: 0 <= a < |ps| ==> ps[a].slot < slotCount && InRange(ps[a].chunk, blocks)
  {
  }

  // ---------- What arrives ----------

  /** Each block of each piece receives, in every layer, the bytes of its sub-block of its slot. */
  lemma FusedBytes(y: Layout, blocks: nat, slotCount: nat, m: Memory, ps: seq<Piece>, a: nat, l: nat, k: nat, t: nat)
    requires y.Valid() && BatchSetup(y, blocks, slotCount, ps) && Fit(y, ps)
    requires a < |ps| && l < |y.bytes| && k < |ps[a].chunk| && t < y.bytes[l]
    ensures CopyBatch(m, BatchEntries(y, ps))(y.GpuPtr(l, ps[a].chunk[k]) + t)
         == m(y.StagingPtr(ps[a].slot, l, y.factor - |ps[a].chunk| + k) + t)
  {
    hide BatchEntries, BatchSetup, CopyBatch, Independent;
    BatchIndependent(y, blocks, slotCount, ps);
    var i := RegionAt(y, ps, a, l, k);
    CopyBatchAt(m, BatchEntries(y, ps), i, t);
  }

  /** If the slot holds a file, the piece's blocks hold it afterwards. */
  lemma FusedHolds(y: Layout, blocks: nat, slotCount: nat, m: Memory, ps: seq<Piece>, file: seq<Byte>, a: nat, l: nat, k: nat, t: nat)
    requires y.Valid() && BatchSetup(y, blocks, slotCount, ps) && Fit(y, ps)
    requires a < |ps| && l < |y.bytes| && k < |ps[a].chunk| && t < y.bytes[l]
    requires Image(y, m, ps[a].slot) == file
    ensures HoldsFile(y, CopyBatch(m, BatchEntries(y, ps)), file, ps[a].chunk, l, k, t)
  {
    hide BatchEntries, BatchSetup, CopyBatch, Image, Position, SlotBytes, Layout.GpuPtr, Layout.StagingPtr;
    FusedBytes(y, blocks, slotCount, m, ps, a, l, k, t);
    ImageAt(y, m, ps[a].slot, l, y.factor - |ps[a].chunk| + k, t);
  }

  /** Blocks that are no piece's target keep their bytes. */
  lemma FusedElsewhere(y: Layout, blocks: nat, slotCount: nat, m: Memory, ps: seq<Piece>, l: nat, id: int, t: nat)
    requires y.Valid() && BatchSetup(y, blocks, slotCount, ps) && Fit(y, ps)
    requires l < |y.bytes| && t < y.bytes[l] && 0 <= id < blocks && forall a :: 0 <= a < |ps| ==> id !in ps[a].chunk
    ensures CopyBatch(m, BatchEntries(y, ps))(y.GpuPtr(l, id) + t) == m(y.GpuPtr(l, id) + t)
  {
    hide BatchEntries, BatchSetup, CopyBatch, Layout.GpuPtr, Layout.StagingPtr, Separate;
    SetupFits(y, blocks, slotCount, ps);
    var es := BatchEntries(y, ps);
    forall i | 0 <= i < |es| ensures !(es[i].dst <= y.GpuPtr(l, id) + t < es[i].dst + es[i].size) {
      var a, l', k := RegionOf(y, ps, i);
      GpuBlocksApart(y, blocks, slotCount, l, id, l', ps[a].chunk[k]);
    }
    CopyBatchElsewhere(m, es, y.GpuPtr(l, id) + t);
  }
}
