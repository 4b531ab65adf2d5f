/** Block mapping and pointer arithmetic of py_kvcache/transfer.py, and the pointer fill of
    py_kvcache/reactor.py. A storage block (file, staging slot) holds `factor` GPU blocks per layer. */
module Transfer {
  import opened Outcomes

  // ---------- Expanding block ids ----------

  /** Sub-block `k` of the expansion of `ids`, the first `skip` sub-blocks left out. */
  function SubBlock(ids: seq<int>, factor: nat, skip: nat, k: nat): int
    requires factor > 0 && k + skip < |ids| * factor
  {
    QuotientInRange(k + skip, factor, |ids|);
    ids[(k + skip) / factor] * factor + (k + skip) % factor
  }

  lemma ProductSign(x: int, f: int)
    requires f > 0
    ensures x * f < 0 ==> x < 0
    ensures -f < x * f < f ==> x == 0
  {
    if x >= 1 {
      assert x * f >= f;
    } else if x <= -1 {
      assert x * f <= -f;
    }
  }

  lemma QuotientInRange(a: nat, f: nat, n: nat)
    requires f > 0 && a < n * f
    ensures 0 <= a / f < n
  {
    var q := a / f;
    assert a == q * f + a % f;
    assert (q - n) * f == q * f - n * f;
    ProductSign(q - n, f);
  }

  lemma QuotientIs(a: nat, f: nat, q: nat, r: nat)
    requires f > 0 && a == q * f + r && r < f
    ensures a / f == q && a % f == r
  {
    var q', r' := a / f, a % f;
    assert a == q' * f + r' && 0 <= r' < f;
    assert (q' - q) * f == q' * f - q * f;
    ProductSign(q' - q, f);
  }

  /** Writes the expansion of `blockIds` into the first `rows` rows of one column of `output`. */
  method ExpandBlockIds(blockIds: seq<int>, factor: nat, output: array2<int>, rows: nat, col: nat, skipCount: nat)
    returns (r: Result<()>)
    requires rows <= output.Length0 && col < output.Length1
    requires skipCount < factor ==> rows == if blockIds == [] then 0 else |blockIds| * factor - skipCount
    modifies output
    ensures r.Ok? <==> skipCount < factor
    ensures forall i, j :: 0 <= i < output.Length0 && 0 <= j < output.Length1 && (j != col || i >= rows || r.Err?) ==>
      output[i, j] == old(output[i, j])
    ensures r.Ok? ==> forall k :: 0 <= k < rows ==>
      k + skipCount < |blockIds| * factor && output[k, col] == SubBlock(blockIds, factor, skipCount, k)
  {
    if skipCount >= factor {
      return Err("skip_count must be smaller than block_size_factor");
    }
    var outputIndex := 0;
    for index := 0 to |blockIds|
      invariant outputIndex == if index == 0 then 0 else index * factor - skipCount
      invariant 0 <= outputIndex <= rows
      invariant forall i, j :: 0 <= i < output.Length0 && 0 <= j < output.Length1 && (j != col || i >= rows) ==>
        output[i, j] == old(output[i, j])
      invariant forall k :: 0 <= k < outputIndex ==>
        k + skipCount < |blockIds| * factor && output[k, col] == SubBlock(blockIds, factor, skipCount, k)
    {
      hide SubBlock;
      var first := if index == 0 then skipCount else 0;
      var outputEnd := outputIndex + (factor - first);
      NextMultiple(index, factor);
      Scaled(index + 1, |blockIds|, factor);
      WriteRun(output, col, outputIndex, outputEnd, blockIds[index] * factor + first);
      forall k | outputIndex <= k < outputEnd
        ensures k + skipCount < |blockIds| * factor && output[k, col] == SubBlock(blockIds, factor, skipCount, k)
      {
        SubBlockIs(blockIds, factor, skipCount, k, index, first + (k - outputIndex));
      }
      outputIndex := outputEnd;
    }
    r := Ok(());
  }

  lemma SubBlockIs(ids: seq<int>, factor: nat, skip: nat, k: nat, index: nat, r: nat)
    requires index < |ids| && r < factor && k + skip == index * factor + r
    ensures k + skip < |ids| * factor && SubBlock(ids, factor, skip, k) == ids[index] * factor + r
  {
    QuotientIs(k + skip, factor, index, r);
    Scaled(index + 1, |ids|, factor);
  }

  lemma NextMultiple(i: nat, f: nat)
    ensures (i + 1) * f == i * f + f
  {
  }

  lemma Scaled(a: nat, b: nat, f: nat)
    requires a <= b
    ensures a * f <= b * f
  {
  }

  /** Writes consecutive numbers into rows `from` to `to - 1` of a column. */
  method WriteRun(output: array2<int>, col: nat, from: nat, to: nat, first: int)
    requires from <= to <= output.Length0 && col < output.Length1
    modifies output
    ensures forall k :: from <= k < to ==> output[k, col] == first + (k - from)
    ensures forall i, j :: 0 <= i < output.Length0 && 0 <= j < output.Length1 && (j != col || !(from <= i < to)) ==>
      output[i, j] == old(output[i, j])
  {
    forall k | from <= k < to {
      output[k, col] := first + (k - from);
    }
  }

  // ---------- Mapping source to destination ----------

  /** Sub-blocks at the front of the source that have no destination. */
  function Skipped(dstCount: nat, srcFactor: nat): (s: nat)
    requires srcFactor > 0
    ensures s < srcFactor
  {
    (-(dstCount as int)) % srcFactor
  }

  /** Source and destination cover equally many sub-blocks once the front is skipped. */
  predicate LinesUp(srcCount: nat, srcFactor: nat, dstCount: nat, dstFactor: nat)
    requires srcFactor > 0
  {
    dstCount * dstFactor == srcCount * srcFactor - Skipped(dstCount, srcFactor)
  }

  /** Pairs every destination sub-block with its source sub-block; row `k` of `output` becomes
      (source, destination). */
  method BuildBlockMapping(src: seq<int>, srcFactor: nat, dst: seq<int>, dstFactor: nat, output: array2<int>)
    returns (r: Result<nat>)
    requires srcFactor > 0 && dstFactor > 0
    requires output.Length0 >= |dst| * dstFactor && output.Length1 == 2
    modifies output
    ensures r.Ok? <==> LinesUp(|src|, srcFactor, |dst|, dstFactor)
    ensures r.Ok? ==> r.value == |dst| * dstFactor
    ensures r.Ok? ==> forall k :: 0 <= k < r.value ==>
      && k + Skipped(|dst|, srcFactor) < |src| * srcFactor
      && output[k, 0] == SubBlock(src, srcFactor, Skipped(|dst|, srcFactor), k)
      && output[k, 1] == SubBlock(dst, dstFactor, 0, k)
  {
    var srcSubBlockCount := |src| * srcFactor;
    var dstSubBlockCount := |dst| * dstFactor;
    var skip := (-|dst|) % srcFactor;
    if dstSubBlockCount != srcSubBlockCount - skip {
      return Err("source and destination block counts do not line up");
    }
    var r0 := ExpandBlockIds(src, srcFactor, output, dstSubBlockCount, 0, skip);
    var r1 := ExpandBlockIds(dst, dstFactor, output, dstSubBlockCount, 1, 0);
    r := Ok(dstSubBlockCount);
  }

  /** A staging slot maps onto a chunk of GPU blocks exactly when the chunk has 1 to `factor` ids. */
  lemma LoadMappingLinesUpIff(factor: nat, chunkSize: nat)
    requires factor > 0
    ensures LinesUp(1, factor, chunkSize, 1) <==> 1 <= chunkSize <= factor
    ensures 1 <= chunkSize <= factor ==> Skipped(chunkSize, factor) == factor - chunkSize
  {
    if 1 <= chunkSize <= factor {
      NegativeRemainder(chunkSize, factor);
    }
  }

  lemma NegativeRemainder(n: nat, f: nat)
    requires 1 <= n <= f
    ensures (-(n as int)) % f == f - n
  {
    var m := -(n as int);
    var q, r := m / f, m % f;
    assert m == q * f + r && 0 <= r < f;
    assert (q + 1) * f == q * f + f;
    ProductSign(q + 1, f);
  }

  /** Staging a chunk of GPU blocks into a slot needs a full chunk. */
  lemma StoreMappingLinesUpIff(factor: nat, chunkSize: nat)
    requires factor > 0
    ensures LinesUp(chunkSize, 1, 1, factor) <==> chunkSize == factor
    ensures Skipped(1, 1) == 0
  {
  }

  // ---------- Splitting block ids over files ----------

  /** Where the blocks of file `i` start: the first file may start in its middle. */
  function Cut(count: nat, factor: nat, skip: nat, i: nat): (c: nat)
    requires skip < factor
    ensures c <= count
  {
    if i == 0 then 0
    else
      assert i * factor >= factor;
      if count < i * factor - skip then count else i * factor - skip
  }

  lemma CutsOrdered(count: nat, factor: nat, skip: nat, i: nat)
    requires skip < factor
    ensures Cut(count, factor, skip, i) <= Cut(count, factor, skip, i + 1)
  {
    assert (i + 1) * factor == i * factor + factor;
  }

  /** The blocks of file `i`. */
  function Chunk(ids: seq<int>, factor: nat, skip: nat, i: nat): seq<int>
    requires skip < factor
  {
    CutsOrdered(|ids|, factor, skip, i);
    ids[Cut(|ids|, factor, skip, i)..Cut(|ids|, factor, skip, i + 1)]
  }

  /** Splits block ids into per-file chunks. With no files nothing is checked, so any ids are dropped. */
  method SplitBlockIdsForFiles(factor: nat, blockIds: seq<int>, fileCount: nat, firstBlockIndex: int)
    returns (r: Result<seq<seq<int>>>)
    requires factor > 0
    ensures r.Ok? <==> fileCount == 0 || |blockIds| <= fileCount * factor - firstBlockIndex % factor
    ensures r.Ok? ==> |r.value| == fileCount
    ensures r.Ok? ==> forall i :: 0 <= i < fileCount ==>
      r.value[i] == Chunk(blockIds, factor, firstBlockIndex % factor, i)
  {
    if fileCount == 0 {
      return Ok([]);
    }
    var firstBlockSkip := firstBlockIndex % factor;
    var firstSize := if |blockIds| < factor - firstBlockSkip then |blockIds| else factor - firstBlockSkip;
    var chunks: seq<seq<int>> := [];
    var start := 0;
    var size := firstSize;
    for i := 0 to fileCount
      invariant start == Cut(|blockIds|, factor, firstBlockSkip, i)
      invariant size == if i == 0 then firstSize else factor
      invariant |chunks| == i
      invariant forall k :: 0 <= k < i ==> chunks[k] == Chunk(blockIds, factor, firstBlockSkip, k)
    {
      var end := if start + size < |blockIds| then start + size else |blockIds|;
      assert (i + 1) * factor == i * factor + factor;
      chunks := chunks + [blockIds[start..end]];
      start := end;
      size := factor;
    }
    if start != |blockIds| {
      return Err("source and destination block counts do not line up");
    }
    r := Ok(chunks);
  }

  // ---------- Which stored block a destination receives ----------

  /** The position, in the concatenation of the stored files, that the load mapping pairs with the
      `k`-th destination of file `i`. */
  function SourcePosition(count: nat, factor: nat, skip: nat, i: nat, k: nat): int
    requires skip < factor
  {
    var size := Cut(count, factor, skip, i + 1) - Cut(count, factor, skip, i);
    i * factor + (factor - size) + k
  }

  /** Every destination of a load is paired with the stored block at the same distance from the
      starting block. */
  ghost predicate Aligned(count: nat, factor: nat, skip: nat, fileCount: nat)
    requires skip < factor
  {
    forall i, k :: 0 <= i < fileCount && 0 <= k < Cut(count, factor, skip, i + 1) - Cut(count, factor, skip, i) ==>
      SourcePosition(count, factor, skip, i, k) == skip + Cut(count, factor, skip, i) + k
  }

  lemma CutExact(factor: nat, skip: nat, fileCount: nat, i: nat)
    requires skip < factor && 0 < fileCount && i <= fileCount
    ensures fileCount * factor >= factor
    ensures Cut(fileCount * factor - skip, factor, skip, i) == if i == 0 then 0 else i * factor - skip
  {
    assert fileCount * factor >= factor;
    assert i * factor <= fileCount * factor;
  }

  /** A load that splits and maps (every file gets 1 to `factor` blocks) pairs all its destinations
      with the right stored blocks exactly when it covers the files to their end. */
  lemma AlignedIffFullLength(count: nat, factor: nat, skip: nat, fileCount: nat)
    requires skip < factor && fileCount > 0 && count <= fileCount * factor - skip
    requires forall i :: 0 <= i < fileCount ==>
      1 <= Cut(count, factor, skip, i + 1) - Cut(count, factor, skip, i) <= factor
    ensures Aligned(count, factor, skip, fileCount) <==> count == fileCount * factor - skip
  {
    if count == fileCount * factor - skip {
      forall i, k | 0 <= i < fileCount && 0 <= k < Cut(count, factor, skip, i + 1) - Cut(count, factor, skip, i)
        ensures SourcePosition(count, factor, skip, i, k) == skip + Cut(count, factor, skip, i) + k
      {
        CutExact(factor, skip, fileCount, i);
        CutExact(factor, skip, fileCount, i + 1);
        assert (i + 1) * factor == i * factor + factor;
      }
    } else {
      var last := fileCount - 1;
      assert last * factor + factor == fileCount * factor;
      assert Cut(count, factor, skip, last + 1) == count;
      var size := count - Cut(count, factor, skip, last);
      assert SourcePosition(count, factor, skip, last, 0) != skip + Cut(count, factor, skip, last) + 0;
    }
  }

  // ---------- Staging layout ----------

  function Sum(bytes: seq<nat>): nat {
    if bytes == [] then 0 else Sum(bytes[..|bytes| - 1]) + bytes[|bytes| - 1]
  }

  /** Bytes of one slot. */
  function SlotBytes(factor: nat, bytes: seq<nat>): nat { factor * Sum(bytes) }

  /** Where layer `l` starts within a slot. */
  function LayerOffset(factor: nat, bytes: seq<nat>, l: nat): nat
    requires l <= |bytes|
  {
    factor * Sum(bytes[..l])
  }

  method StagingLayerOffsets(factor: nat, bytes: seq<nat>) returns (offsets: seq<nat>)
    ensures |offsets| == |bytes|
    ensures forall l :: 0 <= l < |bytes| ==> offsets[l] == LayerOffset(factor, bytes, l)
  {
    offsets := [];
    var acc := 0;
    for l := 0 to |bytes|
      invariant |offsets| == l && acc == LayerOffset(factor, bytes, l)
      invariant forall i :: 0 <= i < l ==> offsets[i] == LayerOffset(factor, bytes, i)
    {
      offsets := offsets + [acc];
      NextLayer(factor, bytes, l);
      acc := acc + factor * bytes[l];
    }
  }

  lemma NextLayer(factor: nat, bytes: seq<nat>, l: nat)
    requires l < |bytes|
    ensures LayerOffset(factor, bytes, l + 1) == LayerOffset(factor, bytes, l) + factor * bytes[l]
  {
    assert bytes[..l + 1][..l] == bytes[..l];
    Distribute(factor, Sum(bytes[..l]), bytes[l]);
  }

  lemma Distribute(a: int, b: int, c: int)
    ensures a * (b + c) == a * b + a * c
  {
  }

  lemma {:induction false} OffsetsOrdered(factor: nat, bytes: seq<nat>, l: nat, m: nat)
    requires l < m <= |bytes|
    ensures LayerOffset(factor, bytes, l) + factor * bytes[l] <= LayerOffset(factor, bytes, m)
    decreases m - l
  {
    NextLayer(factor, bytes, l);
    if l + 1 < m {
      OffsetsOrdered(factor, bytes, l + 1, m);
      assert factor * bytes[l + 1] >= 0;
    }
  }

  /** Position within a slot of byte `t` of sub-block `r` of layer `l`. */
  function Position(factor: nat, bytes: seq<nat>, l: nat, r: nat, t: nat): nat
    requires l < |bytes|
  {
    LayerOffset(factor, bytes, l) + r * bytes[l] + t
  }

  /** `(l, r, t)` names a byte of a slot. */
  predicate IsCell(factor: nat, bytes: seq<nat>, l: int, r: int, t: int) {
    0 <= l < |bytes| && 0 <= r < factor && 0 <= t < bytes[l]
  }

  lemma CellInLayer(factor: nat, bytes: seq<nat>, l: nat, r: nat, t: nat)
    requires IsCell(factor, bytes, l, r, t)
    ensures LayerOffset(factor, bytes, l) <= Position(factor, bytes, l, r, t)
          < LayerOffset(factor, bytes, l) + factor * bytes[l] <= SlotBytes(factor, bytes)
  {
    assert r * bytes[l] + t < (r + 1) * bytes[l] <= factor * bytes[l];
    OffsetsOrdered(factor, bytes, l, |bytes|);
    assert bytes[..|bytes|] == bytes;
  }

  /** The (layer, sub-block) regions do not overlap, whatever the layer sizes. */
  lemma CellsApart(factor: nat, bytes: seq<nat>, l: nat, r: nat, t: nat, l': nat, r': nat, t': nat)
    requires IsCell(factor, bytes, l, r, t) && IsCell(factor, bytes, l', r', t')
    requires Position(factor, bytes, l, r, t) == Position(factor, bytes, l', r', t')
    ensures l == l' && r == r' && t == t'
  {
    CellInLayer(factor, bytes, l, r, t);
    CellInLayer(factor, bytes, l', r', t');
    if l < l' {
      OffsetsOrdered(factor, bytes, l, l');
    } else if l' < l {
      OffsetsOrdered(factor, bytes, l', l);
    } else {
      QuotientIs(r * bytes[l] + t, bytes[l], r, t);
      QuotientIs(r' * bytes[l] + t', bytes[l], r', t');
    }
  }

  /** The regions leave no gap: every byte of a slot belongs to one. */
  lemma {:induction false} CellsCover(factor: nat, bytes: seq<nat>, q: nat) returns (l: nat, r: nat, t: nat)
    requires q < SlotBytes(factor, bytes)
    ensures IsCell(factor, bytes, l, r, t) && Position(factor, bytes, l, r, t) == q
    decreases |bytes|
  {
    var n := |bytes| - 1;
    assert bytes[..|bytes|] == bytes;
    NextLayer(factor, bytes, n);
    var start := LayerOffset(factor, bytes, n);
    if q < start {
      l, r, t := CellsCover(factor, bytes[..n], q);
      assert bytes[..n][..l] == bytes[..l];
    } else {
      l := n;
      var b := bytes[n];
      r, t := (q - start) / b, (q - start) % b;
      assert q - start == r * b + t;
      QuotientInRange(q - start, b, factor);
    }
  }

  // ---------- Pointers ----------

  /** Addresses: the staging buffer, and the tensor of every layer. */
  datatype Layout = Layout(factor: nat, bytes: seq<nat>, staging: int, gpu: seq<int>) {
    predicate Valid() { factor > 0 && |bytes| == |gpu| }

    /** First byte of sub-block `r` of layer `l` in slot `slot`. */
    function StagingPtr(slot: int, l: nat, r: int): int
      requires Valid() && l < |bytes|
    {
      staging + slot * SlotBytes(factor, bytes) + LayerOffset(factor, bytes, l) + r * bytes[l]
    }

    /** First byte of GPU block `id` of layer `l`. */
    function GpuPtr(l: nat, id: int): int
      requires Valid() && l < |bytes|
    {
      gpu[l] + id * bytes[l]
    }
  }

  /** One region to copy. */
  datatype Entry = Entry(src: int, dst: int, size: nat)

  /** The entry for mapping row `(a, b)` of layer `l`: from staging to GPU, or the other way round. */
  function EntryOf(y: Layout, row: (int, int), slot: int, stagingIsSrc: bool, l: nat): Entry
    requires y.Valid() && l < |y.bytes|
  {
    if stagingIsSrc then Entry(y.StagingPtr(slot, l, row.0 - slot * y.factor), y.GpuPtr(l, row.1), y.bytes[l])
    else Entry(y.GpuPtr(l, row.0), y.StagingPtr(slot, l, row.1 - slot * y.factor), y.bytes[l])
  }

  /** The entries of one layer, row by row. */
  function LayerEntries(y: Layout, mapping: seq<(int, int)>, slot: int, stagingIsSrc: bool, l: nat): seq<Entry>
    requires y.Valid() && l < |y.bytes|
  {
    seq(|mapping|, k requires 0 <= k < |mapping| => EntryOf(y, mapping[k], slot, stagingIsSrc, l))
  }

  /** The entries of the first `layers` layers. */
  function Entries(y: Layout, mapping: seq<(int, int)>, slot: int, stagingIsSrc: bool, layers: nat): (es: seq<Entry>)
    requires y.Valid() && layers <= |y.bytes|
  {
    if layers == 0 then []
    else Entries(y, mapping, slot, stagingIsSrc, layers - 1) + LayerEntries(y, mapping, slot, stagingIsSrc, layers - 1)
  }

  lemma {:induction false} EntriesCount(y: Layout, mapping: seq<(int, int)>, slot: int, stagingIsSrc: bool, layers: nat)
    requires y.Valid() && layers <= |y.bytes|
    ensures |Entries(y, mapping, slot, stagingIsSrc, layers)| == layers * |mapping|
  {
    if layers > 0 {
      EntriesCount(y, mapping, slot, stagingIsSrc, layers - 1);
      assert layers * |mapping| == (layers - 1) * |mapping| + |mapping|;
    }
  }

  lemma EntriesFit(y: Layout, mapping: seq<(int, int)>, slot: int, stagingIsSrc: bool, layers: nat)
    requires y.Valid() && layers < |y.bytes|
    ensures |Entries(y, mapping, slot, stagingIsSrc, layers)| + |mapping| <= |y.bytes| * |mapping|
  {
    EntriesCount(y, mapping, slot, stagingIsSrc, layers);
    NextMultiple(layers, |mapping|);
    Scaled(layers + 1, |y.bytes|, |mapping|);
  }

  /** `es` is written into the three arrays from `start` on. */
  ghost predicate Written(es: seq<Entry>, srcArr: array<int>, dstArr: array<int>, sizesArr: array<int>, start: nat)
    reads srcArr, dstArr, sizesArr
  {
    && start + |es| <= srcArr.Length && srcArr.Length == dstArr.Length == sizesArr.Length
    && forall i :: start <= i < start + |es| ==>
         srcArr[i] == es[i - start].src && dstArr[i] == es[i - start].dst && sizesArr[i] == es[i - start].size
  }

  lemma WrittenConcat(a: seq<Entry>, b: seq<Entry>, srcArr: array<int>, dstArr: array<int>, sizesArr: array<int>, start: nat)
    requires Written(a, srcArr, dstArr, sizesArr, start) && Written(b, srcArr, dstArr, sizesArr, start + |a|)
    ensures Written(a + b, srcArr, dstArr, sizesArr, start)
  {
  }

  /** Fills the pointer arrays for one slot, layer by layer, from `offset` on. */
  method FillSwapPtrs(y: Layout, mapping: seq<(int, int)>, slot: int, stagingIsSrc: bool,
                      srcArr: array<int>, dstArr: array<int>, sizesArr: array<int>, offset: nat)
    returns (end: nat)
    requires y.Valid() && srcArr != dstArr && srcArr != sizesArr && dstArr != sizesArr
    requires offset + |y.bytes| * |mapping| <= srcArr.Length
    requires srcArr.Length == dstArr.Length == sizesArr.Length
    modifies srcArr, dstArr, sizesArr
    ensures end == offset + |y.bytes| * |mapping|
    ensures Written(Entries(y, mapping, slot, stagingIsSrc, |y.bytes|), srcArr, dstArr, sizesArr, offset)
    ensures forall i :: 0 <= i < srcArr.Length && !(offset <= i < end) ==>
      srcArr[i] == old(srcArr[i]) && dstArr[i] == old(dstArr[i]) && sizesArr[i] == old(sizesArr[i])
  {
    var rows := |mapping|;
    var offsets := StagingLayerOffsets(y.factor, y.bytes);
    var slotBase := y.staging + slot * SlotBytes(y.factor, y.bytes);
    end := offset;
    for layer := 0 to |y.bytes|
      invariant end == offset + |Entries(y, mapping, slot, stagingIsSrc, layer)|
      invariant Written(Entries(y, mapping, slot, stagingIsSrc, layer), srcArr, dstArr, sizesArr, offset)
      invariant forall i :: 0 <= i < srcArr.Length && !(offset <= i < end) ==>
        srcArr[i] == old(srcArr[i]) && dstArr[i] == old(dstArr[i]) && sizesArr[i] == old(sizesArr[i])
    {
      var start := end;
      EntriesFit(y, mapping, slot, stagingIsSrc, layer);
      assert slotBase + offsets[layer] == y.StagingPtr(slot, layer, 0);
      hide SlotBytes, LayerOffset, EntryOf;
      FillLayer(y, mapping, slot, stagingIsSrc, layer, slotBase + offsets[layer], srcArr, dstArr, sizesArr, start);
      end := start + rows;
      WrittenConcat(Entries(y, mapping, slot, stagingIsSrc, layer), LayerEntries(y, mapping, slot, stagingIsSrc, layer),
                    srcArr, dstArr, sizesArr, offset);
    }
    EntriesCount(y, mapping, slot, stagingIsSrc, |y.bytes|);
  }

  /** One pass of the loop above: the rows of one layer, whose staging region starts at `layerBase`. */
  method FillLayer(y: Layout, mapping: seq<(int, int)>, slot: int, stagingIsSrc: bool, layer: nat, layerBase: int,
                   srcArr: array<int>, dstArr: array<int>, sizesArr: array<int>, start: nat)
    requires y.Valid() && layer < |y.bytes| && srcArr != dstArr && srcArr != sizesArr && dstArr != sizesArr
    requires start + |mapping| <= srcArr.Length && srcArr.Length == dstArr.Length == sizesArr.Length
    requires layerBase == y.StagingPtr(slot, layer, 0)
    modifies srcArr, dstArr, sizesArr
    ensures Written(LayerEntries(y, mapping, slot, stagingIsSrc, layer), srcArr, dstArr, sizesArr, start)
    ensures forall i :: 0 <= i < srcArr.Length && !(start <= i < start + |mapping|) ==>
      srcArr[i] == old(srcArr[i]) && dstArr[i] == old(dstArr[i]) && sizesArr[i] == old(sizesArr[i])
  {
    var blockBytes := y.bytes[layer];
    for k := 0 to |mapping|
      invariant forall i :: 0 <= i < srcArr.Length && !(start <= i < start + k) ==>
        srcArr[i] == old(srcArr[i]) && dstArr[i] == old(dstArr[i]) && sizesArr[i] == old(sizesArr[i])
      invariant Written(LayerEntries(y, mapping, slot, stagingIsSrc, layer)[..k], srcArr, dstArr, sizesArr, start)
    {
      var local := if stagingIsSrc then mapping[k].0 - slot * y.factor else mapping[k].1 - slot * y.factor;
      var block := if stagingIsSrc then mapping[k].1 else mapping[k].0;
      var stagingPtr := layerBase + local * blockBytes;
      var gpuPtr := y.gpu[layer] + block * blockBytes;
      if stagingIsSrc {
        srcArr[start + k], dstArr[start + k] := stagingPtr, gpuPtr;
      } else {
        srcArr[start + k], dstArr[start + k] := gpuPtr, stagingPtr;
      }
      sizesArr[start + k] := blockBytes;
      assert EntryOf(y, mapping[k], slot, stagingIsSrc, layer)
          == Entry(srcArr[start + k], dstArr[start + k], sizesArr[start + k]);
    }
  }
}
