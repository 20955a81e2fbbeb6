/** The tensor mutation gate of the llama.cpp patch: it decides whether a staged block may be written
    into its layer's K and V tensors, scatters the rows, and reads them back to compare checksums.
 */
module TensorGate {
  import opened Kv
  import opened ByteCopies
  import opened TensorLayout
  import Fnv

  const UINT32_SPAN: nat := 0x1_0000_0000
  const UINT64_SPAN: nat := 0x1_0000_0000_0000_0000

  datatype TensorShape = TensorShape(ne0: nat, ne2: nat, typeSize: nat, blockSize: nat) {
    function RowSize(): nat {
      if blockSize == 0 then 0 else typeSize * ne0 / blockSize
    }
  }

  /** A backend tensor: its shape and its bytes. */
  class Tensor {
    const shape: TensorShape
    const data: array<Byte>

    constructor (shape: TensorShape, data: array<Byte>)
      ensures this.shape == shape && this.data == data
    {
      this.shape := shape;
      this.data := data;
    }
  }

  /** What the gate can see of one layer: the two tensors, the cache size in cells, the V layout. */
  datatype Site = Site(k: Option<TensorShape>, v: Option<TensorShape>, cache: nat, vTrans: bool)

  datatype Verdict = Unsupported | SizeMismatch | BoundsError(errors: nat) | Copied

  /** The cells of the block past the cache; none when the cache size is not known. */
  function CellsPast(cell: nat, tokens: nat, cache: nat): nat {
    if cache > 0 && cell + tokens > cache then cell + tokens - (if cell < cache then cache else cell) else 0
  }

  /** The C++ count of ranges past the cache, in 32-bit arithmetic. */
  function BoundsErrors(cell: nat, tokens: nat, cache: nat): nat {
    CellsPast(cell, tokens, cache) % UINT32_SPAN * 2 % UINT32_SPAN
  }

  /** The gate's checks, in the order in which it makes them. */
  function Judge(g: Rows, size: int, site: Site): Verdict {
    if site.k.None? || site.v.None? || site.k.value.ne2 != 1 || site.v.value.ne2 != 1 then Unsupported
    else if g.tokens == 0 || size <= 0 || g.keyRow == 0 || g.valueRow == 0 then SizeMismatch
    else if g.Size() != size then SizeMismatch
    else if site.cache > 0 && g.CellEnd() > site.cache then BoundsError(BoundsErrors(g.cell, g.tokens, site.cache))
    else if site.k.value.RowSize() != g.keyRow then SizeMismatch
    else if !site.vTrans && site.v.value.RowSize() != g.valueRow then SizeMismatch
    else if site.vTrans && (site.v.value.blockSize != 1 || site.v.value.ne0 * site.v.value.typeSize != g.valueRow) then Unsupported
    else Copied
  }

  /** The V tensor takes rows of `row` bytes in the layout of the cache: a transposed one element by element. */
  predicate ValueRowIs(v: TensorShape, vTrans: bool, row: nat) {
    if vTrans then v.blockSize == 1 && v.ne0 * v.typeSize == row else v.RowSize() == row
  }

  /** What a staged block must be for the layer's tensors: its cells lie in the cache, and its size is one K
      row and one equal V row per token. */
  predicate FitsTensors(site: Site, cell: nat, tokens: nat, size: int) {
    && site.k.Some? && site.v.Some? && site.k.value.ne2 == site.v.value.ne2 == 1
    && var row := site.k.value.RowSize();
       && row > 0 && tokens > 0 && size == tokens * (2 * row)
       && ValueRowIs(site.v.value, site.vTrans, row)
       && (site.cache > 0 ==> cell + tokens <= site.cache)
  }

  lemma {:induction false} RowSizeOfBlocks(q: nat, blockSize: nat, typeSize: nat, ne2: nat)
    requires blockSize > 0
    ensures TensorShape(q * blockSize, ne2, typeSize, blockSize).RowSize() == q * typeSize
  {
    Division(typeSize * (q * blockSize), blockSize, typeSize * q);
  }

  /** Tensors of `ne0` elements of `el` bytes per cell take every block that is staged with their rows and
      lies in the cache, in both V layouts. */
  lemma {:induction false} PlainTensorsFit(site: Site, ne0: nat, el: nat, cell: nat, tokens: nat)
    requires site.k == site.v == Some(TensorShape(ne0, 1, el, 1))
    requires ne0 * el > 0 && tokens > 0 && cell + tokens <= site.cache
    ensures FitsTensors(site, cell, tokens, tokens * (2 * (ne0 * el)))
  {
    RowSizeOfBlocks(ne0, 1, el, 1);
  }

  /** The tensors have one row per cache cell. */
  predicate Shaped(site: Site, k: nat, v: nat) {
    && site.cache > 0
    && (site.k.Some? ==> k == site.cache * site.k.value.RowSize())
    && (site.v.Some? ==> v == site.cache * site.v.value.RowSize())
  }

  function ElementLayout(site: Site): Transposed
    requires site.v.Some?
  {
    Transposed(site.v.value.ne0, site.v.value.typeSize, site.cache)
  }

  /** The copies that write the first `n` V rows. */
  function ValuePlan(g: Rows, site: Site, n: nat): seq<Copy>
    requires site.v.Some?
  {
    if site.vTrans then ElementCopies(g, ElementLayout(site), n) else ValueCopies(g, n)
  }

  lemma PlansFit(g: Rows, size: int, site: Site, k: nat, v: nat, n: nat)
    requires Shaped(site, k, v) && Judge(g, size, site).Copied? && n <= g.tokens
    ensures size == g.Size()
    ensures AllFit(KeyCopies(g, n), size, k)
    ensures AllFit(ValuePlan(g, site, n), size, v)
  {
    KeyCopiesFit(g, site.cache, n);
    if site.vTrans {
      var x := ElementLayout(site);
      assert site.v.value.RowSize() == g.valueRow;
      ElementCopiesFit(g, x, n);
    } else {
      ValueCopiesFit(g, site.cache, n);
    }
  }

  lemma PlansApart(g: Rows, size: int, site: Site, n: nat)
    requires Judge(g, size, site).Copied? && site.cache > 0 && n <= g.tokens
    ensures PairwiseApart(KeyCopies(g, n)) && PairwiseApart(ValuePlan(g, site, n))
  {
    KeyCopiesApart(g, n);
    if site.vTrans {
      ElementCopiesApart(g, ElementLayout(site), n);
    } else {
      ValueCopiesApart(g, n);
    }
  }

  /** Every K and V row of the block is in place. */
  ghost predicate Landed(k: seq<Byte>, v: seq<Byte>, image: seq<Byte>, g: Rows, site: Site)
    requires Shaped(site, |k|, |v|) && Judge(g, |image|, site).Copied?
  {
    PlansFit(g, |image|, site, |k|, |v|, g.tokens);
    && AllHold(k, image, KeyCopies(g, g.tokens))
    && AllHold(v, image, ValuePlan(g, site, g.tokens))
  }

  function WriteKeys(k: seq<Byte>, image: seq<Byte>, g: Rows, site: Site): (r: seq<Byte>)
    requires site.k.Some? && AllFit(KeyCopies(g, g.tokens), |image|, |k|)
    ensures |r| == |k|
  {
    Apply(k, image, KeyCopies(g, g.tokens))
  }

  function WriteValues(v: seq<Byte>, image: seq<Byte>, g: Rows, site: Site): (r: seq<Byte>)
    requires site.v.Some? && AllFit(ValuePlan(g, site, g.tokens), |image|, |v|)
    ensures |r| == |v|
  {
    Apply(v, image, ValuePlan(g, site, g.tokens))
  }

  /** The copy loop delivers every row of the block, in both V layouts. */
  lemma ScatterLands(k: seq<Byte>, v: seq<Byte>, image: seq<Byte>, g: Rows, site: Site)
    requires Shaped(site, |k|, |v|) && Judge(g, |image|, site).Copied?
    ensures AllFit(KeyCopies(g, g.tokens), |image|, |k|) && AllFit(ValuePlan(g, site, g.tokens), |image|, |v|)
    ensures Landed(WriteKeys(k, image, g, site), WriteValues(v, image, g, site), image, g, site)
  {
    PlansFit(g, |image|, site, |k|, |v|, g.tokens);
    PlansApart(g, |image|, site, g.tokens);
    ApplyDelivers(k, image, KeyCopies(g, g.tokens));
    ApplyDelivers(v, image, ValuePlan(g, site, g.tokens));
  }

  /** What `Landed` means for one byte: byte `b` of token `t`'s K row, and element `j` of its V row. */
  lemma LandedBytes(k: seq<Byte>, v: seq<Byte>, image: seq<Byte>, g: Rows, site: Site, t: nat, b: nat)
    requires Shaped(site, |k|, |v|) && Judge(g, |image|, site).Copied? && Landed(k, v, image, g, site)
    requires t < g.tokens
    ensures b < g.keyRow ==>
      0 <= (g.cell + t) * g.keyRow + b < |k| && 0 <= t * g.Stride() + b < |image| &&
      k[(g.cell + t) * g.keyRow + b] == image[t * g.Stride() + b]
    ensures !site.vTrans && b < g.valueRow ==>
      0 <= (g.cell + t) * g.valueRow + b < |v| && 0 <= t * g.Stride() + g.keyRow + b < |image| &&
      v[(g.cell + t) * g.valueRow + b] == image[t * g.Stride() + g.keyRow + b]
  {
    PlansFit(g, |image|, site, |k|, |v|, g.tokens);
    if b < g.keyRow {
      var c := KeyCopies(g, g.tokens)[t];
      assert Fits(c, |image|, |k|) && Holds(k, image, c);
      HoldsAt(k, image, c, b);
    }
    if !site.vTrans && b < g.valueRow {
      var c := ValuePlan(g, site, g.tokens)[t];
      assert c == ValueCopy(g, t);
      assert Fits(c, |image|, |v|) && Holds(v, image, c);
      HoldsAt(v, image, c, b);
    }
  }

  /** And for a transposed V tensor: byte `b` of element `j` of token `t`. */
  lemma LandedElements(k: seq<Byte>, v: seq<Byte>, image: seq<Byte>, g: Rows, site: Site, t: nat, j: nat, b: nat)
    requires Shaped(site, |k|, |v|) && Judge(g, |image|, site).Copied? && Landed(k, v, image, g, site) && site.vTrans
    requires t < g.tokens && j < site.v.value.ne0 && b < site.v.value.typeSize
    ensures var el, at := site.v.value.typeSize, (g.cell + t + j * site.cache) * site.v.value.typeSize + b;
      var from := t * g.Stride() + g.keyRow + j * el + b;
      0 <= at < |v| && 0 <= from < |image| && v[at] == image[from]
  {
    PlansFit(g, |image|, site, |k|, |v|, g.tokens);
    var x := ElementLayout(site);
    ElementCopyIn(g, x, g.tokens, t, j);
    var cs := ValuePlan(g, site, g.tokens);
    var i :| 0 <= i < |cs| && cs[i] == ElementCopy(g, x, t, j);
    assert Fits(cs[i], |image|, |v|) && Holds(v, image, cs[i]);
    HoldsAt(v, image, cs[i], b);
  }

  /** Writing another block of the layer leaves a landed block in place when their cells are disjoint. */
  lemma ScatterKeepsOthers(k: seq<Byte>, v: seq<Byte>, mine: seq<Byte>, g: Rows, other: seq<Byte>, h: Rows, site: Site)
    requires Shaped(site, |k|, |v|)
    requires Judge(g, |mine|, site).Copied? && Judge(h, |other|, site).Copied?
    requires Landed(k, v, mine, g, site) && CellsDisjoint(g, h)
    ensures AllFit(KeyCopies(h, h.tokens), |other|, |k|) && AllFit(ValuePlan(h, site, h.tokens), |other|, |v|)
    ensures Landed(WriteKeys(k, other, h, site), WriteValues(v, other, h, site), mine, g, site)
  {
    PlansFit(g, |mine|, site, |k|, |v|, g.tokens);
    PlansFit(h, |other|, site, |k|, |v|, h.tokens);
    KeyCopiesOfBlocksApart(g, h);
    KeepAll(k, other, KeyCopies(h, h.tokens), mine, KeyCopies(g, g.tokens));
    if site.vTrans {
      ElementCopiesOfBlocksApart(g, h, ElementLayout(site));
    } else {
      ValueCopiesOfBlocksApart(g, h);
    }
    KeepAll(v, other, ValuePlan(h, site, h.tokens), mine, ValuePlan(g, site, g.tokens));
  }

  lemma KeepAll(to: seq<Byte>, from: seq<Byte>, cs: seq<Copy>, image: seq<Byte>, kept: seq<Copy>)
    requires AllFit(cs, |from|, |to|) && AllFit(kept, |image|, |to|)
    requires AllApart(kept, cs) && AllHold(to, image, kept)
    ensures AllHold(Apply(to, from, cs), image, kept)
  {
    forall i | 0 <= i < |kept| ensures Holds(Apply(to, from, cs), image, kept[i]) {
      assert Holds(to, image, kept[i]);
      ApplyKeeps(to, from, cs, image, kept[i]);
    }
  }

  // ---------- checksums ----------

  /** The row-by-row fold over the K rows (`at == 0`) or the V rows (`at == keyRow`) of a staged block. */
  function RowsHash(image: seq<Byte>, stride: nat, at: nat, row: nat, n: nat): bv64
    requires at + row <= stride && n * stride <= |image|
  {
    if n == 0 then Fnv.OFFSET
    else
      MulNext(n - 1, stride);
      Fnv.Hash(RowsHash(image, stride, at, row, n - 1), RowAt(image, stride, at, row, n - 1))
  }

  /** One row of token `t`, `at` bytes into its stride. */
  function RowAt(image: seq<Byte>, stride: nat, at: nat, row: nat, t: nat): (r: seq<Byte>)
    requires at + row <= stride && (t + 1) * stride <= |image|
    ensures |r| == row
  {
    MulNext(t, stride);
    Slice(image, t * stride + at, row)
  }

  method StagingChecksum(image: seq<Byte>, g: Rows, valueRowsOnly: bool) returns (hash: bv64)
    requires g.Size() <= |image|
    ensures g.keyRow > 0 && g.valueRow > 0 ==>
      hash == if valueRowsOnly then RowsHash(image, g.Stride(), g.keyRow, g.valueRow, g.tokens)
              else RowsHash(image, g.Stride(), 0, g.keyRow, g.tokens)
    ensures g.keyRow == 0 || g.valueRow == 0 ==> hash == Fnv.OFFSET
  {
    hash := Fnv.OFFSET;
    if g.keyRow == 0 || g.valueRow == 0 {
      return;
    }
    var row := if valueRowsOnly then g.valueRow else g.keyRow;
    var at := if valueRowsOnly then g.keyRow else 0;
    var stride := g.Stride();
    var t := 0;
    while t < g.tokens
      invariant 0 <= t <= g.tokens
      invariant 0 <= t * stride <= |image|
      invariant hash == RowsHash(image, stride, at, row, t)
    {
      RowInside(image, g, t);
      hash := Fnv.Update(hash, RowAt(image, stride, at, row, t));
      t := t + 1;
    }
  }

  lemma RowInside(image: seq<Byte>, g: Rows, t: nat)
    requires g.Size() <= |image| && t < g.tokens
    ensures (t + 1) * g.Stride() == t * g.Stride() + g.Stride() <= |image|
  {
    MulMono(t + 1, g.tokens, g.Stride());
    MulNext(t, g.Stride());
  }

  method TensorSet(tensor: Tensor, bytes: seq<Byte>, offset: nat)
    requires offset + |bytes| <= tensor.data.Length
    modifies tensor.data
    ensures tensor.data[..] == Splice(old(tensor.data[..]), offset, bytes)
  {
    var i := 0;
    while i < |bytes|
      invariant 0 <= i <= |bytes|
      invariant forall j :: 0 <= j < tensor.data.Length ==>
        tensor.data[j] == if offset <= j < offset + i then bytes[j - offset] else old(tensor.data[j])
    {
      tensor.data[offset + i] := bytes[i];
      i := i + 1;
    }
  }

  method TensorGet(tensor: Tensor, offset: nat, size: nat) returns (bytes: seq<Byte>)
    requires offset + size <= tensor.data.Length
    ensures bytes == Slice(tensor.data[..], offset, size)
  {
    bytes := tensor.data[offset..offset + size];
  }

  lemma ReadAfterWrite(s: seq<Byte>, at: nat, bytes: seq<Byte>)
    requires at + |bytes| <= |s|
    ensures Slice(Splice(s, at, bytes), at, |bytes|) == bytes
  {
  }

  /** Write one range, read it back, and fold what was read. */
  method CopyAndFold(image: seq<Byte>, tensor: Tensor, c: Copy, hash: bv64) returns (post: bv64)
    requires Fits(c, |image|, tensor.data.Length)
    modifies tensor.data
    ensures tensor.data[..] == Splice(old(tensor.data[..]), c.dst, Slice(image, c.src, c.len))
    ensures post == Fnv.Hash(hash, Slice(image, c.src, c.len))
  {
    var bytes := Slice(image, c.src, c.len);
    ghost var before := tensor.data[..];
    TensorSet(tensor, bytes, c.dst);
    ReadAfterWrite(before, c.dst, bytes);
    var back := TensorGet(tensor, c.dst, c.len);
    post := Fnv.Update(hash, back);
  }

  /** The list of copies performed when `t` rows and `j` elements of the next row are written. */
  function ElementsDone(g: Rows, x: Transposed, t: nat, j: nat): seq<Copy> {
    ElementCopies(g, x, t) + RowElements(g, x, t, j)
  }

  ghost predicate ElementContext(image: seq<Byte>, room: nat, g: Rows, x: Transposed, t: nat) {
    ElementsFitRow(g, x) && t < g.tokens && g.Size() == |image| && room == x.cache * g.valueRow
  }

  function ValueRow(image: seq<Byte>, g: Rows, t: nat): (r: seq<Byte>)
    requires t < g.tokens && g.Size() == |image|
    ensures |r| == g.valueRow
  {
    RowInside(image, g, t);
    RowAt(image, g.Stride(), g.keyRow, g.valueRow, t)
  }

  function KeyRow(image: seq<Byte>, g: Rows, t: nat): (r: seq<Byte>)
    requires t < g.tokens && g.Size() == |image|
    ensures |r| == g.keyRow
  {
    RowInside(image, g, t);
    RowAt(image, g.Stride(), 0, g.keyRow, t)
  }

  /** The first `j` elements of a row. */
  function ElementsRead(row: seq<Byte>, el: nat, j: nat): (r: seq<Byte>)
    requires j * el <= |row|
    ensures |r| == j * el
  {
    assert 0 <= j * el;
    row[..j * el]
  }

  lemma ElementFollows(row: seq<Byte>, el: nat, j: nat)
    requires (j + 1) * el <= |row|
    ensures 0 <= j * el && j * el + el <= |row|
    ensures ElementsRead(row, el, j) + Slice(row, j * el, el) == ElementsRead(row, el, j + 1)
  {
    MulNext(j, el);
  }

  lemma ElementStep(image: seq<Byte>, before: seq<Byte>, g: Rows, x: Transposed, t: nat, j: nat)
    requires ElementContext(image, |before|, g, x, t) && j < x.width
    requires AllFit(ElementsDone(g, x, t, j), |image|, |before|)
    ensures Fits(ElementCopy(g, x, t, j), |image|, |before|)
    ensures AllFit(ElementsDone(g, x, t, j + 1), |image|, |before|)
    ensures var c := ElementCopy(g, x, t, j);
      Apply(before, image, ElementsDone(g, x, t, j + 1))
        == Splice(Apply(before, image, ElementsDone(g, x, t, j)), c.dst, Slice(image, c.src, c.len))
  {
    ElementCopyFits(g, x, t, j);
    ApplySnoc(before, image, ElementsDone(g, x, t, j), ElementCopy(g, x, t, j));
    assert ElementsDone(g, x, t, j) + [ElementCopy(g, x, t, j)] == ElementsDone(g, x, t, j + 1);
  }

  lemma SliceOfSlice(s: seq<Byte>, at: nat, len: nat, i: nat, n: nat)
    requires at + len <= |s| && i + n <= len
    ensures Slice(Slice(s, at, len), i, n) == Slice(s, at + i, n)
  {
    forall k | 0 <= k < n ensures Slice(Slice(s, at, len), i, n)[k] == Slice(s, at + i, n)[k] {
      assert Slice(s, at, len)[i + k] == s[at + i + k];
    }
  }

  lemma ElementBounds(g: Rows, x: Transposed, j: nat)
    requires ElementsFitRow(g, x) && j < x.width
    ensures 0 <= j * x.el && j * x.el + x.el <= g.valueRow && (j + 1) * x.el <= g.valueRow
  {
    MulMono(j + 1, x.width, x.el);
    MulNext(j, x.el);
  }

  lemma ValueRowSlice(image: seq<Byte>, g: Rows, t: nat)
    requires t < g.tokens && g.Size() == |image|
    ensures 0 <= t * g.Stride() && t * g.Stride() + g.keyRow + g.valueRow <= |image|
    ensures ValueRow(image, g, t) == Slice(image, t * g.Stride() + g.keyRow, g.valueRow)
  {
    RowInside(image, g, t);
  }

  lemma ElementSource(image: seq<Byte>, g: Rows, x: Transposed, t: nat, j: nat)
    requires t < g.tokens && g.Size() == |image|
    requires 0 <= j * x.el && j * x.el + x.el <= g.valueRow
    ensures var c := ElementCopy(g, x, t, j);
      c.src + c.len <= |image| && c.len == x.el && Slice(image, c.src, x.el) == Slice(ValueRow(image, g, t), j * x.el, x.el)
  {
    ValueRowSlice(image, g, t);
    hide ValueRow, Slice;
    var start, within: nat := t * g.Stride() + g.keyRow, j * x.el;
    SliceOfSlice(image, start, g.valueRow, within, x.el);
  }

  lemma ElementHash(image: seq<Byte>, room: nat, g: Rows, x: Transposed, t: nat, j: nat, hash: bv64)
    requires ElementContext(image, room, g, x, t) && j < x.width
    ensures (j + 1) * x.el <= g.valueRow && j * x.el <= g.valueRow
    ensures Fits(ElementCopy(g, x, t, j), |image|, room)
    ensures var c, row := ElementCopy(g, x, t, j), ValueRow(image, g, t);
      Fnv.Hash(Fnv.Hash(hash, ElementsRead(row, x.el, j)), Slice(image, c.src, c.len))
        == Fnv.Hash(hash, ElementsRead(row, x.el, j + 1))
  {
    var row := ValueRow(image, g, t);
    ElementBounds(g, x, j);
    ElementCopyFits(g, x, t, j);
    ElementSource(image, g, x, t, j);
    ElementFollows(row, x.el, j);
    Fnv.HashConcat(hash, ElementsRead(row, x.el, j), Slice(row, j * x.el, x.el));
  }

  lemma ElementsStart(image: seq<Byte>, g: Rows, x: Transposed, t: nat)
    requires ElementsFitRow(g, x) && t < g.tokens && g.Size() == |image|
    ensures ElementsDone(g, x, t, 0) == ElementCopies(g, x, t)
    ensures ElementsDone(g, x, t, x.width) == ElementCopies(g, x, t + 1)
    ensures ElementsRead(ValueRow(image, g, t), x.el, 0) == []
    ensures ElementsRead(ValueRow(image, g, t), x.el, x.width) == ValueRow(image, g, t)
  {
    assert RowElements(g, x, t, 0) == [];
  }

  /** The transposed write of one V row: element by element, each read back into the checksum. */
  method CopyElements(image: seq<Byte>, g: Rows, x: Transposed, v: Tensor, t: nat, hash: bv64, ghost before: seq<Byte>)
    returns (post: bv64)
    requires ElementContext(image, v.data.Length, g, x, t) && |before| == v.data.Length
    requires AllFit(ElementCopies(g, x, t), |image|, |before|)
    requires v.data[..] == Apply(before, image, ElementCopies(g, x, t))
    modifies v.data
    ensures AllFit(ElementCopies(g, x, t + 1), |image|, |before|)
    ensures v.data[..] == Apply(before, image, ElementCopies(g, x, t + 1))
    ensures post == Fnv.Hash(hash, ValueRow(image, g, t))
  {
    ElementsStart(image, g, x, t);
    post := hash;
    var j := 0;
    while j < x.width
      invariant 0 <= j <= x.width && j * x.el <= g.valueRow
      invariant AllFit(ElementsDone(g, x, t, j), |image|, |before|)
      invariant v.data[..] == Apply(before, image, ElementsDone(g, x, t, j))
      invariant post == Fnv.Hash(hash, ElementsRead(ValueRow(image, g, t), x.el, j))
    {
      ElementStep(image, before, g, x, t, j);
      ElementHash(image, |before|, g, x, t, j, hash);
      post := CopyAndFold(image, v, ElementCopy(g, x, t, j), post);
      j := j + 1;
    }
  }

  lemma KeyStep(image: seq<Byte>, before: seq<Byte>, g: Rows, cache: nat, t: nat)
    requires g.CellEnd() <= cache && t < g.tokens && g.Size() == |image| && |before| == cache * g.keyRow
    requires AllFit(KeyCopies(g, t), |image|, |before|)
    ensures Fits(KeyCopy(g, t), |image|, |before|)
    ensures Slice(image, KeyCopy(g, t).src, g.keyRow) == KeyRow(image, g, t)
    ensures AllFit(KeyCopies(g, t + 1), |image|, |before|)
    ensures var c := KeyCopy(g, t);
      Apply(before, image, KeyCopies(g, t + 1)) == Splice(Apply(before, image, KeyCopies(g, t)), c.dst, Slice(image, c.src, c.len))
  {
    KeyCopyFits(g, cache, t);
    ApplySnoc(before, image, KeyCopies(g, t), KeyCopy(g, t));
    assert KeyCopies(g, t) + [KeyCopy(g, t)] == KeyCopies(g, t + 1);
  }

  lemma ValueStep(image: seq<Byte>, before: seq<Byte>, g: Rows, cache: nat, t: nat)
    requires g.CellEnd() <= cache && t < g.tokens && g.Size() == |image| && |before| == cache * g.valueRow
    requires AllFit(ValueCopies(g, t), |image|, |before|)
    ensures Fits(ValueCopy(g, t), |image|, |before|)
    ensures Slice(image, ValueCopy(g, t).src, g.valueRow) == ValueRow(image, g, t)
    ensures AllFit(ValueCopies(g, t + 1), |image|, |before|)
    ensures var c := ValueCopy(g, t);
      Apply(before, image, ValueCopies(g, t + 1)) == Splice(Apply(before, image, ValueCopies(g, t)), c.dst, Slice(image, c.src, c.len))
  {
    ValueCopyFits(g, cache, t);
    ApplySnoc(before, image, ValueCopies(g, t), ValueCopy(g, t));
    assert ValueCopies(g, t) + [ValueCopy(g, t)] == ValueCopies(g, t + 1);
  }

  /** What `Copied` tells the copy loop. */
  lemma CopiedFacts(g: Rows, size: nat, site: Site, k: nat, v: nat)
    requires Shaped(site, k, v) && Judge(g, size, site).Copied?
    ensures g.Size() == size && g.CellEnd() <= site.cache
    ensures k == site.cache * g.keyRow && v == site.cache * g.valueRow
    ensures site.vTrans ==> ElementsFitRow(g, ElementLayout(site))
  {
  }

  /** The write of one V row in the layout of the cache. */
  method CopyValueRow(image: seq<Byte>, g: Rows, site: Site, v: Tensor, t: nat, hash: bv64, ghost before: seq<Byte>)
    returns (post: bv64)
    requires site.v.Some? && g.Size() == |image| && g.CellEnd() <= site.cache && t < g.tokens
    requires site.vTrans ==> ElementsFitRow(g, ElementLayout(site))
    requires |before| == v.data.Length == site.cache * g.valueRow
    requires AllFit(ValuePlan(g, site, t), |image|, |before|)
    requires v.data[..] == Apply(before, image, ValuePlan(g, site, t))
    modifies v.data
    ensures AllFit(ValuePlan(g, site, t + 1), |image|, |before|)
    ensures v.data[..] == Apply(before, image, ValuePlan(g, site, t + 1))
    ensures post == Fnv.Hash(hash, ValueRow(image, g, t))
  {
    if site.vTrans {
      post := CopyElements(image, g, ElementLayout(site), v, t, hash, before);
    } else {
      ValueStep(image, before, g, site.cache, t);
      post := CopyAndFold(image, v, ValueCopy(g, t), hash);
    }
  }

  lemma RowsHashNext(image: seq<Byte>, g: Rows, t: nat)
    requires g.Size() == |image| && t < g.tokens
    ensures t * g.Stride() <= |image| && (t + 1) * g.Stride() <= |image|
    ensures RowsHash(image, g.Stride(), 0, g.keyRow, t + 1)
         == Fnv.Hash(RowsHash(image, g.Stride(), 0, g.keyRow, t), KeyRow(image, g, t))
    ensures RowsHash(image, g.Stride(), g.keyRow, g.valueRow, t + 1)
         == Fnv.Hash(RowsHash(image, g.Stride(), g.keyRow, g.valueRow, t), ValueRow(image, g, t))
  {
    RowInside(image, g, t);
  }

  /** The copy loop: write each token's K row and V row and fold what is read back. The tensors end as
      the specified scatter, and the two read-back checksums equal the staging checksums. */
  method CopyRows(image: seq<Byte>, g: Rows, site: Site, k: Tensor, v: Tensor) returns (postKey: bv64, postValue: bv64)
    requires k.data != v.data
    requires site.k == Some(k.shape) && site.v == Some(v.shape)
    requires Shaped(site, k.data.Length, v.data.Length)
    requires Judge(g, |image|, site).Copied?
    modifies k.data, v.data
    ensures AllFit(KeyCopies(g, g.tokens), |image|, k.data.Length)
    ensures AllFit(ValuePlan(g, site, g.tokens), |image|, v.data.Length)
    ensures k.data[..] == WriteKeys(old(k.data[..]), image, g, site)
    ensures v.data[..] == WriteValues(old(v.data[..]), image, g, site)
    ensures g.Size() == |image|
    ensures postKey == RowsHash(image, g.Stride(), 0, g.keyRow, g.tokens)
    ensures postValue == RowsHash(image, g.Stride(), g.keyRow, g.valueRow, g.tokens)
  {
    ghost var k0, v0 := k.data[..], v.data[..];
    CopiedFacts(g, |image|, site, |k0|, |v0|);
    postKey, postValue := CopyRowLoop(image, g, site, k, v, k0, v0);
  }

  method CopyRowLoop(image: seq<Byte>, g: Rows, site: Site, k: Tensor, v: Tensor, ghost k0: seq<Byte>, ghost v0: seq<Byte>)
    returns (postKey: bv64, postValue: bv64)
    requires k.data != v.data && site.v.Some?
    requires g.Size() == |image| && g.CellEnd() <= site.cache
    requires site.vTrans ==> ElementsFitRow(g, ElementLayout(site))
    requires k.data.Length == site.cache * g.keyRow && v.data.Length == site.cache * g.valueRow
    requires k0 == k.data[..] && v0 == v.data[..]
    modifies k.data, v.data
    ensures AllFit(KeyCopies(g, g.tokens), |image|, |k0|) && AllFit(ValuePlan(g, site, g.tokens), |image|, |v0|)
    ensures k.data[..] == Apply(k0, image, KeyCopies(g, g.tokens))
    ensures v.data[..] == Apply(v0, image, ValuePlan(g, site, g.tokens))
    ensures postKey == RowsHash(image, g.Stride(), 0, g.keyRow, g.tokens)
    ensures postValue == RowsHash(image, g.Stride(), g.keyRow, g.valueRow, g.tokens)
  {
    postKey, postValue := Fnv.OFFSET, Fnv.OFFSET;
    var t := 0;
    while t < g.tokens
      invariant 0 <= t <= g.tokens && t * g.Stride() <= |image|
      invariant AllFit(KeyCopies(g, t), |image|, |k0|) && AllFit(ValuePlan(g, site, t), |image|, |v0|)
      invariant k.data[..] == Apply(k0, image, KeyCopies(g, t))
      invariant v.data[..] == Apply(v0, image, ValuePlan(g, site, t))
      invariant postKey == RowsHash(image, g.Stride(), 0, g.keyRow, t)
      invariant postValue == RowsHash(image, g.Stride(), g.keyRow, g.valueRow, t)
    {
      RowsHashNext(image, g, t);
      KeyStep(image, k0, g, site.cache, t);
      postKey := CopyAndFold(image, k, KeyCopy(g, t), postKey);
      postValue := CopyValueRow(image, g, site, v, t, postValue, v0);
      t := t + 1;
    }
  }
}
