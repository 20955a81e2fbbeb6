/** The SSD layout allocator: aligned, contiguous byte ranges for blocks, assigned in the order in which
    the blocks are added.
 */
module SsdLayout {
  import opened Kv
  import opened Blocks

  datatype SSDRange = SSDRange(key: BlockKey, offset: int, size: int) {
    function End(): int {
      offset + size
    }
  }

  datatype LayoutError = RangeExists(key: BlockKey) | SizeNotPositive(key: BlockKey) | UnknownRange(key: BlockKey)

  function Align(offset: nat, alignment: nat): nat
    requires alignment > 0
  {
    var remainder := offset % alignment;
    if remainder == 0 then offset else offset + alignment - remainder
  }

  /** Alignment picks the least multiple that is not below the offset. */
  lemma {:induction false} AlignIsLeast(offset: nat, alignment: nat)
    requires alignment > 0
    ensures Align(offset, alignment) % alignment == 0
    ensures offset <= Align(offset, alignment) < offset + alignment
    ensures forall m: nat :: m % alignment == 0 && offset <= m ==> Align(offset, alignment) <= m
  {
    var q, r := offset / alignment, offset % alignment;
    assert offset == q * alignment + r;
    if r != 0 {
      assert Align(offset, alignment) == (q + 1) * alignment;
      MultipleModulo(q + 1, alignment);
    }
    forall m: nat | m % alignment == 0 && offset <= m ensures Align(offset, alignment) <= m {
      var p := m / alignment;
      assert m == p * alignment;
      if p <= q {
        ProductMono(p, q, alignment);
      } else {
        ProductMono(q + 1, p, alignment);
      }
    }
  }

  lemma {:induction false} MultipleModulo(q: nat, n: nat)
    requires n > 0
    ensures (q * n) % n == 0
  {
    var d, r := (q * n) / n, (q * n) % n;
    assert q * n == d * n + r && (d + 1) * n == d * n + n;
    if d < q {
      ProductMono(d + 1, q, n);
    } else {
      ProductMono(q, d, n);
    }
  }

  lemma {:induction false} ProductMono(a: nat, b: nat, n: nat)
    requires a <= b
    ensures a * n <= b * n
  {
  }

  datatype Layout = Layout(base: nat, alignment: nat, ranges: seq<SSDRange>)

  /** The largest end offset of the ranges, or the base offset when there are none. */
  function NextOffset(base: nat, ranges: seq<SSDRange>): int {
    if ranges == [] then base
    else if |ranges| == 1 then ranges[0].End()
    else
      var m := NextOffset(base, ranges[..|ranges| - 1]);
      if ranges[|ranges| - 1].End() > m then ranges[|ranges| - 1].End() else m
  }

  function TotalSize(l: Layout): int {
    if l.ranges == [] then 0 else NextOffset(l.base, l.ranges) - l.base
  }

  predicate HasRange(ranges: seq<SSDRange>, key: BlockKey) {
    exists i :: 0 <= i < |ranges| && ranges[i].key == key
  }

  /** Where the range added as number `i` had to start looking. */
  function PreviousEnd(l: Layout, i: nat): int
    requires i <= |l.ranges|
  {
    if i == 0 then l.base else l.ranges[i - 1].End()
  }

  /** The invariant of the allocator: every range has its own key and a positive size, and starts at the
      alignment of the previous range's end. */
  ghost predicate WellLaid(l: Layout) {
    && l.alignment > 0
    && (forall i, j :: 0 <= i < j < |l.ranges| ==> l.ranges[i].key != l.ranges[j].key)
    && (forall i {:trigger PreviousEnd(l, i)} :: 0 <= i < |l.ranges| ==>
          && l.ranges[i].size > 0 && PreviousEnd(l, i) >= 0
          && l.ranges[i].offset == Align(PreviousEnd(l, i), l.alignment))
  }

  function Add(l: Layout, b: BlockInfo): Result<Layout, LayoutError>
    requires l.alignment > 0
  {
    if HasRange(l.ranges, b.key) then Failure(RangeExists(b.key))
    else if b.size <= 0 then Failure(SizeNotPositive(b.key))
    else
      var next := NextOffset(l.base, l.ranges);
      Success(l.(ranges := l.ranges + [SSDRange(b.key, if next >= 0 then Align(next, l.alignment) else 0, b.size)]))
  }

  lemma {:induction false} RangeAt(l: Layout, i: nat)
    requires WellLaid(l) && i < |l.ranges|
    ensures 0 <= PreviousEnd(l, i) <= l.ranges[i].offset < l.ranges[i].End()
    ensures l.ranges[i].offset % l.alignment == 0
    ensures forall m: nat :: m % l.alignment == 0 && PreviousEnd(l, i) <= m ==> l.ranges[i].offset <= m
    ensures l.ranges[i].offset < PreviousEnd(l, i) + l.alignment
  {
    AlignIsLeast(PreviousEnd(l, i), l.alignment);
  }

  /** Ranges lie in allocation order and never overlap. */
  lemma {:induction false} RangesDisjoint(l: Layout, i: nat, j: nat)
    requires WellLaid(l) && i < j < |l.ranges|
    ensures l.base <= l.ranges[i].offset && l.ranges[i].End() <= l.ranges[j].offset
    decreases j
  {
    RangeAt(l, j);
    RangeAt(l, i);
    if i + 1 < j {
      RangesDisjoint(l, i, j - 1);
      RangeAt(l, j - 1);
    } else {
      BaseBelow(l, i);
    }
  }

  lemma {:induction false} BaseBelow(l: Layout, i: nat)
    requires WellLaid(l) && i < |l.ranges|
    ensures l.base <= l.ranges[i].offset
  {
    RangeAt(l, i);
    if i == 0 {
    } else {
      BaseBelow(l, i - 1);
      RangeAt(l, i - 1);
    }
  }

  /** The next free offset is the end of the range added last. */
  lemma {:induction false} NextIsLastEnd(l: Layout, n: nat)
    requires WellLaid(l) && n <= |l.ranges|
    ensures NextOffset(l.base, l.ranges[..n]) == PreviousEnd(l, n)
  {
    if n > 1 {
      NextIsLastEnd(l, n - 1);
      assert l.ranges[..n][..n - 1] == l.ranges[..n - 1];
      RangeAt(l, n - 1);
    }
  }

  /** Adding a block keeps the invariant and moves no existing range. */
  lemma {:induction false} AddKeeps(l: Layout, b: BlockInfo)
    requires WellLaid(l) && Add(l, b).Success?
    ensures PreviousEnd(l, |l.ranges|) >= 0
    ensures var r := Add(l, b).value;
      && WellLaid(r) && r.base == l.base && r.alignment == l.alignment
      && |r.ranges| == |l.ranges| + 1 && r.ranges[..|l.ranges|] == l.ranges
      && r.ranges[|l.ranges|] == SSDRange(b.key, Align(PreviousEnd(l, |l.ranges|), l.alignment), b.size)
  {
    var n := |l.ranges|;
    assert l.ranges[..n] == l.ranges;
    NextIsLastEnd(l, n);
    if n > 0 {
      RangeAt(l, n - 1);
    }
    var r := Add(l, b).value;
    forall i | 0 <= i < |r.ranges|
      ensures r.ranges[i].size > 0 && PreviousEnd(r, i) >= 0 && r.ranges[i].offset == Align(PreviousEnd(r, i), r.alignment)
    {
      assert PreviousEnd(r, i) == PreviousEnd(l, i);
    }
  }

  function SizesSum(ranges: seq<SSDRange>): int {
    if ranges == [] then 0 else SizesSum(ranges[..|ranges| - 1]) + ranges[|ranges| - 1].size
  }

  /** The padding is at most `alignment - 1` bytes per range. */
  lemma {:induction false} SizeBound(l: Layout, n: nat)
    requires WellLaid(l) && n <= |l.ranges|
    ensures PreviousEnd(l, n) - l.base <= SizesSum(l.ranges[..n]) + n * (l.alignment - 1)
  {
    if n > 0 {
      SizeBound(l, n - 1);
      RangeAt(l, n - 1);
      assert l.ranges[..n][..n - 1] == l.ranges[..n - 1];
      assert n * (l.alignment - 1) == (n - 1) * (l.alignment - 1) + (l.alignment - 1);
    } else {
      assert l.ranges[..0] == [];
    }
  }

  /** Add blocks one after the other, stopping at the first refusal. */
  function AddAll(l: Layout, bs: seq<BlockInfo>): Result<Layout, LayoutError>
    requires l.alignment > 0
  {
    if bs == [] then Success(l)
    else match AddAll(l, bs[..|bs| - 1])
      case Failure(e) => Failure(e)
      case Success(m) => if m.alignment > 0 then Add(m, bs[|bs| - 1]) else Failure(UnknownRange(bs[|bs| - 1].key))
  }

  ghost predicate Addable(bs: seq<BlockInfo>) {
    DistinctKeys(bs) && forall i :: 0 <= i < |bs| ==> bs[i].size > 0
  }

  /** The ranges of a layout belong to these blocks, in this order. */
  ghost predicate RangesOf(l: Layout, bs: seq<BlockInfo>) {
    |l.ranges| == |bs| && forall i :: 0 <= i < |bs| ==> l.ranges[i].key == bs[i].key && l.ranges[i].size == bs[i].size
  }

  lemma {:induction false} SameKeys(l: Layout, bs: seq<BlockInfo>, key: BlockKey)
    requires RangesOf(l, bs)
    ensures HasRange(l.ranges, key) <==> HasKey(bs, key)
  {
    if HasKey(bs, key) {
      var i :| 0 <= i < |bs| && bs[i].key == key;
      assert l.ranges[i].key == key;
    }
    if HasRange(l.ranges, key) {
      var i :| 0 <= i < |l.ranges| && l.ranges[i].key == key;
      assert bs[i].key == key;
    }
  }

  lemma {:induction false} AddableStep(bs: seq<BlockInfo>)
    requires bs != []
    ensures var front, b := bs[..|bs| - 1], bs[|bs| - 1];
      Addable(bs) <==> Addable(front) && !HasKey(front, b.key) && b.size > 0
  {
    var front, b := bs[..|bs| - 1], bs[|bs| - 1];
    if Addable(bs) {
      forall i | 0 <= i < |front| ensures front[i].size > 0 && front[i].key != b.key {
        assert bs[i].size > 0 && bs[i].key != bs[|bs| - 1].key;
      }
    }
    if Addable(front) && !HasKey(front, b.key) && b.size > 0 {
      forall i, j | 0 <= i < j < |bs| ensures bs[i].key != bs[j].key {
        assert front[i] == bs[i];
        if j < |front| {
          assert front[j] == bs[j];
        }
      }
      forall i | 0 <= i < |bs| ensures bs[i].size > 0 {
        if i < |front| {
          assert front[i].size > 0;
        }
      }
    }
  }

  /** The allocator invariant over every sequence of additions: exactly the sequences of distinct,
      non-empty blocks are accepted, and the result is well laid out, in order, with bounded padding. */
  lemma {:induction false} AddAllInvariant(l: Layout, bs: seq<BlockInfo>)
    requires l.alignment > 0 && l.ranges == []
    ensures AddAll(l, bs).Success? <==> Addable(bs)
    ensures AddAll(l, bs).Success? ==>
      var r := AddAll(l, bs).value;
      && WellLaid(r) && r.base == l.base && r.alignment == l.alignment && RangesOf(r, bs)
      && TotalSize(r) <= SizesSum(r.ranges) + |bs| * (l.alignment - 1)
  {
    AddAllShape(l, bs);
    if AddAll(l, bs).Success? {
      var r := AddAll(l, bs).value;
      SizeBound(r, |r.ranges|);
      NextIsLastEnd(r, |r.ranges|);
      assert r.ranges[..|r.ranges|] == r.ranges;
    }
  }

  lemma {:induction false} AddAllShape(l: Layout, bs: seq<BlockInfo>)
    requires l.alignment > 0 && l.ranges == []
    ensures AddAll(l, bs).Success? <==> Addable(bs)
    ensures AddAll(l, bs).Success? ==>
      var r := AddAll(l, bs).value;
      WellLaid(r) && r.base == l.base && r.alignment == l.alignment && RangesOf(r, bs)
  {
    if bs == [] {
    } else {
      var front, b := bs[..|bs| - 1], bs[|bs| - 1];
      AddAllShape(l, front);
      AddableStep(bs);
      if AddAll(l, front).Success? {
        var m := AddAll(l, front).value;
        SameKeys(m, front, b.key);
        if Add(m, b).Success? {
          AddKeeps(m, b);
          ExtendRanges(m, Add(m, b).value, bs);
        }
      }
    }
  }

  lemma {:induction false} ExtendRanges(m: Layout, r: Layout, bs: seq<BlockInfo>)
    requires bs != [] && RangesOf(m, bs[..|bs| - 1]) && |r.ranges| == |bs| && r.ranges[..|bs| - 1] == m.ranges
    requires r.ranges[|bs| - 1].key == bs[|bs| - 1].key && r.ranges[|bs| - 1].size == bs[|bs| - 1].size
    ensures RangesOf(r, bs)
  {
    forall i | 0 <= i < |bs| ensures r.ranges[i].key == bs[i].key && r.ranges[i].size == bs[i].size {
      if i < |bs| - 1 {
        assert r.ranges[..|bs| - 1][i] == m.ranges[i] && bs[..|bs| - 1][i] == bs[i];
      }
    }
  }

  class SSDFileLayout {
    const base: nat
    const alignment: nat
    var ranges: seq<SSDRange>

    ghost function Now(): Layout
      reads this
    {
      Layout(base, alignment, ranges)
    }

    constructor (base: nat, alignment: nat)
      requires alignment > 0
      ensures Now() == Layout(base, alignment, []) && WellLaid(Now())
    {
      this.base := base;
      this.alignment := alignment;
      ranges := [];
    }

    /** The loop behind `max(item.end_offset for item in ...)`. */
    method FindNextOffset() returns (next: int)
      ensures next == NextOffset(base, ranges)
    {
      if ranges == [] {
        return base;
      }
      next := ranges[0].End();
      var i := 1;
      assert ranges[..1] == [ranges[0]];
      while i < |ranges|
        invariant 1 <= i <= |ranges|
        invariant next == NextOffset(base, ranges[..i])
      {
        assert ranges[..i + 1][..i] == ranges[..i];
        if ranges[i].End() > next {
          next := ranges[i].End();
        }
        i := i + 1;
      }
      assert ranges[..|ranges|] == ranges;
    }

    method FindRange(key: BlockKey) returns (r: Result<SSDRange, LayoutError>)
      ensures if HasRange(ranges, key) then r.Success? && r.value in ranges && r.value.key == key
              else r == Failure(UnknownRange(key))
    {
      var i := 0;
      while i < |ranges|
        invariant 0 <= i <= |ranges|
        invariant forall j :: 0 <= j < i ==> ranges[j].key != key
      {
        if ranges[i].key == key {
          return Success(ranges[i]);
        }
        i := i + 1;
      }
      return Failure(UnknownRange(key));
    }

    /** Assign the next range: refused for a known key or an empty block, and otherwise the least aligned
        offset that is not below any existing end. */
    method AddBlock(b: BlockInfo) returns (r: Result<SSDRange, LayoutError>)
      requires WellLaid(Now())
      modifies this
      ensures WellLaid(Now())
      ensures match Add(old(Now()), b)
        case Failure(e) => r == Failure(e) && ranges == old(ranges)
        case Success(l) => Now() == l && r == Success(ranges[|ranges| - 1])
    {
      var known := FindRange(b.key);
      if known.Success? {
        return Failure(RangeExists(b.key));
      }
      if b.size <= 0 {
        return Failure(SizeNotPositive(b.key));
      }
      var next := FindNextOffset();
      AddKeeps(Now(), b);
      NextIsLastEnd(Now(), |ranges|);
      assert ranges[..|ranges|] == ranges;
      var range := SSDRange(b.key, Align(next, alignment), b.size);
      ranges := ranges + [range];
      return Success(range);
    }
  }
}
