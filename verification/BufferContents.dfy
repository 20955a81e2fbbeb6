/** What the buffers of the residency executor hold: over every run of a consistent stream, in both modes and
    with evicts, each buffer holds its block's range of the backing file, or its block's made-up pattern.
 */
module BufferContents {
  import opened Kv
  import opened ByteNumbers
  import opened Residency

  /** Every buffer filed under a command's key holds what reading that command's range gives. */
  ghost predicate AllRead(setup: Setup, m: map<Key, Buffer>, cs: seq<Command>)
    requires AllAddressable(cs)
  {
    forall i :: 0 <= i < |cs| && cs[i].BufferKey() in m ==> m[cs[i].BufferKey()].data == ReadOrPattern(setup, cs[i]).data
  }

  ghost predicate BothFilled(setup: Setup, s: State, cs: seq<Command>)
    requires AllAddressable(cs)
  {
    AllRead(setup, s.dram, cs) && AllRead(setup, s.vram, cs)
  }

  /** Commands with one buffer key read the same bytes. */
  lemma {:induction false} SameRange(setup: Setup, cs: seq<Command>, i: nat, j: nat)
    requires Consistent(cs) && AllAddressable(cs) && i < |cs| && j < |cs| && cs[i].BufferKey() == cs[j].BufferKey()
    ensures ReadOrPattern(setup, cs[i]).data == ReadOrPattern(setup, cs[j]).data
  {
    assert cs[i].PlanKey() == cs[j].PlanKey();
    var a, b := ReadOrPattern(setup, cs[i]).data, ReadOrPattern(setup, cs[j]).data;
    if setup.backing.None? {
      assert forall k :: 0 <= k < cs[i].size ==> PatternByte(cs[i], k) == PatternByte(cs[j], k);
      assert a == b;
    }
  }

  lemma {:induction false} FileKeeps(setup: Setup, m: map<Key, Buffer>, cs: seq<Command>, i: nat, b: Buffer)
    requires Consistent(cs) && AllAddressable(cs) && i < |cs| && AllRead(setup, m, cs)
    requires b.data == ReadOrPattern(setup, cs[i]).data
    ensures AllRead(setup, m[cs[i].BufferKey() := b], cs)
  {
    var n := m[cs[i].BufferKey() := b];
    forall j | 0 <= j < |cs| && cs[j].BufferKey() in n ensures n[cs[j].BufferKey()].data == ReadOrPattern(setup, cs[j]).data {
      if cs[j].BufferKey() == cs[i].BufferKey() {
        SameRange(setup, cs, i, j);
      }
    }
  }

  lemma {:induction false} FreeKeeps(setup: Setup, m: map<Key, Buffer>, cs: seq<Command>, key: Key)
    requires AllAddressable(cs) && AllRead(setup, m, cs)
    ensures AllRead(setup, m - {key}, cs)
  {
    hide ReadOrPattern;
  }

  lemma {:induction false} StepKeeps(setup: Setup, s: State, cs: seq<Command>, i: nat)
    requires Consistent(cs) && AllAddressable(cs) && i < |cs| && BothFilled(setup, s, cs)
    ensures Addressable(cs[i]) && BothFilled(setup, Step(setup, s, cs[i]), cs)
  {
    var c := cs[i];
    assert Addressable(c);
    var made := BufferOf(c, ReadOrPattern(setup, c).data);
    FileKeeps(setup, s.dram, cs, i, made);
    FileKeeps(setup, s.vram, cs, i, made);
    FreeKeeps(setup, s.dram, cs, c.BufferKey());
    FreeKeeps(setup, s.vram, cs, c.BufferKey());
    FreeKeeps(setup, s.vram[c.BufferKey() := made], cs, c.BufferKey());
    if c.BufferKey() in s.dram {
      FileKeeps(setup, s.vram, cs, i, s.dram[c.BufferKey()]);
    }
    hide AllRead, ReadOrPattern, Consistent, AllAddressable;
  }

  lemma {:induction false} RunKeeps(setup: Setup, cs: seq<Command>, n: nat)
    requires Consistent(cs) && AllAddressable(cs) && n <= |cs|
    ensures BothFilled(setup, Run(setup, START, cs[..n]), cs)
  {
    hide Step, Consistent, ReadOrPattern;
    if n == 0 {
    } else {
      RunKeeps(setup, cs, n - 1);
      assert cs[..n][..n - 1] == cs[..n - 1];
      StepKeeps(setup, Run(setup, START, cs[..n - 1]), cs, n - 1);
      hide BothFilled;
    }
  }

  /** Byte `k` of a buffer is byte `offset + k` of the backing file, or zero past its end. */
  ghost predicate HoldsFile(b: Buffer, file: seq<Byte>, c: Command) {
    c.offset >= 0 && |b.data| == c.size && forall k :: 0 <= k < c.size ==> b.data[k] == FileByte(file, c.offset + k)
  }

  ghost predicate HoldsPattern(b: Buffer, c: Command) {
    |b.data| == c.size && forall k :: 0 <= k < c.size ==> b.data[k] == PatternByte(c, k)
  }

  /** The buffers of the executor after any consistent stream, strict or seeding, with evicts or not: those of
      a command hold its range of the backing file, padded with zeros past the end, or its pattern when there
      is no file. */
  lemma {:induction false} RunHoldsBytes(setup: Setup, cs: seq<Command>, i: nat)
    requires Consistent(cs) && AllAddressable(cs) && i < |cs|
    ensures var r, c := Run(setup, START, cs), cs[i];
      && (setup.backing.Some? && c.BufferKey() in r.dram ==> HoldsFile(r.dram[c.BufferKey()], setup.backing.value, c))
      && (setup.backing.Some? && c.BufferKey() in r.vram ==> HoldsFile(r.vram[c.BufferKey()], setup.backing.value, c))
      && (setup.backing.None? && c.BufferKey() in r.dram ==> HoldsPattern(r.dram[c.BufferKey()], c))
      && (setup.backing.None? && c.BufferKey() in r.vram ==> HoldsPattern(r.vram[c.BufferKey()], c))
  {
    RunKeeps(setup, cs, |cs|);
    assert cs[..|cs|] == cs && Addressable(cs[i]);
    if setup.backing.Some? {
      ReadBytes(setup, cs[i]);
      hide ReadOrPattern;
    }
    hide Run;
  }

  /** On a long enough file: exactly the command's range. */
  lemma {:induction false} RunHoldsRange(setup: Setup, cs: seq<Command>, i: nat)
    requires Consistent(cs) && AllAddressable(cs) && i < |cs| && setup.backing.Some? && LongEnough(setup, cs)
    ensures 0 <= cs[i].offset <= cs[i].offset + cs[i].size <= |setup.backing.value|
    ensures var r, c := Run(setup, START, cs), cs[i]; var range := setup.backing.value[c.offset..c.offset + c.size];
      && (c.BufferKey() in r.dram ==> r.dram[c.BufferKey()].data == range)
      && (c.BufferKey() in r.vram ==> r.vram[c.BufferKey()].data == range)
  {
    assert Addressable(cs[i]);
    RunHoldsBytes(setup, cs, i);
    hide Run;
  }

  // ---------- made-up patterns ----------

  function PatternStart(c: Command): int {
    c.layer * 1315423911 + c.block * 2654435761 + c.start * 97 + c.offset
  }

  /** A pattern counts up from its first byte. */
  lemma {:induction false} PatternCounts(c: Command, i: nat)
    ensures PatternByte(c, i) as int == (PatternStart(c) + i) % 256
  {
    var x := (PatternStart(c) % 256 + i) % 256;
    ByteBack(x);
    assert x == (PatternStart(c) + i) % 256;
  }

  // The factors are odd, so they lose nothing below 256.

  lemma {:induction false} LayerFactor(d: int)
    ensures d * 1315423911 % 256 == 0 <==> d % 256 == 0
  {
    var q, t := d / 256, d * 1315423911 / 256;
    if d % 256 == 0 {
      assert d == 256 * q;
    }
    if d * 1315423911 % 256 == 0 {
      assert d * 1315423911 == 256 * t;
      assert d == 256 * (t * 23 - 118182617 * d);
    }
  }

  lemma {:induction false} BlockFactor(d: int)
    ensures d * 2654435761 % 256 == 0 <==> d % 256 == 0
  {
    var q, t := d / 256, d * 2654435761 / 256;
    if d % 256 == 0 {
      assert d == 256 * q;
    }
    if d * 2654435761 % 256 == 0 {
      assert d * 2654435761 == 256 * t;
      assert d == 256 * (t * 81 - 839880065 * d);
    }
  }

  lemma {:induction false} StartFactor(d: int)
    ensures d * 97 % 256 == 0 <==> d % 256 == 0
  {
    var q, t := d / 256, d * 97 / 256;
    if d % 256 == 0 {
      assert d == 256 * q;
    }
    if d * 97 % 256 == 0 {
      assert d * 97 == 256 * t;
      assert d == 256 * (t * 161 - 61 * d);
    }
  }

  /** Two patterns agree everywhere or nowhere: exactly when their starts differ by a multiple of 256. */
  lemma {:induction false} PatternsEqualIff(c: Command, d: Command, i: nat)
    ensures PatternByte(c, i) == PatternByte(d, i) <==> (PatternStart(c) - PatternStart(d)) % 256 == 0
  {
    hide PatternByte, PatternStart;
    PatternCounts(c, i);
    PatternCounts(d, i);
    RemaindersEqual(PatternStart(c) + i, PatternStart(d) + i);
    NumbersEqual(PatternByte(c, i), PatternByte(d, i));
  }

  /** So blocks that differ in their layer, their id, their first token or their offset alone have different
      patterns, unless by a multiple of 256. */
  lemma {:induction false} PatternsApart(c: Command, d: Command, i: nat)
    ensures c.start == d.start && c.offset == d.offset && c.layer == d.layer ==>
      (PatternByte(c, i) == PatternByte(d, i) <==> (c.block - d.block) % 256 == 0)
    ensures c.start == d.start && c.offset == d.offset && c.block == d.block ==>
      (PatternByte(c, i) == PatternByte(d, i) <==> (c.layer - d.layer) % 256 == 0)
    ensures c.layer == d.layer && c.block == d.block && c.offset == d.offset ==>
      (PatternByte(c, i) == PatternByte(d, i) <==> (c.start - d.start) % 256 == 0)
    ensures c.layer == d.layer && c.block == d.block && c.start == d.start ==>
      (PatternByte(c, i) == PatternByte(d, i) <==> (c.offset - d.offset) % 256 == 0)
  {
    hide PatternByte;
    PatternsEqualIff(c, d, i);
    BlockFactor(c.block - d.block);
    LayerFactor(c.layer - d.layer);
    StartFactor(c.start - d.start);
  }
}
