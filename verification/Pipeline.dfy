/** The compiled pipeline: what the command stream of a scheduler timeline is, that the plan builder and
    the command validator accept it operation by operation, and what every such stream satisfies.
 */
module Pipeline {
  import opened Kv
  import opened Blocks
  import opened Timeline
  import opened SsdLayout
  import opened MovementPlan
  import opened Sorting
  import BridgeModel
  import ShadowChains

  /** The commands that bring one block from its tier into VRAM and compute on it. */
  function Chain(b: BlockInfo, offset: int, at: Tier): seq<Command> {
    var read := Command(Load, b.key.layer, b.key.block, b.start, b.end, b.size, SSD, DRAM, offset, true);
    var copy := Command(Load, b.key.layer, b.key.block, b.start, b.end, b.size, DRAM, VRAM, offset, true);
    var compute := Command(Compute, b.key.layer, b.key.block, b.start, b.end, b.size, VRAM, VRAM, offset, false);
    match at
    case SSD => [read, copy, compute]
    case DRAM => [copy, compute]
    case VRAM => [compute]
  }

  /** A layout for the blocks of a pool. */
  ghost predicate LaysOut(l: Layout, pool: seq<BlockInfo>) {
    WellLaid(l) && DistinctKeys(pool) && RangesOf(l, pool)
  }

  ghost predicate Within(bs: seq<BlockInfo>, pool: seq<BlockInfo>) {
    forall i :: 0 <= i < |bs| ==> bs[i] in pool
  }

  function OffsetOf(l: Layout, key: BlockKey): int {
    match RangeIndex(l.ranges, key)
    case Some(i) => l.ranges[i].offset
    case None => 0
  }

  /** The command stream of a timeline: the chains of the scheduled blocks, in order. */
  function Derived(bs: seq<BlockInfo>, where: Residency, l: Layout): seq<Command>
    requires Known(bs, where)
  {
    if bs == [] then []
    else
      var b := bs[|bs| - 1];
      Derived(bs[..|bs| - 1], where, l) + Chain(b, OffsetOf(l, b.key), where[b.key])
  }

  lemma {:induction false} OffsetIs(l: Layout, pool: seq<BlockInfo>, i: nat)
    requires LaysOut(l, pool) && i < |pool|
    ensures RangeIndex(l.ranges, pool[i].key) == Some(i)
    ensures OffsetOf(l, pool[i].key) == l.ranges[i].offset >= 0
  {
    assert l.ranges[i].key == pool[i].key;
    assert HasRange(l.ranges, pool[i].key);
    RangeAt(l, i);
  }

  // ---------- the compiler accepts every timeline ----------

  lemma {:induction false} TranslateAppend(l: Layout, pool: seq<BlockInfo>, a: seq<ScheduleOp>, b: seq<ScheduleOp>)
    requires |l.ranges| == |pool| && TranslateAll(l, pool, a).Success? && TranslateAll(l, pool, b).Success?
    ensures TranslateAll(l, pool, a + b) == Success(TranslateAll(l, pool, a).value + TranslateAll(l, pool, b).value)
  {
    if b == [] {
      assert a + b == a;
      assert TranslateAll(l, pool, a).value + [] == TranslateAll(l, pool, a).value;
    } else {
      var front := b[..|b| - 1];
      TranslateAppend(l, pool, a, front);
      assert (a + b)[..|a + b| - 1] == a + front;
      var x, y := TranslateAll(l, pool, a).value, TranslateAll(l, pool, b).value;
      assert x + y == (x + y[..|y| - 1]) + [y[|y| - 1]];
    }
  }

  lemma {:induction false} CommandsAppend(l: Layout, a: seq<MovementOp>, b: seq<MovementOp>)
    requires CommandsOf(l, a).Success? && CommandsOf(l, b).Success?
    ensures CommandsOf(l, a + b) == Success(CommandsOf(l, a).value + CommandsOf(l, b).value)
  {
    if b == [] {
      assert a + b == a;
      assert CommandsOf(l, a).value + [] == CommandsOf(l, a).value;
    } else {
      var front := b[..|b| - 1];
      CommandsAppend(l, a, front);
      assert (a + b)[..|a + b| - 1] == a + front;
      var x, y := CommandsOf(l, a).value, CommandsOf(l, b).value;
      assert x + y == (x + y[..|y| - 1]) + [y[|y| - 1]];
    }
  }

  /** One operation compiles to one command. */
  lemma {:induction false} OneCompiles(l: Layout, pool: seq<BlockInfo>, i: nat, o: ScheduleOp, c: Command)
    requires LaysOut(l, pool) && i < |pool| && o.key == pool[i].key && o.startMs <= o.endMs
    requires ValidInfo(pool[i]) && pool[i].size > 0 && ValidCommand(c)
    requires RouteOf(o.name, o.meta) == Some(Route(c.op, c.source, c.target)) && c.blocking == o.meta.blocking.UnwrapOr(false)
    requires c.PlanKey() == o.key && c.start == pool[i].start && c.end == pool[i].end && c.size == pool[i].size
    requires c.offset == l.ranges[i].offset
    ensures TranslateAll(l, pool, [o]).Success?
    ensures CommandsOf(l, TranslateAll(l, pool, [o]).value) == Success([c])
  {
    PositionIs(pool, i);
    OffsetIs(l, pool, i);
    assert Translate(o, l.ranges[i], pool[i]).Success?;
    var m := Translate(o, l.ranges[i], pool[i]).value;
    assert [o][..|[o]| - 1] == [] && [m][..|[m]| - 1] == [];
    assert TranslateAll(l, pool, []) == Success([]) && CommandsOf(l, []) == Success([]);
    assert Position(pool, [o][|[o]| - 1].key) == Some(i);
    assert TranslateAll(l, pool, [o]) == Success([] + [m]);
    assert [] + [m] == [m] && [] + [c] == [c];
    assert ToCommand(m) == c && CheckCommand(l, c) == Success(c);
    assert [m][|[m]| - 1] == m;
  }

  lemma {:induction false} JoinCompiled(l: Layout, pool: seq<BlockInfo>, a: seq<ScheduleOp>, b: seq<ScheduleOp>, x: seq<Command>, y: seq<Command>)
    requires |l.ranges| == |pool|
    requires TranslateAll(l, pool, a).Success? && CommandsOf(l, TranslateAll(l, pool, a).value) == Success(x)
    requires TranslateAll(l, pool, b).Success? && CommandsOf(l, TranslateAll(l, pool, b).value) == Success(y)
    ensures TranslateAll(l, pool, a + b).Success? && CommandsOf(l, TranslateAll(l, pool, a + b).value) == Success(x + y)
  {
    TranslateAppend(l, pool, a, b);
    CommandsAppend(l, TranslateAll(l, pool, a).value, TranslateAll(l, pool, b).value);
  }

  ghost predicate CompileTo(l: Layout, pool: seq<BlockInfo>, ops: seq<ScheduleOp>, cs: seq<Command>)
    requires |l.ranges| == |pool|
  {
    TranslateAll(l, pool, ops).Success? && CommandsOf(l, TranslateAll(l, pool, ops).value) == Success(cs)
  }

  lemma {:induction false} JoinCompileTo(l: Layout, pool: seq<BlockInfo>, a: seq<ScheduleOp>, b: seq<ScheduleOp>, x: seq<Command>, y: seq<Command>,
                                        ops: seq<ScheduleOp>, cs: seq<Command>)
    requires |l.ranges| == |pool| && CompileTo(l, pool, a, x) && CompileTo(l, pool, b, y) && ops == a + b && cs == x + y
    ensures CompileTo(l, pool, ops, cs)
  {
    JoinCompiled(l, pool, a, b, x, y);
  }

  lemma {:induction false} ComputeCompiles(l: Layout, pool: seq<BlockInfo>, i: nat, now: real, lat: Latencies)
    requires LaysOut(l, pool) && i < |pool| && ValidInfo(pool[i]) && pool[i].size > 0 && ValidLatencies(lat)
    ensures CompileTo(l, pool, Steps(pool[i], VRAM, now, lat), Chain(pool[i], l.ranges[i].offset, VRAM))
  {
    hide WellLaid, DistinctKeys;
    OffsetIs(l, pool, i);
    OneCompiles(l, pool, i, ComputeOp(pool[i], now, lat), Chain(pool[i], l.ranges[i].offset, VRAM)[0]);
    hide TranslateAll, CommandsOf, LaysOut;
  }

  lemma {:induction false} MoveCompiles(l: Layout, pool: seq<BlockInfo>, i: nat, now: real, lat: Latencies)
    requires LaysOut(l, pool) && i < |pool| && ValidInfo(pool[i]) && pool[i].size > 0 && ValidLatencies(lat)
    ensures CompileTo(l, pool, [SsdReadOp(pool[i], now, lat)], [Chain(pool[i], l.ranges[i].offset, SSD)[0]])
    ensures CompileTo(l, pool, [DramToVramOp(pool[i], now, lat)], [Chain(pool[i], l.ranges[i].offset, DRAM)[0]])
  {
    hide WellLaid, DistinctKeys;
    OffsetIs(l, pool, i);
    hide TranslateAll, CommandsOf;
    OneCompiles(l, pool, i, SsdReadOp(pool[i], now, lat), Chain(pool[i], l.ranges[i].offset, SSD)[0]);
    OneCompiles(l, pool, i, DramToVramOp(pool[i], now, lat), Chain(pool[i], l.ranges[i].offset, DRAM)[0]);
  }

  /** A block that starts in DRAM is copied first and then treated like one that starts in VRAM. */
  lemma {:induction false} DramSteps(b: BlockInfo, offset: int, now: real, lat: Latencies)
    ensures Steps(b, DRAM, now, lat) == [DramToVramOp(b, now, lat)] + Steps(b, VRAM, now + lat.dram, lat)
    ensures |Chain(b, offset, DRAM)| == 2 && Chain(b, offset, DRAM) == [Chain(b, offset, DRAM)[0]] + Chain(b, offset, VRAM)
  {
  }

  lemma {:induction false} CopyCompiles(l: Layout, pool: seq<BlockInfo>, i: nat, now: real, lat: Latencies)
    requires LaysOut(l, pool) && i < |pool| && ValidInfo(pool[i]) && pool[i].size > 0 && ValidLatencies(lat)
    ensures CompileTo(l, pool, Steps(pool[i], DRAM, now, lat), Chain(pool[i], l.ranges[i].offset, DRAM))
  {
    hide WellLaid, DistinctKeys, CompileTo, ValidInfo, ValidLatencies, Steps, Chain;
    var b, offset := pool[i], l.ranges[i].offset;
    DramSteps(b, offset, now, lat);
    MoveCompiles(l, pool, i, now, lat);
    ComputeCompiles(l, pool, i, now + lat.dram, lat);
    JoinCompileTo(l, pool, [DramToVramOp(b, now, lat)], Steps(b, VRAM, now + lat.dram, lat), [Chain(b, offset, DRAM)[0]], Chain(b, offset, VRAM),
                  Steps(b, DRAM, now, lat), Chain(b, offset, DRAM));
  }

  /** A block that starts on SSD is read first and then treated like one that starts in DRAM. */
  lemma {:induction false} SsdSteps(b: BlockInfo, offset: int, now: real, lat: Latencies)
    ensures Steps(b, SSD, now, lat) == [SsdReadOp(b, now, lat)] + Steps(b, DRAM, now + lat.ssd, lat)
    ensures |Chain(b, offset, SSD)| == 3 && Chain(b, offset, SSD) == [Chain(b, offset, SSD)[0]] + Chain(b, offset, DRAM)
  {
  }

  lemma {:induction false} StepsCompile(l: Layout, pool: seq<BlockInfo>, i: nat, at: Tier, now: real, lat: Latencies)
    requires LaysOut(l, pool) && i < |pool| && ValidInfo(pool[i]) && pool[i].size > 0 && ValidLatencies(lat)
    ensures CompileTo(l, pool, Steps(pool[i], at, now, lat), Chain(pool[i], l.ranges[i].offset, at))
  {
    if at.VRAM? {
      ComputeCompiles(l, pool, i, now, lat);
    } else if at.DRAM? {
      CopyCompiles(l, pool, i, now, lat);
    } else {
      SsdCompiles(l, pool, i, now, lat);
    }
    hide CompileTo, LaysOut;
  }

  lemma {:induction false} SsdCompiles(l: Layout, pool: seq<BlockInfo>, i: nat, now: real, lat: Latencies)
    requires LaysOut(l, pool) && i < |pool| && ValidInfo(pool[i]) && pool[i].size > 0 && ValidLatencies(lat)
    ensures CompileTo(l, pool, Steps(pool[i], SSD, now, lat), Chain(pool[i], l.ranges[i].offset, SSD))
  {
    hide WellLaid, DistinctKeys, CompileTo, ValidInfo, ValidLatencies, Steps, Chain;
    var b, offset := pool[i], l.ranges[i].offset;
    SsdSteps(b, offset, now, lat);
    MoveCompiles(l, pool, i, now, lat);
    CopyCompiles(l, pool, i, now + lat.ssd, lat);
    JoinCompileTo(l, pool, [SsdReadOp(b, now, lat)], Steps(b, DRAM, now + lat.ssd, lat), [Chain(b, offset, SSD)[0]], Chain(b, offset, DRAM),
                  Steps(b, SSD, now, lat), Chain(b, offset, SSD));
  }

  ghost predicate PoolValid(pool: seq<BlockInfo>) {
    forall i :: 0 <= i < |pool| ==> ValidInfo(pool[i]) && pool[i].size > 0
  }

  lemma {:induction false} TimelineCompiles(l: Layout, pool: seq<BlockInfo>, bs: seq<BlockInfo>, where: Residency, now: real, lat: Latencies)
    requires LaysOut(l, pool) && PoolValid(pool) && Within(bs, pool) && Known(bs, where) && ValidLatencies(lat)
    ensures var ops := Ops(bs, where, now, lat);
      && TranslateAll(l, pool, ops).Success?
      && CommandsOf(l, TranslateAll(l, pool, ops).value) == Success(Derived(bs, where, l))
  {
    if bs == [] {
    } else {
      var front, b := bs[..|bs| - 1], bs[|bs| - 1];
      assert Within(front, pool);
      TimelineCompiles(l, pool, front, where, now, lat);
      assert b in pool;
      var i :| 0 <= i < |pool| && pool[i] == b;
      OffsetIs(l, pool, i);
      StepsCompile(l, pool, i, where[b.key], EndTime(front, where, now, lat), lat);
      JoinCompiled(l, pool, Ops(front, where, now, lat), Steps(b, where[b.key], EndTime(front, where, now, lat), lat),
                   Derived(front, where, l), Chain(b, OffsetOf(l, b.key), where[b.key]));
    }
  }

  /** The plan's blocks are the distinct blocks of the pool, in (layer, block) order. */
  lemma {:induction false} PlanBlocksSorted(pool: seq<BlockInfo>)
    ensures var u := PlanBlocks(pool);
      && DistinctKeys(u) && Ordered(u, KeyLe)
      && (forall b :: b in u ==> b in Dedupe(pool)) && (forall b :: b in Dedupe(pool) ==> b in u)
  {
    var d, u := Dedupe(pool), PlanBlocks(pool);
    SortPermutes(d, KeyLe);
    SortOrders(d, KeyLe);
    SameElements(u, d);
    KeysPermuted(d, u);
  }

  /** Compilation accepts every timeline over non-empty blocks, one command per operation, and the SSD
      ranges come in (layer, block) order. */
  lemma {:induction false} CompileSucceeds(pool: seq<BlockInfo>, bs: seq<BlockInfo>, where: Residency, now: real, lat: Latencies, base: nat, alignment: nat)
    requires alignment > 0 && ValidLatencies(lat) && PoolValid(Dedupe(pool))
    requires Known(bs, where) && Within(bs, Dedupe(pool))
    ensures var r := Build(pool, Ops(bs, where, now, lat), base, alignment);
      && r.Success? && LaysOut(r.value.layout, PlanBlocks(pool)) && Ordered(PlanBlocks(pool), KeyLe)
      && CommandsOf(r.value.layout, r.value.ops) == Success(Derived(bs, where, r.value.layout))
  {
    var u := PlanBlocks(pool);
    PlanBlocksSorted(pool);
    forall i | 0 <= i < |u| ensures ValidInfo(u[i]) && u[i].size > 0 {
      assert u[i] in u;
      assert u[i] in Dedupe(pool);
    }
    var empty := Layout(base, alignment, []);
    AddAllInvariant(empty, u);
    var l := AddAll(empty, u).value;
    TimelineCompiles(l, u, bs, where, now, lat);
  }

  /** The ranges of a plan lie in the file in the order of their layers and, within a layer, of their blocks;
      each is the range of the first block with its key. */
  lemma {:induction false} LayoutInOrder(pool: seq<BlockInfo>, ops: seq<ScheduleOp>, base: nat, alignment: nat, i: nat, j: nat)
    requires alignment > 0 && Build(pool, ops, base, alignment).Success?
    requires i < j < |Build(pool, ops, base, alignment).value.layout.ranges|
    ensures var rs := Build(pool, ops, base, alignment).value.layout.ranges;
      && (rs[i].key.layer < rs[j].key.layer || (rs[i].key.layer == rs[j].key.layer && rs[i].key.block < rs[j].key.block))
      && rs[i].offset < rs[i].offset + rs[i].size <= rs[j].offset
      && exists k :: FirstAt(pool, k, rs[i].key) && pool[k].size == rs[i].size
  {
    var u := PlanBlocks(pool);
    PlanBlocksSorted(pool);
    AddAllInvariant(Layout(base, alignment, []), u);
    var l := Build(pool, ops, base, alignment).value.layout;
    assert l == AddAll(Layout(base, alignment, []), u).value;
    hide Build, AddAll, PlanBlocks, Dedupe, TranslateAll;
    RangesDisjoint(l, i, j);
    assert u[i] in u && u[i] in Dedupe(pool);
    FirstKept(pool, u[i]);
    hide WellLaid;
    assert KeyLe(u[i], u[j]) && u[i].key != u[j].key;
  }

  lemma {:induction false} FirstKept(pool: seq<BlockInfo>, b: BlockInfo)
    requires b in Dedupe(pool)
    ensures IsFirst(pool, b)
  {
    DedupeFirsts(pool);
    hide Dedupe;
    var x :| 0 <= x < |Dedupe(pool)| && Dedupe(pool)[x] == b;
  }

  // ---------- what every compiled stream satisfies ----------

  /** The stream is a concatenation of chains over distinct blocks of a layout. */
  ghost predicate Compiled(bs: seq<BlockInfo>, where: Residency, l: Layout, pool: seq<BlockInfo>) {
    DistinctKeys(bs) && Known(bs, where) && Within(bs, pool) && LaysOut(l, pool) && PoolValid(pool)
  }

  /** Each command of the stream belongs to one of its blocks. */
  lemma {:induction false} MemberOf(bs: seq<BlockInfo>, where: Residency, l: Layout, i: nat) returns (k: nat)
    requires Known(bs, where) && i < |Derived(bs, where, l)|
    ensures k < |bs| && Derived(bs, where, l)[i] in Chain(bs[k], OffsetOf(l, bs[k].key), where[bs[k].key])
  {
    var front := bs[..|bs| - 1];
    var before := Derived(front, where, l);
    if i < |before| {
      k := MemberOf(front, where, l, i);
      assert front[k] == bs[k];
    } else {
      k := |bs| - 1;
    }
  }

  lemma {:induction false} ChainMember(b: BlockInfo, offset: int, at: Tier, c: Command)
    requires c in Chain(b, offset, at)
    ensures c.PlanKey() == b.key && c.start == b.start && c.end == b.end && c.size == b.size && c.offset == offset
    ensures c.Moves(SSD, DRAM) || c.Moves(DRAM, VRAM) || (c.op.Compute? && c.source == c.target == VRAM)
  {
  }

  /** Every command of a compiled stream is valid, and one block is described in one way. */
  lemma {:induction false} CompiledIsConsistent(bs: seq<BlockInfo>, where: Residency, l: Layout, pool: seq<BlockInfo>)
    requires Compiled(bs, where, l, pool)
    ensures Consistent(Derived(bs, where, l))
    ensures forall i :: 0 <= i < |Derived(bs, where, l)| ==> ValidCommand(Derived(bs, where, l)[i])
  {
    var cs := Derived(bs, where, l);
    forall i | 0 <= i < |cs| ensures ValidCommand(cs[i]) {
      var k := MemberOf(bs, where, l, i);
      ChainMember(bs[k], OffsetOf(l, bs[k].key), where[bs[k].key], cs[i]);
      assert bs[k] in pool;
      var p :| 0 <= p < |pool| && pool[p] == bs[k];
      OffsetIs(l, pool, p);
    }
    forall i, j | 0 <= i < |cs| && 0 <= j < |cs| && cs[i].PlanKey() == cs[j].PlanKey()
      ensures cs[i].BufferKey() == cs[j].BufferKey() && cs[i].size == cs[j].size && cs[i].offset == cs[j].offset
    {
      var k := MemberOf(bs, where, l, i);
      var m := MemberOf(bs, where, l, j);
      ChainMember(bs[k], OffsetOf(l, bs[k].key), where[bs[k].key], cs[i]);
      ChainMember(bs[m], OffsetOf(l, bs[m].key), where[bs[m].key], cs[j]);
    }
  }

  /** Blocks of a compiled stream have disjoint byte ranges. */
  lemma {:induction false} CompiledRangesApart(bs: seq<BlockInfo>, where: Residency, l: Layout, pool: seq<BlockInfo>)
    requires Compiled(bs, where, l, pool)
    ensures RangesApart(Derived(bs, where, l))
  {
    var cs := Derived(bs, where, l);
    forall i, j | 0 <= i < |cs| && 0 <= j < |cs| && cs[i].PlanKey() != cs[j].PlanKey()
      ensures cs[i].offset + cs[i].size <= cs[j].offset || cs[j].offset + cs[j].size <= cs[i].offset
    {
      var p := PoolPosition(bs, where, l, pool, i);
      var q := PoolPosition(bs, where, l, pool, j);
      if p < q {
        RangesDisjoint(l, p, q);
      } else {
        RangesDisjoint(l, q, p);
      }
    }
  }

  lemma {:induction false} PoolPosition(bs: seq<BlockInfo>, where: Residency, l: Layout, pool: seq<BlockInfo>, i: nat) returns (p: nat)
    requires Compiled(bs, where, l, pool) && i < |Derived(bs, where, l)|
    ensures var c := Derived(bs, where, l)[i];
      p < |pool| && c.PlanKey() == pool[p].key && c.offset == l.ranges[p].offset && c.size == l.ranges[p].size
  {
    var cs := Derived(bs, where, l);
    var k := MemberOf(bs, where, l, i);
    ChainMember(bs[k], OffsetOf(l, bs[k].key), where[bs[k].key], cs[i]);
    assert bs[k] in pool;
    p :| 0 <= p < |pool| && pool[p] == bs[k];
    OffsetIs(l, pool, p);
  }

  // ---------- chaining ----------

  lemma {:induction false} MatchedAppend(a: seq<Command>, b: seq<Command>, e: BridgeModel.Event)
    ensures ShadowChains.Matched(a + b, e) == ShadowChains.Matched(a, e) + ShadowChains.Matched(b, e)
  {
    if b == [] {
      assert a + b == a;
    } else {
      MatchedAppend(a, b[..|b| - 1], e);
      assert (a + b)[..|a + b| - 1] == a + b[..|b| - 1];
    }
  }

  lemma {:induction false} NoneMatched(cs: seq<Command>, e: BridgeModel.Event)
    requires forall i :: 0 <= i < |cs| ==> !BridgeModel.Matches(cs[i], e)
    ensures ShadowChains.Matched(cs, e) == []
  {
    if cs == [] {
    } else {
      NoneMatched(cs[..|cs| - 1], e);
    }
  }

  lemma {:induction false} AllMatched(cs: seq<Command>, e: BridgeModel.Event)
    requires forall i :: 0 <= i < |cs| ==> BridgeModel.Matches(cs[i], e)
    ensures ShadowChains.Matched(cs, e) == cs
  {
    if cs == [] {
    } else {
      AllMatched(cs[..|cs| - 1], e);
    }
  }

  lemma {:induction false} ChainBreaks(b: BlockInfo, offset: int, at: Tier, n: nat)
    requires n <= |Chain(b, offset, at)|
    ensures ShadowChains.Breaks(Chain(b, offset, at)[..n]) == 0
  {
    if n > 1 {
      ChainBreaks(b, offset, at, n - 1);
      assert Chain(b, offset, at)[..n][..n - 1] == Chain(b, offset, at)[..n - 1];
    }
  }

  /** A prefix of one block's chain is matched as a whole or not at all, and has no break. */
  lemma {:induction false} ChainUnbroken(b: BlockInfo, offset: int, at: Tier, n: nat, e: BridgeModel.Event)
    requires n <= |Chain(b, offset, at)|
    ensures var ms := ShadowChains.Matched(Chain(b, offset, at)[..n], e);
      && (ms == [] || (ms == Chain(b, offset, at)[..n] && b.key == BlockKey(e.layer, e.block)))
      && ShadowChains.Breaks(ms) == 0
  {
    var cs := Chain(b, offset, at)[..n];
    forall i | 0 <= i < |cs| ensures cs[i].PlanKey() == b.key && cs[i].start == b.start && cs[i].end == b.end {
      ChainMember(b, offset, at, cs[i]);
    }
    if b.key == BlockKey(e.layer, e.block) && b.start < e.end && b.end > e.start {
      AllMatched(cs, e);
      ChainBreaks(b, offset, at, n);
    } else {
      NoneMatched(cs, e);
    }
  }

  lemma {:induction false} OtherBlocksUnmatched(bs: seq<BlockInfo>, where: Residency, l: Layout, e: BridgeModel.Event)
    requires Known(bs, where) && !HasKey(bs, BlockKey(e.layer, e.block))
    ensures ShadowChains.Matched(Derived(bs, where, l), e) == []
  {
    var cs := Derived(bs, where, l);
    forall i | 0 <= i < |cs| ensures !BridgeModel.Matches(cs[i], e) {
      var k := MemberOf(bs, where, l, i);
      ChainMember(bs[k], OffsetOf(l, bs[k].key), where[bs[k].key], cs[i]);
      assert bs[k].key != BlockKey(e.layer, e.block);
    }
    NoneMatched(cs, e);
  }

  lemma {:induction false} PrefixUnbroken(bs: seq<BlockInfo>, where: Residency, l: Layout, n: nat, e: BridgeModel.Event)
    requires Known(bs, where) && DistinctKeys(bs) && n <= |Derived(bs, where, l)|
    ensures ShadowChains.Breaks(ShadowChains.Matched(Derived(bs, where, l)[..n], e)) == 0
  {
    hide Chain, BridgeModel.Matches;
    if bs == [] {
    } else {
      var front, b := bs[..|bs| - 1], bs[|bs| - 1];
      var before := Derived(front, where, l);
      var chain := Chain(b, OffsetOf(l, b.key), where[b.key]);
      if n <= |before| {
        assert Derived(bs, where, l)[..n] == before[..n];
        PrefixUnbroken(front, where, l, n, e);
      } else {
        assert Derived(bs, where, l)[..n] == before + chain[..n - |before|];
        MatchedAppend(before, chain[..n - |before|], e);
        ChainUnbroken(b, OffsetOf(l, b.key), where[b.key], n - |before|, e);
        var x, y := ShadowChains.Matched(before, e), ShadowChains.Matched(chain[..n - |before|], e);
        assert y == [] ==> x + y == x;
        assert x == [] ==> x + y == y;
        if b.key == BlockKey(e.layer, e.block) {
          OtherBlocksUnmatched(front, where, l, e);
        } else {
          PrefixUnbroken(front, where, l, |before|, e);
          assert before[..|before|] == before;
        }
      }
    }
  }

  /** What the bridge keeps of a command list: its first 4096 records. */
  function Kept(cs: seq<Command>): seq<Command> {
    if |cs| <= BridgeModel.MAX_COMMANDS then cs else cs[..BridgeModel.MAX_COMMANDS]
  }

  /** The shadow chain law for scheduler-derived lists, truncated or not: no run of runtime events ever
      shows a source mismatch. */
  lemma {:induction false} CompiledNeverMismatches(cfg: BridgeModel.Config, bs: seq<BlockInfo>, where: Residency, l: Layout, pool: seq<BlockInfo>,
                                es: seq<BridgeModel.Event>, w: BridgeModel.World)
    requires Compiled(bs, where, l, pool) && cfg.commands == Kept(Derived(bs, where, l))
    requires BridgeModel.WorldShaped(cfg, w) && w.state == BridgeModel.FRESH && BridgeModel.LayersKnown(w, es)
    ensures var sh := BridgeModel.Run(cfg, es, w).state.sh;
      && sh.mismatches == 0 && sh.transitions == sh.matches == sh.matched
      && sh.ssd + sh.dram + sh.vram == sh.blocks
  {
    var cs := Derived(bs, where, l);
    CompiledIsConsistent(bs, where, l, pool);
    var n := if |cs| <= BridgeModel.MAX_COMMANDS then |cs| else BridgeModel.MAX_COMMANDS;
    assert cfg.commands == cs[..n];
    forall e: BridgeModel.Event ensures ShadowChains.Breaks(ShadowChains.Matched(cfg.commands, e)) == 0 {
      PrefixUnbroken(bs, where, l, n, e);
    }
    forall i | 0 <= i < |cfg.commands|
      ensures !cfg.commands[i].source.Elsewhere? && !cfg.commands[i].target.Elsewhere?
    {
      assert ValidCommand(cs[i]);
    }
    ShadowChains.NoMismatchEver(cfg, es, w);
  }
}
