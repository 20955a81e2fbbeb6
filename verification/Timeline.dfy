/** The SSD-aware scheduler's timeline as a function of the blocks and their residency, and its laws. */
module Timeline {
  import opened Kv
  import opened Blocks

  datatype Latencies = Latencies(ssd: real, dram: real, compute: real, computeAt: Tier)

  /** The checks of the scheduler configuration. */
  predicate ValidLatencies(l: Latencies) {
    l.ssd >= 0.0 && l.dram >= 0.0 && l.compute >= 0.0
  }

  datatype OpName =
    | ScheduleSsdRead | ScheduleDramToVram | ScheduleCompute | PrefetchMove | EvictToSsd | OtherSchedule(name: string)

  /** The metadata a schedule operation carries; absent entries are `None`. */
  datatype Meta = Meta(
    from: Option<Location>, to: Option<Location>, at: Option<Location>, blocking: Option<bool>, size: Option<int>)

  datatype ScheduleOp = ScheduleOp(name: OpName, key: BlockKey, startMs: real, endMs: real, meta: Meta)

  function SsdReadOp(b: BlockInfo, now: real, l: Latencies): ScheduleOp {
    ScheduleOp(ScheduleSsdRead, b.key, now, now + l.ssd, Meta(Some(SSD), Some(DRAM), None, Some(true), Some(b.size)))
  }

  function DramToVramOp(b: BlockInfo, now: real, l: Latencies): ScheduleOp {
    ScheduleOp(ScheduleDramToVram, b.key, now, now + l.dram, Meta(Some(DRAM), Some(VRAM), None, Some(true), Some(b.size)))
  }

  function ComputeOp(b: BlockInfo, now: real, l: Latencies): ScheduleOp {
    ScheduleOp(ScheduleCompute, b.key, now, now + l.compute, Meta(None, None, Some(VRAM), Some(false), None))
  }

  /** The operations that bring a block from its tier into VRAM and compute on it. */
  function Steps(b: BlockInfo, at: Tier, now: real, l: Latencies): seq<ScheduleOp> {
    match at
    case SSD => [SsdReadOp(b, now, l), DramToVramOp(b, now + l.ssd, l), ComputeOp(b, now + l.ssd + l.dram, l)]
    case DRAM => [DramToVramOp(b, now, l), ComputeOp(b, now + l.dram, l)]
    case VRAM => [ComputeOp(b, now, l)]
  }

  /** What moving a block into VRAM costs: the time compute waits for it, and the metrics it adds. */
  function Wait(at: Tier, l: Latencies): real {
    match at
    case SSD => l.ssd + l.dram
    case DRAM => l.dram
    case VRAM => 0.0
  }

  function Duration(at: Tier, l: Latencies): real {
    Wait(at, l) + l.compute
  }

  function MoveCost(b: BlockInfo, at: Tier, l: Latencies): Metrics {
    NO_METRICS.(totalLatency := Wait(at, l), gpuWait := Wait(at, l), loadBlocking := Wait(at, l),
               ssdReadBytes := if at.SSD? then b.size else 0, ioOps := if at.SSD? then 1 else 0)
  }

  function Cost(b: BlockInfo, at: Tier, l: Latencies): Metrics {
    MoveCost(b, at, l).Plus(NO_METRICS.(totalLatency := l.compute))
  }

  predicate Known(bs: seq<BlockInfo>, where: Residency) {
    forall i :: 0 <= i < |bs| ==> bs[i].key in where
  }

  /** The time at which the first `|bs|` blocks are done. */
  function EndTime(bs: seq<BlockInfo>, where: Residency, now: real, l: Latencies): real
    requires Known(bs, where)
  {
    if bs == [] then now
    else EndTime(bs[..|bs| - 1], where, now, l) + Duration(where[bs[|bs| - 1].key], l)
  }

  /** The whole timeline: block after block, each starting when the previous one is done. */
  function Ops(bs: seq<BlockInfo>, where: Residency, now: real, l: Latencies): seq<ScheduleOp>
    requires Known(bs, where)
  {
    if bs == [] then []
    else
      var front, b := bs[..|bs| - 1], bs[|bs| - 1];
      Ops(front, where, now, l) + Steps(b, where[b.key], EndTime(front, where, now, l), l)
  }

  function TotalCost(bs: seq<BlockInfo>, where: Residency, l: Latencies): Metrics
    requires Known(bs, where)
  {
    if bs == [] then NO_METRICS
    else TotalCost(bs[..|bs| - 1], where, l).Plus(Cost(bs[|bs| - 1], where[bs[|bs| - 1].key], l))
  }

  /** The residency after the blocks have been scheduled. */
  function Scheduled(bs: seq<BlockInfo>, where: Residency): Residency {
    map k | k in where :: if HasKey(bs, k) then VRAM else where[k]
  }

  // ---------- the schedule's total latency ----------

  function MaxEnd(ops: seq<ScheduleOp>): real
    requires ops != []
  {
    if |ops| == 1 then ops[0].endMs
    else
      var m := MaxEnd(ops[..|ops| - 1]);
      if ops[|ops| - 1].endMs > m then ops[|ops| - 1].endMs else m
  }

  function MinStart(ops: seq<ScheduleOp>): real
    requires ops != []
  {
    if |ops| == 1 then ops[0].startMs
    else
      var m := MinStart(ops[..|ops| - 1]);
      if ops[|ops| - 1].startMs < m then ops[|ops| - 1].startMs else m
  }

  function TotalLatency(ops: seq<ScheduleOp>): real {
    if ops == [] then 0.0 else MaxEnd(ops) - MinStart(ops)
  }

  // ---------- laws ----------

  /** Each operation starts when the previous one ends, the first one at `now`, the last one ending at `end`. */
  ghost predicate GapFree(ops: seq<ScheduleOp>, now: real, end: real) {
    && (forall i {:trigger ops[i]} :: 0 <= i < |ops| ==> ops[i].startMs <= ops[i].endMs)
    && (forall i, j :: 0 <= i && j == i + 1 && j < |ops| ==> ops[j].startMs == ops[i].endMs)
    && (if ops == [] then now == end else ops[0].startMs == now && ops[|ops| - 1].endMs == end)
  }

  lemma {:induction false} StepsGapFree(b: BlockInfo, at: Tier, now: real, l: Latencies)
    requires ValidLatencies(l)
    ensures GapFree(Steps(b, at, now, l), now, now + Duration(at, l))
  {
  }

  lemma {:induction false} GapFreeAppend(a: seq<ScheduleOp>, b: seq<ScheduleOp>, now: real, mid: real, end: real)
    requires GapFree(a, now, mid) && GapFree(b, mid, end)
    ensures GapFree(a + b, now, end)
  {
    var ops := a + b;
    forall i, j | 0 <= i && j == i + 1 && j < |ops| ensures ops[j].startMs == ops[i].endMs {
      if j < |a| {
        assert a[j].startMs == a[i].endMs;
      } else if i >= |a| {
        assert b[j - |a|].startMs == b[i - |a|].endMs;
      }
    }
  }

  lemma {:induction false} TimelineGapFree(bs: seq<BlockInfo>, where: Residency, now: real, l: Latencies)
    requires Known(bs, where) && ValidLatencies(l)
    ensures GapFree(Ops(bs, where, now, l), now, EndTime(bs, where, now, l))
  {
    if bs == [] {
    } else {
      var front, b := bs[..|bs| - 1], bs[|bs| - 1];
      TimelineGapFree(front, where, now, l);
      StepsGapFree(b, where[b.key], EndTime(front, where, now, l), l);
      GapFreeAppend(Ops(front, where, now, l), Steps(b, where[b.key], EndTime(front, where, now, l), l),
                    now, EndTime(front, where, now, l), EndTime(bs, where, now, l));
    }
  }

  lemma {:induction false} GapFreeLatency(ops: seq<ScheduleOp>, now: real, end: real)
    requires GapFree(ops, now, end)
    ensures ops != [] ==> MaxEnd(ops) == end && MinStart(ops) == now && now <= end
    ensures TotalLatency(ops) == end - now
  {
    if |ops| > 1 {
      var front := ops[..|ops| - 1];
      assert forall i, j :: 0 <= i && j == i + 1 && j < |front| ==> front[j].startMs == front[i].endMs;
      assert ops[|ops| - 1].startMs == ops[|ops| - 2].endMs;
      GapFreeLatency(front, now, ops[|ops| - 2].endMs);
    }
  }

  /** The number of the blocks that start on a tier. */
  function CountOn(bs: seq<BlockInfo>, where: Residency, tier: Tier): nat
    requires Known(bs, where)
  {
    if bs == [] then 0
    else CountOn(bs[..|bs| - 1], where, tier) + if where[bs[|bs| - 1].key] == tier then 1 else 0
  }

  function SizeOn(bs: seq<BlockInfo>, where: Residency, tier: Tier): int
    requires Known(bs, where)
  {
    if bs == [] then 0
    else SizeOn(bs[..|bs| - 1], where, tier) + if where[bs[|bs| - 1].key] == tier then bs[|bs| - 1].size else 0
  }

  lemma {:induction false} OneMore(n: nat, x: real)
    ensures (n + 1) as real * x == n as real * x + x
  {
  }

  lemma {:induction false} CountsAll(bs: seq<BlockInfo>, where: Residency)
    requires Known(bs, where)
    ensures CountOn(bs, where, SSD) + CountOn(bs, where, DRAM) + CountOn(bs, where, VRAM) == |bs|
  {
    if bs == [] {
    } else {
      CountsAll(bs[..|bs| - 1], where);
    }
  }

  /** Three costs, weighed by how many blocks pay each. */
  function Weigh(s: nat, d: nat, v: nat, ssd: real, dram: real, vram: real): real {
    s as real * ssd + d as real * dram + v as real * vram
  }

  /** A per-block cost summed by tier. */
  function ByTier(bs: seq<BlockInfo>, where: Residency, ssd: real, dram: real, vram: real): real
    requires Known(bs, where)
  {
    Weigh(CountOn(bs, where, SSD), CountOn(bs, where, DRAM), CountOn(bs, where, VRAM), ssd, dram, vram)
  }

  lemma {:induction false} WeighOneMore(s: nat, d: nat, v: nat, ssd: real, dram: real, vram: real)
    ensures Weigh(s + 1, d, v, ssd, dram, vram) == Weigh(s, d, v, ssd, dram, vram) + ssd
    ensures Weigh(s, d + 1, v, ssd, dram, vram) == Weigh(s, d, v, ssd, dram, vram) + dram
    ensures Weigh(s, d, v + 1, ssd, dram, vram) == Weigh(s, d, v, ssd, dram, vram) + vram
  {
    OneMore(s, ssd);
    OneMore(d, dram);
    OneMore(v, vram);
  }

  lemma {:induction false} ByTierStep(bs: seq<BlockInfo>, where: Residency, ssd: real, dram: real, vram: real)
    requires bs != [] && Known(bs, where)
    ensures ByTier(bs, where, ssd, dram, vram) == ByTier(bs[..|bs| - 1], where, ssd, dram, vram)
      + match where[bs[|bs| - 1].key] case SSD => ssd case DRAM => dram case VRAM => vram
  {
    hide Weigh;
    var front := bs[..|bs| - 1];
    WeighOneMore(CountOn(front, where, SSD), CountOn(front, where, DRAM), CountOn(front, where, VRAM), ssd, dram, vram);
  }

  /** The elapsed time and every metric of a schedule, from how many blocks start on which tier. */
  lemma {:induction false} CostsByTier(bs: seq<BlockInfo>, where: Residency, now: real, l: Latencies)
    requires Known(bs, where)
    ensures var m := TotalCost(bs, where, l);
      && EndTime(bs, where, now, l) - now == ByTier(bs, where, l.ssd + l.dram + l.compute, l.dram + l.compute, l.compute)
      && m.totalLatency == EndTime(bs, where, now, l) - now
      && m.gpuWait == m.loadBlocking == ByTier(bs, where, l.ssd + l.dram, l.dram, 0.0)
      && m.ssdReadBytes == SizeOn(bs, where, SSD) && m.ioOps == CountOn(bs, where, SSD)
      && m.hits == m.misses == m.wrong == 0
  {
    if bs == [] {
    } else {
      hide ByTier;
      CostsByTier(bs[..|bs| - 1], where, now, l);
      ByTierStep(bs, where, l.ssd + l.dram + l.compute, l.dram + l.compute, l.compute);
      ByTierStep(bs, where, l.ssd + l.dram, l.dram, 0.0);
    }
  }

  /** The timeline law: gap-free operations whose total latency is the sum over the tiers and equals the
      metrics increment. */
  lemma {:induction false} TimelineLaw(bs: seq<BlockInfo>, where: Residency, now: real, l: Latencies)
    requires Known(bs, where) && ValidLatencies(l)
    ensures var ops := Ops(bs, where, now, l);
      && GapFree(ops, now, EndTime(bs, where, now, l))
      && TotalLatency(ops) == TotalCost(bs, where, l).totalLatency
      && TotalLatency(ops) == ByTier(bs, where, l.ssd + l.dram + l.compute, l.dram + l.compute, l.compute)
  {
    TimelineGapFree(bs, where, now, l);
    GapFreeLatency(Ops(bs, where, now, l), now, EndTime(bs, where, now, l));
    hide ByTier;
    CostsByTier(bs, where, now, l);
  }

  /** Scheduling the same blocks again only computes: nothing moves and nothing is read. */
  lemma {:induction false} SecondRunComputes(bs: seq<BlockInfo>, where: Residency, now: real, l: Latencies)
    requires Known(bs, where)
    ensures Known(bs, Scheduled(bs, where))
    ensures var ops := Ops(bs, Scheduled(bs, where), now, l);
      |ops| == |bs| && forall i :: 0 <= i < |ops| ==> ops[i].name.ScheduleCompute? && ops[i].key == bs[i].key
    ensures Scheduled(bs, Scheduled(bs, where)) == Scheduled(bs, where)
  {
    forall i | 0 <= i < |bs| ensures bs[i].key in Scheduled(bs, where) && Scheduled(bs, where)[bs[i].key] == VRAM {
      assert HasKey(bs, bs[i].key);
    }
    ResidentComputes(bs, Scheduled(bs, where), now, l);
  }

  lemma {:induction false} ResidentComputes(bs: seq<BlockInfo>, where: Residency, now: real, l: Latencies)
    requires Known(bs, where) && forall i :: 0 <= i < |bs| ==> where[bs[i].key] == VRAM
    ensures var ops := Ops(bs, where, now, l);
      |ops| == |bs| && forall i :: 0 <= i < |ops| ==> ops[i].name.ScheduleCompute? && ops[i].key == bs[i].key
  {
    if bs == [] {
    } else {
      ResidentComputes(bs[..|bs| - 1], where, now, l);
      assert where[bs[|bs| - 1].key] == VRAM;
    }
  }
}
