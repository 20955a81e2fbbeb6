/** The SSD-aware scheduler: it walks over the store's blocks, moves each into VRAM, and records the
    timeline and the metrics.
 */
module Scheduler {
  import opened Kv
  import opened Blocks
  import opened Timeline

  datatype ScheduleError = NotAtCompute(key: BlockKey)

  class SSDAwareScheduler {
    const store: BlockStore
    const config: Latencies
    const metrics: MetricsCollector?

    constructor (store: BlockStore, config: Latencies, metrics: MetricsCollector?)
      requires ValidLatencies(config)
      ensures this.store == store && this.config == config && this.metrics == metrics
    {
      this.store := store;
      this.config := config;
      this.metrics := metrics;
    }

    ghost function MetricsNow(): Metrics
      reads metrics
    {
      if metrics == null then NO_METRICS else metrics.now
    }

    /** The metrics moved from `before` by `d`, unless none are collected. */
    ghost predicate Added(before: Metrics, d: Metrics)
      reads metrics
    {
      MetricsNow() == if metrics == null then NO_METRICS else before.Plus(d)
    }

    /** Add `d` on top of what has been added since `before`. */
    method AddMetrics(d: Metrics, ghost before: Metrics, ghost spent: Metrics)
      requires Added(before, spent)
      modifies metrics
      ensures Added(before, spent.Plus(d))
    {
      PlusAssociative(before, spent, d);
      if metrics != null {
        metrics.Add(d);
      }
    }

    static lemma {:induction false} PlusAssociative(a: Metrics, b: Metrics, c: Metrics)
      ensures a.Plus(b).Plus(c) == a.Plus(b.Plus(c)) && a.Plus(NO_METRICS) == a
    {
    }

    /** What the three kinds of step add. */
    static function SsdReadCost(b: BlockInfo, l: Latencies): Metrics {
      NO_METRICS.(totalLatency := l.ssd, gpuWait := l.ssd, loadBlocking := l.ssd, ssdReadBytes := b.size, ioOps := 1)
    }

    static function DramToVramCost(l: Latencies): Metrics {
      NO_METRICS.(totalLatency := l.dram, gpuWait := l.dram, loadBlocking := l.dram)
    }

    static function ComputeCost(l: Latencies): Metrics {
      NO_METRICS.(totalLatency := l.compute)
    }

    static lemma {:induction false} StepCosts(b: BlockInfo, l: Latencies, spent: Metrics)
      ensures MoveCost(b, VRAM, l) == NO_METRICS && spent.Plus(NO_METRICS) == spent
      ensures MoveCost(b, DRAM, l) == DramToVramCost(l)
      ensures spent.Plus(SsdReadCost(b, l)).Plus(DramToVramCost(l)) == spent.Plus(MoveCost(b, SSD, l))
      ensures forall at: Tier :: spent.Plus(MoveCost(b, at, l)).Plus(ComputeCost(l)) == spent.Plus(Cost(b, at, l))
    {
    }

    method MakeSsdRead(b: KVBlock, now: real, ghost before: Metrics, ghost spent: Metrics) returns (op: ScheduleOp)
      requires store.Valid() && store.Owns(b) && b.location == SSD && Added(before, spent)
      modifies store.blocks.Values`location, metrics
      ensures op == SsdReadOp(b.info, now, config)
      ensures store.Locations() == old(store.Locations())[b.info.key := DRAM] && b.location == DRAM
      ensures Added(before, spent.Plus(SsdReadCost(b.info, config)))
    {
      var moved := store.MoveBlock(b.info.key, DRAM);
      assert store.Locations()[b.info.key] == b.location;
      op := ScheduleOp(ScheduleSsdRead, b.info.key, now, now + config.ssd,
                       Meta(Some(SSD), Some(DRAM), None, Some(true), Some(b.info.size)));
      AddMetrics(NO_METRICS.(totalLatency := config.ssd, gpuWait := config.ssd, loadBlocking := config.ssd,
                            ssdReadBytes := b.info.size, ioOps := 1), before, spent);
    }

    method MakeDramToVram(b: KVBlock, now: real, ghost before: Metrics, ghost spent: Metrics) returns (op: ScheduleOp)
      requires store.Valid() && store.Owns(b) && b.location == DRAM && Added(before, spent)
      modifies store.blocks.Values`location, metrics
      ensures op == DramToVramOp(b.info, now, config)
      ensures store.Locations() == old(store.Locations())[b.info.key := VRAM] && b.location == VRAM
      ensures Added(before, spent.Plus(DramToVramCost(config)))
    {
      var from := b.location;
      var moved := store.MoveBlock(b.info.key, VRAM);
      assert store.Locations()[b.info.key] == b.location;
      op := ScheduleOp(ScheduleDramToVram, b.info.key, now, now + config.dram,
                       Meta(Some(from), Some(VRAM), None, Some(true), Some(b.info.size)));
      AddMetrics(NO_METRICS.(totalLatency := config.dram, gpuWait := config.dram, loadBlocking := config.dram), before, spent);
    }

    method MakeCompute(b: KVBlock, now: real, ghost before: Metrics, ghost spent: Metrics) returns (op: ScheduleOp)
      requires b.location == VRAM && Added(before, spent)
      modifies metrics
      ensures op == ComputeOp(b.info, now, config)
      ensures Added(before, spent.Plus(ComputeCost(config)))
    {
      op := ScheduleOp(ScheduleCompute, b.info.key, now, now + config.compute,
                       Meta(None, None, Some(b.location), Some(false), None));
      AddMetrics(NO_METRICS.(totalLatency := config.compute), before, spent);
    }

    static lemma {:induction false} StepsShape(b: BlockInfo, now: real, l: Latencies)
      ensures Steps(b, VRAM, now, l) == [] + [ComputeOp(b, now, l)] && Wait(VRAM, l) == 0.0
      ensures Steps(b, DRAM, now, l) == ([] + [DramToVramOp(b, now, l)]) + [ComputeOp(b, now + l.dram, l)] && Wait(DRAM, l) == l.dram
      ensures Steps(b, SSD, now, l) ==
        ([] + [SsdReadOp(b, now, l)] + [DramToVramOp(b, now + l.ssd, l)]) + [ComputeOp(b, now + l.ssd + l.dram, l)]
      ensures Wait(SSD, l) == l.ssd + l.dram
      ensures SsdReadOp(b, now, l).endMs == now + l.ssd && forall at :: DramToVramOp(b, at, l).endMs == at + l.dram
    {
    }

    /** Bring a block into VRAM: the first two branches of the loop body. */
    method MoveIn(b: KVBlock, now: real, ghost before: Metrics, ghost spent: Metrics)
      returns (ops: seq<ScheduleOp>, at: real)
      requires store.Valid() && store.Owns(b) && Added(before, spent)
      modifies store.blocks.Values`location, metrics
      ensures b.location == VRAM && store.Locations() == old(store.Locations())[b.info.key := VRAM]
      ensures at == now + Wait(old(b.location), config)
      ensures ops + [ComputeOp(b.info, at, config)] == Steps(b.info, old(b.location), now, config)
      ensures Added(before, spent.Plus(MoveCost(b.info, old(b.location), config)))
    {
      StepCosts(b.info, config, spent);
      StepsShape(b.info, now, config);
      hide Metrics.Plus, Cost, MoveCost, Added, Steps, ComputeOp, SsdReadOp, DramToVramOp, Wait, DramToVramCost, SsdReadCost;
      ghost var start := store.Locations();
      assert start[b.info.key] == b.location;
      ops, at := [], now;
      ghost var sum := spent;
      if b.location == SSD {
        var op := MakeSsdRead(b, at, before, sum);
        sum := sum.Plus(SsdReadCost(b.info, config));
        ops := ops + [op];
        at := op.endMs;
      }
      if b.location == DRAM {
        var op := MakeDramToVram(b, at, before, sum);
        ops := ops + [op];
        at := op.endMs;
      }
    }

    /** One block of the schedule loop. On failure the block has still been moved. */
    method ScheduleBlock(b: KVBlock, now: real, ghost before: Metrics, ghost spent: Metrics)
      returns (r: Result<seq<ScheduleOp>, ScheduleError>)
      requires store.Valid() && store.Owns(b) && Added(before, spent)
      modifies store.blocks.Values`location, metrics
      ensures store.Locations() == old(store.Locations())[b.info.key := VRAM]
      ensures if config.computeAt.VRAM?
        then r == Success(Steps(b.info, old(b.location), now, config)) && Added(before, spent.Plus(Cost(b.info, old(b.location), config)))
        else r == Failure(NotAtCompute(b.info.key)) && Added(before, spent.Plus(MoveCost(b.info, old(b.location), config)))
    {
      ghost var from := b.location;
      StepCosts(b.info, config, spent);
      hide Metrics.Plus, Cost, MoveCost, Added, Steps;
      var ops, at := MoveIn(b, now, before, spent);
      if b.location != config.computeAt {
        return Failure(NotAtCompute(b.info.key));
      }
      var op := MakeCompute(b, at, before, spent.Plus(MoveCost(b.info, from, config)));
      return Success(ops + [op]);
    }

    /** The outcome of scheduling the distinct blocks `unique` that were at `where`. It succeeds on a
        non-empty list exactly when the compute location is VRAM; then the timeline is returned, the
        blocks are in VRAM, all others are where they were, and the metrics grew by the timeline's cost.
        Otherwise the first block has been moved and nothing else has changed. */
    ghost predicate Outcome(r: Result<seq<ScheduleOp>, ScheduleError>, unique: seq<BlockInfo>, where: Residency,
                            startMs: real, before: Metrics)
      reads store, store.blocks.Values, metrics
    {
      Known(unique, where) &&
      if unique == [] || config.computeAt.VRAM? then
        && r == Success(Ops(unique, where, startMs, config))
        && store.Locations() == Scheduled(unique, where)
        && Added(before, TotalCost(unique, where, config))
      else
        && r == Failure(NotAtCompute(unique[0].key))
        && store.Locations() == where[unique[0].key := VRAM]
        && Added(before, NO_METRICS.Plus(MoveCost(unique[0], where[unique[0].key], config)))
    }

    /** Schedule the distinct blocks of `bs`. */
    method Schedule(bs: seq<KVBlock>, startMs: real) returns (r: Result<seq<ScheduleOp>, ScheduleError>)
      requires store.Valid() && store.OwnsAll(bs)
      modifies store.blocks.Values`location, metrics
      ensures Outcome(r, Dedupe(InfosOf(bs)), old(store.Locations()), startMs, old(MetricsNow()))
    {
      hide Dedupe, Outcome, DistinctKeys, Known, Metrics.Plus;
      var blocks := Unique(bs);
      PlusAssociative(MetricsNow(), NO_METRICS, NO_METRICS);
      r := ScheduleLoop(blocks, startMs, MetricsNow(), store.Locations());
    }

    method Unique(bs: seq<KVBlock>) returns (blocks: seq<KVBlock>)
      requires store.Valid() && store.OwnsAll(bs)
      ensures InfosOf(blocks) == Dedupe(InfosOf(bs)) && DistinctKeys(InfosOf(blocks))
      ensures store.OwnsAll(blocks) && Known(InfosOf(blocks), store.Locations())
    {
      hide Dedupe;
      blocks := DedupeBlocks(bs);
      assert store.OwnsAll(blocks);
    }

    static lemma {:induction false} NothingScheduled(where: Residency)
      ensures Scheduled([], where) == where
    {
    }

    method ScheduleLoop(blocks: seq<KVBlock>, startMs: real, ghost before: Metrics, ghost where: Residency)
      returns (r: Result<seq<ScheduleOp>, ScheduleError>)
      requires store.Valid() && store.OwnsAll(blocks) && where == store.Locations()
      requires DistinctKeys(InfosOf(blocks)) && Known(InfosOf(blocks), where) && Added(before, NO_METRICS)
      modifies store.blocks.Values`location, metrics
      ensures Outcome(r, InfosOf(blocks), where, startMs, before)
    {
      hide Steps, Cost, MoveCost, DistinctKeys, HasKey, Scheduled, Metrics.Plus, Duration, Added, Ops, EndTime, TotalCost;
      NothingTimed(where, startMs, config);
      ghost var unique := InfosOf(blocks);
      NothingScheduled(where);
      assert unique[..0] == [];
      var now := startMs;
      var ops: seq<ScheduleOp> := [];
      var i := 0;
      while i < |blocks|
        invariant 0 <= i <= |blocks|
        invariant config.computeAt.VRAM? || i == 0
        invariant store.Locations() == Scheduled(unique[..i], where)
        invariant now == EndTime(unique[..i], where, startMs, config)
        invariant ops == Ops(unique[..i], where, startMs, config)
        invariant Added(before, TotalCost(unique[..i], where, config))
      {
        var b := blocks[i];
        TimelineStep(unique, where, startMs, config, i);
        ScheduledStep(unique, where, i);
        assert store.Locations()[b.info.key] == b.location;
        var made := ScheduleBlock(b, now, before, TotalCost(unique[..i], where, config));
        if made.Failure? {
          return Failure(made.error);
        }
        StepsEnd(b.info, where[b.info.key], now, config);
        ops := ops + made.value;
        now := made.value[|made.value| - 1].endMs;
        i := i + 1;
      }
      assert unique[..|blocks|] == unique;
      return Success(ops);
    }

    static lemma NothingTimed(where: Residency, startMs: real, l: Latencies)
      ensures Ops([], where, startMs, l) == [] && EndTime([], where, startMs, l) == startMs && TotalCost([], where, l) == NO_METRICS
    {
    }

    static lemma TimelineStep(unique: seq<BlockInfo>, where: Residency, startMs: real, l: Latencies, i: nat)
      requires i < |unique| && Known(unique, where)
      ensures var b, front, next := unique[i], unique[..i], unique[..i + 1];
        && Ops(next, where, startMs, l) == Ops(front, where, startMs, l) + Steps(b, where[b.key], EndTime(front, where, startMs, l), l)
        && EndTime(next, where, startMs, l) == EndTime(front, where, startMs, l) + Duration(where[b.key], l)
        && TotalCost(next, where, l) == TotalCost(front, where, l).Plus(Cost(b, where[b.key], l))
    {
      assert unique[..i + 1][..i] == unique[..i];
    }

    static lemma StepsEnd(b: BlockInfo, at: Tier, now: real, l: Latencies)
      ensures var s := Steps(b, at, now, l); s != [] && s[|s| - 1].endMs == now + Duration(at, l)
    {
    }

    static lemma ScheduledStep(unique: seq<BlockInfo>, where: Residency, i: nat)
      requires i < |unique| && DistinctKeys(unique) && Known(unique, where)
      ensures Scheduled(unique[..i], where)[unique[i].key] == where[unique[i].key]
      ensures Scheduled(unique[..i], where)[unique[i].key := VRAM] == Scheduled(unique[..i + 1], where)
    {
      assert unique[..i + 1] == unique[..i] + [unique[i]];
      SeenStep(unique[..i], unique[i]);
      assert !HasKey(unique[..i], unique[i].key);
    }
  }
}
