/** The speculative prefetcher: it plans, moves blocks ahead of time, and is evaluated against the blocks
    that turn out to be required.
 */
module Prefetch {
  import opened Kv
  import opened Blocks
  import opened Timeline
  import Scheduler

  // ---------- what a plan does to the store and to the metrics ----------

  function Moved(where: Residency, p: seq<BlockInfo>, target: Tier): Residency {
    map k | k in where :: if HasKey(p, k) then target else where[k]
  }

  function FetchCost(b: BlockInfo, at: Tier, latency: real): Metrics {
    if at.SSD? then NO_METRICS.(totalLatency := latency, ssdReadBytes := b.size, ioOps := 1) else NO_METRICS
  }

  function PrefetchCost(p: seq<BlockInfo>, where: Residency, latency: real): Metrics
    requires Known(p, where)
  {
    if p == [] then NO_METRICS
    else PrefetchCost(p[..|p| - 1], where, latency).Plus(FetchCost(p[|p| - 1], where[p[|p| - 1].key], latency))
  }

  /** What executing a plan adds, move by move: a repeated block is already at the target. */
  function ExecuteCost(p: seq<BlockInfo>, where: Residency, target: Tier, latency: real): Metrics
    requires Known(p, where)
  {
    if p == [] then NO_METRICS
    else
      var front, b := p[..|p| - 1], p[|p| - 1];
      ExecuteCost(front, where, target, latency).Plus(FetchCost(b, Moved(where, front, target)[b.key], latency))
  }

  lemma {:induction false} MovedDistinct(p: seq<BlockInfo>, where: Residency, target: Tier)
    ensures Moved(where, Dedupe(p), target) == Moved(where, p, target)
  {
  }

  lemma {:induction false} DedupeKnown(p: seq<BlockInfo>, where: Residency)
    requires Known(p, where)
    ensures Known(Dedupe(p), where)
  {
    forall i | 0 <= i < |Dedupe(p)| ensures Dedupe(p)[i].key in where {
      assert Dedupe(p)[i] in p;
    }
  }

  lemma {:induction false} FreeOfCharge(m: Metrics)
    ensures m.Plus(NO_METRICS) == m
  {
  }

  /** A plan with repeated blocks costs what its distinct blocks cost, unless it targets the SSD. */
  lemma {:induction false} RepeatsCostNothing(p: seq<BlockInfo>, where: Residency, target: Tier, latency: real)
    requires Known(p, where) && !target.SSD?
    ensures Known(Dedupe(p), where)
    ensures ExecuteCost(p, where, target, latency) == PrefetchCost(Dedupe(p), where, latency)
  {
    DedupeKnown(p, where);
    if p == [] {
    } else {
      var front, b := p[..|p| - 1], p[|p| - 1];
      RepeatsCostNothing(front, where, target, latency);
      FreeOfCharge(ExecuteCost(front, where, target, latency));
      assert HasKey(Dedupe(front), b.key) <==> HasKey(front, b.key);
      hide HasKey, Metrics.Plus;
      if !HasKey(front, b.key) {
        assert Dedupe(p)[..|Dedupe(front)|] == Dedupe(front);
      }
    }
  }

  /** The blocks of `bs` whose key is planned, and the others. */
  function Common(bs: seq<BlockInfo>, p: seq<BlockInfo>): seq<BlockInfo> {
    if bs == [] then []
    else Common(bs[..|bs| - 1], p) + if HasKey(p, bs[|bs| - 1].key) then [bs[|bs| - 1]] else []
  }

  function Rest(bs: seq<BlockInfo>, p: seq<BlockInfo>): seq<BlockInfo> {
    if bs == [] then []
    else Rest(bs[..|bs| - 1], p) + if HasKey(p, bs[|bs| - 1].key) then [] else [bs[|bs| - 1]]
  }

  lemma {:induction false} PartsKnown(bs: seq<BlockInfo>, p: seq<BlockInfo>, where: Residency)
    requires Known(bs, where)
    ensures Known(Common(bs, p), where) && Known(Rest(bs, p), where) && Known(bs, Moved(where, p, DRAM))
    ensures |Common(bs, p)| + |Rest(bs, p)| == |bs|
  {
    if bs == [] {
    } else {
      PartsKnown(bs[..|bs| - 1], p, where);
    }
  }

  lemma {:induction false} PlusFields(m: Metrics, d: Metrics)
    ensures var r := m.Plus(d);
      && r.totalLatency == m.totalLatency + d.totalLatency && r.gpuWait == m.gpuWait + d.gpuWait
      && r.loadBlocking == m.loadBlocking + d.loadBlocking && r.ssdReadBytes == m.ssdReadBytes + d.ssdReadBytes
      && r.ioOps == m.ioOps + d.ioOps && r.hits == m.hits + d.hits && r.misses == m.misses + d.misses && r.wrong == m.wrong + d.wrong
  {
  }

  lemma {:induction false} OneMoreLatency(n: nat, latency: real)
    ensures (n + 1) as real * latency == n as real * latency + latency
  {
    assert (n + 1) as real == n as real + 1.0;
  }

  /** Prefetching reads each of its SSD blocks once, at one latency each. */
  lemma {:induction false} PrefetchReads(p: seq<BlockInfo>, where: Residency, latency: real)
    requires Known(p, where)
    ensures var m := PrefetchCost(p, where, latency);
      && m.totalLatency == CountOn(p, where, SSD) as real * latency
      && m.ssdReadBytes == SizeOn(p, where, SSD) && m.ioOps == CountOn(p, where, SSD)
      && m.gpuWait == m.loadBlocking == 0.0 && m.hits == m.misses == m.wrong == 0
  {
    hide Metrics.Plus;
    if p == [] {
    } else {
      var front, b := p[..|p| - 1], p[|p| - 1];
      PrefetchReads(front, where, latency);
      PlusFields(PrefetchCost(front, where, latency), FetchCost(b, where[b.key], latency));
      OneMoreLatency(CountOn(front, where, SSD), latency);
    }
  }

  lemma {:induction false} PartsStep(bs: seq<BlockInfo>, p: seq<BlockInfo>)
    requires bs != []
    ensures var front, b := bs[..|bs| - 1], bs[|bs| - 1];
      if HasKey(p, b.key) then Common(bs, p) == Common(front, p) + [b] && Rest(bs, p) == Rest(front, p)
      else Common(bs, p) == Common(front, p) && Rest(bs, p) == Rest(front, p) + [b]
  {
  }

  lemma {:induction false} SnocOn(bs: seq<BlockInfo>, b: BlockInfo, where: Residency, tier: Tier)
    requires Known(bs, where) && b.key in where
    ensures Known(bs + [b], where)
    ensures CountOn(bs + [b], where, tier) == CountOn(bs, where, tier) + if where[b.key] == tier then 1 else 0
    ensures SizeOn(bs + [b], where, tier) == SizeOn(bs, where, tier) + if where[b.key] == tier then b.size else 0
  {
    assert (bs + [b])[..|bs|] == bs;
  }

  lemma {:induction false} MovedKey(p: seq<BlockInfo>, where: Residency, key: BlockKey)
    requires key in where
    ensures key in Moved(where, p, DRAM) && Moved(where, p, DRAM)[key] == if HasKey(p, key) then DRAM else where[key]
  {
  }

  lemma {:induction false} AfterMove(bs: seq<BlockInfo>, p: seq<BlockInfo>, where: Residency)
    requires Known(bs, where)
    ensures Known(bs, Moved(where, p, DRAM)) && Known(Common(bs, p), where) && Known(Rest(bs, p), where)
    ensures var after := Moved(where, p, DRAM); var c := Common(bs, p);
      && SizeOn(bs, after, SSD) == SizeOn(Rest(bs, p), where, SSD)
      && CountOn(bs, after, SSD) == CountOn(bs, where, SSD) - CountOn(c, where, SSD)
      && CountOn(bs, after, DRAM) == CountOn(bs, where, DRAM) + CountOn(c, where, SSD) + CountOn(c, where, VRAM)
  {
    PartsKnown(bs, p, where);
    if bs == [] {
    } else {
      var front, b := bs[..|bs| - 1], bs[|bs| - 1];
      AfterMove(front, p, where);
      PartsStep(bs, p);
      MovedKey(p, where, b.key);
      hide HasKey, Moved, Common, Rest;
      if HasKey(p, b.key) {
        SnocOn(Common(front, p), b, where, SSD);
        SnocOn(Common(front, p), b, where, VRAM);
      } else {
        SnocOn(Rest(front, p), b, where, SSD);
      }
    }
  }

  /** The time that compute waits for `ssd` blocks on SSD and `dram` blocks in DRAM. */
  function WaitFor(ssd: nat, dram: nat, l: Latencies): real {
    ssd as real * (l.ssd + l.dram) + dram as real * l.dram
  }

  lemma {:induction false} WeighFree(s: nat, d: nat, v: nat, l: Latencies)
    ensures Weigh(s, d, v, l.ssd + l.dram, l.dram, 0.0) == WaitFor(s, d, l)
  {
    assert v as real * 0.0 == 0.0;
  }

  lemma {:induction false} WaitByTier(bs: seq<BlockInfo>, where: Residency, l: Latencies)
    requires Known(bs, where)
    ensures var m := TotalCost(bs, where, l);
      m.ssdReadBytes == SizeOn(bs, where, SSD) && m.gpuWait == WaitFor(CountOn(bs, where, SSD), CountOn(bs, where, DRAM), l)
  {
    hide TotalCost, CountOn, SizeOn, EndTime, Weigh, WaitFor;
    CostsByTier(bs, where, 0.0, l);
    WeighFree(CountOn(bs, where, SSD), CountOn(bs, where, DRAM), CountOn(bs, where, VRAM), l);
  }

  /** The wait saved by moving `x` blocks from SSD and `y` blocks from VRAM to DRAM. */
  function Saved(x: nat, y: nat, l: Latencies): real {
    l.ssd * x as real - l.dram * y as real
  }

  lemma {:induction false} WaitChange(ssd: nat, dram: nat, x: nat, y: nat, l: Latencies)
    requires x <= ssd
    ensures WaitFor(ssd - x, dram + x + y, l) == WaitFor(ssd, dram, l) - Saved(x, y, l)
  {
    assert (ssd - x) as real == ssd as real - x as real && (dram + x + y) as real == dram as real + x as real + y as real;
  }

  /** Conservation of reads: prefetching `p` into DRAM and then scheduling `bs` reads every block of the two
      lists that started on SSD, once each. */
  lemma {:induction false} ReadsConserved(p: seq<BlockInfo>, bs: seq<BlockInfo>, where: Residency, latency: real, l: Latencies)
    requires Known(p, where) && Known(bs, where)
    ensures Known(bs, Moved(where, p, DRAM)) && Known(p + Rest(bs, p), where)
    ensures PrefetchCost(p, where, latency).ssdReadBytes + TotalCost(bs, Moved(where, p, DRAM), l).ssdReadBytes
         == SizeOn(p + Rest(bs, p), where, SSD)
  {
    hide Moved, Common, Rest, TotalCost, CountOn, SizeOn, PrefetchCost, Known, WaitFor;
    AfterMove(bs, p, where);
    PrefetchReads(p, where, latency);
    WaitByTier(bs, Moved(where, p, DRAM), l);
    SizeOnAppend(p, Rest(bs, p), where);
  }

  /** Conservation of waiting: the prefetch saves the SSD latency of each planned and scheduled block that
      was on SSD, and costs the DRAM latency of each that was already in VRAM. */
  lemma {:induction false} WaitConserved(p: seq<BlockInfo>, bs: seq<BlockInfo>, where: Residency, l: Latencies)
    requires Known(bs, where)
    ensures Known(bs, Moved(where, p, DRAM)) && Known(Common(bs, p), where)
    ensures TotalCost(bs, Moved(where, p, DRAM), l).gpuWait
         == TotalCost(bs, where, l).gpuWait - Saved(CountOn(Common(bs, p), where, SSD), CountOn(Common(bs, p), where, VRAM), l)
  {
    hide Saved, Moved, Common, Rest, TotalCost, CountOn, SizeOn, PrefetchCost, Known, WaitFor;
    AfterMove(bs, p, where);
    WaitByTier(bs, Moved(where, p, DRAM), l);
    WaitByTier(bs, where, l);
    WaitChange(CountOn(bs, where, SSD), CountOn(bs, where, DRAM), CountOn(Common(bs, p), where, SSD), CountOn(Common(bs, p), where, VRAM), l);
  }

  lemma {:induction false} SizeOnAppend(a: seq<BlockInfo>, b: seq<BlockInfo>, where: Residency)
    requires Known(a, where) && Known(b, where)
    ensures Known(a + b, where) && SizeOn(a + b, where, SSD) == SizeOn(a, where, SSD) + SizeOn(b, where, SSD)
  {
    if b == [] {
      assert a + b == a;
    } else {
      var front, last := b[..|b| - 1], b[|b| - 1];
      SizeOnAppend(a, front, where);
      assert a + b == (a + front) + [last] && b == front + [last];
      hide SizeOn;
      SnocOn(a + front, last, where, SSD);
      SnocOn(front, last, where, SSD);
    }
  }

  // ---------- evaluation ----------

  /** A required block is a hit when it was planned and is at the target. */
  predicate IsHit(b: BlockInfo, p: seq<BlockInfo>, where: Residency, target: Tier)
    requires b.key in where
  {
    HasKey(p, b.key) && where[b.key] == target
  }

  function Hits(bs: seq<BlockInfo>, p: seq<BlockInfo>, where: Residency, target: Tier): seq<BlockInfo>
    requires Known(bs, where)
  {
    if bs == [] then []
    else Hits(bs[..|bs| - 1], p, where, target) + if IsHit(bs[|bs| - 1], p, where, target) then [bs[|bs| - 1]] else []
  }

  function Misses(bs: seq<BlockInfo>, p: seq<BlockInfo>, where: Residency, target: Tier): seq<BlockInfo>
    requires Known(bs, where)
  {
    if bs == [] then []
    else Misses(bs[..|bs| - 1], p, where, target) + if IsHit(bs[|bs| - 1], p, where, target) then [] else [bs[|bs| - 1]]
  }

  /** Evaluation partitions the required blocks into hits and misses, and the planned ones into used and
      wrong; right after the plan was executed the hits are exactly the required blocks that were planned. */
  lemma {:induction false} EvaluationPartitions(bs: seq<BlockInfo>, p: seq<BlockInfo>, where: Residency, target: Tier)
    requires Known(bs, where)
    ensures multiset(Hits(bs, p, where, target)) + multiset(Misses(bs, p, where, target)) == multiset(bs)
    ensures multiset(Common(p, bs)) + multiset(Rest(p, bs)) == multiset(p)
    ensures Known(bs, Moved(where, p, target))
    ensures Hits(bs, p, Moved(where, p, target), target) == Common(bs, p)
    ensures Misses(bs, p, Moved(where, p, target), target) == Rest(bs, p)
  {
    PlanPartitions(p, bs);
    RequiredPartitions(bs, p, where, target);
    HitsAfterExecute(bs, p, where, target);
  }

  lemma {:induction false} PlanPartitions(p: seq<BlockInfo>, bs: seq<BlockInfo>)
    ensures multiset(Common(p, bs)) + multiset(Rest(p, bs)) == multiset(p)
  {
    if p == [] {
    } else {
      var front, b := p[..|p| - 1], p[|p| - 1];
      PlanPartitions(front, bs);
      PartsStep(p, bs);
      hide Common, Rest, HasKey;
      PartSnoc(Common(front, bs), Rest(front, bs), front, b);
      assert Common(front, bs) + [] == Common(front, bs) && Rest(front, bs) + [] == Rest(front, bs) && p == front + [b];
    }
  }

  lemma {:induction false} HitsStep(bs: seq<BlockInfo>, p: seq<BlockInfo>, where: Residency, target: Tier)
    requires Known(bs, where) && bs != []
    ensures var front, b := bs[..|bs| - 1], bs[|bs| - 1];
      && Known(front, where) && b.key in where
      && Hits(bs, p, where, target) == Hits(front, p, where, target) + (if IsHit(b, p, where, target) then [b] else [])
      && Misses(bs, p, where, target) == Misses(front, p, where, target) + (if IsHit(b, p, where, target) then [] else [b])
  {
  }

  lemma {:induction false} RequiredPartitions(bs: seq<BlockInfo>, p: seq<BlockInfo>, where: Residency, target: Tier)
    requires Known(bs, where)
    ensures multiset(Hits(bs, p, where, target)) + multiset(Misses(bs, p, where, target)) == multiset(bs)
  {
    hide IsHit, Known;
    if bs == [] {
    } else {
      var front, b := bs[..|bs| - 1], bs[|bs| - 1];
      HitsStep(bs, p, where, target);
      RequiredPartitions(front, p, where, target);
      hide Hits, Misses;
      PartSnoc(Hits(front, p, where, target), Misses(front, p, where, target), front, b);
      assert bs == front + [b];
    }
  }

  lemma {:induction false} PartSnoc<T>(h: seq<T>, m: seq<T>, all: seq<T>, x: T)
    requires multiset(h) + multiset(m) == multiset(all)
    ensures multiset(h + [x]) + multiset(m + []) == multiset(all + [x])
    ensures multiset(h + []) + multiset(m + [x]) == multiset(all + [x])
  {
    assert h + [] == h && m + [] == m;
  }

  lemma {:induction false} HitsAfterExecute(bs: seq<BlockInfo>, p: seq<BlockInfo>, where: Residency, target: Tier)
    requires Known(bs, where)
    ensures Known(bs, Moved(where, p, target))
    ensures Hits(bs, p, Moved(where, p, target), target) == Common(bs, p)
    ensures Misses(bs, p, Moved(where, p, target), target) == Rest(bs, p)
  {
    if bs == [] {
    } else {
      HitsAfterExecute(bs[..|bs| - 1], p, where, target);
    }
  }

  /** Evaluating a DRAM plan after its blocks were scheduled counts every required block as a miss: the
      scheduler has moved them on to VRAM. */
  lemma {:induction false} LateEvaluationMisses(bs: seq<BlockInfo>, p: seq<BlockInfo>, where: Residency)
    requires Known(bs, where)
    ensures Known(bs, Scheduled(bs, where))
    ensures Hits(bs, p, Scheduled(bs, where), DRAM) == [] && Misses(bs, p, Scheduled(bs, where), DRAM) == bs
  {
    LateMissesUpTo(bs, p, where, |bs|);
    assert bs[..|bs|] == bs;
  }

  lemma {:induction false} LateMissesUpTo(bs: seq<BlockInfo>, p: seq<BlockInfo>, where: Residency, n: nat)
    requires Known(bs, where) && n <= |bs|
    ensures Known(bs[..n], Scheduled(bs, where))
    ensures Hits(bs[..n], p, Scheduled(bs, where), DRAM) == [] && Misses(bs[..n], p, Scheduled(bs, where), DRAM) == bs[..n]
  {
    if n == 0 {
    } else {
      LateMissesUpTo(bs, p, where, n - 1);
      assert bs[..n][..n - 1] == bs[..n - 1] && bs[..n] == bs[..n - 1] + [bs[n - 1]];
      assert HasKey(bs, bs[n - 1].key);
    }
  }

  // ---------- plans with repeated keys ----------

  /** The last block with the key. */
  function LastOf(p: seq<BlockInfo>, key: BlockKey): (r: BlockInfo)
    requires HasKey(p, key)
    ensures r.key == key && r in p
  {
    var front, b := p[..|p| - 1], p[|p| - 1];
    if b.key == key then b
    else
      assert forall i :: 0 <= i < |p| && p[i].key == key ==> front[i].key == key;
      LastOf(front, key)
  }

  /** A plan as the source's dictionary keeps it: each key at its first place, with its last block. */
  function ByKey(p: seq<BlockInfo>): (r: seq<BlockInfo>)
    ensures DistinctKeys(r) && |r| == |Dedupe(p)|
  {
    seq(|Dedupe(p)|, i requires 0 <= i < |Dedupe(p)| => (assert HasKey(Dedupe(p), Dedupe(p)[i].key); LastOf(p, Dedupe(p)[i].key)))
  }

  lemma {:induction false} LastSnoc(p: seq<BlockInfo>, b: BlockInfo)
    ensures HasKey(p + [b], b.key) && LastOf(p + [b], b.key) == b
    ensures forall k :: HasKey(p, k) && k != b.key ==> HasKey(p + [b], k) && LastOf(p + [b], k) == LastOf(p, k)
  {
    SeenStep(p, b);
    assert (p + [b])[..|p|] == p;
  }

  /** The order of insertion and the mapping of a dictionary built from the blocks `p`. */
  ghost predicate Indexes(p: seq<BlockInfo>, order: seq<BlockKey>, byKey: map<BlockKey, KVBlock>) {
    && |order| == |Dedupe(p)| && (forall j :: 0 <= j < |order| ==> order[j] == Dedupe(p)[j].key)
    && MapsLast(p, byKey)
  }

  ghost predicate MapsLast(p: seq<BlockInfo>, byKey: map<BlockKey, KVBlock>) {
    && (forall k :: k in byKey <==> HasKey(p, k))
    && (forall k :: k in byKey ==> byKey[k].info == LastOf(p, k))
  }

  lemma {:induction false} NothingIndexed()
    ensures Indexes([], [], map[])
  {
  }

  lemma {:induction false} IndexStep(p: seq<BlockInfo>, b: KVBlock, order: seq<BlockKey>, byKey: map<BlockKey, KVBlock>)
    requires Indexes(p, order, byKey)
    ensures var key := b.info.key;
      Indexes(p + [b.info], if key in byKey then order else order + [key], byKey[key := b])
  {
    MapStep(p, b, byKey);
    DedupeSnoc(p, b.info);
    assert b.info.key in byKey <==> HasKey(p, b.info.key);
    hide HasKey, Dedupe, MapsLast;
  }

  lemma {:induction false} MapStep(p: seq<BlockInfo>, b: KVBlock, byKey: map<BlockKey, KVBlock>)
    requires MapsLast(p, byKey)
    ensures MapsLast(p + [b.info], byKey[b.info.key := b])
  {
    var all, key, n := p + [b.info], b.info.key, byKey[b.info.key := b];
    SeenStep(p, b.info);
    hide HasKey, LastOf;
    forall k | k in n ensures HasKey(all, k) && n[k].info == LastOf(all, k) {
      LastSnoc(p, b.info);
      if k != key {
        assert k in byKey && HasKey(p, k);
      }
    }
  }

  lemma {:induction false} IndexIsByKey(p: seq<BlockInfo>, order: seq<BlockKey>, byKey: map<BlockKey, KVBlock>)
    requires Indexes(p, order, byKey)
    ensures |order| == |ByKey(p)|
    ensures forall j :: 0 <= j < |order| ==> order[j] in byKey && byKey[order[j]].info == ByKey(p)[j] && order[j] == ByKey(p)[j].key
  {
    forall j | 0 <= j < |order| ensures HasKey(p, order[j]) {
      assert HasKey(Dedupe(p), order[j]);
    }
  }

  lemma {:induction false} ByKeyKeys(p: seq<BlockInfo>)
    ensures forall k :: HasKey(ByKey(p), k) <==> HasKey(p, k)
  {
    var d, r := Dedupe(p), ByKey(p);
    forall k ensures HasKey(r, k) <==> HasKey(d, k) {
      if HasKey(d, k) {
        var i :| 0 <= i < |d| && d[i].key == k;
        assert r[i].key == k;
      }
      if HasKey(r, k) {
        var i :| 0 <= i < |r| && r[i].key == k;
        assert d[i].key == k;
      }
    }
  }

  /** Hits and misses depend on the plan's keys only. */
  lemma {:induction false} SameKeysSplit(bs: seq<BlockInfo>, p: seq<BlockInfo>, where: Residency, target: Tier)
    requires Known(bs, where)
    ensures Hits(bs, ByKey(p), where, target) == Hits(bs, p, where, target)
    ensures Misses(bs, ByKey(p), where, target) == Misses(bs, p, where, target)
  {
    if bs == [] {
    } else {
      SameKeysSplit(bs[..|bs| - 1], p, where, target);
      ByKeyKeys(p);
      hide HasKey, ByKey;
    }
  }

  /** When blocks with the same key are one block, the dictionary is the list without its repeats. */
  lemma {:induction false} ByKeyOfOwned(p: seq<BlockInfo>)
    requires forall i, j :: 0 <= i < |p| && 0 <= j < |p| && p[i].key == p[j].key ==> p[i] == p[j]
    ensures ByKey(p) == Dedupe(p)
  {
    forall i | 0 <= i < |Dedupe(p)| ensures ByKey(p)[i] == Dedupe(p)[i] {
      assert Dedupe(p)[i] in p && ByKey(p)[i] in p;
    }
  }

  // ---------- the prefetcher ----------

  datatype PrefetchConfig = PrefetchConfig(target: Tier, latency: real, limit: Option<nat>)

  function Limited<T>(s: seq<T>, limit: Option<nat>): seq<T> {
    if limit.Some? && limit.value < |s| then s[..limit.value] else s
  }

  class SpeculativePrefetcher {
    const store: BlockStore
    const config: PrefetchConfig
    const metrics: MetricsCollector?

    constructor (store: BlockStore, config: PrefetchConfig, metrics: MetricsCollector?)
      requires config.latency >= 0.0
      ensures this.store == store && this.config == config && this.metrics == metrics
    {
      this.store := store;
      this.config := config;
      this.metrics := metrics;
    }

    /** Plan the first distinct predicted blocks and mark them. */
    method Plan(predicted: seq<KVBlock>) returns (plan: seq<KVBlock>)
      modifies (set b | b in predicted)`role
      ensures InfosOf(plan) == Limited(Dedupe(InfosOf(predicted)), config.limit) && DistinctKeys(InfosOf(plan))
      ensures forall i :: 0 <= i < |plan| ==> plan[i] in predicted && plan[i].role == PrefetchRole
      ensures forall b :: b in predicted && b !in plan ==> b.role == old(b.role)
    {
      plan := DedupeBlocks(predicted);
      if config.limit.Some? && config.limit.value < |plan| {
        ghost var all := plan;
        plan := plan[..config.limit.value];
        assert InfosOf(plan) == InfosOf(all)[..config.limit.value];
      }
      var i := 0;
      while i < |plan|
        invariant 0 <= i <= |plan|
        invariant forall j :: 0 <= j < i ==> plan[j].role == PrefetchRole
        invariant forall b :: b in predicted && b !in plan ==> b.role == old(b.role)
      {
        plan[i].MarkRole(PrefetchRole);
        i := i + 1;
      }
    }

    /** Move the planned blocks to the target; only moves from SSD are counted. */
    method Execute(plan: seq<KVBlock>)
      requires store.Valid() && store.OwnsAll(plan)
      modifies store.blocks.Values`location, metrics
      ensures store.Locations() == Moved(old(store.Locations()), InfosOf(plan), config.target)
      ensures Known(InfosOf(plan), old(store.Locations()))
      ensures metrics != null ==>
        metrics.now == old(metrics.now).Plus(ExecuteCost(InfosOf(plan), old(store.Locations()), config.target, config.latency))
    {
      hide HasKey, Metrics.Plus, FetchCost, Moved;
      ghost var p, where := InfosOf(plan), store.Locations();
      assert Known(p, where) && p[..0] == [];
      NothingMoved(where, config.target);
      if metrics != null {
        FreeOfCharge(metrics.now);
      }
      var i := 0;
      while i < |plan|
        invariant 0 <= i <= |plan|
        invariant Executed(p[..i], where, old(MetricsNow()))
      {
        assert p[..i + 1] == p[..i] + [p[i]];
        MovePlanned(plan[i], p[..i], where, old(MetricsNow()));
        i := i + 1;
      }
      assert p[..|plan|] == p;
    }

    ghost function MetricsNow(): Metrics
      reads metrics
    {
      if metrics == null then NO_METRICS else metrics.now
    }

    /** The blocks `p` have been moved, and what that costs has been added. */
    ghost predicate Executed(p: seq<BlockInfo>, where: Residency, before: Metrics)
      reads store, store.blocks.Values, metrics
    {
      && Known(p, where) && store.Locations() == Moved(where, p, config.target)
      && (metrics != null ==> metrics.now == before.Plus(ExecuteCost(p, where, config.target, config.latency)))
    }

    /** One planned block. */
    method MovePlanned(b: KVBlock, ghost p: seq<BlockInfo>, ghost where: Residency, ghost before: Metrics)
      requires store.Valid() && store.Owns(b) && Executed(p, where, before)
      modifies store.blocks.Values`location, metrics
      ensures Executed(p + [b.info], where, before)
    {
      hide HasKey, Metrics.Plus, FetchCost, Moved;
      MovedSnoc(p, b.info, where, config.target, config.latency);
      ghost var now := store.Locations();
      assert now[b.info.key] == b.location;
      var from := b.location;
      var moved := store.MoveBlock(b.info.key, config.target);
      if metrics != null {
        AddCost(b.info, from, before, ExecuteCost(p, where, config.target, config.latency));
      }
    }

    method AddCost(b: BlockInfo, at: Tier, ghost start: Metrics, ghost spent: Metrics)
      requires metrics != null && metrics.now == start.Plus(spent)
      modifies metrics
      ensures metrics.now == start.Plus(spent.Plus(FetchCost(b, at, config.latency)))
    {
      if at.SSD? {
        metrics.Add(NO_METRICS.(totalLatency := config.latency, ssdReadBytes := b.size, ioOps := 1));
      }
    }

    static lemma {:induction false} NothingMoved(where: Residency, target: Tier)
      ensures Moved(where, [], target) == where
    {
    }

    static lemma {:induction false} MovedSnoc(p: seq<BlockInfo>, b: BlockInfo, where: Residency, target: Tier, latency: real)
      requires Known(p, where)
      ensures Moved(where, p, target).Keys == where.Keys
      ensures b.key in where ==>
        && Known(p + [b], where) && Moved(where, p, target)[b.key := target] == Moved(where, p + [b], target)
        && ExecuteCost(p + [b], where, target, latency)
             == ExecuteCost(p, where, target, latency).Plus(FetchCost(b, Moved(where, p, target)[b.key], latency))
    {
      SeenStep(p, b);
      assert (p + [b])[..|p|] == p;
      hide Metrics.Plus, FetchCost;
    }

    /** Split the required blocks into hits and misses. */
    method SplitRequired(plan: seq<KVBlock>, unique: seq<KVBlock>) returns (hits: seq<KVBlock>, misses: seq<KVBlock>)
      requires store.Valid() && store.OwnsAll(unique) && Known(InfosOf(unique), store.Locations())
      ensures InfosOf(hits) == Hits(InfosOf(unique), InfosOf(plan), store.Locations(), config.target)
      ensures InfosOf(misses) == Misses(InfosOf(unique), InfosOf(plan), store.Locations(), config.target)
    {
      hide HasKey;
      ghost var bs, p, where := InfosOf(unique), InfosOf(plan), store.Locations();
      hits, misses := [], [];
      var i := 0;
      while i < |unique|
        invariant 0 <= i <= |unique|
        invariant InfosOf(hits) == Hits(bs[..i], p, where, config.target) && InfosOf(misses) == Misses(bs[..i], p, where, config.target)
      {
        assert bs[..i + 1][..i] == bs[..i] && bs[..i + 1][i] == unique[i].info;
        assert where[unique[i].info.key] == unique[i].location;
        var planned := IsPlanned(plan, unique[i].info.key);
        InfosSnoc(hits, unique[i]);
        InfosSnoc(misses, unique[i]);
        if planned && unique[i].location == config.target {
          hits := hits + [unique[i]];
        } else {
          misses := misses + [unique[i]];
        }
        i := i + 1;
      }
      assert bs[..|unique|] == bs;
    }

    /** The planned blocks by key: each key at its first place, with its last block. */
    static method PlannedByKey(plan: seq<KVBlock>) returns (order: seq<BlockKey>, byKey: map<BlockKey, KVBlock>)
      ensures Indexes(InfosOf(plan), order, byKey)
    {
      hide HasKey, Indexes, Dedupe, LastOf;
      ghost var p := InfosOf(plan);
      order, byKey := [], map[];
      NothingIndexed();
      assert p[..0] == [];
      var i := 0;
      while i < |plan|
        invariant 0 <= i <= |plan| && Indexes(p[..i], order, byKey)
      {
        assert p[..i + 1] == p[..i] + [p[i]];
        IndexStep(p[..i], plan[i], order, byKey);
        var key := plan[i].info.key;
        if key !in byKey {
          order := order + [key];
        }
        byKey := byKey[key := plan[i]];
        i := i + 1;
      }
      assert p[..|plan|] == p;
    }

    /** The planned blocks that were not required. */
    static method WrongPrefetches(plan: seq<KVBlock>, unique: seq<KVBlock>) returns (wrong: seq<KVBlock>)
      ensures InfosOf(wrong) == Rest(ByKey(InfosOf(plan)), InfosOf(unique))
    {
      hide HasKey, ByKey;
      ghost var p := ByKey(InfosOf(plan));
      var order, byKey := PlannedByKey(plan);
      IndexIsByKey(InfosOf(plan), order, byKey);
      wrong := [];
      var i := 0;
      while i < |order|
        invariant 0 <= i <= |order| && InfosOf(wrong) == Rest(p[..i], InfosOf(unique))
      {
        assert p[..i + 1][..i] == p[..i];
        var needed := IsPlanned(unique, order[i]);
        if !needed {
          InfosSnoc(wrong, byKey[order[i]]);
          wrong := wrong + [byKey[order[i]]];
        }
        i := i + 1;
      }
      assert p[..|order|] == p;
    }

    /** Compare the plan with the blocks that were required. */
    method Evaluate(plan: seq<KVBlock>, required: seq<KVBlock>) returns (hits: seq<KVBlock>, misses: seq<KVBlock>, wrong: seq<KVBlock>)
      requires store.Valid() && store.OwnsAll(required)
      modifies metrics
      ensures var bs, p, where := Dedupe(InfosOf(required)), ByKey(InfosOf(plan)), store.Locations();
        && Known(bs, where)
        && InfosOf(hits) == Hits(bs, p, where, config.target) && InfosOf(misses) == Misses(bs, p, where, config.target)
        && InfosOf(wrong) == Rest(p, bs)
      ensures metrics != null ==> metrics.now == old(metrics.now).Plus(
        NO_METRICS.(loadBlocking := |misses| as real * config.latency, hits := |hits|, misses := |misses|, wrong := |wrong|))
    {
      hide HasKey, Dedupe, Hits, Misses, Rest, ByKey;
      var unique := DedupeBlocks(required);
      assert store.OwnsAll(unique);
      assert Known(InfosOf(unique), store.Locations());
      hits, misses := SplitRequired(plan, unique);
      SameKeysSplit(InfosOf(unique), InfosOf(plan), store.Locations(), config.target);
      wrong := WrongPrefetches(plan, unique);
      if metrics != null {
        metrics.Add(NO_METRICS.(loadBlocking := |misses| as real * config.latency, hits := |hits|, misses := |misses|, wrong := |wrong|));
      }
    }

    /** Membership in a dictionary of blocks by key. */
    static method IsPlanned(bs: seq<KVBlock>, key: BlockKey) returns (found: bool)
      ensures found == HasKey(InfosOf(bs), key)
    {
      var i := 0;
      while i < |bs|
        invariant 0 <= i <= |bs| && forall j :: 0 <= j < i ==> bs[j].info.key != key
      {
        if bs[i].info.key == key {
          assert InfosOf(bs)[i].key == key;
          return true;
        }
        i := i + 1;
      }
      return false;
    }
  }

  // ---------- prefetch and schedule on one store ----------

  /** What the run of a plan for DRAM and of a schedule leaves: every block of the two lists that was on SSD
      has been read once, the scheduled blocks are in VRAM, and the wait is less by what the plan saves. */
  ghost predicate Conserved(p: seq<BlockInfo>, bs: seq<BlockInfo>, where: Residency, l: Latencies, before: Metrics, now: Metrics, after: Residency)
    requires Known(p, where) && Known(bs, where)
  {
    PartsKnown(bs, p, where);
    && after == Scheduled(bs, Moved(where, p, DRAM))
    && now.ssdReadBytes == before.ssdReadBytes + SizeOn(p, where, SSD) + SizeOn(Rest(bs, p), where, SSD)
    && now.gpuWait == before.gpuWait + TotalCost(bs, where, l).gpuWait - Saved(CountOn(Common(bs, p), where, SSD), CountOn(Common(bs, p), where, VRAM), l)
  }

  /** The prefetcher and the scheduler on one store and one metrics collector. */
  method PrefetchThenSchedule(pre: SpeculativePrefetcher, sched: Scheduler.SSDAwareScheduler, plan: seq<KVBlock>, bs: seq<KVBlock>, startMs: real)
    returns (r: Result<seq<ScheduleOp>, Scheduler.ScheduleError>)
    requires pre.store == sched.store && pre.metrics == sched.metrics && pre.metrics != null
    requires pre.config.target.DRAM? && sched.config.computeAt.VRAM?
    requires pre.store.Valid() && pre.store.OwnsAll(plan) && pre.store.OwnsAll(bs)
    modifies pre.store.blocks.Values`location, pre.metrics
    ensures var p, unique, where := Dedupe(InfosOf(plan)), Dedupe(InfosOf(bs)), old(pre.store.Locations());
      && Known(p, where) && Known(unique, where) && Known(unique, Moved(where, p, DRAM))
      && r == Success(Ops(unique, Moved(where, p, DRAM), startMs, sched.config))
      && Conserved(p, unique, where, sched.config, old(pre.metrics.now), pre.metrics.now, pre.store.Locations())
  {
    hide Dedupe, Metrics.Plus, TotalCost, Moved, Common, Rest, PrefetchCost, ExecuteCost, Ops, Conserved;
    ghost var where, before := pre.store.Locations(), pre.metrics.now;
    ghost var p, unique := Dedupe(InfosOf(plan)), Dedupe(InfosOf(bs));
    assert Known(InfosOf(bs), where);
    DedupeKnown(InfosOf(bs), where);
    pre.Execute(plan);
    RepeatsCostNothing(InfosOf(plan), where, DRAM, pre.config.latency);
    MovedDistinct(InfosOf(plan), where, DRAM);
    ghost var between := pre.metrics.now;
    r := sched.Schedule(bs, startMs);
    SumsUp(p, unique, where, pre.config.latency, sched.config, before, between, pre.metrics.now);
    hide Scheduler.SSDAwareScheduler.Outcome;
  }

  lemma {:induction false} SumsUp(p: seq<BlockInfo>, bs: seq<BlockInfo>, where: Residency, latency: real, l: Latencies,
                                  before: Metrics, between: Metrics, now: Metrics)
    requires Known(p, where) && Known(bs, where) && Known(bs, Moved(where, p, DRAM))
    requires between == before.Plus(PrefetchCost(p, where, latency)) && now == between.Plus(TotalCost(bs, Moved(where, p, DRAM), l))
    ensures Conserved(p, bs, where, l, before, now, Scheduled(bs, Moved(where, p, DRAM)))
  {
    hide Moved, Common, Rest, TotalCost, CountOn, SizeOn, PrefetchCost, Metrics.Plus, Scheduled, Saved;
    var spent, paid := PrefetchCost(p, where, latency), TotalCost(bs, Moved(where, p, DRAM), l);
    PlusFields(before, spent);
    PlusFields(between, paid);
    PrefetchReads(p, where, latency);
    PartsKnown(bs, p, where);
    ReadsConserved(p, bs, where, latency, l);
    WaitConserved(p, bs, where, l);
    SizeOnAppend(p, Rest(bs, p), where);
  }
}
