/** KV blocks, the block store and the metrics collector: the state that the scheduler and the
    prefetcher change.
 */
module Blocks {
  import opened Kv
  import Sorting

  /** The immutable part of a block. */
  datatype BlockInfo = BlockInfo(key: BlockKey, start: int, end: int, size: int)

  /** The checks of the block constructor. */
  predicate ValidInfo(b: BlockInfo) {
    b.key.layer >= 0 && b.key.block >= 0 && 0 <= b.start < b.end && b.size >= 0
  }

  datatype Role = InitRole | LocalRole | SelectedRole | CurrentRole | PrefetchRole

  class KVBlock {
    const info: BlockInfo
    var location: Tier
    var role: Role

    constructor (info: BlockInfo, location: Tier)
      requires ValidInfo(info)
      ensures this.info == info && this.location == location && role == CurrentRole
    {
      this.info := info;
      this.location := location;
      role := CurrentRole;
    }

    method MoveTo(target: Tier)
      modifies this`location
      ensures location == target
    {
      location := target;
    }

    method MarkRole(target: Role)
      modifies this`role
      ensures role == target
    {
      role := target;
    }
  }

  datatype StoreError = BlockExists(key: BlockKey) | UnknownBlock(key: BlockKey)

  type Residency = map<BlockKey, Tier>

  class BlockStore {
    var blocks: map<BlockKey, KVBlock>

    ghost predicate Valid()
      reads this
    {
      forall k :: k in blocks ==> blocks[k].info.key == k
    }

    /** Where every block of the store is. */
    ghost function Locations(): (r: Residency)
      reads this, blocks.Values
      ensures r.Keys == blocks.Keys
    {
      map k | k in blocks :: blocks[k].location
    }

    /** The block is the store's own object. */
    ghost predicate Owns(b: KVBlock)
      reads this
    {
      b.info.key in blocks && blocks[b.info.key] == b
    }

    ghost predicate OwnsAll(bs: seq<KVBlock>)
      reads this
    {
      forall i :: 0 <= i < |bs| ==> Owns(bs[i])
    }

    constructor ()
      ensures Valid() && blocks == map[]
    {
      blocks := map[];
    }

    method AddBlock(b: KVBlock) returns (r: Result<KVBlock, StoreError>)
      requires Valid()
      modifies this
      ensures Valid()
      ensures if b.info.key in old(blocks) then r == Failure(BlockExists(b.info.key)) && blocks == old(blocks)
              else r == Success(b) && blocks == old(blocks)[b.info.key := b]
    {
      if b.info.key in blocks {
        return Failure(BlockExists(b.info.key));
      }
      blocks := blocks[b.info.key := b];
      return Success(b);
    }

    method MoveBlock(key: BlockKey, target: Tier) returns (r: Result<KVBlock, StoreError>)
      requires Valid()
      modifies blocks.Values`location
      ensures if key !in blocks then r == Failure(UnknownBlock(key)) && Locations() == old(Locations())
              else r == Success(blocks[key]) && Locations() == old(Locations())[key := target]
    {
      if key !in blocks {
        return Failure(UnknownBlock(key));
      }
      var b := blocks[key];
      b.MoveTo(target);
      return Success(b);
    }
  }

  /** The counters that the scheduler and the prefetcher add to. */
  datatype Metrics = Metrics(
    totalLatency: real, gpuWait: real, loadBlocking: real, ssdReadBytes: int, ioOps: int,
    hits: int, misses: int, wrong: int)
  {
    function Plus(d: Metrics): Metrics {
      Metrics(totalLatency + d.totalLatency, gpuWait + d.gpuWait, loadBlocking + d.loadBlocking,
              ssdReadBytes + d.ssdReadBytes, ioOps + d.ioOps, hits + d.hits, misses + d.misses, wrong + d.wrong)
    }
  }

  const NO_METRICS := Metrics(0.0, 0.0, 0.0, 0, 0, 0, 0, 0)

  class MetricsCollector {
    var now: Metrics

    constructor ()
      ensures now == NO_METRICS
    {
      now := NO_METRICS;
    }

    method Add(d: Metrics)
      modifies this
      ensures now == old(now).Plus(d)
    {
      now := now.Plus(d);
    }
  }

  // ---------- dropping repeated keys ----------

  predicate HasKey(bs: seq<BlockInfo>, key: BlockKey) {
    exists i :: 0 <= i < |bs| && bs[i].key == key
  }

  ghost predicate DistinctKeys(bs: seq<BlockInfo>) {
    forall i, j :: 0 <= i < j < |bs| ==> bs[i].key != bs[j].key
  }

  /** A permutation of blocks with distinct keys has distinct keys. */
  lemma {:induction false} KeysPermuted(a: seq<BlockInfo>, b: seq<BlockInfo>)
    requires DistinctKeys(a) && multiset(a) == multiset(b)
    ensures DistinctKeys(b)
  {
    Sorting.DistinctPermuted(a, b);
    Sorting.SameElements(a, b);
    forall i, j | 0 <= i < j < |b| ensures b[i].key != b[j].key {
      assert b[i] in b && b[j] in b && b[i] != b[j];
      var x :| 0 <= x < |a| && a[x] == b[i];
      var y :| 0 <= y < |a| && a[y] == b[j];
      assert a[if x < y then x else y].key != a[if x < y then y else x].key;
    }
  }

  /** Keep the first block of every key, in order. */
  function Dedupe(bs: seq<BlockInfo>): (r: seq<BlockInfo>)
    ensures DistinctKeys(r)
    ensures forall k :: HasKey(r, k) <==> HasKey(bs, k)
    ensures forall i :: 0 <= i < |r| ==> r[i] in bs
  {
    if bs == [] then []
    else
      var front, last := Dedupe(bs[..|bs| - 1]), bs[|bs| - 1];
      DedupeStep(bs, front);
      if HasKey(front, last.key) then front else front + [last]
  }

  lemma {:induction false} DedupeStep(bs: seq<BlockInfo>, front: seq<BlockInfo>)
    requires bs != [] && DistinctKeys(front)
    requires forall k :: HasKey(front, k) <==> HasKey(bs[..|bs| - 1], k)
    requires forall i :: 0 <= i < |front| ==> front[i] in bs[..|bs| - 1]
    ensures var last := bs[|bs| - 1]; var r := if HasKey(front, last.key) then front else front + [last];
      DistinctKeys(r) && (forall k :: HasKey(r, k) <==> HasKey(bs, k)) && (forall i :: 0 <= i < |r| ==> r[i] in bs)
  {
    var init, last := bs[..|bs| - 1], bs[|bs| - 1];
    var r := if HasKey(front, last.key) then front else front + [last];
    forall k ensures HasKey(r, k) <==> HasKey(bs, k) {
      if HasKey(bs, k) {
        var i :| 0 <= i < |bs| && bs[i].key == k;
        if i < |init| {
          assert init[i].key == k;
          assert HasKey(front, k);
          var j :| 0 <= j < |front| && front[j].key == k;
          assert r[j].key == k;
        } else if !HasKey(front, last.key) {
          assert r[|front|].key == k;
        }
      }
      if HasKey(r, k) {
        var j :| 0 <= j < |r| && r[j].key == k;
        if j < |front| {
          assert front[j].key == k;
          assert HasKey(init, k);
          var i :| 0 <= i < |init| && init[i].key == k;
          assert bs[i].key == k;
        } else {
          assert bs[|init|].key == k;
        }
      }
    }
    forall i, j | 0 <= i < j < |r| ensures r[i].key != r[j].key {
      if j == |front| {
        assert front[i].key != last.key;
      }
    }
  }

  lemma {:induction false} DedupeSnoc(p: seq<BlockInfo>, b: BlockInfo)
    ensures HasKey(Dedupe(p), b.key) <==> HasKey(p, b.key)
    ensures Dedupe(p + [b]) == if HasKey(p, b.key) then Dedupe(p) else Dedupe(p) + [b]
  {
    assert (p + [b])[..|p|] == p;
  }

  /** The key's first block in the list. */
  ghost predicate FirstAt(bs: seq<BlockInfo>, i: int, key: BlockKey) {
    0 <= i < |bs| && bs[i].key == key && forall j :: 0 <= j < i ==> bs[j].key != key
  }

  /** The block is the first of its key. */
  ghost predicate IsFirst(bs: seq<BlockInfo>, b: BlockInfo) {
    exists i :: FirstAt(bs, i, b.key) && bs[i] == b
  }

  /** Every kept block is the first of its key. */
  ghost predicate KeepsFirsts(bs: seq<BlockInfo>, r: seq<BlockInfo>) {
    forall x :: 0 <= x < |r| ==> IsFirst(bs, r[x])
  }

  /** The kept blocks come in the order in which their keys first come. */
  ghost predicate KeepsOrder(bs: seq<BlockInfo>, r: seq<BlockInfo>) {
    forall x, y, i, j :: 0 <= x < y < |r| && FirstAt(bs, i, r[x].key) && FirstAt(bs, j, r[y].key) ==> i < j
  }

  lemma {:induction false} FirstAtFront(bs: seq<BlockInfo>, i: int, key: BlockKey)
    requires bs != []
    ensures FirstAt(bs[..|bs| - 1], i, key) <==> FirstAt(bs, i, key) && i < |bs| - 1
    ensures FirstAt(bs, i, key) ==> 0 <= i < |bs| && bs[i].key == key
  {
    var front := bs[..|bs| - 1];
    assert forall j :: 0 <= j < |front| ==> bs[j] == front[j];
  }

  lemma {:induction false} FirstUnique(bs: seq<BlockInfo>, i: int, j: int, key: BlockKey)
    requires FirstAt(bs, i, key) && FirstAt(bs, j, key)
    ensures i == j
  {
  }

  lemma {:induction false} KeepsFrontFirsts(bs: seq<BlockInfo>, kept: seq<BlockInfo>)
    requires bs != [] && KeepsFirsts(bs[..|bs| - 1], kept) && KeepsOrder(bs[..|bs| - 1], kept)
    ensures KeepsFirsts(bs, kept) && KeepsOrder(bs, kept)
    ensures forall x, i :: 0 <= x < |kept| && FirstAt(bs, i, kept[x].key) ==> i < |bs| - 1
  {
    var front := bs[..|bs| - 1];
    forall i, key
      ensures FirstAt(front, i, key) <==> FirstAt(bs, i, key) && i < |bs| - 1
      ensures FirstAt(bs, i, key) ==> 0 <= i < |bs| && bs[i].key == key
    {
      FirstAtFront(bs, i, key);
    }
    forall x | 0 <= x < |kept| ensures IsFirst(bs, kept[x]) {
      assert IsFirst(front, kept[x]);
      var i :| FirstAt(front, i, kept[x].key) && front[i] == kept[x];
      assert FirstAt(bs, i, kept[x].key) && bs[i] == front[i];
    }
    forall x, i | 0 <= x < |kept| && FirstAt(bs, i, kept[x].key) ensures i < |bs| - 1 {
      assert IsFirst(front, kept[x]);
      var j :| FirstAt(front, j, kept[x].key) && front[j] == kept[x];
      FirstUnique(bs, i, j, kept[x].key);
    }
    forall x, y, i, j | 0 <= x < y < |kept| && FirstAt(bs, i, kept[x].key) && FirstAt(bs, j, kept[y].key) ensures i < j {
      assert FirstAt(front, i, kept[x].key) && FirstAt(front, j, kept[y].key);
    }
  }

  /** The kept blocks are the first ones of their keys, in the order in which these come. */
  lemma {:induction false} DedupeFirsts(bs: seq<BlockInfo>)
    ensures KeepsFirsts(bs, Dedupe(bs)) && KeepsOrder(bs, Dedupe(bs))
  {
    if bs == [] {
      assert Dedupe(bs) == [];
    } else {
      var front := bs[..|bs| - 1];
      DedupeFirsts(front);
      KeepsFrontFirsts(bs, Dedupe(front));
      if !HasKey(Dedupe(front), bs[|bs| - 1].key) {
        NewKeyFirst(bs);
        hide Dedupe, HasKey, FirstAt;
        KeepsOneMore(bs, Dedupe(front));
      }
    }
  }

  lemma {:induction false} KeepsOneMore(bs: seq<BlockInfo>, kept: seq<BlockInfo>)
    requires bs != [] && KeepsFirsts(bs, kept) && KeepsOrder(bs, kept) && FirstAt(bs, |bs| - 1, bs[|bs| - 1].key)
    requires forall x, i :: 0 <= x < |kept| && FirstAt(bs, i, kept[x].key) ==> i < |bs| - 1
    ensures KeepsFirsts(bs, kept + [bs[|bs| - 1]]) && KeepsOrder(bs, kept + [bs[|bs| - 1]])
  {
    var n := |bs| - 1;
    var r := kept + [bs[n]];
    forall j | FirstAt(bs, j, bs[n].key) ensures j == n {
      FirstUnique(bs, j, n, bs[n].key);
    }
    forall x | 0 <= x < |r| ensures IsFirst(bs, r[x]) {
      if x < |kept| {
        assert r[x] == kept[x];
      } else {
        assert FirstAt(bs, n, r[x].key) && bs[n] == r[x];
      }
    }
  }

  lemma {:induction false} NewKeyFirst(bs: seq<BlockInfo>)
    requires bs != [] && !HasKey(Dedupe(bs[..|bs| - 1]), bs[|bs| - 1].key)
    ensures FirstAt(bs, |bs| - 1, bs[|bs| - 1].key)
  {
    var front := bs[..|bs| - 1];
    assert !HasKey(front, bs[|bs| - 1].key);
    assert forall j :: 0 <= j < |front| ==> bs[j] == front[j];
  }

  function InfosOf(bs: seq<KVBlock>): (r: seq<BlockInfo>)
    ensures |r| == |bs|
  {
    seq(|bs|, i requires 0 <= i < |bs| => bs[i].info)
  }

  lemma {:induction false} InfosSnoc(bs: seq<KVBlock>, b: KVBlock)
    ensures InfosOf(bs + [b]) == InfosOf(bs) + [b.info]
  {
  }

  /** The loop behind both `_dedupe` helpers, on block objects. */
  method DedupeBlocks(bs: seq<KVBlock>) returns (unique: seq<KVBlock>)
    ensures InfosOf(unique) == Dedupe(InfosOf(bs))
    ensures forall i :: 0 <= i < |unique| ==> unique[i] in bs
  {
    hide Dedupe, HasKey;
    unique := [];
    var seen: set<BlockKey> := {};
    NothingDeduped();
    var i := 0;
    while i < |bs|
      invariant 0 <= i <= |bs|
      invariant InfosOf(unique) == Dedupe(InfosOf(bs)[..i])
      invariant forall k :: k in seen <==> HasKey(InfosOf(unique), k)
      invariant forall j :: 0 <= j < |unique| ==> unique[j] in bs
    {
      assert InfosOf(bs)[..i + 1] == InfosOf(bs)[..i] + [bs[i].info];
      DedupeSnoc(InfosOf(bs)[..i], bs[i].info);
      if bs[i].info.key !in seen {
        ghost var before := InfosOf(unique);
        unique := unique + [bs[i]];
        assert InfosOf(unique) == before + [bs[i].info];
        seen := seen + {bs[i].info.key};
        SeenStep(before, bs[i].info);
      }
      i := i + 1;
    }
    assert InfosOf(bs)[..|bs|] == InfosOf(bs);
  }

  lemma {:induction false} NothingDeduped()
    ensures Dedupe([]) == [] && forall k :: !HasKey([], k)
  {
  }

  lemma {:induction false} SeenStep(bs: seq<BlockInfo>, b: BlockInfo)
    ensures forall k :: HasKey(bs + [b], k) <==> HasKey(bs, k) || k == b.key
  {
    forall k ensures HasKey(bs + [b], k) <==> HasKey(bs, k) || k == b.key {
      if HasKey(bs, k) {
        var i :| 0 <= i < |bs| && bs[i].key == k;
        assert (bs + [b])[i].key == k;
      }
      assert (bs + [b])[|bs|] == b;
    }
  }
}
