/** End to end: what holds for every scheduler timeline, from the block set to the executors and the gate. */
module Guarantees {
  import opened Kv
  import opened Blocks
  import opened Timeline
  import opened SsdLayout
  import opened MovementPlan
  import opened Pipeline
  import RT = CommandRoundTrip
  import CP = CommandParser
  import J = JsonLine
  import C = ConsumerModel
  import CS = ConsumerSafety
  import CL = ConsumerLedger
  import B = BridgeModel
  import SB = StagingBooks
  import LL = LayerLaws
  import GC = GateCompleteness
  import TG = TensorGate
  import TL = TensorLayout
  import L = Ledger

  /** A compiled stream is one that the C consumer can run safely. */
  lemma {:induction false} CompiledIsStream(bs: seq<BlockInfo>, where: Residency, l: Layout, pool: seq<BlockInfo>)
    requires Compiled(bs, where, l, pool)
    ensures CS.Stream(Derived(bs, where, l)) && L.AllSimple(Derived(bs, where, l))
  {
    var cs := Derived(bs, where, l);
    CompiledIsConsistent(bs, where, l, pool);
    CompiledRangesApart(bs, where, l, pool);
    L.DerivedSimple(bs, where, l);
    forall i | 0 <= i < |cs| ensures CS.Steady(cs[i]) {
      assert ValidCommand(cs[i]) && L.Simple(cs[i]);
    }
  }

  /** Consumer, end to end: for any blocks and any initial residency, the plan of the scheduler's timeline
      is exported, and if its numbers fit the C types it is loaded by the consumer, which then runs without
      a verification error, reads exactly the blocks that started on SSD, seeds exactly the others, and
      leaves exactly the scheduled blocks in VRAM. */
  lemma {:induction false} ConsumerEndToEnd(pool: seq<BlockInfo>, bs: seq<BlockInfo>, where: Residency, now: real, lat: Latencies,
                                            base: nat, alignment: nat, ts: seq<J.Times>, seedEnvs: seq<C.Env>, envs: seq<C.Env>)
    requires alignment > 0 && ValidLatencies(lat) && PoolValid(Dedupe(pool))
    requires Known(bs, where) && DistinctKeys(bs) && Within(bs, Dedupe(pool))
    requires var r := Build(pool, Ops(bs, where, now, lat), base, alignment);
      r.Success? ==>
        && |ts| == |r.value.ops| && (forall i :: 0 <= i < |ts| ==> RT.PlainTimes(ts[i]))
        && (forall c :: c in Derived(bs, where, r.value.layout) ==> RT.Fits(c))
        && var n := |Derived(bs, where, r.value.layout)|;
           n <= |seedEnvs| && n <= |envs| && CS.AllKind(seedEnvs, n) && CS.AllKind(envs, n)
    ensures var r := Build(pool, Ops(bs, where, now, lat), base, alignment);
      && r.Success? && RT.AllExportable(r.value.ops, ts)
      && CP.LoadText(RT.FileText(r.value.ops, ts)) == Some(Derived(bs, where, r.value.layout))
      && var done := C.Consume(Derived(bs, where, r.value.layout), seedEnvs, envs); var ledger := CL.Abstract(done.state);
         && (done.ok <==> bs != []) && done.state.stats.verificationErrors == 0
         && ledger.vram == L.Keys(bs) && ledger.dram == L.KeysOn(bs, where, SSD, DRAM)
         && ledger.ssdReads == CountOn(bs, where, SSD) && ledger.readBytes == SizeOn(bs, where, SSD)
         && ledger.seeds == CountOn(bs, where, DRAM) + CountOn(bs, where, VRAM)
  {
    RT.BuildsPlan(pool, bs, where, now, lat, base, alignment);
    var plan := Build(pool, Ops(bs, where, now, lat), base, alignment).value;
    var cs := Derived(bs, where, plan.layout);
    RT.CompiledFileRoundTrip(pool, bs, where, now, lat, base, alignment, ts);
    CompiledBlocks(pool, bs, where, now, lat, plan);
    CompiledIsStream(bs, where, plan.layout, PlanBlocks(pool));
    if bs != [] {
      var first := ComputeOf(bs, where, plan.layout, 0);
    }
    hide Build, Derived, CP.LoadText, RT.FileText, RT.Fits, RT.PlainTimes, CS.Stream, L.AllSimple, CS.AllKind, PlanBlocks, Ops, RT.PlanFor;
    assert forall i :: 0 <= i < |cs| ==> cs[i] in cs;
    CL.ConsumerKeepsLedger(cs, seedEnvs, envs);
    L.TimelineMeaning(bs, where, plan.layout);
  }

  lemma {:induction false} CompiledBlocks(pool: seq<BlockInfo>, bs: seq<BlockInfo>, where: Residency, now: real, lat: Latencies, plan: Plan)
    requires PoolValid(Dedupe(pool)) && Known(bs, where) && DistinctKeys(bs)
    requires RT.PlanFor(plan, PlanBlocks(pool), bs, where, now, lat)
    ensures Compiled(bs, where, plan.layout, PlanBlocks(pool))
  {
    PlanBlocksSorted(pool);
    var u := PlanBlocks(pool);
    hide PlanBlocks, Derived, Dedupe;
    forall i | 0 <= i < |u| ensures ValidInfo(u[i]) && u[i].size > 0 {
      assert u[i] in u;
      assert u[i] in Dedupe(pool);
    }
  }

  lemma {:induction false} KeptIsPrefix(cs: seq<Command>) returns (n: nat)
    ensures n <= |cs| && n <= B.MAX_COMMANDS && Kept(cs) == cs[..n]
  {
    n := if |cs| <= B.MAX_COMMANDS then |cs| else B.MAX_COMMANDS;
    assert cs[..|cs|] == cs;
  }

  /** The bridge can carry out a compiled stream, cut to its table, on a long enough backing file. */
  lemma {:induction false} CompiledIsRunnable(cfg: B.Config, bs: seq<BlockInfo>, where: Residency, l: Layout, pool: seq<BlockInfo>)
    requires Compiled(bs, where, l, pool) && cfg.commands == Kept(Derived(bs, where, l))
    requires cfg.executorEnabled && cfg.seedMissing && forall c :: c in cfg.commands ==> c.offset + c.size <= |cfg.backing|
    ensures GC.Runnable(cfg) && GC.EvictFree(cfg.commands) && SB.Coherent(cfg.commands) && GC.AllValid(cfg.commands, |cfg.commands|)
  {
    var cs := Derived(bs, where, l);
    var n := KeptIsPrefix(cs);
    CompiledIsConsistent(bs, where, l, pool);
    L.DerivedSimple(bs, where, l);
    hide Derived;
    forall i, j | 0 <= i < n && 0 <= j < n && cs[i].BufferKey() == cs[j].BufferKey()
      ensures cs[i].size == cs[j].size && cs[i].offset == cs[j].offset
    {
      assert cs[i].PlanKey() == cs[j].PlanKey();
    }
    forall i | 0 <= i < n ensures GC.TameCommand(cfg, cfg.commands[i]) && !cfg.commands[i].EvictsToSsd() && ValidCommand(cfg.commands[i]) {
      assert ValidCommand(cs[i]) && L.Simple(cs[i]) && cfg.commands[i] == cs[i] && cs[i] in cfg.commands;
    }
  }

  /** The block ids, which the gate uses as first cells, leave room for the blocks' tokens. */
  ghost predicate IdsLeaveRoom(bs: seq<BlockInfo>) {
    forall i, j :: 0 <= i < |bs| && 0 <= j < |bs| && i != j && bs[i].key.layer == bs[j].key.layer
      ==> bs[i].key.block + (bs[i].end - bs[i].start) <= bs[j].key.block || bs[j].key.block + (bs[j].end - bs[j].start) <= bs[i].key.block
  }

  lemma {:induction false} ComputeOf(bs: seq<BlockInfo>, where: Residency, l: Layout, k: nat) returns (i: nat)
    requires Known(bs, where) && k < |bs|
    ensures i < |Derived(bs, where, l)|
    ensures Derived(bs, where, l)[i].BufferKey() == Key(bs[k].key.layer, bs[k].key.block, bs[k].start, bs[k].end)
  {
    var front := bs[..|bs| - 1];
    if k < |front| {
      i := ComputeOf(front, where, l, k);
    } else {
      i := |Derived(front, where, l)|;
    }
  }

  /** When the blocks of a compiled stream lie on disjoint cells: exactly when their ids leave room for
      their tokens. Consecutive ids do so only for blocks of one token. */
  lemma {:induction false} CellsApartIff(bs: seq<BlockInfo>, where: Residency, l: Layout, pool: seq<BlockInfo>)
    requires Compiled(bs, where, l, pool)
    ensures SB.CellsApart(Derived(bs, where, l)) <==> IdsLeaveRoom(bs)
  {
    var cs := Derived(bs, where, l);
    forall k | 0 <= k < |bs| ensures ValidInfo(bs[k]) {
      assert bs[k] in pool;
    }
    if SB.CellsApart(cs) {
      forall i, j | 0 <= i < |bs| && 0 <= j < |bs| && i != j && bs[i].key.layer == bs[j].key.layer
        ensures bs[i].key.block + (bs[i].end - bs[i].start) <= bs[j].key.block || bs[j].key.block + (bs[j].end - bs[j].start) <= bs[i].key.block
      {
        var x := ComputeOf(bs, where, l, i);
        var y := ComputeOf(bs, where, l, j);
        assert bs[if i < j then i else j].key != bs[if i < j then j else i].key;
      }
    }
    if IdsLeaveRoom(bs) {
      forall x, y | 0 <= x < |cs| && 0 <= y < |cs| && cs[x].layer == cs[y].layer && cs[x].BufferKey() != cs[y].BufferKey()
        ensures TL.CellsDisjoint(SB.CellsOf(cs[x].BufferKey()), SB.CellsOf(cs[y].BufferKey()))
      {
        var i := MemberOf(bs, where, l, x);
        var j := MemberOf(bs, where, l, y);
        ChainMember(bs[i], OffsetOf(l, bs[i].key), where[bs[i].key], cs[x]);
        ChainMember(bs[j], OffsetOf(l, bs[j].key), where[bs[j].key], cs[y]);
      }
    }
  }

  /** The command's block fits the tensors of its layer. */
  predicate FitsLayer(cfg: B.Config, c: Command) {
    TG.FitsTensors(cfg.SiteOf(c.layer), B.NatOf(c.block), B.NatOf(c.end - c.start), c.size)
  }

  /** Every block of the layer that has had its event fits the layer's tensors. */
  ghost predicate ServedFit(cfg: B.Config, es: seq<B.Event>, layer: int) {
    forall i :: 0 <= i < |cfg.commands| && cfg.commands[i].layer == layer && cfg.commands[i].BufferKey() in GC.ServedKeys(cfg, es)
      ==> FitsLayer(cfg, cfg.commands[i])
  }

  /** Gate, end to end, for a compiled stream with mutation enabled and no failing read or allocation. Once
      every block that has a cell in the view has had its event, the gate reports nothing missing and nothing
      pending. The blocks of the layer that have had their event are all in place if and only if the gate
      accepts them and their backing bytes agree on the cells they share; when the ids leave room for the
      tokens, if and only if they fit the layer's tensors. */
  lemma {:induction false} GateEndToEnd(cfg: B.Config, bs: seq<BlockInfo>, where: Residency, l: Layout, pool: seq<BlockInfo>,
                                        es: seq<B.Event>, w: B.World, layer: int, nKv: nat)
    requires Compiled(bs, where, l, pool) && cfg.commands == Kept(Derived(bs, where, l))
    requires cfg.executorEnabled && cfg.seedMissing && cfg.mutationEnabled
    requires forall c :: c in cfg.commands ==> c.offset + c.size <= |cfg.backing|
    requires forall j :: 0 <= j < |es| ==> GC.Smooth(es[j])
    requires B.WorldShaped(cfg, w) && w.state == B.FRESH && B.LayersKnown(w, es) && layer in w.tensors
    ensures var r := B.Run(cfg, es, w); var g := B.Gate(cfg, r.state.staging, layer, nKv, |cfg.commands|);
      var keys, served := GC.NeededKeys(cfg.commands, layer, nKv, |cfg.commands|), GC.ServedKeys(cfg, es);
      && (keys <= served ==> g.required == |keys| && g.ready == g.required && g.missing == g.pending == 0)
      && (LL.MarkedInPlace(cfg, served, layer, r.tensors[layer]) <==> LL.MarkedAgree(cfg, served, layer))
      && (IdsLeaveRoom(bs) ==> (LL.MarkedInPlace(cfg, served, layer, r.tensors[layer]) <==> ServedFit(cfg, es, layer)))
  {
    CompiledIsRunnable(cfg, bs, where, l, pool);
    var keys, n := GC.RequiredKeys(cfg.commands, layer, nKv, |cfg.commands|), |cfg.commands|;
    hide Derived, Compiled, Kept, IdsLeaveRoom, B.Run, B.Gate, GC.RequiredKeys, GC.NeededKeys, GC.ServedKeys, LL.MarkedInPlace,
      LL.MarkedAgree, ServedFit, GC.Runnable, GC.Smooth, GC.AllValid, B.WorldShaped, B.LayersKnown;
    if IdsLeaveRoom(bs) {
      RoomApart(cfg, bs, where, l, pool);
      RoomAgrees(cfg, es, layer);
    }
    GC.ServedInPlaceIff(cfg, es, w, layer);
    GC.GateCounts(cfg, B.Run(cfg, es, w).state.staging, layer, nKv, n);
    if keys <= GC.ServedKeys(cfg, es) {
      GC.GateCompletes(cfg, es, w, layer, nKv);
    }
  }

  lemma {:induction false} RoomApart(cfg: B.Config, bs: seq<BlockInfo>, where: Residency, l: Layout, pool: seq<BlockInfo>)
    requires Compiled(bs, where, l, pool) && cfg.commands == Kept(Derived(bs, where, l)) && IdsLeaveRoom(bs)
    ensures SB.CellsApart(cfg.commands)
  {
    CellsApartIff(bs, where, l, pool);
    var n := KeptIsPrefix(Derived(bs, where, l));
    hide Derived, IdsLeaveRoom;
  }

  /** On disjoint cells, agreeing is fitting the tensors. */
  lemma {:induction false} RoomAgrees(cfg: B.Config, es: seq<B.Event>, layer: int)
    requires SB.Coherent(cfg.commands) && SB.CellsApart(cfg.commands) && GC.Runnable(cfg)
    ensures LL.MarkedAgree(cfg, GC.ServedKeys(cfg, es), layer) <==> ServedFit(cfg, es, layer)
  {
    LL.CellsApartFit(cfg, layer);
    forall i | 0 <= i < |cfg.commands| ensures LL.Accepted(cfg, cfg.commands[i]) <==> FitsLayer(cfg, cfg.commands[i]) {
      assert GC.TameCommand(cfg, cfg.commands[i]);
      LL.VerdictExact(cfg, cfg.commands[i].BufferKey(), cfg.commands[i].size);
    }
    hide LL.Accepted, GC.ServedKeys, SB.CellsApart, SB.Coherent, GC.Runnable, FitsLayer;
    if LL.MarkedAgree(cfg, GC.ServedKeys(cfg, es), layer) {
      forall i | 0 <= i < |cfg.commands| && cfg.commands[i].layer == layer && cfg.commands[i].BufferKey() in GC.ServedKeys(cfg, es)
        ensures FitsLayer(cfg, cfg.commands[i])
      {
        assert LL.BlocksAgree(cfg, cfg.commands[i], cfg.commands[i]);
      }
    }
  }

  /** The block is staged with rows of `ne0` elements of `el` bytes, and lies in the cache. */
  predicate StagedFor(b: BlockInfo, ne0: nat, el: nat, cache: nat) {
    b.size == (b.end - b.start) * (2 * (ne0 * el)) && b.key.block + (b.end - b.start) <= cache
  }

  /** On a layer whose K and V tensors hold `ne0` elements of `el` bytes per cell, V transposed or not, with
      ids that leave room for the tokens: every block staged with those rows is in place as soon as it has
      had its event. */
  lemma {:induction false} PlainLayerInPlace(cfg: B.Config, bs: seq<BlockInfo>, where: Residency, l: Layout, pool: seq<BlockInfo>,
                                             es: seq<B.Event>, w: B.World, layer: int, ne0: nat, el: nat)
    requires Compiled(bs, where, l, pool) && cfg.commands == Kept(Derived(bs, where, l)) && IdsLeaveRoom(bs)
    requires cfg.executorEnabled && cfg.seedMissing && cfg.mutationEnabled
    requires forall c :: c in cfg.commands ==> c.offset + c.size <= |cfg.backing|
    requires forall j :: 0 <= j < |es| ==> GC.Smooth(es[j])
    requires B.WorldShaped(cfg, w) && w.state == B.FRESH && B.LayersKnown(w, es) && layer in w.tensors
    requires var site := cfg.SiteOf(layer); site.k == site.v == Some(TG.TensorShape(ne0, 1, el, 1)) && ne0 * el > 0
    requires forall i :: 0 <= i < |bs| && bs[i].key.layer == layer ==> StagedFor(bs[i], ne0, el, cfg.cache)
    ensures LL.MarkedInPlace(cfg, GC.ServedKeys(cfg, es), layer, B.Run(cfg, es, w).tensors[layer])
  {
    GateEndToEnd(cfg, bs, where, l, pool, es, w, layer, 0);
    var n := KeptIsPrefix(Derived(bs, where, l));
    forall i | 0 <= i < |cfg.commands| && cfg.commands[i].layer == layer ensures FitsLayer(cfg, cfg.commands[i]) {
      PlainCommandFits(cfg, bs, where, l, pool, i, ne0, el);
    }
    hide B.Run, Derived, Compiled, Kept, IdsLeaveRoom, FitsLayer, LL.MarkedInPlace, GC.ServedKeys, GC.NeededKeys, B.Gate, LL.MarkedAgree;
  }

  lemma {:induction false} PlainCommandFits(cfg: B.Config, bs: seq<BlockInfo>, where: Residency, l: Layout, pool: seq<BlockInfo>,
                                            i: nat, ne0: nat, el: nat)
    requires Compiled(bs, where, l, pool) && i < |cfg.commands| && cfg.commands == Kept(Derived(bs, where, l))
    requires var site := cfg.SiteOf(cfg.commands[i].layer); site.k == site.v == Some(TG.TensorShape(ne0, 1, el, 1)) && ne0 * el > 0
    requires forall k :: 0 <= k < |bs| && bs[k].key.layer == cfg.commands[i].layer ==> StagedFor(bs[k], ne0, el, cfg.cache)
    ensures FitsLayer(cfg, cfg.commands[i])
  {
    var n := KeptIsPrefix(Derived(bs, where, l));
    var k := MemberOf(bs, where, l, i);
    ChainMember(bs[k], OffsetOf(l, bs[k].key), where[bs[k].key], Derived(bs, where, l)[i]);
    assert bs[k] in pool && ValidInfo(bs[k]) && StagedFor(bs[k], ne0, el, cfg.cache);
    hide Derived, Compiled;
    TG.PlainTensorsFit(cfg.SiteOf(cfg.commands[i].layer), ne0, el, bs[k].key.block, bs[k].end - bs[k].start);
  }

  /** Two blocks of a layer that have had their event are reported ready whatever they hold, and both are in
      place only if they agree on the cells they share; when they are the only ones on the layer, exactly
      then. */
  lemma {:induction false} ReadyButLost(cfg: B.Config, es: seq<B.Event>, w: B.World, i: nat, j: nat)
    requires GC.Tame(cfg) && forall n :: 0 <= n < |es| ==> GC.Smooth(es[n])
    requires i < |cfg.commands| && j < |cfg.commands| && cfg.commands[i].layer == cfg.commands[j].layer
    requires B.WorldShaped(cfg, w) && w.state == B.FRESH && B.LayersKnown(w, es) && cfg.commands[i].layer in w.tensors
    requires cfg.commands[i].BufferKey() in GC.ServedKeys(cfg, es) && cfg.commands[j].BufferKey() in GC.ServedKeys(cfg, es)
    ensures var c, d, r := cfg.commands[i], cfg.commands[j], B.Run(cfg, es, w); var t := r.tensors[c.layer];
      && B.Ready(r.state.staging, c.BufferKey()) && B.Ready(r.state.staging, d.BufferKey())
      && (LL.BlockInPlace(cfg, c, t) && LL.BlockInPlace(cfg, d, t) ==> LL.BlocksAgree(cfg, c, d))
      && (OnlyPair(cfg, GC.ServedKeys(cfg, es), c, d) ==>
            (LL.BlockInPlace(cfg, c, t) && LL.BlockInPlace(cfg, d, t) <==> LL.BlocksAgree(cfg, c, d)))
  {
    var c, d, t := cfg.commands[i], cfg.commands[j], B.Run(cfg, es, w).tensors[cfg.commands[i].layer];
    GC.ServedAreReady(cfg, es, w, c.BufferKey());
    GC.ServedAreReady(cfg, es, w, d.BufferKey());
    GC.ServedInPlaceIff(cfg, es, w, c.layer);
    assert SB.Coherent(cfg.commands);
    hide B.Run, B.Ready, GC.ServedKeys, GC.Tame, GC.Smooth, B.WorldShaped, B.LayersKnown, LL.BlockInPlace, LL.BlocksAgree, SB.Coherent;
    if LL.BlockInPlace(cfg, c, t) && LL.BlockInPlace(cfg, d, t) {
      LL.TwoInPlaceAgree(cfg, c, d, t);
    }
    if OnlyPair(cfg, GC.ServedKeys(cfg, es), c, d) && LL.BlocksAgree(cfg, c, d) {
      PairAgrees(cfg, GC.ServedKeys(cfg, es), i, j);
    }
  }

  /** No other block of the layer is among `keys`. */
  ghost predicate OnlyPair(cfg: B.Config, keys: set<Key>, c: Command, d: Command) {
    forall k :: 0 <= k < |cfg.commands| && cfg.commands[k].layer == c.layer && cfg.commands[k].BufferKey() in keys
      ==> cfg.commands[k].BufferKey() == c.BufferKey() || cfg.commands[k].BufferKey() == d.BufferKey()
  }

  lemma {:induction false} PairAgrees(cfg: B.Config, keys: set<Key>, i: nat, j: nat)
    requires SB.Coherent(cfg.commands) && i < |cfg.commands| && j < |cfg.commands|
    requires OnlyPair(cfg, keys, cfg.commands[i], cfg.commands[j]) && LL.BlocksAgree(cfg, cfg.commands[i], cfg.commands[j])
    ensures LL.MarkedAgree(cfg, keys, cfg.commands[i].layer)
  {
    var cs := cfg.commands;
    hide LL.BlocksAgree, SB.Coherent;
    LL.AgreeSymmetric(cfg, cs[i], cs[j]);
    forall x, y | 0 <= x < |cs| && 0 <= y < |cs| && cs[x].layer == cs[i].layer && cs[x].BufferKey() in keys &&
        cs[y].layer == cs[i].layer && cs[y].BufferKey() in keys
      ensures LL.BlocksAgree(cfg, cs[x], cs[y])
    {
      var a, b := if cs[x].BufferKey() == cs[i].BufferKey() then i else j, if cs[y].BufferKey() == cs[i].BufferKey() then i else j;
      assert LL.BlocksAgree(cfg, cs[a], cs[b]);
      LL.SameBlocksAgree(cfg, x, y, a, b);
    }
  }
}
