/** Three executors, one meaning: the C consumer, the seeding Python executor and the llama.cpp bridge
    agree on every evict-free stream.
 */
module Agreement {
  import opened Kv
  import C = ConsumerModel
  import CS = ConsumerSafety
  import CL = ConsumerLedger
  import P = Residency
  import B = BridgeModel
  import BL = BridgeLedger
  import GC = GateCompleteness
  import SB = StagingBooks
  import GS = GateSoundness
  import BC = BufferContents
  import L = Ledger

  /** On any consistent evict-free stream with disjoint ranges, the C consumer and the seeding Python
      executor report the same reads, copies, computes and lazy seeds, in number and in bytes, and leave
      the same blocks in DRAM and in VRAM; neither reports an error. */
  lemma {:induction false} ConsumerAgreesWithPython(cs: seq<Command>, seedEnvs: seq<C.Env>, envs: seq<C.Env>, setup: P.Setup)
    requires CS.Stream(cs) && L.AllSimple(cs) && |cs| <= |seedEnvs| && |cs| <= |envs|
    requires CS.AllKind(seedEnvs, |cs|) && CS.AllKind(envs, |cs|)
    requires setup.seed && P.LongEnough(setup, cs)
    ensures P.AllAddressable(cs)
    ensures var c, p := C.Consume(cs, seedEnvs, envs), P.Run(setup, P.START, cs);
      && CL.Abstract(c.state) == P.Abstract(p)
      && (c.ok <==> cs != []) && c.state.stats.verificationErrors == 0 && P.Errors(p.counts) == 0
  {
    forall i | 0 <= i < |cs| ensures P.Addressable(cs[i]) {
      assert CS.Steady(cs[i]);
    }
    CL.ConsumerKeepsLedger(cs, seedEnvs, envs);
    P.SeedingRunIsLedger(setup, cs);
  }

  /** Replaying, in the seeding Python executor, the commands that a bridge run executed reproduces the
      bridge's own reads, copies, computes, lazy seeds and resident blocks, for any sequence of events. */
  lemma {:induction false} BridgeAgreesWithPython(cfg: B.Config, es: seq<B.Event>, w: B.World, setup: P.Setup)
    requires GC.Runnable(cfg) && GC.EvictFree(cfg.commands) && Consistent(cfg.commands) && forall j :: 0 <= j < |es| ==> GC.Smooth(es[j])
    requires B.WorldShaped(cfg, w) && B.LayersKnown(w, es) && w.state == B.FRESH
    requires setup.seed && P.LongEnough(setup, BL.Executed(cfg.commands, es))
    ensures P.AllAddressable(BL.Executed(cfg.commands, es))
    ensures var b, p := B.Run(cfg, es, w).state, P.Run(setup, P.START, BL.Executed(cfg.commands, es));
      && BL.Abstract(b.staging, b.ex) == P.Abstract(p)
      && BL.Faults(b.ex) == 0 && P.Errors(p.counts) == 0
  {
    var cs := BL.Executed(cfg.commands, es);
    BL.BridgeKeepsLedger(cfg, es, w);
    ExecutedSimple(cfg, es);
    hide BL.Executed, GC.Runnable, GC.Smooth;
    P.SeedingRunIsLedger(setup, cs);
  }

  lemma {:induction false} ExecutedSimple(cfg: B.Config, es: seq<B.Event>)
    requires GC.Runnable(cfg) && GC.EvictFree(cfg.commands) && Consistent(cfg.commands)
    ensures var cs := BL.Executed(cfg.commands, es);
      P.AllAddressable(cs) && L.AllSimple(cs) && Consistent(cs) && forall i :: 0 <= i < |cs| ==> CS.Steady(cs[i])
  {
    var cs := BL.Executed(cfg.commands, es);
    forall i | 0 <= i < |cfg.commands| ensures L.Simple(cfg.commands[i]) {
      assert GC.TameCommand(cfg, cfg.commands[i]);
    }
    BL.ExecutedKeeps(cfg.commands, es);
    forall i | 0 <= i < |cs| ensures P.Addressable(cs[i]) && CS.Steady(cs[i]) {
      BL.ExecutedMember(cfg.commands, es, i);
      var k :| 0 <= k < |cfg.commands| && cfg.commands[k] == cs[i];
      assert GC.TameCommand(cfg, cfg.commands[k]);
    }
  }

  /** And so does feeding them to the C consumer. */
  lemma {:induction false} BridgeAgreesWithConsumer(cfg: B.Config, es: seq<B.Event>, w: B.World, seedEnvs: seq<C.Env>, envs: seq<C.Env>)
    requires GC.Runnable(cfg) && GC.EvictFree(cfg.commands) && Consistent(cfg.commands) && RangesApart(cfg.commands)
    requires forall j :: 0 <= j < |es| ==> GC.Smooth(es[j])
    requires B.WorldShaped(cfg, w) && B.LayersKnown(w, es) && w.state == B.FRESH
    requires var n := |BL.Executed(cfg.commands, es)|;
      n <= |seedEnvs| && n <= |envs| && CS.AllKind(seedEnvs, n) && CS.AllKind(envs, n)
    ensures var b, c := B.Run(cfg, es, w).state, C.Consume(BL.Executed(cfg.commands, es), seedEnvs, envs);
      BL.Abstract(b.staging, b.ex) == CL.Abstract(c.state) && (c.ok <==> BL.Executed(cfg.commands, es) != [])
  {
    var cs := BL.Executed(cfg.commands, es);
    BL.BridgeKeepsLedger(cfg, es, w);
    ExecutedSimple(cfg, es);
    BL.ExecutedKeeps(cfg.commands, es);
    hide BL.Executed, GC.Runnable, GC.Smooth;
    CL.ConsumerKeepsLedger(cs, seedEnvs, envs);
  }

  // ---------- streams with evicts ----------

  lemma {:induction false} ExecutedKnown(cfg: B.Config, es: seq<B.Event>)
    requires GC.Runnable(cfg) && Consistent(cfg.commands)
    ensures var cs := BL.Executed(cfg.commands, es); P.AllAddressable(cs) && P.KnownKinds(cs) && Consistent(cs)
  {
    var cs := BL.Executed(cfg.commands, es);
    BL.ExecutedKeeps(cfg.commands, es);
    forall i | 0 <= i < |cs| ensures P.Addressable(cs[i]) && (L.Simple(cs[i]) || cs[i].EvictsToSsd()) {
      BL.ExecutedMember(cfg.commands, es, i);
      var k :| 0 <= k < |cfg.commands| && cfg.commands[k] == cs[i];
      assert GC.TameCommand(cfg, cfg.commands[k]);
    }
  }

  /** With evicts, for any sequence of events: the bridge and the seeding Python executor always end with the
      same blocks in DRAM and VRAM. They report the same counts, and the bridge no fault, if and only if
      every executed evict finds a buffer: the bridge counts the others as missing sources, the Python
      executor as seeds and evicts. */
  lemma {:induction false} EvictsAgreeIff(cfg: B.Config, es: seq<B.Event>, w: B.World, setup: P.Setup)
    requires GC.Runnable(cfg) && Consistent(cfg.commands) && forall j :: 0 <= j < |es| ==> GC.Smooth(es[j])
    requires B.WorldShaped(cfg, w) && B.LayersKnown(w, es) && w.state == B.FRESH
    requires setup.seed && P.LongEnough(setup, BL.Executed(cfg.commands, es))
    ensures P.AllAddressable(BL.Executed(cfg.commands, es))
    ensures var b, p := B.Run(cfg, es, w).state, P.Run(setup, P.START, BL.Executed(cfg.commands, es));
      && BL.InDram(b.staging) == P.Present(p.dram) && BL.InVram(b.staging) == P.Present(p.vram) && P.Errors(p.counts) == 0
      && p.counts.evicts == b.ex.evicts + b.ex.missingSources && BL.Faults(b.ex) == b.ex.missingSources
      && (BL.Abstract(b.staging, b.ex) == P.Abstract(p) && b.ex.evicts == p.counts.evicts && BL.Faults(b.ex) == 0
          <==> L.EvictsFind(BL.Executed(cfg.commands, es)))
  {
    var cs := BL.Executed(cfg.commands, es);
    BL.BridgeKeepsAccount(cfg, es, w);
    ExecutedKnown(cfg, es);
    P.SeedingRunIsAccount(setup, cs);
    L.NoneInVain(cs);
    if L.EvictsFind(cs) {
      NothingInVain(cs);
    }
    hide BL.Executed, GC.Runnable, GC.Smooth, B.Run, P.Run, L.EvictsFind, L.SettleAll, Consistent, P.LongEnough, P.KnownKinds;
  }

  /** Evicts in vain have no bytes when there are none of them. */
  lemma {:induction false} NothingInVain(cs: seq<Command>)
    requires L.SettleAll(L.NO_ACCOUNT, cs).vain == 0
    ensures L.SettleAll(L.NO_ACCOUNT, cs).vainBytes == 0
  {
    hide L.Step, L.Free;
    if cs == [] {
    } else {
      NothingInVain(cs[..|cs| - 1]);
    }
  }

  // ---------- the bytes themselves ----------

  function BridgeDram(staging: seq<B.Staging>, key: Key): Option<seq<Byte>> {
    var at := B.Find(staging, key);
    if at.Some? then staging[at.value].dram else None
  }

  function BridgeVram(staging: seq<B.Staging>, key: Key): Option<seq<Byte>> {
    var at := B.Find(staging, key);
    if at.Some? then staging[at.value].vram else None
  }

  function PythonBuffer(m: map<Key, P.Buffer>, key: Key): Option<seq<Byte>> {
    if key in m then Some(m[key].data) else None
  }

  /** Both executors have the same buffers with the same bytes. */
  ghost predicate SameBuffers(cfg: B.Config, staging: seq<B.Staging>, p: P.State) {
    forall i :: 0 <= i < |cfg.commands| ==>
      && BridgeDram(staging, cfg.commands[i].BufferKey()) == PythonBuffer(p.dram, cfg.commands[i].BufferKey())
      && BridgeVram(staging, cfg.commands[i].BufferKey()) == PythonBuffer(p.vram, cfg.commands[i].BufferKey())
  }

  /** A buffer of the Python executor belongs to an executed command. */
  lemma {:induction false} ExecutedBuffer(cfg: B.Config, es: seq<B.Event>, m: map<Key, P.Buffer>, i: nat) returns (n: nat)
    requires Consistent(cfg.commands) && P.Filed(m, BL.Executed(cfg.commands, es)) && i < |cfg.commands|
    requires cfg.commands[i].PlanKey() in P.Present(m)
    ensures cfg.commands[i].BufferKey() in m && n < |BL.Executed(cfg.commands, es)|
    ensures var c := BL.Executed(cfg.commands, es)[n];
      c.BufferKey() == cfg.commands[i].BufferKey() && c.offset == cfg.commands[i].offset && c.size == cfg.commands[i].size
  {
    var cs := BL.Executed(cfg.commands, es);
    var k :| k in m && PlanKeyOf(k) == cfg.commands[i].PlanKey();
    n :| 0 <= n < |cs| && cs[n].BufferKey() == k && m[k].size == cs[n].size;
    BL.ExecutedMember(cfg.commands, es, n);
    var j :| 0 <= j < |cfg.commands| && cfg.commands[j] == cs[n];
    assert cfg.commands[j].PlanKey() == cfg.commands[i].PlanKey();
  }

  /** Every buffer holds the range of the executed command that it is filed under. */
  ghost predicate HoldsRanges(m: map<Key, P.Buffer>, cs: seq<Command>, file: seq<Byte>) {
    forall n :: 0 <= n < |cs| && cs[n].BufferKey() in m ==>
      0 <= cs[n].offset <= cs[n].offset + cs[n].size <= |file| && m[cs[n].BufferKey()].data == file[cs[n].offset..cs[n].offset + cs[n].size]
  }

  ghost predicate KeepsRanges(setup: P.Setup, cs: seq<Command>) {
    P.AllAddressable(cs) && P.KnownKinds(cs) && Consistent(cs) && setup.seed && setup.backing.Some? && P.LongEnough(setup, cs)
  }

  lemma {:induction false} PythonFiles(cs: seq<Command>, setup: P.Setup)
    requires KeepsRanges(setup, cs)
    ensures var p := P.Run(setup, P.START, cs); P.Filed(p.dram, cs) && P.Filed(p.vram, cs)
  {
    P.RunOwes(setup, cs, |cs|);
    assert cs[..|cs|] == cs;
    hide P.Run, P.Filed, Consistent, P.LongEnough, P.KnownKinds, L.SettleAll;
  }

  lemma {:induction false} PythonHolds(cs: seq<Command>, setup: P.Setup)
    requires KeepsRanges(setup, cs)
    ensures var p := P.Run(setup, P.START, cs);
      HoldsRanges(p.dram, cs, setup.backing.value) && HoldsRanges(p.vram, cs, setup.backing.value)
  {
    hide P.Run, Consistent, P.LongEnough, P.KnownKinds;
    var p := P.Run(setup, P.START, cs);
    forall n | 0 <= n < |cs|
      ensures 0 <= cs[n].offset <= cs[n].offset + cs[n].size <= |setup.backing.value|
      ensures var range := setup.backing.value[cs[n].offset..cs[n].offset + cs[n].size];
        && (cs[n].BufferKey() in p.dram ==> p.dram[cs[n].BufferKey()].data == range)
        && (cs[n].BufferKey() in p.vram ==> p.vram[cs[n].BufferKey()].data == range)
    {
      BC.RunHoldsRange(setup, cs, n);
    }
  }

  lemma {:induction false} PythonRange(cfg: B.Config, es: seq<B.Event>, m: map<Key, P.Buffer>, i: nat)
    requires Consistent(cfg.commands) && i < |cfg.commands| && SB.InFile(cfg, cfg.commands[i])
    requires P.Filed(m, BL.Executed(cfg.commands, es)) && HoldsRanges(m, BL.Executed(cfg.commands, es), cfg.backing)
    ensures var c := cfg.commands[i];
      PythonBuffer(m, c.BufferKey()) == if c.PlanKey() in P.Present(m) then Some(SB.Image(cfg, c)) else None
  {
    var c := cfg.commands[i];
    assert PlanKeyOf(c.BufferKey()) == c.PlanKey();
    assert c.BufferKey() in m ==> c.PlanKey() in P.Present(m);
    hide BL.Executed, P.Filed, Consistent, P.Present;
    if c.PlanKey() in P.Present(m) {
      var n := ExecutedBuffer(cfg, es, m, i);
    }
  }

  lemma {:induction false} ExecutedInFile(cfg: B.Config, es: seq<B.Event>, setup: P.Setup)
    requires GC.Runnable(cfg) && setup.backing == Some(cfg.backing)
    ensures P.LongEnough(setup, BL.Executed(cfg.commands, es))
  {
    var cs := BL.Executed(cfg.commands, es);
    forall n | 0 <= n < |cs| ensures cs[n].offset + cs[n].size <= |cfg.backing| {
      BL.ExecutedMember(cfg.commands, es, n);
      var k :| 0 <= k < |cfg.commands| && cfg.commands[k] == cs[n];
      assert GC.TameCommand(cfg, cfg.commands[k]);
    }
  }

  lemma {:induction false} BridgeRange(cfg: B.Config, staging: seq<B.Staging>, i: nat)
    requires Consistent(cfg.commands) && SB.Books(cfg, staging) && i < |cfg.commands| && SB.InFile(cfg, cfg.commands[i])
    ensures var c := cfg.commands[i];
      && BridgeDram(staging, c.BufferKey()) == (if c.PlanKey() in BL.InDram(staging) then Some(SB.Image(cfg, c)) else None)
      && BridgeVram(staging, c.BufferKey()) == (if c.PlanKey() in BL.InVram(staging) then Some(SB.Image(cfg, c)) else None)
  {
    var c := cfg.commands[i];
    BL.ResidentIff(cfg, staging, i);
    var at := B.Find(staging, c.BufferKey());
    if at.Some? {
      assert SB.Backed(cfg, staging[at.value]);
      assert SB.BackedBy(cfg, staging[at.value], c);
    }
    hide SB.Books, SB.Backed, BL.InDram, BL.InVram, SB.Image, Consistent;
  }

  /** For any sequence of events, evicts included: a bridge run and the replay of what it executed in the Python
      executor, on one backing file, leave the same blocks in DRAM and in VRAM with the same bytes. */
  lemma {:induction false} BuffersAgree(cfg: B.Config, es: seq<B.Event>, w: B.World, setup: P.Setup)
    requires GC.Runnable(cfg) && Consistent(cfg.commands) && forall j :: 0 <= j < |es| ==> GC.Smooth(es[j])
    requires B.WorldShaped(cfg, w) && B.LayersKnown(w, es) && w.state == B.FRESH
    requires setup.seed && setup.backing == Some(cfg.backing)
    ensures P.AllAddressable(BL.Executed(cfg.commands, es))
    ensures SameBuffers(cfg, B.Run(cfg, es, w).state.staging, P.Run(setup, P.START, BL.Executed(cfg.commands, es)))
  {
    hide BL.Executed, GC.Runnable, GC.Smooth, B.Run, P.Run, SB.Books, BL.InDram, BL.InVram, P.Present, Consistent, P.LongEnough, P.Filed,
      BridgeDram, BridgeVram, PythonBuffer, SB.Image, L.EvictsFind, P.KnownKinds, HoldsRanges, B.WorldShaped, B.LayersKnown;
    ExecutedInFile(cfg, es, setup);
    ExecutedKnown(cfg, es);
    EvictsAgreeIff(cfg, es, w, setup);
    PythonFiles(BL.Executed(cfg.commands, es), setup);
    PythonHolds(BL.Executed(cfg.commands, es), setup);
    BridgeBooks(cfg, es, w);
    var staging, p := B.Run(cfg, es, w).state.staging, P.Run(setup, P.START, BL.Executed(cfg.commands, es));
    forall i | 0 <= i < |cfg.commands|
      ensures BridgeDram(staging, cfg.commands[i].BufferKey()) == PythonBuffer(p.dram, cfg.commands[i].BufferKey())
      ensures BridgeVram(staging, cfg.commands[i].BufferKey()) == PythonBuffer(p.vram, cfg.commands[i].BufferKey())
    {
      RunnableInFile(cfg, i);
      PythonRange(cfg, es, p.dram, i);
      PythonRange(cfg, es, p.vram, i);
      BridgeRange(cfg, staging, i);
    }
  }

  lemma {:induction false} RunnableInFile(cfg: B.Config, i: nat)
    requires GC.Runnable(cfg) && i < |cfg.commands|
    ensures SB.InFile(cfg, cfg.commands[i])
  {
    assert GC.TameCommand(cfg, cfg.commands[i]);
  }

  lemma {:induction false} BridgeBooks(cfg: B.Config, es: seq<B.Event>, w: B.World)
    requires GC.Runnable(cfg) && B.WorldShaped(cfg, w) && B.LayersKnown(w, es) && w.state == B.FRESH
    ensures SB.Books(cfg, B.Run(cfg, es, w).state.staging)
  {
    assert SB.Coherent(cfg.commands);
    hide SB.Coherent, SB.Books, GC.Runnable, B.Run, B.WorldShaped, B.LayersKnown;
    GS.RunIsSound(cfg, es, w);
  }
}
