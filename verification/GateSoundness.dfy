/** When "ready" means "the tensor holds the bytes": over every run of the bridge, with failures, reloads and
    evictions anywhere, the marked blocks of a layer have their K and V rows in the layer's tensors if and
    only if the gate accepts them and their backing bytes agree on the cells they share.
 */
module GateSoundness {
  import opened Kv
  import opened ByteCopies
  import opened TensorLayout
  import opened TensorGate
  import opened BridgeModel
  import opened StagingBooks
  import opened LayerLaws
  import opened GateCounters

  // ---------- one action of the gate ----------

  /** What the gate does when it acts on record `i`: mark it, count it, and copy it if it is accepted. */
  ghost predicate GateOutcome(cfg: Config, staging: seq<Staging>, i: nat, n: Counts, t: Tensors, r: Gated)
    requires i < |staging| && staging[i].vram.Some?
  {
    var key, size := staging[i].key, staging[i].size;
    && r.staging == staging[i := staging[i].(mutated := true)]
    && Counted(n.Plus(CountsFor(cfg, key, size)), r.mu)
    && (if VerdictFor(cfg, key, size).Copied?
        then IsScatter(staging[i].vram.value, RowsFor(key, size), cfg.SiteOf(key.layer), t, r.tensors)
        else r.tensors == t)
  }

  /** A record with resolved rows is only marked, and judged as its key and size say. */
  lemma {:induction false} RangedMarked(cfg: Config, r: Staging)
    requires r.ranged && RowsOf(r) == RowsFor(r.key, r.size)
    ensures var site := cfg.SiteOf(r.key.layer); var m := Marked(r, site);
      m == r.(mutated := true) && RowsOf(m) == RowsFor(r.key, r.size) && VerdictOn(m, site) == VerdictFor(cfg, r.key, r.size)
  {
    hide Judge;
  }

  lemma {:induction false} MutateOutcome(cfg: Config, staging: seq<Staging>, i: nat, n: Counts, mu: MutationStats, t: Tensors)
    requires i < |staging| && Sized(staging) && TensorsShaped(cfg.SiteOf(staging[i].key.layer), t)
    requires GateActs(cfg, staging[i]) && staging[i].ranged && RowsOf(staging[i]) == RowsFor(staging[i].key, staging[i].size)
    requires Counted(n, mu) && staging[i].vram.value == FileBlock(cfg, staging[i].key)
    ensures GateOutcome(cfg, staging, i, n, t, Mutate(cfg, cfg.SiteOf(staging[i].key.layer), staging, i, mu, t))
  {
    var r := staging[i];
    var site, image, g := cfg.SiteOf(r.key.layer), r.vram.value, RowsFor(r.key, r.size);
    assert RecordSized(r);
    RangedMarked(cfg, r);
    if VerdictFor(cfg, r.key, r.size).Copied? {
      PlansFit(g, |image|, site, |t.k|, |t.v|, g.tokens);
      assert BlockHash(image, g) == FileChecksum(cfg, r.key, r.size);
      hide RowsFor, RowsOf, Judge, Counted, CountsFor, FileChecksum, FileBlock, Marked, WriteKeys, WriteValues, KeyCopies, ValuePlan, AllFit, Shaped, BlockHash, CountCopied;
      CountCopiedStep(cfg, r.key, r.size, n, mu, g, BlockHash(image, g));
    } else {
      hide RowsFor, RowsOf, Judge, Counted, CountsFor, Marked, Shaped, CountRefused;
      CountRefusedStep(cfg, r.key, r.size, n, mu);
    }
  }

  lemma {:induction false} StagedIsFile(cfg: Config, r: Staging)
    requires Coherent(cfg.commands) && Backed(cfg, r) && r.vram.Some?
    ensures r.vram.value == FileBlock(cfg, r.key)
  {
    var i :| 0 <= i < |cfg.commands| && cfg.commands[i].BufferKey() == r.key;
    assert BackedBy(cfg, r, cfg.commands[i]);
    FileBlockIs(cfg, cfg.commands[i]);
    hide FileBlock;
  }

  // ---------- the invariant of a layer and its steps ----------

  /** The table and the counters between two steps. */
  ghost predicate TableSound(cfg: Config, staging: seq<Staging>, mu: MutationStats) {
    Sized(staging) && Books(cfg, staging) && Counted(Tally(cfg, staging), mu)
  }

  ghost predicate LawsElsewhere(cfg: Config, marked: set<Key>, layer: int, tensors: map<int, Tensors>) {
    forall l :: l in tensors && l != layer ==> LayerLaw(cfg, marked, l, tensors[l])
  }

  /** What holds while the commands of an event of layer `layer` are processed. */
  ghost predicate StepSound(cfg: Config, staging: seq<Staging>, mu: MutationStats, layer: int, t: Tensors, tensors: map<int, Tensors>) {
    && TableSound(cfg, staging, mu) && TensorsShaped(cfg.SiteOf(layer), t)
    && LayerLaw(cfg, MarkedKeys(staging), layer, t) && LawsElsewhere(cfg, MarkedKeys(staging), layer, tensors)
  }

  lemma {:induction false} ActKeepsLaws(cfg: Config, staging: seq<Staging>, i: nat, n: Counts, t: Tensors, r: Gated, tensors: map<int, Tensors>)
    requires Coherent(cfg.commands) && i < |staging| && staging[i].vram.Some? && Backed(cfg, staging[i])
    requires GateOutcome(cfg, staging, i, n, t, r)
    requires var layer := staging[i].key.layer;
      && TensorsShaped(cfg.SiteOf(layer), t)
      && LayerLaw(cfg, MarkedKeys(staging), layer, t) && LawsElsewhere(cfg, MarkedKeys(staging), layer, tensors)
    ensures var layer := staging[i].key.layer;
      LayerLaw(cfg, MarkedKeys(r.staging), layer, r.tensors) && LawsElsewhere(cfg, MarkedKeys(r.staging), layer, tensors)
  {
    var marked, key := MarkedKeys(staging), staging[i].key;
    MarkAdds(staging, i);
    var k :| 0 <= k < |cfg.commands| && cfg.commands[k].BufferKey() == key;
    var c := cfg.commands[k];
    assert BackedBy(cfg, staging[i], c);
    hide LayerLaw, MarkedKeys, VerdictFor, RowsFor, Image, IsScatter, Coherent, Counted, CountsFor, Config.SiteOf;
    if Accepted(cfg, c) {
      CopyKeepsLaw(cfg, marked, key.layer, k, t, r.tensors);
    } else {
      RefusalKeepsLaw(cfg, marked, key.layer, k, t);
    }
    forall l | l in tensors && l != key.layer ensures LayerLaw(cfg, marked + {key}, l, tensors[l]) {
      OtherLayerKeepsLaw(cfg, marked, l, key, tensors[l]);
    }
  }

  lemma {:induction false} MutateKeeps(cfg: Config, staging: seq<Staging>, i: nat, mu: MutationStats, t: Tensors, tensors: map<int, Tensors>)
    requires Coherent(cfg.commands) && i < |staging| && StepSound(cfg, staging, mu, staging[i].key.layer, t, tensors)
    ensures var layer := staging[i].key.layer; var r := Mutate(cfg, cfg.SiteOf(layer), staging, i, mu, t);
      StepSound(cfg, r.staging, r.mu, layer, r.tensors, tensors)
  {
    if GateActs(cfg, staging[i]) {
      var n, r := Tally(cfg, staging), Mutate(cfg, cfg.SiteOf(staging[i].key.layer), staging, i, mu, t);
      assert Backed(cfg, staging[i]);
      StagedIsFile(cfg, staging[i]);
      hide FileBlock, Mutate, Books, RowsFor, RowsOf, LayerLaw, Counted, CountsFor, Tally, MarkedKeys, LawsElsewhere;
      MutateOutcome(cfg, staging, i, n, mu, t);
      ActKeepsLaws(cfg, staging, i, n, t, r, tensors);
      MarkKeeps(cfg, staging, i);
      TallyMark(cfg, staging, i);
    }
  }

  lemma {:induction false} CommandKeeps(cfg: Config, e: Event, s: Stepped, i: nat, tensors: map<int, Tensors>)
    requires Coherent(cfg.commands) && i < |cfg.commands| && Matches(cfg.commands[i], e)
    requires StepSound(cfg, s.state.staging, s.state.mu, e.layer, s.tensors, tensors)
    ensures var r := ApplyCommand(cfg, e, s, i);
      StepSound(cfg, r.state.staging, r.state.mu, e.layer, r.tensors, tensors)
  {
    var c := cfg.commands[i];
    var before := Executor(s.state.staging, s.state.ex);
    var exec := ExecuteIntent(cfg, before, c, e.IoAt(i));
    IntentKeeps(cfg, before, i, e.IoAt(i));
    EvolvesKeepsMarks(before.staging, exec.staging);
    TallyEvolves(cfg, before.staging, exec.staging);
    var at := Find(exec.staging, c.BufferKey());
    hide ExecuteIntent, Mutate, Transition, Books, Counted, Tally, LayerLaw, LawsElsewhere, MarkedKeys, Coherent;
    if at.Some? {
      MutateKeeps(cfg, exec.staging, at.value, s.state.mu, s.tensors, tensors);
    }
  }

  lemma {:induction false} CommandsKeep(cfg: Config, e: Event, s: Stepped, n: nat, tensors: map<int, Tensors>)
    requires Coherent(cfg.commands) && n <= |cfg.commands|
    requires StepSound(cfg, s.state.staging, s.state.mu, e.layer, s.tensors, tensors)
    ensures var r := ApplyCommands(cfg, e, s, n);
      StepSound(cfg, r.state.staging, r.state.mu, e.layer, r.tensors, tensors)
  {
    hide ApplyCommand, TableSound, LayerLaw, LawsElsewhere;
    if n == 0 {
    } else {
      CommandsKeep(cfg, e, s, n - 1, tensors);
      StepSoundSized(cfg, s, e.layer, tensors);
      if Matches(cfg.commands[n - 1], e) {
        CommandKeeps(cfg, e, ApplyCommands(cfg, e, s, n - 1), n - 1, tensors);
      }
    }
  }

  lemma {:induction false} StepSoundSized(cfg: Config, s: Stepped, layer: int, tensors: map<int, Tensors>)
    requires StepSound(cfg, s.state.staging, s.state.mu, layer, s.tensors, tensors)
    ensures Sized(s.state.staging) && TensorsShaped(cfg.SiteOf(layer), s.tensors)
  {
  }

  // ---------- whole runs ----------

  /** In every layer the copied blocks are all in place if and only if they agree; the counters are the
      counts of the marked records; buffers hold backing bytes. */
  ghost predicate Sound(cfg: Config, w: World) {
    && WorldShaped(cfg, w) && TableSound(cfg, w.state.staging, w.state.mu)
    && (forall l :: l in w.tensors ==> LayerLaw(cfg, MarkedKeys(w.state.staging), l, w.tensors[l]))
  }

  lemma {:induction false} EventKeepsSound(cfg: Config, e: Event, w: World)
    requires Coherent(cfg.commands) && Sound(cfg, w) && e.layer in w.tensors
    ensures Sound(cfg, ApplyInWorld(cfg, e, w))
  {
    hide ApplyCommands, LayerLaw, TableSound, Coherent;
    var s := Stepped(Begin(cfg, e, w.state), w.tensors[e.layer]);
    CommandsKeep(cfg, e, s, |cfg.commands|, w.tensors);
  }

  lemma {:induction false} FreshIsSound(cfg: Config, w: World)
    requires WorldShaped(cfg, w) && w.state == FRESH
    ensures Sound(cfg, w)
  {
    assert MarkedKeys(w.state.staging) == {};
  }

  /** Over every run of every coherent list. */
  lemma {:induction false} RunIsSound(cfg: Config, es: seq<Event>, w: World)
    requires Coherent(cfg.commands)
    requires WorldShaped(cfg, w) && w.state == FRESH && LayersKnown(w, es)
    ensures Sound(cfg, Run(cfg, es, w))
  {
    if es == [] {
      FreshIsSound(cfg, w);
    } else {
      var front := es[..|es| - 1];
      forall i | 0 <= i < |front| ensures front[i].layer in w.tensors {
        assert front[i] == es[i];
      }
      hide ApplyInWorld, Sound;
      RunIsSound(cfg, front, w);
      SoundShaped(cfg, Run(cfg, front, w));
      EventKeepsSound(cfg, es[|es| - 1], Run(cfg, front, w));
    }
  }

  lemma {:induction false} SoundShaped(cfg: Config, w: World)
    requires Sound(cfg, w)
    ensures WorldShaped(cfg, w)
  {
  }

  // ---------- what a ready block means ----------

  /** Gate soundness, exactly. After any run from a fresh bridge, with failures, reloads and evictions
      anywhere, the marked blocks of a layer are all in place if and only if the gate accepts each of them
      and they agree on the cells they share. */
  lemma {:induction false} MarkedInPlaceIff(cfg: Config, es: seq<Event>, w: World, layer: int)
    requires Coherent(cfg.commands)
    requires WorldShaped(cfg, w) && w.state == FRESH && LayersKnown(w, es) && layer in w.tensors
    ensures var r := Run(cfg, es, w); var marked := MarkedKeys(r.state.staging);
      MarkedInPlace(cfg, marked, layer, r.tensors[layer]) <==> MarkedAgree(cfg, marked, layer)
  {
    hide Run, Coherent, LayersKnown, WorldShaped, MarkedInPlace, MarkedAgree, LayerLaw;
    RunIsSound(cfg, es, w);
    var r := Run(cfg, es, w);
    LawMeans(cfg, MarkedKeys(r.state.staging), layer, r.tensors[layer]);
  }

  /** On a layer whose accepted blocks agree, a block that the gate reports ready has its rows in the tensors
      if and only if the gate accepts it; no verification error is ever counted. */
  lemma {:induction false} ReadyMeansInPlace(cfg: Config, es: seq<Event>, w: World, i: nat)
    requires Coherent(cfg.commands) && i < |cfg.commands| && LayerFits(cfg, cfg.commands[i].layer)
    requires WorldShaped(cfg, w) && w.state == FRESH && LayersKnown(w, es) && cfg.commands[i].layer in w.tensors
    requires Ready(Run(cfg, es, w).state.staging, cfg.commands[i].BufferKey())
    ensures var c, r := cfg.commands[i], Run(cfg, es, w);
      (BlockInPlace(cfg, c, r.tensors[c.layer]) <==> Accepted(cfg, c)) && r.state.mu.verifyErrors == 0
  {
    var c, r := cfg.commands[i], Run(cfg, es, w);
    var marked := MarkedKeys(r.state.staging);
    assert c.BufferKey() in marked;
    RunIsSound(cfg, es, w);
    assert LayerLaw(cfg, marked, c.layer, r.tensors[c.layer]);
    hide Run, BlocksAgree, Accepted, MarkedKeys, Coherent, WorldShaped, LayersKnown, Ready, Landed;
    assert LayerAgrees(cfg, marked, c.layer);
    if Accepted(cfg, c) {
      assert Written(cfg, marked, c.layer, c);
    }
  }

  // ---------- what the counters tell ----------

  /** Every refusal counter, exactly: the unsupported and size counts are zero when no marked block was
      refused for that reason; the bounds count is zero when the ranges past the cache come to a multiple
      of 2^32, and there are none of them when no marked block was refused for its bounds. */
  lemma {:induction false} RefusalCounters(cfg: Config, es: seq<Event>, w: World)
    requires Coherent(cfg.commands)
    requires WorldShaped(cfg, w) && w.state == FRESH && LayersKnown(w, es)
    ensures var s := Run(cfg, es, w).state; var marked := MarkedKeys(s.staging);
      && (s.mu.blocks == s.mu.attempts <==> NoneMarked(cfg, marked, IsRefusal))
      && (s.mu.unsupported == 0 <==> NoneMarked(cfg, marked, IsUnsupported))
      && (s.mu.sizeMismatches == 0 <==> NoneMarked(cfg, marked, IsMismatch))
      && s.mu.boundsErrors == RangesPast(cfg, s.staging) % UINT32_SPAN
      && (RangesPast(cfg, s.staging) == 0 <==> NoneMarked(cfg, marked, IsPast))
  {
    hide Run, Books, Counted, Tally, Coherent, LayersKnown, WorldShaped, RangesPast, MarkedKeys, NoneMarked;
    RunIsSound(cfg, es, w);
    TableCounters(cfg, Run(cfg, es, w).state.staging, Run(cfg, es, w).state.mu);
  }

  /** The counters the bridge reports are enough for blocks shorter than 2^19 tokens: the bounds count is
      zero exactly when no marked block was refused for its bounds, and all three counts are zero exactly
      when every attempt copied. */
  lemma {:induction false} ZeroRefusalsMeanCopied(cfg: Config, es: seq<Event>, w: World)
    requires Coherent(cfg.commands) && SmallBlocks(cfg.commands)
    requires WorldShaped(cfg, w) && w.state == FRESH && LayersKnown(w, es)
    ensures var s := Run(cfg, es, w).state;
      && (s.mu.boundsErrors == 0 <==> NoneMarked(cfg, MarkedKeys(s.staging), IsPast))
      && (s.mu.unsupported == 0 && s.mu.sizeMismatches == 0 && s.mu.boundsErrors == 0 <==> s.mu.blocks == s.mu.attempts)
  {
    RefusalCounters(cfg, es, w);
    RunIsSound(cfg, es, w);
    var s := Run(cfg, es, w).state;
    SmallTally(cfg, s.staging);
    hide Run, Coherent, LayersKnown, MarkedKeys, Tally;
    FewPast(RangesPast(cfg, s.staging), |s.staging|);
    FourVerdicts(cfg, MarkedKeys(s.staging));
  }

  /** The volume counters over every run: all marked blocks were attempts, and each copied block of `t` tokens
      counted `2 * t` ranges, half of its bytes as K bytes, the other half as V bytes, and four checksums; the two
      combined checksums are the xor of the copied blocks' checksums in the backing file. */
  lemma {:induction false} VolumeCounters(cfg: Config, es: seq<Event>, w: World)
    requires Coherent(cfg.commands)
    requires WorldShaped(cfg, w) && w.state == FRESH && LayersKnown(w, es)
    ensures var s := Run(cfg, es, w).state; var n := Tally(cfg, s.staging);
      && s.mu.attempts == |MarkedKeys(s.staging)| && s.mu.blocks == n.copied && s.mu.checksums == 4 * s.mu.blocks
      && s.mu.ranges == 2 * n.rows % UINT32_SPAN
      && s.mu.stagingXor == s.mu.postXor == n.checksum
      && s.mu.keyBytes == s.mu.valueBytes == n.rowBytes % UINT64_SPAN && s.mu.bytes == 2 * n.rowBytes % UINT64_SPAN
  {
    hide Run, Books, Counted, Tally, Coherent, LayersKnown, WorldShaped, MarkedKeys;
    RunIsSound(cfg, es, w);
    TableVolume(cfg, Run(cfg, es, w).state.staging, Run(cfg, es, w).state.mu);
  }
}
