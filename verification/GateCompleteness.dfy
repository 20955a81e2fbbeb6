/** The attention gate counts distinct blocks, and on an evict-free stream without failures it reports a
    block ready once the block has had its runtime event.
 */
module GateCompleteness {
  import opened Kv
  import opened TensorGate
  import opened BridgeModel
  import opened StagingBooks
  import opened LayerLaws
  import opened GateSoundness

  // ---------- counting ----------

  /** The blocks an attention view needs, among the first `n` command records. */
  ghost function RequiredKeys(cs: seq<Command>, layer: int, nKv: nat, n: nat): set<Key>
    requires n <= |cs|
  {
    set i | 0 <= i < n && OverlapsView(cs[i], layer, nKv) :: cs[i].BufferKey()
  }

  /** The cells that the command's block occupies. */
  predicate InBlock(c: Command, cell: int) {
    c.block <= cell < c.block + (c.end - c.start)
  }

  /** The cells of an attention view. */
  predicate InView(cell: int, nKv: nat) {
    0 <= cell < nKv
  }

  /** The command brings a block of the layer to VRAM that has a cell in the view. */
  ghost predicate Needs(c: Command, layer: int, nKv: nat) {
    c.layer == layer && c.target.VRAM? && exists cell :: InBlock(c, cell) && InView(cell, nKv)
  }

  ghost function NeededKeys(cs: seq<Command>, layer: int, nKv: nat, n: nat): set<Key>
    requires n <= |cs|
  {
    set i | 0 <= i < n && Needs(cs[i], layer, nKv) :: cs[i].BufferKey()
  }

  ghost predicate AllValid(cs: seq<Command>, n: nat)
    requires n <= |cs|
  {
    forall i :: 0 <= i < n ==> ValidCommand(cs[i])
  }

  /** The gate's test of a valid command says whether its block has a cell in the view. */
  lemma {:induction false} OverlapIsNeed(c: Command, layer: int, nKv: nat)
    requires ValidCommand(c)
    ensures OverlapsView(c, layer, nKv) <==> Needs(c, layer, nKv)
  {
    if OverlapsView(c, layer, nKv) {
      assert InBlock(c, c.block) && InView(c.block, nKv);
    }
  }

  lemma {:induction false} RequiredAreNeeded(cs: seq<Command>, layer: int, nKv: nat, n: nat)
    requires n <= |cs| && AllValid(cs, n)
    ensures RequiredKeys(cs, layer, nKv, n) == NeededKeys(cs, layer, nKv, n)
  {
    forall i | 0 <= i < n ensures OverlapsView(cs[i], layer, nKv) <==> Needs(cs[i], layer, nKv) {
      OverlapIsNeed(cs[i], layer, nKv);
    }
    hide OverlapsView, Needs;
  }

  ghost function Those(keys: set<Key>, p: Key -> bool): set<Key> {
    set k | k in keys && p(k)
  }

  ghost function ReadyKeys(staging: seq<Staging>, keys: set<Key>): set<Key> {
    Those(keys, k => Ready(staging, k))
  }

  ghost function MissingKeys(staging: seq<Staging>, keys: set<Key>): set<Key> {
    Those(keys, k => Missing(staging, k))
  }

  lemma {:induction false} AddKey(keys: set<Key>, key: Key, p: Key -> bool)
    requires key !in keys
    ensures |keys + {key}| == |keys| + 1
    ensures |Those(keys + {key}, p)| == |Those(keys, p)| + if p(key) then 1 else 0
  {
    assert Those(keys + {key}, p) == Those(keys, p) + if p(key) then {key} else {};
  }

  lemma {:induction false} RequiredKeysStep(cs: seq<Command>, layer: int, nKv: nat, n: nat)
    requires 0 < n <= |cs|
    ensures RequiredKeys(cs, layer, nKv, n) == RequiredKeys(cs, layer, nKv, n - 1)
      + if OverlapsView(cs[n - 1], layer, nKv) then {cs[n - 1].BufferKey()} else {}
    ensures KeySeen(cs, n - 1, cs[n - 1], layer, nKv) <==> cs[n - 1].BufferKey() in RequiredKeys(cs, layer, nKv, n - 1)
  {
  }

  ghost predicate CountedBy(g: Readiness, staging: seq<Staging>, keys: set<Key>) {
    && g.required == g.ready + g.missing + g.pending
    && g.required == |keys|
    && g.ready == |ReadyKeys(staging, keys)|
    && g.missing == |MissingKeys(staging, keys)|
  }

  lemma {:induction false} CountStep(g: Readiness, staging: seq<Staging>, keys: set<Key>, key: Key)
    requires CountedBy(g, staging, keys) && key !in keys
    ensures CountedBy(
      if Missing(staging, key) then g.(required := g.required + 1, missing := g.missing + 1)
      else if !Ready(staging, key) then g.(required := g.required + 1, pending := g.pending + 1)
      else g.(required := g.required + 1, ready := g.ready + 1), staging, keys + {key})
  {
    AddKey(keys, key, k => Ready(staging, k));
    AddKey(keys, key, k => Missing(staging, k));
  }

  lemma {:induction false} CountsRequired(cfg: Config, staging: seq<Staging>, layer: int, nKv: nat, n: nat)
    requires n <= |cfg.commands|
    ensures CountedBy(Gate(cfg, staging, layer, nKv, n), staging, RequiredKeys(cfg.commands, layer, nKv, n))
  {
    hide CountedBy, RequiredKeys, Missing, Ready, OverlapsView, KeySeen;
    if n == 0 {
      NothingRequired(cfg.commands, staging, layer, nKv);
    } else {
      CountsRequired(cfg, staging, layer, nKv, n - 1);
      RequiredKeysStep(cfg.commands, layer, nKv, n);
      var before, key := RequiredKeys(cfg.commands, layer, nKv, n - 1), cfg.commands[n - 1].BufferKey();
      if OverlapsView(cfg.commands[n - 1], layer, nKv) && key !in before {
        CountStep(Gate(cfg, staging, layer, nKv, n - 1), staging, before, key);
      } else {
        assert RequiredKeys(cfg.commands, layer, nKv, n) == before;
      }
    }
  }

  lemma {:induction false} NothingRequired(cs: seq<Command>, staging: seq<Staging>, layer: int, nKv: nat)
    ensures CountedBy(Readiness(0, 0, 0, 0), staging, RequiredKeys(cs, layer, nKv, 0))
  {
    assert RequiredKeys(cs, layer, nKv, 0) == {};
    assert ReadyKeys(staging, {}) == {} && MissingKeys(staging, {}) == {};
  }

  /** Each required block is counted once, as ready, missing or pending. Of a list of valid commands, the
      required blocks are those that some command brings to VRAM and that have a cell in the view. */
  lemma {:induction false} GateCounts(cfg: Config, staging: seq<Staging>, layer: int, nKv: nat, n: nat)
    requires n <= |cfg.commands|
    ensures AllValid(cfg.commands, n) ==> RequiredKeys(cfg.commands, layer, nKv, n) == NeededKeys(cfg.commands, layer, nKv, n)
    ensures var g, keys := Gate(cfg, staging, layer, nKv, n), RequiredKeys(cfg.commands, layer, nKv, n);
      && g.required == g.ready + g.missing + g.pending
      && g.required == |keys|
      && g.ready == |ReadyKeys(staging, keys)|
      && g.missing == |MissingKeys(staging, keys)|
  {
    hide AllValid, NeededKeys, RequiredKeys, Gate, ReadyKeys, MissingKeys;
    if AllValid(cfg.commands, n) {
      RequiredAreNeeded(cfg.commands, layer, nKv, n);
    }
    CountsRequired(cfg, staging, layer, nKv, n);
  }

  // ---------- the staging table never overflows ----------

  ghost function StagedKeys(staging: seq<Staging>): set<Key> {
    set i | 0 <= i < |staging| :: staging[i].key
  }

  ghost function CommandKeys(cs: seq<Command>): set<Key> {
    set i | 0 <= i < |cs| :: cs[i].BufferKey()
  }

  lemma {:induction false} CommandKeysFew(cs: seq<Command>)
    ensures |CommandKeys(cs)| <= |cs|
  {
    if cs == [] {
    } else {
      var front := cs[..|cs| - 1];
      CommandKeysFew(front);
      assert CommandKeys(cs) == CommandKeys(front) + {cs[|cs| - 1].BufferKey()};
    }
  }

  lemma {:induction false} StagedKeysDistinct(staging: seq<Staging>)
    requires forall i, j :: 0 <= i < j < |staging| ==> staging[i].key != staging[j].key
    ensures |StagedKeys(staging)| == |staging|
  {
    if staging == [] {
    } else {
      var front, last := staging[..|staging| - 1], staging[|staging| - 1];
      StagedKeysDistinct(front);
      assert StagedKeys(staging) == StagedKeys(front) + {last.key};
    }
  }

  lemma SubsetCard(a: set<Key>, b: set<Key>)
    requires a <= b
    ensures |a| <= |b|
  {
    assert b == a + (b - a);
  }

  /** A loaded list has at most as many blocks as the staging table has records, so a block that is not
      staged yet always finds room. */
  lemma {:induction false} StagingHasRoom(cfg: Config, staging: seq<Staging>, i: nat)
    requires i < |cfg.commands| <= MAX_COMMANDS && Books(cfg, staging)
    requires Find(staging, cfg.commands[i].BufferKey()).None?
    ensures |staging| < MAX_STAGING_BLOCKS
  {
    var key := cfg.commands[i].BufferKey();
    StagedKeysDistinct(staging);
    CommandKeysFew(cfg.commands);
    assert StagedKeys(staging) + {key} <= CommandKeys(cfg.commands) by {
      forall k | k in StagedKeys(staging) ensures k in CommandKeys(cfg.commands) {
        var j :| 0 <= j < |staging| && staging[j].key == k;
        assert Backed(cfg, staging[j]);
      }
    }
    assert key !in StagedKeys(staging);
    SubsetCard(StagedKeys(staging) + {key}, CommandKeys(cfg.commands));
  }

  // ---------- progress ----------

  /** Commands on in-file ranges, of the kinds that the executors know. */
  predicate TameCommand(cfg: Config, c: Command) {
    && c.size > 0 && InFile(cfg, c)
    && (c.Moves(SSD, DRAM) || c.Moves(DRAM, VRAM) || c.op.Compute? || c.EvictsToSsd())
  }

  ghost predicate EvictFree(cs: seq<Command>) {
    forall i :: 0 <= i < |cs| ==> !cs[i].EvictsToSsd()
  }

  /** Every intent of such a list can be carried out when reads and allocations succeed. */
  ghost predicate Runnable(cfg: Config) {
    && cfg.executorEnabled && cfg.seedMissing
    && |cfg.commands| <= MAX_COMMANDS && Coherent(cfg.commands)
    && forall i :: 0 <= i < |cfg.commands| ==> TameCommand(cfg, cfg.commands[i])
  }

  ghost predicate Tame(cfg: Config) {
    Runnable(cfg) && EvictFree(cfg.commands) && cfg.mutationEnabled
  }

  predicate Smooth(e: Event) {
    forall i :: 0 <= i < |e.io| ==> e.io[i] == WORKING
  }

  /** Nothing present is lost. */
  ghost predicate Retains(a: seq<Staging>, b: seq<Staging>) {
    && |a| <= |b|
    && forall j :: 0 <= j < |a| ==>
         && a[j].key == b[j].key
         && (a[j].vram.Some? ==> b[j].vram.Some?)
         && (a[j].mutated ==> b[j].mutated)
  }

  lemma {:induction false} RetainsChain(a: seq<Staging>, b: seq<Staging>, c: seq<Staging>)
    requires Retains(a, b) && Retains(b, c)
    ensures Retains(a, c)
  {
  }

  lemma RetainsReady(cfg: Config, a: seq<Staging>, b: seq<Staging>, key: Key)
    requires Books(cfg, b) && Retains(a, b)
    ensures Ready(a, key) ==> Ready(b, key)
  {
    if Ready(a, key) {
      FindUnique(cfg, b, Find(a, key).value);
    }
  }

  lemma AssignDramSucceeds(cfg: Config, s: Executor, i: nat, buffer: seq<Byte>)
    requires Runnable(cfg) && i < |cfg.commands| && Sized(s.staging) && Books(cfg, s.staging)
    requires |buffer| == cfg.commands[i].size && IsImage(cfg, cfg.commands[i], Some(buffer))
    ensures var a := AssignDram(s, cfg.commands[i], buffer);
      && a.ok && Retains(s.staging, a.exec.staging) && Books(cfg, a.exec.staging)
      && Find(a.exec.staging, cfg.commands[i].BufferKey()).Some?
      && a.exec.staging[Find(a.exec.staging, cfg.commands[i].BufferKey()).value].dram.Some?
  {
    AssignDramKeeps(cfg, s, i, buffer);
    var key := cfg.commands[i].BufferKey();
    var at := Find(s.staging, key);
    if at.Some? {
      assert Backed(cfg, s.staging[at.value]);
    } else {
      StagingHasRoom(cfg, s.staging, i);
    }
    var b := AssignDram(s, cfg.commands[i], buffer).exec.staging;
    var n := if at.Some? then at.value else |s.staging|;
    assert b[n].key == key && b[n].dram.Some?;
    FindUnique(cfg, b, n);
  }

  lemma FindUnique(cfg: Config, staging: seq<Staging>, n: nat)
    requires Books(cfg, staging) && n < |staging|
    ensures Find(staging, staging[n].key) == Some(n)
  {
    assert Find(staging, staging[n].key).Some?;
  }

  lemma AssignVramSucceeds(cfg: Config, s: Executor, i: nat, buffer: seq<Byte>)
    requires Runnable(cfg) && i < |cfg.commands| && Sized(s.staging) && Books(cfg, s.staging)
    requires |buffer| == cfg.commands[i].size && IsImage(cfg, cfg.commands[i], Some(buffer))
    ensures var a := AssignVram(s, cfg.commands[i], buffer);
      && a.ok && Retains(s.staging, a.exec.staging) && Books(cfg, a.exec.staging)
      && !Missing(a.exec.staging, cfg.commands[i].BufferKey())
  {
    AssignVramKeeps(cfg, s, i, buffer);
    var key := cfg.commands[i].BufferKey();
    var at := Find(s.staging, key);
    if at.Some? {
      assert Backed(cfg, s.staging[at.value]);
    } else {
      StagingHasRoom(cfg, s.staging, i);
    }
    var b := AssignVram(s, cfg.commands[i], buffer).exec.staging;
    var n := if at.Some? then at.value else |s.staging|;
    assert b[n].key == key && b[n].vram.Some?;
    FindUnique(cfg, b, n);
  }

  /** A working read brings the block's image and counts nothing. */
  lemma ReadSucceeds(cfg: Config, c: Command, counted: bool, ex: ExecStats)
    requires TameCommand(cfg, c)
    ensures ReadBacking(cfg, c, WORKING, counted, ex) == Loaded(Some(Image(cfg, c)), ex)
    ensures IsImage(cfg, c, Some(Image(cfg, c)))
  {
  }

  lemma EnsureDramSucceeds(cfg: Config, s: Executor, i: nat)
    requires Runnable(cfg) && i < |cfg.commands| && Sized(s.staging) && Books(cfg, s.staging)
    ensures var r := EnsureDram(cfg, s, cfg.commands[i], WORKING);
      && Retains(s.staging, r.exec.staging) && Books(cfg, r.exec.staging)
      && r.at.Some? && r.exec.staging[r.at.value].dram.Some?
      && r.exec.staging[r.at.value].key == cfg.commands[i].BufferKey()
  {
    var c := cfg.commands[i];
    assert TameCommand(cfg, c);
    ReadSucceeds(cfg, c, false, s.ex);
    AssignDramSucceeds(cfg, s, i, Image(cfg, c));
    hide ReadBacking, AssignDram, Books, TameCommand, Coherent, IsImage, Image;
  }

  lemma DramToVramSucceeds(cfg: Config, s: Executor, i: nat)
    requires Runnable(cfg) && i < |cfg.commands| && Sized(s.staging) && Books(cfg, s.staging)
    ensures var r := ExecuteDramToVram(cfg, s, cfg.commands[i], WORKING);
      Retains(s.staging, r.staging) && Books(cfg, r.staging) && !Missing(r.staging, cfg.commands[i].BufferKey())
  {
    EnsureDramSucceeds(cfg, s, i);
    var slot := EnsureDram(cfg, s, cfg.commands[i], WORKING);
    var r := slot.exec.staging[slot.at.value];
    assert BackedBy(cfg, r, cfg.commands[i]) && RecordSized(r);
    AssignVramSucceeds(cfg, slot.exec, i, r.dram.value);
    RetainsChain(s.staging, slot.exec.staging, AssignVram(slot.exec, cfg.commands[i], r.dram.value).exec.staging);
    hide EnsureDram, AssignVram, Books, Coherent, IsImage, Retains, Missing;
  }

  lemma ComputeSucceeds(cfg: Config, s: Executor, i: nat)
    requires Runnable(cfg) && i < |cfg.commands| && Sized(s.staging) && Books(cfg, s.staging)
    ensures var r := ExecuteCompute(cfg, s, cfg.commands[i], WORKING);
      Retains(s.staging, r.staging) && Books(cfg, r.staging) && !Missing(r.staging, cfg.commands[i].BufferKey())
  {
    var c := cfg.commands[i];
    assert TameCommand(cfg, c);
    ReadSucceeds(cfg, c, false, s.ex);
    AssignVramSucceeds(cfg, s, i, Image(cfg, c));
    hide ReadBacking, AssignVram, Books, TameCommand, Coherent, IsImage, Image;
  }

  lemma IntentSucceeds(cfg: Config, s: Executor, i: nat)
    requires Runnable(cfg) && i < |cfg.commands| && !cfg.commands[i].EvictsToSsd() && Sized(s.staging) && Books(cfg, s.staging)
    ensures var c := cfg.commands[i]; var r := ExecuteIntent(cfg, s, c, WORKING);
      && Retains(s.staging, r.staging) && Books(cfg, r.staging)
      && (RequiresResidency(c) ==> !Missing(r.staging, c.BufferKey()))
  {
    var c := cfg.commands[i];
    assert TameCommand(cfg, c);
    if c.Moves(SSD, DRAM) {
      ReadSucceeds(cfg, c, true, s.ex.(readAttempts := s.ex.readAttempts + 1));
      AssignDramSucceeds(cfg, s.(ex := s.ex.(readAttempts := s.ex.readAttempts + 1)), i, Image(cfg, c));
    } else if c.Moves(DRAM, VRAM) {
      DramToVramSucceeds(cfg, s, i);
    } else {
      ComputeSucceeds(cfg, s, i);
    }
    hide ReadBacking, AssignDram, Books, Coherent, IsImage, Image, ExecuteDramToVram, ExecuteCompute, Missing, Retains;
  }

  lemma MutateMarks(cfg: Config, site: Site, staging: seq<Staging>, at: nat, mu: MutationStats, t: Tensors)
    requires at < |staging| && Sized(staging) && TensorsShaped(site, t) && cfg.mutationEnabled
    requires Books(cfg, staging)
    ensures var r := Mutate(cfg, site, staging, at, mu, t).staging;
      Retains(staging, r) && Books(cfg, r) && (staging[at].vram.Some? ==> Ready(r, staging[at].key))
  {
    var r := Mutate(cfg, site, staging, at, mu, t).staging;
    assert Backed(cfg, staging[at]);
    if GateActs(cfg, staging[at]) {
      assert Marked(staging[at], site) == staging[at].(mutated := true);
      MarkKeeps(cfg, staging, at);
    }
    FindUnique(cfg, r, at);
  }

  lemma CommandServes(cfg: Config, e: Event, s: Stepped, i: nat)
    requires Tame(cfg) && Smooth(e) && i < |cfg.commands|
    requires Sized(s.state.staging) && TensorsShaped(cfg.SiteOf(e.layer), s.tensors) && Books(cfg, s.state.staging)
    ensures var r := ApplyCommand(cfg, e, s, i).state.staging;
      && Retains(s.state.staging, r) && Books(cfg, r)
      && (RequiresResidency(cfg.commands[i]) ==> Ready(r, cfg.commands[i].BufferKey()))
  {
    var c := cfg.commands[i];
    var before := Executor(s.state.staging, s.state.ex);
    assert e.IoAt(i) == WORKING;
    IntentSucceeds(cfg, before, i);
    var exec := ExecuteIntent(cfg, before, c, e.IoAt(i));
    var at := Find(exec.staging, c.BufferKey());
    if at.Some? {
      MutateMarks(cfg, cfg.SiteOf(e.layer), exec.staging, at.value, s.state.mu, s.tensors);
    }
  }

  /** The required blocks among the first `n` records that event `e` matches are ready. */
  ghost predicate ServedBy(cfg: Config, e: Event, staging: seq<Staging>, n: nat)
    requires n <= |cfg.commands|
  {
    forall i :: 0 <= i < n && Matches(cfg.commands[i], e) && RequiresResidency(cfg.commands[i])
      ==> Ready(staging, cfg.commands[i].BufferKey())
  }

  lemma {:induction false} StillServed(cfg: Config, e: Event, a: seq<Staging>, b: seq<Staging>, n: nat)
    requires n <= |cfg.commands| && ServedBy(cfg, e, a, n) && Retains(a, b) && Books(cfg, b)
    ensures ServedBy(cfg, e, b, n)
  {
    forall i | 0 <= i < n && Matches(cfg.commands[i], e) && RequiresResidency(cfg.commands[i])
      ensures Ready(b, cfg.commands[i].BufferKey())
    {
      RetainsReady(cfg, a, b, cfg.commands[i].BufferKey());
    }
  }

  ghost predicate Progress(cfg: Config, e: Event, a: seq<Staging>, b: seq<Staging>, n: nat)
    requires n <= |cfg.commands|
  {
    Retains(a, b) && Books(cfg, b) && ServedBy(cfg, e, b, n)
  }

  lemma {:induction false} ProgressStep(cfg: Config, e: Event, a: seq<Staging>, s: Stepped, n: nat)
    requires Tame(cfg) && Smooth(e) && n < |cfg.commands|
    requires Sized(s.state.staging) && TensorsShaped(cfg.SiteOf(e.layer), s.tensors)
    requires Progress(cfg, e, a, s.state.staging, n)
    ensures Progress(cfg, e, a, ApplyCommand(cfg, e, s, n).state.staging, n + 1)
  {
    var r := ApplyCommand(cfg, e, s, n).state.staging;
    CommandServes(cfg, e, s, n);
    RetainsChain(a, s.state.staging, r);
    StillServed(cfg, e, s.state.staging, r, n);
  }

  lemma {:induction false} CommandsServe(cfg: Config, e: Event, s: Stepped, n: nat)
    requires Tame(cfg) && Smooth(e) && n <= |cfg.commands|
    requires Sized(s.state.staging) && TensorsShaped(cfg.SiteOf(e.layer), s.tensors) && Books(cfg, s.state.staging)
    ensures Progress(cfg, e, s.state.staging, ApplyCommands(cfg, e, s, n).state.staging, n)
  {
    hide ApplyCommand;
    if n == 0 {
    } else {
      CommandsServe(cfg, e, s, n - 1);
      if Matches(cfg.commands[n - 1], e) {
        ProgressStep(cfg, e, s.state.staging, ApplyCommands(cfg, e, s, n - 1), n - 1);
      }
    }
  }

  ghost predicate AllServed(cfg: Config, es: seq<Event>, staging: seq<Staging>) {
    forall j :: 0 <= j < |es| ==> ServedBy(cfg, es[j], staging, |cfg.commands|)
  }

  lemma {:induction false} RunStart(cfg: Config, w: World)
    requires w.state == FRESH
    ensures Books(cfg, w.state.staging)
  {
  }

  lemma {:induction false} RunServes(cfg: Config, es: seq<Event>, w: World)
    requires Tame(cfg) && forall j :: 0 <= j < |es| ==> Smooth(es[j])
    requires WorldShaped(cfg, w) && w.state == FRESH && LayersKnown(w, es)
    ensures Books(cfg, Run(cfg, es, w).state.staging)
    ensures AllServed(cfg, es, Run(cfg, es, w).state.staging)
  {
    hide ApplyInWorld, ServedBy, Books;
    RunStart(cfg, w);
    if es == [] {
    } else {
      var front, e := es[..|es| - 1], es[|es| - 1];
      forall i | 0 <= i < |front| ensures front[i].layer in w.tensors && Smooth(front[i]) {
        assert front[i] == es[i];
      }
      RunServes(cfg, front, w);
      var p := Run(cfg, front, w);
      EventServes(cfg, e, p);
      var r := Run(cfg, es, w).state.staging;
      forall j | 0 <= j < |front| ensures ServedBy(cfg, es[j], r, |cfg.commands|) {
        assert ServedBy(cfg, front[j], p.state.staging, |cfg.commands|);
        StillServed(cfg, es[j], p.state.staging, r, |cfg.commands|);
      }
    }
  }

  lemma EventServes(cfg: Config, e: Event, w: World)
    requires Tame(cfg) && Smooth(e) && WorldShaped(cfg, w) && e.layer in w.tensors && Books(cfg, w.state.staging)
    ensures var r := ApplyInWorld(cfg, e, w).state.staging;
      Retains(w.state.staging, r) && Books(cfg, r) && ServedBy(cfg, e, r, |cfg.commands|)
  {
    hide ApplyCommands;
    CommandsServe(cfg, e, Stepped(Begin(cfg, e, w.state), w.tensors[e.layer]), |cfg.commands|);
  }

  // ---------- which blocks a run marks ----------

  /** The blocks that have had a runtime event matching one of their residency commands. */
  ghost function ServedKeys(cfg: Config, es: seq<Event>): set<Key> {
    set i, j | 0 <= i < |cfg.commands| && 0 <= j < |es| && RequiresResidency(cfg.commands[i]) && Matches(cfg.commands[i], es[j])
      :: cfg.commands[i].BufferKey()
  }

  predicate InTokens(c: Command, token: int) {
    c.start <= token < c.end
  }

  predicate InEvent(e: Event, token: int) {
    e.start <= token < e.end
  }

  /** The event is about the command's block and has a token in its interval. */
  ghost predicate Reaches(e: Event, c: Command) {
    e.layer == c.layer && e.block == c.block && exists token :: InTokens(c, token) && InEvent(e, token)
  }

  /** The match test of a valid command and a nonempty event says whether they share a token. */
  lemma {:induction false} MatchIsReach(c: Command, e: Event)
    requires ValidCommand(c) && e.start < e.end
    ensures Matches(c, e) <==> Reaches(e, c)
  {
    if Matches(c, e) {
      var token := if c.start < e.start then e.start else c.start;
      assert InTokens(c, token) && InEvent(e, token);
    }
  }

  /** The blocks that commands bring to VRAM and that an event has reached. */
  ghost function ReachedKeys(cs: seq<Command>, es: seq<Event>): set<Key> {
    set i, j | 0 <= i < |cs| && 0 <= j < |es| && cs[i].target.VRAM? && Reaches(es[j], cs[i]) :: cs[i].BufferKey()
  }

  lemma {:induction false} ServedAreReached(cfg: Config, es: seq<Event>)
    requires AllValid(cfg.commands, |cfg.commands|) && forall j :: 0 <= j < |es| ==> es[j].start < es[j].end
    ensures ServedKeys(cfg, es) == ReachedKeys(cfg.commands, es)
  {
    forall i, j | 0 <= i < |cfg.commands| && 0 <= j < |es| ensures Matches(cfg.commands[i], es[j]) <==> Reaches(es[j], cfg.commands[i]) {
      MatchIsReach(cfg.commands[i], es[j]);
    }
    hide Matches, Reaches;
  }

  /** Only these blocks have been brought to VRAM or marked. */
  ghost predicate OnlyThese(staging: seq<Staging>, keys: set<Key>) {
    forall j :: 0 <= j < |staging| && (staging[j].vram.Some? || staging[j].mutated) ==> staging[j].key in keys
  }

  lemma {:induction false} AssignOnly(s: Executor, c: Command, buffer: seq<Byte>, keys: set<Key>)
    requires Sized(s.staging) && |buffer| == c.size && OnlyThese(s.staging, keys)
    ensures OnlyThese(AssignDram(s, c, buffer).exec.staging, keys)
    ensures c.BufferKey() in keys ==> OnlyThese(AssignVram(s, c, buffer).exec.staging, keys)
  {
    hide InferRow;
  }

  lemma {:induction false} EnsureOnly(cfg: Config, s: Executor, c: Command, io: Io, keys: set<Key>)
    requires Sized(s.staging) && OnlyThese(s.staging, keys)
    ensures OnlyThese(EnsureDram(cfg, s, c, io).exec.staging, keys)
    ensures c.BufferKey() in keys ==> OnlyThese(EnsureVram(cfg, s, c, io).exec.staging, keys)
  {
    var loaded := ReadBacking(cfg, c, io, false, s.ex);
    if loaded.buffer.Some? {
      AssignOnly(s.(ex := loaded.ex), c, loaded.buffer.value, keys);
    }
    hide AssignDram, AssignVram;
  }

  lemma {:induction false} IntentOnly(cfg: Config, s: Executor, c: Command, io: Io, keys: set<Key>)
    requires Sized(s.staging) && OnlyThese(s.staging, keys) && (RequiresResidency(c) ==> c.BufferKey() in keys)
    ensures OnlyThese(ExecuteIntent(cfg, s, c, io).staging, keys)
  {
    match IntentOf(c)
    case SsdRead =>
      var loaded := ReadBacking(cfg, c, io, true, s.ex.(readAttempts := s.ex.readAttempts + 1));
      if loaded.buffer.Some? {
        AssignOnly(s.(ex := loaded.ex), c, loaded.buffer.value, keys);
      }
    case DramToVram =>
      EnsureOnly(cfg, s, c, io, keys);
      var e := EnsureDram(cfg, s, c, io);
      hide EnsureDram;
      if e.at.Some? && e.exec.staging[e.at.value].dram.Some? && e.exec.staging[e.at.value].size == c.size {
        AssignOnly(e.exec, c, e.exec.staging[e.at.value].dram.value, keys);
      }
    case ComputeResident => EnsureOnly(cfg, s, c, io, keys);
    case SsdWrite =>
    case Metadata =>
  }

  lemma {:induction false} CommandOnly(cfg: Config, e: Event, s: Stepped, i: nat, keys: set<Key>)
    requires i < |cfg.commands| && Sized(s.state.staging) && TensorsShaped(cfg.SiteOf(e.layer), s.tensors)
    requires OnlyThese(s.state.staging, keys) && (RequiresResidency(cfg.commands[i]) ==> cfg.commands[i].BufferKey() in keys)
    ensures OnlyThese(ApplyCommand(cfg, e, s, i).state.staging, keys)
  {
    IntentOnly(cfg, Executor(s.state.staging, s.state.ex), cfg.commands[i], e.IoAt(i), keys);
    hide ExecuteIntent, Transition, VerdictOn, CountCopied, CountRefused, WriteKeys, WriteValues;
  }

  /** `keys` includes every block that the event serves with its first `n` records. */
  ghost predicate AllServedIn(cfg: Config, e: Event, n: nat, keys: set<Key>)
    requires n <= |cfg.commands|
  {
    forall i :: 0 <= i < n && RequiresResidency(cfg.commands[i]) && Matches(cfg.commands[i], e) ==> cfg.commands[i].BufferKey() in keys
  }

  lemma {:induction false} CommandsOnly(cfg: Config, e: Event, s: Stepped, n: nat, keys: set<Key>)
    requires n <= |cfg.commands| && Sized(s.state.staging) && TensorsShaped(cfg.SiteOf(e.layer), s.tensors)
    requires OnlyThese(s.state.staging, keys)
    requires AllServedIn(cfg, e, n, keys)
    ensures OnlyThese(ApplyCommands(cfg, e, s, n).state.staging, keys)
  {
    hide ApplyCommand, OnlyThese;
    if n == 0 {
    } else {
      CommandsOnly(cfg, e, s, n - 1, keys);
      if Matches(cfg.commands[n - 1], e) {
        CommandOnly(cfg, e, ApplyCommands(cfg, e, s, n - 1), n - 1, keys);
      }
    }
  }

  lemma {:induction false} EventOnly(cfg: Config, e: Event, w: World, keys: set<Key>)
    requires WorldShaped(cfg, w) && e.layer in w.tensors && OnlyThese(w.state.staging, keys)
    requires AllServedIn(cfg, e, |cfg.commands|, keys)
    ensures OnlyThese(ApplyInWorld(cfg, e, w).state.staging, keys)
  {
    hide ApplyCommands, OnlyThese;
    CommandsOnly(cfg, e, Stepped(Begin(cfg, e, w.state), w.tensors[e.layer]), |cfg.commands|, keys);
  }

  /** Over any run, with failures anywhere, only blocks that have had their event are marked. */
  lemma {:induction false} RunOnly(cfg: Config, es: seq<Event>, w: World)
    requires WorldShaped(cfg, w) && w.state == FRESH && LayersKnown(w, es)
    ensures OnlyThese(Run(cfg, es, w).state.staging, ServedKeys(cfg, es))
  {
    if es == [] {
    } else {
      var front, e := es[..|es| - 1], es[|es| - 1];
      forall i | 0 <= i < |front| ensures front[i].layer in w.tensors {
        assert front[i] == es[i];
      }
      RunOnly(cfg, front, w);
      assert OnlyThese(Run(cfg, front, w).state.staging, ServedKeys(cfg, es)) by {
        assert ServedKeys(cfg, front) <= ServedKeys(cfg, es);
        hide Run;
      }
      hide ApplyInWorld, OnlyThese;
      EventOnly(cfg, e, Run(cfg, front, w), ServedKeys(cfg, es));
    }
  }

  /** A block that has had its event is ready. */
  lemma {:induction false} ServedAreReady(cfg: Config, es: seq<Event>, w: World, key: Key)
    requires Tame(cfg) && forall j :: 0 <= j < |es| ==> Smooth(es[j])
    requires WorldShaped(cfg, w) && w.state == FRESH && LayersKnown(w, es) && key in ServedKeys(cfg, es)
    ensures Ready(Run(cfg, es, w).state.staging, key)
  {
    RunServes(cfg, es, w);
    var i, j :| 0 <= i < |cfg.commands| && 0 <= j < |es| && RequiresResidency(cfg.commands[i]) &&
      Matches(cfg.commands[i], es[j]) && cfg.commands[i].BufferKey() == key;
    hide Run, Tame, Smooth, WorldShaped, LayersKnown;
    assert ServedBy(cfg, es[j], Run(cfg, es, w).state.staging, |cfg.commands|);
  }

  /** On an evict-free stream without failures exactly the blocks that have had their event are marked. */
  lemma {:induction false} MarkedAreServed(cfg: Config, es: seq<Event>, w: World)
    requires Tame(cfg) && forall j :: 0 <= j < |es| ==> Smooth(es[j])
    requires WorldShaped(cfg, w) && w.state == FRESH && LayersKnown(w, es)
    ensures MarkedKeys(Run(cfg, es, w).state.staging) == ServedKeys(cfg, es)
  {
    RunOnly(cfg, es, w);
    var staging := Run(cfg, es, w).state.staging;
    hide Run, Tame, Smooth, WorldShaped, LayersKnown, ServedKeys;
    forall k | k in ServedKeys(cfg, es) ensures k in MarkedKeys(staging) {
      ServedAreReady(cfg, es, w, k);
      assert staging[Find(staging, k).value].mutated;
    }
  }

  /** The exact law with a condition known before the run: on an evict-free stream without failures, the
      blocks of a layer that have had their event are all in place if and only if they are accepted and
      agree on the cells they share. */
  lemma {:induction false} ServedInPlaceIff(cfg: Config, es: seq<Event>, w: World, layer: int)
    requires Tame(cfg) && forall j :: 0 <= j < |es| ==> Smooth(es[j])
    requires WorldShaped(cfg, w) && w.state == FRESH && LayersKnown(w, es) && layer in w.tensors
    ensures MarkedInPlace(cfg, ServedKeys(cfg, es), layer, Run(cfg, es, w).tensors[layer]) <==> MarkedAgree(cfg, ServedKeys(cfg, es), layer)
  {
    hide Run, Smooth, WorldShaped, LayersKnown, MarkedInPlace, MarkedAgree, ServedKeys, MarkedKeys, Coherent;
    MarkedAreServed(cfg, es, w);
    MarkedInPlaceIff(cfg, es, w, layer);
  }

  // ---------- completeness ----------

  lemma {:induction false} AllReadyCounts(staging: seq<Staging>, keys: set<Key>)
    requires ReadyKeys(staging, keys) == keys
    ensures |MissingKeys(staging, keys)| == 0
  {
    forall k | k in keys ensures !Missing(staging, k) {
      assert k in ReadyKeys(staging, keys);
    }
    assert MissingKeys(staging, keys) == {};
  }

  /** Gate completeness: once every required block has had its event, every later gate call of the layer
      reports nothing missing and nothing pending. */
  lemma GateCompletes(cfg: Config, es: seq<Event>, w: World, layer: int, nKv: nat)
    requires Tame(cfg) && forall j :: 0 <= j < |es| ==> Smooth(es[j])
    requires WorldShaped(cfg, w) && w.state == FRESH && LayersKnown(w, es)
    requires forall k :: k in RequiredKeys(cfg.commands, layer, nKv, |cfg.commands|) ==> k in ServedKeys(cfg, es)
    ensures var g := Gate(cfg, Run(cfg, es, w).state.staging, layer, nKv, |cfg.commands|);
      g.missing == 0 && g.pending == 0 && g.ready == g.required
  {
    var staging := Run(cfg, es, w).state.staging;
    var keys := RequiredKeys(cfg.commands, layer, nKv, |cfg.commands|);
    hide Run, Tame, Smooth, WorldShaped, LayersKnown, ServedKeys, RequiredKeys, Gate, Ready;
    forall k | k in keys ensures Ready(staging, k) {
      ServedAreReady(cfg, es, w, k);
    }
    assert ReadyKeys(staging, keys) == keys;
    GateCounts(cfg, staging, layer, nKv, |cfg.commands|);
    AllReadyCounts(staging, keys);
  }
}
