/** The bridge's staging executor keeps the common ledger: over any sequence of runtime events its reads,
    copies, computes, lazy seeds, evicts and resident blocks are those of the commands the events matched,
    and its only faults are the evicts in vain.
 */
module BridgeLedger {
  import opened Kv
  import opened BridgeModel
  import opened StagingBooks
  import opened GateCompleteness
  import TG = TensorGate
  import SC = ShadowChains
  import L = Ledger

  function InDram(staging: seq<Staging>): set<BlockKey> {
    set i | 0 <= i < |staging| && staging[i].dram.Some? :: PlanKeyOf(staging[i].key)
  }

  function InVram(staging: seq<Staging>): set<BlockKey> {
    set i | 0 <= i < |staging| && staging[i].vram.Some? :: PlanKeyOf(staging[i].key)
  }

  function Abstract(staging: seq<Staging>, ex: ExecStats): L.Ledger {
    L.Ledger(ex.ssdReads, ex.readBytes, ex.copies, ex.copyBytes, ex.computes, ex.lazySeeds, ex.lazySeedBytes,
             InDram(staging), InVram(staging))
  }

  function Faults(ex: ExecStats): nat {
    ex.readErrors + ex.openErrors + ex.seekErrors + ex.backendErrors + ex.allocErrors + ex.shortReads + ex.missingSources + ex.sizeMismatches +
    ex.overflows
  }

  // ---------- the commands that the events execute ----------

  /** The commands executed by a sequence of events, in order: a command recurs with every event it matches. */
  function Executed(cs: seq<Command>, es: seq<Event>): seq<Command> {
    if es == [] then [] else Executed(cs, es[..|es| - 1]) + SC.Matched(cs, es[|es| - 1])
  }

  lemma {:induction false} MatchedMember(cs: seq<Command>, e: Event, i: nat)
    requires i < |SC.Matched(cs, e)|
    ensures exists k :: 0 <= k < |cs| && cs[k] == SC.Matched(cs, e)[i] && Matches(cs[k], e)
  {
    var n := |cs| - 1;
    if i < |SC.Matched(cs[..n], e)| {
      MatchedMember(cs[..n], e, i);
      var k :| 0 <= k < n && cs[..n][k] == SC.Matched(cs[..n], e)[i] && Matches(cs[..n][k], e);
      assert cs[k] == SC.Matched(cs, e)[i];
    } else {
      assert cs[n] == SC.Matched(cs, e)[i];
    }
  }

  lemma {:induction false} ExecutedMember(cs: seq<Command>, es: seq<Event>, i: nat)
    requires i < |Executed(cs, es)|
    ensures exists k :: 0 <= k < |cs| && cs[k] == Executed(cs, es)[i]
  {
    var front := Executed(cs, es[..|es| - 1]);
    if i < |front| {
      ExecutedMember(cs, es[..|es| - 1], i);
    } else {
      MatchedMember(cs, es[|es| - 1], i - |front|);
    }
  }

  /** Repeating commands event by event keeps a stream consistent, its ranges apart, and its kinds. */
  lemma {:induction false} ExecutedKeeps(cs: seq<Command>, es: seq<Event>)
    ensures Consistent(cs) ==> Consistent(Executed(cs, es))
    ensures RangesApart(cs) ==> RangesApart(Executed(cs, es))
    ensures L.AllSimple(cs) ==> L.AllSimple(Executed(cs, es))
  {
    var x := Executed(cs, es);
    forall i | 0 <= i < |x| ensures exists k :: 0 <= k < |cs| && cs[k] == x[i] {
      ExecutedMember(cs, es, i);
    }
    hide Executed, L.Simple;
  }

  // ---------- residency of one block ----------

  ghost predicate Kept(cfg: Config, staging: seq<Staging>) {
    Sized(staging) && Books(cfg, staging)
  }

  lemma {:induction false} SamePlanKey(cfg: Config, staging: seq<Staging>, i: nat, j: nat)
    requires Consistent(cfg.commands) && Books(cfg, staging) && i < |cfg.commands| && j < |staging|
    requires PlanKeyOf(staging[j].key) == cfg.commands[i].PlanKey()
    ensures staging[j].key == cfg.commands[i].BufferKey()
  {
    assert Backed(cfg, staging[j]);
    var k :| 0 <= k < |cfg.commands| && cfg.commands[k].BufferKey() == staging[j].key;
    assert cfg.commands[k].PlanKey() == cfg.commands[i].PlanKey();
  }

  lemma {:induction false} ResidentIff(cfg: Config, staging: seq<Staging>, i: nat)
    requires Consistent(cfg.commands) && Books(cfg, staging) && i < |cfg.commands|
    ensures var c, at := cfg.commands[i], Find(staging, cfg.commands[i].BufferKey());
      && (c.PlanKey() in InDram(staging) <==> at.Some? && staging[at.value].dram.Some?)
      && (c.PlanKey() in InVram(staging) <==> at.Some? && staging[at.value].vram.Some?)
  {
    var c := cfg.commands[i];
    var at := Find(staging, c.BufferKey());
    forall j | 0 <= j < |staging| && PlanKeyOf(staging[j].key) == c.PlanKey() ensures at == Some(j) {
      SamePlanKey(cfg, staging, i, j);
      FindUnique(cfg, staging, j);
    }
    hide Books;
    if at.Some? {
      assert PlanKeyOf(staging[at.value].key) == c.PlanKey();
    }
  }

  /** Replacing or adding one record changes the residency of its own block only. */
  lemma {:induction false} PutResident(cfg: Config, a: seq<Staging>, b: seq<Staging>, at: nat, i: nat)
    requires Consistent(cfg.commands) && Books(cfg, a) && Books(cfg, b) && i < |cfg.commands| && at < |b|
    requires b[at].key == cfg.commands[i].BufferKey()
    requires (at < |a| == |b| && a[at].key == b[at].key) || (at == |a| && |b| == |a| + 1)
    requires forall j :: 0 <= j < |a| && j != at ==> b[j] == a[j]
    requires at < |a| ==> (a[at].dram.Some? ==> b[at].dram.Some?) && (a[at].vram.Some? ==> b[at].vram.Some?)
    ensures InDram(b) == InDram(a) + if b[at].dram.Some? then {cfg.commands[i].PlanKey()} else {}
    ensures InVram(b) == InVram(a) + if b[at].vram.Some? then {cfg.commands[i].PlanKey()} else {}
  {
    hide Books;
    var own := cfg.commands[i].PlanKey();
    assert PlanKeyOf(b[at].key) == own;
    var dram := InDram(a) + if b[at].dram.Some? then {own} else {};
    forall k ensures k in InDram(b) <==> k in dram {
      if k in InDram(a) {
        var j :| 0 <= j < |a| && a[j].dram.Some? && PlanKeyOf(a[j].key) == k;
        assert b[j].dram.Some? && PlanKeyOf(b[j].key) == k;
      }
      if k in InDram(b) {
        var j :| 0 <= j < |b| && b[j].dram.Some? && PlanKeyOf(b[j].key) == k;
        if j != at {
          assert a[j].dram.Some? && PlanKeyOf(a[j].key) == k;
        }
      }
    }
    var vram := InVram(a) + if b[at].vram.Some? then {own} else {};
    forall k ensures k in InVram(b) <==> k in vram {
      if k in InVram(a) {
        var j :| 0 <= j < |a| && a[j].vram.Some? && PlanKeyOf(a[j].key) == k;
        assert b[j].vram.Some? && PlanKeyOf(b[j].key) == k;
      }
      if k in InVram(b) {
        var j :| 0 <= j < |b| && b[j].vram.Some? && PlanKeyOf(b[j].key) == k;
        if j != at {
          assert a[j].vram.Some? && PlanKeyOf(a[j].key) == k;
        }
      }
    }
  }

  // ---------- one intent ----------

  lemma {:induction false} AssignDramResident(cfg: Config, s: Executor, i: nat, buffer: seq<Byte>)
    requires Runnable(cfg) && Consistent(cfg.commands) && i < |cfg.commands| && Kept(cfg, s.staging)
    requires |buffer| == cfg.commands[i].size && IsImage(cfg, cfg.commands[i], Some(buffer))
    ensures var a := AssignDram(s, cfg.commands[i], buffer);
      && a.ok && a.exec.ex == s.ex && Kept(cfg, a.exec.staging)
      && InDram(a.exec.staging) == InDram(s.staging) + {cfg.commands[i].PlanKey()}
      && InVram(a.exec.staging) == InVram(s.staging)
  {
    hide Books, Coherent, Consistent, InDram, InVram, IsImage, TameCommand, InferRow;
    AssignDramSucceeds(cfg, s, i, buffer);
    var a := AssignDram(s, cfg.commands[i], buffer);
    var at := FindOrCreate(s, cfg.commands[i]).at.value;
    PutResident(cfg, s.staging, a.exec.staging, at, i);
    ResidentIff(cfg, s.staging, i);
  }

  lemma {:induction false} AssignVramResident(cfg: Config, s: Executor, i: nat, buffer: seq<Byte>)
    requires Runnable(cfg) && Consistent(cfg.commands) && i < |cfg.commands| && Kept(cfg, s.staging)
    requires |buffer| == cfg.commands[i].size && IsImage(cfg, cfg.commands[i], Some(buffer))
    ensures var a := AssignVram(s, cfg.commands[i], buffer);
      && a.ok && a.exec.ex == s.ex && Kept(cfg, a.exec.staging)
      && InVram(a.exec.staging) == InVram(s.staging) + {cfg.commands[i].PlanKey()}
      && InDram(a.exec.staging) == InDram(s.staging)
  {
    hide Books, Coherent, Consistent, InDram, InVram, IsImage, TameCommand, InferRow;
    AssignVramSucceeds(cfg, s, i, buffer);
    var a := AssignVram(s, cfg.commands[i], buffer);
    var at := FindOrCreate(s, cfg.commands[i]).at.value;
    PutResident(cfg, s.staging, a.exec.staging, at, i);
    ResidentIff(cfg, s.staging, i);
  }

  /** What one intent owes to the run. */
  ghost predicate Follows(cfg: Config, s: Executor, c: Command, r: Executor) {
    && Kept(cfg, r.staging) && Faults(r.ex) == Faults(s.ex) && r.ex.missingSources == s.ex.missingSources
    && r.ex.evicts == s.ex.evicts && r.ex.evictBytes == s.ex.evictBytes
    && Abstract(r.staging, r.ex) == L.Step(Abstract(s.staging, s.ex), c)
  }

  lemma {:induction false} ReadFollows(cfg: Config, s: Executor, i: nat)
    requires Runnable(cfg) && Consistent(cfg.commands) && i < |cfg.commands| && Kept(cfg, s.staging)
    requires cfg.commands[i].Moves(SSD, DRAM)
    ensures Follows(cfg, s, cfg.commands[i], ExecuteIntent(cfg, s, cfg.commands[i], WORKING))
  {
    var c := cfg.commands[i];
    assert TameCommand(cfg, c);
    ReadSucceeds(cfg, c, true, s.ex.(readAttempts := s.ex.readAttempts + 1));
    AssignDramResident(cfg, s.(ex := s.ex.(readAttempts := s.ex.readAttempts + 1)), i, Image(cfg, c));
    hide AssignDram, ReadBacking, InDram, InVram, Kept, Consistent, Runnable, TameCommand, IsImage, Image;
  }

  lemma {:induction false} EnsureDramResident(cfg: Config, s: Executor, i: nat)
    requires Runnable(cfg) && Consistent(cfg.commands) && i < |cfg.commands| && Kept(cfg, s.staging)
    ensures var r := EnsureDram(cfg, s, cfg.commands[i], WORKING); var key := cfg.commands[i].PlanKey();
      && Kept(cfg, r.exec.staging)
      && InDram(r.exec.staging) == InDram(s.staging) + {key} && InVram(r.exec.staging) == InVram(s.staging)
      && r.exec.ex == (if key in InDram(s.staging) then s.ex else CountSeed(s, cfg.commands[i]).ex)
  {
    var c := cfg.commands[i];
    assert TameCommand(cfg, c);
    ResidentIff(cfg, s.staging, i);
    if c.PlanKey() in InDram(s.staging) {
      hide InDram, InVram, Kept, Consistent, Runnable, TameCommand, Find, ReadBacking, AssignDram;
      assert InDram(s.staging) + {c.PlanKey()} == InDram(s.staging);
    } else {
      ReadSucceeds(cfg, c, false, s.ex);
      AssignDramResident(cfg, s, i, Image(cfg, c));
      hide AssignDram, ReadBacking, Find, InDram, InVram, Kept, Consistent, Runnable, TameCommand, IsImage, Image;
    }
  }

  /** After a successful search for the source, its record holds the block's whole image. */
  lemma {:induction false} DramSource(cfg: Config, s: Executor, i: nat)
    requires Runnable(cfg) && i < |cfg.commands| && Kept(cfg, s.staging)
    ensures var r := EnsureDram(cfg, s, cfg.commands[i], WORKING);
      && r.at.Some? && r.exec.staging[r.at.value].dram.Some? && r.exec.staging[r.at.value].size == cfg.commands[i].size
      && |r.exec.staging[r.at.value].dram.value| == cfg.commands[i].size
      && IsImage(cfg, cfg.commands[i], r.exec.staging[r.at.value].dram)
  {
    EnsureDramSucceeds(cfg, s, i);
    var slot := EnsureDram(cfg, s, cfg.commands[i], WORKING);
    hide EnsureDram;
    var r := slot.exec.staging[slot.at.value];
    assert Backed(cfg, r) && RecordSized(r);
  }

  lemma {:induction false} CopyFollows(cfg: Config, s: Executor, i: nat)
    requires Runnable(cfg) && Consistent(cfg.commands) && i < |cfg.commands| && Kept(cfg, s.staging)
    requires cfg.commands[i].Moves(DRAM, VRAM)
    ensures Follows(cfg, s, cfg.commands[i], ExecuteIntent(cfg, s, cfg.commands[i], WORKING))
  {
    hide EnsureDram, AssignVram, InDram, InVram, Books, Consistent, Coherent, TameCommand, IsImage;
    DramSource(cfg, s, i);
    EnsureDramResident(cfg, s, i);
    var slot := EnsureDram(cfg, s, cfg.commands[i], WORKING);
    AssignVramResident(cfg, slot.exec, i, slot.exec.staging[slot.at.value].dram.value);
    hide Kept;
  }

  lemma {:induction false} EnsureVramResident(cfg: Config, s: Executor, i: nat)
    requires Runnable(cfg) && Consistent(cfg.commands) && i < |cfg.commands| && Kept(cfg, s.staging)
    ensures var r := EnsureVram(cfg, s, cfg.commands[i], WORKING); var key := cfg.commands[i].PlanKey();
      && Kept(cfg, r.exec.staging)
      && InVram(r.exec.staging) == InVram(s.staging) + {key} && InDram(r.exec.staging) == InDram(s.staging)
      && r.exec.ex == (if key in InVram(s.staging) then s.ex else CountSeed(s, cfg.commands[i]).ex)
  {
    var c := cfg.commands[i];
    assert TameCommand(cfg, c);
    ResidentIff(cfg, s.staging, i);
    if c.PlanKey() in InVram(s.staging) {
      hide InDram, InVram, Kept, Consistent, Runnable, TameCommand, Find, ReadBacking, AssignVram;
      assert InVram(s.staging) + {c.PlanKey()} == InVram(s.staging);
    } else {
      ReadSucceeds(cfg, c, false, s.ex);
      AssignVramResident(cfg, s, i, Image(cfg, c));
      hide AssignVram, ReadBacking, Find, InDram, InVram, Kept, Consistent, Runnable, TameCommand, IsImage, Image;
    }
  }

  lemma {:induction false} VramSource(cfg: Config, s: Executor, i: nat)
    requires Runnable(cfg) && i < |cfg.commands| && Kept(cfg, s.staging)
    ensures var r := EnsureVram(cfg, s, cfg.commands[i], WORKING);
      && r.at.Some? && r.exec.staging[r.at.value].vram.Some? && r.exec.staging[r.at.value].size == cfg.commands[i].size
  {
    var c := cfg.commands[i];
    assert TameCommand(cfg, c);
    var at := Find(s.staging, c.BufferKey());
    if at.Some? {
      assert Backed(cfg, s.staging[at.value]);
    }
    ReadSucceeds(cfg, c, false, s.ex);
    AssignVramSucceeds(cfg, s, i, Image(cfg, c));
    var slot := EnsureVram(cfg, s, c, WORKING);
    hide EnsureVram, AssignVram, Coherent;
    assert Backed(cfg, slot.exec.staging[slot.at.value]);
  }

  lemma {:induction false} ComputeFollows(cfg: Config, s: Executor, i: nat)
    requires Runnable(cfg) && Consistent(cfg.commands) && i < |cfg.commands| && Kept(cfg, s.staging)
    requires cfg.commands[i].op.Compute?
    ensures Follows(cfg, s, cfg.commands[i], ExecuteIntent(cfg, s, cfg.commands[i], WORKING))
  {
    hide EnsureVram, InDram, InVram, Books, Consistent, Coherent, TameCommand, IsImage;
    VramSource(cfg, s, i);
    EnsureVramResident(cfg, s, i);
    hide Kept;
  }

  // ---------- evicts ----------

  /** The block has no other record. */
  ghost predicate OnlyAt(staging: seq<Staging>, at: nat, key: BlockKey) {
    at < |staging| && forall j :: 0 <= j < |staging| ==> (PlanKeyOf(staging[j].key) == key <==> j == at)
  }

  lemma {:induction false} RecordIsOnly(cfg: Config, staging: seq<Staging>, at: nat, i: nat)
    requires Consistent(cfg.commands) && Books(cfg, staging) && i < |cfg.commands| && at < |staging|
    requires staging[at].key == cfg.commands[i].BufferKey()
    ensures OnlyAt(staging, at, cfg.commands[i].PlanKey())
  {
    forall j | 0 <= j < |staging| && PlanKeyOf(staging[j].key) == cfg.commands[i].PlanKey() ensures j == at {
      SamePlanKey(cfg, staging, i, j);
      FindUnique(cfg, staging, j);
      FindUnique(cfg, staging, at);
    }
  }

  lemma {:induction false} DropVram(a: seq<Staging>, at: nat, key: BlockKey)
    requires OnlyAt(a, at, key)
    ensures var b := a[at := a[at].(vram := None)]; InVram(b) == InVram(a) - {key} && InDram(b) == InDram(a)
  {
    var b := a[at := a[at].(vram := None)];
    forall k ensures k in InVram(b) <==> k in InVram(a) - {key} {
      if k in InVram(a) && k != key {
        var j :| 0 <= j < |a| && a[j].vram.Some? && PlanKeyOf(a[j].key) == k;
        assert b[j] == a[j];
      }
      if k in InVram(b) {
        var j :| 0 <= j < |b| && b[j].vram.Some? && PlanKeyOf(b[j].key) == k;
        assert j != at && b[j] == a[j];
      }
    }
    SameDram(a, b);
  }

  lemma {:induction false} DropDram(a: seq<Staging>, at: nat, key: BlockKey)
    requires OnlyAt(a, at, key)
    ensures var b := a[at := a[at].(dram := None)]; InDram(b) == InDram(a) - {key} && InVram(b) == InVram(a)
  {
    var b := a[at := a[at].(dram := None)];
    forall k ensures k in InDram(b) <==> k in InDram(a) - {key} {
      if k in InDram(a) && k != key {
        var j :| 0 <= j < |a| && a[j].dram.Some? && PlanKeyOf(a[j].key) == k;
        assert b[j] == a[j];
      }
      if k in InDram(b) {
        var j :| 0 <= j < |b| && b[j].dram.Some? && PlanKeyOf(b[j].key) == k;
        assert j != at && b[j] == a[j];
      }
    }
    SameVram(a, b);
  }

  lemma {:induction false} SameDram(a: seq<Staging>, b: seq<Staging>)
    requires |a| == |b| && forall j :: 0 <= j < |a| ==> a[j].key == b[j].key && a[j].dram == b[j].dram
    ensures InDram(a) == InDram(b)
  {
  }

  lemma {:induction false} SameVram(a: seq<Staging>, b: seq<Staging>)
    requires |a| == |b| && forall j :: 0 <= j < |a| ==> a[j].key == b[j].key && a[j].vram == b[j].vram
    ensures InVram(a) == InVram(b)
  {
  }

  /** An evict frees the block's VRAM buffer, else its DRAM buffer, else it counts a missing source. */
  lemma {:induction false} EvictFollows(cfg: Config, s: Executor, i: nat)
    requires Runnable(cfg) && Consistent(cfg.commands) && i < |cfg.commands| && Kept(cfg, s.staging)
    ensures var c := cfg.commands[i]; var r, l := ExecuteEvict(s, c), Abstract(s.staging, s.ex);
      && Kept(cfg, r.staging)
      && (if L.Resident(l, c.PlanKey()) then
            && Abstract(r.staging, r.ex) == L.Free(l, c.PlanKey())
            && r.ex == s.ex.(evicts := s.ex.evicts + 1, evictBytes := s.ex.evictBytes + c.size)
          else r == CountMissing(s))
  {
    var c := cfg.commands[i];
    EvictKeeps(cfg, s, i);
    ResidentIff(cfg, s.staging, i);
    var at := Find(s.staging, c.BufferKey());
    if at.Some? {
      RecordIsOnly(cfg, s.staging, at.value, i);
      DropVram(s.staging, at.value, c.PlanKey());
      DropDram(s.staging, at.value, c.PlanKey());
    }
    hide InDram, InVram, Books, Consistent, Runnable, Find, OnlyAt;
  }

  /** The mutation gate moves no buffer. */
  lemma {:induction false} MutateMovesNothing(cfg: Config, site: TG.Site, staging: seq<Staging>, at: nat, mu: MutationStats, t: Tensors)
    requires at < |staging| && Sized(staging) && TensorsShaped(site, t) && Books(cfg, staging)
    ensures var r := Mutate(cfg, site, staging, at, mu, t).staging;
      Books(cfg, r) && InDram(r) == InDram(staging) && InVram(r) == InVram(staging)
  {
    var r := Mutate(cfg, site, staging, at, mu, t).staging;
    assert Backed(cfg, staging[at]);
    if GateActs(cfg, staging[at]) {
      assert Marked(staging[at], site) == staging[at].(mutated := true);
      MarkKeeps(cfg, staging, at);
    }
    assert forall j :: 0 <= j < |r| ==> r[j].key == staging[j].key && r[j].dram == staging[j].dram && r[j].vram == staging[j].vram;
    hide Books, Mutate;
  }

  /** The table and the counters show the account of what was executed: every fault is an evict in vain. */
  ghost predicate Shows(cfg: Config, staging: seq<Staging>, ex: ExecStats, a: L.Account) {
    && Kept(cfg, staging) && Abstract(staging, ex) == a.ledger
    && ex.evicts == a.evicts && ex.evictBytes == a.evictBytes && ex.missingSources == a.vain && Faults(ex) == a.vain
  }

  lemma {:induction false} IntentShows(cfg: Config, s: Executor, i: nat, a: L.Account)
    requires Runnable(cfg) && Consistent(cfg.commands) && i < |cfg.commands| && Shows(cfg, s.staging, s.ex, a)
    ensures var r := ExecuteIntent(cfg, s, cfg.commands[i], WORKING);
      Shows(cfg, r.staging, r.ex, L.Settle(a, cfg.commands[i]))
  {
    var c := cfg.commands[i];
    assert TameCommand(cfg, c);
    hide InDram, InVram, L.Step, Kept, Consistent, Runnable, L.Free, L.Resident;
    if c.Moves(SSD, DRAM) {
      ReadFollows(cfg, s, i);
    } else if c.Moves(DRAM, VRAM) {
      CopyFollows(cfg, s, i);
    } else if c.op.Compute? {
      ComputeFollows(cfg, s, i);
    } else {
      EvictFollows(cfg, s, i);
    }
    hide ExecuteSsdRead, ExecuteDramToVram, ExecuteCompute, ExecuteEvict, TameCommand;
  }

  lemma {:induction false} CommandShows(cfg: Config, e: Event, s: Stepped, i: nat, a: L.Account)
    requires Runnable(cfg) && Consistent(cfg.commands) && Smooth(e) && i < |cfg.commands|
    requires Shows(cfg, s.state.staging, s.state.ex, a) && TensorsShaped(cfg.SiteOf(e.layer), s.tensors)
    ensures var r := ApplyCommand(cfg, e, s, i).state;
      Shows(cfg, r.staging, r.ex, L.Settle(a, cfg.commands[i]))
  {
    var c := cfg.commands[i];
    var before := Executor(s.state.staging, s.state.ex);
    assert e.IoAt(i) == WORKING;
    IntentShows(cfg, before, i, a);
    var exec := ExecuteIntent(cfg, before, c, e.IoAt(i));
    var at := Find(exec.staging, c.BufferKey());
    if at.Some? {
      MutateMovesNothing(cfg, cfg.SiteOf(e.layer), exec.staging, at.value, s.state.mu, s.tensors);
    }
    hide ExecuteIntent, Mutate, InDram, InVram, L.Settle, Books, Transition;
  }

  lemma {:induction false} CommandsShow(cfg: Config, e: Event, s: Stepped, n: nat, a: L.Account)
    requires Runnable(cfg) && Consistent(cfg.commands) && Smooth(e) && n <= |cfg.commands|
    requires Shows(cfg, s.state.staging, s.state.ex, a) && TensorsShaped(cfg.SiteOf(e.layer), s.tensors)
    ensures var r := ApplyCommands(cfg, e, s, n).state;
      Shows(cfg, r.staging, r.ex, L.SettleAll(a, SC.Matched(cfg.commands[..n], e)))
  {
    hide ApplyCommand, Runnable, Smooth, Consistent, L.Settle, Abstract, Faults;
    if n == 0 {
    } else {
      SC.MatchedFrom(cfg.commands, e, n - 1);
      CommandsShow(cfg, e, s, n - 1, a);
      var ms := SC.Matched(cfg.commands[..n - 1], e);
      if Matches(cfg.commands[n - 1], e) {
        CommandShows(cfg, e, ApplyCommands(cfg, e, s, n - 1), n - 1, L.SettleAll(a, ms));
        SettleSnoc(a, ms, cfg.commands[n - 1]);
      } else {
        assert SC.Matched(cfg.commands[..n], e) == ms;
      }
    }
  }

  lemma {:induction false} SettleSnoc(a: L.Account, cs: seq<Command>, c: Command)
    ensures L.SettleAll(a, cs + [c]) == L.Settle(L.SettleAll(a, cs), c)
  {
    assert (cs + [c])[..|cs|] == cs;
  }

  lemma {:induction false} EventShows(cfg: Config, e: Event, w: World, a: L.Account)
    requires Runnable(cfg) && Consistent(cfg.commands) && Smooth(e)
    requires WorldShaped(cfg, w) && e.layer in w.tensors && Shows(cfg, w.state.staging, w.state.ex, a)
    ensures var r := ApplyInWorld(cfg, e, w).state;
      Shows(cfg, r.staging, r.ex, L.SettleAll(a, SC.Matched(cfg.commands, e)))
  {
    hide ApplyCommands, SC.Matched, L.SettleAll, Kept, InDram, InVram;
    assert cfg.commands[..|cfg.commands|] == cfg.commands;
    CommandsShow(cfg, e, Stepped(Begin(cfg, e, w.state), w.tensors[e.layer]), |cfg.commands|, a);
  }

  lemma {:induction false} RunShows(cfg: Config, es: seq<Event>, w: World, a: L.Account)
    requires Runnable(cfg) && Consistent(cfg.commands) && forall j :: 0 <= j < |es| ==> Smooth(es[j])
    requires WorldShaped(cfg, w) && LayersKnown(w, es) && Shows(cfg, w.state.staging, w.state.ex, a)
    ensures var r := Run(cfg, es, w).state; Shows(cfg, r.staging, r.ex, L.SettleAll(a, Executed(cfg.commands, es)))
  {
    hide ApplyInWorld, Shows, L.Settle, Runnable, Consistent, Smooth;
    if es == [] {
    } else {
      var front, e := es[..|es| - 1], es[|es| - 1];
      forall i | 0 <= i < |front| ensures front[i].layer in w.tensors && Smooth(front[i]) {
        assert front[i] == es[i];
      }
      RunShows(cfg, front, w, a);
      EventShows(cfg, e, Run(cfg, front, w), L.SettleAll(a, Executed(cfg.commands, front)));
      L.SettleAppend(a, Executed(cfg.commands, front), SC.Matched(cfg.commands, e));
    }
  }

  lemma {:induction false} FreshShows(cfg: Config, w: World)
    requires w.state == FRESH
    ensures Shows(cfg, w.state.staging, w.state.ex, L.NO_ACCOUNT)
  {
  }

  /** The bridge keeps the account of the commands its events executed, evicts included, when reads,
      allocations and the table suffice; the only faults it counts are the evicts that found no buffer. */
  lemma {:induction false} BridgeKeepsAccount(cfg: Config, es: seq<Event>, w: World)
    requires Runnable(cfg) && Consistent(cfg.commands) && forall j :: 0 <= j < |es| ==> Smooth(es[j])
    requires WorldShaped(cfg, w) && LayersKnown(w, es) && w.state == FRESH
    ensures var r, a := Run(cfg, es, w).state, L.SettleAll(L.NO_ACCOUNT, Executed(cfg.commands, es));
      && Abstract(r.staging, r.ex) == a.ledger && r.ex.evicts == a.evicts && r.ex.evictBytes == a.evictBytes
      && Faults(r.ex) == r.ex.missingSources == a.vain
  {
    hide Run, Executed, L.SettleAll, Runnable, Smooth, Consistent, Shows, WorldShaped, LayersKnown;
    FreshShows(cfg, w);
    RunShows(cfg, es, w, L.NO_ACCOUNT);
    ShowsMeans(cfg, Run(cfg, es, w).state.staging, Run(cfg, es, w).state.ex, L.SettleAll(L.NO_ACCOUNT, Executed(cfg.commands, es)));
    hide Abstract, Faults;
  }

  lemma {:induction false} ShowsMeans(cfg: Config, staging: seq<Staging>, ex: ExecStats, a: L.Account)
    requires Shows(cfg, staging, ex, a)
    ensures Abstract(staging, ex) == a.ledger && ex.evicts == a.evicts && ex.evictBytes == a.evictBytes
    ensures Faults(ex) == ex.missingSources == a.vain
  {
  }

  /** Without evicts the account is the common ledger. */
  lemma {:induction false} BridgeKeepsLedger(cfg: Config, es: seq<Event>, w: World)
    requires Runnable(cfg) && EvictFree(cfg.commands) && Consistent(cfg.commands) && forall j :: 0 <= j < |es| ==> Smooth(es[j])
    requires WorldShaped(cfg, w) && LayersKnown(w, es) && w.state == FRESH
    ensures var r := Run(cfg, es, w).state;
      && Abstract(r.staging, r.ex) == L.Run(L.EMPTY, Executed(cfg.commands, es))
      && Faults(r.ex) == 0
  {
    BridgeKeepsAccount(cfg, es, w);
    var cs := Executed(cfg.commands, es);
    forall i | 0 <= i < |cs| ensures !cs[i].EvictsToSsd() {
      ExecutedMember(cfg.commands, es, i);
    }
    hide Run, Executed, Runnable, Smooth, Consistent;
    L.SettleSimple(cs);
  }
}
