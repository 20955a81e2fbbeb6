/** The C consumer keeps the common ledger: on an evict-free stream its reads, copies, computes, lazily
    filled buffers and resident blocks are those of the ledger.
 */
module ConsumerLedger {
  import opened Kv
  import opened ConsumerModel
  import opened ConsumerSafety
  import L = Ledger

  function InDram(slots: seq<Slot>): set<BlockKey> {
    set i | 0 <= i < |slots| && slots[i].dram.Some? :: slots[i].key
  }

  function InVram(slots: seq<Slot>): set<BlockKey> {
    set i | 0 <= i < |slots| && slots[i].vram.Some? :: slots[i].key
  }

  function Abstract(s: State): L.Ledger {
    L.Ledger(s.stats.ssdReads, s.stats.readBytes, s.stats.copies, s.stats.copyBytes, s.stats.computes,
             s.stats.lazyInits, s.stats.lazyBytes, InDram(s.slots), InVram(s.slots))
  }

  /** A block has one slot. */
  ghost predicate Unique(slots: seq<Slot>) {
    forall i, j :: 0 <= i < j < |slots| ==> slots[i].key != slots[j].key
  }

  /** A slot is looked up, or added without buffers: residency does not change. */
  lemma {:induction false} GotResident(slots: seq<Slot>, c: Command, env: Env)
    requires Unique(slots) && env.slotOk
    ensures var got := GetSlot(slots, c, env);
      && got.at.Some? && Unique(got.slots) && InDram(got.slots) == InDram(slots) && InVram(got.slots) == InVram(slots)
  {
    var got := GetSlot(slots, c, env);
    if FindSlot(slots, c.PlanKey()).None? {
      var n := |slots|;
      forall k ensures (k in InDram(got.slots) <==> k in InDram(slots)) && (k in InVram(got.slots) <==> k in InVram(slots)) {
        if k in InDram(slots) {
          var i :| 0 <= i < n && slots[i].dram.Some? && slots[i].key == k;
          assert got.slots[i].dram.Some? && got.slots[i].key == k;
        }
        if k in InVram(slots) {
          var i :| 0 <= i < n && slots[i].vram.Some? && slots[i].key == k;
          assert got.slots[i].vram.Some? && got.slots[i].key == k;
        }
      }
    }
  }

  lemma {:induction false} ResidentIff(slots: seq<Slot>, at: nat)
    requires Unique(slots) && at < |slots|
    ensures slots[at].key in InDram(slots) <==> slots[at].dram.Some?
    ensures slots[at].key in InVram(slots) <==> slots[at].vram.Some?
  {
  }

  /** Replacing a block's slot by one that keeps its buffers changes the residency of that block only. */
  lemma {:induction false} PutResident(slots: seq<Slot>, at: nat, slot: Slot)
    requires Unique(slots) && at < |slots| && slot.key == slots[at].key
    requires (slots[at].dram.Some? ==> slot.dram.Some?) && (slots[at].vram.Some? ==> slot.vram.Some?)
    ensures Unique(slots[at := slot])
    ensures InDram(slots[at := slot]) == InDram(slots) + if slot.dram.Some? then {slot.key} else {}
    ensures InVram(slots[at := slot]) == InVram(slots) + if slot.vram.Some? then {slot.key} else {}
  {
    var after := slots[at := slot];
    forall i, j | 0 <= i < j < |after| ensures after[i].key != after[j].key {
      assert slots[i].key != slots[j].key;
    }
    hide Unique;
    var dram, vram := InDram(slots) + (if slot.dram.Some? then {slot.key} else {}), InVram(slots) + if slot.vram.Some? then {slot.key} else {};
    forall k ensures (k in InDram(after) <==> k in dram) && (k in InVram(after) <==> k in vram) {
      if k in InDram(slots) {
        var i :| 0 <= i < |slots| && slots[i].dram.Some? && slots[i].key == k;
        assert after[i].dram.Some? && after[i].key == k;
      }
      if k in InVram(slots) {
        var i :| 0 <= i < |slots| && slots[i].vram.Some? && slots[i].key == k;
        assert after[i].vram.Some? && after[i].key == k;
      }
      assert after[at] == slot;
    }
  }

  // ---------- one command ----------

  /** A successful read into DRAM. */
  lemma {:induction false} ReadShape(s: State, at: nat, c: Command, env: Env)
    requires at < |s.slots| && c.source.SSD? && c.target.DRAM? && Move(s, at, c, env).ok
    ensures var r := Move(s, at, c, env).state;
      && r.stats == s.stats.(ssdReads := s.stats.ssdReads + 1, readBytes := s.stats.readBytes + SizeOf(c))
      && at < |r.slots| && r.slots == s.slots[at := r.slots[at]]
      && r.slots[at].key == s.slots[at].key && r.slots[at].dram.Some? && r.slots[at].vram == s.slots[at].vram
  {
    hide Pattern, Verifies, Overwrite;
  }

  /** A successful copy from DRAM to VRAM. */
  lemma {:induction false} CopyShape(s: State, at: nat, c: Command, env: Env)
    requires at < |s.slots| && c.source.DRAM? && c.target.VRAM? && Move(s, at, c, env).ok
    ensures var r := Move(s, at, c, env).state; var missing := s.slots[at].dram.None?;
      && r.stats == s.stats.(copies := s.stats.copies + 1, copyBytes := s.stats.copyBytes + SizeOf(c),
                             lazyInits := s.stats.lazyInits + (if missing then 1 else 0),
                             lazyBytes := s.stats.lazyBytes + (if missing then SizeOf(c) else 0))
      && at < |r.slots| && r.slots == s.slots[at := r.slots[at]]
      && r.slots[at].key == s.slots[at].key && r.slots[at].dram.Some? && r.slots[at].vram.Some?
  {
    hide Pattern, Verifies, Overwrite;
  }

  /** A successful compute. */
  lemma {:induction false} ComputeShape(s: State, at: nat, c: Command, env: Env)
    requires at < |s.slots| && ComputeOn(s, at, c, env).ok
    ensures var r := ComputeOn(s, at, c, env).state; var missing := s.slots[at].vram.None?;
      && r.stats == s.stats.(verified := s.stats.verified + 1,
                             lazyInits := s.stats.lazyInits + (if missing then 1 else 0),
                             lazyBytes := s.stats.lazyBytes + (if missing then SizeOf(c) else 0))
      && at < |r.slots| && r.slots == s.slots[at := r.slots[at]]
      && r.slots[at].key == s.slots[at].key && r.slots[at].dram == s.slots[at].dram && r.slots[at].vram.Some?
  {
    hide Pattern, Verifies;
    assert s.slots[at := s.slots[at]] == s.slots;
  }

  /** The executor keeps the ledger as long as commands succeed. */
  lemma {:induction false} ExecuteFollows(s: State, c: Command, env: Env)
    requires Unique(s.slots) && env.slotOk && c.size > 0 && L.Simple(c) && Execute(s, c, env).ok
    ensures var r := Execute(s, c, env).state;
      Unique(r.slots) && Abstract(r) == L.Step(Abstract(s), c)
  {
    hide Pattern, Move, ComputeOn, EvictBlock, InDram, InVram, Unique, GetSlot;
    GotResident(s.slots, c, env);
    var got := GetSlot(s.slots, c, env);
    var t := s.(slots := got.slots, stats := CountOp(s.stats, c));
    var at := got.at.value;
    ResidentIff(t.slots, at);
    var r := Execute(s, c, env).state;
    if c.Moves(SSD, DRAM) {
      ReadShape(t, at, c, env);
    } else if c.Moves(DRAM, VRAM) {
      CopyShape(t, at, c, env);
    } else {
      ComputeShape(t, at, c, env);
    }
    PutResident(t.slots, at, r.slots[at]);
    assert InDram(r.slots) == L.Step(Abstract(s), c).dram && InVram(r.slots) == L.Step(Abstract(s), c).vram;
  }

  // ---------- runs ----------

  ghost predicate Along(s: State, cs: seq<Command>, r: Outcome) {
    r.ok ==> Unique(r.state.slots) && Abstract(r.state) == L.Run(Abstract(s), cs)
  }

  lemma {:induction false} RunFollows(s: State, cs: seq<Command>, envs: seq<Env>, n: nat)
    requires n <= |cs| <= |envs| && Unique(s.slots) && L.AllSimple(cs) && AllKind(envs, |cs|)
    requires forall i :: 0 <= i < |cs| ==> cs[i].size > 0
    ensures Along(s, cs[..n], Run(s, cs, envs, n))
  {
    hide Execute, L.Step, Abstract, Unique, L.Simple;
    if n == 0 {
    } else {
      RunFollows(s, cs, envs, n - 1);
      assert cs[..n][..n - 1] == cs[..n - 1];
      var before := Run(s, cs, envs, n - 1);
      if before.ok && Execute(before.state, cs[n - 1], envs[n - 1]).ok {
        ExecuteFollows(before.state, cs[n - 1], envs[n - 1]);
      }
    }
  }

  /** Seeding the backing file leaves the slots alone. */
  lemma {:induction false} SeedNoSlot(s: State, cs: seq<Command>, envs: seq<Env>, n: nat)
    requires n <= |cs| <= |envs|
    ensures var r := Seed(s, cs, envs, n).state;
      r.slots == s.slots && Abstract(r) == Abstract(s)
  {
    hide Pattern, WriteAt, Seen;
    if n == 0 {
    } else {
      SeedNoSlot(s, cs, envs, n - 1);
    }
  }

  /** When the allocator and the file do their part, the consumer succeeds on every consistent evict-free
      stream with disjoint ranges that is not empty, and keeps the ledger. */
  lemma {:induction false} ConsumerKeepsLedger(cs: seq<Command>, seedEnvs: seq<Env>, envs: seq<Env>)
    requires Stream(cs) && L.AllSimple(cs) && |cs| <= |seedEnvs| && |cs| <= |envs|
    requires AllKind(seedEnvs, |cs|) && AllKind(envs, |cs|)
    ensures var r := Consume(cs, seedEnvs, envs);
      && (r.ok <==> cs != []) && r.state.stats.verificationErrors == 0
      && Abstract(r.state) == L.Run(L.EMPTY, cs)
  {
    ConsumeIsSafe(cs, seedEnvs, envs);
    var s := State(seq(MaxEnd(cs), i => 0), [], NO_STATS);
    assert Abstract(s) == L.EMPTY;
    SeedNoSlot(s, cs, seedEnvs, |cs|);
    forall i | 0 <= i < |cs| ensures cs[i].size > 0 {
      assert Steady(cs[i]);
    }
    RunFollows(Seed(s, cs, seedEnvs, |cs|).state, cs, envs, |cs|);
    assert cs[..|cs|] == cs;
  }
}
