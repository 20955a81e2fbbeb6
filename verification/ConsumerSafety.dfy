/** The C consumer never reports a verification error, on any stream in which every block keeps one range
    and one interval and the ranges of different blocks are disjoint; and it succeeds whenever the
    allocator and the file do.
 */
module ConsumerSafety {
  import opened Kv
  import opened ByteCopies
  import opened ConsumerModel

  /** A command the consumer can carry out. */
  predicate Steady(c: Command) {
    && c.size > 0 && c.offset >= 0
    && match c.op
       case Load => Buffered(c.target) && !c.source.Elsewhere? && c.source != c.target
       case Prefetch => Buffered(c.target) && !c.source.Elsewhere? && c.source != c.target
       case Compute => true
       case Evict => Buffered(c.source)
       case OtherOp(_) => false
  }

  ghost predicate Stream(cs: seq<Command>) {
    Consistent(cs) && RangesApart(cs) && forall i :: 0 <= i < |cs| ==> Steady(cs[i])
  }

  /** A buffer, if there is one, is exactly the block's pattern. */
  predicate Own(b: Option<seq<Byte>>, c: Command) {
    b.Some? ==> b.value == Pattern(c)
  }

  ghost predicate SlotGood(cs: seq<Command>, slot: Slot) {
    && (exists i :: 0 <= i < |cs| && cs[i].PlanKey() == slot.key)
    && (forall i :: 0 <= i < |cs| && cs[i].PlanKey() == slot.key ==> Own(slot.dram, cs[i]) && Own(slot.vram, cs[i]))
  }

  ghost predicate AllGood(cs: seq<Command>, slots: seq<Slot>) {
    forall k :: 0 <= k < |slots| ==> SlotGood(cs, slots[k])
  }

  ghost predicate Holds(file: seq<Byte>, c: Command) {
    InFile(file, c) && Slice(file, c.offset, SizeOf(c)) == Pattern(c)
  }

  /** The ranges of these blocks hold their blocks' patterns. */
  ghost predicate AllHeld(cs: seq<Command>, file: seq<Byte>, keys: set<BlockKey>) {
    forall i :: 0 <= i < |cs| && cs[i].PlanKey() in keys ==> Holds(file, cs[i])
  }

  ghost predicate LongEnough(cs: seq<Command>, file: seq<Byte>) {
    forall i :: 0 <= i < |cs| ==> InFile(file, cs[i])
  }

  /** The invariant of a run: buffers are whole and right, and so are the seeded and evicted ranges. */
  ghost predicate Inv(cs: seq<Command>, s: State, keys: set<BlockKey>) {
    && s.stats.verificationErrors == 0
    && AllGood(cs, s.slots)
    && LongEnough(cs, s.file) && AllHeld(cs, s.file, keys)
  }

  function SsdKeys(cs: seq<Command>): set<BlockKey> {
    set i | 0 <= i < |cs| && cs[i].source.SSD? :: cs[i].PlanKey()
  }

  function EvictedKeys(cs: seq<Command>): set<BlockKey> {
    set i | 0 <= i < |cs| && cs[i].op.Evict? :: cs[i].PlanKey()
  }

  // ---------- writes ----------

  /** Writing a block's own pattern makes its range right and leaves the other ranges alone. */
  lemma {:induction false} WriteHolds(cs: seq<Command>, file: seq<Byte>, keys: set<BlockKey>, i: nat)
    requires Stream(cs) && i < |cs| && LongEnough(cs, file) && AllHeld(cs, file, keys)
    ensures var after := WriteAt(file, cs[i].offset, Pattern(cs[i]));
      LongEnough(cs, after) && AllHeld(cs, after, keys + {cs[i].PlanKey()}) && |after| == |file|
  {
    hide PatternByte;
    var c := cs[i];
    assert InFile(file, c) && Steady(c);
    var after := WriteAt(file, c.offset, Pattern(c));
    assert after == Splice(file, c.offset, Pattern(c));
    forall j | 0 <= j < |cs| ensures InFile(after, cs[j]) {
      assert InFile(file, cs[j]);
    }
    forall j | 0 <= j < |cs| && cs[j].PlanKey() in keys + {c.PlanKey()} ensures Holds(after, cs[j]) {
      assert InFile(file, cs[j]) && Steady(cs[j]);
      if cs[j].PlanKey() == c.PlanKey() {
        PatternOfBlock(c, cs[j]);
        assert Slice(after, c.offset, SizeOf(c)) == Pattern(c);
      } else {
        assert Holds(file, cs[j]);
        assert Slice(after, cs[j].offset, SizeOf(cs[j])) == Slice(file, cs[j].offset, SizeOf(cs[j]));
      }
    }
  }

  // ---------- slots ----------

  lemma {:induction false} GotGood(cs: seq<Command>, slots: seq<Slot>, i: nat, env: Env)
    requires i < |cs| && AllGood(cs, slots)
    ensures var got := GetSlot(slots, cs[i], env);
      && AllGood(cs, got.slots)
      && (Kind(env) ==> got.at.Some?)
  {
    hide Pattern;
    assert SlotGood(cs, Slot(cs[i].PlanKey(), cs[i].start, cs[i].end, cs[i].size, None, None));
  }

  /** Putting the block's pattern into a buffer of its slot keeps the slot good. */
  lemma {:induction false} WithGood(cs: seq<Command>, slot: Slot, i: nat, at: Location)
    requires Consistent(cs) && SlotGood(cs, slot) && i < |cs| && cs[i].PlanKey() == slot.key
    ensures SlotGood(cs, slot.With(at, Pattern(cs[i])))
  {
    forall j | 0 <= j < |cs| && cs[j].PlanKey() == slot.key ensures Pattern(cs[j]) == Pattern(cs[i]) {
      PatternOfBlock(cs[j], cs[i]);
    }
    hide Pattern;
  }

  lemma {:induction false} OwnBuffer(cs: seq<Command>, slot: Slot, i: nat, at: Location)
    requires SlotGood(cs, slot) && i < |cs| && cs[i].PlanKey() == slot.key && slot.Buffer(at).Some?
    ensures slot.Buffer(at).value == Pattern(cs[i]) && Verifies(slot.Buffer(at).value, cs[i])
  {
    hide Pattern;
  }

  lemma {:induction false} EnsuredGood(cs: seq<Command>, slot: Slot, i: nat, at: Location, env: Env, stats: Stats)
    requires Consistent(cs) && SlotGood(cs, slot) && i < |cs| && cs[i].PlanKey() == slot.key
    ensures var e := EnsureBuffer(slot, at, cs[i], env, stats);
      && SlotGood(cs, e.slot) && e.slot.key == slot.key && e.stats.verificationErrors == stats.verificationErrors
      && (e.ok ==> e.slot.Buffer(at) == Some(Pattern(cs[i])))
      && (Kind(env) && Buffered(at) ==> e.ok)
  {
    WithGood(cs, slot, i, at);
    if slot.Buffer(at).Some? {
      OwnBuffer(cs, slot, i, at);
    }
    hide Pattern, SlotGood;
  }

  lemma {:induction false} PlacedGood(cs: seq<Command>, slots: seq<Slot>, at: nat, slot: Slot)
    requires at < |slots| && SlotGood(cs, slot) && AllGood(cs, slots)
    ensures AllGood(cs, slots[at := slot])
  {
  }

  /** Overwriting a whole buffer with the block's pattern. */
  lemma {:induction false} OverwriteAll(b: seq<Byte>, c: Command)
    requires |b| == SizeOf(c)
    ensures Overwrite(b, Pattern(c)) == Pattern(c) && Verifies(Pattern(c), c)
  {
    hide Pattern;
  }

  // ---------- one command ----------

  /** What one executed command owes to the run. */
  ghost predicate StepGood(cs: seq<Command>, c: Command, env: Env, keys: set<BlockKey>, r: Outcome) {
    && r.state.stats.verificationErrors == 0
    && (r.ok ==> Inv(cs, r.state, keys + if c.op.Evict? then {c.PlanKey()} else {}))
    && (Kind(env) ==> r.ok)
  }

  lemma {:induction false} TargetGood(cs: seq<Command>, slot: Slot, i: nat, env: Env)
    requires SlotGood(cs, slot) && i < |cs| && cs[i].PlanKey() == slot.key && Buffered(cs[i].target)
    ensures var t := AllocTarget(slot, cs[i].target, cs[i], env);
      && (Kind(env) ==> t.Some?)
      && (t.Some? ==>
            && t.value.key == slot.key && t.value.Buffer(cs[i].target).Some?
            && |t.value.Buffer(cs[i].target).value| == SizeOf(cs[i])
            && (forall at: Location :: at != cs[i].target ==> t.value.Buffer(at) == slot.Buffer(at))
            && t.value.With(cs[i].target, Pattern(cs[i])) == slot.With(cs[i].target, Pattern(cs[i])))
  {
    if slot.Buffer(cs[i].target).Some? {
      OwnBuffer(cs, slot, i, cs[i].target);
    }
    hide Pattern, SlotGood;
  }

  lemma {:induction false} ReadMoveGood(cs: seq<Command>, s: State, at: nat, i: nat, env: Env, keys: set<BlockKey>)
    requires Stream(cs) && Inv(cs, s, keys) && SsdKeys(cs) <= keys && i < |cs| && at < |s.slots| && s.slots[at].key == cs[i].PlanKey()
    requires (cs[i].op.Load? || cs[i].op.Prefetch?) && cs[i].source.SSD?
    ensures StepGood(cs, cs[i], env, keys, Move(s, at, cs[i], env))
  {
    var c := cs[i];
    var slot := s.slots[at];
    assert Steady(c) && SlotGood(cs, slot) && c.PlanKey() in SsdKeys(cs);
    assert Holds(s.file, c) && keys + {} == keys;
    TargetGood(cs, slot, i, env);
    var target := AllocTarget(slot, c.target, c, env);
    if target.Some? {
      var dst := target.value.Buffer(c.target).value;
      OverwriteAll(dst, c);
      WithGood(cs, slot, i, c.target);
      PlacedGood(cs, s.slots, at, slot.With(c.target, Pattern(c)));
      hide Pattern, SlotGood, AllHeld, LongEnough, Verifies, AllocTarget;
      assert s.slots[at := target.value][at := slot.With(c.target, Pattern(c))] == s.slots[at := slot.With(c.target, Pattern(c))];
    }
  }

  lemma {:induction false} CopyMoveGood(cs: seq<Command>, s: State, at: nat, i: nat, env: Env, keys: set<BlockKey>)
    requires Stream(cs) && Inv(cs, s, keys) && i < |cs| && at < |s.slots| && s.slots[at].key == cs[i].PlanKey()
    requires (cs[i].op.Load? || cs[i].op.Prefetch?) && !cs[i].source.SSD?
    ensures StepGood(cs, cs[i], env, keys, Move(s, at, cs[i], env))
  {
    var c := cs[i];
    var slot := s.slots[at];
    assert Steady(c) && SlotGood(cs, slot);
    assert keys + {} == keys;
    TargetGood(cs, slot, i, env);
    var target := AllocTarget(slot, c.target, c, env);
    if target.Some? {
      var dst := target.value.Buffer(c.target).value;
      EnsuredGood(cs, slot, i, c.source, env, s.stats);
      EnsureElsewhere(slot, target.value, c, env, s.stats);
      var e := EnsureBuffer(slot, c.source, c, env, s.stats);
      var f := EnsureBuffer(target.value, c.source, c, env, s.stats);
      OverwriteAll(dst, c);
      WithGood(cs, e.slot, i, c.target);
      PlacedGood(cs, s.slots, at, e.slot.With(c.target, Pattern(c)));
      hide Pattern, SlotGood, AllHeld, LongEnough, Verifies, AllocTarget, EnsureBuffer;
      assert Pattern(c)[..SizeOf(c)] == Pattern(c);
      assert s.slots[at := target.value][at := f.slot][at := e.slot.With(c.target, Pattern(c))]
          == s.slots[at := e.slot.With(c.target, Pattern(c))];
    }
  }

  /** Allocating the target first does not change what happens to the source buffer. */
  lemma {:induction false} EnsureElsewhere(slot: Slot, target: Slot, c: Command, env: Env, stats: Stats)
    requires Buffered(c.target) && c.source != c.target && target.key == slot.key
    requires target.Buffer(c.source) == slot.Buffer(c.source)
    requires target.With(c.target, Pattern(c)) == slot.With(c.target, Pattern(c))
    ensures var e, f := EnsureBuffer(slot, c.source, c, env, stats), EnsureBuffer(target, c.source, c, env, stats);
      && e.ok == f.ok && e.stats == f.stats && f.slot.Buffer(c.source) == e.slot.Buffer(c.source)
      && f.slot.With(c.target, Pattern(c)) == e.slot.With(c.target, Pattern(c))
      && f.slot.Buffer(c.target) == target.Buffer(c.target)
  {
    hide Pattern;
  }

  lemma {:induction false} ComputeGood(cs: seq<Command>, s: State, at: nat, i: nat, env: Env, keys: set<BlockKey>)
    requires Stream(cs) && Inv(cs, s, keys) && i < |cs| && at < |s.slots| && s.slots[at].key == cs[i].PlanKey()
    requires cs[i].op.Compute?
    ensures StepGood(cs, cs[i], env, keys, ComputeOn(s, at, cs[i], env))
  {
    assert SlotGood(cs, s.slots[at]) && keys + {} == keys;
    EnsuredGood(cs, s.slots[at], i, VRAM, env, s.stats);
    var e := EnsureBuffer(s.slots[at], VRAM, cs[i], env, s.stats);
    PlacedGood(cs, s.slots, at, e.slot);
    OverwriteAll(Pattern(cs[i]), cs[i]);
    hide Pattern, SlotGood, AllHeld, LongEnough, EnsureBuffer;
  }

  lemma {:induction false} EvictGood(cs: seq<Command>, s: State, at: nat, i: nat, env: Env, keys: set<BlockKey>)
    requires Stream(cs) && Inv(cs, s, keys) && i < |cs| && at < |s.slots| && s.slots[at].key == cs[i].PlanKey()
    requires cs[i].op.Evict?
    ensures StepGood(cs, cs[i], env, keys, EvictBlock(s, at, cs[i], env))
  {
    var c := cs[i];
    assert SlotGood(cs, s.slots[at]) && Steady(c);
    EnsuredGood(cs, s.slots[at], i, c.source, env, s.stats);
    var e := EnsureBuffer(s.slots[at], c.source, c, env, s.stats);
    PlacedGood(cs, s.slots, at, e.slot);
    WriteHolds(cs, s.file, keys, i);
    hide Pattern, SlotGood, AllHeld, LongEnough, EnsureBuffer, WriteAt;
    assert Pattern(c)[..SizeOf(c)] == Pattern(c);
  }

  lemma {:induction false} ExecuteGood(cs: seq<Command>, s: State, i: nat, env: Env, keys: set<BlockKey>)
    requires Stream(cs) && Inv(cs, s, keys) && SsdKeys(cs) <= keys && i < |cs|
    ensures StepGood(cs, cs[i], env, keys, Execute(s, cs[i], env))
  {
    var c := cs[i];
    assert Steady(c);
    GotGood(cs, s.slots, i, env);
    var got := GetSlot(s.slots, c, env);
    if got.at.Some? {
      var t := s.(slots := got.slots, stats := CountOp(s.stats, c));
      if c.op.Compute? {
        ComputeGood(cs, t, got.at.value, i, env, keys);
      } else if c.op.Evict? {
        EvictGood(cs, t, got.at.value, i, env, keys);
      } else if c.source.SSD? {
        ReadMoveGood(cs, t, got.at.value, i, env, keys);
      } else {
        CopyMoveGood(cs, t, got.at.value, i, env, keys);
      }
    }
  }

  // ---------- seeding ----------

  /** The blocks whose SSD source is among the first `n` commands. */
  lemma {:induction false} SsdKeysStep(cs: seq<Command>, n: nat)
    requires n < |cs|
    ensures SsdKeys(cs[..n + 1]) == SsdKeys(cs[..n]) + if cs[n].source.SSD? then {cs[n].PlanKey()} else {}
  {
    var after := SsdKeys(cs[..n]) + if cs[n].source.SSD? then {cs[n].PlanKey()} else {};
    forall k ensures k in SsdKeys(cs[..n + 1]) <==> k in after {
      if k in SsdKeys(cs[..n]) {
        var i :| 0 <= i < n && cs[..n][i].source.SSD? && cs[..n][i].PlanKey() == k;
        assert cs[..n + 1][i] == cs[..n][i];
      }
      if k in SsdKeys(cs[..n + 1]) {
        var i :| 0 <= i < n + 1 && cs[..n + 1][i].source.SSD? && cs[..n + 1][i].PlanKey() == k;
        if i < n {
          assert cs[..n][i] == cs[..n + 1][i];
        }
      }
      assert cs[..n + 1][n] == cs[n];
    }
  }

  /** Two commands with the same range belong to the same block. */
  lemma {:induction false} SameRangeSameBlock(cs: seq<Command>, i: nat, j: nat)
    requires Stream(cs) && i < |cs| && j < |cs| && cs[i].offset == cs[j].offset && cs[i].size == cs[j].size
    ensures cs[i].PlanKey() == cs[j].PlanKey()
  {
    assert Steady(cs[i]) && Steady(cs[j]);
  }

  /** A command whose range was already seeded belongs to a block that is already held. */
  lemma {:induction false} SeenIsHeld(cs: seq<Command>, n: nat)
    requires Stream(cs) && n < |cs| && Seen(cs, n)
    ensures cs[n].PlanKey() in SsdKeys(cs[..n])
  {
    var j :| 0 <= j < n && cs[j].source.SSD? && cs[j].offset == cs[n].offset && cs[j].size == cs[n].size;
    SameRangeSameBlock(cs, j, n);
    assert cs[..n][j] == cs[j];
  }

  ghost predicate AllKind(envs: seq<Env>, n: nat)
    requires n <= |envs|
  {
    forall i :: 0 <= i < n ==> Kind(envs[i])
  }

  /** What seeding the first `n` commands leaves: no error, right ranges unless it stopped, and it stops
      only when the environment fails. */
  ghost predicate Seeded(cs: seq<Command>, envs: seq<Env>, n: nat, r: Outcome)
    requires n <= |cs| <= |envs|
  {
    && r.state.stats.verificationErrors == 0
    && (r.ok ==> Inv(cs, r.state, SsdKeys(cs[..n])))
    && (AllKind(envs, n) ==> r.ok)
  }

  lemma {:induction false} SeedStepGood(cs: seq<Command>, envs: seq<Env>, r: Outcome, i: nat)
    requires Stream(cs) && i < |cs| <= |envs| && Seeded(cs, envs, i, r)
    ensures Seeded(cs, envs, i + 1, if r.ok then SeedStep(r.state, cs, i, envs[i]) else r)
  {
    if r.ok {
      var keys := SsdKeys(cs[..i]);
      assert Steady(cs[i]) && keys + {} == keys;
      SsdKeysStep(cs, i);
      WriteHolds(cs, r.state.file, keys, i);
      if Seen(cs, i) {
        SeenIsHeld(cs, i);
        assert keys + {cs[i].PlanKey()} == keys;
      }
      hide Pattern, SsdKeys, WriteAt, AllHeld, LongEnough, AllGood, Seen;
    }
  }

  lemma {:induction false} NothingSeeded(cs: seq<Command>, envs: seq<Env>, s: State)
    requires |cs| <= |envs| && Inv(cs, s, {})
    ensures Seeded(cs, envs, 0, Outcome(s, true))
  {
    assert SsdKeys(cs[..0]) == {};
  }

  /** Seeding leaves every range it has written with its own block's pattern. */
  lemma {:induction false} SeedGood(cs: seq<Command>, s: State, envs: seq<Env>, n: nat)
    requires Stream(cs) && Inv(cs, s, {}) && n <= |cs| <= |envs|
    ensures Seeded(cs, envs, n, Seed(s, cs, envs, n))
  {
    hide SeedStep, Inv, Stream, Seeded;
    if n == 0 {
      NothingSeeded(cs, envs, s);
    } else {
      SeedGood(cs, s, envs, n - 1);
      SeedStepGood(cs, envs, Seed(s, cs, envs, n - 1), n - 1);
    }
  }

  // ---------- whole runs ----------

  lemma {:induction false} EvictedStep(cs: seq<Command>, n: nat)
    requires n < |cs|
    ensures EvictedKeys(cs[..n + 1]) == EvictedKeys(cs[..n]) + if cs[n].op.Evict? then {cs[n].PlanKey()} else {}
  {
    var after := EvictedKeys(cs[..n]) + if cs[n].op.Evict? then {cs[n].PlanKey()} else {};
    forall k ensures k in EvictedKeys(cs[..n + 1]) <==> k in after {
      if k in EvictedKeys(cs[..n]) {
        var i :| 0 <= i < n && cs[..n][i].op.Evict? && cs[..n][i].PlanKey() == k;
        assert cs[..n + 1][i] == cs[..n][i];
      }
      if k in EvictedKeys(cs[..n + 1]) {
        var i :| 0 <= i < n + 1 && cs[..n + 1][i].op.Evict? && cs[..n + 1][i].PlanKey() == k;
        if i < n {
          assert cs[..n][i] == cs[..n + 1][i];
        }
      }
      assert cs[..n + 1][n] == cs[n];
    }
  }

  /** What running the first `n` commands leaves. */
  ghost predicate Ran(cs: seq<Command>, envs: seq<Env>, n: nat, r: Outcome)
    requires n <= |cs| <= |envs|
  {
    && r.state.stats.verificationErrors == 0
    && (r.ok ==> Inv(cs, r.state, SsdKeys(cs) + EvictedKeys(cs[..n])))
    && (AllKind(envs, n) ==> r.ok)
  }

  lemma {:induction false} RunStep(cs: seq<Command>, envs: seq<Env>, r: Outcome, i: nat)
    requires Stream(cs) && i < |cs| <= |envs| && Ran(cs, envs, i, r)
    ensures Ran(cs, envs, i + 1, if r.ok then Execute(r.state, cs[i], envs[i]) else r)
  {
    EvictedStep(cs, i);
    var keys := SsdKeys(cs) + EvictedKeys(cs[..i]);
    var more: set<BlockKey> := if cs[i].op.Evict? then {cs[i].PlanKey()} else {};
    assert keys + more == SsdKeys(cs) + EvictedKeys(cs[..i + 1]);
    if r.ok {
      ExecuteGood(cs, r.state, i, envs[i], keys);
    }
    hide Execute, Inv, SsdKeys, EvictedKeys;
  }

  lemma {:induction false} NothingRun(cs: seq<Command>, envs: seq<Env>, s: State)
    requires |cs| <= |envs| && Inv(cs, s, SsdKeys(cs))
    ensures Ran(cs, envs, 0, Outcome(s, true))
  {
    assert SsdKeys(cs) + EvictedKeys(cs[..0]) == SsdKeys(cs);
  }

  /** At every step of a run: no verification error, whole buffers, and right seeded and evicted ranges. */
  lemma {:induction false} RunGood(cs: seq<Command>, s: State, envs: seq<Env>, n: nat)
    requires Stream(cs) && Inv(cs, s, SsdKeys(cs)) && n <= |cs| <= |envs|
    ensures Ran(cs, envs, n, Run(s, cs, envs, n))
  {
    hide Execute, Inv, SsdKeys, Ran, Stream;
    if n == 0 {
      NothingRun(cs, envs, s);
    } else {
      RunGood(cs, s, envs, n - 1);
      RunStep(cs, envs, Run(s, cs, envs, n - 1), n - 1);
    }
  }

  /** Consumer safety: whatever the allocator and the file do, seeding and execution never report a
      verification error; when they all succeed, the consumer succeeds on every list but the empty one. */
  lemma {:induction false} ConsumeIsSafe(cs: seq<Command>, seedEnvs: seq<Env>, envs: seq<Env>)
    requires Stream(cs) && |cs| <= |seedEnvs| && |cs| <= |envs|
    ensures var r := Consume(cs, seedEnvs, envs);
      && r.state.stats.verificationErrors == 0
      && (r.ok ==> Inv(cs, r.state, SsdKeys(cs) + EvictedKeys(cs)))
      && (AllKind(seedEnvs, |cs|) && AllKind(envs, |cs|) ==> (r.ok <==> cs != []))
  {
    var s := State(seq(MaxEnd(cs), i => 0), [], NO_STATS);
    StartGood(cs);
    assert cs[..|cs|] == cs;
    SeedGood(cs, s, seedEnvs, |cs|);
    var seeded := Seed(s, cs, seedEnvs, |cs|);
    if seeded.ok {
      RunGood(cs, seeded.state, envs, |cs|);
    }
  }

  lemma {:induction false} StartGood(cs: seq<Command>)
    requires Stream(cs)
    ensures Inv(cs, State(seq(MaxEnd(cs), i => 0), [], NO_STATS), {})
  {
    var s := State(seq(MaxEnd(cs), i => 0), [], NO_STATS);
    forall i | 0 <= i < |cs| ensures InFile(s.file, cs[i]) {
      assert Steady(cs[i]);
    }
  }
}
