/** What the C consumer counts: after a successful run its counters are numbers of commands, every compute was
    verified, and each range of the backing file was seeded once.
 */
module ConsumerCounters {
  import opened Kv
  import opened ConsumerModel

  predicate IsLoad(c: Command) {
    c.op.Load?
  }

  predicate IsPrefetch(c: Command) {
    c.op.Prefetch?
  }

  predicate IsCompute(c: Command) {
    c.op.Compute?
  }

  predicate IsEvict(c: Command) {
    c.op.Evict?
  }

  predicate ReadsFile(c: Command) {
    (c.op.Load? || c.op.Prefetch?) && c.source.SSD?
  }

  predicate CopiesUp(c: Command) {
    (c.op.Load? || c.op.Prefetch?) && c.source.DRAM? && c.target.VRAM?
  }

  lemma {:induction false} NumberedNext(cs: seq<Command>, yes: Command -> bool, n: nat)
    requires n < |cs|
    ensures Numbered(cs[..n + 1], yes) == Numbered(cs[..n], yes) + if yes(cs[n]) then 1 else 0
  {
    assert cs[..n + 1][..n] == cs[..n];
  }

  /** Only the counts of buffers that had to be filled differ. */
  ghost predicate SameWork(a: Stats, b: Stats) {
    b == a.(lazyInits := b.lazyInits, lazyBytes := b.lazyBytes)
  }

  lemma {:induction false} EnsureWork(slot: Slot, at: Location, c: Command, env: Env, stats: Stats)
    ensures SameWork(stats, EnsureBuffer(slot, at, c, env, stats).stats)
  {
    hide Pattern;
  }

  /** The counters of work, as a record of their own. */
  datatype Work = Work(
    loads: nat, prefetches: nat, computes: nat, verified: nat, evicts: nat, written: nat, fetched: nat, copies: nat, errors: nat, seeds: nat)
  {
    function Plus(w: Work): Work {
      Work(loads + w.loads, prefetches + w.prefetches, computes + w.computes, verified + w.verified, evicts + w.evicts,
           written + w.written, fetched + w.fetched, copies + w.copies, errors + w.errors, seeds + w.seeds)
    }
  }

  function WorkOf(s: Stats): Work {
    Work(s.loads, s.prefetches, s.computes, s.verified, s.evicts, s.ssdWrites, s.ssdReads, s.copies, s.verificationErrors, s.ssdSeeds)
  }

  /** The work of one command. */
  function Share(c: Command): Work {
    Work(One(IsLoad(c)), One(IsPrefetch(c)), One(IsCompute(c)), One(IsCompute(c)), One(IsEvict(c)), One(IsEvict(c)),
         One(ReadsFile(c)), One(CopiesUp(c)), 0, 0)
  }

  lemma {:induction false} MoveSteps(s: State, i: nat, c: Command, env: Env)
    requires i < |s.slots| && Move(s, i, c, env).ok
    ensures WorkOf(Move(s, i, c, env).state.stats) == WorkOf(s.stats).(
      fetched := s.stats.ssdReads + One(c.source.SSD?), copies := s.stats.copies + One(c.source.DRAM? && c.target.VRAM?))
  {
    hide Verifies, Overwrite, Pattern, Fresh, InFile, EnsureBuffer;
    EnsureWork(AllocTarget(s.slots[i], c.target, c, env).value, c.source, c, env, s.stats);
  }

  lemma {:induction false} ComputeSteps(s: State, i: nat, c: Command, env: Env)
    requires i < |s.slots| && ComputeOn(s, i, c, env).ok
    ensures WorkOf(ComputeOn(s, i, c, env).state.stats) == WorkOf(s.stats).(verified := s.stats.verified + 1)
  {
    hide Verifies, EnsureBuffer;
    EnsureWork(s.slots[i], VRAM, c, env, s.stats);
  }

  lemma {:induction false} EvictSteps(s: State, i: nat, c: Command, env: Env)
    requires i < |s.slots| && EvictBlock(s, i, c, env).ok
    ensures WorkOf(EvictBlock(s, i, c, env).state.stats) == WorkOf(s.stats).(written := s.stats.ssdWrites + 1)
  {
    hide WriteAt, EnsureBuffer;
    EnsureWork(s.slots[i], c.source, c, env, s.stats);
  }

  lemma {:induction false} ExecuteSteps(s: State, c: Command, env: Env)
    requires Execute(s, c, env).ok
    ensures WorkOf(Execute(s, c, env).state.stats) == WorkOf(s.stats).Plus(Share(c))
  {
    hide FindSlot, Move, ComputeOn, EvictBlock;
    var got := GetSlot(s.slots, c, env);
    var t := s.(slots := got.slots, stats := CountOp(s.stats, c));
    match c.op {
      case Load => MoveSteps(t, got.at.value, c, env);
      case Prefetch => MoveSteps(t, got.at.value, c, env);
      case Compute => ComputeSteps(t, got.at.value, c, env);
      case Evict => EvictSteps(t, got.at.value, c, env);
      case OtherOp(_) =>
    }
  }

  /** The work of all commands. */
  function TotalWork(cs: seq<Command>): Work {
    Work(Numbered(cs, IsLoad), Numbered(cs, IsPrefetch), Numbered(cs, IsCompute), Numbered(cs, IsCompute), Numbered(cs, IsEvict),
         Numbered(cs, IsEvict), Numbered(cs, ReadsFile), Numbered(cs, CopiesUp), 0, 0)
  }

  lemma {:induction false} TotalNext(cs: seq<Command>, n: nat)
    requires n < |cs|
    ensures TotalWork(cs[..n + 1]) == TotalWork(cs[..n]).Plus(Share(cs[n]))
  {
    NumberedNext(cs, IsLoad, n);
    NumberedNext(cs, IsPrefetch, n);
    NumberedNext(cs, IsCompute, n);
    NumberedNext(cs, IsEvict, n);
    NumberedNext(cs, ReadsFile, n);
    NumberedNext(cs, CopiesUp, n);
    hide Numbered, IsLoad, IsPrefetch, IsCompute, IsEvict, ReadsFile, CopiesUp;
  }

  lemma {:induction false} NoWork(w: Work)
    ensures w == w.Plus(TotalWork([]))
  {
  }

  lemma {:induction false} PlusAssociates(a: Work, b: Work, c: Work)
    ensures a.Plus(b).Plus(c) == a.Plus(b.Plus(c))
  {
  }

  lemma {:induction false} RunCounted(s: State, cs: seq<Command>, envs: seq<Env>, n: nat)
    requires n <= |cs| <= |envs| && Run(s, cs, envs, n).ok
    ensures WorkOf(Run(s, cs, envs, n).state.stats) == WorkOf(s.stats).Plus(TotalWork(cs[..n]))
  {
    hide Execute, Share, WorkOf, TotalWork, Work.Plus;
    if n == 0 {
      NoWork(WorkOf(s.stats));
    } else {
      RunCounted(s, cs, envs, n - 1);
      PlusAssociates(WorkOf(s.stats), TotalWork(cs[..n - 1]), Share(cs[n - 1]));
      ExecuteSteps(Run(s, cs, envs, n - 1).state, cs[n - 1], envs[n - 1]);
      TotalNext(cs, n - 1);
    }
  }

  // ---------- seeding ----------

  /** The ranges of the backing file that the commands read. */
  function ReadRanges(cs: seq<Command>): set<Extent> {
    set i | 0 <= i < |cs| && cs[i].source.SSD? :: cs[i].Place()
  }

  lemma {:induction false} ReadRangesNext(cs: seq<Command>, n: nat)
    requires n < |cs|
    ensures var front := ReadRanges(cs[..n]);
      && (Seen(cs, n) <==> cs[n].Place() in front)
      && ReadRanges(cs[..n + 1]) == if cs[n].source.SSD? then front + {cs[n].Place()} else front
  {
    var front := ReadRanges(cs[..n]);
    if Seen(cs, n) {
      var j :| 0 <= j < n && cs[j].source.SSD? && cs[j].offset == cs[n].offset && cs[j].size == cs[n].size;
      assert cs[..n][j] == cs[j] && cs[j].Place() == cs[n].Place();
    }
    forall x | x in ReadRanges(cs[..n + 1])
      ensures x in front || (cs[n].source.SSD? && x == cs[n].Place())
    {
      var j :| 0 <= j < n + 1 && cs[..n + 1][j].source.SSD? && cs[..n + 1][j].Place() == x;
      assert j < n ==> cs[..n][j] == cs[j];
    }
    forall x | x in front ensures x in ReadRanges(cs[..n + 1]) {
      var j :| 0 <= j < n && cs[..n][j].source.SSD? && cs[..n][j].Place() == x;
      assert cs[..n + 1][j] == cs[j];
    }
    assert cs[..n + 1][n] == cs[n];
  }

  /** Each range that is read is seeded exactly once. */
  lemma {:induction false} SeedCounted(s: State, cs: seq<Command>, envs: seq<Env>, n: nat)
    requires n <= |cs| <= |envs| && Seed(s, cs, envs, n).ok
    ensures Seed(s, cs, envs, n).state.stats ==
      s.stats.(ssdSeeds := s.stats.ssdSeeds + |ReadRanges(cs[..n])|, seedBytes := Seed(s, cs, envs, n).state.stats.seedBytes)
  {
    if n == 0 {
      assert ReadRanges(cs[..0]) == {};
    } else {
      hide Pattern, WriteAt, ReadRanges;
      SeedCounted(s, cs, envs, n - 1);
      ReadRangesNext(cs, n - 1);
    }
  }

  /** After a successful run: each counter is a number of commands, every compute was verified, every evict was
      written, and each distinct range of the file that is read was seeded once. */
  lemma {:induction false} ConsumeCounts(cs: seq<Command>, seedEnvs: seq<Env>, envs: seq<Env>)
    requires |cs| <= |seedEnvs| && |cs| <= |envs| && Consume(cs, seedEnvs, envs).ok
    ensures var n := Consume(cs, seedEnvs, envs).state.stats;
      && n.loads == Numbered(cs, IsLoad) && n.prefetches == Numbered(cs, IsPrefetch)
      && n.computes == n.verified == Numbered(cs, IsCompute) && n.evicts == n.ssdWrites == Numbered(cs, IsEvict)
      && n.ssdReads == Numbered(cs, ReadsFile) && n.copies == Numbered(cs, CopiesUp)
      && n.ssdSeeds == |ReadRanges(cs)| && n.verificationErrors == 0
  {
    hide Run, Seed, Numbered, ReadRanges, MaxEnd;
    var s := State(seq(MaxEnd(cs), i => 0), [], NO_STATS);
    SeedCounted(s, cs, seedEnvs, |cs|);
    RunCounted(Seed(s, cs, seedEnvs, |cs|).state, cs, envs, |cs|);
    assert cs[..|cs|] == cs;
  }

  // ---------- bytes ----------

  ghost predicate Weighed(size: int, s: Stats) {
    && Weighs(size, s.ssdReads, s.readBytes) && Weighs(size, s.ssdWrites, s.writeBytes) && Weighs(size, s.copies, s.copyBytes)
    && Weighs(size, s.lazyInits, s.lazyBytes) && Weighs(size, s.ssdSeeds, s.seedBytes)
  }

  lemma {:induction false} EnsureWeighed(slot: Slot, at: Location, c: Command, env: Env, stats: Stats)
    requires Weighed(SizeOf(c), stats)
    ensures Weighed(SizeOf(c), EnsureBuffer(slot, at, c, env, stats).stats)
  {
    WeighsMore(SizeOf(c));
    hide Pattern, Weighs;
  }

  lemma {:induction false} MoveWeighed(s: State, i: nat, c: Command, env: Env)
    requires i < |s.slots| && Weighed(SizeOf(c), s.stats)
    ensures Weighed(SizeOf(c), Move(s, i, c, env).state.stats)
  {
    hide Verifies, Overwrite, Pattern, Fresh, InFile, EnsureBuffer, Weighs;
    WeighsMore(SizeOf(c));
    if AllocTarget(s.slots[i], c.target, c, env).Some? {
      EnsureWeighed(AllocTarget(s.slots[i], c.target, c, env).value, c.source, c, env, s.stats);
    }
  }

  lemma {:induction false} ExecuteWeighed(s: State, c: Command, env: Env)
    requires Weighed(SizeOf(c), s.stats)
    ensures Weighed(SizeOf(c), Execute(s, c, env).state.stats)
  {
    hide FindSlot, Move, EnsureBuffer, Verifies, WriteAt, Weighs;
    WeighsMore(SizeOf(c));
    var got := GetSlot(s.slots, c, env);
    if got.at.Some? {
      var t := s.(slots := got.slots, stats := CountOp(s.stats, c));
      MoveWeighed(t, got.at.value, c, env);
      EnsureWeighed(t.slots[got.at.value], VRAM, c, env, t.stats);
      EnsureWeighed(t.slots[got.at.value], c.source, c, env, t.stats);
    }
  }

  lemma {:induction false} RunWeighed(s: State, cs: seq<Command>, envs: seq<Env>, n: nat, size: nat)
    requires n <= |cs| <= |envs| && AllOfSize(cs, size) && Weighed(size, s.stats)
    ensures Weighed(size, Run(s, cs, envs, n).state.stats)
  {
    hide Execute, Weighed;
    if n > 0 {
      RunWeighed(s, cs, envs, n - 1, size);
      if Run(s, cs, envs, n - 1).ok {
        ExecuteWeighed(Run(s, cs, envs, n - 1).state, cs[n - 1], envs[n - 1]);
      }
    }
  }

  lemma {:induction false} SeedWeighed(s: State, cs: seq<Command>, envs: seq<Env>, n: nat, size: nat)
    requires n <= |cs| <= |envs| && AllOfSize(cs, size) && Weighed(size, s.stats)
    ensures Weighed(size, Seed(s, cs, envs, n).state.stats)
  {
    if n > 0 {
      SeedWeighed(s, cs, envs, n - 1, size);
      WeighsMore(size);
      hide Pattern, WriteAt, Seen, Weighs;
    }
  }

  /** When all commands have one size, whatever fails: each count of bytes is that size times the count of what
      it measures. */
  lemma {:induction false} ConsumeWeighed(cs: seq<Command>, seedEnvs: seq<Env>, envs: seq<Env>, size: nat)
    requires |cs| <= |seedEnvs| && |cs| <= |envs| && AllOfSize(cs, size)
    ensures Weighed(size, Consume(cs, seedEnvs, envs).state.stats)
  {
    var s := State(seq(MaxEnd(cs), i => 0), [], NO_STATS);
    WeighsMore(size);
    SeedWeighed(s, cs, seedEnvs, |cs|, size);
    hide Run, Seed, Weighs, MaxEnd;
    RunWeighed(Seed(s, cs, seedEnvs, |cs|).state, cs, envs, |cs|, size);
  }
}
