/** What the Python runtime executor counts, over every operation list and every setup: allocations are paid for by
    reads, copies and seeds, and no operation goes uncounted.
 */
module RuntimeCounters {
  import opened Kv
  import opened Residency

  predicate IsRead(c: Command) {
    c.Moves(SSD, DRAM)
  }

  predicate IsUnsupported(c: Command) {
    !c.Moves(SSD, DRAM) && !c.Moves(DRAM, VRAM) && !c.op.Compute? && !c.EvictsToSsd()
  }

  /** The operations that did what they asked for, found no source or were not supported. */
  function Settled(n: Counts): nat {
    n.ssdReads + n.copies + n.computes + n.evicts + n.missing + n.unsupported
  }

  /** The relations between the counters after the operations `cs`. */
  ghost predicate Conserved(setup: Setup, cs: seq<Command>, n: Counts) {
    && n.dramAllocs + n.vramAllocs == n.ssdReads + n.copies + n.seeds
    && n.writes == n.evicts
    && n.ssdReads == Numbered(cs, IsRead) && n.unsupported == Numbered(cs, IsUnsupported)
    && Settled(n) <= |cs| <= Settled(n) + n.sizeMismatches
    && (if setup.seed then n.missing == 0 else n.seeds == 0 && n.seedBytes == 0)
  }

  /** What one operation adds, when it is a read or is unsupported and when it is not. */
  ghost predicate Adds(setup: Setup, a: Counts, readOp: nat, unsupported: nat, b: Counts) {
    && b.dramAllocs + b.vramAllocs - a.dramAllocs - a.vramAllocs == b.ssdReads + b.copies + b.seeds - a.ssdReads - a.copies - a.seeds
    && b.writes - a.writes == b.evicts - a.evicts
    && b.ssdReads == a.ssdReads + readOp && b.unsupported == a.unsupported + unsupported
    && Settled(a) <= Settled(b) <= Settled(a) + 1 <= Settled(b) + b.sizeMismatches - a.sizeMismatches
    && (if setup.seed then b.missing == a.missing else b.seeds == a.seeds && b.seedBytes == a.seedBytes)
  }

  lemma {:induction false} CopyAdds(setup: Setup, s: State, c: Command)
    requires Addressable(c)
    ensures Adds(setup, s.counts, 0, 0, DramToVram(setup, s, c).counts)
  {
    hide ReadOrPattern;
  }

  lemma {:induction false} ComputeAdds(setup: Setup, s: State, c: Command)
    requires Addressable(c)
    ensures Adds(setup, s.counts, 0, 0, ComputeOn(setup, s, c).counts)
  {
    hide ReadOrPattern;
  }

  lemma {:induction false} EvictAdds(setup: Setup, s: State, c: Command)
    requires Addressable(c)
    ensures Adds(setup, s.counts, 0, 0, EvictBlock(setup, s, c).counts)
  {
    hide ReadOrPattern;
  }

  lemma {:induction false} ReadAdds(setup: Setup, s: State, c: Command)
    requires Addressable(c)
    ensures Adds(setup, s.counts, 1, 0, SsdToDram(setup, s, c).counts)
  {
    hide ReadOrPattern;
  }

  lemma {:induction false} StepAdds(setup: Setup, s: State, c: Command)
    requires Addressable(c)
    ensures Adds(setup, s.counts, if IsRead(c) then 1 else 0, if IsUnsupported(c) then 1 else 0, Step(setup, s, c).counts)
  {
    CopyAdds(setup, s, c);
    ComputeAdds(setup, s, c);
    EvictAdds(setup, s, c);
    ReadAdds(setup, s, c);
    hide SsdToDram, DramToVram, ComputeOn, EvictBlock;
  }

  lemma {:induction false} ConserveStep(setup: Setup, front: seq<Command>, c: Command, a: Counts, b: Counts)
    requires Conserved(setup, front, a) && Adds(setup, a, if IsRead(c) then 1 else 0, if IsUnsupported(c) then 1 else 0, b)
    ensures Conserved(setup, front + [c], b)
  {
    assert (front + [c])[..|front|] == front;
    hide Settled, IsRead, IsUnsupported;
  }

  lemma {:induction false} NothingDone(setup: Setup)
    ensures Conserved(setup, [], NO_COUNTS)
  {
  }

  /** The relations hold after every operation list, with any file or none, seeding or not. */
  lemma {:induction false} RunConserves(setup: Setup, cs: seq<Command>)
    requires AllAddressable(cs)
    ensures Conserved(setup, cs, Run(setup, START, cs).counts)
  {
    hide Conserved, Step;
    if cs == [] {
      NothingDone(setup);
    } else {
      var front, c := cs[..|cs| - 1], cs[|cs| - 1];
      assert forall i :: 0 <= i < |front| ==> front[i] == cs[i];
      RunConserves(setup, front);
      var before := Run(setup, START, front);
      StepAdds(setup, before, c);
      ConserveStep(setup, front, c, before.counts, Step(setup, before, c).counts);
      assert front + [c] == cs;
    }
  }

  // ---------- bytes ----------

  /** Every buffer has the size. */
  ghost predicate Buffers(m: map<Key, Buffer>, size: int) {
    forall k :: k in m ==> m[k].size == size
  }

  /** Each count of bytes is the size times the count of moves, of computes, of evicts and of seeds. */
  ghost predicate Weighed(size: int, s: State) {
    && Buffers(s.dram, size) && Buffers(s.vram, size)
    && Weighs(size, s.counts.ssdReads, s.counts.readBytes) && Weighs(size, s.counts.copies, s.counts.copyBytes)
    && Weighs(size, s.counts.computes, s.counts.computeBytes) && Weighs(size, s.counts.writes, s.counts.writeBytes)
    && Weighs(size, s.counts.seeds, s.counts.seedBytes)
  }

  lemma {:induction false} CopyWeighed(setup: Setup, s: State, c: Command)
    requires Addressable(c) && Weighed(c.size, s)
    ensures Weighed(c.size, DramToVram(setup, s, c))
  {
    WeighsMore(c.size);
    hide ReadOrPattern, Weighs;
  }

  lemma {:induction false} ComputeWeighed(setup: Setup, s: State, c: Command)
    requires Addressable(c) && Weighed(c.size, s)
    ensures Weighed(c.size, ComputeOn(setup, s, c))
  {
    WeighsMore(c.size);
    hide ReadOrPattern, Weighs;
  }

  lemma {:induction false} EvictWeighed(setup: Setup, s: State, c: Command)
    requires Addressable(c) && Weighed(c.size, s)
    ensures Weighed(c.size, EvictBlock(setup, s, c))
  {
    WeighsMore(c.size);
    hide ReadOrPattern, Weighs;
  }

  lemma {:induction false} StepWeighed(setup: Setup, s: State, c: Command)
    requires Addressable(c) && Weighed(c.size, s)
    ensures Weighed(c.size, Step(setup, s, c))
  {
    CopyWeighed(setup, s, c);
    ComputeWeighed(setup, s, c);
    EvictWeighed(setup, s, c);
    WeighsMore(c.size);
    hide ReadOrPattern, Weighs, DramToVram, ComputeOn, EvictBlock;
  }

  /** When all operations have one size, with and without seeding, each count of bytes is that size times the
      count of what it measures. */
  lemma {:induction false} RunWeighed(setup: Setup, cs: seq<Command>, size: int)
    requires AllAddressable(cs) && AllOfSize(cs, size)
    ensures Weighed(size, Run(setup, START, cs))
  {
    if cs == [] {
      WeighsMore(size);
    } else {
      var front, c := cs[..|cs| - 1], cs[|cs| - 1];
      assert forall i :: 0 <= i < |front| ==> front[i] == cs[i];
      RunWeighed(setup, front, size);
      StepWeighed(setup, Run(setup, START, front), c);
      hide Step, Weighed;
    }
  }
}
