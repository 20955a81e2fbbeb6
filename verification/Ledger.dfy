/** The common meaning of an evict-free command stream, on which the three executors agree: how often data
    is read, copied, computed on and lazily seeded, and which blocks are present in DRAM and VRAM.
 */
module Ledger {
  import opened Kv
  import opened Blocks
  import opened Timeline
  import opened SsdLayout
  import opened Pipeline

  datatype Ledger = Ledger(
    ssdReads: nat, readBytes: int, copies: nat, copyBytes: int, computes: nat, seeds: nat, seedBytes: int,
    dram: set<BlockKey>, vram: set<BlockKey>)

  const EMPTY := Ledger(0, 0, 0, 0, 0, 0, 0, {}, {})

  /** The command kinds a timeline compiles to. */
  predicate Simple(c: Command) {
    c.Moves(SSD, DRAM) || c.Moves(DRAM, VRAM) || c.op.Compute?
  }

  predicate AllSimple(cs: seq<Command>) {
    forall i :: 0 <= i < |cs| ==> Simple(cs[i])
  }

  function SeedDram(l: Ledger, c: Command): Ledger {
    if c.PlanKey() in l.dram then l
    else l.(seeds := l.seeds + 1, seedBytes := l.seedBytes + c.size, dram := l.dram + {c.PlanKey()})
  }

  function SeedVram(l: Ledger, c: Command): Ledger {
    if c.PlanKey() in l.vram then l
    else l.(seeds := l.seeds + 1, seedBytes := l.seedBytes + c.size, vram := l.vram + {c.PlanKey()})
  }

  function Step(l: Ledger, c: Command): Ledger {
    if c.Moves(SSD, DRAM) then
      l.(ssdReads := l.ssdReads + 1, readBytes := l.readBytes + c.size, dram := l.dram + {c.PlanKey()})
    else if c.Moves(DRAM, VRAM) then
      var s := SeedDram(l, c);
      s.(copies := s.copies + 1, copyBytes := s.copyBytes + c.size, vram := s.vram + {c.PlanKey()})
    else if c.op.Compute? then
      var s := SeedVram(l, c);
      s.(computes := s.computes + 1)
    else l
  }

  function Run(l: Ledger, cs: seq<Command>): Ledger {
    if cs == [] then l else Step(Run(l, cs[..|cs| - 1]), cs[|cs| - 1])
  }

  lemma {:induction false} RunAppend(l: Ledger, a: seq<Command>, b: seq<Command>)
    ensures Run(l, a + b) == Run(Run(l, a), b)
  {
    if b == [] {
      assert a + b == a;
    } else {
      RunAppend(l, a, b[..|b| - 1]);
      assert (a + b)[..|a + b| - 1] == a + b[..|b| - 1];
    }
  }

  /** The blocks of `bs` that start on one of two tiers. */
  function KeysOn(bs: seq<BlockInfo>, where: Residency, a: Tier, b: Tier): set<BlockKey>
    requires Known(bs, where)
  {
    set i | 0 <= i < |bs| && (where[bs[i].key] == a || where[bs[i].key] == b) :: bs[i].key
  }

  function Keys(bs: seq<BlockInfo>): set<BlockKey> {
    set i | 0 <= i < |bs| :: bs[i].key
  }

  /** What one chain does to a ledger that does not know its block yet. */
  lemma {:induction false} ChainEffect(l: Ledger, b: BlockInfo, offset: int, at: Tier)
    requires b.key !in l.dram && b.key !in l.vram
    ensures var r := Run(l, Chain(b, offset, at));
      && r.ssdReads == l.ssdReads + (if at.SSD? then 1 else 0)
      && r.readBytes == l.readBytes + (if at.SSD? then b.size else 0)
      && r.copies == l.copies + (if at.VRAM? then 0 else 1)
      && r.copyBytes == l.copyBytes + (if at.VRAM? then 0 else b.size)
      && r.computes == l.computes + 1
      && r.seeds == l.seeds + (if at.SSD? then 0 else 1)
      && r.seedBytes == l.seedBytes + (if at.SSD? then 0 else b.size)
      && r.dram == l.dram + (if at.VRAM? then {} else {b.key})
      && r.vram == l.vram + {b.key}
  {
    var cs := Chain(b, offset, at);
    assert cs[..1][..0] == [] && Run(l, cs[..1]) == Step(l, cs[0]);
    if !at.VRAM? {
      assert cs[..2][..1] == cs[..1];
      if at.SSD? {
        assert cs[..3][..2] == cs[..2] && cs[..3] == cs;
      } else {
        assert cs[..2] == cs;
      }
    } else {
      assert cs[..1] == cs;
    }
  }

  lemma {:induction false} KeysStep(bs: seq<BlockInfo>, where: Residency)
    requires bs != [] && Known(bs, where) && DistinctKeys(bs)
    ensures var front, b := bs[..|bs| - 1], bs[|bs| - 1];
      && Keys(bs) == Keys(front) + {b.key} && b.key !in Keys(front)
      && KeysOn(bs, where, SSD, DRAM) == KeysOn(front, where, SSD, DRAM) + (if where[b.key].VRAM? then {} else {b.key})
      && KeysOn(front, where, SSD, DRAM) <= Keys(front)
  {
  }

  /** Compilation preserves meaning, on the ledger: running the stream of a timeline from empty buffers
      leaves exactly the scheduled blocks in VRAM, the blocks that started on SSD or DRAM in DRAM, seeds
      exactly those that did not start on SSD, and reads exactly those that did. */
  lemma {:induction false} TimelineMeaning(bs: seq<BlockInfo>, where: Residency, l: Layout)
    requires Known(bs, where) && DistinctKeys(bs)
    ensures var r := Run(EMPTY, Derived(bs, where, l));
      && r.vram == Keys(bs) && r.dram == KeysOn(bs, where, SSD, DRAM)
      && r.ssdReads == CountOn(bs, where, SSD) && r.readBytes == SizeOn(bs, where, SSD)
      && r.copies == CountOn(bs, where, SSD) + CountOn(bs, where, DRAM)
      && r.copyBytes == SizeOn(bs, where, SSD) + SizeOn(bs, where, DRAM)
      && r.computes == |bs|
      && r.seeds == CountOn(bs, where, DRAM) + CountOn(bs, where, VRAM)
      && r.seedBytes == SizeOn(bs, where, DRAM) + SizeOn(bs, where, VRAM)
  {
    if bs == [] {
    } else {
      var front, b := bs[..|bs| - 1], bs[|bs| - 1];
      TimelineMeaning(front, where, l);
      KeysStep(bs, where);
      var chain := Chain(b, OffsetOf(l, b.key), where[b.key]);
      RunAppend(EMPTY, Derived(front, where, l), chain);
      hide Chain;
      ChainEffect(Run(EMPTY, Derived(front, where, l)), b, OffsetOf(l, b.key), where[b.key]);
    }
  }

  lemma {:induction false} DerivedSimple(bs: seq<BlockInfo>, where: Residency, l: Layout)
    requires Known(bs, where)
    ensures AllSimple(Derived(bs, where, l))
  {
    forall i | 0 <= i < |Derived(bs, where, l)| ensures Simple(Derived(bs, where, l)[i]) {
      var k := MemberOf(bs, where, l, i);
      ChainMember(bs[k], OffsetOf(l, bs[k].key), where[bs[k].key], Derived(bs, where, l)[i]);
    }
  }

  // ---------- streams with evicts ----------

  /** The ledger and the evicts: those that found a buffer to free, and those in vain. */
  datatype Account = Account(ledger: Ledger, evicts: nat, evictBytes: int, vain: nat, vainBytes: int)

  const NO_ACCOUNT := Account(EMPTY, 0, 0, 0, 0)

  predicate Resident(l: Ledger, key: BlockKey) {
    key in l.vram || key in l.dram
  }

  /** An evict frees the VRAM buffer before the DRAM buffer, one of them at a time. */
  function Free(l: Ledger, key: BlockKey): Ledger {
    if key in l.vram then l.(vram := l.vram - {key}) else l.(dram := l.dram - {key})
  }

  function Settle(a: Account, c: Command): Account {
    if !c.EvictsToSsd() then a.(ledger := Step(a.ledger, c))
    else if Resident(a.ledger, c.PlanKey()) then
      a.(ledger := Free(a.ledger, c.PlanKey()), evicts := a.evicts + 1, evictBytes := a.evictBytes + c.size)
    else a.(vain := a.vain + 1, vainBytes := a.vainBytes + c.size)
  }

  function SettleAll(a: Account, cs: seq<Command>): Account {
    if cs == [] then a else Settle(SettleAll(a, cs[..|cs| - 1]), cs[|cs| - 1])
  }

  lemma {:induction false} SettleAppend(a: Account, x: seq<Command>, y: seq<Command>)
    ensures SettleAll(a, x + y) == SettleAll(SettleAll(a, x), y)
  {
    if y == [] {
      assert x + y == x;
    } else {
      SettleAppend(a, x, y[..|y| - 1]);
      assert (x + y)[..|x + y| - 1] == x + y[..|y| - 1];
    }
  }

  /** Without evicts the account is the ledger. */
  lemma {:induction false} SettleSimple(cs: seq<Command>)
    requires forall i :: 0 <= i < |cs| ==> !cs[i].EvictsToSsd()
    ensures SettleAll(NO_ACCOUNT, cs) == NO_ACCOUNT.(ledger := Run(EMPTY, cs))
  {
    if cs == [] {
    } else {
      SettleSimple(cs[..|cs| - 1]);
    }
  }

  /** Every evict of the stream finds its block in VRAM or in DRAM. */
  ghost predicate EvictsFind(cs: seq<Command>) {
    forall n :: 0 <= n < |cs| && cs[n].EvictsToSsd() ==> Resident(SettleAll(NO_ACCOUNT, cs[..n]).ledger, cs[n].PlanKey())
  }

  lemma {:induction false} NoneInVain(cs: seq<Command>)
    ensures SettleAll(NO_ACCOUNT, cs).vain == 0 <==> EvictsFind(cs)
  {
    if cs == [] {
    } else {
      var front, last := cs[..|cs| - 1], cs[|cs| - 1];
      NoneInVain(front);
      assert forall n :: 0 <= n <= |front| ==> front[..n] == cs[..n];
      hide Settle, SettleAll, Resident;
      assert EvictsFind(cs) <==> EvictsFind(front) && (last.EvictsToSsd() ==> Resident(SettleAll(NO_ACCOUNT, front).ledger, last.PlanKey())) by {
        FindsSnoc(cs);
      }
      VainStep(SettleAll(NO_ACCOUNT, front), last);
      SettleLast(cs);
    }
  }

  lemma {:induction false} SettleLast(cs: seq<Command>)
    requires cs != []
    ensures SettleAll(NO_ACCOUNT, cs) == Settle(SettleAll(NO_ACCOUNT, cs[..|cs| - 1]), cs[|cs| - 1])
  {
  }

  lemma {:induction false} VainStep(a: Account, c: Command)
    ensures Settle(a, c).vain == 0 <==> a.vain == 0 && (c.EvictsToSsd() ==> Resident(a.ledger, c.PlanKey()))
  {
  }

  lemma {:induction false} FindsSnoc(cs: seq<Command>)
    requires cs != []
    ensures var front, last := cs[..|cs| - 1], cs[|cs| - 1];
      EvictsFind(cs) <==> EvictsFind(front) && (last.EvictsToSsd() ==> Resident(SettleAll(NO_ACCOUNT, front).ledger, last.PlanKey()))
  {
    var front := cs[..|cs| - 1];
    hide SettleAll, Resident;
    forall n | 0 <= n < |front| ensures front[n] == cs[n] && front[..n] == cs[..n] {
    }
    if EvictsFind(cs) {
      assert cs[..|front|] == front;
    }
    if EvictsFind(front) {
      forall n | 0 <= n < |front| && cs[n].EvictsToSsd() ensures Resident(SettleAll(NO_ACCOUNT, cs[..n]).ledger, cs[n].PlanKey()) {
        assert front[n] == cs[n] && front[..n] == cs[..n];
      }
    }
  }
}
