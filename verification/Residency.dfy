/** The runtime residency executor: explicit DRAM and VRAM buffers, filled from a backing file or from a
    pattern, with counters for moves, lazily seeded sources and errors.
 */
module Residency {
  import opened Kv
  import opened Blocks
  import opened Timeline
  import opened SsdLayout
  import opened Pipeline
  import L = Ledger

  datatype Buffer = Buffer(key: Key, size: int, data: seq<Byte>)

  datatype Counts = Counts(
    ssdReads: nat, readBytes: int, copies: nat, copyBytes: int, computes: nat, computeBytes: int,
    evicts: nat, writes: nat, writeBytes: int, dramAllocs: nat, vramAllocs: nat,
    seeds: nat, seedBytes: int, missing: nat, sizeMismatches: nat, unsupported: nat)

  const NO_COUNTS := Counts(0, 0, 0, 0, 0, 0, 0, 0, 0, 0, 0, 0, 0, 0, 0, 0)

  /** The backing file, if any, and whether missing sources are seeded. */
  datatype Setup = Setup(backing: Option<seq<Byte>>, seed: bool)

  datatype State = State(dram: map<Key, Buffer>, vram: map<Key, Buffer>, counts: Counts)

  const START := State(map[], map[], NO_COUNTS)

  function Errors(c: Counts): nat {
    c.missing + c.sizeMismatches + c.unsupported
  }

  /** The operation names a range that can be asked for. */
  predicate Addressable(c: Command) {
    c.size >= 0 && c.offset >= 0
  }

  function PatternByte(c: Command, i: nat): Byte {
    (((c.layer * 1315423911 + c.block * 2654435761 + c.start * 97 + c.offset) % 256 + i) % 256) as Byte
  }

  datatype Filled = Filled(data: seq<Byte>, short: bool)

  /** Read the range from the backing file, padding a short read with zeros, or make up a pattern. */
  function ReadOrPattern(setup: Setup, c: Command): (r: Filled)
    requires Addressable(c)
    ensures |r.data| == c.size
  {
    match setup.backing
    case None => Filled(seq(c.size, i requires 0 <= i < c.size => PatternByte(c, i)), false)
    case Some(file) =>
      if c.offset + c.size <= |file| then Filled(file[c.offset..c.offset + c.size], false)
      else
        var got := if c.offset < |file| then file[c.offset..] else [];
        Filled(got + seq(c.size - |got|, i => 0), c.size > 0)
  }

  /** A byte of the file, zero past its end. */
  function FileByte(file: seq<Byte>, at: nat): Byte {
    if at < |file| then file[at] else 0
  }

  /** A read seeks first: byte `k` is byte `offset + k` of the file, or zero past its end, and the read is short
      exactly when the range reaches past the end. */
  lemma {:induction false} ReadBytes(setup: Setup, c: Command)
    requires Addressable(c) && setup.backing.Some?
    ensures var r, file := ReadOrPattern(setup, c), setup.backing.value;
      && |r.data| == c.size && (forall k :: 0 <= k < c.size ==> r.data[k] == FileByte(file, c.offset + k))
      && (r.short <==> c.size > 0 && c.offset + c.size > |file|)
  {
  }

  function CountShort(counts: Counts, short: bool): Counts {
    counts.(sizeMismatches := counts.sizeMismatches + if short then 1 else 0)
  }

  function BufferOf(c: Command, data: seq<Byte>): Buffer {
    Buffer(c.BufferKey(), c.size, data)
  }

  function SsdToDram(setup: Setup, s: State, c: Command): State
    requires Addressable(c)
  {
    var filled := ReadOrPattern(setup, c);
    var n := CountShort(s.counts, filled.short);
    s.(dram := s.dram[c.BufferKey() := BufferOf(c, filled.data)],
       counts := n.(ssdReads := n.ssdReads + 1, readBytes := n.readBytes + c.size, dramAllocs := n.dramAllocs + 1))
  }

  function SeedDram(setup: Setup, s: State, c: Command): State
    requires Addressable(c)
  {
    var filled := ReadOrPattern(setup, c);
    var n := CountShort(s.counts, filled.short);
    s.(dram := s.dram[c.BufferKey() := BufferOf(c, filled.data)],
       counts := n.(dramAllocs := n.dramAllocs + 1, seeds := n.seeds + 1, seedBytes := n.seedBytes + c.size))
  }

  function SeedVram(setup: Setup, s: State, c: Command): State
    requires Addressable(c)
  {
    var filled := ReadOrPattern(setup, c);
    var n := CountShort(s.counts, filled.short);
    s.(vram := s.vram[c.BufferKey() := BufferOf(c, filled.data)],
       counts := n.(vramAllocs := n.vramAllocs + 1, seeds := n.seeds + 1, seedBytes := n.seedBytes + c.size))
  }

  function CountMissing(s: State): State {
    s.(counts := s.counts.(missing := s.counts.missing + 1))
  }

  function CountMismatch(s: State): State {
    s.(counts := s.counts.(sizeMismatches := s.counts.sizeMismatches + 1))
  }

  function DramToVram(setup: Setup, s: State, c: Command): State
    requires Addressable(c)
  {
    var key := c.BufferKey();
    if key !in s.dram && !setup.seed then CountMissing(s)
    else
      var t := if key in s.dram then s else SeedDram(setup, s, c);
      var source := t.dram[key];
      if source.size != c.size then CountMismatch(t)
      else
        t.(vram := t.vram[key := source],
           counts := t.counts.(copies := t.counts.copies + 1, copyBytes := t.counts.copyBytes + source.size,
                               vramAllocs := t.counts.vramAllocs + 1))
  }

  function ComputeOn(setup: Setup, s: State, c: Command): State
    requires Addressable(c)
  {
    var key := c.BufferKey();
    if key !in s.vram && !setup.seed then CountMissing(s)
    else
      var t := if key in s.vram then s else SeedVram(setup, s, c);
      var source := t.vram[key];
      if source.size != c.size then CountMismatch(t)
      else t.(counts := t.counts.(computes := t.counts.computes + 1, computeBytes := t.counts.computeBytes + source.size))
  }

  function CountEvict(s: State, size: int): State {
    s.(counts := s.counts.(evicts := s.counts.evicts + 1, writes := s.counts.writes + 1, writeBytes := s.counts.writeBytes + size))
  }

  function EvictBlock(setup: Setup, s: State, c: Command): State
    requires Addressable(c)
  {
    var key := c.BufferKey();
    if key in s.vram then CountEvict(s.(vram := s.vram - {key}), s.vram[key].size)
    else if key in s.dram then CountEvict(s.(dram := s.dram - {key}), s.dram[key].size)
    else if !setup.seed then CountMissing(s)
    else
      var t := SeedVram(setup, s, c);
      CountEvict(t.(vram := t.vram - {key}), c.size)
  }

  function Step(setup: Setup, s: State, c: Command): State
    requires Addressable(c)
  {
    if c.Moves(SSD, DRAM) then SsdToDram(setup, s, c)
    else if c.Moves(DRAM, VRAM) then DramToVram(setup, s, c)
    else if c.op.Compute? then ComputeOn(setup, s, c)
    else if c.EvictsToSsd() then EvictBlock(setup, s, c)
    else s.(counts := s.counts.(unsupported := s.counts.unsupported + 1))
  }

  ghost predicate AllAddressable(cs: seq<Command>) {
    forall i :: 0 <= i < |cs| ==> Addressable(cs[i])
  }

  function Run(setup: Setup, s: State, cs: seq<Command>): State
    requires forall i :: 0 <= i < |cs| ==> Addressable(cs[i])
  {
    if cs == [] then s
    else
      assert forall i :: 0 <= i < |cs| - 1 ==> cs[..|cs| - 1][i] == cs[i];
      Step(setup, Run(setup, s, cs[..|cs| - 1]), cs[|cs| - 1])
  }

  /** The executor object: dictionaries and counters updated operation by operation. */
  class RuntimeResidencyExecutor {
    const setup: Setup
    var dram: map<Key, Buffer>
    var vram: map<Key, Buffer>
    var counts: Counts

    function Now(): State
      reads this
    {
      State(dram, vram, counts)
    }

    constructor (setup: Setup)
      ensures this.setup == setup && Now() == START
    {
      this.setup := setup;
      dram, vram, counts := map[], map[], NO_COUNTS;
    }

    method ReadBackingOrPattern(c: Command) returns (data: seq<Byte>)
      requires Addressable(c)
      modifies this`counts
      ensures data == ReadOrPattern(setup, c).data
      ensures counts == CountShort(old(counts), ReadOrPattern(setup, c).short)
      ensures setup.backing.Some? ==> |data| == c.size && forall k :: 0 <= k < c.size ==> data[k] == FileByte(setup.backing.value, c.offset + k)
      ensures setup.backing.Some? ==>
        counts.sizeMismatches == old(counts).sizeMismatches + if c.size > 0 && c.offset + c.size > |setup.backing.value| then 1 else 0
    {
      match setup.backing {
        case None =>
          data := seq(c.size, i requires 0 <= i < c.size => PatternByte(c, i));
        case Some(file) =>
          var from := if c.offset <= |file| then c.offset else |file|;
          var to := if c.offset + c.size <= |file| then c.offset + c.size else |file|;
          data := file[from..if from <= to then to else from];
          if |data| != c.size {
            counts := counts.(sizeMismatches := counts.sizeMismatches + 1);
            data := data + seq(c.size - |data|, i => 0);
          }
      }
    }

    method ExecuteSsdToDram(c: Command)
      requires Addressable(c)
      modifies this
      ensures Now() == SsdToDram(setup, old(Now()), c)
    {
      var data := ReadBackingOrPattern(c);
      dram := dram[c.BufferKey() := BufferOf(c, data)];
      counts := counts.(ssdReads := counts.ssdReads + 1, readBytes := counts.readBytes + c.size, dramAllocs := counts.dramAllocs + 1);
    }

    method SeedSourceBuffer(c: Command, location: Location) returns (b: Option<Buffer>)
      requires Addressable(c)
      modifies this
      ensures setup.seed && location.DRAM? ==> Now() == SeedDram(setup, old(Now()), c) && b == Some(dram[c.BufferKey()])
      ensures setup.seed && location.VRAM? ==> Now() == SeedVram(setup, old(Now()), c) && b == Some(vram[c.BufferKey()])
      ensures !setup.seed ==> b == None && Now() == old(Now())
    {
      if !setup.seed {
        return None;
      }
      var data := ReadBackingOrPattern(c);
      var buffer := BufferOf(c, data);
      if location.DRAM? {
        dram := dram[c.BufferKey() := buffer];
        counts := counts.(dramAllocs := counts.dramAllocs + 1);
      } else if location.VRAM? {
        vram := vram[c.BufferKey() := buffer];
        counts := counts.(vramAllocs := counts.vramAllocs + 1);
      } else {
        counts := counts.(unsupported := counts.unsupported + 1);
        return None;
      }
      counts := counts.(seeds := counts.seeds + 1, seedBytes := counts.seedBytes + c.size);
      return Some(buffer);
    }

    method ExecuteDramToVram(c: Command)
      requires Addressable(c)
      modifies this
      ensures Now() == DramToVram(setup, old(Now()), c)
    {
      var key := c.BufferKey();
      var source: Option<Buffer>;
      if key in dram {
        source := Some(dram[key]);
      } else {
        source := SeedSourceBuffer(c, DRAM);
        if source.None? {
          counts := counts.(missing := counts.missing + 1);
          return;
        }
      }
      if source.value.size != c.size {
        counts := counts.(sizeMismatches := counts.sizeMismatches + 1);
        return;
      }
      vram := vram[key := source.value];
      counts := counts.(copies := counts.copies + 1, copyBytes := counts.copyBytes + source.value.size, vramAllocs := counts.vramAllocs + 1);
    }

    method ExecuteCompute(c: Command)
      requires Addressable(c)
      modifies this
      ensures Now() == ComputeOn(setup, old(Now()), c)
    {
      var key := c.BufferKey();
      var source: Option<Buffer>;
      if key in vram {
        source := Some(vram[key]);
      } else {
        source := SeedSourceBuffer(c, VRAM);
        if source.None? {
          counts := counts.(missing := counts.missing + 1);
          return;
        }
      }
      if source.value.size != c.size {
        counts := counts.(sizeMismatches := counts.sizeMismatches + 1);
        return;
      }
      counts := counts.(computes := counts.computes + 1, computeBytes := counts.computeBytes + source.value.size);
    }

    method ExecuteEvictToSsd(c: Command)
      requires Addressable(c)
      modifies this
      ensures Now() == EvictBlock(setup, old(Now()), c)
    {
      var key := c.BufferKey();
      var source: Option<Buffer>;
      if key in vram {
        source := Some(vram[key]);
        vram := vram - {key};
      } else if key in dram {
        source := Some(dram[key]);
        dram := dram - {key};
      } else {
        source := SeedSourceBuffer(c, VRAM);
        if source.None? {
          counts := counts.(missing := counts.missing + 1);
          return;
        }
        vram := vram - {key};
      }
      counts := counts.(evicts := counts.evicts + 1, writes := counts.writes + 1, writeBytes := counts.writeBytes + source.value.size);
    }

    method ExecuteOp(c: Command)
      requires Addressable(c)
      modifies this
      ensures Now() == Step(setup, old(Now()), c)
    {
      if c.Moves(SSD, DRAM) {
        ExecuteSsdToDram(c);
      } else if c.Moves(DRAM, VRAM) {
        ExecuteDramToVram(c);
      } else if c.op.Compute? {
        ExecuteCompute(c);
      } else if c.EvictsToSsd() {
        ExecuteEvictToSsd(c);
      } else {
        counts := counts.(unsupported := counts.unsupported + 1);
      }
    }

    method Execute(cs: seq<Command>)
      requires AllAddressable(cs)
      modifies this
      ensures Now() == Run(setup, old(Now()), cs)
    {
      ghost var start := Now();
      var i := 0;
      while i < |cs|
        invariant 0 <= i <= |cs|
        invariant Now() == Run(setup, start, cs[..i])
      {
        assert cs[..i + 1][..i] == cs[..i];
        ExecuteOp(cs[i]);
        i := i + 1;
      }
      assert cs[..|cs|] == cs;
    }
  }

  // ---------- the executor keeps the common ledger ----------

  function Present(m: map<Key, Buffer>): set<BlockKey> {
    set k | k in m :: PlanKeyOf(k)
  }

  function Abstract(s: State): L.Ledger {
    L.Ledger(s.counts.ssdReads, s.counts.readBytes, s.counts.copies, s.counts.copyBytes, s.counts.computes,
             s.counts.seeds, s.counts.seedBytes, Present(s.dram), Present(s.vram))
  }

  /** Every buffer is filed under the key and size of a command of the stream. */
  ghost predicate Filed(m: map<Key, Buffer>, cs: seq<Command>) {
    forall k :: k in m ==> exists i :: 0 <= i < |cs| && cs[i].BufferKey() == k && m[k].size == cs[i].size
  }

  ghost predicate LongEnough(setup: Setup, cs: seq<Command>) {
    setup.backing.None? || forall i :: 0 <= i < |cs| ==> cs[i].offset + cs[i].size <= |setup.backing.value|
  }

  lemma {:induction false} PresentIff(m: map<Key, Buffer>, cs: seq<Command>, i: nat)
    requires Consistent(cs) && Filed(m, cs) && i < |cs|
    ensures cs[i].PlanKey() in Present(m) <==> cs[i].BufferKey() in m
    ensures cs[i].BufferKey() in m ==> m[cs[i].BufferKey()].size == cs[i].size
  {
    if cs[i].PlanKey() in Present(m) {
      var k :| k in m && PlanKeyOf(k) == cs[i].PlanKey();
      var j :| 0 <= j < |cs| && cs[j].BufferKey() == k && m[k].size == cs[j].size;
      assert cs[j].PlanKey() == cs[i].PlanKey();
    }
    if cs[i].BufferKey() in m {
      var j :| 0 <= j < |cs| && cs[j].BufferKey() == cs[i].BufferKey() && m[cs[i].BufferKey()].size == cs[j].size;
      assert cs[j].PlanKey() == cs[i].PlanKey();
    }
  }

  lemma {:induction false} PresentAdd(m: map<Key, Buffer>, cs: seq<Command>, i: nat, b: Buffer)
    requires Filed(m, cs) && i < |cs| && b.size == cs[i].size
    ensures Filed(m[cs[i].BufferKey() := b], cs)
    ensures Present(m[cs[i].BufferKey() := b]) == Present(m) + {cs[i].PlanKey()}
  {
    var key := cs[i].BufferKey();
    var n := m[key := b];
    forall k | k in n ensures exists j :: 0 <= j < |cs| && cs[j].BufferKey() == k && n[k].size == cs[j].size {
      if k == key {
        assert cs[i].BufferKey() == k && n[k].size == cs[i].size;
      } else {
        var j :| 0 <= j < |cs| && cs[j].BufferKey() == k && m[k].size == cs[j].size;
        assert n[k].size == cs[j].size;
      }
    }
    forall x ensures x in Present(n) <==> x in Present(m) + {cs[i].PlanKey()} {
      if x in Present(m) {
        var k :| k in m && PlanKeyOf(k) == x;
        assert k in n;
      }
      assert key in n && PlanKeyOf(key) == cs[i].PlanKey();
    }
  }

  ghost predicate Tracks(s: State, cs: seq<Command>) {
    Filed(s.dram, cs) && Filed(s.vram, cs) && Errors(s.counts) == 0
  }

  /** What a command of the stream reads from the backing file, or makes up, is whole; filing it under the
      command's key adds the command's block. */
  lemma {:induction false} FilledFiles(setup: Setup, m: map<Key, Buffer>, cs: seq<Command>, i: nat)
    requires i < |cs| && AllAddressable(cs) && LongEnough(setup, cs) && Filed(m, cs)
    ensures var filled := ReadOrPattern(setup, cs[i]); var n := m[cs[i].BufferKey() := BufferOf(cs[i], filled.data)];
      !filled.short && Filed(n, cs) && Present(n) == Present(m) + {cs[i].PlanKey()}
  {
    assert Addressable(cs[i]);
    PresentAdd(m, cs, i, BufferOf(cs[i], ReadOrPattern(setup, cs[i]).data));
  }

  ghost predicate StepFollows(setup: Setup, s: State, cs: seq<Command>, i: nat)
    requires i < |cs| && Addressable(cs[i])
  {
    Tracks(Step(setup, s, cs[i]), cs) && Abstract(Step(setup, s, cs[i])) == L.Step(Abstract(s), cs[i])
  }

  lemma {:induction false} ReadTracks(setup: Setup, s: State, cs: seq<Command>, i: nat)
    requires setup.seed && i < |cs| && AllAddressable(cs) && LongEnough(setup, cs) && Tracks(s, cs)
    requires cs[i].Moves(SSD, DRAM)
    ensures StepFollows(setup, s, cs, i)
  {
    FilledFiles(setup, s.dram, cs, i);
    hide Present, Filed, ReadOrPattern, LongEnough;
  }

  /** A missing source is seeded as on the ledger. */
  lemma {:induction false} SeedTracks(setup: Setup, s: State, cs: seq<Command>, i: nat)
    requires setup.seed && Consistent(cs) && i < |cs| && AllAddressable(cs) && LongEnough(setup, cs) && Tracks(s, cs)
    ensures var t := if cs[i].BufferKey() in s.dram then s else SeedDram(setup, s, cs[i]);
      && Tracks(t, cs) && Abstract(t) == L.SeedDram(Abstract(s), cs[i])
      && cs[i].BufferKey() in t.dram && t.dram[cs[i].BufferKey()].size == cs[i].size
  {
    PresentIff(s.dram, cs, i);
    FilledFiles(setup, s.dram, cs, i);
    hide Present, Filed, ReadOrPattern, LongEnough, Consistent;
  }

  lemma {:induction false} CopyTracks(setup: Setup, s: State, cs: seq<Command>, i: nat)
    requires setup.seed && Consistent(cs) && i < |cs| && AllAddressable(cs) && LongEnough(setup, cs) && Tracks(s, cs)
    requires cs[i].Moves(DRAM, VRAM)
    ensures StepFollows(setup, s, cs, i)
  {
    var c := cs[i];
    SeedTracks(setup, s, cs, i);
    hide Present, Filed, SeedDram, L.SeedDram, LongEnough, Consistent;
    var t := if c.BufferKey() in s.dram then s else SeedDram(setup, s, c);
    PresentAdd(t.vram, cs, i, t.dram[c.BufferKey()]);
  }

  lemma {:induction false} ComputeTracks(setup: Setup, s: State, cs: seq<Command>, i: nat)
    requires setup.seed && Consistent(cs) && i < |cs| && AllAddressable(cs) && LongEnough(setup, cs) && Tracks(s, cs)
    requires cs[i].op.Compute?
    ensures StepFollows(setup, s, cs, i)
  {
    PresentIff(s.vram, cs, i);
    FilledFiles(setup, s.vram, cs, i);
    hide Present, Filed, ReadOrPattern, LongEnough, Consistent;
  }

  /** One command of the stream: the executor follows the ledger and reports no error. */
  lemma {:induction false} StepTracks(setup: Setup, s: State, cs: seq<Command>, i: nat)
    requires setup.seed && Consistent(cs) && i < |cs| && L.Simple(cs[i]) && AllAddressable(cs) && LongEnough(setup, cs)
    requires Tracks(s, cs)
    ensures Tracks(Step(setup, s, cs[i]), cs)
    ensures Abstract(Step(setup, s, cs[i])) == L.Step(Abstract(s), cs[i])
  {
    if cs[i].Moves(SSD, DRAM) {
      ReadTracks(setup, s, cs, i);
    } else if cs[i].Moves(DRAM, VRAM) {
      CopyTracks(setup, s, cs, i);
    } else {
      ComputeTracks(setup, s, cs, i);
    }
    assert StepFollows(setup, s, cs, i);
    hide Tracks, Abstract, Step, L.Step, Consistent, LongEnough;
  }

  lemma {:induction false} NothingFiled(m: map<Key, Buffer>, cs: seq<Command>)
    requires m == map[]
    ensures Filed(m, cs) && Present(m) == {}
  {
  }

  lemma {:induction false} StartTracks(cs: seq<Command>)
    ensures Tracks(START, cs) && Abstract(START) == L.EMPTY
  {
    NothingFiled(START.dram, cs);
    NothingFiled(START.vram, cs);
    hide Filed, Present;
  }

  lemma {:induction false} RunTracks(setup: Setup, cs: seq<Command>, n: nat)
    requires setup.seed && Consistent(cs) && n <= |cs| && L.AllSimple(cs) && AllAddressable(cs) && LongEnough(setup, cs)
    ensures Tracks(Run(setup, START, cs[..n]), cs)
    ensures Abstract(Run(setup, START, cs[..n])) == L.Run(L.EMPTY, cs[..n])
  {
    StartTracks(cs);
    hide Step, L.Step, Tracks, Abstract, Consistent, LongEnough;
    if n == 0 {
    } else {
      RunTracks(setup, cs, n - 1);
      assert cs[..n][..n - 1] == cs[..n - 1];
      StepTracks(setup, Run(setup, START, cs[..n - 1]), cs, n - 1);
    }
  }

  /** On any consistent evict-free stream the seeding executor reports no error and keeps the ledger. */
  lemma {:induction false} SeedingRunIsLedger(setup: Setup, cs: seq<Command>)
    requires setup.seed && Consistent(cs) && L.AllSimple(cs) && AllAddressable(cs) && LongEnough(setup, cs)
    ensures var r := Run(setup, START, cs);
      Errors(r.counts) == 0 && Abstract(r) == L.Run(L.EMPTY, cs)
  {
    RunTracks(setup, cs, |cs|);
    assert cs[..|cs|] == cs;
  }

  // ---------- streams with evicts ----------

  /** A consistent stream of the kinds the executor knows, evicts included, on a long enough file. */
  ghost predicate KnownKinds(cs: seq<Command>) {
    forall i :: 0 <= i < |cs| ==> L.Simple(cs[i]) || cs[i].EvictsToSsd()
  }

  /** An evict in vain is seeded, written and dropped: it leaves no buffer, but it is counted as a seed. */
  function WithVain(a: L.Account): L.Ledger {
    var l := a.ledger;
    L.Ledger(l.ssdReads, l.readBytes, l.copies, l.copyBytes, l.computes, l.seeds + a.vain, l.seedBytes + a.vainBytes, l.dram, l.vram)
  }

  /** The executor shows the account: every evict counts as one, whether it found a buffer or not. */
  ghost predicate Owes(s: State, cs: seq<Command>, a: L.Account) {
    && Tracks(s, cs) && Abstract(s) == WithVain(a)
    && s.counts.evicts == s.counts.writes == a.evicts + a.vain && s.counts.writeBytes == a.evictBytes + a.vainBytes
  }

  /** A block is filed under one key. */
  lemma {:induction false} SoleKey(m: map<Key, Buffer>, cs: seq<Command>, i: nat, k: Key)
    requires Consistent(cs) && Filed(m, cs) && i < |cs| && k in m && PlanKeyOf(k) == cs[i].PlanKey()
    ensures k == cs[i].BufferKey()
  {
    var j :| 0 <= j < |cs| && cs[j].BufferKey() == k && m[k].size == cs[j].size;
    assert cs[j].PlanKey() == cs[i].PlanKey();
  }

  lemma {:induction false} FiledLess(m: map<Key, Buffer>, cs: seq<Command>, key: Key)
    requires Filed(m, cs)
    ensures Filed(m - {key}, cs)
  {
    var n := m - {key};
    forall k | k in n ensures exists j :: 0 <= j < |cs| && cs[j].BufferKey() == k && n[k].size == cs[j].size {
      var j :| 0 <= j < |cs| && cs[j].BufferKey() == k && m[k].size == cs[j].size;
      assert n[k].size == cs[j].size;
    }
  }

  lemma {:induction false} PresentRemove(m: map<Key, Buffer>, cs: seq<Command>, i: nat)
    requires Consistent(cs) && Filed(m, cs) && i < |cs| && cs[i].BufferKey() in m
    ensures Filed(m - {cs[i].BufferKey()}, cs) && Present(m - {cs[i].BufferKey()}) == Present(m) - {cs[i].PlanKey()}
  {
    var key := cs[i].BufferKey();
    var n := m - {key};
    FiledLess(m, cs, key);
    forall k | k in m && PlanKeyOf(k) == cs[i].PlanKey() ensures k == key {
      SoleKey(m, cs, i, k);
    }
    hide Filed, Consistent;
    PresentLess(m, key);
  }

  lemma {:induction false} PresentLess(m: map<Key, Buffer>, key: Key)
    requires key in m && forall k :: k in m && PlanKeyOf(k) == PlanKeyOf(key) ==> k == key
    ensures Present(m - {key}) == Present(m) - {PlanKeyOf(key)}
  {
    var n := m - {key};
    forall x | x in Present(n) ensures x in Present(m) && x != PlanKeyOf(key) {
      var k :| k in n && PlanKeyOf(k) == x;
      assert k in m && k != key;
    }
    forall x | x in Present(m) && x != PlanKeyOf(key) ensures x in Present(n) {
      var k :| k in m && PlanKeyOf(k) == x;
      assert k in n;
    }
  }

  lemma {:induction false} SimpleEvictsNothing(setup: Setup, s: State, c: Command)
    requires Addressable(c) && L.Simple(c)
    ensures var r := Step(setup, s, c).counts;
      r.evicts == s.counts.evicts && r.writes == s.counts.writes && r.writeBytes == s.counts.writeBytes
  {
    hide ReadOrPattern;
  }

  lemma {:induction false} VainCommutes(a: L.Account, c: Command)
    requires L.Simple(c)
    ensures L.Step(WithVain(a), c) == WithVain(L.Settle(a, c))
  {
  }

  lemma {:induction false} EvictTracks(setup: Setup, s: State, cs: seq<Command>, i: nat, a: L.Account)
    requires setup.seed && Consistent(cs) && i < |cs| && AllAddressable(cs) && LongEnough(setup, cs)
    requires Owes(s, cs, a) && cs[i].EvictsToSsd()
    ensures Owes(Step(setup, s, cs[i]), cs, L.Settle(a, cs[i]))
  {
    var c := cs[i];
    assert Addressable(c);
    PresentIff(s.dram, cs, i);
    PresentIff(s.vram, cs, i);
    if c.BufferKey() in s.vram {
      PresentRemove(s.vram, cs, i);
    } else if c.BufferKey() in s.dram {
      PresentRemove(s.dram, cs, i);
    } else {
      FilledFiles(setup, s.vram, cs, i);
      assert (SeedVram(setup, s, c).vram - {c.BufferKey()}) == s.vram;
    }
    hide Present, Filed, ReadOrPattern, LongEnough, Consistent, AllAddressable, L.Step, DramToVram, ComputeOn, SsdToDram;
  }

  lemma {:induction false} StepOwes(setup: Setup, s: State, cs: seq<Command>, i: nat, a: L.Account)
    requires setup.seed && Consistent(cs) && i < |cs| && KnownKinds(cs) && AllAddressable(cs) && LongEnough(setup, cs)
    requires Owes(s, cs, a)
    ensures Addressable(cs[i]) && Owes(Step(setup, s, cs[i]), cs, L.Settle(a, cs[i]))
  {
    if cs[i].EvictsToSsd() {
      EvictTracks(setup, s, cs, i, a);
    } else {
      StepTracks(setup, s, cs, i);
      SimpleEvictsNothing(setup, s, cs[i]);
      VainCommutes(a, cs[i]);
    }
    hide Owes, Tracks, Abstract, Step, Consistent, LongEnough, WithVain;
  }

  lemma {:induction false} RunOwes(setup: Setup, cs: seq<Command>, n: nat)
    requires setup.seed && Consistent(cs) && n <= |cs| && KnownKinds(cs) && AllAddressable(cs) && LongEnough(setup, cs)
    ensures Owes(Run(setup, START, cs[..n]), cs, L.SettleAll(L.NO_ACCOUNT, cs[..n]))
  {
    hide Step, L.Settle, Owes, Consistent, LongEnough, KnownKinds;
    if n == 0 {
      StartOwes(cs);
    } else {
      RunOwes(setup, cs, n - 1);
      assert cs[..n][..n - 1] == cs[..n - 1];
      StepOwes(setup, Run(setup, START, cs[..n - 1]), cs, n - 1, L.SettleAll(L.NO_ACCOUNT, cs[..n - 1]));
    }
  }

  lemma {:induction false} OwesNothing(s: State, cs: seq<Command>, a: L.Account)
    requires Tracks(s, cs) && Abstract(s) == a.ledger && a.evicts == a.vain == 0 && a.evictBytes == a.vainBytes == 0
    requires s.counts.evicts == s.counts.writes == 0 && s.counts.writeBytes == 0
    ensures Owes(s, cs, a)
  {
  }

  lemma {:induction false} StartOwes(cs: seq<Command>)
    ensures Owes(START, cs, L.NO_ACCOUNT)
  {
    StartTracks(cs);
    hide Tracks, Abstract, WithVain, Owes;
    OwesNothing(START, cs, L.NO_ACCOUNT);
  }

  /** On any consistent stream with evicts the seeding executor reports no error. It keeps the account of the
      stream, except that an evict in vain counts as an evict and as a seed. */
  lemma {:induction false} SeedingRunIsAccount(setup: Setup, cs: seq<Command>)
    requires setup.seed && Consistent(cs) && KnownKinds(cs) && AllAddressable(cs) && LongEnough(setup, cs)
    ensures var r, a := Run(setup, START, cs), L.SettleAll(L.NO_ACCOUNT, cs);
      && Errors(r.counts) == 0 && Abstract(r) == WithVain(a)
      && r.counts.evicts == r.counts.writes == a.evicts + a.vain && r.counts.writeBytes == a.evictBytes + a.vainBytes
  {
    RunOwes(setup, cs, |cs|);
    assert cs[..|cs|] == cs;
    hide Run, Abstract, WithVain, L.SettleAll;
  }

  // ---------- compilation preserves meaning ----------

  lemma {:induction false} CompiledAddressable(bs: seq<BlockInfo>, where: Residency, l: Layout, pool: seq<BlockInfo>)
    requires Compiled(bs, where, l, pool)
    ensures AllAddressable(Derived(bs, where, l))
  {
    CompiledIsConsistent(bs, where, l, pool);
    forall i | 0 <= i < |Derived(bs, where, l)| ensures Addressable(Derived(bs, where, l)[i]) {
      assert ValidCommand(Derived(bs, where, l)[i]);
    }
  }

  /** Seeding mode: the compiled stream leaves exactly the scheduled blocks in VRAM and the blocks that
      started below VRAM in DRAM, seeds exactly the blocks that did not start on SSD, and never errs. */
  lemma {:induction false} SeedingMeaning(setup: Setup, bs: seq<BlockInfo>, where: Residency, l: Layout, pool: seq<BlockInfo>)
    requires setup.seed && Compiled(bs, where, l, pool) && LongEnough(setup, Derived(bs, where, l))
    ensures AllAddressable(Derived(bs, where, l))
    ensures var r := Run(setup, START, Derived(bs, where, l));
      && Present(r.vram) == L.Keys(bs) && Present(r.dram) == L.KeysOn(bs, where, SSD, DRAM)
      && Errors(r.counts) == 0
      && r.counts.seeds == CountOn(bs, where, DRAM) + CountOn(bs, where, VRAM)
      && r.counts.ssdReads == CountOn(bs, where, SSD) && r.counts.readBytes == SizeOn(bs, where, SSD)
  {
    CompiledIsConsistent(bs, where, l, pool);
    CompiledAddressable(bs, where, l, pool);
    L.DerivedSimple(bs, where, l);
    SeedingRunIsLedger(setup, Derived(bs, where, l));
    L.TimelineMeaning(bs, where, l);
  }

  lemma {:induction false} RunAppend(setup: Setup, s: State, a: seq<Command>, b: seq<Command>)
    requires AllAddressable(a) && AllAddressable(b)
    ensures AllAddressable(a + b)
    ensures Run(setup, s, a + b) == Run(setup, Run(setup, s, a), b)
  {
    if b == [] {
      assert a + b == a;
    } else {
      RunAppend(setup, s, a, b[..|b| - 1]);
      assert (a + b)[..|a + b| - 1] == a + b[..|b| - 1];
    }
  }

  /** What one chain adds to a strict run that does not have its block yet. */
  ghost predicate StrictlyAdds(s: State, r: State, key: Key, missed: nat, complete: bool) {
    && r.counts.missing == s.counts.missing + missed
    && r.counts.sizeMismatches == s.counts.sizeMismatches && r.counts.unsupported == s.counts.unsupported
    && r.counts.seeds == s.counts.seeds
    && r.dram.Keys == s.dram.Keys + (if complete then {key} else {})
    && r.vram.Keys == s.vram.Keys + (if complete then {key} else {})
  }

  lemma {:induction false} StrictCompute(setup: Setup, s: State, c: Command)
    requires !setup.seed && Addressable(c) && c.op.Compute? && c.BufferKey() !in s.vram
    ensures Step(setup, s, c) == CountMissing(s)
  {
  }

  lemma {:induction false} StrictCopy(setup: Setup, s: State, c: Command)
    requires !setup.seed && Addressable(c) && c.Moves(DRAM, VRAM) && c.BufferKey() !in s.dram
    ensures Step(setup, s, c) == CountMissing(s)
  {
  }

  /** Read, copied and computed on: the only chain that a strict run completes. */
  lemma {:induction false} StrictSsdSteps(setup: Setup, s: State, read: Command, copy: Command, compute: Command)
    requires !setup.seed && Addressable(read) && Addressable(copy) && Addressable(compute)
    requires read.Moves(SSD, DRAM) && copy.Moves(DRAM, VRAM) && compute.op.Compute?
    requires read.BufferKey() == copy.BufferKey() == compute.BufferKey() && read.size == copy.size == compute.size
    requires setup.backing.None? || read.offset + read.size <= |setup.backing.value|
    ensures StrictlyAdds(s, Step(setup, Step(setup, Step(setup, s, read), copy), compute), read.BufferKey(), 0, true)
  {
    assert !ReadOrPattern(setup, read).short;
    hide ReadOrPattern;
  }

  /** A chain whose block has no buffers yet, without seeding: it completes only from SSD. */
  lemma {:induction false} StrictChain(setup: Setup, s: State, b: BlockInfo, offset: int, at: Tier)
    requires !setup.seed && offset >= 0 && b.size >= 0
    requires forall c :: c in Chain(b, offset, at) ==> c.BufferKey() !in s.dram && c.BufferKey() !in s.vram
    requires setup.backing.None? || offset + b.size <= |setup.backing.value|
    ensures AllAddressable(Chain(b, offset, at))
    ensures StrictlyAdds(s, Run(setup, s, Chain(b, offset, at)), Key(b.key.layer, b.key.block, b.start, b.end),
                         match at case SSD => 0 case DRAM => 2 case VRAM => 1, at.SSD?)
  {
    var cs := Chain(b, offset, at);
    forall i | 0 <= i < |cs| ensures Addressable(cs[i]) {
      ChainMember(b, offset, at, cs[i]);
    }
    assert cs[0] in cs && cs[..1][..0] == [] && Run(setup, s, cs[..1]) == Step(setup, s, cs[0]);
    hide Step;
    match at
    case VRAM =>
      assert cs[..1] == cs;
      StrictCompute(setup, s, cs[0]);
    case DRAM =>
      assert cs[..2][..1] == cs[..1] && cs[..2] == cs;
      StrictCopy(setup, s, cs[0]);
      StrictCompute(setup, CountMissing(s), cs[1]);
    case SSD =>
      assert cs[..2][..1] == cs[..1] && cs[..3][..2] == cs[..2] && cs[..3] == cs;
      StrictSsdSteps(setup, s, cs[0], cs[1], cs[2]);
  }

  /** What a strict run leaves: two missed sources per block that started in DRAM, one per block that
      started in VRAM, and only the blocks that started on SSD resident. */
  ghost predicate StrictOutcome(r: State, bs: seq<BlockInfo>, where: Residency)
    requires Known(bs, where)
  {
    && r.counts.missing == 2 * CountOn(bs, where, DRAM) + CountOn(bs, where, VRAM)
    && r.counts.sizeMismatches == 0 && r.counts.unsupported == 0 && r.counts.seeds == 0
    && Present(r.vram) == L.KeysOn(bs, where, SSD, SSD) && Present(r.dram) == L.KeysOn(bs, where, SSD, SSD)
  }

  lemma {:induction false} StrictStep(setup: Setup, s: State, bs: seq<BlockInfo>, where: Residency, offset: int)
    requires bs != [] && Known(bs, where) && DistinctKeys(bs) && !setup.seed && offset >= 0 && bs[|bs| - 1].size >= 0
    requires StrictOutcome(s, bs[..|bs| - 1], where)
    requires setup.backing.None? || offset + bs[|bs| - 1].size <= |setup.backing.value|
    ensures var b := bs[|bs| - 1];
      AllAddressable(Chain(b, offset, where[b.key])) && StrictOutcome(Run(setup, s, Chain(b, offset, where[b.key])), bs, where)
  {
    var front, b := bs[..|bs| - 1], bs[|bs| - 1];
    forall c | c in Chain(b, offset, where[b.key]) ensures c.BufferKey() !in s.dram && c.BufferKey() !in s.vram {
      ChainMember(b, offset, where[b.key], c);
      FreshKey(s, front, where, c.BufferKey());
    }
    StrictChain(setup, s, b, offset, where[b.key]);
    hide Chain, Step, Run, Present;
    var r := Run(setup, s, Chain(b, offset, where[b.key]));
    PresentOfKeys(s.dram, r.dram, Key(b.key.layer, b.key.block, b.start, b.end), where[b.key].SSD?);
    PresentOfKeys(s.vram, r.vram, Key(b.key.layer, b.key.block, b.start, b.end), where[b.key].SSD?);
    StartedOnSsd(bs, where);
  }

  lemma {:induction false} LastChainInRange(setup: Setup, bs: seq<BlockInfo>, where: Residency, l: Layout, pool: seq<BlockInfo>)
    requires bs != [] && Compiled(bs, where, l, pool) && LongEnough(setup, Derived(bs, where, l))
    ensures var b := bs[|bs| - 1]; var offset := OffsetOf(l, b.key);
      offset >= 0 && b.size >= 0 && (setup.backing.None? || offset + b.size <= |setup.backing.value|)
    ensures Compiled(bs[..|bs| - 1], where, l, pool) && LongEnough(setup, Derived(bs[..|bs| - 1], where, l))
  {
    var front, b := bs[..|bs| - 1], bs[|bs| - 1];
    var before, chain := Derived(front, where, l), Chain(b, OffsetOf(l, b.key), where[b.key]);
    assert Derived(bs, where, l) == before + chain;
    assert chain[0] == Derived(bs, where, l)[|before|];
    ChainMember(b, OffsetOf(l, b.key), where[b.key], chain[0]);
    assert forall i :: 0 <= i < |before| ==> before[i] == Derived(bs, where, l)[i];
    assert b in pool;
    var p :| 0 <= p < |pool| && pool[p] == b;
    OffsetIs(l, pool, p);
  }

  /** Strict mode: a block that starts in DRAM misses its source twice, one that starts in VRAM once, and
      only blocks that started on SSD end up resident. */
  lemma {:induction false} StrictMeaning(setup: Setup, bs: seq<BlockInfo>, where: Residency, l: Layout, pool: seq<BlockInfo>)
    requires !setup.seed && Compiled(bs, where, l, pool) && LongEnough(setup, Derived(bs, where, l))
    ensures AllAddressable(Derived(bs, where, l)) && StrictOutcome(Run(setup, START, Derived(bs, where, l)), bs, where)
  {
    CompiledAddressable(bs, where, l, pool);
    if bs == [] {
    } else {
      LastChainInRange(setup, bs, where, l, pool);
      hide Chain, Step, StrictOutcome, Compiled, LongEnough;
      var front, b := bs[..|bs| - 1], bs[|bs| - 1];
      StrictMeaning(setup, front, where, l, pool);
      StrictStep(setup, Run(setup, START, Derived(front, where, l)), bs, where, OffsetOf(l, b.key));
      RunAppend(setup, START, Derived(front, where, l), Chain(b, OffsetOf(l, b.key), where[b.key]));
    }
  }

  lemma {:induction false} FreshKey(s: State, front: seq<BlockInfo>, where: Residency, key: Key)
    requires Known(front, where) && !HasKey(front, PlanKeyOf(key))
    requires StrictOutcome(s, front, where)
    ensures key !in s.dram && key !in s.vram
  {
    assert PlanKeyOf(key) !in L.KeysOn(front, where, SSD, SSD);
    assert key in s.dram ==> PlanKeyOf(key) in Present(s.dram);
    assert key in s.vram ==> PlanKeyOf(key) in Present(s.vram);
  }

  lemma {:induction false} PresentOfKeys(a: map<Key, Buffer>, b: map<Key, Buffer>, key: Key, added: bool)
    requires b.Keys == a.Keys + if added then {key} else {}
    ensures Present(b) == Present(a) + if added then {PlanKeyOf(key)} else {}
  {
    forall x ensures x in Present(b) <==> x in Present(a) + if added then {PlanKeyOf(key)} else {} {
      if x in Present(b) {
        var k :| k in b && PlanKeyOf(k) == x;
        assert k in b.Keys;
      }
      if x in Present(a) {
        var k :| k in a && PlanKeyOf(k) == x;
        assert k in b.Keys;
      }
      if added {
        assert key in b.Keys;
      }
    }
  }

  lemma {:induction false} StartedOnSsd(bs: seq<BlockInfo>, where: Residency)
    requires bs != [] && Known(bs, where)
    ensures var front, b := bs[..|bs| - 1], bs[|bs| - 1];
      L.KeysOn(bs, where, SSD, SSD) == L.KeysOn(front, where, SSD, SSD) + (if where[b.key].SSD? then {b.key} else {})
  {
  }
}
