/** The C command consumer as functions on values: seeding of the backing file, lazily filled buffers, SSD
    reads and writes, and verification against each block's own pattern.
 */
module ConsumerModel {
  import opened Kv
  import opened ByteCopies

  function LowByte(x: int): bv8 {
    (x % 256) as bv8
  }

  /** The number as an unsigned 64-bit word, in two's complement: its low byte and the seven bytes above. */
  function Word(x: int): bv64 {
    ((x / 256 % 0x100_0000_0000_0000) as bv64 << 8) | (LowByte(x) as bv64)
  }

  function Times(word: bv64, factor: bv64): bv64 {
    word * factor
  }

  function Joined(layer: bv64, block: bv64, start: bv64, end: bv64, offset: bv64): bv64 {
    1469598103934665603 ^ layer ^ block ^ start ^ end ^ offset
  }

  function PatternSeed(key: Key, offset: int): bv64 {
    Joined(Times(Word(key.layer + 1), 1099511628211),
           Times(Word(key.block + 17), 14029467366897019727),
           Times(Word(key.start + 31), 1609587929392839161),
           Times(Word(key.end + 47), 9650029242287828579),
           Times(Word(offset + 59), 2870177450012600261))
  }

  function Step(i: bv64): bv64 {
    i * 131 + (i >> 3)
  }

  function Plus(a: bv64, b: bv64): bv64 {
    a + b
  }

  function LowOf(word: bv64): Byte {
    (word & 0xff) as Byte
  }

  function PatternByte(key: Key, offset: int, i: nat): Byte {
    LowOf(Plus(PatternSeed(key, offset), Step(Word(i))))
  }

  /** The bytes that identify the command's block: they depend on its key, its offset and its size only. */
  function Pattern(c: Command): (r: seq<Byte>)
    ensures |r| == SizeOf(c)
  {
    seq(SizeOf(c), i requires 0 <= i < SizeOf(c) => PatternByte(c.BufferKey(), c.offset, i))
  }

  function SizeOf(c: Command): nat {
    if c.size < 0 then 0 else c.size
  }

  lemma {:induction false} PatternOfBlock(c: Command, d: Command)
    requires c.BufferKey() == d.BufferKey() && c.offset == d.offset && c.size == d.size
    ensures Pattern(c) == Pattern(d)
  {
    hide PatternByte;
    forall i | 0 <= i < SizeOf(c) ensures Pattern(c)[i] == Pattern(d)[i] {
    }
  }

  datatype Slot = Slot(key: BlockKey, start: int, end: int, size: int, dram: Option<seq<Byte>>, vram: Option<seq<Byte>>) {
    function Buffer(at: Location): Option<seq<Byte>> {
      match at case DRAM => dram case VRAM => vram case _ => None
    }

    function With(at: Location, b: seq<Byte>): Slot {
      match at case DRAM => this.(dram := Some(b)) case VRAM => this.(vram := Some(b)) case _ => this
    }
  }

  datatype Stats = Stats(
    loads: nat, prefetches: nat, computes: nat, evicts: nat, ssdReads: nat, ssdWrites: nat, copies: nat, verified: nat,
    lazyInits: nat, ssdSeeds: nat, readBytes: int, writeBytes: int, copyBytes: int, lazyBytes: int, seedBytes: int,
    verificationErrors: nat)

  const NO_STATS := Stats(0, 0, 0, 0, 0, 0, 0, 0, 0, 0, 0, 0, 0, 0, 0, 0)

  /** What the allocator and the file do for one command; `junk` is what fresh memory contains. */
  datatype Env = Env(slotOk: bool, targetOk: bool, sourceOk: bool, ioOk: bool, junk: int -> Byte)

  predicate Kind(e: Env) {
    e.slotOk && e.targetOk && e.sourceOk && e.ioOk
  }

  datatype State = State(file: seq<Byte>, slots: seq<Slot>, stats: Stats)

  datatype Outcome = Outcome(state: State, ok: bool)

  predicate Buffered(l: Location) {
    l.DRAM? || l.VRAM?
  }

  function FindSlot(slots: seq<Slot>, key: BlockKey): (r: Option<nat>)
    ensures r.Some? ==> r.value < |slots| && slots[r.value].key == key
    ensures r.Some? ==> forall j :: 0 <= j < r.value ==> slots[j].key != key
    ensures r.None? ==> forall j :: 0 <= j < |slots| ==> slots[j].key != key
  {
    if slots == [] then None
    else if slots[0].key == key then Some(0)
    else match FindSlot(slots[1..], key)
      case None => (assert forall j :: 1 <= j < |slots| ==> slots[j] == slots[1..][j - 1]; None)
      case Some(i) => (assert forall j :: 1 <= j < |slots| ==> slots[j] == slots[1..][j - 1]; Some(i + 1))
  }

  datatype Got = Got(slots: seq<Slot>, at: Option<nat>)

  function GetSlot(slots: seq<Slot>, c: Command, env: Env): (r: Got)
    ensures r.at.Some? ==> r.at.value < |r.slots| && r.slots[r.at.value].key == c.PlanKey()
  {
    match FindSlot(slots, c.PlanKey())
    case Some(i) => Got(slots, Some(i))
    case None =>
      if !env.slotOk then Got(slots, None)
      else Got(slots + [Slot(c.PlanKey(), c.start, c.end, c.size, None, None)], Some(|slots|))
  }

  function Fresh(c: Command, env: Env): (r: seq<Byte>)
    ensures |r| == SizeOf(c)
  {
    seq(SizeOf(c), i requires 0 <= i < SizeOf(c) => env.junk(i))
  }

  /** The buffer starts with the block's pattern. */
  predicate Verifies(b: seq<Byte>, c: Command) {
    |b| >= SizeOf(c) && b[..SizeOf(c)] == Pattern(c)
  }

  function Overwrite(b: seq<Byte>, bytes: seq<Byte>): seq<Byte>
    requires |bytes| <= |b|
  {
    bytes + b[|bytes|..]
  }

  predicate InFile(file: seq<Byte>, c: Command) {
    0 <= c.offset && c.offset + SizeOf(c) <= |file|
  }

  /** Write at an offset, growing the file with zeros when needed. */
  function WriteAt(file: seq<Byte>, at: nat, bytes: seq<Byte>): seq<Byte> {
    var room := if at + |bytes| <= |file| then file else file + seq(at + |bytes| - |file|, i => 0);
    Splice(room, at, bytes)
  }

  datatype Ensured = Ensured(slot: Slot, stats: Stats, ok: bool)

  /** Fill the buffer with the block's pattern unless it already exists. */
  function EnsureBuffer(slot: Slot, at: Location, c: Command, env: Env, stats: Stats): Ensured {
    if !Buffered(at) then Ensured(slot, stats, false)
    else if slot.Buffer(at).Some? then Ensured(slot, stats, true)
    else if !env.sourceOk then Ensured(slot, stats, false)
    else Ensured(slot.With(at, Pattern(c)), stats.(lazyInits := stats.lazyInits + 1, lazyBytes := stats.lazyBytes + SizeOf(c)), true)
  }

  function AllocTarget(slot: Slot, at: Location, c: Command, env: Env): Option<Slot> {
    if !Buffered(at) then None
    else if slot.Buffer(at).Some? then Some(slot)
    else if !env.targetOk then None
    else Some(slot.With(at, Fresh(c, env)))
  }

  function CountOp(stats: Stats, c: Command): Stats {
    match c.op
    case Load => stats.(loads := stats.loads + 1)
    case Prefetch => stats.(prefetches := stats.prefetches + 1)
    case Compute => stats.(computes := stats.computes + 1)
    case Evict => stats.(evicts := stats.evicts + 1)
    case OtherOp(_) => stats
  }

  /** The target buffer exists and is large enough for the command. */
  predicate Roomy(slot: Slot, c: Command) {
    slot.Buffer(c.target).Some? && |slot.Buffer(c.target).value| >= SizeOf(c)
  }

  /** Read the range into the target buffer and verify it. */
  function ReadOnto(s: State, i: nat, c: Command, env: Env): Outcome
    requires i < |s.slots| && Roomy(s.slots[i], c)
  {
    if !env.ioOk || !InFile(s.file, c) then Outcome(s, false)
    else
      var filled := Overwrite(s.slots[i].Buffer(c.target).value, Slice(s.file, c.offset, SizeOf(c)));
      var ok := Verifies(filled, c);
      Outcome(s.(slots := s.slots[i := s.slots[i].With(c.target, filled)], stats := CountRead(s.stats, c, ok)), ok)
  }

  function CountRead(stats: Stats, c: Command, ok: bool): Stats {
    stats.(ssdReads := stats.ssdReads + 1, readBytes := stats.readBytes + SizeOf(c),
           verificationErrors := stats.verificationErrors + if ok then 0 else 1)
  }

  /** Copy the source buffer, filled first when it is missing, over the target buffer. */
  function CopyOnto(s: State, i: nat, c: Command, env: Env): Outcome
    requires i < |s.slots| && Roomy(s.slots[i], c)
  {
    var e := EnsureBuffer(s.slots[i], c.source, c, env, s.stats);
    var t := s.(slots := s.slots[i := e.slot], stats := e.stats);
    if !e.ok || e.slot.Buffer(c.source).None? || |e.slot.Buffer(c.source).value| < SizeOf(c) then Outcome(t, false)
    else
      var copied := Overwrite(s.slots[i].Buffer(c.target).value, e.slot.Buffer(c.source).value[..SizeOf(c)]);
      Outcome(t.(slots := t.slots[i := e.slot.With(c.target, copied)], stats := CountCopy(e.stats, c)), true)
  }

  function CountCopy(stats: Stats, c: Command): Stats {
    if c.source.DRAM? && c.target.VRAM? then stats.(copies := stats.copies + 1, copyBytes := stats.copyBytes + SizeOf(c)) else stats
  }

  /** A move into a buffer. A buffer too small for the command ends the run. */
  function Move(s: State, i: nat, c: Command, env: Env): Outcome
    requires i < |s.slots|
  {
    match AllocTarget(s.slots[i], c.target, c, env)
    case None => Outcome(s, false)
    case Some(slot) =>
      var t := s.(slots := s.slots[i := slot]);
      if !Roomy(slot, c) then Outcome(t, false)
      else if c.source.SSD? then ReadOnto(t, i, c, env)
      else CopyOnto(t, i, c, env)
  }

  function ComputeOn(s: State, i: nat, c: Command, env: Env): Outcome
    requires i < |s.slots|
  {
    var e := EnsureBuffer(s.slots[i], VRAM, c, env, s.stats);
    var t := s.(slots := s.slots[i := e.slot], stats := e.stats);
    if !e.ok || e.slot.vram.None? then Outcome(t, false)
    else if Verifies(e.slot.vram.value, c) then Outcome(t.(stats := t.stats.(verified := t.stats.verified + 1)), true)
    else Outcome(t.(stats := t.stats.(verificationErrors := t.stats.verificationErrors + 1)), false)
  }

  function EvictBlock(s: State, i: nat, c: Command, env: Env): Outcome
    requires i < |s.slots|
  {
    var e := EnsureBuffer(s.slots[i], c.source, c, env, s.stats);
    var t := s.(slots := s.slots[i := e.slot], stats := e.stats);
    if !e.ok || e.slot.Buffer(c.source).None? || |e.slot.Buffer(c.source).value| < SizeOf(c) || !env.ioOk || c.offset < 0 then Outcome(t, false)
    else
      Outcome(t.(file := WriteAt(t.file, c.offset, e.slot.Buffer(c.source).value[..SizeOf(c)]),
                 stats := t.stats.(ssdWrites := t.stats.ssdWrites + 1, writeBytes := t.stats.writeBytes + SizeOf(c))), true)
  }

  /** `execute_command`. */
  function Execute(s: State, c: Command, env: Env): Outcome {
    var got := GetSlot(s.slots, c, env);
    if got.at.None? then Outcome(s, false)
    else
      var t := s.(slots := got.slots, stats := CountOp(s.stats, c));
      match c.op
      case Load => Move(t, got.at.value, c, env)
      case Prefetch => Move(t, got.at.value, c, env)
      case Compute => ComputeOn(t, got.at.value, c, env)
      case Evict => EvictBlock(t, got.at.value, c, env)
      case OtherOp(_) => Outcome(t, false)
  }

  /** The command loop of `main`: it stops at the first failure. */
  function Run(s: State, cs: seq<Command>, envs: seq<Env>, n: nat): Outcome
    requires n <= |cs| <= |envs|
  {
    if n == 0 then Outcome(s, true)
    else
      var before := Run(s, cs, envs, n - 1);
      if before.ok then Execute(before.state, cs[n - 1], envs[n - 1]) else before
  }

  // ---------- seeding ----------

  predicate Seen(cs: seq<Command>, i: nat)
    requires i < |cs|
  {
    exists j :: 0 <= j < i && cs[j].source.SSD? && cs[j].offset == cs[i].offset && cs[j].size == cs[i].size
  }

  /** Seed one command: write the pattern of its range unless an earlier command had that range. */
  function SeedStep(s: State, cs: seq<Command>, i: nat, env: Env): Outcome
    requires i < |cs|
  {
    var c := cs[i];
    if !c.source.SSD? || Seen(cs, i) then Outcome(s, true)
    else if !env.targetOk || !env.ioOk || c.offset < 0 then Outcome(s, false)
    else
      Outcome(s.(file := WriteAt(s.file, c.offset, Pattern(c)),
                 stats := s.stats.(ssdSeeds := s.stats.ssdSeeds + 1, seedBytes := s.stats.seedBytes + SizeOf(c))), true)
  }

  /** `seed_ssd_reads` over the first `n` commands; it stops at the first failure. */
  function Seed(s: State, cs: seq<Command>, envs: seq<Env>, n: nat): Outcome
    requires n <= |cs| <= |envs|
  {
    if n == 0 then Outcome(s, true)
    else
      var before := Seed(s, cs, envs, n - 1);
      if before.ok then SeedStep(before.state, cs, n - 1, envs[n - 1]) else before
  }

  function MaxEnd(cs: seq<Command>): (r: nat)
    ensures forall i :: 0 <= i < |cs| ==> cs[i].offset + SizeOf(cs[i]) <= r
    ensures r == 0 || exists i :: 0 <= i < |cs| && cs[i].offset + SizeOf(cs[i]) == r
  {
    if cs == [] then 0
    else
      var m, e := MaxEnd(cs[..|cs| - 1]), cs[|cs| - 1].offset + SizeOf(cs[|cs| - 1]);
      assert forall i :: 0 <= i < |cs| - 1 ==> cs[..|cs| - 1][i] == cs[i];
      if e > m then e else m
  }

  /** The consumer's `main`: refuse an empty list, size the backing file to the largest range end, seed it,
      run. */
  function Consume(cs: seq<Command>, seedEnvs: seq<Env>, envs: seq<Env>): Outcome
    requires |cs| <= |seedEnvs| && |cs| <= |envs|
  {
    var s := State(seq(MaxEnd(cs), i => 0), [], NO_STATS);
    var seeded := Seed(s, cs, seedEnvs, |cs|);
    if cs == [] then Outcome(s, false)
    else if seeded.ok then Run(seeded.state, cs, envs, |cs|) else seeded
  }
}
