/** The llama.cpp live command bridge as functions on values: the shadow table, the DRAM/VRAM staging
    executor, the mutation gate and the attention gate. `Bridge.dfy` refines these functions with the
    mutable tables and counters of the patch; the theorems about runs are proved here and in
    `GateSoundness.dfy`, `ShadowChains.dfy` and `GateCompleteness.dfy`.
 */
module BridgeModel {
  import opened Kv
  import opened ByteCopies
  import opened TensorLayout
  import opened TensorGate
  import Fnv

  const MAX_SHADOW_BLOCKS: nat := 4096
  const MAX_STAGING_BLOCKS: nat := 4096
  const MAX_COMMANDS: nat := 4096

  datatype LayerShape = LayerShape(k: Option<TensorShape>, v: Option<TensorShape>)

  /** What is fixed for one process: the backing file, the loaded commands, the cache and the switches. */
  datatype Config = Config(
    backing: seq<Byte>, commands: seq<Command>, layers: map<int, LayerShape>, cache: nat, vTrans: bool,
    executorEnabled: bool, mutationEnabled: bool, seedMissing: bool)
  {
    function SiteOf(layer: int): Site {
      if layer in layers then Site(layers[layer].k, layers[layer].v, cache, vTrans) else Site(None, None, cache, vTrans)
    }
  }

  /** How the backing file behaves for one read, with stdio or liburing. */
  datatype FileRead = ReadWorks | OpenFails | SeekFails | BackendFails | FallsShort

  /** Whether the allocations and the file read of one executed command succeed. */
  datatype Io = Io(allocOk: bool, file: FileRead, copyAllocOk: bool)

  const WORKING := Io(true, ReadWorks, true)

  /** One layer of one runtime batch. `io[i]` belongs to command record `i`; missing entries succeed. */
  datatype Event = Event(layer: int, block: int, start: int, end: int, io: seq<Io>) {
    function IoAt(i: nat): Io {
      if i < |io| then io[i] else WORKING
    }

    function ShadowKey(): Key {
      Key(layer, block, start, end)
    }
  }

  datatype Shadow = Shadow(key: Key, location: Location)

  datatype Staging = Staging(
    key: Key, size: int, dram: Option<seq<Byte>>, vram: Option<seq<Byte>>,
    ranged: bool, mutated: bool, keyRow: nat, valueRow: nat)

  datatype ShadowStats = ShadowStats(
    events: nat, matched: nat, unmatched: nat, transitions: nat, matches: nat, mismatches: nat,
    blocks: nat, ssd: nat, dram: nat, vram: nat)

  datatype ExecStats = ExecStats(
    metadataOnly: nat, readAttempts: nat, ssdReads: nat, readErrors: nat, readBytes: int,
    openErrors: nat, seekErrors: nat, backendErrors: nat, allocErrors: nat, shortReads: nat,
    lazySeeds: nat, lazySeedBytes: int, copies: nat, copyBytes: int, computes: nat, computeBytes: int,
    evicts: nat, evictBytes: int, missingSources: nat, sizeMismatches: nat, overflows: nat)

  datatype MutationStats = MutationStats(
    attempts: nat, blocks: nat, ranges: nat, bytes: nat, keyBytes: nat, valueBytes: nat, checksums: nat,
    stagingXor: bv64, postXor: bv64, verifyErrors: nat, sizeMismatches: nat, boundsErrors: nat, unsupported: nat)

  datatype Tensors = Tensors(k: seq<Byte>, v: seq<Byte>)

  // ---------- matching and intents ----------

  predicate Matches(c: Command, e: Event) {
    c.layer == e.layer && c.block == e.block && c.start < e.end && c.end > e.start
  }

  datatype Intent = SsdRead | DramToVram | ComputeResident | SsdWrite | Metadata

  function IntentOf(c: Command): Intent {
    if c.Moves(SSD, DRAM) then SsdRead
    else if c.Moves(DRAM, VRAM) then DramToVram
    else if c.op.Compute? then ComputeResident
    else if c.EvictsToSsd() then SsdWrite
    else Metadata
  }

  // ---------- shadow table ----------

  function FindShadow(shadows: seq<Shadow>, key: Key): (r: Option<nat>)
    ensures r.Some? ==> r.value < |shadows| && shadows[r.value].key == key
    ensures r.Some? ==> forall j :: 0 <= j < r.value ==> shadows[j].key != key
    ensures r.None? ==> forall j :: 0 <= j < |shadows| ==> shadows[j].key != key
  {
    if shadows == [] then None
    else if shadows[0].key == key then Some(0)
    else match FindShadow(shadows[1..], key)
      case None => (assert forall j :: 1 <= j < |shadows| ==> shadows[j] == shadows[1..][j - 1]; None)
      case Some(i) => (assert forall j :: 1 <= j < |shadows| ==> shadows[j] == shadows[1..][j - 1]; Some(i + 1))
  }

  datatype ShadowSlot = ShadowSlot(shadows: seq<Shadow>, at: Option<nat>)

  function FindOrCreateShadow(shadows: seq<Shadow>, key: Key, initial: Location): (r: ShadowSlot)
    ensures r.at.Some? ==> r.at.value < |r.shadows| && r.shadows[r.at.value].key == key
  {
    match FindShadow(shadows, key)
    case Some(i) => ShadowSlot(shadows, Some(i))
    case None =>
      if |shadows| >= MAX_SHADOW_BLOCKS then ShadowSlot(shadows, None)
      else ShadowSlot(shadows + [Shadow(key, initial)], Some(|shadows|))
  }

  function SetShadow(shadows: seq<Shadow>, key: Key, initial: Location, location: Location): seq<Shadow> {
    var slot := FindOrCreateShadow(shadows, key, initial);
    if slot.at.None? then slot.shadows
    else slot.shadows[slot.at.value := slot.shadows[slot.at.value].(location := location)]
  }

  function CountAt(shadows: seq<Shadow>, location: Location): nat {
    if shadows == [] then 0 else CountAt(shadows[..|shadows| - 1], location) + if shadows[|shadows| - 1].location == location then 1 else 0
  }

  function Recount(shadows: seq<Shadow>, sh: ShadowStats): ShadowStats {
    sh.(blocks := |shadows|, ssd := CountAt(shadows, SSD), dram := CountAt(shadows, DRAM), vram := CountAt(shadows, VRAM))
  }

  datatype ShadowTable = ShadowTable(shadows: seq<Shadow>, sh: ShadowStats)

  /** One matched command moves the event's shadow record; a full table counts as a match. */
  function Transition(s: ShadowTable, key: Key, c: Command): ShadowTable {
    var slot := FindOrCreateShadow(s.shadows, key, c.source);
    var ok := slot.at.None? || slot.shadows[slot.at.value].location == c.source;
    var moved := if slot.at.None? then slot.shadows
                 else slot.shadows[slot.at.value := slot.shadows[slot.at.value].(location := c.target)];
    var sh := s.sh.(matched := s.sh.matched + 1, transitions := s.sh.transitions + 1,
                    matches := s.sh.matches + (if ok then 1 else 0),
                    mismatches := s.sh.mismatches + (if ok then 0 else 1));
    ShadowTable(moved, Recount(moved, sh))
  }

  // ---------- staging executor ----------

  function Find(staging: seq<Staging>, key: Key): (r: Option<nat>)
    ensures r.Some? ==> r.value < |staging| && staging[r.value].key == key
    ensures r.Some? ==> forall j :: 0 <= j < r.value ==> staging[j].key != key
    ensures r.None? ==> forall j :: 0 <= j < |staging| ==> staging[j].key != key
  {
    if staging == [] then None
    else if staging[0].key == key then Some(0)
    else match Find(staging[1..], key)
      case None => (assert forall j :: 1 <= j < |staging| ==> staging[j] == staging[1..][j - 1]; None)
      case Some(i) => (assert forall j :: 1 <= j < |staging| ==> staging[j] == staging[1..][j - 1]; Some(i + 1))
  }

  /** A buffer is allocated with the size of its record. */
  predicate RecordSized(r: Staging) {
    && (r.dram.Some? ==> |r.dram.value| == r.size)
    && (r.vram.Some? ==> |r.vram.value| == r.size)
  }

  predicate Sized(staging: seq<Staging>) {
    forall i :: 0 <= i < |staging| ==> RecordSized(staging[i])
  }

  datatype Executor = Executor(staging: seq<Staging>, ex: ExecStats)

  datatype Slot = Slot(exec: Executor, at: Option<nat>)

  function FindOrCreate(s: Executor, c: Command): (r: Slot)
    requires Sized(s.staging)
    ensures Sized(r.exec.staging)
    ensures r.at.Some? ==> r.at.value < |r.exec.staging|
    ensures r.at.Some? ==> r.exec.staging[r.at.value].key == c.BufferKey() && r.exec.staging[r.at.value].size == c.size
  {
    match Find(s.staging, c.BufferKey())
    case Some(i) =>
      if s.staging[i].size != c.size then Slot(s.(ex := s.ex.(sizeMismatches := s.ex.sizeMismatches + 1)), None)
      else Slot(s, Some(i))
    case None =>
      if |s.staging| >= MAX_STAGING_BLOCKS then Slot(s.(ex := s.ex.(overflows := s.ex.overflows + 1)), None)
      else Slot(s.(staging := s.staging + [Staging(c.BufferKey(), c.size, None, None, false, false, 0, 0)]), Some(|s.staging|))
  }

  /** Equal K and V row sizes inferred from the block size, or 0 when it does not divide. */
  function InferRow(size: int, tokens: int): nat {
    if tokens <= 0 || size <= 0 || size % tokens != 0 then 0
    else
      var perToken := size / tokens;
      if perToken <= 0 || perToken % 2 != 0 then 0 else perToken / 2
  }

  function VerifyByteRanges(r: Staging): Staging {
    if r.ranged then r
    else
      var row := InferRow(r.size, r.key.end - r.key.start);
      r.(ranged := true, keyRow := row, valueRow := row)
  }

  datatype Loaded = Loaded(buffer: Option<seq<Byte>>, ex: ExecStats)

  /** Allocate a buffer and fill it from the backing file. */
  function ReadBacking(cfg: Config, c: Command, io: Io, counted: bool, ex: ExecStats): (r: Loaded)
    ensures r.buffer.Some? ==> |r.buffer.value| == c.size
  {
    var failed := ex.(readErrors := ex.readErrors + if counted then 1 else 0);
    if c.size <= 0 || c.offset < 0 then Loaded(None, failed.(seekErrors := ex.seekErrors + 1))
    else if !io.allocOk then Loaded(None, failed.(allocErrors := ex.allocErrors + 1))
    else match io.file
      case OpenFails => Loaded(None, failed.(openErrors := ex.openErrors + 1))
      case SeekFails => Loaded(None, failed.(seekErrors := ex.seekErrors + 1))
      case BackendFails => Loaded(None, failed.(backendErrors := ex.backendErrors + 1))
      case FallsShort => Loaded(None, failed.(shortReads := ex.shortReads + 1))
      case ReadWorks =>
        if c.offset + c.size > |cfg.backing| then Loaded(None, failed.(shortReads := ex.shortReads + 1))
        else Loaded(Some(Slice(cfg.backing, c.offset, c.size)), ex)
  }

  datatype Assigned = Assigned(exec: Executor, ok: bool)

  function AssignDram(s: Executor, c: Command, buffer: seq<Byte>): (r: Assigned)
    requires Sized(s.staging) && |buffer| == c.size
    ensures Sized(r.exec.staging)
  {
    var slot := FindOrCreate(s, c);
    if slot.at.None? then Assigned(slot.exec, false)
    else
      var i := slot.at.value;
      var staging := slot.exec.staging;
      Assigned(slot.exec.(staging := staging[i := VerifyByteRanges(staging[i].(dram := Some(buffer)))]), true)
  }

  function AssignVram(s: Executor, c: Command, buffer: seq<Byte>): (r: Assigned)
    requires Sized(s.staging) && |buffer| == c.size
    ensures Sized(r.exec.staging)
  {
    var slot := FindOrCreate(s, c);
    if slot.at.None? then Assigned(slot.exec, false)
    else
      var i := slot.at.value;
      var staging := slot.exec.staging;
      Assigned(slot.exec.(staging := staging[i := VerifyByteRanges(staging[i].(vram := Some(buffer)))]), true)
  }

  function CountMissing(s: Executor): Executor {
    s.(ex := s.ex.(missingSources := s.ex.missingSources + 1))
  }

  function CountSeed(s: Executor, c: Command): Executor {
    s.(ex := s.ex.(lazySeeds := s.ex.lazySeeds + 1, lazySeedBytes := s.ex.lazySeedBytes + c.size))
  }

  function EnsureDram(cfg: Config, s: Executor, c: Command, io: Io): (r: Slot)
    requires Sized(s.staging)
    ensures Sized(r.exec.staging)
    ensures r.at.Some? ==> r.at.value < |r.exec.staging|
  {
    var at := Find(s.staging, c.BufferKey());
    if at.Some? && s.staging[at.value].dram.Some? then Slot(s, at)
    else if !cfg.seedMissing then Slot(CountMissing(s), None)
    else
      var loaded := ReadBacking(cfg, c, io, false, s.ex);
      if loaded.buffer.None? then Slot(CountMissing(s.(ex := loaded.ex)), None)
      else
        var a := AssignDram(s.(ex := loaded.ex), c, loaded.buffer.value);
        if !a.ok then Slot(CountMissing(a.exec), None)
        else Slot(CountSeed(a.exec, c), Find(a.exec.staging, c.BufferKey()))
  }

  function EnsureVram(cfg: Config, s: Executor, c: Command, io: Io): (r: Slot)
    requires Sized(s.staging)
    ensures Sized(r.exec.staging)
    ensures r.at.Some? ==> r.at.value < |r.exec.staging|
  {
    var at := Find(s.staging, c.BufferKey());
    if at.Some? && s.staging[at.value].vram.Some? then Slot(s, at)
    else if !cfg.seedMissing then Slot(CountMissing(s), None)
    else
      var loaded := ReadBacking(cfg, c, io, false, s.ex);
      if loaded.buffer.None? then Slot(CountMissing(s.(ex := loaded.ex)), None)
      else
        var a := AssignVram(s.(ex := loaded.ex), c, loaded.buffer.value);
        if !a.ok then Slot(CountMissing(a.exec), None)
        else Slot(CountSeed(a.exec, c), Find(a.exec.staging, c.BufferKey()))
  }

  function ExecuteSsdRead(cfg: Config, s: Executor, c: Command, io: Io): (r: Executor)
    requires Sized(s.staging)
    ensures Sized(r.staging)
  {
    var loaded := ReadBacking(cfg, c, io, true, s.ex.(readAttempts := s.ex.readAttempts + 1));
    if loaded.buffer.None? then s.(ex := loaded.ex)
    else
      var a := AssignDram(s.(ex := loaded.ex), c, loaded.buffer.value);
      if a.ok then a.exec.(ex := a.exec.ex.(ssdReads := a.exec.ex.ssdReads + 1, readBytes := a.exec.ex.readBytes + c.size))
      else a.exec.(ex := a.exec.ex.(readErrors := a.exec.ex.readErrors + 1))
  }

  function ExecuteDramToVram(cfg: Config, s: Executor, c: Command, io: Io): (r: Executor)
    requires Sized(s.staging)
    ensures Sized(r.staging)
  {
    var slot := EnsureDram(cfg, s, c, io);
    var e := slot.exec;
    if slot.at.None? || e.staging[slot.at.value].dram.None? then e
    else if e.staging[slot.at.value].size != c.size then e.(ex := e.ex.(sizeMismatches := e.ex.sizeMismatches + 1))
    else if !io.copyAllocOk then e.(ex := e.ex.(allocErrors := e.ex.allocErrors + 1))
    else
      var a := AssignVram(e, c, e.staging[slot.at.value].dram.value);
      if a.ok then a.exec.(ex := a.exec.ex.(copies := a.exec.ex.copies + 1, copyBytes := a.exec.ex.copyBytes + c.size))
      else a.exec
  }

  function ExecuteCompute(cfg: Config, s: Executor, c: Command, io: Io): (r: Executor)
    requires Sized(s.staging)
    ensures Sized(r.staging)
  {
    var slot := EnsureVram(cfg, s, c, io);
    var e := slot.exec;
    if slot.at.None? || e.staging[slot.at.value].vram.None? then e
    else if e.staging[slot.at.value].size != c.size then e.(ex := e.ex.(sizeMismatches := e.ex.sizeMismatches + 1))
    else e.(ex := e.ex.(computes := e.ex.computes + 1, computeBytes := e.ex.computeBytes + c.size))
  }

  function ExecuteEvict(s: Executor, c: Command): (r: Executor)
    requires Sized(s.staging)
    ensures Sized(r.staging)
  {
    var at := Find(s.staging, c.BufferKey());
    if at.None? || (s.staging[at.value].vram.None? && s.staging[at.value].dram.None?) then CountMissing(s)
    else
      var old_ := s.staging[at.value];
      var freed := if old_.vram.Some? then old_.(vram := None) else old_.(dram := None);
      Executor(s.staging[at.value := freed],
               s.ex.(evicts := s.ex.evicts + 1, evictBytes := s.ex.evictBytes + c.size))
  }

  function ExecuteIntent(cfg: Config, s: Executor, c: Command, io: Io): (r: Executor)
    requires Sized(s.staging)
    ensures Sized(r.staging)
  {
    if !cfg.executorEnabled then s
    else match IntentOf(c)
      case SsdRead => ExecuteSsdRead(cfg, s, c, io)
      case DramToVram => ExecuteDramToVram(cfg, s, c, io)
      case ComputeResident => ExecuteCompute(cfg, s, c, io)
      case SsdWrite => ExecuteEvict(s, c)
      case Metadata => s.(ex := s.ex.(metadataOnly := s.ex.metadataOnly + 1))
  }

  // ---------- mutation gate ----------

  /** What a `uint32_t` counter holds of a sum. */
  function Wrap32(n: nat): nat {
    n % UINT32_SPAN
  }

  function Wrap64(n: int): nat {
    n % UINT64_SPAN
  }

  function NatOf(i: int): nat {
    if i < 0 then 0 else i
  }

  function RowsOf(r: Staging): Rows {
    Rows(NatOf(r.key.block), NatOf(r.key.end - r.key.start), r.keyRow, r.valueRow)
  }

  predicate TensorsUsable(site: Site) {
    site.k.Some? && site.v.Some? && site.k.value.ne2 == 1 && site.v.value.ne2 == 1
  }

  datatype Gated = Gated(staging: seq<Staging>, mu: MutationStats, tensors: Tensors)

  predicate TensorsShaped(site: Site, t: Tensors) {
    Shaped(site, |t.k|, |t.v|)
  }

  /** The record as the gate leaves it: marked, with its row sizes filled in when the tensors are usable. */
  function Marked(r: Staging, site: Site): Staging {
    var m := r.(mutated := true);
    if TensorsUsable(site) then VerifyByteRanges(m) else m
  }

  function VerdictOn(r: Staging, site: Site): Verdict {
    Judge(RowsOf(r), r.size, site)
  }

  /** The rows of a block that the executor has staged: its cells follow from the key, its row sizes from
      the size. */
  function RowsFor(key: Key, size: int): Rows {
    var row := InferRow(size, key.end - key.start);
    Rows(NatOf(key.block), NatOf(key.end - key.start), row, row)
  }

  /** The verdict on a staged block, before any run. */
  function VerdictFor(cfg: Config, key: Key, size: int): Verdict {
    Judge(RowsFor(key, size), size, cfg.SiteOf(key.layer))
  }

  predicate GateActs(cfg: Config, r: Staging) {
    cfg.mutationEnabled && r.vram.Some? && !r.mutated
  }

  function KeysHash(image: seq<Byte>, g: Rows): bv64
    requires g.Size() <= |image|
  {
    RowsHash(image, g.Stride(), 0, g.keyRow, g.tokens)
  }

  function ValuesHash(image: seq<Byte>, g: Rows): bv64
    requires g.Size() <= |image|
  {
    RowsHash(image, g.Stride(), g.keyRow, g.valueRow, g.tokens)
  }

  /** The checksum of a staged block: its K rows' fold xor its V rows' fold. */
  function BlockHash(image: seq<Byte>, g: Rows): bv64
    requires g.Size() <= |image|
  {
    Fnv.Xor(KeysHash(image, g), ValuesHash(image, g))
  }

  /** Count a copied block with the checksum of its staging rows and of what was read back. */
  function CountCopied(mu: MutationStats, g: Rows, size: int, staged: bv64, readBack: bv64): MutationStats {
    mu.(blocks := Wrap32(mu.blocks + 1), ranges := Wrap32(mu.ranges + g.tokens * 2), bytes := Wrap64(mu.bytes + size),
        keyBytes := Wrap64(mu.keyBytes + g.tokens * g.keyRow), valueBytes := Wrap64(mu.valueBytes + g.tokens * g.valueRow),
        checksums := Wrap32(mu.checksums + 4),
        stagingXor := Fnv.Xor(mu.stagingXor, staged), postXor := Fnv.Xor(mu.postXor, readBack))
  }

  function CountRefused(mu: MutationStats, verdict: Verdict): MutationStats
    requires !verdict.Copied?
  {
    match verdict
    case Unsupported => mu.(unsupported := Wrap32(mu.unsupported + 1))
    case SizeMismatch => mu.(sizeMismatches := Wrap32(mu.sizeMismatches + 1))
    case BoundsError(n) => mu.(boundsErrors := Wrap32(mu.boundsErrors + n))
  }

  /** The mutation gate on record `i`. A copied block counts equal staging and read-back checksums, so
      the count of verification errors never moves. */
  function Mutate(cfg: Config, site: Site, staging: seq<Staging>, i: nat, mu: MutationStats, t: Tensors): (r: Gated)
    requires i < |staging| && Sized(staging) && TensorsShaped(site, t)
    ensures Sized(r.staging) && TensorsShaped(site, r.tensors) && |r.staging| == |staging|
  {
    if !GateActs(cfg, staging[i]) then Gated(staging, mu, t)
    else
      var marked := Marked(staging[i], site);
      var image := staging[i].vram.value;
      var g := RowsOf(marked);
      var attempted := mu.(attempts := Wrap32(mu.attempts + 1));
      var after := staging[i := marked];
      var verdict := VerdictOn(marked, site);
      if verdict.Copied? then
        PlansFit(g, |image|, site, |t.k|, |t.v|, g.tokens);
        Gated(after, CountCopied(attempted, g, |image|, BlockHash(image, g), BlockHash(image, g)),
              Tensors(WriteKeys(t.k, image, g, site), WriteValues(t.v, image, g, site)))
      else Gated(after, CountRefused(attempted, verdict), t)
  }

  // ---------- one runtime event ----------

  datatype State = State(shadows: seq<Shadow>, sh: ShadowStats, staging: seq<Staging>, ex: ExecStats, mu: MutationStats)

  datatype Stepped = Stepped(state: State, tensors: Tensors)

  function ApplyCommand(cfg: Config, e: Event, s: Stepped, i: nat): (r: Stepped)
    requires i < |cfg.commands| && Sized(s.state.staging) && TensorsShaped(cfg.SiteOf(e.layer), s.tensors)
    ensures Sized(r.state.staging) && TensorsShaped(cfg.SiteOf(e.layer), r.tensors)
  {
    var c := cfg.commands[i];
    var table := Transition(ShadowTable(s.state.shadows, s.state.sh), e.ShadowKey(), c);
    var exec := ExecuteIntent(cfg, Executor(s.state.staging, s.state.ex), c, e.IoAt(i));
    var at := Find(exec.staging, c.BufferKey());
    var gated := if at.Some? then Mutate(cfg, cfg.SiteOf(e.layer), exec.staging, at.value, s.state.mu, s.tensors)
                 else Gated(exec.staging, s.state.mu, s.tensors);
    Stepped(State(table.shadows, table.sh, gated.staging, exec.ex, gated.mu), gated.tensors)
  }

  /** The command loop up to record `n`. */
  function ApplyCommands(cfg: Config, e: Event, s: Stepped, n: nat): (r: Stepped)
    requires n <= |cfg.commands| && Sized(s.state.staging) && TensorsShaped(cfg.SiteOf(e.layer), s.tensors)
    ensures Sized(r.state.staging) && TensorsShaped(cfg.SiteOf(e.layer), r.tensors)
  {
    if n == 0 then s
    else
      var before := ApplyCommands(cfg, e, s, n - 1);
      if Matches(cfg.commands[n - 1], e) then ApplyCommand(cfg, e, before, n - 1) else before
  }

  function FirstMatch(cs: seq<Command>, e: Event): (r: Option<nat>)
    ensures r.Some? ==> r.value < |cs| && Matches(cs[r.value], e)
    ensures r.Some? ==> forall j :: 0 <= j < r.value ==> !Matches(cs[j], e)
    ensures r.None? ==> forall j :: 0 <= j < |cs| ==> !Matches(cs[j], e)
  {
    if cs == [] then None
    else if Matches(cs[0], e) then Some(0)
    else match FirstMatch(cs[1..], e)
      case None => (assert forall j :: 1 <= j < |cs| ==> cs[j] == cs[1..][j - 1]; None)
      case Some(i) => (assert forall j :: 1 <= j < |cs| ==> cs[j] == cs[1..][j - 1]; Some(i + 1))
  }

  /** The head of an event: count it and reset its shadow record to the first matched command's source. */
  function Begin(cfg: Config, e: Event, s: State): State {
    var counted := s.(sh := s.sh.(events := s.sh.events + 1));
    match FirstMatch(cfg.commands, e)
    case None => counted
    case Some(i) =>
      var source := cfg.commands[i].source;
      counted.(shadows := SetShadow(s.shadows, e.ShadowKey(), source, source))
  }

  function ApplyEvent(cfg: Config, e: Event, s: Stepped): (r: Stepped)
    requires Sized(s.state.staging) && TensorsShaped(cfg.SiteOf(e.layer), s.tensors)
    ensures Sized(r.state.staging) && TensorsShaped(cfg.SiteOf(e.layer), r.tensors)
  {
    var after := ApplyCommands(cfg, e, s.(state := Begin(cfg, e, s.state)), |cfg.commands|);
    if FirstMatch(cfg.commands, e).None?
    then after.(state := after.state.(sh := after.state.sh.(unmatched := after.state.sh.unmatched + 1)))
    else after
  }

  // ---------- runs over all layers ----------

  /** The bridge and the tensors of every layer of the cache. */
  datatype World = World(state: State, tensors: map<int, Tensors>)

  predicate WorldShaped(cfg: Config, w: World) {
    && Sized(w.state.staging)
    && (forall l :: l in w.tensors ==> TensorsShaped(cfg.SiteOf(l), w.tensors[l]))
  }

  predicate LayersKnown(w: World, es: seq<Event>) {
    forall i :: 0 <= i < |es| ==> es[i].layer in w.tensors
  }

  function ApplyInWorld(cfg: Config, e: Event, w: World): (r: World)
    requires WorldShaped(cfg, w) && e.layer in w.tensors
    ensures WorldShaped(cfg, r) && r.tensors.Keys == w.tensors.Keys
  {
    var s := ApplyEvent(cfg, e, Stepped(w.state, w.tensors[e.layer]));
    World(s.state, w.tensors[e.layer := s.tensors])
  }

  function Run(cfg: Config, es: seq<Event>, w: World): (r: World)
    requires WorldShaped(cfg, w) && LayersKnown(w, es)
    ensures WorldShaped(cfg, r) && r.tensors.Keys == w.tensors.Keys
  {
    if es == [] then w
    else
      assert forall i :: 0 <= i < |es| - 1 ==> es[..|es| - 1][i] == es[i];
      ApplyInWorld(cfg, es[|es| - 1], Run(cfg, es[..|es| - 1], w))
  }

  const ZERO_SHADOWS := ShadowStats(0, 0, 0, 0, 0, 0, 0, 0, 0, 0)
  const ZERO_EXEC := ExecStats(0, 0, 0, 0, 0, 0, 0, 0, 0, 0, 0, 0, 0, 0, 0, 0, 0, 0, 0, 0, 0)
  const ZERO_MUTATIONS := MutationStats(0, 0, 0, 0, 0, 0, 0, 0, 0, 0, 0, 0, 0)

  /** The bridge as `kv_command_dry_run_once` leaves it. */
  const FRESH := State([], ZERO_SHADOWS, [], ZERO_EXEC, ZERO_MUTATIONS)

  // ---------- attention gate ----------

  predicate RequiresResidency(c: Command) {
    c.op.Compute? || c.target.VRAM?
  }

  /** The command's cells overlap the attention view `[0, nKv)` of a layer. */
  predicate OverlapsView(c: Command, layer: int, nKv: nat) {
    && c.layer == layer && RequiresResidency(c)
    && c.block >= 0 && c.end > c.start
    && c.block < nKv
  }

  predicate KeySeen(cs: seq<Command>, upto: nat, c: Command, layer: int, nKv: nat)
    requires upto <= |cs|
  {
    exists i :: 0 <= i < upto && OverlapsView(cs[i], layer, nKv) && cs[i].BufferKey() == c.BufferKey()
  }

  datatype Readiness = Readiness(required: nat, ready: nat, missing: nat, pending: nat)

  predicate Missing(staging: seq<Staging>, key: Key) {
    var at := Find(staging, key);
    at.None? || staging[at.value].vram.None?
  }

  predicate Ready(staging: seq<Staging>, key: Key) {
    !Missing(staging, key) && staging[Find(staging, key).value].mutated
  }

  /** The gate's loop over the first `n` command records. */
  function Gate(cfg: Config, staging: seq<Staging>, layer: int, nKv: nat, n: nat): Readiness
    requires n <= |cfg.commands|
  {
    if n == 0 then Readiness(0, 0, 0, 0)
    else
      var r := Gate(cfg, staging, layer, nKv, n - 1);
      var c := cfg.commands[n - 1];
      if !OverlapsView(c, layer, nKv) || KeySeen(cfg.commands, n - 1, c, layer, nKv) then r
      else if Missing(staging, c.BufferKey()) then r.(required := r.required + 1, missing := r.missing + 1)
      else if !Ready(staging, c.BufferKey()) then r.(required := r.required + 1, pending := r.pending + 1)
      else r.(required := r.required + 1, ready := r.ready + 1)
  }
}
