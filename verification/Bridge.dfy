/** The llama.cpp live command bridge with the mutable tables and counters of the patch. Each method is
    proved to change the tables exactly as the functions of `BridgeModel` say.
 */
module Bridge {
  import opened Kv
  import opened ByteCopies
  import opened TensorLayout
  import opened TensorGate
  import opened BridgeModel
  import Fnv

  datatype GateStats = GateStats(
    views: nat, kViews: nat, vViews: nat, noRequired: nat, required: nat, ready: nat, missing: nat, pending: nat)

  datatype View = KeyView | ValueView

  class CommandBridge {
    const cfg: Config
    var shadows: seq<Shadow>
    var staging: seq<Staging>
    var sh: ShadowStats
    var ex: ExecStats
    var mu: MutationStats
    var ga: GateStats

    constructor (cfg: Config)
      ensures this.cfg == cfg && Now() == FRESH && Valid()
      ensures ga == GateStats(0, 0, 0, 0, 0, 0, 0, 0)
    {
      this.cfg := cfg;
      shadows, staging := [], [];
      sh, ex, mu := ZERO_SHADOWS, ZERO_EXEC, ZERO_MUTATIONS;
      ga := GateStats(0, 0, 0, 0, 0, 0, 0, 0);
    }

    predicate Valid()
      reads this
    {
      Sized(staging)
    }

    function Now(): State
      reads this
    {
      State(shadows, sh, staging, ex, mu)
    }

    function Exec(): Executor
      reads this
    {
      Executor(staging, ex)
    }

    // ---------- shadow table ----------

    method FindOrCreateShadowRecord(key: Key, initial: Location) returns (at: Option<nat>)
      modifies this`shadows
      ensures ShadowSlot(shadows, at) == FindOrCreateShadow(old(shadows), key, initial)
    {
      var i := 0;
      while i < |shadows|
        invariant 0 <= i <= |shadows|
        invariant forall j :: 0 <= j < i ==> shadows[j].key != key
      {
        if shadows[i].key == key {
          return Some(i);
        }
        i := i + 1;
      }
      if |shadows| >= MAX_SHADOW_BLOCKS {
        return None;
      }
      shadows := shadows + [Shadow(key, initial)];
      return Some(|shadows| - 1);
    }

    method ResetShadowRecord(key: Key, initial: Location)
      modifies this`shadows
      ensures shadows == SetShadow(old(shadows), key, initial, initial)
    {
      var at := FindOrCreateShadowRecord(key, initial);
      if at.Some? {
        shadows := shadows[at.value := shadows[at.value].(location := initial)];
      }
    }

    method RefreshShadowCounts()
      modifies this`sh
      ensures sh == Recount(shadows, old(sh))
    {
      var ssd, dram, vram := 0, 0, 0;
      var i := 0;
      while i < |shadows|
        invariant 0 <= i <= |shadows|
        invariant ssd == CountAt(shadows[..i], SSD) && dram == CountAt(shadows[..i], DRAM) && vram == CountAt(shadows[..i], VRAM)
      {
        assert shadows[..i + 1][..i] == shadows[..i];
        match shadows[i].location {
          case SSD => ssd := ssd + 1;
          case DRAM => dram := dram + 1;
          case VRAM => vram := vram + 1;
          case Elsewhere(_) =>
        }
        i := i + 1;
      }
      assert shadows[..|shadows|] == shadows;
      sh := sh.(blocks := |shadows|, ssd := ssd, dram := dram, vram := vram);
    }

    // ---------- staging executor ----------

    method FindStagingRecord(key: Key) returns (at: Option<nat>)
      ensures at == Find(staging, key)
    {
      var i := 0;
      while i < |staging|
        invariant 0 <= i <= |staging|
        invariant forall j :: 0 <= j < i ==> staging[j].key != key
      {
        if staging[i].key == key {
          return Some(i);
        }
        i := i + 1;
      }
      return None;
    }

    method FindOrCreateStagingRecord(c: Command) returns (at: Option<nat>)
      requires Valid()
      modifies this`staging, this`ex
      ensures Valid() && Slot(Exec(), at) == FindOrCreate(old(Exec()), c)
    {
      at := FindStagingRecord(c.BufferKey());
      if at.Some? {
        if staging[at.value].size != c.size {
          ex := ex.(sizeMismatches := ex.sizeMismatches + 1);
          return None;
        }
        return;
      }
      if |staging| >= MAX_STAGING_BLOCKS {
        ex := ex.(overflows := ex.overflows + 1);
        return None;
      }
      staging := staging + [Staging(c.BufferKey(), c.size, None, None, false, false, 0, 0)];
      return Some(|staging| - 1);
    }

    method AllocAndReadBacking(c: Command, io: Io, counted: bool) returns (buffer: Option<seq<Byte>>)
      modifies this`ex
      ensures Loaded(buffer, ex) == ReadBacking(cfg, c, io, counted, old(ex))
    {
      buffer := None;
      if c.size <= 0 || c.offset < 0 {
        ex := ex.(seekErrors := ex.seekErrors + 1);
      } else if !io.allocOk {
        ex := ex.(allocErrors := ex.allocErrors + 1);
      } else {
        match io.file {
          case OpenFails => ex := ex.(openErrors := ex.openErrors + 1);
          case SeekFails => ex := ex.(seekErrors := ex.seekErrors + 1);
          case BackendFails => ex := ex.(backendErrors := ex.backendErrors + 1);
          case FallsShort => ex := ex.(shortReads := ex.shortReads + 1);
          case ReadWorks =>
            if c.offset + c.size > |cfg.backing| {
              ex := ex.(shortReads := ex.shortReads + 1);
            } else {
              buffer := Some(cfg.backing[c.offset..c.offset + c.size]);
            }
        }
      }
      if buffer.None? && counted {
        ex := ex.(readErrors := ex.readErrors + 1);
      }
    }

    method AssignDramBuffer(c: Command, buffer: seq<Byte>) returns (ok: bool)
      requires Valid() && |buffer| == c.size
      modifies this`staging, this`ex
      ensures Valid() && Assigned(Exec(), ok) == AssignDram(old(Exec()), c, buffer)
    {
      var at := FindOrCreateStagingRecord(c);
      if at.None? {
        return false;
      }
      staging := staging[at.value := VerifyByteRanges(staging[at.value].(dram := Some(buffer)))];
      return true;
    }

    method AssignVramBuffer(c: Command, buffer: seq<Byte>) returns (ok: bool)
      requires Valid() && |buffer| == c.size
      modifies this`staging, this`ex
      ensures Valid() && Assigned(Exec(), ok) == AssignVram(old(Exec()), c, buffer)
    {
      var at := FindOrCreateStagingRecord(c);
      if at.None? {
        return false;
      }
      staging := staging[at.value := VerifyByteRanges(staging[at.value].(vram := Some(buffer)))];
      return true;
    }

    method EnsureDramSource(c: Command, io: Io) returns (at: Option<nat>)
      requires Valid()
      modifies this`staging, this`ex
      ensures Valid() && Slot(Exec(), at) == EnsureDram(cfg, old(Exec()), c, io)
    {
      at := FindStagingRecord(c.BufferKey());
      if at.Some? && staging[at.value].dram.Some? {
        return;
      }
      if !cfg.seedMissing {
        ex := ex.(missingSources := ex.missingSources + 1);
        return None;
      }
      var buffer := AllocAndReadBacking(c, io, false);
      var ok := false;
      if buffer.Some? {
        ok := AssignDramBuffer(c, buffer.value);
      }
      if !ok {
        ex := ex.(missingSources := ex.missingSources + 1);
        return None;
      }
      ex := ex.(lazySeeds := ex.lazySeeds + 1, lazySeedBytes := ex.lazySeedBytes + c.size);
      at := FindStagingRecord(c.BufferKey());
    }

    method EnsureVramSource(c: Command, io: Io) returns (at: Option<nat>)
      requires Valid()
      modifies this`staging, this`ex
      ensures Valid() && Slot(Exec(), at) == EnsureVram(cfg, old(Exec()), c, io)
    {
      at := FindStagingRecord(c.BufferKey());
      if at.Some? && staging[at.value].vram.Some? {
        return;
      }
      if !cfg.seedMissing {
        ex := ex.(missingSources := ex.missingSources + 1);
        return None;
      }
      var buffer := AllocAndReadBacking(c, io, false);
      var ok := false;
      if buffer.Some? {
        ok := AssignVramBuffer(c, buffer.value);
      }
      if !ok {
        ex := ex.(missingSources := ex.missingSources + 1);
        return None;
      }
      ex := ex.(lazySeeds := ex.lazySeeds + 1, lazySeedBytes := ex.lazySeedBytes + c.size);
      at := FindStagingRecord(c.BufferKey());
    }

    method ExecuteSsdReadIntent(c: Command, io: Io)
      requires Valid()
      modifies this`staging, this`ex
      ensures Valid() && Exec() == ExecuteSsdRead(cfg, old(Exec()), c, io)
    {
      hide ReadBacking, AssignDram;
      ex := ex.(readAttempts := ex.readAttempts + 1);
      var buffer := AllocAndReadBacking(c, io, true);
      if buffer.None? {
        return;
      }
      var ok := AssignDramBuffer(c, buffer.value);
      if ok {
        ex := ex.(ssdReads := ex.ssdReads + 1, readBytes := ex.readBytes + c.size);
      } else {
        ex := ex.(readErrors := ex.readErrors + 1);
      }
    }

    method ExecuteDramToVramIntent(c: Command, io: Io)
      requires Valid()
      modifies this`staging, this`ex
      ensures Valid() && Exec() == ExecuteDramToVram(cfg, old(Exec()), c, io)
    {
      var at := EnsureDramSource(c, io);
      if at.None? || staging[at.value].dram.None? {
        return;
      }
      if staging[at.value].size != c.size {
        ex := ex.(sizeMismatches := ex.sizeMismatches + 1);
        return;
      }
      if !io.copyAllocOk {
        ex := ex.(allocErrors := ex.allocErrors + 1);
        return;
      }
      var ok := AssignVramBuffer(c, staging[at.value].dram.value);
      if ok {
        ex := ex.(copies := ex.copies + 1, copyBytes := ex.copyBytes + c.size);
      }
    }

    method ExecuteComputeIntent(c: Command, io: Io)
      requires Valid()
      modifies this`staging, this`ex
      ensures Valid() && Exec() == ExecuteCompute(cfg, old(Exec()), c, io)
    {
      var at := EnsureVramSource(c, io);
      if at.None? || staging[at.value].vram.None? {
        return;
      }
      if staging[at.value].size != c.size {
        ex := ex.(sizeMismatches := ex.sizeMismatches + 1);
        return;
      }
      ex := ex.(computes := ex.computes + 1, computeBytes := ex.computeBytes + c.size);
    }

    method ExecuteEvictIntent(c: Command)
      requires Valid()
      modifies this`staging, this`ex
      ensures Valid() && Exec() == ExecuteEvict(old(Exec()), c)
    {
      var at := FindStagingRecord(c.BufferKey());
      if at.None? || (staging[at.value].vram.None? && staging[at.value].dram.None?) {
        ex := ex.(missingSources := ex.missingSources + 1);
        return;
      }
      if staging[at.value].vram.Some? {
        staging := staging[at.value := staging[at.value].(vram := None)];
      } else {
        staging := staging[at.value := staging[at.value].(dram := None)];
      }
      ex := ex.(evicts := ex.evicts + 1, evictBytes := ex.evictBytes + c.size);
    }

    method ExecuteMovementIntent(c: Command, io: Io)
      requires Valid()
      modifies this`staging, this`ex
      ensures Valid() && Exec() == ExecuteIntent(cfg, old(Exec()), c, io)
    {
      if !cfg.executorEnabled {
        return;
      }
      match IntentOf(c) {
        case SsdRead => ExecuteSsdReadIntent(c, io);
        case DramToVram => ExecuteDramToVramIntent(c, io);
        case ComputeResident => ExecuteComputeIntent(c, io);
        case SsdWrite => ExecuteEvictIntent(c);
        case Metadata => ex := ex.(metadataOnly := ex.metadataOnly + 1);
      }
    }

    // ---------- mutation gate ----------

    /** The tensors handed to the bridge are those of the event's layer. */
    static ghost predicate LayerTensors(site: Site, k: Tensor?, v: Tensor?) {
      && site.k == (if k == null then None else Some(k.shape))
      && site.v == (if v == null then None else Some(v.shape))
      && (k != null && v != null ==> k.data != v.data)
    }

    static function Content(t: Tensor?): seq<Byte>
      reads if t == null then {} else {t.data}
    {
      if t == null then [] else t.data[..]
    }

    method MutationGate(at: nat, site: Site, k: Tensor?, v: Tensor?)
      requires Valid() && at < |staging| && LayerTensors(site, k, v)
      requires TensorsShaped(site, Tensors(Content(k), Content(v)))
      modifies this`staging, this`mu, if k == null then {} else {k.data}, if v == null then {} else {v.data}
      ensures Valid()
      ensures Gated(staging, mu, Tensors(Content(k), Content(v)))
        == Mutate(cfg, site, old(staging), at, old(mu), old(Tensors(Content(k), Content(v))))
    {
      if !cfg.mutationEnabled || staging[at].vram.None? || staging[at].mutated {
        return;
      }
      var image := staging[at].vram.value;
      var marked := Marked(staging[at], site);
      var g := RowsOf(marked);
      var verdict := VerdictOn(marked, site);
      staging := staging[at := marked];
      mu := mu.(attempts := Wrap32(mu.attempts + 1));
      if verdict.Copied? {
        assert RecordSized(old(staging)[at]);
        CopyIntoTensors(image, g, site, k, v);
      } else {
        mu := CountRefused(mu, verdict);
      }
    }

    /** The accepted branch of the gate: copy the rows, compare the checksums, count. */
    method CopyIntoTensors(image: seq<Byte>, g: Rows, site: Site, k: Tensor, v: Tensor)
      requires LayerTensors(site, k, v) && Judge(g, |image|, site).Copied?
      requires Shaped(site, k.data.Length, v.data.Length)
      modifies this`mu, k.data, v.data
      ensures g.Size() <= |image|
      ensures mu == CountCopied(old(mu), g, |image|, BlockHash(image, g), BlockHash(image, g))
      ensures AllFit(KeyCopies(g, g.tokens), |image|, k.data.Length) && AllFit(ValuePlan(g, site, g.tokens), |image|, v.data.Length)
      ensures k.data[..] == WriteKeys(old(k.data[..]), image, g, site)
      ensures v.data[..] == WriteValues(old(v.data[..]), image, g, site)
    {
      PositiveRows(g, |image|, site);
      CopiedFacts(g, |image|, site, k.data.Length, v.data.Length);
      hide Judge, RowsHash, WriteKeys, WriteValues, Shaped, ValuePlan, KeyCopies, Fnv.Xor;
      var stagingKey := StagingChecksum(image, g, false);
      var stagingValue := StagingChecksum(image, g, true);
      var postKey, postValue := CopyRows(image, g, site, k, v);
      mu := CountCopied(mu, g, |image|, Fnv.Xor(stagingKey, stagingValue), Fnv.Xor(postKey, postValue));
      var verifyErrors := 0;
      if stagingKey != postKey {
        verifyErrors := verifyErrors + 1;
      }
      if stagingValue != postValue {
        verifyErrors := verifyErrors + 1;
      }
      mu := mu.(verifyErrors := mu.verifyErrors + verifyErrors);
    }

    static lemma PositiveRows(g: Rows, size: int, site: Site)
      requires Judge(g, size, site).Copied?
      ensures g.keyRow > 0 && g.valueRow > 0 && site.k.Some? && site.v.Some?
    {
    }

    // ---------- runtime events ----------

    method FirstMatchingRecord(e: Event) returns (first: Option<nat>)
      ensures first == FirstMatch(cfg.commands, e)
    {
      var i := 0;
      while i < |cfg.commands|
        invariant 0 <= i <= |cfg.commands|
        invariant forall j :: 0 <= j < i ==> !Matches(cfg.commands[j], e)
      {
        if Matches(cfg.commands[i], e) {
          return Some(i);
        }
        i := i + 1;
      }
      return None;
    }

    /** Move the event's shadow record along one matched command. */
    method ShadowTransition(key: Key, c: Command)
      modifies this`shadows, this`sh
      ensures ShadowTable(shadows, sh) == Transition(old(ShadowTable(shadows, sh)), key, c)
    {
      var at := FindOrCreateShadowRecord(key, c.source);
      var ok := true;
      if at.Some? {
        ok := shadows[at.value].location == c.source;
        shadows := shadows[at.value := shadows[at.value].(location := c.target)];
      }
      sh := sh.(matched := sh.matched + 1, transitions := sh.transitions + 1);
      if ok {
        sh := sh.(matches := sh.matches + 1);
      } else {
        sh := sh.(mismatches := sh.mismatches + 1);
      }
      RefreshShadowCounts();
    }

    method ApplyMatchedCommand(e: Event, i: nat, k: Tensor?, v: Tensor?)
      requires Valid() && i < |cfg.commands| && LayerTensors(cfg.SiteOf(e.layer), k, v)
      requires TensorsShaped(cfg.SiteOf(e.layer), Tensors(Content(k), Content(v)))
      modifies this`shadows, this`sh, this`staging, this`ex, this`mu
      modifies if k == null then {} else {k.data}, if v == null then {} else {v.data}
      ensures Valid()
      ensures Stepped(Now(), Tensors(Content(k), Content(v)))
        == ApplyCommand(cfg, e, old(Stepped(Now(), Tensors(Content(k), Content(v)))), i)
    {
      hide Transition, ExecuteIntent, Mutate, Find;
      var c := cfg.commands[i];
      ShadowTransition(e.ShadowKey(), c);
      ExecuteMovementIntent(c, e.IoAt(i));
      var at := FindStagingRecord(c.BufferKey());
      if at.Some? {
        MutationGate(at.value, cfg.SiteOf(e.layer), k, v);
      }
    }

    /** One runtime event on one layer: `kv_command_bridge_apply`. */
    method BridgeApply(e: Event, k: Tensor?, v: Tensor?)
      requires Valid() && LayerTensors(cfg.SiteOf(e.layer), k, v)
      requires TensorsShaped(cfg.SiteOf(e.layer), Tensors(Content(k), Content(v)))
      modifies this`shadows, this`sh, this`staging, this`ex, this`mu
      modifies if k == null then {} else {k.data}, if v == null then {} else {v.data}
      ensures Valid()
      ensures Stepped(Now(), Tensors(Content(k), Content(v)))
        == ApplyEvent(cfg, e, old(Stepped(Now(), Tensors(Content(k), Content(v)))))
    {
      hide ApplyCommands, SetShadow, Sized, TensorsShaped, Matches;
      sh := sh.(events := sh.events + 1);
      var first := FirstMatchingRecord(e);
      if first.Some? {
        ResetShadowRecord(e.ShadowKey(), cfg.commands[first.value].source);
      }
      var matches := ApplyMatchedCommands(e, k, v);
      if matches == 0 {
        sh := sh.(unmatched := sh.unmatched + 1);
      }
    }

    /** The command loop of one event; returns the number of matched records. */
    method ApplyMatchedCommands(e: Event, k: Tensor?, v: Tensor?) returns (matches: nat)
      requires Valid() && LayerTensors(cfg.SiteOf(e.layer), k, v)
      requires TensorsShaped(cfg.SiteOf(e.layer), Tensors(Content(k), Content(v)))
      modifies this`shadows, this`sh, this`staging, this`ex, this`mu
      modifies if k == null then {} else {k.data}, if v == null then {} else {v.data}
      ensures Valid()
      ensures Stepped(Now(), Tensors(Content(k), Content(v)))
        == ApplyCommands(cfg, e, old(Stepped(Now(), Tensors(Content(k), Content(v)))), |cfg.commands|)
      ensures matches == 0 <==> FirstMatch(cfg.commands, e).None?
    {
      hide ApplyCommand, Matches;
      ghost var start := Stepped(Now(), Tensors(Content(k), Content(v)));
      var i := 0;
      matches := 0;
      while i < |cfg.commands|
        invariant 0 <= i <= |cfg.commands| && Valid()
        invariant TensorsShaped(cfg.SiteOf(e.layer), Tensors(Content(k), Content(v)))
        invariant Stepped(Now(), Tensors(Content(k), Content(v))) == ApplyCommands(cfg, e, start, i)
        invariant matches == 0 <==> forall j :: 0 <= j < i ==> !Matches(cfg.commands[j], e)
      {
        if Matches(cfg.commands[i], e) {
          ApplyMatchedCommand(e, i, k, v);
          matches := matches + 1;
        }
        i := i + 1;
      }
    }

    // ---------- attention gate ----------

    method CommandKeySeen(upto: nat, c: Command, layer: int, nKv: nat) returns (seen: bool)
      requires upto <= |cfg.commands|
      ensures seen == KeySeen(cfg.commands, upto, c, layer, nKv)
    {
      var i := 0;
      while i < upto
        invariant 0 <= i <= upto
        invariant forall j :: 0 <= j < i ==> !(OverlapsView(cfg.commands[j], layer, nKv) && cfg.commands[j].BufferKey() == c.BufferKey())
      {
        if OverlapsView(cfg.commands[i], layer, nKv) && cfg.commands[i].BufferKey() == c.BufferKey() {
          return true;
        }
        i := i + 1;
      }
      return false;
    }

    method AttentionResidencyGate(view: View, layer: int, nKv: nat) returns (r: Readiness)
      modifies this`ga
      ensures r == Gate(cfg, staging, layer, nKv, |cfg.commands|)
      ensures ga.required == old(ga.required) + r.required && ga.ready == old(ga.ready) + r.ready
      ensures ga.missing == old(ga.missing) + r.missing && ga.pending == old(ga.pending) + r.pending
      ensures ga.views == old(ga.views) + 1
      ensures ga.noRequired == old(ga.noRequired) + if r.required == 0 then 1 else 0
      ensures ga.kViews == old(ga.kViews) + (if view.KeyView? then 1 else 0)
      ensures ga.vViews == old(ga.vViews) + (if view.ValueView? then 1 else 0)
    {
      ga := ga.(views := ga.views + 1);
      if view.KeyView? {
        ga := ga.(kViews := ga.kViews + 1);
      } else {
        ga := ga.(vViews := ga.vViews + 1);
      }
      r := Readiness(0, 0, 0, 0);
      ghost var counted := ga;
      var i := 0;
      while i < |cfg.commands|
        invariant 0 <= i <= |cfg.commands| && ga == counted
        invariant r == Gate(cfg, staging, layer, nKv, i)
      {
        var c := cfg.commands[i];
        if OverlapsView(c, layer, nKv) {
          var seen := CommandKeySeen(i, c, layer, nKv);
          if !seen {
            r := r.(required := r.required + 1);
            var at := FindStagingRecord(c.BufferKey());
            if at.None? || staging[at.value].vram.None? {
              r := r.(missing := r.missing + 1);
            } else if !staging[at.value].mutated {
              r := r.(pending := r.pending + 1);
            } else {
              r := r.(ready := r.ready + 1);
            }
          }
        }
        i := i + 1;
      }
      if r.required == 0 {
        ga := ga.(noRequired := ga.noRequired + 1);
      }
      ga := ga.(required := ga.required + r.required, ready := ga.ready + r.ready,
                missing := ga.missing + r.missing, pending := ga.pending + r.pending);
    }
  }
}
