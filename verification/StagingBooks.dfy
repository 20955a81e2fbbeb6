/** The staging table as a set of books: over every step of the executor, with failures, reloads and evictions
    anywhere, each record belongs to a loaded command, its buffers hold only that command's backing bytes, and
    its flag and identity are kept.
 */
module StagingBooks {
  import opened Kv
  import opened ByteCopies
  import opened TensorLayout
  import opened BridgeModel

  /** Commands that share a buffer key describe the same range of the backing file. */
  ghost predicate Coherent(cs: seq<Command>) {
    forall i, j :: 0 <= i < |cs| && 0 <= j < |cs| && cs[i].BufferKey() == cs[j].BufferKey()
      ==> cs[i].size == cs[j].size && cs[i].offset == cs[j].offset
  }

  function CellsOf(key: Key): Rows {
    Rows(NatOf(key.block), NatOf(key.end - key.start), 0, 0)
  }

  /** Distinct blocks of a layer occupy disjoint cells of the cache. */
  ghost predicate CellsApart(cs: seq<Command>) {
    forall i, j :: 0 <= i < |cs| && 0 <= j < |cs| && cs[i].layer == cs[j].layer && cs[i].BufferKey() != cs[j].BufferKey()
      ==> CellsDisjoint(CellsOf(cs[i].BufferKey()), CellsOf(cs[j].BufferKey()))
  }

  predicate InFile(cfg: Config, c: Command) {
    0 <= c.offset && 0 <= c.size && c.offset + c.size <= |cfg.backing|
  }

  /** The bytes of the command's block in the backing file. */
  function Image(cfg: Config, c: Command): (r: seq<Byte>)
    requires InFile(cfg, c)
    ensures |r| == c.size
  {
    Slice(cfg.backing, c.offset, c.size)
  }

  predicate IsImage(cfg: Config, c: Command, buffer: Option<seq<Byte>>) {
    buffer.Some? ==> InFile(cfg, c) && buffer.value == Image(cfg, c)
  }

  /** The record agrees with a command that has its key: once its rows are resolved they are the command's,
      and its buffers hold the command's backing bytes. */
  predicate BackedBy(cfg: Config, r: Staging, c: Command) {
    && r.size == c.size && (r.ranged ==> InFile(cfg, c))
    && IsImage(cfg, c, r.dram) && IsImage(cfg, c, r.vram)
  }

  /** The record belongs to a loaded command, and agrees with every command that has its key. */
  ghost predicate Backed(cfg: Config, r: Staging) {
    && (exists i :: 0 <= i < |cfg.commands| && cfg.commands[i].BufferKey() == r.key)
    && (forall i :: 0 <= i < |cfg.commands| && cfg.commands[i].BufferKey() == r.key ==> BackedBy(cfg, r, cfg.commands[i]))
    && (r.dram.Some? || r.vram.Some? || r.mutated ==> r.ranged)
    && (r.ranged ==> RowsOf(r) == RowsFor(r.key, r.size))
  }

  ghost predicate Books(cfg: Config, staging: seq<Staging>) {
    && |staging| <= MAX_STAGING_BLOCKS
    && (forall i, j :: 0 <= i < j < |staging| ==> staging[i].key != staging[j].key)
    && (forall i :: 0 <= i < |staging| ==> Backed(cfg, staging[i]))
  }

  predicate SameRecord(a: Staging, b: Staging) {
    a.key == b.key && a.size == b.size && a.mutated == b.mutated
  }

  /** The executor keeps every record's identity and flag, and creates only unmarked ones. */
  ghost predicate Evolves(a: seq<Staging>, b: seq<Staging>) {
    && |a| <= |b|
    && (forall j :: 0 <= j < |a| ==> SameRecord(a[j], b[j]))
    && (forall j :: |a| <= j < |b| ==> !b[j].mutated)
  }

  // ---------- the executor only ever holds backing bytes ----------

  lemma FindOrCreateKeeps(cfg: Config, s: Executor, i: nat)
    requires i < |cfg.commands| && Coherent(cfg.commands) && Sized(s.staging) && Books(cfg, s.staging)
    ensures var r := FindOrCreate(s, cfg.commands[i]);
      Books(cfg, r.exec.staging) && Evolves(s.staging, r.exec.staging)
  {
    var key := cfg.commands[i].BufferKey();
    if Find(s.staging, key).None? && |s.staging| < MAX_STAGING_BLOCKS {
      BlankIsBacked(cfg, i);
      AppendKeeps(cfg, s.staging, Staging(key, cfg.commands[i].size, None, None, false, false, 0, 0));
    }
    hide Books, Backed, Find, Coherent;
  }

  lemma BlankIsBacked(cfg: Config, i: nat)
    requires i < |cfg.commands| && Coherent(cfg.commands)
    ensures Backed(cfg, Staging(cfg.commands[i].BufferKey(), cfg.commands[i].size, None, None, false, false, 0, 0))
  {
  }

  lemma AppendKeeps(cfg: Config, staging: seq<Staging>, r: Staging)
    requires Books(cfg, staging) && Backed(cfg, r) && !r.mutated && |staging| < MAX_STAGING_BLOCKS
    requires forall j :: 0 <= j < |staging| ==> staging[j].key != r.key
    ensures Books(cfg, staging + [r]) && Evolves(staging, staging + [r])
  {
    hide Backed;
  }

  lemma PlaceKeeps(cfg: Config, staging: seq<Staging>, at: nat, r: Staging)
    requires at < |staging| && Books(cfg, staging) && Backed(cfg, r) && SameRecord(staging[at], r)
    ensures Books(cfg, staging[at := r]) && Evolves(staging, staging[at := r])
  {
    var after := staging[at := r];
    forall i, j | 0 <= i < j < |after| ensures after[i].key != after[j].key {
      assert staging[i].key != staging[j].key;
    }
  }

  /** A record whose buffers hold the block's image, with its rows resolved. */
  lemma FilledIsBacked(cfg: Config, r: Staging, i: nat, dram: Option<seq<Byte>>, vram: Option<seq<Byte>>)
    requires Coherent(cfg.commands) && i < |cfg.commands| && cfg.commands[i].BufferKey() == r.key && Backed(cfg, r)
    requires IsImage(cfg, cfg.commands[i], dram) && IsImage(cfg, cfg.commands[i], vram) && (dram.Some? || vram.Some?)
    ensures var filled := VerifyByteRanges(r.(dram := dram, vram := vram)); Backed(cfg, filled) && SameRecord(r, filled)
  {
    assert BackedBy(cfg, r, cfg.commands[i]);
    hide InferRow;
  }

  lemma AssignDramKeeps(cfg: Config, s: Executor, i: nat, buffer: seq<Byte>)
    requires i < |cfg.commands| && Coherent(cfg.commands) && Sized(s.staging) && Books(cfg, s.staging)
    requires |buffer| == cfg.commands[i].size && IsImage(cfg, cfg.commands[i], Some(buffer))
    ensures var a := AssignDram(s, cfg.commands[i], buffer);
      Books(cfg, a.exec.staging) && Evolves(s.staging, a.exec.staging)
  {
    FindOrCreateKeeps(cfg, s, i);
    var slot := FindOrCreate(s, cfg.commands[i]);
    if slot.at.Some? {
      var st, at := slot.exec.staging, slot.at.value;
      FilledIsBacked(cfg, st[at], i, Some(buffer), st[at].vram);
      PlaceKeeps(cfg, st, at, VerifyByteRanges(st[at].(dram := Some(buffer))));
    }
    hide Books, Backed, FindOrCreate, Coherent, VerifyByteRanges, RecordSized;
  }

  lemma AssignVramKeeps(cfg: Config, s: Executor, i: nat, buffer: seq<Byte>)
    requires i < |cfg.commands| && Coherent(cfg.commands) && Sized(s.staging) && Books(cfg, s.staging)
    requires |buffer| == cfg.commands[i].size && IsImage(cfg, cfg.commands[i], Some(buffer))
    ensures var a := AssignVram(s, cfg.commands[i], buffer);
      Books(cfg, a.exec.staging) && Evolves(s.staging, a.exec.staging)
  {
    FindOrCreateKeeps(cfg, s, i);
    var slot := FindOrCreate(s, cfg.commands[i]);
    if slot.at.Some? {
      var st, at := slot.exec.staging, slot.at.value;
      FilledIsBacked(cfg, st[at], i, st[at].dram, Some(buffer));
      PlaceKeeps(cfg, st, at, VerifyByteRanges(st[at].(vram := Some(buffer))));
    }
    hide Books, Backed, FindOrCreate, Coherent, VerifyByteRanges, RecordSized;
  }

  /** What is read from the backing file is the block's image. */
  lemma ReadIsImage(cfg: Config, c: Command, io: Io, counted: bool, ex: ExecStats)
    ensures IsImage(cfg, c, ReadBacking(cfg, c, io, counted, ex).buffer)
  {
  }

  lemma EnsureDramKeeps(cfg: Config, s: Executor, i: nat, io: Io)
    requires i < |cfg.commands| && Coherent(cfg.commands) && Sized(s.staging) && Books(cfg, s.staging)
    ensures var r := EnsureDram(cfg, s, cfg.commands[i], io);
      Books(cfg, r.exec.staging) && Evolves(s.staging, r.exec.staging) &&
      (r.at.Some? ==> r.exec.staging[r.at.value].key == cfg.commands[i].BufferKey())
  {
    var c := cfg.commands[i];
    var loaded := ReadBacking(cfg, c, io, false, s.ex);
    ReadIsImage(cfg, c, io, false, s.ex);
    if loaded.buffer.Some? {
      AssignDramKeeps(cfg, s.(ex := loaded.ex), i, loaded.buffer.value);
    }
    hide ReadBacking, AssignDram, Books, Coherent, IsImage;
  }

  lemma EnsureVramKeeps(cfg: Config, s: Executor, i: nat, io: Io)
    requires i < |cfg.commands| && Coherent(cfg.commands) && Sized(s.staging) && Books(cfg, s.staging)
    ensures var r := EnsureVram(cfg, s, cfg.commands[i], io);
      Books(cfg, r.exec.staging) && Evolves(s.staging, r.exec.staging)
  {
    var c := cfg.commands[i];
    var loaded := ReadBacking(cfg, c, io, false, s.ex);
    ReadIsImage(cfg, c, io, false, s.ex);
    if loaded.buffer.Some? {
      AssignVramKeeps(cfg, s.(ex := loaded.ex), i, loaded.buffer.value);
    }
    hide ReadBacking, AssignVram, Books, Coherent, IsImage;
  }

  lemma SsdReadKeeps(cfg: Config, s: Executor, i: nat, io: Io)
    requires i < |cfg.commands| && Coherent(cfg.commands) && Sized(s.staging) && Books(cfg, s.staging)
    ensures var r := ExecuteSsdRead(cfg, s, cfg.commands[i], io); Books(cfg, r.staging) && Evolves(s.staging, r.staging)
  {
    hide ReadBacking, AssignDram, Books, Coherent, IsImage;
    var c, counted := cfg.commands[i], s.ex.(readAttempts := s.ex.readAttempts + 1);
    var loaded := ReadBacking(cfg, c, io, true, counted);
    ReadIsImage(cfg, c, io, true, counted);
    SameEvolves(s.staging);
    if loaded.buffer.Some? {
      AssignDramKeeps(cfg, s.(ex := loaded.ex), i, loaded.buffer.value);
    }
    hide Evolves, Sized;
  }

  lemma SameEvolves(staging: seq<Staging>)
    ensures Evolves(staging, staging)
  {
  }

  lemma DramToVramKeeps(cfg: Config, s: Executor, i: nat, io: Io)
    requires i < |cfg.commands| && Coherent(cfg.commands) && Sized(s.staging) && Books(cfg, s.staging)
    ensures var r := ExecuteDramToVram(cfg, s, cfg.commands[i], io); Books(cfg, r.staging) && Evolves(s.staging, r.staging)
  {
    var c := cfg.commands[i];
    EnsureDramKeeps(cfg, s, i, io);
    var slot := EnsureDram(cfg, s, c, io);
    if slot.at.Some? && slot.exec.staging[slot.at.value].dram.Some? {
      var r := slot.exec.staging[slot.at.value];
      assert BackedBy(cfg, r, c) && RecordSized(r);
      if r.size == c.size && io.copyAllocOk {
        AssignVramKeeps(cfg, slot.exec, i, r.dram.value);
        EvolvesChain(s.staging, slot.exec.staging, AssignVram(slot.exec, c, r.dram.value).exec.staging);
      }
    }
    hide EnsureDram, AssignVram, Books, Backed, BackedBy, Coherent, Evolves;
  }

  lemma EvolvesChain(a: seq<Staging>, b: seq<Staging>, c: seq<Staging>)
    requires Evolves(a, b) && Evolves(b, c)
    ensures Evolves(a, c)
  {
  }

  lemma EvictKeeps(cfg: Config, s: Executor, i: nat)
    requires i < |cfg.commands| && Sized(s.staging) && Books(cfg, s.staging)
    ensures var r := ExecuteEvict(s, cfg.commands[i]); Books(cfg, r.staging) && Evolves(s.staging, r.staging)
  {
    var at := Find(s.staging, cfg.commands[i].BufferKey());
    if at.Some? {
      var r := s.staging[at.value];
      assert Backed(cfg, r);
      PlaceKeeps(cfg, s.staging, at.value, r.(vram := None));
      PlaceKeeps(cfg, s.staging, at.value, r.(dram := None));
    }
  }

  lemma IntentKeeps(cfg: Config, s: Executor, i: nat, io: Io)
    requires i < |cfg.commands| && Coherent(cfg.commands) && Sized(s.staging) && Books(cfg, s.staging)
    ensures var r := ExecuteIntent(cfg, s, cfg.commands[i], io); Books(cfg, r.staging) && Evolves(s.staging, r.staging)
  {
    var c := cfg.commands[i];
    match IntentOf(c)
    case SsdRead => SsdReadKeeps(cfg, s, i, io);
    case DramToVram => DramToVramKeeps(cfg, s, i, io);
    case ComputeResident => EnsureVramKeeps(cfg, s, i, io);
    case SsdWrite => EvictKeeps(cfg, s, i);
    case Metadata =>
  }

  // ---------- the marked records ----------

  ghost function MarkedKeys(staging: seq<Staging>): set<Key> {
    set j | 0 <= j < |staging| && staging[j].mutated :: staging[j].key
  }

  lemma {:induction false} EvolvesKeepsMarks(a: seq<Staging>, b: seq<Staging>)
    requires Evolves(a, b)
    ensures MarkedKeys(a) == MarkedKeys(b)
  {
    forall k | k in MarkedKeys(a) ensures k in MarkedKeys(b) {
      var j :| 0 <= j < |a| && a[j].mutated && a[j].key == k;
      assert SameRecord(a[j], b[j]);
    }
    forall k | k in MarkedKeys(b) ensures k in MarkedKeys(a) {
      var j :| 0 <= j < |b| && b[j].mutated && b[j].key == k;
      assert j < |a| && SameRecord(a[j], b[j]);
    }
  }

  lemma {:induction false} MarkAdds(staging: seq<Staging>, i: nat)
    requires i < |staging|
    ensures MarkedKeys(staging[i := staging[i].(mutated := true)]) == MarkedKeys(staging) + {staging[i].key}
  {
    var after := staging[i := staging[i].(mutated := true)];
    forall k | k in MarkedKeys(staging) ensures k in MarkedKeys(after) {
      var j :| 0 <= j < |staging| && staging[j].mutated && staging[j].key == k;
      assert after[j].mutated && after[j].key == k;
    }
    assert after[i].mutated;
  }

  lemma MarkKeeps(cfg: Config, staging: seq<Staging>, i: nat)
    requires i < |staging| && Books(cfg, staging) && staging[i].ranged
    ensures Books(cfg, staging[i := staging[i].(mutated := true)])
  {
    var after := staging[i := staging[i].(mutated := true)];
    assert Backed(cfg, staging[i]);
    forall a, b | 0 <= a < b < |after| ensures after[a].key != after[b].key {
      assert staging[a].key != staging[b].key;
    }
  }
}
