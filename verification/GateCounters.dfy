/** The counters of the mutation gate as counts of the marked records. They are 32-bit counters, so a refusal
    count of zero says that nothing was refused only while the count cannot have wrapped.
 */
module GateCounters {
  import opened Kv
  import opened TensorLayout
  import opened TensorGate
  import opened BridgeModel
  import opened StagingBooks
  import Fnv

  /** How often the gate acted and what it decided, without wrapping: `past` counts the ranges past the cache,
      `rows` the K rows copied, `rowBytes` their bytes, and `checksum` is the xor of the
      blocks' checksums. */
  datatype Counts = Counts(
    attempts: nat, copied: nat, unsupported: nat, mismatched: nat, past: nat, rows: nat, rowBytes: nat, checksum: bv64)
  {
    function Plus(n: Counts): Counts {
      Counts(attempts + n.attempts, copied + n.copied, unsupported + n.unsupported, mismatched + n.mismatched, past + n.past,
             rows + n.rows, rowBytes + n.rowBytes, Fnv.Xor(checksum, n.checksum))
    }
  }

  /** The bytes that the backing file holds for a block. */
  ghost function FileBlock(cfg: Config, key: Key): seq<Byte> {
    if exists i :: 0 <= i < |cfg.commands| && cfg.commands[i].BufferKey() == key && InFile(cfg, cfg.commands[i]) then
      var i :| 0 <= i < |cfg.commands| && cfg.commands[i].BufferKey() == key && InFile(cfg, cfg.commands[i]);
      Image(cfg, cfg.commands[i])
    else []
  }

  lemma {:induction false} FileBlockIs(cfg: Config, c: Command)
    requires Coherent(cfg.commands) && c in cfg.commands && InFile(cfg, c)
    ensures FileBlock(cfg, c.BufferKey()) == Image(cfg, c)
  {
  }

  ghost function FileChecksum(cfg: Config, key: Key, size: int): bv64 {
    var image, g := FileBlock(cfg, key), RowsFor(key, size);
    if g.Size() <= |image| then BlockHash(image, g) else 0
  }

  ghost function CountsFor(cfg: Config, key: Key, size: int): Counts {
    match VerdictFor(cfg, key, size)
    case Copied => Counts(1, 1, 0, 0, 0, NatOf(key.end - key.start), NatOf(size) / 2, FileChecksum(cfg, key, size))
    case Unsupported => Counts(1, 0, 1, 0, 0, 0, 0, 0)
    case SizeMismatch => Counts(1, 0, 0, 1, 0, 0, 0, 0)
    case BoundsError(_) => Counts(1, 0, 0, 0, 2 * CellsPast(NatOf(key.block), NatOf(key.end - key.start), cfg.cache), 0, 0, 0)
  }

  /** The marked records of the table, counted by what the gate decides about them. */
  ghost function Tally(cfg: Config, staging: seq<Staging>): Counts {
    if staging == [] then Counts(0, 0, 0, 0, 0, 0, 0, 0)
    else
      var last := staging[|staging| - 1];
      var front := Tally(cfg, staging[..|staging| - 1]);
      if last.mutated then front.Plus(CountsFor(cfg, last.key, last.size)) else front
  }

  /** The 32-bit and 64-bit counters hold these counts: a block that is copied adds one K and one V range per
      token, the bytes of both, and four checksums. */
  ghost predicate Counted(n: Counts, mu: MutationStats) {
    && mu.ranges == Wrap32(2 * n.rows) && mu.checksums == Wrap32(4 * n.copied)
    && mu.keyBytes == mu.valueBytes == Wrap64(n.rowBytes) && mu.bytes == Wrap64(2 * n.rowBytes)
    && mu.attempts == Wrap32(n.attempts) && mu.blocks == Wrap32(n.copied)
    && mu.unsupported == Wrap32(n.unsupported) && mu.sizeMismatches == Wrap32(n.mismatched) && mu.boundsErrors == Wrap32(n.past)
    && mu.verifyErrors == 0 && mu.stagingXor == mu.postXor == n.checksum
  }

  lemma {:induction false} TallyEvolves(cfg: Config, a: seq<Staging>, b: seq<Staging>)
    requires Evolves(a, b)
    ensures Tally(cfg, a) == Tally(cfg, b)
  {
    hide CountsFor;
    if b == [] {
    } else if |a| == |b| {
      assert SameRecord(a[|a| - 1], b[|b| - 1]);
      TallyEvolves(cfg, a[..|a| - 1], b[..|b| - 1]);
    } else {
      TallyEvolves(cfg, a, b[..|b| - 1]);
    }
  }

  lemma {:induction false} XorSwap(a: bv64, b: bv64, c: bv64)
    ensures Fnv.Xor(Fnv.Xor(a, b), c) == Fnv.Xor(Fnv.Xor(a, c), b)
    ensures Fnv.Xor(a, 0) == a
  {
  }

  lemma {:induction false} PlusSwap(a: Counts, b: Counts, c: Counts)
    ensures a.Plus(b).Plus(c) == a.Plus(c).Plus(b)
  {
    XorSwap(a.checksum, b.checksum, c.checksum);
    hide Fnv.Xor;
  }

  lemma {:induction false} TallyMark(cfg: Config, staging: seq<Staging>, i: nat)
    requires i < |staging| && !staging[i].mutated
    ensures Tally(cfg, staging[i := staging[i].(mutated := true)]) == Tally(cfg, staging).Plus(CountsFor(cfg, staging[i].key, staging[i].size))
  {
    hide CountsFor, Counts.Plus;
    var n := |staging| - 1;
    var after := staging[i := staging[i].(mutated := true)];
    PlusSwap(Tally(cfg, staging[..n]), CountsFor(cfg, staging[i].key, staging[i].size), CountsFor(cfg, staging[n].key, staging[n].size));
    if i == n {
      assert after[..n] == staging[..n];
    } else {
      TallyMark(cfg, staging[..n], i);
      assert after[..n] == staging[..n][i := staging[i].(mutated := true)];
    }
  }

  predicate IsRefusal(v: Verdict) {
    !v.Copied?
  }

  predicate IsUnsupported(v: Verdict) {
    v.Unsupported?
  }

  predicate IsMismatch(v: Verdict) {
    v.SizeMismatch?
  }

  predicate IsPast(v: Verdict) {
    v.BoundsError?
  }

  lemma {:induction false} CountsMean(cfg: Config, key: Key, size: int)
    ensures var n, v := CountsFor(cfg, key, size), VerdictFor(cfg, key, size);
      && n.attempts == 1 && n.copied + n.unsupported + n.mismatched <= 1
      && (n.copied == 1 <==> !IsRefusal(v)) && (n.unsupported == 0 <==> !IsUnsupported(v))
      && (n.mismatched == 0 <==> !IsMismatch(v)) && (n.past == 0 <==> !IsPast(v))
  {
    hide InferRow;
  }

  lemma {:induction false} NoneRefusedEmpty(cfg: Config)
    ensures forall bad :: NoneRefused(cfg, [], bad)
  {
  }

  /** What the tally says about the marked records. */
  lemma {:induction false} TallyMeans(cfg: Config, staging: seq<Staging>)
    ensures var n := Tally(cfg, staging);
      && n.copied + n.unsupported + n.mismatched <= n.attempts <= |staging|
      && (n.copied == n.attempts <==> NoneRefused(cfg, staging, IsRefusal))
      && (n.unsupported == 0 <==> NoneRefused(cfg, staging, IsUnsupported))
      && (n.mismatched == 0 <==> NoneRefused(cfg, staging, IsMismatch))
      && (n.past == 0 <==> NoneRefused(cfg, staging, IsPast))
  {
    hide NoneRefused, VerdictFor;
    if staging == [] {
      NoneRefusedEmpty(cfg);
    } else {
      var front, last := staging[..|staging| - 1], staging[|staging| - 1];
      hide CountsFor, IsRefusal, IsUnsupported, IsMismatch, IsPast;
      TallyMeans(cfg, front);
      CountsMean(cfg, last.key, last.size);
      NoneRefusedStep(cfg, staging, IsRefusal);
      NoneRefusedStep(cfg, staging, IsUnsupported);
      NoneRefusedStep(cfg, staging, IsMismatch);
      NoneRefusedStep(cfg, staging, IsPast);
    }
  }

  /** No marked record has such a verdict. */
  ghost predicate NoneRefused(cfg: Config, staging: seq<Staging>, bad: Verdict -> bool) {
    forall j :: 0 <= j < |staging| && staging[j].mutated ==> !bad(VerdictFor(cfg, staging[j].key, staging[j].size))
  }

  lemma {:induction false} NoneRefusedStep(cfg: Config, staging: seq<Staging>, bad: Verdict -> bool)
    requires staging != []
    ensures var front, last := staging[..|staging| - 1], staging[|staging| - 1];
      NoneRefused(cfg, staging, bad) <==> NoneRefused(cfg, front, bad) && (last.mutated ==> !bad(VerdictFor(cfg, last.key, last.size)))
  {
    hide VerdictFor;
    var front := staging[..|staging| - 1];
    assert forall j :: 0 <= j < |front| ==> front[j] == staging[j];
  }

  // ---------- what one action adds ----------

  lemma {:induction false} RemainderIs(x: int, q: int, r: nat)
    requires x == q * UINT32_SPAN + r && r < UINT32_SPAN
    ensures x % UINT32_SPAN == r
  {
  }

  /** Wrapping after each addition is wrapping once. */
  lemma {:induction false} WrapAdds(n: nat, more: nat)
    ensures Wrap32(Wrap32(n) + more) == Wrap32(n + more)
  {
    var sum := n % UINT32_SPAN + more;
    RemainderIs(n + more, n / UINT32_SPAN + sum / UINT32_SPAN, sum % UINT32_SPAN);
  }

  lemma {:induction false} WrapDoubles(n: nat, past: nat)
    ensures Wrap32(n + past % UINT32_SPAN * 2 % UINT32_SPAN) == Wrap32(n + 2 * past)
  {
    var twice := past % UINT32_SPAN * 2;
    var sum := n + twice % UINT32_SPAN;
    RemainderIs(n + 2 * past, 2 * (past / UINT32_SPAN) + twice / UINT32_SPAN + sum / UINT32_SPAN, sum % UINT32_SPAN);
  }

  /** The counters after the gate has refused a block. */
  lemma {:induction false} CountRefusedStep(cfg: Config, key: Key, size: int, n: Counts, mu: MutationStats)
    requires Counted(n, mu) && !VerdictFor(cfg, key, size).Copied?
    ensures Counted(n.Plus(CountsFor(cfg, key, size)), CountRefused(mu.(attempts := Wrap32(mu.attempts + 1)), VerdictFor(cfg, key, size)))
  {
    var past := CellsPast(NatOf(key.block), NatOf(key.end - key.start), cfg.cache);
    PastVerdict(cfg, key, size);
    WrapAdds(n.attempts, 1);
    WrapAdds(n.unsupported, 1);
    WrapAdds(n.mismatched, 1);
    WrapAdds(n.past, past % UINT32_SPAN * 2 % UINT32_SPAN);
    WrapDoubles(n.past, past);
    XorSwap(n.checksum, 0, 0);
    hide VerdictFor, CellsPast, Wrap32, Fnv.Xor, FileChecksum;
  }

  lemma {:induction false} PastVerdict(cfg: Config, key: Key, size: int)
    ensures var v := VerdictFor(cfg, key, size);
      v.BoundsError? ==> v.errors == CellsPast(NatOf(key.block), NatOf(key.end - key.start), cfg.cache) % UINT32_SPAN * 2 % UINT32_SPAN
  {
    hide InferRow;
  }

  lemma {:induction false} Remainder64(x: int, q: int, r: nat)
    requires x == q * UINT64_SPAN + r && r < UINT64_SPAN
    ensures x % UINT64_SPAN == r
  {
  }

  lemma {:induction false} WrapAdds64(n: nat, more: nat)
    ensures Wrap64(Wrap64(n) + more) == Wrap64(n + more)
  {
    var sum := n % UINT64_SPAN + more;
    Remainder64(n + more, n / UINT64_SPAN + sum / UINT64_SPAN, sum % UINT64_SPAN);
  }

  lemma {:induction false} Half(n: nat, m: nat)
    requires n == 2 * m
    ensures n / 2 == m
  {
  }

  /** The rows of an accepted block are the two halves of its bytes. */
  lemma {:induction false} CopiedHalves(cfg: Config, key: Key, size: int)
    requires VerdictFor(cfg, key, size).Copied?
    ensures var g := RowsFor(key, size);
      && size == 2 * (NatOf(size) / 2) && g.tokens == NatOf(key.end - key.start)
      && g.tokens * g.keyRow == g.tokens * g.valueRow == NatOf(size) / 2
  {
    var g := RowsFor(key, size);
    hide InferRow;
    assert g.Size() == g.tokens * g.keyRow + g.tokens * g.keyRow == size;
    Half(size, g.tokens * g.keyRow);
  }

  lemma {:induction false} CountCopiedStep(cfg: Config, key: Key, size: int, n: Counts, mu: MutationStats, g: Rows, hash: bv64)
    requires Counted(n, mu) && VerdictFor(cfg, key, size).Copied? && g == RowsFor(key, size) && hash == FileChecksum(cfg, key, size)
    ensures Counted(n.Plus(CountsFor(cfg, key, size)), CountCopied(mu.(attempts := Wrap32(mu.attempts + 1)), g, size, hash, hash))
  {
    CopiedHalves(cfg, key, size);
    var half := NatOf(size) / 2;
    hide VerdictFor, RowsFor, FileChecksum, Fnv.Xor, Wrap32, Wrap64;
    WrapAdds(n.attempts, 1);
    WrapAdds(n.copied, 1);
    WrapAdds(2 * n.rows, g.tokens * 2);
    WrapAdds(4 * n.copied, 4);
    WrapAdds64(n.rowBytes, half);
    WrapAdds64(2 * n.rowBytes, size);
  }

  ghost predicate DistinctRecords(staging: seq<Staging>) {
    forall i, j :: 0 <= i < j < |staging| ==> staging[i].key != staging[j].key
  }

  lemma {:induction false} MarkedSnoc(staging: seq<Staging>)
    requires staging != [] && DistinctRecords(staging)
    ensures var front, last := staging[..|staging| - 1], staging[|staging| - 1];
      DistinctRecords(front) && last.key !in MarkedKeys(front)
    ensures var front, last := staging[..|staging| - 1], staging[|staging| - 1];
      MarkedKeys(staging) == MarkedKeys(front) + if last.mutated then {last.key} else {}
  {
    var front := staging[..|staging| - 1];
    forall k | k in MarkedKeys(front) ensures k in MarkedKeys(staging) {
      var j :| 0 <= j < |front| && front[j].mutated && front[j].key == k;
      assert staging[j] == front[j];
    }
  }

  /** Every marked block is one attempt. */
  lemma {:induction false} TallyAttempts(cfg: Config, staging: seq<Staging>)
    requires DistinctRecords(staging)
    ensures Tally(cfg, staging).attempts == |MarkedKeys(staging)|
  {
    hide VerdictFor, DistinctRecords;
    if staging == [] {
    } else {
      hide MarkedKeys;
      MarkedSnoc(staging);
      TallyAttempts(cfg, staging[..|staging| - 1]);
    }
  }

  // ---------- what the counters tell ----------

  /** No marked block gets such a verdict. */
  ghost predicate NoneMarked(cfg: Config, marked: set<Key>, bad: Verdict -> bool) {
    forall i :: 0 <= i < |cfg.commands| && cfg.commands[i].BufferKey() in marked
      ==> !bad(VerdictFor(cfg, cfg.commands[i].BufferKey(), cfg.commands[i].size))
  }

  lemma {:induction false} RecordsAndCommands(cfg: Config, staging: seq<Staging>, bad: Verdict -> bool)
    requires Books(cfg, staging)
    ensures NoneRefused(cfg, staging, bad) <==> NoneMarked(cfg, MarkedKeys(staging), bad)
  {
    hide VerdictFor;
    if NoneRefused(cfg, staging, bad) {
      forall i | 0 <= i < |cfg.commands| && cfg.commands[i].BufferKey() in MarkedKeys(staging)
        ensures !bad(VerdictFor(cfg, cfg.commands[i].BufferKey(), cfg.commands[i].size))
      {
        var j :| 0 <= j < |staging| && staging[j].mutated && staging[j].key == cfg.commands[i].BufferKey();
        assert Backed(cfg, staging[j]);
      }
    }
    if NoneMarked(cfg, MarkedKeys(staging), bad) {
      forall j | 0 <= j < |staging| && staging[j].mutated ensures !bad(VerdictFor(cfg, staging[j].key, staging[j].size)) {
        assert Backed(cfg, staging[j]) && staging[j].key in MarkedKeys(staging);
        var i :| 0 <= i < |cfg.commands| && cfg.commands[i].BufferKey() == staging[j].key;
        assert BackedBy(cfg, staging[j], cfg.commands[i]);
      }
    }
  }

  /** The ranges past the cache in all marked blocks, without wrapping. */
  ghost function RangesPast(cfg: Config, staging: seq<Staging>): nat {
    Tally(cfg, staging).past
  }

  lemma {:induction false} TableCounters(cfg: Config, staging: seq<Staging>, mu: MutationStats)
    requires Books(cfg, staging) && Counted(Tally(cfg, staging), mu)
    ensures var marked := MarkedKeys(staging);
      && (mu.blocks == mu.attempts <==> NoneMarked(cfg, marked, IsRefusal))
      && (mu.unsupported == 0 <==> NoneMarked(cfg, marked, IsUnsupported))
      && (mu.sizeMismatches == 0 <==> NoneMarked(cfg, marked, IsMismatch))
      && mu.boundsErrors == RangesPast(cfg, staging) % UINT32_SPAN
      && (RangesPast(cfg, staging) == 0 <==> NoneMarked(cfg, marked, IsPast))
  {
    hide Tally, NoneRefused, NoneMarked, MarkedKeys;
    TallyMeans(cfg, staging);
    RecordsAndCommands(cfg, staging, IsRefusal);
    RecordsAndCommands(cfg, staging, IsUnsupported);
    RecordsAndCommands(cfg, staging, IsMismatch);
    RecordsAndCommands(cfg, staging, IsPast);
    hide Books;
    var n := Tally(cfg, staging);
    SmallWraps(n.attempts);
    SmallWraps(n.copied);
    SmallWraps(n.unsupported);
    SmallWraps(n.mismatched);
  }

  lemma {:induction false} TableVolume(cfg: Config, staging: seq<Staging>, mu: MutationStats)
    requires Books(cfg, staging) && Counted(Tally(cfg, staging), mu)
    ensures var n := Tally(cfg, staging);
      && mu.attempts == |MarkedKeys(staging)| && mu.blocks == n.copied && mu.checksums == 4 * mu.blocks
      && mu.ranges == 2 * n.rows % UINT32_SPAN && mu.stagingXor == mu.postXor == n.checksum
      && mu.keyBytes == mu.valueBytes == n.rowBytes % UINT64_SPAN && mu.bytes == 2 * n.rowBytes % UINT64_SPAN
  {
    hide Tally, MarkedKeys;
    TallyMeans(cfg, staging);
    TallyAttempts(cfg, staging);
    hide Books;
    SmallWraps(Tally(cfg, staging).attempts);
    SmallWraps(Tally(cfg, staging).copied);
    SmallWraps(4 * Tally(cfg, staging).copied);
  }

  lemma SmallWraps(n: nat)
    requires n <= 4 * MAX_STAGING_BLOCKS
    ensures Wrap32(n) == n
  {
  }

  /** Blocks so short that a full table of them cannot wrap the bounds count. */
  ghost predicate SmallBlocks(cs: seq<Command>) {
    forall i :: 0 <= i < |cs| ==> cs[i].end - cs[i].start < 0x8_0000
  }

  lemma {:induction false} SmallTally(cfg: Config, staging: seq<Staging>)
    requires SmallBlocks(cfg.commands) && forall i :: 0 <= i < |staging| ==> Backed(cfg, staging[i])
    ensures Tally(cfg, staging).past <= |staging| * 0xF_FFFE
  {
    if staging == [] {
    } else {
      var last := staging[|staging| - 1];
      SmallTally(cfg, staging[..|staging| - 1]);
      assert Backed(cfg, last);
      var i :| 0 <= i < |cfg.commands| && cfg.commands[i].BufferKey() == last.key;
      hide VerdictFor, RowsFor;
      assert cfg.commands[i].end - cfg.commands[i].start < 0x8_0000;
    }
  }

  lemma FewPast(past: nat, n: nat)
    requires past <= n * 0xF_FFFE && n <= MAX_STAGING_BLOCKS
    ensures past % UINT32_SPAN == past
  {
  }

  lemma {:induction false} FourVerdicts(cfg: Config, marked: set<Key>)
    ensures NoneMarked(cfg, marked, IsRefusal) <==>
      NoneMarked(cfg, marked, IsUnsupported) && NoneMarked(cfg, marked, IsMismatch) && NoneMarked(cfg, marked, IsPast)
  {
    hide VerdictFor;
    forall v: Verdict ensures IsRefusal(v) <==> IsUnsupported(v) || IsMismatch(v) || IsPast(v) {
    }
  }
}
