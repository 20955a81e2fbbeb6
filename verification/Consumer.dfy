/** The C command consumer with its slot table, its heap buffers filled in place, and its counters. Each
    method is proved to change them exactly as the functions of `ConsumerModel` say.
 */
module Consumer {
  import opened Kv
  import opened ByteCopies
  import opened ConsumerModel

  class BufferSlot {
    const key: BlockKey
    const start: int
    const end: int
    const size: int
    var dram: array?<Byte>
    var vram: array?<Byte>

    constructor (c: Command)
      ensures Now() == Slot(c.PlanKey(), c.start, c.end, c.size, None, None)
      ensures dram == null && vram == null
    {
      key, start, end, size := c.PlanKey(), c.start, c.end, c.size;
      dram, vram := null, null;
    }

    function At(l: Location): array?<Byte>
      reads this
    {
      match l case DRAM => dram case VRAM => vram case _ => null
    }

    function Now(): Slot
      reads this, dram, vram
    {
      Slot(key, start, end, size, if dram == null then None else Some(dram[..]), if vram == null then None else Some(vram[..]))
    }

    method Place(l: Location, b: array<Byte>)
      requires Buffered(l)
      modifies this
      ensures At(l) == b && (l.DRAM? ==> vram == old(vram)) && (l.VRAM? ==> dram == old(dram))
    {
      if l.DRAM? {
        dram := b;
      } else {
        vram := b;
      }
    }
  }

  method FillPattern(b: array<Byte>, c: Command)
    requires b.Length == SizeOf(c)
    modifies b
    ensures b[..] == Pattern(c)
  {
    hide PatternByte;
    var i := 0;
    while i < b.Length
      invariant 0 <= i <= b.Length
      invariant forall j :: 0 <= j < i ==> b[j] == PatternByte(c.BufferKey(), c.offset, j)
    {
      b[i] := PatternByte(c.BufferKey(), c.offset, i);
      i := i + 1;
    }
  }

  /** Compare a buffer with the pattern; a buffer that is too small does not match. */
  method VerifyPattern(b: array<Byte>, c: Command) returns (ok: bool)
    ensures ok == Verifies(b[..], c)
  {
    hide PatternByte;
    if b.Length < SizeOf(c) {
      return false;
    }
    var i := 0;
    while i < SizeOf(c)
      invariant 0 <= i <= SizeOf(c)
      invariant forall j :: 0 <= j < i ==> b[j] == Pattern(c)[j]
    {
      if b[i] != PatternByte(c.BufferKey(), c.offset, i) {
        assert b[..][..SizeOf(c)][i] != Pattern(c)[i];
        return false;
      }
      i := i + 1;
    }
    assert b[..][..SizeOf(c)] == Pattern(c);
    return true;
  }

  /** `memcpy`, and the fill of a buffer by a read. */
  method CopyInto(dst: array<Byte>, bytes: seq<Byte>)
    requires |bytes| <= dst.Length
    modifies dst
    ensures dst[..] == Overwrite(old(dst[..]), bytes)
  {
    var i := 0;
    while i < |bytes|
      invariant 0 <= i <= |bytes|
      invariant forall j :: 0 <= j < dst.Length ==> dst[j] == if j < i then bytes[j] else old(dst[j])
    {
      dst[i] := bytes[i];
      i := i + 1;
    }
  }

  class KvConsumer {
    var file: seq<Byte>
    var slots: seq<BufferSlot>
    var stats: Stats
    ghost var repr: set<object>

    constructor (cs: seq<Command>)
      ensures Valid() && fresh(repr) && Now() == State(seq(MaxEnd(cs), i => 0), [], NO_STATS)
    {
      file, slots, stats, repr := seq(MaxEnd(cs), i => 0), [], NO_STATS, {};
    }

    /** Every slot and buffer belongs to the consumer, and no two of them share memory. */
    ghost predicate Valid()
      reads `slots, `repr, repr
    {
      && this !in repr
      && (forall i :: 0 <= i < |slots| ==> slots[i] in repr)
      && (forall i :: 0 <= i < |slots| ==> Owned(slots[i], repr))
      && (forall i, j :: 0 <= i < j < |slots| ==> slots[i] != slots[j])
      && (forall i, j :: 0 <= i < |slots| && 0 <= j < |slots| && i != j && slots[i].dram != null ==> slots[i].dram != slots[j].dram)
      && (forall i, j :: 0 <= i < |slots| && 0 <= j < |slots| && i != j && slots[i].vram != null ==> slots[i].vram != slots[j].vram)
      && (forall i, j :: 0 <= i < |slots| && 0 <= j < |slots| && slots[i].dram != null ==> slots[i].dram != slots[j].vram)
    }

    ghost function Views(): (r: seq<Slot>)
      requires Valid()
      reads `slots, `repr, repr
      ensures |r| == |slots|
    {
      var all, owned := slots, repr;
      seq(|all|, i requires 0 <= i < |all| && all[i] in owned && Owned(all[i], owned) reads owned => all[i].Now())
    }

    /** The slot's buffers belong to the consumer. */
    static ghost predicate Owned(slot: BufferSlot, owned: set<object>)
      requires slot in owned
      reads owned
    {
      (slot.dram != null ==> slot.dram in owned) && (slot.vram != null ==> slot.vram in owned)
    }

    ghost function Now(): State
      requires Valid()
      reads this, repr
    {
      State(file, Views(), stats)
    }

    /** Search the slots for the block. */
    method SlotOf(key: BlockKey) returns (at: Option<nat>)
      requires Valid()
      ensures at == FindSlot(Views(), key)
    {
      var i := 0;
      while i < |slots|
        invariant 0 <= i <= |slots|
        invariant forall j :: 0 <= j < i ==> Views()[j].key != key
      {
        assert Views()[i].key == slots[i].key;
        if slots[i].key == key {
          return Some(i);
        }
        i := i + 1;
      }
      return None;
    }

    /** The first slot of the block, created when there is none. */
    method FindOrAddSlot(c: Command, env: Env) returns (at: Option<nat>)
      requires Valid()
      modifies this`slots, this`repr
      ensures Valid() && fresh(repr - old(repr)) && (at.Some? ==> at.value < |slots|)
      ensures Got(Views(), at) == GetSlot(old(Views()), c, env)
      ensures at.None? ==> Views() == old(Views())
    {
      hide Valid;
      at := SlotOf(c.PlanKey());
      if at.Some? {
        return at;
      }
      if !env.slotOk {
        return None;
      }
      AddSlot(c);
      return Some(|slots| - 1);
    }

    method AddSlot(c: Command)
      requires Valid()
      modifies this`slots, this`repr
      ensures Valid() && fresh(repr - old(repr)) && |slots| == |old(slots)| + 1
      ensures Views() == old(Views()) + [Slot(c.PlanKey(), c.start, c.end, c.size, None, None)]
    {
      var slot := new BufferSlot(c);
      ghost var before := Views();
      slots := slots + [slot];
      repr := repr + {slot};
      assert Views() == before + [slot.Now()];
    }

    /** Replacing one slot's buffer by a fresh one changes that slot's view only. */
    method PlaceAt(at: nat, l: Location, b: array<Byte>)
      requires Valid() && at < |slots| && Buffered(l) && b !in repr && b as object != this
      modifies slots[at], this`repr
      ensures Valid() && repr == old(repr) + {b} && slots[at].At(l) == b
      ensures (l.DRAM? ==> slots[at].vram == old(slots[at].vram)) && (l.VRAM? ==> slots[at].dram == old(slots[at].dram))
      ensures Views() == old(Views())[at := old(Views())[at].With(l, b[..])]
    {
      ghost var before := Views();
      assert before[at] == slots[at].Now();
      slots[at].Place(l, b);
      repr := repr + {b};
      hide Pattern;
      forall i | 0 <= i < |slots| && i != at ensures Views()[i] == before[i] {
        assert slots[i] != slots[at];
      }
      assert Views()[at] == before[at].With(l, b[..]);
    }

    /** The one slot may have gained a buffer; the other buffers are the ones it had. */
    twostate predicate OnlyGained(at: nat)
      requires at < |slots|
      reads this, slots[at]
    {
      && slots == old(slots)
      && (slots[at].dram == old(slots[at].dram) || (old(slots[at].dram) == null && fresh(slots[at].dram)))
      && (slots[at].vram == old(slots[at].vram) || (old(slots[at].vram) == null && fresh(slots[at].vram)))
    }

    method EnsureBufferAt(at: nat, l: Location, c: Command, env: Env) returns (b: array?<Byte>)
      requires Valid() && at < |slots|
      modifies slots[at], this`stats, this`repr
      ensures Valid() && fresh(repr - old(repr)) && OnlyGained(at) && (b != null ==> b == slots[at].At(l))
      ensures var e := EnsureBuffer(old(Views())[at], l, c, env, old(stats));
        Views() == old(Views())[at := e.slot] && stats == e.stats && (b != null <==> e.ok)
    {
      hide Pattern;
      assert Views()[at] == slots[at].Now();
      assert Views()[at := Views()[at]] == Views();
      if !Buffered(l) {
        return null;
      }
      b := slots[at].At(l);
      if b == null {
        if !env.sourceOk {
          return null;
        }
        b := new Byte[SizeOf(c)];
        FillPattern(b, c);
        PlaceAt(at, l, b);
        stats := stats.(lazyInits := stats.lazyInits + 1, lazyBytes := stats.lazyBytes + SizeOf(c));
      }
    }

    method AllocTargetAt(at: nat, l: Location, c: Command, env: Env) returns (b: array?<Byte>)
      requires Valid() && at < |slots|
      modifies slots[at], this`repr
      ensures Valid() && fresh(repr - old(repr)) && OnlyGained(at) && (b != null ==> b == slots[at].At(l))
      ensures match AllocTarget(old(Views())[at], l, c, env)
        case None => b == null && Views() == old(Views())
        case Some(slot) => b != null && Views() == old(Views())[at := slot]
    {
      assert Views()[at] == slots[at].Now();
      assert Views()[at := Views()[at]] == Views();
      if !Buffered(l) {
        return null;
      }
      b := slots[at].At(l);
      if b == null {
        if !env.targetOk {
          return null;
        }
        b := new Byte[SizeOf(c)](i => env.junk(i));
        assert b[..] == ConsumerModel.Fresh(c, env);
        PlaceAt(at, l, b);
      }
    }

    /** Writing into one buffer changes that slot's view only. */
    method FillAt(at: nat, l: Location, bytes: seq<Byte>)
      requires Valid() && at < |slots| && slots[at].At(l) != null && |bytes| <= slots[at].At(l).Length
      modifies slots[at].At(l)
      ensures Valid()
      ensures var slot := old(Views())[at];
        slot.Buffer(l).Some? && |bytes| <= |slot.Buffer(l).value| &&
        Views() == old(Views())[at := slot.With(l, Overwrite(slot.Buffer(l).value, bytes))]
    {
      ghost var before := Views();
      assert before[at] == slots[at].Now();
      CopyInto(slots[at].At(l), bytes);
      forall i | 0 <= i < |slots| && i != at ensures Views()[i] == before[i] {
        assert before[i] == old(slots[i].Now());
      }
      assert Views()[at] == slots[at].Now();
    }

    method MoveInto(at: nat, c: Command, env: Env) returns (ok: bool)
      requires Valid() && at < |slots|
      modifies this`stats, this`repr, repr
      ensures Valid() && fresh(repr - old(repr)) && slots == old(slots)
      ensures Outcome(Now(), ok) == Move(old(Now()), at, c, env)
    {
      hide Pattern, AllocTarget, ReadOnto, CopyOnto;
      AllocatedTarget(Views()[at], c.target, c, env);
      var dst := AllocTargetAt(at, c.target, c, env);
      if dst == null {
        return false;
      }
      assert Views()[at] == slots[at].Now();
      if dst.Length < SizeOf(c) {
        return false;
      }
      if c.source.SSD? {
        ok := ReadInto(at, dst, c, env);
      } else {
        ok := CopyBetween(at, dst, c, env);
      }
    }

    /** The target buffer of the slot is `dst`, and it is large enough. */
    ghost predicate Target(at: nat, dst: array<Byte>, c: Command)
      reads this, repr
    {
      && Valid() && at < |slots| && Buffered(c.target) && dst == slots[at].At(c.target) && dst.Length >= SizeOf(c)
      && Views()[at].Buffer(c.target) == Some(dst[..])
    }

    method ReadInto(at: nat, dst: array<Byte>, c: Command, env: Env) returns (ok: bool)
      requires Target(at, dst, c)
      modifies this`stats, dst
      ensures Valid() && Outcome(Now(), ok) == ReadOnto(old(Now()), at, c, env)
    {
      hide Pattern, Verifies, Overwrite, CountRead;
      if !env.ioOk || !InFile(file, c) {
        return false;
      }
      FillAt(at, c.target, Slice(file, c.offset, SizeOf(c)));
      assert Views()[at] == slots[at].Now();
      ghost var views := Views();
      ok := VerifyPattern(dst, c);
      stats := CountRead(stats, c, ok);
      assert Views() == views;
    }

    method CopyBetween(at: nat, dst: array<Byte>, c: Command, env: Env) returns (ok: bool)
      requires Target(at, dst, c)
      modifies this`stats, this`repr, slots[at], dst
      ensures Valid() && fresh(repr - old(repr)) && slots == old(slots)
      ensures Outcome(Now(), ok) == CopyOnto(old(Now()), at, c, env)
    {
      hide Pattern, Overwrite, EnsureBuffer;
      EnsuredBuffer(Views()[at], c.source, c.target, c, env, stats);
      var src := EnsureBufferAt(at, c.source, c, env);
      assert Views()[at] == slots[at].Now();
      if src == null || src.Length < SizeOf(c) {
        return false;
      }
      FillAt(at, c.target, src[..SizeOf(c)]);
      ghost var views := Views();
      stats := CountCopy(stats, c);
      assert Views() == views;
      return true;
    }

    method ComputeAt(at: nat, c: Command, env: Env) returns (ok: bool)
      requires Valid() && at < |slots|
      modifies this`stats, this`repr, slots[at]
      ensures Valid() && fresh(repr - old(repr))
      ensures Outcome(Now(), ok) == ComputeOn(old(Now()), at, c, env)
    {
      hide Pattern, EnsureBuffer, Verifies;
      EnsuredBuffer(Views()[at], VRAM, VRAM, c, env, stats);
      var src := EnsureBufferAt(at, VRAM, c, env);
      assert Views()[at] == slots[at].Now();
      if src == null {
        return false;
      }
      ghost var views := Views();
      ok := VerifyPattern(src, c);
      stats := if ok then stats.(verified := stats.verified + 1) else stats.(verificationErrors := stats.verificationErrors + 1);
      assert Views() == views;
    }

    method EvictAt(at: nat, c: Command, env: Env) returns (ok: bool)
      requires Valid() && at < |slots|
      modifies this`stats, this`file, this`repr, slots[at]
      ensures Valid() && fresh(repr - old(repr))
      ensures Outcome(Now(), ok) == EvictBlock(old(Now()), at, c, env)
    {
      hide Pattern, EnsureBuffer, WriteAt;
      EnsuredBuffer(Views()[at], c.source, c.source, c, env, stats);
      var src := EnsureBufferAt(at, c.source, c, env);
      assert Views()[at] == slots[at].Now();
      if src == null || src.Length < SizeOf(c) || !env.ioOk || c.offset < 0 {
        return false;
      }
      ghost var views := Views();
      file := WriteAt(file, c.offset, src[..SizeOf(c)]);
      stats := stats.(ssdWrites := stats.ssdWrites + 1, writeBytes := stats.writeBytes + SizeOf(c));
      assert Views() == views;
      return true;
    }

    /** `execute_command`. */
    method ExecuteCommand(c: Command, env: Env) returns (ok: bool)
      requires Valid()
      modifies this, repr
      ensures Valid() && fresh(repr - old(repr))
      ensures Outcome(Now(), ok) == Execute(old(Now()), c, env)
    {
      hide Move, ComputeOn, EvictBlock, GetSlot;
      var at := FindOrAddSlot(c, env);
      if at.None? {
        return false;
      }
      ghost var views := Views();
      stats := CountOp(stats, c);
      assert Views() == views;
      match c.op {
        case Load => ok := MoveInto(at.value, c, env);
        case Prefetch => ok := MoveInto(at.value, c, env);
        case Compute => ok := ComputeAt(at.value, c, env);
        case Evict => ok := EvictAt(at.value, c, env);
        case OtherOp(_) => ok := false;
      }
    }

    static lemma {:induction false} AllocatedTarget(slot: Slot, l: Location, c: Command, env: Env)
      ensures var t := AllocTarget(slot, l, c, env); t.Some? ==> Buffered(l) && t.value.Buffer(l).Some?
    {
    }

    static lemma {:induction false} EnsuredBuffer(slot: Slot, l: Location, m: Location, c: Command, env: Env, stats: Stats)
      ensures var e := EnsureBuffer(slot, l, c, env, stats); e.ok ==> Buffered(l) && e.slot.Buffer(l).Some?
      ensures slot.Buffer(m).Some? ==> EnsureBuffer(slot, l, c, env, stats).slot.Buffer(m) == slot.Buffer(m)
    {
    }

    /** `seed_ssd_reads`. */
    method SeedSsdReads(cs: seq<Command>, envs: seq<Env>) returns (ok: bool)
      requires Valid() && |cs| <= |envs|
      modifies this`file, this`stats
      ensures Valid() && repr == old(repr)
      ensures Outcome(Now(), ok) == Seed(old(Now()), cs, envs, |cs|)
    {
      ghost var start := Now();
      hide SeedStep;
      ok := true;
      var i := 0;
      while i < |cs| && ok
        invariant 0 <= i <= |cs|
        invariant Valid()
        invariant Outcome(Now(), ok) == Seed(start, cs, envs, i)
      {
        ok := SeedOne(cs, i, envs[i]);
        i := i + 1;
      }
      if i < |cs| {
        SeedStops(start, cs, envs, i, |cs|);
      }
    }

    method SeedOne(cs: seq<Command>, i: nat, env: Env) returns (ok: bool)
      requires Valid() && i < |cs|
      modifies this`file, this`stats
      ensures Valid()
      ensures Outcome(Now(), ok) == SeedStep(old(Now()), cs, i, env)
    {
      hide Pattern, WriteAt;
      if cs[i].source.SSD? {
        var seen := RangeSeen(cs, i);
        if !seen {
          if !env.targetOk || !env.ioOk || cs[i].offset < 0 {
            return false;
          }
          var b := new Byte[SizeOf(cs[i])];
          FillPattern(b, cs[i]);
          file := WriteAt(file, cs[i].offset, b[..]);
          stats := stats.(ssdSeeds := stats.ssdSeeds + 1, seedBytes := stats.seedBytes + SizeOf(cs[i]));
        }
      }
      return true;
    }

    static method RangeSeen(cs: seq<Command>, i: nat) returns (seen: bool)
      requires i < |cs|
      ensures seen == Seen(cs, i)
    {
      var j := 0;
      while j < i
        invariant 0 <= j <= i
        invariant forall k :: 0 <= k < j ==> !(cs[k].source.SSD? && cs[k].offset == cs[i].offset && cs[k].size == cs[i].size)
      {
        if cs[j].source.SSD? && cs[j].offset == cs[i].offset && cs[j].size == cs[i].size {
          return true;
        }
        j := j + 1;
      }
      return false;
    }

    static lemma {:induction false} SeedStops(s: State, cs: seq<Command>, envs: seq<Env>, i: nat, n: nat)
      requires i <= n <= |cs| <= |envs| && !Seed(s, cs, envs, i).ok
      ensures Seed(s, cs, envs, n) == Seed(s, cs, envs, i)
      decreases n
    {
      if i < n {
        SeedStops(s, cs, envs, i, n - 1);
      }
    }

    static lemma {:induction false} RunStops(s: State, cs: seq<Command>, envs: seq<Env>, i: nat, n: nat)
      requires i <= n <= |cs| <= |envs| && !Run(s, cs, envs, i).ok
      ensures Run(s, cs, envs, n) == Run(s, cs, envs, i)
      decreases n
    {
      if i < n {
        RunStops(s, cs, envs, i, n - 1);
      }
    }

    static lemma {:induction false} RunNone(s: State, cs: seq<Command>, envs: seq<Env>)
      requires |cs| <= |envs|
      ensures Run(s, cs, envs, 0) == Outcome(s, true)
    {
    }

    static lemma {:induction false} RunNext(s: State, cs: seq<Command>, envs: seq<Env>, i: nat)
      requires i < |cs| <= |envs| && Run(s, cs, envs, i).ok
      ensures Run(s, cs, envs, i + 1) == Execute(Run(s, cs, envs, i).state, cs[i], envs[i])
    {
    }

    /** Command `i` of the stream, after a successful start. */
    method RunOne(cs: seq<Command>, envs: seq<Env>, i: nat, ghost start: State) returns (ok: bool)
      requires Valid() && i < |cs| <= |envs| && Run(start, cs, envs, i) == Outcome(Now(), true)
      modifies this, repr
      ensures Valid() && fresh(repr - old(repr))
      ensures Run(start, cs, envs, i + 1) == Outcome(Now(), ok)
    {
      hide Execute, Run, Valid, Views;
      RunNext(start, cs, envs, i);
      ok := ExecuteCommand(cs[i], envs[i]);
    }

    /** The command loop of `main`. */
    method RunCommands(cs: seq<Command>, envs: seq<Env>) returns (ok: bool)
      requires Valid() && |cs| <= |envs|
      modifies this, repr
      ensures Valid() && fresh(repr - old(repr))
      ensures Outcome(Now(), ok) == Run(old(Now()), cs, envs, |cs|)
    {
      hide Execute, Run, Valid, Views;
      ghost var start := Now();
      RunNone(start, cs, envs);
      var i := 0;
      while i < |cs|
        invariant i <= |cs| && Valid()
        invariant fresh(repr - old(repr))
        invariant Run(start, cs, envs, i) == Outcome(Now(), true)
      {
        ok := RunOne(cs, envs, i, start);
        i := i + 1;
        if !ok {
          RunStops(start, cs, envs, i, |cs|);
          return false;
        }
      }
      return true;
    }
  }

  /** The program: create the file, seed it, run the commands. */
  method ConsumeCommands(cs: seq<Command>, seedEnvs: seq<Env>, envs: seq<Env>) returns (ok: bool, stats: Stats)
    requires |cs| <= |seedEnvs| && |cs| <= |envs|
    ensures ok == Consume(cs, seedEnvs, envs).ok && stats == Consume(cs, seedEnvs, envs).state.stats
  {
    hide Seed, Run;
    var consumer := new KvConsumer(cs);
    if cs == [] {
      return false, consumer.stats;
    }
    ok := consumer.SeedSsdReads(cs, seedEnvs);
    if ok {
      ok := consumer.RunCommands(cs, envs);
    }
    stats := consumer.stats;
  }
}
