/** A concrete run in which every refusal counter of the gate is zero and both blocks are reported ready,
    although both were refused: each has 2^30 cells past a cache of three, so each adds 2^31 to a 32-bit count.
 */
module RefusalExample {
  import opened Kv
  import opened BridgeModel
  import TG = TensorGate
  import TL = TensorLayout
  import SB = StagingBooks
  import N = GateCounters
  import GS = GateSoundness
  import GC = GateCompleteness

  const A: nat := 0x4000_0003
  const B: nat := 0x4000_0002

  const FIRST := Command(Compute, 0, 0, 0, A, 2 * A, VRAM, VRAM, 0, false)
  const SECOND := Command(Compute, 0, 1, A, A + B, 2 * B, VRAM, VRAM, 2 * A, false)
  const ROWS := TG.TensorShape(1, 1, 1, 1)
  const EVENTS := [Event(0, 0, 0, A, []), Event(0, 1, A, A + B, [])]
  const WORLD := World(FRESH, map[0 := Tensors([0, 0, 0], [0, 0, 0])])

  /** The bridge on any backing file that is long enough. */
  function On(backing: seq<Byte>): Config {
    Config(backing, [FIRST, SECOND], map[0 := LayerShape(Some(ROWS), Some(ROWS))], 3, false, true, true, true)
  }

  lemma {:induction false} ExampleTame(backing: seq<Byte>)
    requires |backing| >= 2 * (A + B)
    ensures GC.Tame(On(backing)) && forall j :: 0 <= j < |EVENTS| ==> GC.Smooth(EVENTS[j])
    ensures WorldShaped(On(backing), WORLD) && LayersKnown(WORLD, EVENTS) && 0 in WORLD.tensors && WORLD.state == FRESH
    ensures |On(backing).commands| == 2 && On(backing).commands[0] == FIRST && On(backing).commands[1] == SECOND
  {
    assert ROWS.RowSize() == 1;
    var cs := On(backing).commands;
    assert cs[0] == FIRST && cs[1] == SECOND && |cs| == 2;
  }

  /** The two blocks are required by a view of the whole cache, and both have had their event. */
  lemma {:induction false} ExampleServed(backing: seq<Byte>)
    ensures var keys := {FIRST.BufferKey(), SECOND.BufferKey()};
      GC.RequiredKeys(On(backing).commands, 0, 3, 2) == keys && GC.ServedKeys(On(backing), EVENTS) == keys && |keys| == 2
  {
    var cs := On(backing).commands;
    assert cs[0] == FIRST && cs[1] == SECOND && |cs| == 2;
    assert OverlapsView(cs[0], 0, 3) && OverlapsView(cs[1], 0, 3);
    assert Matches(cs[0], EVENTS[0]) && Matches(cs[1], EVENTS[1]);
    var keys := {FIRST.BufferKey(), SECOND.BufferKey()};
    assert cs[0].BufferKey() in GC.RequiredKeys(cs, 0, 3, 2) && cs[1].BufferKey() in GC.RequiredKeys(cs, 0, 3, 2);
    assert cs[0].BufferKey() in GC.ServedKeys(On(backing), EVENTS) && cs[1].BufferKey() in GC.ServedKeys(On(backing), EVENTS);
  }

  lemma {:induction false} InferredRows()
    ensures InferRow(2 * A, A) == 1 && InferRow(2 * B, B) == 1
  {
  }

  lemma {:induction false} RefusedForCells(backing: seq<Byte>, key: Key, size: int, tokens: nat)
    requires key.layer == 0 && 0 <= key.block < 3 && key.end - key.start == tokens && key.block + tokens == 0x4000_0003
    requires size == 2 * tokens && InferRow(size, tokens) == 1
    ensures N.CountsFor(On(backing), key, size) == N.Counts(1, 0, 0, 0, 0x8000_0000, 0, 0, 0)
  {
    hide InferRow;
    assert On(backing).SiteOf(0) == TG.Site(Some(ROWS), Some(ROWS), 3, false);
    assert RowsFor(key, size) == TL.Rows(key.block, tokens, 1, 1);
    assert VerdictFor(On(backing), key, size).BoundsError?;
    hide VerdictFor;
  }

  /** Both are refused for 2^30 cells past the cache. */
  lemma {:induction false} ExampleRefused(backing: seq<Byte>)
    ensures N.CountsFor(On(backing), FIRST.BufferKey(), FIRST.size) == N.Counts(1, 0, 0, 0, 0x8000_0000, 0, 0, 0)
    ensures N.CountsFor(On(backing), SECOND.BufferKey(), SECOND.size) == N.Counts(1, 0, 0, 0, 0x8000_0000, 0, 0, 0)
  {
    InferredRows();
    hide N.CountsFor, InferRow, On;
    RefusedForCells(backing, FIRST.BufferKey(), FIRST.size, A);
    RefusedForCells(backing, SECOND.BufferKey(), SECOND.size, B);
  }

  ghost predicate CountAlike(cfg: Config, r: Staging) {
    N.CountsFor(cfg, r.key, r.size) == N.Counts(1, 0, 0, 0, 0x8000_0000, 0, 0, 0)
  }

  /** Marked records that all count alike. */
  lemma {:induction false} AlikeTally(cfg: Config, staging: seq<Staging>)
    requires forall j :: 0 <= j < |staging| && staging[j].mutated ==> CountAlike(cfg, staging[j])
    ensures var n := N.Tally(cfg, staging); n == N.Counts(n.attempts, 0, 0, 0, n.attempts * 0x8000_0000, 0, 0, 0)
  {
    hide N.CountsFor;
    if staging == [] {
    } else {
      AlikeTally(cfg, staging[..|staging| - 1]);
    }
  }

  lemma {:induction false} MarkedAreRefused(backing: seq<Byte>, staging: seq<Staging>)
    requires SB.Books(On(backing), staging) && SB.MarkedKeys(staging) == {FIRST.BufferKey(), SECOND.BufferKey()}
    ensures N.Tally(On(backing), staging) == N.Counts(2, 0, 0, 0, 0x1_0000_0000, 0, 0, 0)
  {
    var cfg := On(backing);
    ExampleRefused(backing);
    hide N.CountsFor, N.Tally;
    assert cfg.commands[0] == FIRST && cfg.commands[1] == SECOND;
    forall j | 0 <= j < |staging| && staging[j].mutated ensures CountAlike(cfg, staging[j]) {
      assert staging[j].key in SB.MarkedKeys(staging) && SB.Backed(cfg, staging[j]);
      assert SB.BackedBy(cfg, staging[j], cfg.commands[if staging[j].key == FIRST.BufferKey() then 0 else 1]);
    }
    AlikeTally(cfg, staging);
    N.TallyAttempts(cfg, staging);
  }

  /** Two attempts, no copy, every refusal counter zero, and the gate reports two required blocks, both ready. */
  lemma {:induction false} RefusedUnseen(backing: seq<Byte>)
    requires |backing| >= 2 * (A + B)
    ensures WorldShaped(On(backing), WORLD) && LayersKnown(WORLD, EVENTS) && |On(backing).commands| == 2
    ensures var s := Run(On(backing), EVENTS, WORLD).state;
      && s.mu.attempts == 2 && s.mu.blocks == 0
      && s.mu.unsupported == 0 && s.mu.sizeMismatches == 0 && s.mu.boundsErrors == 0 && s.mu.verifyErrors == 0
      && Gate(On(backing), s.staging, 0, 3, 2) == Readiness(2, 2, 0, 0)
  {
    var cfg := On(backing);
    ExampleTame(backing);
    ExampleServed(backing);
    assert SB.Coherent(cfg.commands);
    hide On, Run, Gate, GC.Tame, GC.ServedKeys, GC.RequiredKeys, GC.Smooth, WorldShaped, LayersKnown, SB.Books, SB.Coherent, N.Tally, SB.MarkedKeys;
    GC.GateCompletes(cfg, EVENTS, WORLD, 0, 3);
    GC.GateCounts(cfg, Run(cfg, EVENTS, WORLD).state.staging, 0, 3, 2);
    GS.RunIsSound(cfg, EVENTS, WORLD);
    GC.MarkedAreServed(cfg, EVENTS, WORLD);
    MarkedAreRefused(backing, Run(cfg, EVENTS, WORLD).state.staging);
  }
}
