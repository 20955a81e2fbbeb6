/** A concrete run in which the gate reports two blocks ready although one of them has been overwritten:
    two blocks of two tokens with the consecutive ids 0 and 1, in a cache of three cells.
 */
module OverlapExample {
  import opened Kv
  import opened BridgeModel
  import TG = TensorGate
  import TL = TensorLayout
  import SB = StagingBooks
  import LL = LayerLaws
  import GC = GateCompleteness
  import O = Overlap
  import G = Guarantees

  const FIRST := Command(Compute, 0, 0, 0, 2, 4, VRAM, VRAM, 0, false)
  const SECOND := Command(Compute, 0, 1, 2, 4, 4, VRAM, VRAM, 4, false)
  const ROWS := TG.TensorShape(1, 1, 1, 1)

  /** Every byte of the backing file differs from the others. */
  const CFG := Config([0, 1, 2, 3, 4, 5, 6, 7], [FIRST, SECOND], map[0 := LayerShape(Some(ROWS), Some(ROWS))], 3, false, true, true, true)

  const WORLD := World(FRESH, map[0 := Tensors([0, 0, 0], [0, 0, 0])])
  const EVENTS := [Event(0, 0, 0, 2, []), Event(0, 1, 2, 4, [])]

  lemma {:induction false} ExampleTame()
    ensures GC.Tame(CFG) && !SB.CellsApart(CFG.commands)
    ensures forall j :: 0 <= j < |EVENTS| ==> GC.Smooth(EVENTS[j])
    ensures WorldShaped(CFG, WORLD) && LayersKnown(WORLD, EVENTS)
  {
    assert ROWS.RowSize() == 1;
    var cs := CFG.commands;
    assert cs[0] == FIRST && cs[1] == SECOND && |cs| == 2;
    assert !TL.CellsDisjoint(SB.CellsOf(cs[0].BufferKey()), SB.CellsOf(cs[1].BufferKey()));
  }

  lemma {:induction false} ExampleServed()
    ensures var keys := GC.RequiredKeys(CFG.commands, 0, 3, 2);
      keys == {FIRST.BufferKey(), SECOND.BufferKey()} && keys <= GC.ServedKeys(CFG, EVENTS)
  {
    var cs := CFG.commands;
    assert cs[0] == FIRST && cs[1] == SECOND;
    assert OverlapsView(cs[0], 0, 3) && OverlapsView(cs[1], 0, 3);
    var keys := GC.RequiredKeys(cs, 0, 3, 2);
    forall k ensures k in keys <==> k in {FIRST.BufferKey(), SECOND.BufferKey()} {
      assert cs[0].BufferKey() in keys && cs[1].BufferKey() in keys;
    }
    assert Matches(cs[0], EVENTS[0]) && Matches(cs[1], EVENTS[1]);
  }

  lemma {:induction false} FirstByte(image: seq<Byte>, g: TL.Rows, t: nat, at: nat)
    requires t < g.tokens && g.Size() == |image| && g.keyRow == g.valueRow == 1 && at == 2 * t
    ensures at < |image| && O.TokenBytes(image, g, t)[0] == image[at]
  {
    assert g.Stride() == 2 && t * g.Stride() == at;
  }

  /** Cell 1 is the first block's second token and the second block's first. */
  lemma {:induction false} SharedToken(x: seq<Byte>, g: TL.Rows, y: seq<Byte>, h: TL.Rows)
    requires |x| == |y| == 4 && g == TL.Rows(0, 2, 1, 1) && h == TL.Rows(1, 2, 1, 1)
    ensures O.CellsAgree(x, g, y, h) ==> x[2] == y[0]
  {
    FirstByte(x, g, 1, 2);
    FirstByte(y, h, 0, 0);
    hide O.TokenBytes;
    if O.CellsAgree(x, g, y, h) {
      assert O.TokenBytes(x, g, 1) == O.TokenBytes(y, h, 0);
    }
  }

  lemma {:induction false} ExampleRows()
    ensures RowsFor(FIRST.BufferKey(), FIRST.size) == TL.Rows(0, 2, 1, 1) && RowsFor(SECOND.BufferKey(), SECOND.size) == TL.Rows(1, 2, 1, 1)
    ensures SB.InFile(CFG, FIRST) && SB.InFile(CFG, SECOND)
    ensures SB.Image(CFG, FIRST)[2] == 2 && SB.Image(CFG, SECOND)[0] == 4
  {
  }

  /** The second token of the first block and the first token of the second block share cell 1, and their K
      rows differ. */
  lemma {:induction false} ExampleDiffers()
    ensures !LL.BlocksAgree(CFG, FIRST, SECOND)
  {
    ExampleRows();
    hide SB.Image, RowsFor, LL.Accepted, O.CellsAgree;
    SharedToken(SB.Image(CFG, FIRST), TL.Rows(0, 2, 1, 1), SB.Image(CFG, SECOND), TL.Rows(1, 2, 1, 1));
  }

  lemma {:induction false} ExampleShape()
    ensures |CFG.commands| == 2 && CFG.commands[0] == FIRST && CFG.commands[1] == SECOND && 0 in WORLD.tensors
    ensures WORLD.state == FRESH && FIRST.BufferKey() != SECOND.BufferKey()
  {
  }

  /** Both blocks are required, and the gate calls both ready. */
  lemma {:induction false} ExampleReady()
    ensures WorldShaped(CFG, WORLD) && LayersKnown(WORLD, EVENTS)
    ensures |CFG.commands| == 2 && Gate(CFG, Run(CFG, EVENTS, WORLD).state.staging, 0, 3, 2) == Readiness(2, 2, 0, 0)
  {
    hide Run, Gate, GC.Tame, GC.ServedKeys, GC.RequiredKeys, GC.Smooth, WorldShaped, LayersKnown, SB.CellsApart;
    ExampleTame();
    ExampleServed();
    ExampleShape();
    GC.GateCompletes(CFG, EVENTS, WORLD, 0, 3);
    GC.GateCounts(CFG, Run(CFG, EVENTS, WORLD).state.staging, 0, 3, 2);
    assert |{FIRST.BufferKey(), SECOND.BufferKey()}| == 2;
  }

  /** Both blocks are reported ready, and they are not both in place. */
  lemma {:induction false} ReadyAndLost()
    ensures WorldShaped(CFG, WORLD) && LayersKnown(WORLD, EVENTS)
    ensures var r := Run(CFG, EVENTS, WORLD);
      && 0 in r.tensors && Ready(r.state.staging, FIRST.BufferKey()) && Ready(r.state.staging, SECOND.BufferKey())
      && !(LL.BlockInPlace(CFG, FIRST, r.tensors[0]) && LL.BlockInPlace(CFG, SECOND, r.tensors[0]))
  {
    hide Run, GC.Tame, GC.ServedKeys, GC.RequiredKeys, WorldShaped, LayersKnown, LL.BlockInPlace, LL.BlocksAgree, SB.CellsApart, GC.Smooth, G.OnlyPair;
    ExampleTame();
    ExampleServed();
    ExampleShape();
    ExampleDiffers();
    G.ReadyButLost(CFG, EVENTS, WORLD, 0, 1);
  }
}
