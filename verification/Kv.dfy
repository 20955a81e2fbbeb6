/** The vocabulary shared by every stage of the KV-block residency pipeline: tiers, commands and the
    two block keys (the planner's and the executors').
 */
module Kv {
  type Byte = bv8

  datatype Option<+T> = None | Some(value: T) {
    function UnwrapOr(default: T): T {
      if Some? then value else default
    }
  }

  datatype Result<+T, +E> = Success(value: T) | Failure(error: E)

  /** A storage tier. `Elsewhere` stands for any text that names none of the three tiers. */
  datatype Location = SSD | DRAM | VRAM | Elsewhere(name: string)

  type Tier = l: Location | !l.Elsewhere? witness SSD

  /** A command operation. `OtherOp` stands for any text outside the supported vocabulary. */
  datatype Op = Load | Prefetch | Compute | Evict | OtherOp(name: string)

  /** The scheduler, the layout and the C consumer identify a block by layer and block id. */
  datatype BlockKey = BlockKey(layer: int, block: int)

  /** The Python executor and the llama.cpp bridge add the token interval. */
  datatype Key = Key(layer: int, block: int, start: int, end: int)

  function PlanKeyOf(k: Key): BlockKey {
    BlockKey(k.layer, k.block)
  }

  /** A range of the backing file. */
  datatype Extent = Extent(offset: int, size: int)

  datatype Command = Command(
    op: Op, layer: int, block: int, start: int, end: int, size: int,
    source: Location, target: Location, offset: int, blocking: bool)
  {
    /** The key of the buffers that the Python and llama.cpp executors keep for the block. */
    function BufferKey(): Key {
      Key(layer, block, start, end)
    }

    /** The key of the block in the plan and in the C consumer. */
    function PlanKey(): BlockKey {
      BlockKey(layer, block)
    }

    function Place(): Extent {
      Extent(offset, size)
    }

    predicate Moves(from: Location, to: Location) {
      (op.Load? || op.Prefetch?) && source == from && target == to
    }

    predicate EvictsToSsd() {
      op.Evict? && target.SSD?
    }
  }

  /** The checks of the exported command's constructor. */
  predicate ValidCommand(c: Command) {
    && !c.op.OtherOp?
    && c.layer >= 0 && c.block >= 0
    && 0 <= c.start < c.end
    && c.size > 0
    && !c.source.Elsewhere? && !c.target.Elsewhere?
    && c.offset >= 0
    && (c.op.Compute? ==> c.source.VRAM? && c.target.VRAM?)
    && (c.op.Evict? ==> c.target.SSD?)
    && (c.op.Load? || c.op.Prefetch? ==> c.source != c.target)
  }

  function One(yes: bool): nat {
    if yes then 1 else 0
  }

  /** How many of the commands are of a kind. */
  function Numbered(cs: seq<Command>, yes: Command -> bool): nat {
    if cs == [] then 0 else Numbered(cs[..|cs| - 1], yes) + if yes(cs[|cs| - 1]) then 1 else 0
  }

  /** One block is described the same way by all of its commands. */
  ghost predicate Consistent(cs: seq<Command>) {
    forall i, j :: 0 <= i < |cs| && 0 <= j < |cs| && cs[i].PlanKey() == cs[j].PlanKey()
      ==> cs[i].BufferKey() == cs[j].BufferKey() && cs[i].size == cs[j].size && cs[i].offset == cs[j].offset
  }

  /** Different blocks occupy disjoint ranges of the backing file. */
  ghost predicate RangesApart(cs: seq<Command>) {
    forall i, j :: 0 <= i < |cs| && 0 <= j < |cs| && cs[i].PlanKey() != cs[j].PlanKey()
      ==> cs[i].offset + cs[i].size <= cs[j].offset || cs[j].offset + cs[j].size <= cs[i].offset
  }

  /** `n` blocks of one size. */
  predicate Weighs(size: int, n: nat, bytes: int) {
    bytes == n * size
  }

  lemma {:induction false} WeighsMore(size: int)
    ensures Weighs(size, 0, 0)
    ensures forall n: nat, bytes :: Weighs(size, n, bytes) ==> Weighs(size, n + 1, bytes + size)
  {
    forall n: nat, bytes | Weighs(size, n, bytes) ensures Weighs(size, n + 1, bytes + size) {
      assert (n + 1) * size == n * size + size;
    }
  }

  ghost predicate AllOfSize(cs: seq<Command>, size: int) {
    forall i :: 0 <= i < |cs| ==> cs[i].size == size
  }
}
