/** The plan compiler: scheduler operations become SSD-addressed movement operations, and these become
    validated runtime commands.
 */
module MovementPlan {
  import opened Kv
  import opened Blocks
  import opened Timeline
  import opened SsdLayout
  import opened Sorting

  datatype MovementOp = MovementOp(
    op: Op, key: BlockKey, source: Location, target: Location, offset: int, size: int, start: int, end: int,
    startMs: real, endMs: real, blocking: bool, name: OpName, meta: Meta)

  datatype PlanError = NoRange(error: LayoutError) | UnsupportedSchedule(name: OpName) | InvalidMovement

  datatype Plan = Plan(layout: Layout, ops: seq<MovementOp>)

  predicate KeyLe(a: BlockInfo, b: BlockInfo) {
    a.key.layer < b.key.layer || (a.key.layer == b.key.layer && a.key.block <= b.key.block)
  }

  /** The distinct blocks of a plan, in (layer, block) order. */
  function PlanBlocks(bs: seq<BlockInfo>): seq<BlockInfo> {
    Sort(Dedupe(bs), KeyLe)
  }

  datatype Route = Route(op: Op, source: Location, target: Location)

  /** The movement an operation name stands for, with the metadata's tiers or their defaults. */
  function RouteOf(name: OpName, meta: Meta): Option<Route> {
    match name
    case ScheduleSsdRead => Some(Route(Load, meta.from.UnwrapOr(SSD), meta.to.UnwrapOr(DRAM)))
    case ScheduleDramToVram => Some(Route(Load, meta.from.UnwrapOr(DRAM), meta.to.UnwrapOr(VRAM)))
    case ScheduleCompute => Some(Route(Compute, meta.at.UnwrapOr(VRAM), meta.at.UnwrapOr(VRAM)))
    case PrefetchMove => Some(Route(Prefetch, meta.from.UnwrapOr(SSD), meta.to.UnwrapOr(DRAM)))
    case EvictToSsd => Some(Route(Evict, meta.from.UnwrapOr(VRAM), meta.to.UnwrapOr(SSD)))
    case OtherSchedule(_) => None
  }

  /** The checks of the movement operation's constructor. */
  predicate ValidMovement(m: MovementOp) {
    && !m.op.OtherOp? && m.key.layer >= 0 && m.key.block >= 0 && m.offset >= 0 && m.size > 0
    && 0 <= m.start < m.end && m.startMs <= m.endMs
  }

  function Translate(o: ScheduleOp, r: SSDRange, b: BlockInfo): Result<MovementOp, PlanError> {
    match RouteOf(o.name, o.meta)
    case None => Failure(UnsupportedSchedule(o.name))
    case Some(route) =>
      var m := MovementOp(route.op, o.key, route.source, route.target, r.offset, r.size, b.start, b.end,
                          o.startMs, o.endMs, o.meta.blocking.UnwrapOr(false), o.name, o.meta);
      if ValidMovement(m) then Success(m) else Failure(InvalidMovement)
  }

  /** The position of a key among the plan's blocks, which is also the position of its range. */
  function Position(bs: seq<BlockInfo>, key: BlockKey): (r: Option<nat>)
    ensures r.Some? ==> r.value < |bs| && bs[r.value].key == key
    ensures r.None? ==> !HasKey(bs, key)
  {
    if bs == [] then None
    else if bs[|bs| - 1].key == key then Some(|bs| - 1)
    else
      assert forall i :: 0 <= i < |bs| && bs[i].key == key ==> bs[..|bs| - 1][i].key == key;
      Position(bs[..|bs| - 1], key)
  }

  function TranslateAll(l: Layout, bs: seq<BlockInfo>, ops: seq<ScheduleOp>): Result<seq<MovementOp>, PlanError>
    requires |l.ranges| == |bs|
  {
    if ops == [] then Success([])
    else
      match TranslateAll(l, bs, ops[..|ops| - 1])
      case Failure(e) => Failure(e)
      case Success(done) =>
        var o := ops[|ops| - 1];
        match Position(bs, o.key)
        case None => Failure(NoRange(UnknownRange(o.key)))
        case Some(i) =>
          match Translate(o, l.ranges[i], bs[i])
          case Failure(e) => Failure(e)
          case Success(m) => Success(done + [m])
  }

  /** `build_movement_plan`: lay out the distinct blocks in key order, then translate every operation. */
  function Build(bs: seq<BlockInfo>, ops: seq<ScheduleOp>, base: nat, alignment: nat): Result<Plan, PlanError>
    requires alignment > 0
  {
    var unique := PlanBlocks(bs);
    var empty := Layout(base, alignment, []);
    match AddAll(empty, unique)
    case Failure(e) => Failure(NoRange(e))
    case Success(l) =>
      AddAllInvariant(empty, unique);
      match TranslateAll(l, unique, ops)
      case Failure(e) => Failure(e)
      case Success(ms) => Success(Plan(l, ms))
  }

  /** Add the blocks to a new layout, one by one. */
  method LayOut(unique: seq<BlockInfo>, base: nat, alignment: nat) returns (layout: SSDFileLayout, refused: Option<LayoutError>)
    requires alignment > 0
    ensures fresh(layout) && WellLaid(layout.Now())
    ensures AddAll(Layout(base, alignment, []), unique) == if refused.Some? then Failure(refused.value) else Success(layout.Now())
  {
    hide WellLaid, Add;
    layout := new SSDFileLayout(base, alignment);
    ghost var empty := Layout(base, alignment, []);
    var i := 0;
    while i < |unique|
      invariant 0 <= i <= |unique| && fresh(layout) && WellLaid(layout.Now())
      invariant AddAll(empty, unique[..i]) == Success(layout.Now())
    {
      assert unique[..i + 1][..i] == unique[..i];
      var added := layout.AddBlock(unique[i]);
      if added.Failure? {
        AddAllFails(empty, unique, i, added.error);
        return layout, Some(added.error);
      }
      i := i + 1;
    }
    assert unique[..|unique|] == unique;
    refused := None;
  }

  method BuildMovementPlan(blocks: seq<KVBlock>, ops: seq<ScheduleOp>, base: nat, alignment: nat)
    returns (r: Result<Plan, PlanError>)
    requires alignment > 0
    ensures r == Build(InfosOf(blocks), ops, base, alignment)
  {
    hide InfosOf, Dedupe, Sort, AddAll, TranslateAll, WellLaid;
    var distinct := DedupeBlocks(blocks);
    var unique := Sort(InfosOf(distinct), KeyLe);
    var layout, refused := LayOut(unique, base, alignment);
    if refused.Some? {
      return Failure(NoRange(refused.value));
    }
    AddAllInvariant(Layout(base, alignment, []), unique);
    r := TranslateOps(layout, unique, ops);
  }

  /** Once one block is refused the whole sequence is. */
  lemma {:induction false} AddAllFails(l: Layout, bs: seq<BlockInfo>, n: nat, e: LayoutError)
    requires l.alignment > 0 && n < |bs| && AddAll(l, bs[..n + 1]) == Failure(e)
    ensures AddAll(l, bs) == Failure(e)
    decreases |bs|
  {
    if n + 1 < |bs| {
      assert bs[..|bs| - 1][..n + 1] == bs[..n + 1];
      AddAllFails(l, bs[..|bs| - 1], n, e);
    } else {
      assert bs[..n + 1] == bs;
    }
  }

  lemma {:induction false} TranslateFails(l: Layout, bs: seq<BlockInfo>, ops: seq<ScheduleOp>, n: nat, e: PlanError)
    requires |l.ranges| == |bs| && n < |ops| && TranslateAll(l, bs, ops[..n + 1]) == Failure(e)
    ensures TranslateAll(l, bs, ops) == Failure(e)
    decreases |ops|
  {
    if n + 1 < |ops| {
      assert ops[..|ops| - 1][..n + 1] == ops[..n + 1];
      TranslateFails(l, bs, ops[..|ops| - 1], n, e);
    } else {
      assert ops[..n + 1] == ops;
    }
  }

  lemma {:induction false} PositionIs(bs: seq<BlockInfo>, i: nat)
    requires DistinctKeys(bs) && i < |bs|
    ensures Position(bs, bs[i].key) == Some(i)
  {
    assert HasKey(bs, bs[i].key);
  }

  method TranslateOps(layout: SSDFileLayout, unique: seq<BlockInfo>, ops: seq<ScheduleOp>) returns (r: Result<Plan, PlanError>)
    requires WellLaid(layout.Now()) && RangesOf(layout.Now(), unique) && DistinctKeys(unique)
    ensures match TranslateAll(layout.Now(), unique, ops)
      case Failure(e) => r == Failure(e)
      case Success(ms) => r == Success(Plan(layout.Now(), ms))
  {
    var ms: seq<MovementOp> := [];
    var i := 0;
    while i < |ops|
      invariant 0 <= i <= |ops|
      invariant TranslateAll(layout.Now(), unique, ops[..i]) == Success(ms)
    {
      assert ops[..i + 1][..i] == ops[..i];
      var range := layout.FindRange(ops[i].key);
      SameKeys(layout.Now(), unique, ops[i].key);
      if range.Failure? {
        TranslateFails(layout.Now(), unique, ops, i, NoRange(UnknownRange(ops[i].key)));
        return Failure(NoRange(range.error));
      }
      var p := Position(unique, ops[i].key);
      RangeAtPosition(layout.Now(), unique, range.value);
      var m := Translate(ops[i], range.value, unique[p.value]);
      if m.Failure? {
        TranslateFails(layout.Now(), unique, ops, i, m.error);
        return Failure(m.error);
      }
      ms := ms + [m.value];
      i := i + 1;
    }
    assert ops[..|ops|] == ops;
    return Success(Plan(Layout(layout.base, layout.alignment, layout.ranges), ms));
  }

  lemma {:induction false} RangeAtPosition(l: Layout, bs: seq<BlockInfo>, r: SSDRange)
    requires RangesOf(l, bs) && DistinctKeys(bs) && r in l.ranges
    ensures Position(bs, r.key).Some? && l.ranges[Position(bs, r.key).value] == r
  {
    var i :| 0 <= i < |l.ranges| && l.ranges[i] == r;
    PositionIs(bs, i);
  }

  // ---------- commands ----------

  datatype CommandError = InvalidCommand | UnknownLayoutBlock(key: BlockKey) | OffsetMismatch(key: BlockKey) | SizeMismatch(key: BlockKey)

  function ToCommand(m: MovementOp): Command {
    Command(m.op, m.key.layer, m.key.block, m.start, m.end, m.size, m.source, m.target, m.offset, m.blocking)
  }

  function RangeIndex(ranges: seq<SSDRange>, key: BlockKey): (r: Option<nat>)
    ensures r.Some? ==> r.value < |ranges| && ranges[r.value].key == key
    ensures r.None? ==> !HasRange(ranges, key)
  {
    if ranges == [] then None
    else if ranges[|ranges| - 1].key == key then Some(|ranges| - 1)
    else
      assert forall i :: 0 <= i < |ranges| && ranges[i].key == key ==> ranges[..|ranges| - 1][i].key == key;
      RangeIndex(ranges[..|ranges| - 1], key)
  }

  /** Validate one command against the command contract and the layout. */
  function CheckCommand(l: Layout, c: Command): Result<Command, CommandError> {
    if !ValidCommand(c) then Failure(InvalidCommand)
    else match RangeIndex(l.ranges, c.PlanKey())
      case None => Failure(UnknownLayoutBlock(c.PlanKey()))
      case Some(i) =>
        if c.offset != l.ranges[i].offset then Failure(OffsetMismatch(c.PlanKey()))
        else if c.size != l.ranges[i].size then Failure(SizeMismatch(c.PlanKey()))
        else Success(c)
  }

  function CommandsOf(l: Layout, ms: seq<MovementOp>): Result<seq<Command>, CommandError> {
    if ms == [] then Success([])
    else match CommandsOf(l, ms[..|ms| - 1])
      case Failure(e) => Failure(e)
      case Success(cs) =>
        match CheckCommand(l, ToCommand(ms[|ms| - 1]))
        case Failure(e) => Failure(e)
        case Success(c) => Success(cs + [c])
  }

  method CommandsFromMovementPlan(plan: Plan) returns (r: Result<seq<Command>, CommandError>)
    ensures r == CommandsOf(plan.layout, plan.ops)
  {
    var commands: seq<Command> := [];
    var i := 0;
    while i < |plan.ops|
      invariant 0 <= i <= |plan.ops|
      invariant CommandsOf(plan.layout, plan.ops[..i]) == Success(commands)
    {
      assert plan.ops[..i + 1][..i] == plan.ops[..i];
      var c := CheckCommand(plan.layout, ToCommand(plan.ops[i]));
      if c.Failure? {
        CommandsFail(plan.layout, plan.ops, i, c.error);
        return Failure(c.error);
      }
      commands := commands + [c.value];
      i := i + 1;
    }
    assert plan.ops[..|plan.ops|] == plan.ops;
    return Success(commands);
  }

  lemma {:induction false} CommandsFail(l: Layout, ms: seq<MovementOp>, n: nat, e: CommandError)
    requires n < |ms| && CommandsOf(l, ms[..n + 1]) == Failure(e)
    ensures CommandsOf(l, ms) == Failure(e)
    decreases |ms|
  {
    if n + 1 < |ms| {
      assert ms[..|ms| - 1][..n + 1] == ms[..n + 1];
      CommandsFail(l, ms[..|ms| - 1], n, e);
    } else {
      assert ms[..n + 1] == ms;
    }
  }

  /** What each operation name becomes as a command: the block's own range, and the move that the executors
      dispatch on. Tiers in the metadata replace the usual ones. */
  lemma {:induction false} RoutesMean(o: ScheduleOp, r: SSDRange, b: BlockInfo)
    requires Translate(o, r, b).Success?
    ensures var c, plain := ToCommand(Translate(o, r, b).value), o.meta.from.None? && o.meta.to.None? && o.meta.at.None?;
      && c.PlanKey() == o.key && c.Place() == Extent(r.offset, r.size) && c.start == b.start && c.end == b.end
      && (plain ==> ValidCommand(c))
      && (plain && o.name.ScheduleSsdRead? ==> c.op.Load? && c.Moves(SSD, DRAM))
      && (plain && o.name.PrefetchMove? ==> c.op.Prefetch? && c.Moves(SSD, DRAM))
      && (plain && o.name.ScheduleDramToVram? ==> c.op.Load? && c.Moves(DRAM, VRAM))
      && (plain && o.name.EvictToSsd? ==> c.EvictsToSsd() && c.source.VRAM?)
      && (o.name.ScheduleCompute? <==> c.op.Compute?)
      && (!c.op.Compute? && o.meta.from.Some? ==> c.source == o.meta.from.value)
      && (!c.op.Compute? && o.meta.to.Some? ==> c.target == o.meta.to.value)
      && (c.op.Compute? ==> c.source == c.target && (ValidCommand(c) <==> o.meta.at.UnwrapOr(VRAM) == VRAM))
      && c.blocking == (o.meta.blocking == Some(true))
  {
  }
}
