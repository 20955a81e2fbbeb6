/** Movement intents: the bridge's trace is exported as an executable plan, and replaying that plan in the
    seeding executor reproduces the bridge's own work.
 */
module Intents {
  import opened Kv
  import opened Blocks
  import opened Timeline
  import opened SsdLayout
  import opened Pipeline
  import B = BridgeModel
  import BL = BridgeLedger
  import SC = ShadowChains
  import P = Residency
  import L = Ledger

  // ---------- the trace ----------

  /** One line of the bridge trace: the runtime event's interval, and the matched command. */
  datatype TraceEvent = TraceEvent(
    layer: int, block: int, start: int, end: int, op: Op, source: Location, target: Location, size: int, offset: int,
    commandStart: Option<int>, commandEnd: Option<int>, blocking: bool, movementIntent: bool)

  function Traced(c: Command, e: B.Event): TraceEvent {
    TraceEvent(e.layer, e.block, e.start, e.end, c.op, c.source, c.target, c.size, c.offset, Some(c.start), Some(c.end), c.blocking, true)
  }

  function TracedAll(cs: seq<Command>, e: B.Event): (r: seq<TraceEvent>)
    ensures |r| == |cs|
  {
    seq(|cs|, i requires 0 <= i < |cs| => Traced(cs[i], e))
  }

  /** The trace that the bridge writes: one line for each command that each event matches. */
  function Trace(cs: seq<Command>, es: seq<B.Event>): seq<TraceEvent> {
    if es == [] then [] else Trace(cs, es[..|es| - 1]) + TracedAll(SC.Matched(cs, es[|es| - 1]), es[|es| - 1])
  }

  // ---------- the exporter ----------

  datatype IntentError = BadSize | BadOffset | EmptyInterval | RangeConflict(key: BlockKey)

  /** `_movement_op_from_event`. */
  function OpFromEvent(t: TraceEvent): Result<Command, IntentError> {
    var start, end := t.commandStart.UnwrapOr(t.start), t.commandEnd.UnwrapOr(t.end);
    if t.size <= 0 then Failure(BadSize)
    else if t.offset < 0 then Failure(BadOffset)
    else if end <= start then Failure(EmptyInterval)
    else Success(Command(t.op, t.layer, t.block, start, end, t.size, t.source, t.target, t.offset, t.blocking))
  }

  /** `_upsert_layout_range`. */
  function Upsert(ranges: map<BlockKey, Extent>, c: Command): Result<map<BlockKey, Extent>, IntentError> {
    if c.PlanKey() !in ranges then Success(ranges[c.PlanKey() := c.Place()])
    else if ranges[c.PlanKey()] != c.Place() then Failure(RangeConflict(c.PlanKey()))
    else Success(ranges)
  }

  datatype Draft = Draft(ops: seq<Command>, ranges: map<BlockKey, Extent>, skipped: nat)

  /** The export loop over the first `n` trace lines. */
  function ExportUpTo(ts: seq<TraceEvent>, n: nat): Result<Draft, IntentError>
    requires n <= |ts|
  {
    if n == 0 then Success(Draft([], map[], 0))
    else match ExportUpTo(ts, n - 1)
      case Failure(e) => Failure(e)
      case Success(d) =>
        if !ts[n - 1].movementIntent then Success(d.(skipped := d.skipped + 1))
        else match OpFromEvent(ts[n - 1])
          case Failure(e) => Failure(e)
          case Success(c) =>
            match Upsert(d.ranges, c)
            case Failure(e) => Failure(e)
            case Success(ranges) => Success(Draft(d.ops + [c], ranges, d.skipped))
  }

  method ExportMovementIntentPlan(ts: seq<TraceEvent>) returns (r: Result<Draft, IntentError>)
    ensures r == ExportUpTo(ts, |ts|)
  {
    hide OpFromEvent, Upsert;
    var draft := Draft([], map[], 0);
    var n := 0;
    while n < |ts|
      invariant 0 <= n <= |ts| && ExportUpTo(ts, n) == Success(draft)
    {
      if !ts[n].movementIntent {
        draft := draft.(skipped := draft.skipped + 1);
      } else {
        var op := OpFromEvent(ts[n]);
        if op.Failure? {
          ExportFails(ts, n + 1, |ts|);
          return Failure(op.error);
        }
        var ranges := Upsert(draft.ranges, op.value);
        if ranges.Failure? {
          ExportFails(ts, n + 1, |ts|);
          return Failure(ranges.error);
        }
        draft := Draft(draft.ops + [op.value], ranges.value, draft.skipped);
      }
      n := n + 1;
    }
    return Success(draft);
  }

  lemma {:induction false} ExportFails(ts: seq<TraceEvent>, m: nat, n: nat)
    requires m <= n <= |ts| && ExportUpTo(ts, m).Failure?
    ensures ExportUpTo(ts, n) == ExportUpTo(ts, m)
    decreases n
  {
    hide OpFromEvent, Upsert;
    if m < n {
      ExportFails(ts, m, n - 1);
    }
  }

  /** A draft's ranges are those of its operations, one for each block. */
  ghost predicate Charts(d: Draft) {
    && (forall i :: 0 <= i < |d.ops| ==> d.ops[i].PlanKey() in d.ranges && d.ranges[d.ops[i].PlanKey()] == d.ops[i].Place())
    && (forall k :: k in d.ranges ==> exists i :: 0 <= i < |d.ops| && d.ops[i].PlanKey() == k)
  }

  ghost predicate OneExtentEach(cs: seq<Command>) {
    forall i, j :: 0 <= i < |cs| && 0 <= j < |cs| && cs[i].PlanKey() == cs[j].PlanKey() ==> cs[i].Place() == cs[j].Place()
  }

  /** The operations of the intent lines, when all can be read. */
  function OpsOf(ts: seq<TraceEvent>, n: nat): Result<seq<Command>, IntentError>
    requires n <= |ts|
  {
    if n == 0 then Success([])
    else match OpsOf(ts, n - 1)
      case Failure(e) => Failure(e)
      case Success(cs) =>
        if !ts[n - 1].movementIntent then Success(cs)
        else match OpFromEvent(ts[n - 1])
          case Failure(e) => Failure(e)
          case Success(c) => Success(cs + [c])
  }

  lemma {:induction false} ChartsNext(d: Draft, c: Command)
    requires Charts(d)
    ensures var u := Upsert(d.ranges, c);
      && (u.Success? ==> Charts(Draft(d.ops + [c], u.value, d.skipped)))
      && (u.Failure? ==> !OneExtentEach(d.ops + [c]))
  {
    var u := Upsert(d.ranges, c);
    var ops := d.ops + [c];
    assert ops[|d.ops|] == c;
    if u.Success? {
      forall k | k in u.value ensures exists i :: 0 <= i < |ops| && ops[i].PlanKey() == k {
        if k in d.ranges {
          var i :| 0 <= i < |d.ops| && d.ops[i].PlanKey() == k;
          assert ops[i].PlanKey() == k;
        } else {
          assert ops[|d.ops|].PlanKey() == k;
        }
      }
    } else {
      var i :| 0 <= i < |d.ops| && d.ops[i].PlanKey() == c.PlanKey();
      assert ops[i] == d.ops[i];
    }
  }

  /** The export succeeds exactly when every intent line is well formed and each block keeps one range; it
      then lists the operations in order and charts exactly their ranges. */
  lemma {:induction false} ExportExact(ts: seq<TraceEvent>, n: nat)
    requires n <= |ts|
    ensures ExportUpTo(ts, n).Success? <==> OpsOf(ts, n).Success? && OneExtentEach(OpsOf(ts, n).value)
    ensures ExportUpTo(ts, n).Success? ==>
      Charts(ExportUpTo(ts, n).value) && ExportUpTo(ts, n).value.ops == OpsOf(ts, n).value
  {
    hide OpFromEvent, Upsert, OneExtentEach, Charts;
    if n == 0 {
      NothingCharted();
    } else {
      ExportExact(ts, n - 1);
      if ts[n - 1].movementIntent && OpsOf(ts, n - 1).Success? && OpFromEvent(ts[n - 1]).Success? {
        var c := OpFromEvent(ts[n - 1]).value;
        FrontOneExtent(OpsOf(ts, n - 1).value, c);
        if ExportUpTo(ts, n - 1).Success? {
          var d := ExportUpTo(ts, n - 1).value;
          ChartsNext(d, c);
          if Upsert(d.ranges, c).Success? {
            ChartedOneExtent(Draft(d.ops + [c], Upsert(d.ranges, c).value, d.skipped));
          }
        }
      } else if ExportUpTo(ts, n).Success? {
        SkipCharts(ExportUpTo(ts, n - 1).value);
      }
    }
  }

  lemma {:induction false} NothingCharted()
    ensures Charts(Draft([], map[], 0)) && OneExtentEach([])
  {
  }

  lemma {:induction false} SkipCharts(d: Draft)
    ensures Charts(d.(skipped := d.skipped + 1)) <==> Charts(d)
  {
  }

  lemma {:induction false} ChartedOneExtent(d: Draft)
    requires Charts(d)
    ensures OneExtentEach(d.ops)
  {
  }

  lemma {:induction false} FrontOneExtent(cs: seq<Command>, c: Command)
    ensures OneExtentEach(cs + [c]) ==> OneExtentEach(cs)
  {
    if OneExtentEach(cs + [c]) {
      forall i, j | 0 <= i < |cs| && 0 <= j < |cs| && cs[i].PlanKey() == cs[j].PlanKey() ensures cs[i].Place() == cs[j].Place() {
        assert (cs + [c])[i] == cs[i] && (cs + [c])[j] == cs[j];
      }
    }
  }

  /** An intent line that can become an operation: it names bytes and a token interval, its own when the
      command's is not given. */
  predicate WellFormedIntent(t: TraceEvent) {
    && t.size > 0 && t.offset >= 0
    && var end := if t.commandEnd.Some? then t.commandEnd.value else t.end;
       if t.commandStart.Some? then end > t.commandStart.value else end > t.start
  }

  /** The operation repeats what the line says. */
  predicate Says(t: TraceEvent, c: Command) {
    && c.op == t.op && c.layer == t.layer && c.block == t.block && c.size == t.size && c.offset == t.offset
    && c.source == t.source && c.target == t.target && c.blocking == t.blocking
    && (if t.commandStart.Some? then c.start == t.commandStart.value else c.start == t.start)
    && (if t.commandEnd.Some? then c.end == t.commandEnd.value else c.end == t.end)
  }

  lemma {:induction false} OpFromIntent(t: TraceEvent)
    ensures OpFromEvent(t).Success? <==> WellFormedIntent(t)
    ensures OpFromEvent(t).Success? ==> Says(t, OpFromEvent(t).value)
  {
  }

  function IntentsBefore(ts: seq<TraceEvent>, n: nat): nat
    requires n <= |ts|
  {
    if n == 0 then 0 else IntentsBefore(ts, n - 1) + if ts[n - 1].movementIntent then 1 else 0
  }

  ghost predicate AllWellFormed(ts: seq<TraceEvent>, n: nat)
    requires n <= |ts|
  {
    forall i :: 0 <= i < n && ts[i].movementIntent ==> WellFormedIntent(ts[i])
  }

  /** The operations are those of the intent lines, in order. */
  ghost predicate SaysAll(ts: seq<TraceEvent>, n: nat, cs: seq<Command>)
    requires n <= |ts|
  {
    && |cs| == IntentsBefore(ts, n)
    && forall i :: 0 <= i < n && ts[i].movementIntent ==> IntentsBefore(ts, i) < |cs| && Says(ts[i], cs[IntentsBefore(ts, i)])
  }

  lemma {:induction false} OpsExact(ts: seq<TraceEvent>, n: nat)
    requires n <= |ts|
    ensures OpsOf(ts, n).Success? <==> AllWellFormed(ts, n)
    ensures OpsOf(ts, n).Success? ==> SaysAll(ts, n, OpsOf(ts, n).value)
  {
    hide OpFromEvent, WellFormedIntent, Says;
    if n > 0 {
      OpsExact(ts, n - 1);
      OpFromIntent(ts[n - 1]);
    }
  }

  /** The intent lines give each block one range. */
  ghost predicate OneExtentLines(ts: seq<TraceEvent>, n: nat)
    requires n <= |ts|
  {
    forall i, j :: 0 <= i < n && 0 <= j < n && ts[i].movementIntent && ts[j].movementIntent
                   && ts[i].layer == ts[j].layer && ts[i].block == ts[j].block
      ==> ts[i].offset == ts[j].offset && ts[i].size == ts[j].size
  }

  /** The line of the `k`th operation. */
  lemma {:induction false} LineOf(ts: seq<TraceEvent>, n: nat, k: nat) returns (i: nat)
    requires n <= |ts| && k < IntentsBefore(ts, n)
    ensures i < n && ts[i].movementIntent && IntentsBefore(ts, i) == k
  {
    if ts[n - 1].movementIntent && k == IntentsBefore(ts, n - 1) {
      i := n - 1;
    } else {
      i := LineOf(ts, n - 1, k);
    }
  }

  lemma {:induction false} SameExtents(ts: seq<TraceEvent>, n: nat, cs: seq<Command>)
    requires n <= |ts| && SaysAll(ts, n, cs)
    ensures OneExtentEach(cs) <==> OneExtentLines(ts, n)
  {
    if OneExtentLines(ts, n) {
      forall x, y | 0 <= x < |cs| && 0 <= y < |cs| && cs[x].PlanKey() == cs[y].PlanKey() ensures cs[x].Place() == cs[y].Place() {
        var i := LineOf(ts, n, x);
        var j := LineOf(ts, n, y);
      }
    }
  }

  /** Which traces export: every intent line is well formed and the lines give each block one range. The plan
      then says what the intent lines say, in order, and the other lines are counted as skipped. */
  lemma {:induction false} ExportSays(ts: seq<TraceEvent>, n: nat)
    requires n <= |ts|
    ensures ExportUpTo(ts, n).Success? <==> AllWellFormed(ts, n) && OneExtentLines(ts, n)
    ensures ExportUpTo(ts, n).Success? ==>
      var d := ExportUpTo(ts, n).value; SaysAll(ts, n, d.ops) && Charts(d) && |d.ops| + d.skipped == n
  {
    ExportExact(ts, n);
    OpsExact(ts, n);
    SkippedRest(ts, n);
    hide OpFromEvent, Upsert, Charts, OpsOf, ExportUpTo, OneExtentLines;
    if AllWellFormed(ts, n) {
      SameExtents(ts, n, OpsOf(ts, n).value);
    }
  }

  lemma {:induction false} SkippedRest(ts: seq<TraceEvent>, n: nat)
    requires n <= |ts|
    ensures ExportUpTo(ts, n).Success? ==> |ExportUpTo(ts, n).value.ops| + ExportUpTo(ts, n).value.skipped == n
  {
    hide OpFromEvent, Upsert;
    if n > 0 {
      SkippedRest(ts, n - 1);
    }
  }

  // ---------- the bridge's own trace ----------

  ghost predicate Exportable(cs: seq<Command>) {
    Consistent(cs) && forall i :: 0 <= i < |cs| ==> ValidCommand(cs[i])
  }

  lemma {:induction false} OpsAppend(ts: seq<TraceEvent>, us: seq<TraceEvent>, n: nat)
    requires n <= |us| && OpsOf(ts, |ts|).Success?
    ensures OpsOf(ts + us, |ts|) == OpsOf(ts, |ts|)
    ensures OpsOf(ts + us, |ts| + n) == match OpsOf(us, n) case Failure(e) => Failure(e) case Success(cs) => Success(OpsOf(ts, |ts|).value + cs)
  {
    hide OpFromEvent;
    if n == 0 {
      OpsPrefix(ts, us, |ts|);
      assert OpsOf(ts, |ts|).value + [] == OpsOf(ts, |ts|).value;
    } else {
      OpsAppend(ts, us, n - 1);
      assert (ts + us)[|ts| + n - 1] == us[n - 1];
      if OpsOf(us, n).Success? {
        var x, y := OpsOf(ts, |ts|).value, OpsOf(us, n - 1).value;
        assert forall c: Command :: x + y + [c] == x + (y + [c]);
      }
    }
  }

  lemma {:induction false} OpsPrefix(ts: seq<TraceEvent>, us: seq<TraceEvent>, n: nat)
    requires n <= |ts|
    ensures OpsOf(ts + us, n) == OpsOf(ts, n)
  {
    hide OpFromEvent;
    if n == 0 {
    } else {
      OpsPrefix(ts, us, n - 1);
      assert (ts + us)[n - 1] == ts[n - 1];
    }
  }

  /** The lines of one event give back the commands it matched. */
  lemma {:induction false} TracedBack(cs: seq<Command>, e: B.Event, n: nat)
    requires n <= |cs| && forall i :: 0 <= i < |cs| ==> ValidCommand(cs[i]) && B.Matches(cs[i], e)
    ensures OpsOf(TracedAll(cs, e), n) == Success(cs[..n])
  {
    if n == 0 {
    } else {
      TracedBack(cs, e, n - 1);
      assert ValidCommand(cs[n - 1]) && B.Matches(cs[n - 1], e);
      assert OpFromEvent(Traced(cs[n - 1], e)) == Success(cs[n - 1]);
      assert cs[..n] == cs[..n - 1] + [cs[n - 1]];
    }
  }

  /** And so do all lines that one event traces. */
  lemma {:induction false} MatchedBack(cs: seq<Command>, e: B.Event)
    requires Exportable(cs)
    ensures var lines := TracedAll(SC.Matched(cs, e), e); OpsOf(lines, |lines|) == Success(SC.Matched(cs, e))
  {
    var ms := SC.Matched(cs, e);
    forall i | 0 <= i < |ms| ensures ValidCommand(ms[i]) && B.Matches(ms[i], e) {
      BL.MatchedMember(cs, e, i);
    }
    hide OpsOf, SC.Matched, ValidCommand, B.Matches;
    TracedBack(ms, e, |ms|);
    assert ms[..|ms|] == ms;
  }

  lemma {:induction false} TraceBack(cs: seq<Command>, es: seq<B.Event>)
    requires Exportable(cs)
    ensures OpsOf(Trace(cs, es), |Trace(cs, es)|) == Success(BL.Executed(cs, es))
  {
    if es == [] {
    } else {
      var front, e := es[..|es| - 1], es[|es| - 1];
      TraceBack(cs, front);
      var ms := SC.Matched(cs, e);
      MatchedBack(cs, e);
      hide OpsOf, TracedAll, SC.Matched, Exportable;
      OpsAppend(Trace(cs, front), TracedAll(ms, e), |TracedAll(ms, e)|);
    }
  }

  /** Exporting the bridge's trace raises no range conflict, and gives back exactly the commands that the
      bridge executed, with the range of each block that had an event. */
  lemma {:induction false} TraceExports(cs: seq<Command>, es: seq<B.Event>)
    requires Exportable(cs)
    ensures var r := ExportUpTo(Trace(cs, es), |Trace(cs, es)|);
      r.Success? && r.value.ops == BL.Executed(cs, es) && Charts(r.value)
  {
    TraceBack(cs, es);
    ExportExact(Trace(cs, es), |Trace(cs, es)|);
    BL.ExecutedKeeps(cs, es);
    hide Trace, BL.Executed, ExportUpTo, OpsOf, ValidCommand;
  }

  // ---------- replay ----------

  predicate Hits(b: BlockInfo, e: B.Event) {
    b.key == BlockKey(e.layer, e.block) && b.start < e.end && b.end > e.start
  }

  /** The blocks that the event reaches: at most one. */
  ghost function Reached(bs: seq<BlockInfo>, e: B.Event): set<BlockKey> {
    set i | 0 <= i < |bs| && Hits(bs[i], e) :: bs[i].key
  }

  /** The blocks that have had an event. */
  ghost function Touched(bs: seq<BlockInfo>, es: seq<B.Event>): set<BlockKey> {
    if es == [] then {} else Touched(bs, es[..|es| - 1]) + Reached(bs, es[|es| - 1])
  }

  /** Those of them whose chain does not start on SSD. */
  ghost function OffSsd(keys: set<BlockKey>, where: Residency): set<BlockKey> {
    set k | k in keys && k in where && !where[k].SSD?
  }

  ghost function BelowVram(keys: set<BlockKey>, where: Residency): set<BlockKey> {
    set k | k in keys && k in where && !where[k].VRAM?
  }

  lemma {:induction false} WholeChain(b: BlockInfo, offset: int, at: Tier, e: B.Event)
    ensures SC.Matched(Chain(b, offset, at), e) == if Hits(b, e) then Chain(b, offset, at) else []
  {
    var cs := Chain(b, offset, at);
    forall i | 0 <= i < |cs| ensures cs[i].PlanKey() == b.key && cs[i].start == b.start && cs[i].end == b.end {
      ChainMember(b, offset, at, cs[i]);
    }
    hide Chain;
    if Hits(b, e) {
      AllMatched(cs, e);
    } else {
      NoneMatched(cs, e);
    }
  }

  /** An event executes the whole chain of the one block it reaches, or nothing. */
  lemma {:induction false} EventIsChain(bs: seq<BlockInfo>, where: Residency, l: Layout, e: B.Event)
    requires Known(bs, where) && DistinctKeys(bs)
    ensures var ms := SC.Matched(Derived(bs, where, l), e);
      || (ms == [] && Reached(bs, e) == {})
      || exists k :: 0 <= k < |bs| && Reached(bs, e) == {bs[k].key} && ms == Chain(bs[k], OffsetOf(l, bs[k].key), where[bs[k].key])
  {
    hide Chain, OffsetOf;
    if bs == [] {
    } else {
      var front, b := bs[..|bs| - 1], bs[|bs| - 1];
      EventIsChain(front, where, l, e);
      var chain := Chain(b, OffsetOf(l, b.key), where[b.key]);
      MatchedAppend(Derived(front, where, l), chain, e);
      WholeChain(b, OffsetOf(l, b.key), where[b.key], e);
      var x := SC.Matched(Derived(front, where, l), e);
      assert x + [] == x && [] + chain == chain;
      if Hits(b, e) {
        ReachedLast(bs, e);
        OtherBlocksUnmatched(front, where, l, e);
        assert bs[|bs| - 1].key == b.key;
      } else {
        ReachedFront(bs, e);
        if x != [] || Reached(front, e) != {} {
          var k :| 0 <= k < |front| && Reached(front, e) == {front[k].key} && x == Chain(front[k], OffsetOf(l, front[k].key), where[front[k].key]);
          assert bs[k] == front[k];
        }
      }
    }
  }

  lemma {:induction false} ReachedLast(bs: seq<BlockInfo>, e: B.Event)
    requires bs != [] && DistinctKeys(bs) && Hits(bs[|bs| - 1], e)
    ensures Reached(bs, e) == {bs[|bs| - 1].key} && !HasKey(bs[..|bs| - 1], BlockKey(e.layer, e.block))
  {
    forall i | 0 <= i < |bs| - 1 ensures bs[..|bs| - 1][i].key != bs[|bs| - 1].key && !Hits(bs[i], e) {
      assert bs[..|bs| - 1][i] == bs[i];
    }
  }

  lemma {:induction false} ReachedFront(bs: seq<BlockInfo>, e: B.Event)
    requires bs != [] && !Hits(bs[|bs| - 1], e)
    ensures Reached(bs, e) == Reached(bs[..|bs| - 1], e)
  {
    var front := bs[..|bs| - 1];
    forall k ensures k in Reached(bs, e) <==> k in Reached(front, e) {
      if k in Reached(bs, e) {
        var i :| 0 <= i < |bs| && Hits(bs[i], e) && bs[i].key == k;
        assert front[i] == bs[i];
      }
      if k in Reached(front, e) {
        var i :| 0 <= i < |front| && Hits(front[i], e) && front[i].key == k;
        assert bs[i] == front[i];
      }
    }
  }

  /** Repeating the chain of a block that is already resident seeds nothing and moves no block in or out. */
  lemma {:induction false} ChainAgain(l: L.Ledger, b: BlockInfo, offset: int, at: Tier)
    requires b.key in l.vram && (!at.VRAM? ==> b.key in l.dram)
    ensures var r := L.Run(l, Chain(b, offset, at));
      r.seeds == l.seeds && r.dram == l.dram && r.vram == l.vram
  {
    var cs := Chain(b, offset, at);
    assert l.dram + {b.key} == l.dram || at.VRAM?;
    assert l.vram + {b.key} == l.vram;
    assert cs[..1][..0] == [] && L.Run(l, cs[..1]) == L.Step(l, cs[0]);
    if !at.VRAM? {
      assert cs[..2][..1] == cs[..1];
      if at.SSD? {
        assert cs[..3][..2] == cs[..2] && cs[..3] == cs;
      } else {
        assert cs[..2] == cs;
      }
    } else {
      assert cs[..1] == cs;
    }
  }

  /** The ledger of a run in which exactly these blocks have had events. */
  ghost predicate SeededBy(l: L.Ledger, keys: set<BlockKey>, where: Residency) {
    && l.vram == keys && l.dram == BelowVram(keys, where)
    && l.seeds == |OffSsd(keys, where)|
  }

  lemma {:induction false} NewBlock(keys: set<BlockKey>, where: Residency, key: BlockKey)
    requires key in where && key !in keys
    ensures BelowVram(keys + {key}, where) == BelowVram(keys, where) + if where[key].VRAM? then {} else {key}
    ensures |OffSsd(keys + {key}, where)| == |OffSsd(keys, where)| + if where[key].SSD? then 0 else 1
  {
    var below := BelowVram(keys, where) + if where[key].VRAM? then {} else {key};
    assert BelowVram(keys + {key}, where) == below;
    if where[key].SSD? {
      assert OffSsd(keys + {key}, where) == OffSsd(keys, where);
    } else {
      assert OffSsd(keys + {key}, where) == OffSsd(keys, where) + {key};
    }
  }

  lemma {:induction false} ChainSeeds(l: L.Ledger, keys: set<BlockKey>, where: Residency, b: BlockInfo, offset: int)
    requires SeededBy(l, keys, where) && b.key in where
    ensures SeededBy(L.Run(l, Chain(b, offset, where[b.key])), keys + {b.key}, where)
  {
    hide Chain, L.Run;
    var at := where[b.key];
    if b.key in keys {
      assert keys + {b.key} == keys;
      ChainAgain(l, b, offset, at);
    } else {
      assert b.key !in BelowVram(keys, where);
      hide BelowVram, OffSsd;
      L.ChainEffect(l, b, offset, at);
      NewBlock(keys, where, b.key);
    }
  }

  lemma {:induction false} NothingSeeded(where: Residency)
    ensures SeededBy(L.EMPTY, {}, where)
  {
    assert OffSsd({}, where) == {};
  }

  lemma {:induction false} ReplayLedger(bs: seq<BlockInfo>, where: Residency, l: Layout, es: seq<B.Event>)
    requires Known(bs, where) && DistinctKeys(bs)
    ensures SeededBy(L.Run(L.EMPTY, BL.Executed(Derived(bs, where, l), es)), Touched(bs, es), where)
  {
    hide Derived, Chain, SeededBy, L.Step;
    if es == [] {
      NothingSeeded(where);
    } else {
      var front, e := es[..|es| - 1], es[|es| - 1];
      ReplayLedger(bs, where, l, front);
      var done, ms := BL.Executed(Derived(bs, where, l), front), SC.Matched(Derived(bs, where, l), e);
      L.RunAppend(L.EMPTY, done, ms);
      EventIsChain(bs, where, l, e);
      hide L.Run;
      if ms == [] && Reached(bs, e) == {} {
        assert done + [] == done && Touched(bs, front) + {} == Touched(bs, front);
      } else {
        var k :| 0 <= k < |bs| && Reached(bs, e) == {bs[k].key} && ms == Chain(bs[k], OffsetOf(l, bs[k].key), where[bs[k].key]);
        ChainSeeds(L.Run(L.EMPTY, done), Touched(bs, front), where, bs[k], OffsetOf(l, bs[k].key));
      }
    }
  }

  /** Replay of bridge intents. For any scheduler-derived stream and any sequence of runtime events, the
      bridge's trace exports without conflict, and running the exported operations in the seeding executor
      reports no error, leaves exactly the blocks that had an event in VRAM, and seeds one source for each
      of them whose chain does not start on SSD. */
  lemma {:induction false} ReplayIntents(setup: P.Setup, bs: seq<BlockInfo>, where: Residency, l: Layout, pool: seq<BlockInfo>, es: seq<B.Event>)
    requires setup.seed && Compiled(bs, where, l, pool)
    requires var r := ExportUpTo(Trace(Derived(bs, where, l), es), |Trace(Derived(bs, where, l), es)|);
      r.Success? ==> P.LongEnough(setup, r.value.ops)
    ensures var r := ExportUpTo(Trace(Derived(bs, where, l), es), |Trace(Derived(bs, where, l), es)|);
      && r.Success? && P.AllAddressable(r.value.ops)
      && var s := P.Run(setup, P.START, r.value.ops);
         && P.Errors(s.counts) == 0
         && P.Present(s.vram) == Touched(bs, es) && P.Present(s.dram) == BelowVram(Touched(bs, es), where)
         && s.counts.seeds == |OffSsd(Touched(bs, es), where)|
  {
    var cs := Derived(bs, where, l);
    CompiledIsConsistent(bs, where, l, pool);
    TraceExports(cs, es);
    L.DerivedSimple(bs, where, l);
    BL.ExecutedKeeps(cs, es);
    var ops := BL.Executed(cs, es);
    forall i | 0 <= i < |ops| ensures P.Addressable(ops[i]) {
      BL.ExecutedMember(cs, es, i);
      var k :| 0 <= k < |cs| && cs[k] == ops[i];
      assert ValidCommand(cs[k]);
    }
    ReplayLedger(bs, where, l, es);
    hide BL.Executed, Derived, Trace, ExportUpTo, Compiled, Touched, OffSsd, BelowVram;
    P.SeedingRunIsLedger(setup, ops);
  }
}
