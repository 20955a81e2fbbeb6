/** The consumer reads back what the exporter prints: exactly when the numbers fit the C types and the
    metadata repeats the command's own size, which every scheduler-derived plan satisfies.
 */
module CommandRoundTrip {
  import opened Kv
  import opened JsonText
  import opened JsonLine
  import opened CommandParser
  import opened Timeline
  import opened MovementPlan
  import opened Blocks
  import opened SsdLayout
  import opened Pipeline

  // ---------- one field ----------

  lemma {:induction false} ColonSkipped(s: string)
    requires SkipBlanks(s) == s
    ensures var t := ": " + s;
      SkipBlanks(t) == t && t[0] == ':' && SkipBlanks(t[1..]) == s
  {
    var t := ": " + s;
    assert t[0] == ':' && t[1..] == " " + s && t[1..][0] == ' ' && t[1..][1..] == s;
  }

  lemma {:induction false} Unblank(s: string, t: string)
    requires s != [] && !IsBlank(s[0])
    ensures SkipBlanks(s + t) == s + t
  {
    assert (s + t)[0] == s[0];
  }

  /** Member `i` is the first to mention its key. */
  ghost predicate Leads(ms: seq<Member>, i: nat) {
    AllWellformed(ms) && i < |ms| && forall j :: 0 <= j < i ==> !Mentions(ms[j], ms[i].key)
  }

  function ObjectText(ms: seq<Member>): string {
    "{" + Render(ms)
  }

  /** The extractor lands on the value of that member. */
  lemma {:induction false} FieldFound(ms: seq<Member>, i: nat)
    requires Leads(ms, i) && ValueText(ms[i].value) != [] && !IsBlank(ValueText(ms[i].value)[0])
    ensures FieldAfterColon(ObjectText(ms), Text(ms[i].key)) == Some(ValueText(ms[i].value) + (ms[i].sep + Render(ms[i + 1..])))
  {
    hide Text, Render, After, SkipBlanks, Wellformed, Mentions, ValueText;
    FirstOccurrence("{", ms, i);
    Unblank(ValueText(ms[i].value), ms[i].sep + Render(ms[i + 1..]));
    ColonSkipped(ValueText(ms[i].value) + (ms[i].sep + Render(ms[i + 1..])));
  }

  lemma {:induction false} NumberFound(ms: seq<Member>, i: nat, f: Field, n: int)
    requires Leads(ms, i) && ms[i].key == Names(f) && ms[i].value == Bare(Decimal(n))
    ensures LongField(ObjectText(ms), FieldText(f)) == InRange(n)
  {
    assert Decimal(n) != [] && !IsBlank(Decimal(n)[0]);
    assert Wellformed(ms[i]);
    hide Decimal, FieldText, Render, Strtoll, InRange, Mentions;
    FieldFound(ms, i);
    StrtollOfDecimal(n, ms[i].sep + Render(ms[i + 1..]));
  }

  lemma {:induction false} FlagFound(ms: seq<Member>, i: nat, f: Field, v: bool)
    requires Leads(ms, i) && ms[i].key == Names(f) && ms[i].value == Bare(BoolText(v))
    ensures BoolField(ObjectText(ms), FieldText(f)) == Some(v)
  {
    hide FieldText, Render, Mentions;
    FieldFound(ms, i);
    var rest := ms[i].sep + Render(ms[i + 1..]);
    assert BoolText(v) <= BoolText(v) + rest;
    assert !v ==> (BoolText(v) + rest)[0] == 'f' && "true"[0] == 't';
  }

  lemma {:induction false} BodyOf(s: string, t: string)
    requires PlainText(s)
    ensures Body(s + ("\"" + t)) == Some(s)
  {
    var line := s + ("\"" + t);
    assert forall i :: 0 <= i < |s| ==> line[i] == s[i];
    BodyStep(line, |s|);
    assert line[|s|..] == "\"" + t && line[..|s|] == s;
    assert s + [] == s;
  }

  lemma {:induction false} QuotedStart(w: string, rest: string)
    requires PlainText(w)
    ensures var s := Quote(w) + rest;
      Quote(w)[0] == '"' && s[0] == '"' && Body(s[1..]) == Some(w)
  {
    var s := Quote(w) + rest;
    BodyOf(w, rest);
    hide Body;
    assert s[0] == '"' && s[1..] == w + ("\"" + rest);
  }

  /** A quoted text is read back exactly when it and its terminator fit the room. */
  lemma {:induction false} LabelFound(ms: seq<Member>, i: nat, f: Field, l: Label, room: nat)
    requires Leads(ms, i) && ms[i].key == Names(f) && ms[i].value == Said(l)
    ensures StringField(ObjectText(ms), FieldText(f), room) == if |LabelText(l)| < room then Some(LabelText(l)) else None
  {
    hide FieldText, LabelText, Render, Mentions, Wellformed, Body;
    QuotedStart(LabelText(l), ms[i].sep + Render(ms[i + 1..]));
    hide Quote;
    FieldFound(ms, i);
  }

  // ---------- the whole line ----------

  /** The size that the extractor reads: the metadata's, when there is one. */
  function PrintedSize(m: MovementOp): int {
    m.meta.size.UnwrapOr(m.size)
  }

  function Positive(v: Option<int>): Option<int> {
    if v.Some? && v.value <= 0 then None else v
  }

  lemma {:induction false} FieldNames()
    ensures FieldText(OpKey) == "op" && FieldText(LayerId) == "layer_id" && FieldText(BlockId) == "block_id"
    ensures FieldText(StartToken) == "start_token" && FieldText(EndToken) == "end_token" && FieldText(SizeBytes) == "size_bytes"
    ensures FieldText(SourceKey) == "source" && FieldText(TargetKey) == "target" && FieldText(SsdOffset) == "ssd_offset"
    ensures FieldText(Blocking) == "blocking"
  {
  }

  /** The field is not among these members' keys. */
  ghost predicate Lacks(ms: seq<Member>, f: Field) {
    forall i :: 0 <= i < |ms| ==> ms[i].key != Names(f)
  }

  lemma {:induction false} LeadsAfter(a: seq<Member>, b: seq<Member>, i: nat, f: Field)
    requires AllWellformed(a + b) && i < |b| && b[i].key == Names(f) && Lacks(a, f) && Lacks(b[..i], f)
    ensures Leads(a + b, |a| + i)
  {
    hide Wellformed;
    var ms := a + b;
    forall j | 0 <= j < |a| + i ensures !Mentions(ms[j], Names(f)) {
      if j < |a| {
        assert ms[j] == a[j];
      } else {
        assert ms[j] == b[..i][j - |a|];
      }
    }
  }

  lemma {:induction false} LacksJoin(a: seq<Member>, b: seq<Member>, f: Field)
    requires Lacks(a, f) && Lacks(b, f)
    ensures Lacks(a + b, f)
  {
  }

  predicate IsLate(f: Field) {
    f.OpKey? || f.SourceKey? || f.SsdOffset? || f.StartToken? || f.TargetKey?
  }

  lemma {:induction false} LateFields(m: MovementOp, t: Times, f: Field)
    requires Exportable(m, t)
    ensures IsLate(f) || f.SizeBytes? ==> Lacks(Leading(ToCommand(m)), f)
    ensures IsLate(f) ==> Lacks(MetaMembers(m, t), f)
    ensures f.SizeBytes? && ComputeMeta(m.meta) ==> Lacks(MetaMembers(m, t), f)
    ensures MoveMeta(m.meta) ==> MetaMembers(m, t)[7] == Number(SizeBytes, m.meta.size.value) && Lacks(MetaMembers(m, t)[..7], SizeBytes)
  {
    hide Decimal, BoolText, TierWord, NameWord, PlainText;
  }

  lemma {:induction false} LeadingPositions(c: Command, rest: seq<Member>)
    requires AllWellformed(Leading(c) + rest)
    ensures var ms := Leading(c) + rest; Leads(ms, 0) && Leads(ms, 1) && Leads(ms, 2) && Leads(ms, 3)
  {
    hide Decimal, BoolText, TierWord, Wellformed;
    var ms := Leading(c) + rest;
    assert forall j :: 0 <= j < 4 ==> ms[j] == Leading(c)[j];
  }

  lemma {:induction false} TrailingKeys(c: Command, end: string)
    ensures var b := Trailing(c, end);
      && |b| == 7 && b[0].key == Names(OpKey) && b[1].key == Names(SizeBytes) && b[2].key == Names(SourceKey)
      && b[3].key == Names(SsdOffset) && b[4].key == Names(StartToken) && b[5].key == Names(TargetKey)
      && Lacks(b[..0], OpKey) && Lacks(b[..1], SizeBytes) && Lacks(b[..2], SourceKey) && Lacks(b[..3], SsdOffset)
      && Lacks(b[..4], StartToken) && Lacks(b[..5], TargetKey)
  {
    hide Decimal, OpWord, TierWord;
  }

  /** The position of the first member after the metadata. */
  function MetaEnd(m: MovementOp): nat {
    if MoveMeta(m.meta) then 15 else 14
  }

  lemma {:induction false} Sizes(m: MovementOp, t: Times)
    requires MoveMeta(m.meta) || ComputeMeta(m.meta)
    ensures |Leading(ToCommand(m))| == 6 && |Leading(ToCommand(m)) + MetaMembers(m, t)| == MetaEnd(m)
  {
    hide Decimal, BoolText, TierWord, NameWord;
  }

  lemma {:induction false} EarlyPositions(m: MovementOp, t: Times, end: string)
    requires Exportable(m, t) && LineEnd(end)
    ensures var ms := Members(m, t, end); |ms| > 3 && Leads(ms, 0) && Leads(ms, 1) && Leads(ms, 2) && Leads(ms, 3)
  {
    MembersWellformed(m, t, end);
    Sizes(m, t);
    var c := ToCommand(m);
    hide Leading, MetaMembers, Trailing, Leads, AllWellformed, Exportable;
    assert Members(m, t, end) == Leading(c) + (MetaMembers(m, t) + Trailing(c, end));
    LeadingPositions(c, MetaMembers(m, t) + Trailing(c, end));
  }

  lemma {:induction false} LatePositions(m: MovementOp, t: Times, end: string)
    requires Exportable(m, t) && LineEnd(end)
    ensures var ms, k := Members(m, t, end), MetaEnd(m);
      |ms| == k + 7 && Leads(ms, k) && Leads(ms, k + 2) && Leads(ms, k + 3) && Leads(ms, k + 4) && Leads(ms, k + 5)
  {
    MembersWellformed(m, t, end);
    Sizes(m, t);
    var c := ToCommand(m);
    var a, d := Leading(c) + MetaMembers(m, t), Trailing(c, end);
    TrailingKeys(c, end);
    forall f: Field | IsLate(f) ensures Lacks(a, f) {
      LateFields(m, t, f);
      LacksJoin(Leading(c), MetaMembers(m, t), f);
    }
    hide Lacks, Leads, AllWellformed, Leading, MetaMembers, Trailing, Exportable;
    LeadsAfter(a, d, 0, OpKey);
    LeadsAfter(a, d, 2, SourceKey);
    LeadsAfter(a, d, 3, SsdOffset);
    LeadsAfter(a, d, 4, StartToken);
    LeadsAfter(a, d, 5, TargetKey);
  }

  function SizePosition(m: MovementOp): nat {
    if MoveMeta(m.meta) then 13 else 15
  }

  lemma {:induction false} SizeLeads(m: MovementOp, t: Times, end: string)
    requires Exportable(m, t) && LineEnd(end)
    ensures Leads(Members(m, t, end), SizePosition(m))
  {
    MembersWellformed(m, t, end);
    Sizes(m, t);
    TrailingKeys(ToCommand(m), end);
    LateFields(m, t, SizeBytes);
    var a, b, d := Leading(ToCommand(m)), MetaMembers(m, t), Trailing(ToCommand(m), end);
    if MoveMeta(m.meta) {
      assert |b| == 9 && b[7].key == Names(SizeBytes);
      hide Lacks, Leads, AllWellformed, Leading, MetaMembers, Trailing, Exportable;
      assert Members(m, t, end) == a + (b + d);
      assert (b + d)[..7] == b[..7];
      LeadsAfter(a, b + d, 7, SizeBytes);
    } else {
      hide Lacks, Leads, AllWellformed, Leading, MetaMembers, Trailing, Exportable;
      LacksJoin(a, b, SizeBytes);
      LeadsAfter(a + b, d, 1, SizeBytes);
    }
  }

  lemma {:induction false} EarlyFields(m: MovementOp, t: Times, end: string)
    requires Exportable(m, t) && LineEnd(end)
    ensures var line := Line(m, t, end);
      && LongField(line, FieldText(BlockId)) == InRange(m.key.block) && LongField(line, FieldText(LayerId)) == InRange(m.key.layer)
      && LongField(line, FieldText(EndToken)) == InRange(m.end) && BoolField(line, FieldText(Blocking)) == Some(m.blocking)
  {
    EarlyPositions(m, t, end);
    hide Render, LongField, FieldText, LabelText, Decimal, InRange, OpWord, TierWord, BoolField, Leads;
    var ms := Members(m, t, end);
    assert Line(m, t, end) == ObjectText(ms);
    NumberFound(ms, 0, BlockId, m.key.block);
    FlagFound(ms, 1, Blocking, m.blocking);
    NumberFound(ms, 2, EndToken, m.end);
    NumberFound(ms, 3, LayerId, m.key.layer);
  }

  lemma {:induction false} SizeFound(m: MovementOp, t: Times, end: string)
    requires Exportable(m, t) && LineEnd(end)
    ensures LongField(Line(m, t, end), FieldText(SizeBytes)) == InRange(PrintedSize(m))
  {
    SizeLeads(m, t, end);
    hide Render, LongField, FieldText, LabelText, Decimal, InRange, OpWord, TierWord, Leads;
    var ms := Members(m, t, end);
    assert Line(m, t, end) == ObjectText(ms);
    NumberFound(ms, SizePosition(m), SizeBytes, PrintedSize(m));
  }

  lemma {:induction false} LateFieldsFound(m: MovementOp, t: Times, end: string)
    requires Exportable(m, t) && LineEnd(end)
    ensures var line := Line(m, t, end);
      && StringField(line, FieldText(OpKey), 32) == Some(LabelText(OpWord(m.op)))
      && StringField(line, FieldText(SourceKey), 16) == Some(LabelText(TierWord(m.source)))
      && StringField(line, FieldText(TargetKey), 16) == Some(LabelText(TierWord(m.target)))
      && LongField(line, FieldText(SsdOffset)) == InRange(m.offset) && LongField(line, FieldText(StartToken)) == InRange(m.start)
  {
    LatePositions(m, t, end);
    assert |LabelText(OpWord(m.op))| < 16 && |LabelText(TierWord(m.source))| < 16 && |LabelText(TierWord(m.target))| < 16;
    hide Render, LongField, StringField, FieldText, LabelText, Decimal, InRange, OpWord, TierWord, Leads;
    var ms, k := Members(m, t, end), MetaEnd(m);
    assert Line(m, t, end) == ObjectText(ms);
    LabelFound(ms, k, OpKey, OpWord(m.op), 32);
    LabelFound(ms, k + 2, SourceKey, TierWord(m.source), 16);
    NumberFound(ms, k + 3, SsdOffset, m.offset);
    NumberFound(ms, k + 4, StartToken, m.start);
    LabelFound(ms, k + 5, TargetKey, TierWord(m.target), 16);
  }

  lemma {:induction false} LineFields(m: MovementOp, t: Times, end: string)
    requires Exportable(m, t) && LineEnd(end)
    ensures var c := ToCommand(m);
      ReadFields(Line(m, t, end)) == Fields(
        Some(LabelText(OpWord(c.op))), InRange(c.layer), InRange(c.block), InRange(c.start), InRange(c.end),
        Positive(InRange(PrintedSize(m))), Some(LabelText(TierWord(c.source))), Some(LabelText(TierWord(c.target))),
        InRange(c.offset), Some(c.blocking))
  {
    FieldNames();
    EarlyFields(m, t, end);
    SizeFound(m, t, end);
    LateFieldsFound(m, t, end);
    hide Line, LongField, StringField, FieldText, LabelText, InRange, OpWord, TierWord, BoolField;
  }

  // ---------- the round trip ----------

  /** Every number that the extractor reads is a `long long`. */
  predicate Readable(m: MovementOp) {
    && m.key.layer <= LLONG_MAX && m.key.block <= LLONG_MAX && m.start <= LLONG_MAX && m.end <= LLONG_MAX
    && m.offset <= LLONG_MAX && 0 < PrintedSize(m) <= LLONG_MAX
  }

  lemma {:induction false} LabelsApart()
    ensures "kv_load" != "kv_prefetch" && "kv_load" != "kv_compute" && "kv_load" != "kv_evict"
    ensures "kv_prefetch" != "kv_compute" && "kv_prefetch" != "kv_evict" && "kv_compute" != "kv_evict"
    ensures "ssd" != "dram" && "ssd" != "vram" && "dram" != "vram"
  {
    assert "dram"[0] == 'd' && "vram"[0] == 'v';
  }

  lemma {:induction false} WordsBack(c: Command)
    requires ValidCommand(c)
    ensures OpOf(LabelText(OpWord(c.op))) == c.op
    ensures LocationOf(LabelText(TierWord(c.source))) == c.source && LocationOf(LabelText(TierWord(c.target))) == c.target
  {
    OpBack(c.op);
    TierBack(c.source);
    TierBack(c.target);
    hide LabelText, OpWord, TierWord, OpOf, LocationOf;
  }

  lemma {:induction false} OpBack(op: Op)
    requires !op.OtherOp?
    ensures OpOf(LabelText(OpWord(op))) == op
  {
    LabelsApart();
  }

  lemma {:induction false} TierBack(l: Location)
    requires !l.Elsewhere?
    ensures LocationOf(LabelText(TierWord(l))) == l
  {
    LabelsApart();
  }

  /** What the consumer makes of an exported line: all ten fields, the layer and the block cut to `int`
      and the size taken from the metadata; a line with a number outside `long long` is refused. */
  lemma {:induction false} ParseOfLine(m: MovementOp, t: Times, end: string)
    requires Exportable(m, t) && LineEnd(end)
    ensures ParseLine(Line(m, t, end)) ==
      if Readable(m)
      then Some(ToCommand(m).(layer := AsInt(m.key.layer), block := AsInt(m.key.block), size := PrintedSize(m)))
      else None
  {
    LineFields(m, t, end);
    WordsBack(ToCommand(m));
    hide Line, ReadFields, LabelText, OpWord, TierWord, OpOf, LocationOf, AsInt;
  }

  /** The numbers fit the consumer's types, and the metadata repeats the size. */
  predicate FitsC(m: MovementOp) {
    Readable(m) && m.key.layer <= 0x7fff_ffff && m.key.block <= 0x7fff_ffff && PrintedSize(m) == m.size
  }

  /** The round trip: the consumer gets the exporter's command exactly when the numbers fit. */
  lemma {:induction false} RoundTrip(m: MovementOp, t: Times, end: string)
    requires Exportable(m, t) && LineEnd(end)
    ensures ParseLine(Line(m, t, end)) == Some(ToCommand(m)) <==> FitsC(m)
  {
    ParseOfLine(m, t, end);
    hide ParseLine, Line;
    assert 0 <= m.key.layer && 0 <= m.key.block;
    CutInt(m.key.layer);
    CutInt(m.key.block);
  }

  lemma {:induction false} CutInt(x: int)
    requires x >= 0
    ensures AsInt(x) == x <==> x <= 0x7fff_ffff
  {
  }

  // ---------- whole files ----------

  /** The exported file: one line for each operation. */
  function FileText(ms: seq<MovementOp>, ts: seq<Times>): string
    requires |ms| == |ts| && forall i :: 0 <= i < |ms| ==> MoveMeta(ms[i].meta) || ComputeMeta(ms[i].meta)
  {
    if ms == [] then "" else Line(ms[0], ts[0], "}\n") + FileText(ms[1..], ts[1..])
  }

  ghost predicate AllExportable(ms: seq<MovementOp>, ts: seq<Times>) {
    |ms| == |ts| && forall i :: 0 <= i < |ms| ==> Exportable(ms[i], ts[i])
  }

  function ToCommands(ms: seq<MovementOp>): seq<Command> {
    if ms == [] then [] else [ToCommand(ms[0])] + ToCommands(ms[1..])
  }

  ghost predicate AllFitC(ms: seq<MovementOp>) {
    forall i :: 0 <= i < |ms| ==> FitsC(ms[i])
  }

  lemma {:induction false} NextLineOf(s: string, rest: string)
    requires s != [] && s[|s| - 1] == '\n' && LineText(s[..|s| - 1])
    ensures NextLine(s + rest) == s && CText(s) == s
  {
    if |s| > 1 {
      assert LineChar(s[..|s| - 1][0]);
      assert (s + rest)[1..] == s[1..] + rest && s[1..][..|s| - 2] == s[..|s| - 1][1..];
      NextLineOf(s[1..], rest);
      assert [s[0]] + s[1..] == s;
    } else {
      assert (s + rest)[0] == '\n' && s == ['\n'] && s[1..] == [];
    }
  }

  /** One line of the file is one command, or the file is refused. */
  lemma {:induction false} LoadStep(m: MovementOp, t: Times, rest: string)
    requires Exportable(m, t)
    ensures LoadText(Line(m, t, "}\n") + rest) ==
      match ParseLine(Line(m, t, "}\n"))
      case None => None
      case Some(c) => Prepend([c], LoadText(rest))
  {
    var line := Line(m, t, "}\n");
    LineIsOneLine(m, t);
    NextLineOf(line, rest);
    assert line[0] == '{';
    assert (line + rest)[|line|..] == rest;
    hide ParseLine, Line;
  }

  /** The file round trip: the consumer loads exactly the exported commands if and only if all fit. */
  lemma {:induction false} FileRoundTrip(ms: seq<MovementOp>, ts: seq<Times>)
    requires AllExportable(ms, ts)
    ensures LoadText(FileText(ms, ts)) == Some(ToCommands(ms)) <==> AllFitC(ms)
  {
    if ms == [] {
    } else {
      forall i | 0 <= i < |ms| - 1 ensures Exportable(ms[1..][i], ts[1..][i]) {
        assert Exportable(ms[i + 1], ts[i + 1]);
      }
      assert Exportable(ms[0], ts[0]);
      FileRoundTrip(ms[1..], ts[1..]);
      LoadStep(ms[0], ts[0], FileText(ms[1..], ts[1..]));
      RoundTrip(ms[0], ts[0], "}\n");
      AllFitSplit(ms);
      hide LoadText, Line, ParseLine, ToCommand, FitsC, Exportable;
      var tail := LoadText(FileText(ms[1..], ts[1..]));
      var head := ParseLine(Line(ms[0], ts[0], "}\n"));
      if head.Some? && tail.Some? {
        ConsEqual(head.value, tail.value, ToCommand(ms[0]), ToCommands(ms[1..]));
      }
    }
  }

  lemma {:induction false} AllFitSplit(ms: seq<MovementOp>)
    requires ms != []
    ensures AllFitC(ms) <==> FitsC(ms[0]) && AllFitC(ms[1..])
  {
    hide FitsC;
    if FitsC(ms[0]) && AllFitC(ms[1..]) {
      forall i | 0 <= i < |ms| ensures FitsC(ms[i]) {
        if i > 0 {
          assert ms[1..][i - 1] == ms[i];
        }
      }
    }
  }

  lemma {:induction false} ConsEqual(a: Command, x: seq<Command>, b: Command, y: seq<Command>)
    ensures [a] + x == [b] + y <==> a == b && x == y
  {
    assert ([a] + x)[0] == a && ([b] + y)[0] == b;
    assert ([a] + x)[1..] == x && ([b] + y)[1..] == y;
  }

  // ---------- scheduler-derived plans ----------

  /** The scheduler's metadata on an operation of block `b`. */
  predicate ScheduledOp(o: ScheduleOp, b: BlockInfo) {
    && o.key == b.key && !o.name.OtherSchedule?
    && ((MoveMeta(o.meta) && o.meta.size.value == b.size && !o.meta.from.value.Elsewhere? && !o.meta.to.value.Elsewhere?)
        || (ComputeMeta(o.meta) && !o.meta.at.value.Elsewhere?))
  }

  lemma {:induction false} OpsMember(bs: seq<BlockInfo>, where: Residency, now: real, lat: Latencies, i: nat) returns (k: nat)
    requires Known(bs, where) && i < |Ops(bs, where, now, lat)|
    ensures k < |bs| && ScheduledOp(Ops(bs, where, now, lat)[i], bs[k])
  {
    var front := bs[..|bs| - 1];
    if i < |Ops(front, where, now, lat)| {
      k := OpsMember(front, where, now, lat, i);
    } else {
      k := |bs| - 1;
    }
  }

  lemma {:induction false} TranslatedLength(l: Layout, u: seq<BlockInfo>, ops: seq<ScheduleOp>)
    requires |l.ranges| == |u| && TranslateAll(l, u, ops).Success?
    ensures |TranslateAll(l, u, ops).value| == |ops|
  {
    hide Translate, Position;
    if ops == [] {
    } else {
      TranslatedLength(l, u, ops[..|ops| - 1]);
    }
  }

  lemma {:induction false} TranslatedIs(l: Layout, u: seq<BlockInfo>, ops: seq<ScheduleOp>, i: nat)
    requires |l.ranges| == |u| && TranslateAll(l, u, ops).Success? && i < |ops|
    ensures |TranslateAll(l, u, ops).value| == |ops|
    ensures var p := Position(u, ops[i].key);
      p.Some? && Translate(ops[i], l.ranges[p.value], u[p.value]) == Success(TranslateAll(l, u, ops).value[i])
  {
    hide Translate, Position;
    var front := ops[..|ops| - 1];
    if i < |front| {
      TranslatedIs(l, u, front, i);
    } else {
      TranslatedLength(l, u, front);
    }
    TranslatedLength(l, u, ops);
  }

  lemma {:induction false} CommandsAreOps(l: Layout, ms: seq<MovementOp>)
    requires CommandsOf(l, ms).Success?
    ensures CommandsOf(l, ms).value == ToCommands(ms) && forall i :: 0 <= i < |ms| ==> ValidCommand(ToCommand(ms[i]))
  {
    if ms == [] {
    } else {
      CommandsAreOps(l, ms[..|ms| - 1]);
      ToCommandsLast(ms);
    }
  }

  lemma {:induction false} ToCommandsLast(ms: seq<MovementOp>)
    requires ms != []
    ensures ToCommands(ms) == ToCommands(ms[..|ms| - 1]) + [ToCommand(ms[|ms| - 1])]
  {
    hide ToCommand;
    if |ms| > 1 {
      ToCommandsLast(ms[1..]);
      assert ms[1..][..|ms| - 2] == ms[..|ms| - 1][1..];
    }
  }

  predicate PlainTimes(t: Times) {
    PlainText(t.start) && PlainText(t.end) && PlainText(t.duration)
  }

  /** Every operation of a compiled plan can be exported, and its metadata repeats its own size. */
  lemma {:induction false} CompiledExportable(l: Layout, u: seq<BlockInfo>, bs: seq<BlockInfo>, where: Residency, now: real, lat: Latencies,
                                              ms: seq<MovementOp>, i: nat, t: Times)
    requires LaysOut(l, u) && Known(bs, where) && Within(bs, u) && TranslateAll(l, u, Ops(bs, where, now, lat)) == Success(ms)
    requires i < |ms| && ValidCommand(ToCommand(ms[i])) && PlainTimes(t)
    ensures Exportable(ms[i], t) && PrintedSize(ms[i]) == ms[i].size
  {
    var ops := Ops(bs, where, now, lat);
    TranslatedLength(l, u, ops);
    TranslatedIs(l, u, ops, i);
    hide TranslateAll, Ops, PlainText;
    var k := OpsMember(bs, where, now, lat, i);
    var p := Position(u, ops[i].key).value;
    assert bs[k] in u;
    var q :| 0 <= q < |u| && u[q] == bs[k];
    assert p == q;
    assert l.ranges[p].size == bs[k].size;
  }

  /** The command's numbers fit the consumer's types. */
  predicate Fits(c: Command) {
    && c.layer <= 0x7fff_ffff && c.block <= 0x7fff_ffff
    && c.start <= LLONG_MAX && c.end <= LLONG_MAX && c.size <= LLONG_MAX && c.offset <= LLONG_MAX
  }

  lemma {:induction false} ToCommandsAt(ms: seq<MovementOp>, i: nat)
    requires i < |ms|
    ensures |ToCommands(ms)| == |ms| && ToCommands(ms)[i] == ToCommand(ms[i])
  {
    hide ToCommand;
    if i > 0 {
      ToCommandsAt(ms[1..], i - 1);
    } else if |ms| > 1 {
      ToCommandsAt(ms[1..], 0);
    }
  }

  /** The compiler's plan for a timeline, and the commands it stands for. */
  ghost predicate PlanFor(plan: Plan, u: seq<BlockInfo>, bs: seq<BlockInfo>, where: Residency, now: real, lat: Latencies)
    requires Known(bs, where)
  {
    && LaysOut(plan.layout, u) && Within(bs, u)
    && TranslateAll(plan.layout, u, Ops(bs, where, now, lat)) == Success(plan.ops)
    && CommandsOf(plan.layout, plan.ops) == Success(Derived(bs, where, plan.layout))
  }

  lemma {:induction false} BuildsPlan(pool: seq<BlockInfo>, bs: seq<BlockInfo>, where: Residency, now: real, lat: Latencies,
                                      base: nat, alignment: nat)
    requires alignment > 0 && ValidLatencies(lat) && PoolValid(Dedupe(pool))
    requires Known(bs, where) && Within(bs, Dedupe(pool))
    ensures var r := Build(pool, Ops(bs, where, now, lat), base, alignment);
      r.Success? && PlanFor(r.value, PlanBlocks(pool), bs, where, now, lat)
  {
    CompileSucceeds(pool, bs, where, now, lat, base, alignment);
    PlanBlocksSorted(pool);
    var u := PlanBlocks(pool);
    AddAllInvariant(Layout(base, alignment, []), u);
    hide PlanBlocks, Dedupe, Derived, Ops, CommandsOf, TranslateAll, AddAll, LaysOut;
    forall i | 0 <= i < |bs| ensures bs[i] in u {
    }
  }

  lemma {:induction false} PlanFits(plan: Plan, u: seq<BlockInfo>, bs: seq<BlockInfo>, where: Residency, now: real, lat: Latencies, ts: seq<Times>)
    requires Known(bs, where) && PlanFor(plan, u, bs, where, now, lat)
    requires |ts| == |plan.ops| && forall i :: 0 <= i < |ts| ==> PlainTimes(ts[i])
    ensures AllExportable(plan.ops, ts) && ToCommands(plan.ops) == Derived(bs, where, plan.layout)
    ensures AllFitC(plan.ops) <==> forall i :: 0 <= i < |Derived(bs, where, plan.layout)| ==> Fits(Derived(bs, where, plan.layout)[i])
  {
    var ms, cs := plan.ops, Derived(bs, where, plan.layout);
    CommandsAreOps(plan.layout, ms);
    hide CommandsOf, TranslateAll, LaysOut, Derived, Ops, Within, Exportable, ToCommands, PlainTimes, ValidCommand;
    assert |cs| == |ms| by {
      if ms != [] {
        ToCommandsAt(ms, 0);
      } else {
        NoCommands(ms);
      }
    }
    forall i | 0 <= i < |ms| ensures Exportable(ms[i], ts[i]) && (FitsC(ms[i]) <==> Fits(cs[i])) {
      CompiledExportable(plan.layout, u, bs, where, now, lat, ms, i, ts[i]);
      ToCommandsAt(ms, i);
      SameFit(ms[i], ts[i]);
    }
    hide FitsC, Fits;
  }

  lemma {:induction false} NoCommands(ms: seq<MovementOp>)
    requires ms == []
    ensures ToCommands(ms) == []
  {
  }

  lemma {:induction false} SameFit(m: MovementOp, t: Times)
    requires Exportable(m, t) && PrintedSize(m) == m.size
    ensures FitsC(m) <==> Fits(ToCommand(m))
  {
  }

  /** Exporting the plan of any scheduler timeline and loading the file gives back the very command
      stream, if and only if its numbers fit the consumer's types. */
  lemma {:induction false} CompiledFileRoundTrip(pool: seq<BlockInfo>, bs: seq<BlockInfo>, where: Residency, now: real, lat: Latencies,
                                                 base: nat, alignment: nat, ts: seq<Times>)
    requires alignment > 0 && ValidLatencies(lat) && PoolValid(Dedupe(pool))
    requires Known(bs, where) && Within(bs, Dedupe(pool))
    requires var r := Build(pool, Ops(bs, where, now, lat), base, alignment); r.Success? ==> |ts| == |r.value.ops|
    requires forall i :: 0 <= i < |ts| ==> PlainTimes(ts[i])
    ensures var r := Build(pool, Ops(bs, where, now, lat), base, alignment);
      && r.Success? && AllExportable(r.value.ops, ts)
      && var cs := Derived(bs, where, r.value.layout);
         (LoadText(FileText(r.value.ops, ts)) == Some(cs) <==> forall i :: 0 <= i < |cs| ==> Fits(cs[i]))
  {
    hide PlanFor, Exportable, Fits, FitsC, LoadText, Derived, Ops, Build, PlanBlocks;
    BuildsPlan(pool, bs, where, now, lat, base, alignment);
    var plan := Build(pool, Ops(bs, where, now, lat), base, alignment).value;
    PlanFits(plan, PlanBlocks(pool), bs, where, now, lat, ts);
    FileRoundTrip(plan.ops, ts);
  }
}
