/** The exported command line: a JSON object with sorted keys, as a stream of quoted words and the gaps
    between them, and what the first-occurrence field search finds in it.
 */
module JsonLine {
  import opened Kv
  import opened JsonText
  import opened Timeline
  import opened MovementPlan

  // ---------- words ----------

  predicate Plain(c: char) {
    c != '"' && c != '\\' && c != '\n' && c as int != 0
  }

  /** No quote, escape, line end or terminator. */
  predicate PlainText(s: string) {
    forall i :: 0 <= i < |s| ==> Plain(s[i])
  }

  predicate IsLower(c: char) {
    'a' <= c <= 'z'
  }

  predicate WordLike(s: string) {
    s != [] && IsLower(s[0]) && PlainText(s)
  }

  type WordText = s: string | WordLike(s) witness "a"

  const CONTRACT: WordText := "solidattention.llama_cpp.kv_command.v1"
  const DRAM_TO_VRAM: WordText := "schedule_dram_to_vram"
  const SSD_READ: WordText := "schedule_ssd_read"

  /** The keys of an exported command. */
  datatype Field =
    | BlockId | Blocking | EndToken | LayerId | LocationKey | Metadata | OpKey | SizeBytes | SourceKey | SsdOffset
    | StartToken | TargetKey | TokenCount

  /** The further keys of its metadata. */
  datatype Detail =
    | FromLocation | MovementDuration | MovementEnd | MovementStart | RuntimeContract | SchedulerOp | Simulated | ToLocation

  /** The string values. */
  datatype Label =
    | KvLoad | KvPrefetch | KvCompute | KvEvict | SsdTier | DramTier | VramTier | ContractV1
    | SsdReadName | DramToVramName | ComputeName | PrefetchName | EvictName

  datatype Word = Names(field: Field) | Details(detail: Detail) | Says(value: Label)

  function FieldText(w: Field): WordText {
    match w
    case BlockId => "block_id"
    case Blocking => "blocking"
    case EndToken => "end_token"
    case LayerId => "layer_id"
    case LocationKey => "location"
    case Metadata => "metadata"
    case OpKey => "op"
    case SizeBytes => "size_bytes"
    case SourceKey => "source"
    case SsdOffset => "ssd_offset"
    case StartToken => "start_token"
    case TargetKey => "target"
    case TokenCount => "token_count"
  }

  function DetailText(w: Detail): WordText {
    match w
    case FromLocation => "from_location"
    case MovementDuration => "movement_duration_ms"
    case MovementEnd => "movement_end_ms"
    case MovementStart => "movement_start_ms"
    case RuntimeContract => "runtime_contract"
    case SchedulerOp => "scheduler_op"
    case Simulated => "simulated_attention"
    case ToLocation => "to_location"
  }

  function LabelText(w: Label): WordText {
    match w
    case KvLoad => "kv_load"
    case KvPrefetch => "kv_prefetch"
    case KvCompute => "kv_compute"
    case KvEvict => "kv_evict"
    case SsdTier => "ssd"
    case DramTier => "dram"
    case VramTier => "vram"
    case ContractV1 => CONTRACT
    case SsdReadName => SSD_READ
    case DramToVramName => DRAM_TO_VRAM
    case ComputeName => "schedule_compute"
    case PrefetchName => "prefetch_move"
    case EvictName => "evict_to_ssd"
  }

  function Text(w: Word): WordText {
    match w
    case Names(f) => FieldText(f)
    case Details(d) => DetailText(d)
    case Says(l) => LabelText(l)
  }

  /** Length, first and sixth character: enough to tell all words apart. */
  function Fingerprint(s: string): (int, int, int) {
    (|s|, if s == [] then 0 else s[0] as int, if |s| <= 5 then 0 else s[5] as int)
  }

  function FieldPrint(w: Field): (int, int, int) {
    match w
    case BlockId => (8, 'b' as int, '_' as int)
    case Blocking => (8, 'b' as int, 'i' as int)
    case EndToken => (9, 'e' as int, 'o' as int)
    case LayerId => (8, 'l' as int, '_' as int)
    case LocationKey => (8, 'l' as int, 'i' as int)
    case Metadata => (8, 'm' as int, 'a' as int)
    case OpKey => (2, 'o' as int, 0)
    case SizeBytes => (10, 's' as int, 'b' as int)
    case SourceKey => (6, 's' as int, 'e' as int)
    case SsdOffset => (10, 's' as int, 'f' as int)
    case StartToken => (11, 's' as int, '_' as int)
    case TargetKey => (6, 't' as int, 't' as int)
    case TokenCount => (11, 't' as int, '_' as int)
  }

  function DetailPrint(w: Detail): (int, int, int) {
    match w
    case FromLocation => (13, 'f' as int, 'l' as int)
    case MovementDuration => (20, 'm' as int, 'e' as int)
    case MovementEnd => (15, 'm' as int, 'e' as int)
    case MovementStart => (17, 'm' as int, 'e' as int)
    case RuntimeContract => (16, 'r' as int, 'm' as int)
    case SchedulerOp => (12, 's' as int, 'u' as int)
    case Simulated => (19, 's' as int, 'a' as int)
    case ToLocation => (11, 't' as int, 'c' as int)
  }

  function LabelPrint(w: Label): (int, int, int) {
    match w
    case KvLoad => (7, 'k' as int, 'a' as int)
    case KvPrefetch => (11, 'k' as int, 'e' as int)
    case KvCompute => (10, 'k' as int, 'm' as int)
    case KvEvict => (8, 'k' as int, 'i' as int)
    case SsdTier => (3, 's' as int, 0)
    case DramTier => (4, 'd' as int, 0)
    case VramTier => (4, 'v' as int, 0)
    case ContractV1 => (38, 's' as int, 'a' as int)
    case SsdReadName => (17, 's' as int, 'u' as int)
    case DramToVramName => (21, 's' as int, 'u' as int)
    case ComputeName => (16, 's' as int, 'u' as int)
    case PrefetchName => (13, 'p' as int, 't' as int)
    case EvictName => (12, 'e' as int, '_' as int)
  }

  function PrintOf(w: Word): (int, int, int) {
    match w
    case Names(f) => FieldPrint(f)
    case Details(d) => DetailPrint(d)
    case Says(l) => LabelPrint(l)
  }

  lemma {:induction false} FieldPrintIs(f: Field)
    ensures Fingerprint(FieldText(f)) == FieldPrint(f)
  {
  }

  lemma {:induction false} DetailPrintIs(d: Detail)
    ensures Fingerprint(DetailText(d)) == DetailPrint(d)
  {
  }

  lemma {:induction false} LabelPrintIs(l: Label)
    ensures Fingerprint(LabelText(l)) == LabelPrint(l)
  {
  }

  lemma {:induction false} PrintIs(w: Word)
    ensures Fingerprint(Text(w)) == PrintOf(w)
  {
    hide FieldText, DetailText, LabelText, FieldPrint, DetailPrint, LabelPrint, Fingerprint;
    match w
    case Names(f) => FieldPrintIs(f);
    case Details(d) => DetailPrintIs(d);
    case Says(l) => LabelPrintIs(l);
  }

  /** No two words are spelled alike. */
  lemma {:induction false} TextInjective(a: Word, b: Word)
    ensures Text(a) == Text(b) ==> a == b
  {
    hide Text, Fingerprint;
    PrintIs(a);
    PrintIs(b);
  }

  // ---------- members ----------

  /** A value is a bare text (a number, a flag, or the opening of the metadata) or a quoted label. */
  datatype JsonValue = Bare(text: string) | Said(says: Label)

  /** A member with the separator that follows it. */
  datatype Member = Member(key: Word, value: JsonValue, sep: string)

  function ValueText(v: JsonValue): string {
    match v
    case Bare(text) => text
    case Said(l) => Quote(LabelText(l))
  }

  function RenderMember(x: Member): string {
    Quote(Text(x.key)) + (": " + (ValueText(x.value) + x.sep))
  }

  function Render(ms: seq<Member>): string {
    if ms == [] then "" else RenderMember(ms[0]) + Render(ms[1..])
  }

  /** A separator is not empty and starts like no word and no number. */
  predicate SepText(s: string) {
    s != [] && !IsLower(s[0]) && !IsDigit(s[0]) && NoQuote(s)
  }

  predicate Wellformed(x: Member) {
    SepText(x.sep) && (x.value.Bare? ==> NoQuote(x.value.text))
  }

  ghost predicate AllWellformed(ms: seq<Member>) {
    forall i :: 0 <= i < |ms| ==> Wellformed(ms[i])
  }

  predicate Mentions(x: Member, w: Word) {
    x.key == w || (x.value.Said? && Says(x.value.says) == w)
  }

  lemma {:induction false} KeyPassed(k: Word, w: Word, mid: string)
    requires k != w && mid != [] && !IsLower(mid[0])
    ensures After(Quote(Text(k)) + mid, Quote(Text(w))) == After(mid, Quote(Text(w)))
  {
    TextInjective(k, w);
    hide Text, After;
    AfterQuoted(Text(k), mid, Text(w));
    AfterClosing(mid, Text(w));
  }

  lemma {:induction false} ValuePassed(x: Member, rest: string, w: Word)
    requires Wellformed(x) && (x.value.Said? ==> Says(x.value.says) != w)
    ensures After(": " + (ValueText(x.value) + x.sep) + rest, Quote(Text(w))) == After(rest, Quote(Text(w)))
  {
    hide After, LabelText, Quote;
    var field := Text(w);
    var mid := ": " + (ValueText(x.value) + x.sep) + rest;
    AfterPlain(x.sep, rest, field);
    if x.value.Bare? {
      assert mid == (": " + x.value.text) + (x.sep + rest);
      AfterPlain(": " + x.value.text, x.sep + rest, field);
    } else {
      assert mid == ": " + (Quote(LabelText(x.value.says)) + (x.sep + rest));
      AfterPlain(": ", Quote(LabelText(x.value.says)) + (x.sep + rest), field);
      assert Text(Says(x.value.says)) == LabelText(x.value.says);
      KeyPassed(Says(x.value.says), w, x.sep + rest);
    }
  }

  /** A member that does not mention a word does not hide it, and cannot be mistaken for it: neither its
      value, nor the text around it, nor a part of a longer key. */
  lemma {:induction false} MemberPassed(x: Member, rest: string, w: Word)
    requires Wellformed(x) && !Mentions(x, w)
    ensures After(RenderMember(x) + rest, Quote(Text(w))) == After(rest, Quote(Text(w)))
  {
    hide After, Text, ValueText, Quote;
    var mid := ": " + (ValueText(x.value) + x.sep) + rest;
    assert RenderMember(x) + rest == Quote(Text(x.key)) + mid;
    KeyPassed(x.key, w, mid);
    ValuePassed(x, rest, w);
  }

  lemma {:induction false} MemberFound(x: Member, rest: string)
    ensures After(RenderMember(x) + rest, Quote(Text(x.key))) == Some(": " + (ValueText(x.value) + (x.sep + rest)))
  {
    hide After, Text, ValueText, Quote;
    var mid := ": " + (ValueText(x.value) + (x.sep + rest));
    assert RenderMember(x) + rest == Quote(Text(x.key)) + mid;
    AfterQuoted(Text(x.key), mid, Text(x.key));
  }

  /** The first quoted occurrence of a word is the first member whose key it is, when no earlier member
      mentions it. */
  lemma {:induction false} FirstOccurrence(lead: string, ms: seq<Member>, i: nat)
    requires NoQuote(lead) && AllWellformed(ms) && i < |ms| && forall j :: 0 <= j < i ==> !Mentions(ms[j], ms[i].key)
    ensures After(lead + Render(ms), Quote(Text(ms[i].key)))
         == Some(": " + (ValueText(ms[i].value) + (ms[i].sep + Render(ms[i + 1..]))))
    decreases i
  {
    hide After, Text, ValueText, Quote, RenderMember, Mentions, Wellformed;
    AfterPlain(lead, Render(ms), Text(ms[i].key));
    if i == 0 {
      MemberFound(ms[0], Render(ms[1..]));
    } else {
      MemberPassed(ms[0], Render(ms[1..]), ms[i].key);
      assert ms[1..][i - 1] == ms[i] && ms[1..][i..] == ms[i + 1..];
      assert "" + Render(ms[1..]) == Render(ms[1..]);
      FirstOccurrence("", ms[1..], i - 1);
    }
  }

  // ---------- the exported line ----------

  function BoolText(b: bool): string {
    if b then "true" else "false"
  }

  function OpWord(op: Op): Label {
    match op
    case Load => KvLoad
    case Prefetch => KvPrefetch
    case Compute => KvCompute
    case _ => KvEvict
  }

  function TierWord(l: Location): Label {
    match l
    case SSD => SsdTier
    case DRAM => DramTier
    case _ => VramTier
  }

  function NameWord(n: OpName): Label {
    match n
    case ScheduleSsdRead => SsdReadName
    case ScheduleDramToVram => DramToVramName
    case ScheduleCompute => ComputeName
    case PrefetchMove => PrefetchName
    case _ => EvictName
  }

  /** The printed times of an operation. */
  datatype Times = Times(start: string, end: string, duration: string)

  function Number(key: Field, n: int): Member {
    Member(Names(key), Bare(Decimal(n)), ", ")
  }

  function Words(key: Word, l: Label): Member {
    Member(key, Said(l), ", ")
  }

  /** What the scheduler records with a move, and with a compute. */
  predicate MoveMeta(meta: Meta) {
    meta.blocking.Some? && meta.from.Some? && meta.to.Some? && meta.size.Some? && meta.at.None?
  }

  predicate ComputeMeta(meta: Meta) {
    meta.blocking.Some? && meta.at.Some? && meta.from.None? && meta.to.None? && meta.size.None?
  }

  /** The members up to the metadata, in key order. */
  function Leading(c: Command): seq<Member> {
    [Number(BlockId, c.block), Member(Names(Blocking), Bare(BoolText(c.blocking)), ", "), Number(EndToken, c.end),
     Number(LayerId, c.layer), Words(Names(LocationKey), TierWord(c.target)), Member(Names(Metadata), Bare(""), "{")]
  }

  /** The metadata, in key order; a move repeats the size there. */
  function MetaMembers(m: MovementOp, t: Times): seq<Member>
    requires MoveMeta(m.meta) || ComputeMeta(m.meta)
  {
    [Member(Names(Blocking), Bare(BoolText(m.meta.blocking.value)), ", "),
     if MoveMeta(m.meta) then Words(Details(FromLocation), TierWord(m.meta.from.value))
     else Words(Names(LocationKey), TierWord(m.meta.at.value)),
     Member(Details(MovementDuration), Bare(t.duration), ", "), Member(Details(MovementEnd), Bare(t.end), ", "),
     Member(Details(MovementStart), Bare(t.start), ", "), Words(Details(RuntimeContract), ContractV1),
     Words(Details(SchedulerOp), NameWord(m.name))]
    + if MoveMeta(m.meta)
      then [Number(SizeBytes, m.meta.size.value), Member(Details(ToLocation), Said(TierWord(m.meta.to.value)), "}, ")]
      else [Member(Details(Simulated), Bare("false"), "}, ")]
  }

  /** The members after the metadata, in key order. */
  function Trailing(c: Command, end: string): seq<Member> {
    [Words(Names(OpKey), OpWord(c.op)), Number(SizeBytes, c.size), Words(Names(SourceKey), TierWord(c.source)),
     Number(SsdOffset, c.offset), Number(StartToken, c.start), Words(Names(TargetKey), TierWord(c.target)),
     Member(Names(TokenCount), Bare(Decimal(c.end - c.start)), end)]
  }

  function Members(m: MovementOp, t: Times, end: string): seq<Member>
    requires MoveMeta(m.meta) || ComputeMeta(m.meta)
  {
    Leading(ToCommand(m)) + MetaMembers(m, t) + Trailing(ToCommand(m), end)
  }

  /** `json.dumps(command.to_dict(), sort_keys=True) + end`. */
  function Line(m: MovementOp, t: Times, end: string): string
    requires MoveMeta(m.meta) || ComputeMeta(m.meta)
  {
    "{" + Render(Members(m, t, end))
  }

  /** A command of a scheduler timeline, with its times printed without quotes, escapes or line ends. */
  ghost predicate Exportable(m: MovementOp, t: Times) {
    && ValidCommand(ToCommand(m)) && !m.name.OtherSchedule?
    && (MoveMeta(m.meta) || ComputeMeta(m.meta))
    && (m.meta.from.Some? ==> !m.meta.from.value.Elsewhere?)
    && (m.meta.to.Some? ==> !m.meta.to.value.Elsewhere?)
    && (m.meta.at.Some? ==> !m.meta.at.value.Elsewhere?)
    && PlainText(t.start) && PlainText(t.end) && PlainText(t.duration)
  }

  // ---------- the line is well formed, and one line ----------

  lemma {:induction false} DecimalPlain(n: int)
    ensures PlainText(Decimal(n)) && Decimal(n) != []
  {
    var d := Digits(if n < 0 then -n else n);
    assert forall i :: 0 <= i < |d| ==> IsDigit(d[i]);
    hide Digits;
  }

  /** What follows the closing brace: nothing, or the line end. */
  predicate LineEnd(end: string) {
    end == "}" || end == "}\n"
  }

  predicate PlainMember(x: Member) {
    (x.value.Bare? ==> PlainText(x.value.text)) && SepText(x.sep) && (PlainText(x.sep) || x.sep == "}\n")
  }

  lemma {:induction false} SmallTexts()
    ensures PlainText(", ") && PlainText("}, ") && PlainText("{") && PlainText("}") && PlainText("")
    ensures PlainText("true") && PlainText("false")
    ensures SepText(", ") && SepText("}, ") && SepText("{") && SepText("}") && SepText("}\n")
  {
  }

  lemma {:induction false} NumberPlain(key: Field, n: int)
    ensures PlainMember(Number(key, n))
  {
    DecimalPlain(n);
    SmallTexts();
    hide Decimal, PlainText;
  }

  lemma {:induction false} LeadingPlain(c: Command)
    ensures forall i :: 0 <= i < |Leading(c)| ==> PlainMember(Leading(c)[i])
  {
    SmallTexts();
    NumberPlain(BlockId, c.block);
    NumberPlain(EndToken, c.end);
    NumberPlain(LayerId, c.layer);
    hide Decimal, PlainText, SepText;
  }

  lemma {:induction false} DetailsPlain(m: MovementOp, t: Times)
    requires Exportable(m, t)
    ensures forall i :: 0 <= i < |MetaMembers(m, t)| ==> PlainMember(MetaMembers(m, t)[i])
  {
    SmallTexts();
    if m.meta.size.Some? {
      NumberPlain(SizeBytes, m.meta.size.value);
    }
    hide Decimal, PlainText, SepText;
  }

  lemma {:induction false} TrailingPlain(c: Command, end: string)
    requires LineEnd(end)
    ensures forall i :: 0 <= i < |Trailing(c, end)| ==> PlainMember(Trailing(c, end)[i])
  {
    SmallTexts();
    NumberPlain(SizeBytes, c.size);
    NumberPlain(SsdOffset, c.offset);
    NumberPlain(StartToken, c.start);
    NumberPlain(TokenCount, c.end - c.start);
    hide Decimal, PlainText, SepText;
  }

  lemma {:induction false} MembersWellformed(m: MovementOp, t: Times, end: string)
    requires Exportable(m, t) && LineEnd(end)
    ensures AllWellformed(Members(m, t, end))
    ensures forall i :: 0 <= i < |Members(m, t, end)| ==> PlainMember(Members(m, t, end)[i])
  {
    LeadingPlain(ToCommand(m));
    DetailsPlain(m, t);
    TrailingPlain(ToCommand(m), end);
    hide Leading, MetaMembers, Trailing, SepText, PlainText;
  }

  predicate LineChar(c: char) {
    c != '\n' && c as int != 0
  }

  predicate LineText(s: string) {
    forall i :: 0 <= i < |s| ==> LineChar(s[i])
  }

  lemma {:induction false} MemberOneLine(x: Member)
    requires PlainMember(x) && x.sep != "}\n"
    ensures LineText(RenderMember(x))
  {
    assert PlainText(Text(x.key));
    assert x.value.Said? ==> PlainText(LabelText(x.value.says));
    hide Text, LabelText;
  }

  lemma {:induction false} LastMemberOneLine(x: Member)
    requires PlainMember(x) && x.sep == "}\n"
    ensures var s := RenderMember(x); s != [] && s[|s| - 1] == '\n' && LineText(s[..|s| - 1])
  {
    var y := x.(sep := "}");
    SmallTexts();
    hide PlainText, SepText;
    MemberOneLine(y);
    hide Text, ValueText;
    assert RenderMember(x) == RenderMember(y) + "\n";
  }

  lemma {:induction false} RenderOneLine(ms: seq<Member>)
    requires ms != [] && ms[|ms| - 1].sep == "}\n"
    requires forall i :: 0 <= i < |ms| ==> PlainMember(ms[i])
    requires forall i :: 0 <= i < |ms| - 1 ==> ms[i].sep != "}\n"
    ensures var s := Render(ms); s != [] && s[|s| - 1] == '\n' && LineText(s[..|s| - 1])
  {
    hide PlainMember, RenderMember;
    if |ms| == 1 {
      LastMemberOneLine(ms[0]);
      assert ms[1..] == [] && RenderMember(ms[0]) + "" == RenderMember(ms[0]);
    } else {
      var rest := ms[1..];
      RenderOneLine(rest);
      MemberOneLine(ms[0]);
      var a, b := RenderMember(ms[0]), Render(rest);
      assert (a + b)[..|a + b| - 1] == a + b[..|b| - 1];
    }
  }

  lemma {:induction false} LeadingSeps(c: Command)
    ensures forall i :: 0 <= i < |Leading(c)| ==> Leading(c)[i].sep != "}\n"
  {
    assert ", " != "}\n" && "{" != "}\n";
    hide Decimal, BoolText, TierWord;
  }

  lemma {:induction false} MetaSeps(m: MovementOp, t: Times)
    requires MoveMeta(m.meta) || ComputeMeta(m.meta)
    ensures forall i :: 0 <= i < |MetaMembers(m, t)| ==> MetaMembers(m, t)[i].sep != "}\n"
  {
    assert ", " != "}\n" && "}, " != "}\n";
    hide Decimal, BoolText, TierWord, NameWord;
  }

  lemma {:induction false} TrailingSeps(c: Command)
    ensures var b := Trailing(c, "}\n"); |b| == 7 && b[6].sep == "}\n" && forall i :: 0 <= i < 6 ==> b[i].sep != "}\n"
  {
    assert ", " != "}\n";
    hide Decimal, TierWord, OpWord;
  }

  lemma {:induction false} InnerSeps(m: MovementOp, t: Times)
    requires MoveMeta(m.meta) || ComputeMeta(m.meta)
    ensures var ms := Members(m, t, "}\n");
      ms != [] && ms[|ms| - 1].sep == "}\n" && forall i :: 0 <= i < |ms| - 1 ==> ms[i].sep != "}\n"
  {
    LeadingSeps(ToCommand(m));
    MetaSeps(m, t);
    TrailingSeps(ToCommand(m));
    hide Leading, MetaMembers, Trailing;
  }

  lemma {:induction false} BraceOneLine(r: string)
    requires r != [] && LineText(r[..|r| - 1])
    ensures var s := "{" + r; s[|s| - 1] == r[|r| - 1] && LineText(s[..|s| - 1])
  {
    var s := "{" + r;
    assert s[..|s| - 1] == "{" + r[..|r| - 1];
  }

  /** An exported command is one line: its only line end is its last character. */
  lemma {:induction false} LineIsOneLine(m: MovementOp, t: Times)
    requires Exportable(m, t)
    ensures var s := Line(m, t, "}\n"); s != [] && s[|s| - 1] == '\n' && LineText(s[..|s| - 1])
  {
    hide PlainMember, Members, Render;
    MembersWellformed(m, t, "}\n");
    InnerSeps(m, t);
    RenderOneLine(Members(m, t, "}\n"));
    BraceOneLine(Render(Members(m, t, "}\n")));
  }
}
