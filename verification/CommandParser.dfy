/** The C consumer's hand-written field extractor: the pointer-walking code and what it computes. */
module CommandParser {
  import opened Kv
  import opened JsonText

  // ---------- what the extractor computes ----------

  predicate IsBlank(c: char) {
    c == ' ' || c == '\t'
  }

  function SkipBlanks(s: string): string {
    if s != [] && IsBlank(s[0]) then SkipBlanks(s[1..]) else s
  }

  /** The text after the first quoted occurrence of a field and its colon. */
  function FieldAfterColon(line: string, field: string): Option<string> {
    match After(line, Quote(field))
    case None => None
    case Some(s) =>
      var t := SkipBlanks(s);
      if t == [] || t[0] != ':' then None else Some(SkipBlanks(t[1..]))
  }

  lemma {:induction false} BlanksSkipped(blanks: string, s: string)
    requires (forall i :: 0 <= i < |blanks| ==> IsBlank(blanks[i])) && (s == [] || !IsBlank(s[0]))
    ensures SkipBlanks(blanks + s) == s
  {
    if blanks == [] {
      assert blanks + s == s;
    } else {
      assert (blanks + s)[1..] == blanks[1..] + s;
      BlanksSkipped(blanks[1..], s);
    }
  }

  /** Blanks are allowed, but not needed, on either side of the colon. */
  lemma {:induction false} FieldSpaced(line: string, field: string, before: string, after: string, s: string)
    requires After(line, Quote(field)) == Some(before + (":" + (after + s))) && (s == [] || !IsBlank(s[0]))
    requires (forall i :: 0 <= i < |before| ==> IsBlank(before[i])) && (forall i :: 0 <= i < |after| ==> IsBlank(after[i]))
    ensures FieldAfterColon(line, field) == Some(s)
  {
    hide SkipBlanks, After;
    var t := ":" + (after + s);
    BlanksSkipped(before, t);
    BlanksSkipped(after, s);
    assert t[0] == ':' && t[1..] == after + s;
  }

  /** The text up to the closing quote; an escape is refused. */
  function Body(s: string): Option<string> {
    if s == [] || s[0] == '\\' then None
    else if s[0] == '"' then Some([])
    else match Body(s[1..])
      case None => None
      case Some(b) => Some([s[0]] + b)
  }

  /** A string that fits `room` bytes with its terminator. */
  function StringField(line: string, field: string, room: nat): Option<string> {
    match FieldAfterColon(line, field)
    case None => None
    case Some(s) =>
      if s == [] || s[0] != '"' then None
      else match Body(s[1..])
        case None => None
        case Some(b) => if |b| + 1 > room then None else Some(b)
  }

  function LongField(line: string, field: string): Option<int> {
    match FieldAfterColon(line, field)
    case None => None
    case Some(s) => Strtoll(s)
  }

  function SizeField(line: string, field: string): Option<int> {
    match LongField(line, field)
    case None => None
    case Some(v) => if v <= 0 then None else Some(v)
  }

  function BoolField(line: string, field: string): Option<bool> {
    match FieldAfterColon(line, field)
    case None => None
    case Some(s) => if "true" <= s then Some(true) else if "false" <= s then Some(false) else None
  }

  function OpOf(text: string): Op {
    if text == "kv_load" then Load
    else if text == "kv_prefetch" then Prefetch
    else if text == "kv_compute" then Compute
    else if text == "kv_evict" then Evict
    else OtherOp(text)
  }

  function LocationOf(text: string): Location {
    if text == "ssd" then SSD else if text == "dram" then DRAM else if text == "vram" then VRAM else Elsewhere(text)
  }

  /** The conversion of a `long long` to a 32-bit `int`. */
  function AsInt(x: int): int {
    (x + 0x8000_0000) % 0x1_0000_0000 - 0x8000_0000
  }

  /** The ten raw fields, in the order in which they are read. */
  datatype Fields = Fields(
    op: Option<string>, layer: Option<int>, block: Option<int>, start: Option<int>, end: Option<int>,
    size: Option<int>, source: Option<string>, target: Option<string>, offset: Option<int>, blocking: Option<bool>)

  function ReadFields(line: string): Fields {
    Fields(StringField(line, "op", 32), LongField(line, "layer_id"), LongField(line, "block_id"),
           LongField(line, "start_token"), LongField(line, "end_token"), SizeField(line, "size_bytes"),
           StringField(line, "source", 16), StringField(line, "target", 16), LongField(line, "ssd_offset"),
           BoolField(line, "blocking"))
  }

  /** The command of the fields: all must be present and in range. */
  function Assemble(f: Fields): Option<Command> {
    if f.op.None? || f.layer.None? || f.block.None? || f.start.None? || f.end.None? || f.size.None?
       || f.source.None? || f.target.None? || f.offset.None? || f.blocking.None? then None
    else if f.layer.value < 0 || f.block.value < 0 || f.start.value < 0 || f.end.value <= f.start.value || f.offset.value < 0 then None
    else
      Some(Command(OpOf(f.op.value), AsInt(f.layer.value), AsInt(f.block.value), f.start.value, f.end.value, f.size.value,
                   LocationOf(f.source.value), LocationOf(f.target.value), f.offset.value, f.blocking.value))
  }

  /** `parse_command_line`. */
  function ParseLine(line: string): Option<Command> {
    Assemble(ReadFields(line))
  }

  // ---------- the pointer-walking code ----------

  /** Step over blanks from position `i`. */
  method StepBlanks(line: string, i: nat) returns (j: nat)
    requires i <= |line|
    ensures i <= j <= |line| && line[j..] == SkipBlanks(line[i..])
  {
    j := i;
    while j < |line| && IsBlank(line[j])
      invariant i <= j <= |line| && SkipBlanks(line[j..]) == SkipBlanks(line[i..])
    {
      assert line[j..][1..] == line[j + 1..];
      j := j + 1;
    }
  }

  /** The position of the first match of `needle`. */
  method Strstr(line: string, needle: string) returns (at: Option<nat>)
    ensures match at
      case None => After(line, needle) == None
      case Some(i) => i + |needle| <= |line| && After(line, needle) == Some(line[i + |needle|..])
  {
    var i := 0;
    while i <= |line|
      invariant 0 <= i <= |line| + 1
      invariant i <= |line| ==> After(line[i..], needle) == After(line, needle)
      invariant i > |line| ==> After(line, needle) == None
    {
      if needle <= line[i..] {
        assert line[i..][|needle|..] == line[i + |needle|..];
        return Some(i);
      }
      assert i < |line| ==> line[i..][1..] == line[i + 1..];
      i := i + 1;
    }
    return None;
  }

  /** `field_after_colon`. */
  method FindField(line: string, field: string) returns (at: Option<nat>)
    ensures match at
      case None => FieldAfterColon(line, field) == None
      case Some(i) => i <= |line| && FieldAfterColon(line, field) == Some(line[i..])
  {
    var found := Strstr(line, Quote(field));
    if found.None? {
      return None;
    }
    var i := StepBlanks(line, found.value + |Quote(field)|);
    if i >= |line| || line[i] != ':' {
      return None;
    }
    assert line[i..][1..] == line[i + 1..];
    var j := StepBlanks(line, i + 1);
    return Some(j);
  }

  lemma {:induction false} BodyStep(s: string, n: nat)
    requires n <= |s| && forall i :: 0 <= i < n ==> s[i] != '"' && s[i] != '\\'
    ensures Body(s) == match Body(s[n..]) case None => None case Some(b) => Some(s[..n] + b)
  {
    if n > 0 {
      BodyStep(s[1..], n - 1);
      assert s[1..][n - 1..] == s[n..] && s[..n] == [s[0]] + s[1..][..n - 1];
      match Body(s[n..])
      case None =>
      case Some(b) => assert s[..n] + b == [s[0]] + (s[1..][..n - 1] + b);
    } else {
      assert s[0..] == s && forall b: string :: s[..0] + b == b;
    }
  }

  /** A string body ends at its quote; without one, or with an escape before it, it is refused. */
  lemma {:induction false} BodyEnds(s: string, n: nat)
    requires n <= |s| && forall i :: 0 <= i < n ==> s[i] != '"' && s[i] != '\\'
    requires n < |s| ==> s[n] == '"' || s[n] == '\\'
    ensures Body(s) == if n < |s| && s[n] == '"' then Some(s[..n]) else None
  {
    BodyStep(s, n);
    assert n < |s| ==> s[n..][0] == s[n];
    assert s[..n] + [] == s[..n];
  }

  /** `parse_string_field`. */
  method ParseStringField(line: string, field: string, room: nat) returns (r: Option<string>)
    ensures r == StringField(line, field, room)
  {
    hide Body, FieldAfterColon;
    var at := FindField(line, field);
    if at.None? || at.value >= |line| || line[at.value] != '"' {
      return None;
    }
    var i := at.value + 1;
    ghost var s := line[i..];
    assert line[at.value..][1..] == s;
    var n := 0;
    while i + n < |line| && line[i + n] != '"'
      invariant i + n <= |line| && forall k :: 0 <= k < n ==> s[k] != '"' && s[k] != '\\'
    {
      if line[i + n] == '\\' {
        BodyEnds(s, n);
        return None;
      }
      n := n + 1;
    }
    BodyEnds(s, n);
    if i + n >= |line| || n + 1 > room {
      return None;
    }
    assert s[..n] == line[i..i + n];
    return Some(line[i..i + n]);
  }

  /** `parse_ll_field`. */
  method ParseLongField(line: string, field: string) returns (r: Option<int>)
    ensures r == LongField(line, field)
  {
    var at := FindField(line, field);
    r := if at.None? then None else Strtoll(line[at.value..]);
  }

  /** `parse_size_field`. */
  method ParseSizeField(line: string, field: string) returns (r: Option<int>)
    ensures r == SizeField(line, field)
  {
    r := ParseLongField(line, field);
    if r.Some? && r.value <= 0 {
      r := None;
    }
  }

  /** `parse_bool_field`. */
  method ParseBoolField(line: string, field: string) returns (r: Option<bool>)
    ensures r == BoolField(line, field)
  {
    var at := FindField(line, field);
    if at.None? {
      return None;
    }
    var s := line[at.value..];
    r := if "true" <= s then Some(true) else if "false" <= s then Some(false) else None;
  }

  method ParseCommandLine(line: string) returns (r: Option<Command>)
    ensures r == ParseLine(line)
  {
    hide StringField, LongField, SizeField, BoolField;
    var op := ParseStringField(line, "op", 32);
    if op.None? { return None; }
    var layer := ParseLongField(line, "layer_id");
    if layer.None? { return None; }
    var block := ParseLongField(line, "block_id");
    if block.None? { return None; }
    var start := ParseLongField(line, "start_token");
    if start.None? { return None; }
    var end := ParseLongField(line, "end_token");
    if end.None? { return None; }
    var size := ParseSizeField(line, "size_bytes");
    if size.None? { return None; }
    var source := ParseStringField(line, "source", 16);
    if source.None? { return None; }
    var target := ParseStringField(line, "target", 16);
    if target.None? { return None; }
    var offset := ParseLongField(line, "ssd_offset");
    if offset.None? { return None; }
    var blocking := ParseBoolField(line, "blocking");
    r := Assemble(Fields(op, layer, block, start, end, size, source, target, offset, blocking));
  }

  // ---------- the command file ----------

  /** The text up to and including the first line end. */
  function NextLine(text: string): (r: string)
    ensures r <= text && (text != [] ==> r != [])
  {
    if text == [] then []
    else if text[0] == '\n' then [text[0]]
    else [text[0]] + NextLine(text[1..])
  }

  /** What the string functions see of a line that contains a terminator. */
  function CText(s: string): (r: string)
    ensures r <= s
  {
    if s == [] || s[0] as int == 0 then [] else [s[0]] + CText(s[1..])
  }

  predicate Skipped(line: string) {
    line == [] || line[0] == '\n'
  }

  /** The commands of a file, or `None` when one line is refused. */
  function LoadText(text: string): Option<seq<Command>>
    decreases |text|
  {
    if text == [] then Some([])
    else
      var line := CText(NextLine(text));
      var rest := LoadText(text[|NextLine(text)|..]);
      if Skipped(line) then rest
      else match ParseLine(line)
        case None => None
        case Some(c) => Prepend([c], rest)
  }

  function Prepend(cs: seq<Command>, rest: Option<seq<Command>>): Option<seq<Command>> {
    if rest.None? then None else Some(cs + rest.value)
  }

  lemma {:induction false} PrependMore(cs: seq<Command>, c: Command, rest: Option<seq<Command>>)
    ensures Prepend(cs + [c], rest) == Prepend(cs, Prepend([c], rest))
  {
    assert rest.Some? ==> cs + [c] + rest.value == cs + ([c] + rest.value);
  }

  lemma {:induction false} PrependNothing(rest: Option<seq<Command>>)
    ensures Prepend([], rest) == rest
  {
    assert rest.Some? ==> [] + rest.value == rest.value;
  }

  lemma {:induction false} NextLineIs(s: string, n: nat)
    requires n <= |s| && (forall i :: 0 <= i < n ==> s[i] != '\n') && (n < |s| ==> s[n] == '\n')
    ensures NextLine(s) == if n < |s| then s[..n + 1] else s
  {
    if n == 0 {
    } else {
      NextLineIs(s[1..], n - 1);
      assert [s[0]] + s[1..] == s;
      assert n < |s| ==> [s[0]] + s[1..][..n] == s[..n + 1];
    }
  }

  /** `read_entire_line`. */
  method ReadLine(text: string, from: nat) returns (next: nat, line: string)
    requires from < |text|
    ensures from < next <= |text| && text[from..next] == NextLine(text[from..]) && line == CText(NextLine(text[from..]))
  {
    next := from;
    while next < |text| && text[next] != '\n'
      invariant from <= next <= |text|
      invariant forall i :: 0 <= i < next - from ==> text[from..][i] != '\n'
    {
      next := next + 1;
    }
    NextLineIs(text[from..], next - from);
    if next < |text| {
      next := next + 1;
      assert text[from..][..next - from] == text[from..next];
    } else {
      assert text[from..] == text[from..next];
    }
    line := CText(text[from..next]);
  }

  /** `load_commands`. */
  method LoadCommands(text: string) returns (r: Option<seq<Command>>)
    ensures r == LoadText(text)
  {
    hide ParseLine, Prepend, NextLine, CText;
    var commands: seq<Command> := [];
    var at := 0;
    assert text[0..] == text;
    PrependNothing(LoadText(text));
    while at < |text|
      invariant 0 <= at <= |text|
      invariant LoadText(text) == Prepend(commands, LoadText(text[at..]))
    {
      var next, line := ReadLine(text, at);
      assert text[at..][|NextLine(text[at..])|..] == text[next..];
      if !Skipped(line) {
        var c := ParseCommandLine(line);
        if c.None? {
          PrependNone(commands);
          return None;
        }
        PrependMore(commands, c.value, LoadText(text[next..]));
        commands := commands + [c.value];
      }
      at := next;
    }
    assert text[at..] == [];
    PrependSome(commands);
    return Some(commands);
  }

  lemma {:induction false} PrependNone(cs: seq<Command>)
    ensures Prepend(cs, None) == None
  {
  }

  lemma {:induction false} PrependSome(cs: seq<Command>)
    ensures Prepend(cs, Some([])) == Some(cs)
  {
    assert cs + [] == cs;
  }

  // ---------- what can be loaded ----------

  predicate IsInt32(x: int) {
    -0x8000_0000 <= x < 0x8000_0000
  }

  predicate IsLong(x: int) {
    -LLONG_MAX - 1 <= x <= LLONG_MAX
  }

  /** What the consumer can rely on for a command that it has loaded, whatever the file says. The sign of the
      two ids is checked before they are cut to `int`, so that a cut id can be negative. */
  predicate Loadable(c: Command) {
    && 0 <= c.start < c.end && c.size > 0 && c.offset >= 0
    && IsLong(c.end) && IsLong(c.size) && IsLong(c.offset) && IsInt32(c.layer) && IsInt32(c.block)
  }

  lemma {:induction false} LongIsLong(line: string, field: string)
    ensures LongField(line, field).Some? ==> IsLong(LongField(line, field).value)
  {
    hide FieldAfterColon, LeadingDigits, Value, SkipSpace;
  }

  lemma {:induction false} CutIsInt32(x: int)
    ensures IsInt32(AsInt(x)) && (IsInt32(x) ==> AsInt(x) == x)
  {
  }

  lemma {:induction false} ParsedLoadable(line: string)
    ensures ParseLine(line).Some? ==> Loadable(ParseLine(line).value)
  {
    LongIsLong(line, "end_token");
    LongIsLong(line, "size_bytes");
    LongIsLong(line, "ssd_offset");
    hide LongField, StringField, BoolField, AsInt;
    forall x ensures IsInt32(AsInt(x)) {
      CutIsInt32(x);
    }
  }

  /** The lines of a text, each with its line end. */
  function LinesOf(text: string): seq<string>
    decreases |text|
  {
    if text == [] then [] else [NextLine(text)] + LinesOf(text[|NextLine(text)|..])
  }

  ghost predicate Parsable(line: string) {
    Skipped(CText(line)) || ParseLine(CText(line)).Some?
  }

  ghost predicate AllParsable(lines: seq<string>) {
    forall i :: 0 <= i < |lines| ==> Parsable(lines[i])
  }

  lemma {:induction false} OneMoreLine(line: string, rest: seq<string>)
    ensures AllParsable([line] + rest) <==> Parsable(line) && AllParsable(rest)
  {
    hide Parsable;
    var lines := [line] + rest;
    assert lines[0] == line && forall i :: 0 <= i < |rest| ==> lines[i + 1] == rest[i];
  }

  ghost predicate AllLoadable(cs: seq<Command>) {
    forall i :: 0 <= i < |cs| ==> Loadable(cs[i])
  }

  /** A file loads exactly when each of its lines is skipped or parsed, and then every command is loadable. */
  lemma {:induction false} LoadedExact(text: string)
    ensures LoadText(text).Some? <==> AllParsable(LinesOf(text))
    ensures LoadText(text).Some? ==> AllLoadable(LoadText(text).value)
    decreases |text|
  {
    hide ParseLine, Loadable, CText, NextLine, Skipped, AllParsable;
    if text == [] {
      NoLines();
    } else {
      var line := NextLine(text);
      var rest := text[|line|..];
      ParsedLoadable(CText(line));
      OneMoreLine(line, LinesOf(rest));
      LoadedExact(rest);
    }
  }

  lemma {:induction false} NoLines()
    ensures AllParsable([])
  {
  }

  /** An empty line changes nothing. */
  lemma {:induction false} EmptyLine(text: string)
    ensures LoadText("\n" + text) == LoadText(text)
  {
    var t := "\n" + text;
    assert t[0] == '\n' && NextLine(t) == ['\n'] && t[|NextLine(t)|..] == text;
    assert ['\n'][1..] == [] && CText(['\n']) == ['\n'];
    assert Skipped(CText(NextLine(t)));
  }
}
