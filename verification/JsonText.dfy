/** Text: decimal numbers and the C library calls the command parser is written with. */
module JsonText {
  import opened Kv

  const LLONG_MAX: int := 0x7fff_ffff_ffff_ffff

  // ---------- numbers ----------

  predicate IsDigit(c: char) {
    '0' <= c <= '9'
  }

  function DigitChar(n: nat): (c: char)
    requires n < 10
    ensures IsDigit(c) && DigitValue(c) == n
  {
    ('0' as int + n) as char
  }

  function Digits(n: nat): (s: string)
    ensures s != [] && forall i :: 0 <= i < |s| ==> IsDigit(s[i])
  {
    if n < 10 then [DigitChar(n)] else Digits(n / 10) + [DigitChar(n % 10)]
  }

  function Decimal(n: int): string {
    if n < 0 then "-" + Digits(-n) else Digits(n)
  }

  function Value(s: string): nat
    requires forall i :: 0 <= i < |s| ==> IsDigit(s[i])
  {
    if s == [] then 0 else Value(s[..|s| - 1]) * 10 + DigitValue(s[|s| - 1])
  }

  function DigitValue(c: char): nat
    requires IsDigit(c)
  {
    c as int - '0' as int
  }

  lemma {:induction false} ValueOfDigits(n: nat)
    ensures Value(Digits(n)) == n
  {
    if n >= 10 {
      ValueOfDigits(n / 10);
      assert Digits(n)[..|Digits(n)| - 1] == Digits(n / 10);
    } else {
      assert Digits(n)[..0] == [];
    }
  }

  function LeadingDigits(s: string): (r: string)
    ensures r <= s && (forall i :: 0 <= i < |r| ==> IsDigit(r[i])) && (|r| < |s| ==> !IsDigit(s[|r|]))
  {
    if s == [] || !IsDigit(s[0]) then [] else [s[0]] + LeadingDigits(s[1..])
  }

  lemma {:induction false} LeadingOf(d: string, rest: string)
    requires forall i :: 0 <= i < |d| ==> IsDigit(d[i])
    requires rest == [] || !IsDigit(rest[0])
    ensures LeadingDigits(d + rest) == d
  {
    if d == [] {
      assert d + rest == rest;
    } else {
      assert (d + rest)[1..] == d[1..] + rest;
      LeadingOf(d[1..], rest);
    }
  }

  predicate IsSpace(c: char) {
    c == ' ' || c == '\t' || c == '\n' || c == '\r' || c == 11 as char || c == 12 as char
  }

  function SkipSpace(s: string): string {
    if s != [] && IsSpace(s[0]) then SkipSpace(s[1..]) else s
  }

  function InRange(v: int): Option<int> {
    if -LLONG_MAX - 1 <= v <= LLONG_MAX then Some(v) else None
  }

  /** The number that the leading digits spell. */
  function Convert(s: string, negative: bool): Option<int> {
    var d := LeadingDigits(s);
    if d == [] then None
    else if negative then InRange(-(Value(d) as int))
    else InRange(Value(d))
  }

  /** `strtoll` with base 10: `None` when there is no number or it is out of range. */
  function Strtoll(s: string): Option<int> {
    var t := SkipSpace(s);
    if t != [] && t[0] == '-' then Convert(t[1..], true)
    else if t != [] && t[0] == '+' then Convert(t[1..], false)
    else Convert(t, false)
  }

  lemma {:induction false} DigitsFirst(d: string, rest: string)
    requires d != [] && IsDigit(d[0])
    ensures SkipSpace(d + rest) == d + rest && (d + rest)[0] == d[0]
  {
  }

  lemma {:induction false} ConvertDigits(n: nat, negative: bool, rest: string)
    requires rest == [] || !IsDigit(rest[0])
    ensures Convert(Digits(n) + rest, negative) == InRange(if negative then -(n as int) else n)
  {
    hide Digits, Value, LeadingDigits;
    ValueOfDigits(n);
    LeadingOf(Digits(n), rest);
  }

  /** `strtoll` reads back a printed number exactly when it fits. */
  lemma {:induction false} StrtollOfDecimal(n: int, rest: string)
    requires rest == [] || !IsDigit(rest[0])
    ensures Strtoll(Decimal(n) + rest) == InRange(n)
  {
    hide Digits, Convert, InRange;
    if n < 0 {
      ConvertDigits(-n, true, rest);
      var s := Decimal(n) + rest;
      assert s[0] == '-' && s[1..] == Digits(-n) + rest;
    } else {
      ConvertDigits(n, false, rest);
      DigitsFirst(Digits(n), rest);
    }
  }

  lemma {:induction false} SpaceSkipped(blanks: string, s: string)
    requires (forall i :: 0 <= i < |blanks| ==> IsSpace(blanks[i])) && (s == [] || !IsSpace(s[0]))
    ensures SkipSpace(blanks + s) == s
  {
    if blanks == [] {
      assert blanks + s == s;
    } else {
      assert (blanks + s)[1..] == blanks[1..] + s;
      SpaceSkipped(blanks[1..], s);
    }
  }

  /** `strtoll` skips spaces and takes either sign. */
  lemma {:induction false} StrtollSigned(blanks: string, n: nat, rest: string)
    requires (forall i :: 0 <= i < |blanks| ==> IsSpace(blanks[i])) && (rest == [] || !IsDigit(rest[0]))
    ensures Strtoll(blanks + (Digits(n) + rest)) == Strtoll(blanks + ("+" + (Digits(n) + rest))) == InRange(n)
    ensures Strtoll(blanks + ("-" + (Digits(n) + rest))) == InRange(-(n as int))
  {
    hide Digits, Convert, InRange, SkipSpace;
    var d := Digits(n) + rest;
    assert d[0] == Digits(n)[0];
    SpaceSkipped(blanks, d);
    SpaceSkipped(blanks, "+" + d);
    SpaceSkipped(blanks, "-" + d);
    ConvertDigits(n, false, rest);
    ConvertDigits(n, true, rest);
    assert ("+" + d)[1..] == d && ("-" + d)[1..] == d;
  }

  // ---------- searching ----------

  /** What follows the first occurrence of `needle`: `strstr` followed by a step over the match. */
  function After(s: string, needle: string): Option<string> {
    if needle <= s then Some(s[|needle|..])
    else if s == [] then None
    else After(s[1..], needle)
  }

  function Quote(s: string): string {
    "\"" + s + "\""
  }

  predicate NoQuote(s: string) {
    '"' !in s
  }

  /** A text that does not contain a quote hides no quoted needle. */
  lemma {:induction false} AfterPlain(s: string, t: string, field: string)
    requires NoQuote(s)
    ensures After(s + t, Quote(field)) == After(t, Quote(field))
  {
    if s == [] {
      assert s + t == t;
    } else {
      AfterPlain(s[1..], t, field);
      assert (s + t)[1..] == s[1..] + t;
      assert Quote(field)[0] == '"' && (s + t)[0] == s[0];
    }
  }

  /** The needle matches at an opening quote exactly when the whole quoted text is the field. */
  lemma {:induction false} AfterQuoted(s: string, t: string, field: string)
    requires NoQuote(s) && NoQuote(field)
    ensures s == field ==> After(Quote(s) + t, Quote(field)) == Some(t)
    ensures s != field ==> After(Quote(s) + t, Quote(field)) == After("\"" + t, Quote(field))
  {
    var line := Quote(s) + t;
    if s == field {
      assert Quote(field) <= line;
      assert line[|Quote(field)|..] == t;
    } else {
      if Quote(field) <= line {
        QuotedEqual(s, t, field);
      }
      assert line[1..] == s + ("\"" + t);
      AfterPlain(s, "\"" + t, field);
    }
  }

  lemma {:induction false} QuotedEqual(s: string, t: string, field: string)
    requires NoQuote(s) && NoQuote(field) && Quote(field) <= Quote(s) + t
    ensures s == field
  {
    var line := Quote(s) + t;
    assert forall i :: 0 <= i < |field| ==> line[i + 1] == Quote(field)[i + 1] == field[i];
    assert forall i :: 0 <= i < |s| ==> line[i + 1] == Quote(s)[i + 1] == s[i];
    assert line[|s| + 1] == '"' && line[|field| + 1] == Quote(field)[|field| + 1] == '"';
    assert |s| == |field|;
  }

  /** A closing quote does not open a match when something other than the field follows it. */
  lemma {:induction false} AfterClosing(t: string, field: string)
    requires field != [] && (t == [] || t[0] != field[0])
    ensures After("\"" + t, Quote(field)) == After(t, Quote(field))
  {
    var line := "\"" + t;
    assert Quote(field)[1] == field[0];
    assert t != [] ==> line[1] == t[0];
    assert line[1..] == t;
  }
}
