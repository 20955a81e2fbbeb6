/** The byte-range mapper: which bytes of a staged block become which rows of the K and V tensors, the
    mapper's own checks, and the scatter and gather that its ranges describe.
 */
module ByteRanges {
  import opened Kv
  import opened ByteCopies
  import opened TensorLayout
  import opened Sorting
  import TensorGate
  import B = BridgeModel

  datatype Kind = KeyKind | ValueKind

  datatype Range = Range(kind: Kind, token: int, staging: int, backing: int, tensor: int, size: int) {
    function StagingEnd(): int {
      staging + size
    }

    function TensorEnd(): int {
      tensor + size
    }
  }

  /** The part of a plan's block that the mapper uses. */
  datatype Block = Block(layer: int, block: int, start: int, end: int, offset: int) {
    function Tokens(): nat {
      if start < end then end - start else 0
    }
  }

  /** The checks of the range's constructor. */
  predicate ValidRange(b: Block, r: Range) {
    && b.layer >= 0 && b.block >= 0 && r.token >= 0
    && r.staging >= 0 && r.backing >= 0 && r.tensor >= 0 && r.size > 0
  }

  // ---------- row sizes ----------

  datatype RowError = BadKeyRow | BadValueRow | OddRowSum

  datatype RowSizes = RowSizes(key: int, value: int, inferred: bool)

  /** `_resolve_row_sizes`. */
  function ResolveRowSizes(size: int, tokens: nat, key: Option<int>, value: Option<int>): Result<RowSizes, RowError>
    requires tokens > 0
  {
    if key.Some? && key.value <= 0 then Failure(BadKeyRow)
    else if value.Some? && value.value <= 0 then Failure(BadValueRow)
    else
      var rowSum := size / tokens;
      if size % tokens != 0 then
        Success(RowSizes(if key.Some? then key.value else 1, if value.Some? then value.value else 1, false))
      else if key.None? && value.None? then
        if rowSum % 2 != 0 then Failure(OddRowSum) else Success(RowSizes(rowSum / 2, rowSum / 2, true))
      else if key.None? then Success(RowSizes(rowSum - value.value, value.value, true))
      else if value.None? then Success(RowSizes(key.value, rowSum - key.value, true))
      else Success(RowSizes(key.value, value.value, false))
  }

  lemma {:induction false} ResolveFits(size: int, tokens: nat, key: Option<int>, value: Option<int>)
    requires tokens > 0 && ResolveRowSizes(size, tokens, key, value).Success?
    ensures var r := ResolveRowSizes(size, tokens, key, value).value;
      && (r.inferred ==> (r.key + r.value) * tokens == size)
      && ((r.key + r.value) * tokens == size && !(key.Some? && value.Some?) ==> r.inferred)
      && (key.Some? ==> r.key == key.value) && (value.Some? ==> r.value == value.value)
  {
    var r := ResolveRowSizes(size, tokens, key, value).value;
    Division(size, tokens, r.key + r.value);
  }

  /** When row sizes are refused: a given size that is not positive, or none given for an odd number of bytes
      per token. */
  lemma {:induction false} ResolveRefuses(size: int, tokens: nat, key: Option<int>, value: Option<int>)
    requires tokens > 0
    ensures var r := ResolveRowSizes(size, tokens, key, value);
      r.Failure? <==>
        || (key.Some? && key.value <= 0) || (value.Some? && value.value <= 0)
        || (key.None? && value.None? && exists sum :: Halves(sum) == None && tokens * sum == size)
  {
    if key.None? && value.None? {
      if size % tokens == 0 {
        Division(size, tokens, size / tokens);
        assert tokens * (size / tokens) == size;
        assert Halves(size / tokens) == None <==> (size / tokens) % 2 != 0;
      }
      forall sum | tokens * sum == size ensures size % tokens == 0 && sum == size / tokens {
        Division(size, tokens, sum);
      }
    }
  }

  /** Two equal parts of a number, if it has them. */
  function Halves(n: int): Option<int> {
    if n % 2 == 0 then Some(n / 2) else None
  }

  /** With no row sizes given, a token is split into equal halves for K and V: the row size that the bridge
      infers. The mapper infers rows exactly for the blocks for which the bridge does. */
  lemma {:induction false} DefaultRows(size: int, tokens: nat)
    requires tokens > 0 && size > 0
    ensures var r, row := ResolveRowSizes(size, tokens, None, None), B.InferRow(size, tokens);
      && (r.Success? && r.value.inferred <==> row > 0)
      && (row > 0 ==> r.value.key == r.value.value == row && size == tokens * (2 * row))
      && (r.Success? && !r.value.inferred ==> forall rows :: tokens * rows != size)
  {
    var row := B.InferRow(size, tokens);
    Division(size, tokens, size / tokens);
    if row > 0 {
      Division(size, tokens, 2 * row);
    }
    if size % tokens != 0 {
      forall rows ensures tokens * rows != size {
        Division(size, tokens, rows);
      }
    } else if size / tokens <= 0 {
      MulMono(size / tokens, 0, tokens);
    }
  }

  // ---------- building the ranges ----------

  function KeyRange(b: Block, k: int, v: int, t: nat): Range {
    Range(KeyKind, b.start + t, t * (k + v), b.offset + t * (k + v), (b.block + t) * k, k)
  }

  function ValueRange(b: Block, k: int, v: int, t: nat): Range {
    Range(ValueKind, b.start + t, t * (k + v) + k, b.offset + (t * (k + v) + k), (b.block + t) * v, v)
  }

  datatype RangeError = InvalidRange

  /** The loop of `_build_block_ranges` over the first `n` tokens: it stops at the first invalid range. */
  function BuildUpTo(b: Block, k: int, v: int, n: nat): Result<seq<Range>, RangeError> {
    if n == 0 then Success([])
    else match BuildUpTo(b, k, v, n - 1)
      case Failure(e) => Failure(e)
      case Success(rs) =>
        if ValidRange(b, KeyRange(b, k, v, n - 1)) && ValidRange(b, ValueRange(b, k, v, n - 1))
        then Success(rs + [KeyRange(b, k, v, n - 1), ValueRange(b, k, v, n - 1)])
        else Failure(InvalidRange)
  }

  method BuildBlockRanges(b: Block, k: int, v: int) returns (r: Result<seq<Range>, RangeError>)
    ensures r == BuildUpTo(b, k, v, b.Tokens())
  {
    hide ValidRange, KeyRange, ValueRange;
    var ranges: seq<Range> := [];
    var t := 0;
    while t < b.Tokens()
      invariant 0 <= t <= b.Tokens()
      invariant BuildUpTo(b, k, v, t) == Success(ranges)
    {
      var key := KeyRange(b, k, v, t);
      var value := ValueRange(b, k, v, t);
      if !ValidRange(b, key) || !ValidRange(b, value) {
        BuildFails(b, k, v, t + 1, b.Tokens());
        return Failure(InvalidRange);
      }
      ranges := ranges + [key, value];
      t := t + 1;
    }
    return Success(ranges);
  }

  lemma {:induction false} BuildFails(b: Block, k: int, v: int, m: nat, n: nat)
    requires m <= n && BuildUpTo(b, k, v, m).Failure?
    ensures BuildUpTo(b, k, v, n) == Failure(InvalidRange)
    decreases n
  {
    hide ValidRange, KeyRange, ValueRange;
    if m < n {
      BuildFails(b, k, v, m, n - 1);
    } else {
      assert BuildUpTo(b, k, v, n).error.InvalidRange?;
    }
  }

  /** What a block needs for its ranges to be valid. */
  predicate Mappable(b: Block, k: int, v: int) {
    b.layer >= 0 && b.block >= 0 && b.start >= 0 && b.offset >= 0 && k > 0 && v > 0
  }

  lemma {:induction false} TokenValid(b: Block, k: int, v: int, t: nat)
    ensures Mappable(b, k, v) ==> ValidRange(b, KeyRange(b, k, v, t)) && ValidRange(b, ValueRange(b, k, v, t))
    ensures t == 0 && ValidRange(b, KeyRange(b, k, v, t)) && ValidRange(b, ValueRange(b, k, v, t)) ==> Mappable(b, k, v)
  {
    if Mappable(b, k, v) {
      MulMono(0, t, k + v);
      MulMono(0, b.block + t, k);
      MulMono(0, b.block + t, v);
    }
  }

  /** The `i`th range of a block: K and V ranges alternate. */
  function RangeAt(b: Block, k: int, v: int, i: nat): Range {
    if i % 2 == 0 then KeyRange(b, k, v, i / 2) else ValueRange(b, k, v, i / 2)
  }

  /** One K and one V range per token, in staging order. */
  ghost predicate Lists(b: Block, k: int, v: int, rs: seq<Range>, n: nat) {
    |rs| == 2 * n && forall i :: 0 <= i < |rs| ==> rs[i] == RangeAt(b, k, v, i)
  }

  lemma {:induction false} ListsNext(b: Block, k: int, v: int, rs: seq<Range>, n: nat)
    requires Lists(b, k, v, rs, n)
    ensures Lists(b, k, v, rs + [KeyRange(b, k, v, n), ValueRange(b, k, v, n)], n + 1)
  {
    var after := rs + [KeyRange(b, k, v, n), ValueRange(b, k, v, n)];
    hide KeyRange, ValueRange;
    forall i | 0 <= i < |after| ensures after[i] == RangeAt(b, k, v, i) {
      if i < |rs| {
        assert after[i] == rs[i];
      }
    }
  }

  lemma {:induction false} ListedAt(b: Block, k: int, v: int, rs: seq<Range>, n: nat, t: nat)
    requires Lists(b, k, v, rs, n) && t < n
    ensures rs[2 * t] == KeyRange(b, k, v, t) && rs[2 * t + 1] == ValueRange(b, k, v, t)
  {
    hide KeyRange, ValueRange;
    assert (2 * t) / 2 == t && (2 * t + 1) / 2 == t;
    assert rs[2 * t] == RangeAt(b, k, v, 2 * t) && rs[2 * t + 1] == RangeAt(b, k, v, 2 * t + 1);
  }

  /** The mapper accepts a block exactly when it has no tokens or is mappable. */
  lemma {:induction false} BuildExact(b: Block, k: int, v: int, n: nat)
    ensures BuildUpTo(b, k, v, n).Success? <==> n == 0 || Mappable(b, k, v)
    ensures BuildUpTo(b, k, v, n).Success? ==> Lists(b, k, v, BuildUpTo(b, k, v, n).value, n)
  {
    if n == 0 {
    } else {
      BuildExact(b, k, v, n - 1);
      TokenValid(b, k, v, n - 1);
      hide ValidRange, KeyRange, ValueRange, Mappable, Lists;
      if BuildUpTo(b, k, v, n - 1).Success? {
        ListsNext(b, k, v, BuildUpTo(b, k, v, n - 1).value, n - 1);
      }
    }
  }

  /** Each range names its bytes twice: in the backing file and in the staged block, which is the file's range at
      the block's offset. The bytes are the same, and they lie in the stride of the range's token. */
  lemma {:induction false} BackingBytes(b: Block, k: int, v: int, rs: seq<Range>, n: nat, file: seq<Byte>, i: nat)
    requires Mappable(b, k, v) && Lists(b, k, v, rs, n) && i < |rs| && b.offset + n * (k + v) <= |file|
    ensures n * (k + v) >= 0
    ensures var r, image := rs[i], file[b.offset..b.offset + n * (k + v)];
      && 0 <= r.staging < r.StagingEnd() <= |image| && 0 <= r.backing < r.backing + r.size <= |file|
      && image[r.staging..r.StagingEnd()] == file[r.backing..r.backing + r.size]
      && b.start <= r.token < b.start + n
      && (r.token - b.start) * (k + v) <= r.staging && r.StagingEnd() <= (r.token - b.start + 1) * (k + v)
  {
    var t := i / 2;
    MulNext(t, k + v);
    MulMono(t + 1, n, k + v);
    MulMono(0, t, k + v);
    SliceOfSlice(file, b.offset, n * (k + v), rs[i].staging, rs[i].StagingEnd());
  }

  lemma {:induction false} SliceOfSlice(s: seq<Byte>, at: nat, size: nat, from: nat, to: nat)
    requires at + size <= |s| && from <= to <= size
    ensures s[at..at + size][from..to] == s[at + from..at + to]
  {
    var a, b := s[at..at + size][from..to], s[at + from..at + to];
    assert |a| == |b| && forall i :: 0 <= i < |a| ==> a[i] == b[i];
  }

  // ---------- coverage ----------

  predicate StagingLe(a: Range, b: Range) {
    a.staging <= b.staging
  }

  /** The scan of `_coverage_errors`: where the first `n` ranges end if they follow one another. */
  function ScanTo(rs: seq<Range>, n: nat): Option<int>
    requires n <= |rs|
  {
    if n == 0 then Some(0)
    else match ScanTo(rs, n - 1)
      case None => None
      case Some(expected) => if rs[n - 1].staging != expected then None else Some(rs[n - 1].StagingEnd())
  }

  function CoverageErrors(rs: seq<Range>, size: int): nat {
    var sorted := Sort(rs, StagingLe);
    if ScanTo(sorted, |sorted|) == Some(size) then 0 else 1
  }

  method CountCoverageErrors(rs: seq<Range>, size: int) returns (errors: nat)
    ensures errors == CoverageErrors(rs, size)
  {
    var sorted := Sort(rs, StagingLe);
    var expected := 0;
    var i := 0;
    while i < |sorted|
      invariant 0 <= i <= |sorted| && ScanTo(sorted, i) == Some(expected)
    {
      if sorted[i].staging != expected {
        ScanStops(sorted, i + 1, |sorted|);
        return 1;
      }
      expected := sorted[i].StagingEnd();
      i := i + 1;
    }
    return if expected == size then 0 else 1;
  }

  lemma {:induction false} ScanStops(rs: seq<Range>, m: nat, n: nat)
    requires m <= n <= |rs| && ScanTo(rs, m).None?
    ensures ScanTo(rs, n).None?
    decreases n
  {
    if m < n {
      ScanStops(rs, m, n - 1);
    }
  }

  predicate Covers(r: Range, at: int) {
    r.staging <= at < r.StagingEnd()
  }

  /** How many ranges contain a staging byte. */
  function CoverCount(rs: seq<Range>, at: int): nat {
    if rs == [] then 0 else CoverCount(rs[..|rs| - 1], at) + if Covers(rs[|rs| - 1], at) then 1 else 0
  }

  /** Every staging byte is in exactly one range, and no other byte is in any. */
  ghost predicate ExactCover(rs: seq<Range>, size: int) {
    forall at {:trigger CoverCount(rs, at)} :: CoverCount(rs, at) == if 0 <= at < size then 1 else 0
  }

  ghost predicate Positive(rs: seq<Range>) {
    forall i :: 0 <= i < |rs| ==> rs[i].size > 0
  }

  lemma {:induction false} CountSnoc(rs: seq<Range>, r: Range, at: int)
    ensures CoverCount(rs + [r], at) == CoverCount(rs, at) + if Covers(r, at) then 1 else 0
  {
    assert (rs + [r])[..|rs|] == rs;
  }

  /** A list without its `i`th element. */
  function Without<T>(s: seq<T>, i: nat): (r: seq<T>)
    requires i < |s|
    ensures |r| == |s| - 1
  {
    s[..i] + s[i + 1..]
  }

  lemma {:induction false} WithoutSnoc<T>(front: seq<T>, x: T, i: nat)
    requires i <= |front|
    ensures Without(front + [x], i) == if i == |front| then front else Without(front, i) + [x]
  {
  }

  lemma {:induction false} CountRemove(rs: seq<Range>, i: nat, at: int)
    requires i < |rs|
    ensures CoverCount(rs, at) == CoverCount(Without(rs, i), at) + if Covers(rs[i], at) then 1 else 0
  {
    var front, last := rs[..|rs| - 1], rs[|rs| - 1];
    assert rs == front + [last];
    WithoutSnoc(front, last, i);
    hide Covers, CoverCount, Without;
    CountSnoc(front, last, at);
    if i == |front| {
    } else {
      CountRemove(front, i, at);
      CountSnoc(Without(front, i), last, at);
    }
  }

  lemma {:induction false} LessOne<T>(s: seq<T>, i: nat)
    requires i < |s|
    ensures multiset(Without(s, i)) == multiset(s) - multiset{s[i]}
  {
    assert s == s[..i] + [s[i]] + s[i + 1..];
  }

  /** The count does not depend on the order of the ranges. */
  lemma {:induction false} CountPermuted(a: seq<Range>, b: seq<Range>, at: int)
    requires multiset(a) == multiset(b)
    ensures CoverCount(a, at) == CoverCount(b, at)
  {
    hide Covers, CoverCount;
    if a == [] {
      assert |multiset(b)| == 0;
    } else {
      var n := |a| - 1;
      SameElements(a, b);
      assert a[n] in b;
      var i :| 0 <= i < |b| && b[i] == a[n];
      CountRemove(a, n, at);
      CountRemove(b, i, at);
      LessOne(a, n);
      LessOne(b, i);
      hide Without;
      CountPermuted(Without(a, n), Without(b, i), at);
    }
  }

  /** Ranges that follow one another contain each byte before their end once. */
  lemma {:induction false} ScanCounts(rs: seq<Range>, n: nat, at: int)
    requires n <= |rs| && Positive(rs) && ScanTo(rs, n).Some?
    ensures ScanTo(rs, n).value >= 0
    ensures CoverCount(rs[..n], at) == if 0 <= at < ScanTo(rs, n).value then 1 else 0
  {
    if n == 0 {
    } else {
      ScanCounts(rs, n - 1, at);
      assert rs[..n][..n - 1] == rs[..n - 1];
    }
  }

  lemma {:induction false} CountMonotone(rs: seq<Range>, n: nat, at: int)
    requires n <= |rs|
    ensures CoverCount(rs[..n], at) <= CoverCount(rs, at)
    decreases |rs| - n
  {
    if n < |rs| {
      CountMonotone(rs, n + 1, at);
      assert rs[..n + 1][..n] == rs[..n];
    } else {
      assert rs[..n] == rs;
    }
  }

  /** No range from the `n`th on contains a byte before its start. */
  lemma {:induction false} CountTail(rs: seq<Range>, n: nat, at: int)
    requires n <= |rs| && forall i :: n <= i < |rs| ==> at < rs[i].staging
    ensures CoverCount(rs, at) == CoverCount(rs[..n], at)
    decreases |rs| - n
  {
    if n < |rs| {
      CountTail(rs, n + 1, at);
      assert rs[..n + 1][..n] == rs[..n];
    } else {
      assert rs[..n] == rs;
    }
  }

  lemma {:induction false} ScanOfCover(rs: seq<Range>, size: int, n: nat)
    requires n <= |rs| && Positive(rs) && Ordered(rs, StagingLe) && ExactCover(rs, size)
    ensures ScanTo(rs, n).Some? && ScanTo(rs, n).value <= (if size > 0 then size else 0)
  {
    if n == 0 {
    } else {
      ScanOfCover(rs, size, n - 1);
      var expected, r := ScanTo(rs, n - 1).value, rs[n - 1];
      ScanCounts(rs, n - 1, r.staging);
      assert rs[..n][..n - 1] == rs[..n - 1];
      CountMonotone(rs, n, r.staging);
      assert 0 <= r.staging < size;
      if r.staging > expected {
        forall i | n - 1 <= i < |rs| ensures expected < rs[i].staging {
          assert i > n - 1 ==> StagingLe(rs[n - 1], rs[i]);
        }
        ScanCounts(rs, n - 1, expected);
        CountTail(rs, n - 1, expected);
      }
      ScanCounts(rs, n, r.StagingEnd() - 1);
      CountMonotone(rs, n, r.StagingEnd() - 1);
    }
  }

  /** The coverage check is exact: it reports no error if and only if every byte of the block lies in
      exactly one range and no range reaches outside the block. */
  lemma {:induction false} CoverageExact(rs: seq<Range>, size: int)
    requires Positive(rs) && size >= 0
    ensures CoverageErrors(rs, size) == 0 <==> ExactCover(rs, size)
  {
    var sorted := Sort(rs, StagingLe);
    SortPermutes(rs, StagingLe);
    SortOrders(rs, StagingLe);
    SameElements(rs, sorted);
    forall i | 0 <= i < |sorted| ensures sorted[i].size > 0 {
      assert sorted[i] in sorted && sorted[i] in rs;
    }
    assert sorted[..|sorted|] == sorted;
    forall at ensures CoverCount(rs, at) == CoverCount(sorted, at) {
      CountPermuted(rs, sorted, at);
    }
    var n := |sorted|;
    if CoverageErrors(rs, size) == 0 {
      forall at ensures CoverCount(rs, at) == if 0 <= at < size then 1 else 0 {
        ScanCounts(sorted, n, at);
      }
    }
    if ExactCover(rs, size) {
      assert ExactCover(sorted, size) by {
        forall at ensures CoverCount(sorted, at) == if 0 <= at < size then 1 else 0 {
          assert CoverCount(rs, at) == if 0 <= at < size then 1 else 0;
        }
      }
      ScanOfCover(sorted, size, n);
      var end := ScanTo(sorted, n).value;
      ScanCounts(sorted, n, end);
      assert CoverCount(rs, end) == 0;
    }
  }

  // ---------- the ranges of one block ----------

  /** The two ranges of token `t` in the list of a block. */
  lemma {:induction false} TokenRanges(b: Block, k: int, v: int, rs: seq<Range>, t: nat)
    requires BuildUpTo(b, k, v, b.Tokens()) == Success(rs)
    ensures |rs| == 2 * b.Tokens() && (b.Tokens() > 0 ==> Mappable(b, k, v))
    ensures t < b.Tokens() ==> rs[2 * t] == KeyRange(b, k, v, t) && rs[2 * t + 1] == ValueRange(b, k, v, t)
  {
    BuildExact(b, k, v, b.Tokens());
    hide KeyRange, ValueRange, BuildUpTo, Mappable;
    if t < b.Tokens() {
      ListedAt(b, k, v, rs, b.Tokens(), t);
    }
  }

  /** The ranges of a mappable block follow one another and end at `tokens * (k + v)`. */
  lemma {:induction false} ScanOfBuilt(b: Block, k: int, v: int, rs: seq<Range>, n: nat)
    requires BuildUpTo(b, k, v, b.Tokens()) == Success(rs) && n <= b.Tokens()
    ensures |rs| == 2 * b.Tokens() && ScanTo(rs, 2 * n) == Some(n * (k + v))
  {
    hide BuildUpTo, Mappable;
    TokenRanges(b, k, v, rs, if n > 0 then n - 1 else 0);
    if n == 0 {
    } else {
      ScanOfBuilt(b, k, v, rs, n - 1);
      assert ScanTo(rs, 2 * n - 1) == Some((n - 1) * (k + v) + k);
      assert (n - 1) * (k + v) + k + v == n * (k + v);
    }
  }

  lemma {:induction false} ScanOrdered(rs: seq<Range>, n: nat)
    requires n <= |rs| && Positive(rs) && ScanTo(rs, n).Some?
    ensures Ordered(rs[..n], StagingLe) && forall i :: 0 <= i < n ==> rs[i].staging < ScanTo(rs, n).value
  {
    if n == 0 {
    } else {
      ScanOrdered(rs, n - 1);
      forall i, j | 0 <= i < j < n ensures StagingLe(rs[..n][i], rs[..n][j]) {
        if j < n - 1 {
          assert StagingLe(rs[..n - 1][i], rs[..n - 1][j]);
        }
      }
    }
  }

  lemma {:induction false} BuiltPositive(b: Block, k: int, v: int, rs: seq<Range>)
    requires BuildUpTo(b, k, v, b.Tokens()) == Success(rs)
    ensures Positive(rs)
  {
    hide BuildUpTo;
    TokenRanges(b, k, v, rs, 0);
    forall i | 0 <= i < |rs| ensures rs[i].size > 0 {
      TokenRanges(b, k, v, rs, i / 2);
      assert i == 2 * (i / 2) || i == 2 * (i / 2) + 1;
      assert KeyRange(b, k, v, i / 2).size == k && ValueRange(b, k, v, i / 2).size == v;
      hide KeyRange, ValueRange;
    }
  }

  /** Exactness of one block: the generated ranges cover `[0, tokens * (k + v))` exactly, so the coverage
      check reports an error exactly when that product differs from the block's size. */
  lemma {:induction false} BuiltCoverage(b: Block, k: int, v: int, rs: seq<Range>, size: int)
    requires BuildUpTo(b, k, v, b.Tokens()) == Success(rs)
    ensures CoverageErrors(rs, size) == 0 <==> b.Tokens() * (k + v) == size
    ensures b.Tokens() * (k + v) >= 0 && ExactCover(rs, b.Tokens() * (k + v))
  {
    ScanOfBuilt(b, k, v, rs, b.Tokens());
    BuiltPositive(b, k, v, rs);
    ScanOrdered(rs, |rs|);
    assert rs[..|rs|] == rs;
    SortOfOrdered(rs, StagingLe);
    forall at ensures CoverCount(rs, at) == if 0 <= at < b.Tokens() * (k + v) then 1 else 0 {
      ScanCounts(rs, |rs|, at);
    }
    ScanCounts(rs, |rs|, 0);
  }

  // ---------- tensor bounds ----------

  predicate OutOfBounds(r: Range, cache: int, k: int, v: int) {
    r.TensorEnd() > cache * (if r.kind.KeyKind? then k else v)
  }

  function BoundsErrors(rs: seq<Range>, cache: int, k: int, v: int): nat {
    if rs == [] then 0 else BoundsErrors(rs[..|rs| - 1], cache, k, v) + if OutOfBounds(rs[|rs| - 1], cache, k, v) then 1 else 0
  }

  method CountTensorBoundsErrors(rs: seq<Range>, cache: int, k: int, v: int) returns (errors: nat)
    ensures errors == BoundsErrors(rs, cache, k, v)
  {
    errors := 0;
    var keyLimit, valueLimit := cache * k, cache * v;
    var i := 0;
    while i < |rs|
      invariant 0 <= i <= |rs| && errors == BoundsErrors(rs[..i], cache, k, v)
    {
      assert rs[..i + 1][..i] == rs[..i];
      var limit := if rs[i].kind.KeyKind? then keyLimit else valueLimit;
      if rs[i].TensorEnd() > limit {
        errors := errors + 1;
      }
      i := i + 1;
    }
    assert rs[..|rs|] == rs;
  }

  function Max(a: int, b: int): int {
    if a < b then b else a
  }

  function Min(a: int, b: int): int {
    if a < b then a else b
  }

  /** A row is out of bounds exactly when its cell is. */
  lemma {:induction false} RowOutOfBounds(cell: int, row: int, cache: int)
    requires row > 0
    ensures cell * row + row > cache * row <==> cell >= cache
  {
    if cell >= cache {
      MulMono(0, cell - cache, row);
      assert (cell - cache) * row == cell * row - cache * row;
    } else {
      MulMono(0, cache - cell - 1, row);
      assert (cache - cell - 1) * row == cache * row - cell * row - row;
    }
  }

  lemma {:induction false} BoundsSnoc(rs: seq<Range>, n: nat, cache: int, k: int, v: int)
    requires n < |rs|
    ensures BoundsErrors(rs[..n + 1], cache, k, v) == BoundsErrors(rs[..n], cache, k, v) + if OutOfBounds(rs[n], cache, k, v) then 1 else 0
  {
    assert rs[..n + 1][..n] == rs[..n] && rs[..n + 1][n] == rs[n];
  }

  lemma {:induction false} TokenOutOfBounds(b: Block, k: int, v: int, t: nat, cache: int)
    requires k > 0 && v > 0
    ensures OutOfBounds(KeyRange(b, k, v, t), cache, k, v) <==> b.block + t >= cache
    ensures OutOfBounds(ValueRange(b, k, v, t), cache, k, v) <==> b.block + t >= cache
  {
    RowOutOfBounds(b.block + t, k, cache);
    RowOutOfBounds(b.block + t, v, cache);
  }

  lemma {:induction false} BoundsUpTo(b: Block, k: int, v: int, rs: seq<Range>, cache: int, n: nat)
    requires BuildUpTo(b, k, v, b.Tokens()) == Success(rs) && n <= b.Tokens()
    ensures |rs| == 2 * b.Tokens()
    ensures BoundsErrors(rs[..2 * n], cache, k, v) == 2 * Max(0, Min(n, b.block + n - cache))
  {
    hide BuildUpTo, KeyRange, ValueRange, OutOfBounds;
    TokenRanges(b, k, v, rs, if n > 0 then n - 1 else 0);
    if n == 0 {
    } else {
      BoundsUpTo(b, k, v, rs, cache, n - 1);
      TokenOutOfBounds(b, k, v, n - 1, cache);
      hide BoundsErrors;
      BoundsSnoc(rs, 2 * n - 2, cache, k, v);
      BoundsSnoc(rs, 2 * n - 1, cache, k, v);
    }
  }

  /** The closed form of the mapper's bounds count, for every cache size. */
  lemma {:induction false} BoundsClosedForm(b: Block, k: int, v: int, rs: seq<Range>, cache: int)
    requires BuildUpTo(b, k, v, b.Tokens()) == Success(rs)
    ensures BoundsErrors(rs, cache, k, v) == 2 * Max(0, Min(b.Tokens(), b.block + b.Tokens() - cache))
  {
    BoundsUpTo(b, k, v, rs, cache, b.Tokens());
    assert rs[..|rs|] == rs;
  }

  lemma {:induction false} DoubleMod(x: nat)
    ensures x % TensorGate.UINT32_SPAN * 2 % TensorGate.UINT32_SPAN == 2 * x % TensorGate.UINT32_SPAN
  {
    var q, r := x / TensorGate.UINT32_SPAN, x % TensorGate.UINT32_SPAN;
    assert 2 * x == 2 * q * TensorGate.UINT32_SPAN + 2 * r;
  }

  /** The C++ count is the same closed form, cut to 32 bits, and nothing for an empty cache. */
  lemma {:induction false} GateCount(cell: nat, tokens: nat, cache: nat)
    ensures TensorGate.BoundsErrors(cell, tokens, cache) ==
      if cache > 0 then 2 * Max(0, Min(tokens, cell + tokens - cache)) % TensorGate.UINT32_SPAN else 0
  {
    DoubleMod(Max(0, Min(tokens, cell + tokens - cache)));
  }

  lemma {:induction false} FitsSpan(x: nat)
    ensures x == x % TensorGate.UINT32_SPAN <==> x < TensorGate.UINT32_SPAN
  {
  }

  /** The mapper and the C++ gate count the same bounds errors exactly when the cache is not empty and the
      count does not leave 32 bits, or there is nothing to count. */
  lemma {:induction false} BoundsAgree(b: Block, k: int, v: int, rs: seq<Range>, cache: nat)
    requires BuildUpTo(b, k, v, b.Tokens()) == Success(rs) && b.block >= 0
    ensures var past := Max(0, Min(b.Tokens(), b.block + b.Tokens() - cache));
      BoundsErrors(rs, cache, k, v) == TensorGate.BoundsErrors(b.block, b.Tokens(), cache) <==> past == 0 || (cache > 0 && 2 * past < TensorGate.UINT32_SPAN)
  {
    hide BoundsErrors, BuildUpTo, TensorGate.BoundsErrors;
    BoundsClosedForm(b, k, v, rs, cache);
    GateCount(b.block, b.Tokens(), cache);
    FitsSpan(2 * Max(0, Min(b.Tokens(), b.block + b.Tokens() - cache)));
  }

  // ---------- scatter and gather ----------

  predicate Usable(r: Range) {
    r.staging >= 0 && r.tensor >= 0 && r.size >= 0
  }

  ghost predicate AllUsable(rs: seq<Range>) {
    forall i :: 0 <= i < |rs| ==> Usable(rs[i])
  }

  /** The K and V tensors, laid one after the other: a V range lands behind the `keySize` K bytes. */
  function Placed(r: Range, keySize: nat): Copy
    requires Usable(r)
  {
    Copy(r.staging, r.tensor + (if r.kind.KeyKind? then 0 else keySize), r.size)
  }

  /** The copies of a list of ranges, in its order. */
  ghost function CopiesOf(rs: seq<Range>, keySize: nat): (r: seq<Copy>)
    requires AllUsable(rs)
    ensures |r| == |rs|
  {
    seq(|rs|, i requires 0 <= i < |rs| => Placed(rs[i], keySize))
  }

  function RowsOf(b: Block, k: nat, v: nat): Rows
    requires b.block >= 0
  {
    Rows(b.block, b.Tokens(), k, v)
  }

  function Shifted(c: Copy, shift: nat): Copy {
    c.(dst := c.dst + shift)
  }

  lemma {:induction false} BuiltUsable(b: Block, k: int, v: int, rs: seq<Range>, n: nat)
    requires BuildUpTo(b, k, v, n) == Success(rs)
    ensures AllUsable(rs)
    decreases n
  {
    hide KeyRange, ValueRange;
    if n == 0 {
    } else {
      BuiltUsable(b, k, v, BuildUpTo(b, k, v, n - 1).value, n - 1);
    }
  }

  lemma {:induction false} PlacedRows(b: Block, k: nat, v: nat, keySize: nat, t: nat)
    requires b.block >= 0 && Usable(KeyRange(b, k, v, t)) && Usable(ValueRange(b, k, v, t))
    ensures Placed(KeyRange(b, k, v, t), keySize) == KeyCopy(RowsOf(b, k, v), t)
    ensures Placed(ValueRange(b, k, v, t), keySize) == Shifted(ValueCopy(RowsOf(b, k, v), t), keySize)
  {
  }

  /** The copies of token `t` in the mapper's list for the first `n` tokens. */
  lemma {:induction false} CopiesAt(b: Block, k: nat, v: nat, keySize: nat, rs: seq<Range>, n: nat, t: nat)
    requires b.block >= 0 && BuildUpTo(b, k, v, n) == Success(rs) && t < n
    ensures AllUsable(rs) && |rs| == 2 * n
    ensures var p, g := CopiesOf(rs, keySize), RowsOf(b, k, v);
      p[2 * t] == KeyCopy(g, t) && p[2 * t + 1] == Shifted(ValueCopy(g, t), keySize)
  {
    BuiltUsable(b, k, v, rs, n);
    BuildExact(b, k, v, n);
    ListedAt(b, k, v, rs, n, t);
    assert Usable(rs[2 * t]) && Usable(rs[2 * t + 1]);
    hide BuildUpTo, Lists, KeyRange, ValueRange, KeyCopy, ValueCopy, Placed, Usable;
    PlacedRows(b, k, v, keySize, t);
  }

  /** The block lies inside the cache. */
  predicate InCache(b: Block, cache: nat) {
    b.block >= 0 && b.block + b.Tokens() <= cache
  }

  /** The ranges that the mapper builds for a block inside the cache. */
  ghost predicate BuiltIn(b: Block, k: nat, v: nat, cache: nat, rs: seq<Range>) {
    InCache(b, cache) && BuildUpTo(b, k, v, b.Tokens()) == Success(rs)
  }

  lemma {:induction false} BuiltCopies(b: Block, k: nat, v: nat, cache: nat, rs: seq<Range>, i: nat)
    requires BuiltIn(b, k, v, cache, rs) && i < |rs|
    ensures AllUsable(rs) && |rs| == 2 * b.Tokens() && i / 2 < b.Tokens()
    ensures var p, g := CopiesOf(rs, cache * k), RowsOf(b, k, v);
      p[i] == if i % 2 == 0 then KeyCopy(g, i / 2) else Shifted(ValueCopy(g, i / 2), cache * k)
  {
    hide BuildUpTo, KeyCopy, ValueCopy, CopiesOf;
    BuildExact(b, k, v, b.Tokens());
    CopiesAt(b, k, v, cache * k, rs, b.Tokens(), i / 2);
    assert i == 2 * (i / 2) || i == 2 * (i / 2) + 1;
  }

  lemma {:induction false} BuiltFit(b: Block, k: nat, v: nat, cache: nat, rs: seq<Range>)
    requires BuiltIn(b, k, v, cache, rs)
    ensures AllUsable(rs) && AllFit(CopiesOf(rs, cache * k), RowsOf(b, k, v).Size(), cache * k + cache * v)
  {
    BuiltUsable(b, k, v, rs, b.Tokens());
    var p := CopiesOf(rs, cache * k);
    hide BuildUpTo, CopiesOf, KeyCopy, ValueCopy;
    forall i | 0 <= i < |p| ensures Fits(p[i], RowsOf(b, k, v).Size(), cache * k + cache * v) {
      BuiltCopies(b, k, v, cache, rs, i);
      KeyCopyFits(RowsOf(b, k, v), cache, i / 2);
      ValueCopyFits(RowsOf(b, k, v), cache, i / 2);
    }
  }

  lemma {:induction false} TokensApart(b: Block, k: nat, v: nat, cache: nat, t: nat, u: nat)
    requires InCache(b, cache) && t < b.Tokens() && u < b.Tokens()
    ensures var g := RowsOf(b, k, v); var x, y := Shifted(ValueCopy(g, t), cache * k), Shifted(ValueCopy(g, u), cache * k);
      && Apart(KeyCopy(g, t), y) && Apart(y, KeyCopy(g, t))
      && (t < u ==> Apart(KeyCopy(g, t), KeyCopy(g, u)) && Apart(x, y))
  {
    var g := RowsOf(b, k, v);
    KeyCopyFits(g, cache, t);
    MulNext(g.cell + t, k);
    MulNext(g.cell + t, v);
    if t < u {
      MulMono(g.cell + t + 1, g.cell + u, k);
      MulMono(g.cell + t + 1, g.cell + u, v);
    }
  }

  lemma {:induction false} BuiltApart(b: Block, k: nat, v: nat, cache: nat, rs: seq<Range>)
    requires BuiltIn(b, k, v, cache, rs)
    ensures AllUsable(rs) && PairwiseApart(CopiesOf(rs, cache * k))
  {
    BuiltUsable(b, k, v, rs, b.Tokens());
    hide BuildUpTo, CopiesOf, KeyCopy, ValueCopy, Shifted, Apart, AllUsable;
    var p := CopiesOf(rs, cache * k);
    forall i, j | 0 <= i < j < |p| ensures Apart(p[i], p[j]) {
      BuiltCopies(b, k, v, cache, rs, i);
      BuiltCopies(b, k, v, cache, rs, j);
      TokensApart(b, k, v, cache, i / 2, j / 2);
      TokensApart(b, k, v, cache, j / 2, i / 2);
    }
  }

  lemma {:induction false} BuiltTiles(b: Block, k: nat, v: nat, cache: nat, rs: seq<Range>)
    requires BuiltIn(b, k, v, cache, rs)
    ensures AllUsable(rs) && Tiles(CopiesOf(rs, cache * k), RowsOf(b, k, v).Size())
  {
    BuiltUsable(b, k, v, rs, b.Tokens());
    BuildExact(b, k, v, b.Tokens());
    var p, g := CopiesOf(rs, cache * k), RowsOf(b, k, v);
    hide BuildUpTo, CopiesOf, AllUsable;
    forall i {:trigger TileEnd(p, i)} | 0 <= i < |p| ensures p[i].src == TileEnd(p, i) {
      BuiltCopies(b, k, v, cache, rs, i);
      if i > 0 {
        BuiltCopies(b, k, v, cache, rs, i - 1);
        MulNext((i - 1) / 2, g.Stride());
        assert i / 2 == (i - 1) / 2 + (if i % 2 == 0 then 1 else 0);
      }
    }
    if b.Tokens() > 0 {
      BuiltCopies(b, k, v, cache, rs, |rs| - 1);
      MulNext(b.Tokens() - 1, g.Stride());
    }
  }

  /** Scattering a block along the ranges that the mapper builds and gathering back restores the staging
      bytes, whatever the tensors and the gathering buffer held before. */
  lemma {:induction false} ScatterGather(b: Block, k: nat, v: nat, cache: nat, rs: seq<Range>, image: seq<Byte>, tensors: seq<Byte>, blank: seq<Byte>)
    requires InCache(b, cache) && BuildUpTo(b, k, v, b.Tokens()) == Success(rs)
    requires |image| == |blank| == RowsOf(b, k, v).Size() && |tensors| == cache * k + cache * v
    ensures AllUsable(rs)
    ensures var p := CopiesOf(rs, cache * k);
      && AllFit(p, |image|, |tensors|) && AllFit(Reverse(p), |tensors|, |blank|)
      && Apply(blank, Apply(tensors, image, p), Reverse(p)) == image
  {
    hide BuildUpTo, CopiesOf, AllFit, PairwiseApart, Tiles, Apply, Reverse;
    BuiltFit(b, k, v, cache, rs);
    BuiltApart(b, k, v, cache, rs);
    BuiltTiles(b, k, v, cache, rs);
    GatherAfterScatter(tensors, image, CopiesOf(rs, cache * k), blank);
  }

  // ---------- the mapper describes what the gate writes ----------

  lemma {:induction false} SpliceLeft(a: seq<Byte>, c: seq<Byte>, at: nat, bytes: seq<Byte>)
    requires at + |bytes| <= |a|
    ensures Splice(a + c, at, bytes) == Splice(a, at, bytes) + c
  {
  }

  lemma {:induction false} SpliceRight(a: seq<Byte>, c: seq<Byte>, at: nat, bytes: seq<Byte>)
    requires at + |bytes| <= |c|
    ensures Splice(a + c, |a| + at, bytes) == a + Splice(c, at, bytes)
  {
  }

  lemma {:induction false} ApplyFront(to: seq<Byte>, from: seq<Byte>, cs: seq<Copy>, c: Copy)
    requires AllFit(cs + [c], |from|, |to|)
    ensures AllFit(cs, |from|, |to|) && Fits(c, |from|, |to|)
    ensures Apply(to, from, cs + [c]) == Splice(Apply(to, from, cs), c.dst, Slice(from, c.src, c.len))
  {
    forall i | 0 <= i < |cs| ensures Fits(cs[i], |from|, |to|) {
      assert (cs + [c])[i] == cs[i];
    }
    assert (cs + [c])[|cs|] == c && (cs + [c])[..|cs|] == cs;
  }

  /** For the first `n` tokens: the mapper's copies write into the two tensors exactly what the gate's K
      and V copies write. */
  ghost predicate SameWrites(image: seq<Byte>, key: seq<Byte>, value: seq<Byte>, p: seq<Copy>, ks: seq<Copy>, vs: seq<Copy>) {
    && AllFit(p, |image|, |key + value|) && AllFit(ks, |image|, |key|) && AllFit(vs, |image|, |value|)
    && Apply(key + value, image, p) == Apply(key, image, ks) + Apply(value, image, vs)
  }

  lemma {:induction false} FitsSnoc(cs: seq<Copy>, c: Copy, from: nat, to: nat)
    requires AllFit(cs, from, to) && Fits(c, from, to)
    ensures AllFit(cs + [c], from, to)
  {
  }

  lemma {:induction false} KeyStep(image: seq<Byte>, key: seq<Byte>, value: seq<Byte>, p: seq<Copy>, ks: seq<Copy>, vs: seq<Copy>, c: Copy)
    requires SameWrites(image, key, value, p, ks, vs) && Fits(c, |image|, |key|)
    ensures SameWrites(image, key, value, p + [c], ks + [c], vs)
  {
    hide Apply, AllFit, Slice;
    FitsSnoc(p, c, |image|, |key + value|);
    FitsSnoc(ks, c, |image|, |key|);
    ApplyFront(key + value, image, p, c);
    ApplyFront(key, image, ks, c);
    SpliceLeft(Apply(key, image, ks), Apply(value, image, vs), c.dst, Slice(image, c.src, c.len));
  }

  lemma {:induction false} ValueStep(image: seq<Byte>, key: seq<Byte>, value: seq<Byte>, p: seq<Copy>, ks: seq<Copy>, vs: seq<Copy>, c: Copy)
    requires SameWrites(image, key, value, p, ks, vs) && Fits(c, |image|, |value|)
    ensures SameWrites(image, key, value, p + [Shifted(c, |key|)], ks, vs + [c])
  {
    hide Apply, AllFit, Slice;
    FitsSnoc(p, Shifted(c, |key|), |image|, |key + value|);
    FitsSnoc(vs, c, |image|, |value|);
    ApplyFront(key + value, image, p, Shifted(c, |key|));
    ApplyFront(value, image, vs, c);
    SpliceRight(Apply(key, image, ks), Apply(value, image, vs), c.dst, Slice(image, c.src, c.len));
  }

  /** For the first `n` tokens: the mapper's ranges write into the two tensors exactly what the gate's K
      and V copies write. */
  lemma {:induction false} BuiltWrites(b: Block, k: nat, v: nat, cache: nat, rs: seq<Range>, image: seq<Byte>, key: seq<Byte>, value: seq<Byte>, n: nat)
    requires InCache(b, cache) && n <= b.Tokens() && BuildUpTo(b, k, v, n) == Success(rs)
    requires |image| == RowsOf(b, k, v).Size() && |key| == cache * k && |value| == cache * v
    ensures AllUsable(rs)
    ensures SameWrites(image, key, value, CopiesOf(rs, |key|), KeyCopies(RowsOf(b, k, v), n), ValueCopies(RowsOf(b, k, v), n))
    decreases n
  {
    hide SameWrites, Fits;
    BuiltUsable(b, k, v, rs, n);
    if n == 0 {
      NoWrites(image, key, value);
    } else {
      var g, front := RowsOf(b, k, v), BuildUpTo(b, k, v, n - 1).value;
      BuiltWrites(b, k, v, cache, front, image, key, value, n - 1);
      CopiesAt(b, k, v, |key|, rs, n, n - 1);
      CopiesPrefix(front, KeyRange(b, k, v, n - 1), ValueRange(b, k, v, n - 1), |key|);
      KeyCopyFits(g, cache, n - 1);
      ValueCopyFits(g, cache, n - 1);
      var p, kc, vc := CopiesOf(front, |key|), KeyCopy(g, n - 1), ValueCopy(g, n - 1);
      BuildExact(b, k, v, n - 1);
      hide BuildUpTo, CopiesOf, KeyCopy, ValueCopy, KeyRange, ValueRange;
      KeyStep(image, key, value, p, KeyCopies(g, n - 1), ValueCopies(g, n - 1), kc);
      ValueStep(image, key, value, p + [kc], KeyCopies(g, n - 1) + [kc], ValueCopies(g, n - 1), vc);
      assert KeyCopies(g, n) == KeyCopies(g, n - 1) + [kc] && ValueCopies(g, n) == ValueCopies(g, n - 1) + [vc];
      assert CopiesOf(rs, |key|) == (p + [kc]) + [Shifted(vc, |key|)];
    }
  }

  lemma {:induction false} CopiesPrefix(front: seq<Range>, x: Range, y: Range, keySize: nat)
    requires AllUsable(front + [x, y])
    ensures AllUsable(front) && Usable(x) && Usable(y)
    ensures CopiesOf(front + [x, y], keySize) == CopiesOf(front, keySize) + [Placed(x, keySize), Placed(y, keySize)]
  {
    var all := front + [x, y];
    assert all[|front|] == x && all[|front| + 1] == y;
    forall i | 0 <= i < |front| ensures Usable(front[i]) {
      assert all[i] == front[i];
    }
  }

  lemma {:induction false} NoWrites(image: seq<Byte>, key: seq<Byte>, value: seq<Byte>)
    ensures SameWrites(image, key, value, [], [], [])
  {
  }

  /** For rows of any sizes: a block that the gate copies (with a row-major V tensor) is mappable without error,
      and the ranges that the mapper builds write into the tensors exactly what the gate writes. */
  lemma {:induction false} RowsDescribeGate(b: Block, k: nat, v: nat, site: TensorGate.Site, image: seq<Byte>, key: seq<Byte>, value: seq<Byte>)
    requires b.layer >= 0 && b.start >= 0 && b.offset >= 0 && b.block >= 0 && !site.vTrans
    requires TensorGate.Shaped(site, |key|, |value|) && TensorGate.Judge(RowsOf(b, k, v), |image|, site).Copied?
    ensures BuildUpTo(b, k, v, b.Tokens()).Success? && AllUsable(BuildUpTo(b, k, v, b.Tokens()).value)
    ensures var rs := BuildUpTo(b, k, v, b.Tokens()).value; var p, g := CopiesOf(rs, |key|), RowsOf(b, k, v);
      && CoverageErrors(rs, |image|) == 0 && BoundsErrors(rs, site.cache, k, v) == 0
      && AllFit(p, |image|, |key + value|) && AllFit(KeyCopies(g, g.tokens), |image|, |key|) && AllFit(TensorGate.ValuePlan(g, site, g.tokens), |image|, |value|)
      && Apply(key + value, image, p) == TensorGate.WriteKeys(key, image, g, site) + TensorGate.WriteValues(value, image, g, site)
  {
    BuildExact(b, k, v, b.Tokens());
    var rs := BuildUpTo(b, k, v, b.Tokens()).value;
    BuiltCoverage(b, k, v, rs, |image|);
    BoundsClosedForm(b, k, v, rs, site.cache);
    BuiltWrites(b, k, v, site.cache, rs, image, key, value, b.Tokens());
    hide Apply, CopiesOf, BuildUpTo, CoverageErrors, BoundsErrors;
  }

  function KeyOf(b: Block): Key {
    Key(b.layer, b.block, b.start, b.end)
  }

  /** The mapper and the mutation gate agree by default: for a block that the gate copies with the rows it
      infers (with a row-major V tensor), the mapper infers the same rows without being given any, reports no
      error, and builds ranges that write into the tensors exactly what the gate writes. */
  lemma {:induction false} MapperDescribesGate(b: Block, site: TensorGate.Site, image: seq<Byte>, key: seq<Byte>, value: seq<Byte>)
    requires b.layer >= 0 && b.start >= 0 && b.offset >= 0 && b.block >= 0 && !site.vTrans
    requires TensorGate.Shaped(site, |key|, |value|) && TensorGate.Judge(B.RowsFor(KeyOf(b), |image|), |image|, site).Copied?
    ensures b.Tokens() > 0 && var g := B.RowsFor(KeyOf(b), |image|);
      && ResolveRowSizes(|image|, b.Tokens(), None, None) == Success(RowSizes(g.keyRow, g.valueRow, true))
      && BuildUpTo(b, g.keyRow, g.valueRow, b.Tokens()).Success? && AllUsable(BuildUpTo(b, g.keyRow, g.valueRow, b.Tokens()).value)
      && var rs := BuildUpTo(b, g.keyRow, g.valueRow, b.Tokens()).value; var p := CopiesOf(rs, |key|);
      && CoverageErrors(rs, |image|) == 0 && BoundsErrors(rs, site.cache, g.keyRow, g.valueRow) == 0
      && AllFit(p, |image|, |key + value|) && AllFit(KeyCopies(g, g.tokens), |image|, |key|) && AllFit(TensorGate.ValuePlan(g, site, g.tokens), |image|, |value|)
      && Apply(key + value, image, p) == TensorGate.WriteKeys(key, image, g, site) + TensorGate.WriteValues(value, image, g, site)
  {
    var g := B.RowsFor(KeyOf(b), |image|);
    GateRows(b, |image|, site);
    DefaultRows(|image|, b.Tokens());
    hide B.RowsFor, ResolveRowSizes, BuildUpTo, CopiesOf, Apply, CoverageErrors, BoundsErrors, TensorGate.Judge, TensorGate.Shaped;
    RowsDescribeGate(b, g.keyRow, g.valueRow, site, image, key, value);
  }

  lemma {:induction false} GateRows(b: Block, size: int, site: TensorGate.Site)
    requires b.block >= 0 && TensorGate.Judge(B.RowsFor(KeyOf(b), size), size, site).Copied?
    ensures var g := B.RowsFor(KeyOf(b), size);
      && b.Tokens() > 0 && size > 0 && g == RowsOf(b, g.keyRow, g.valueRow)
      && g.keyRow == g.valueRow == B.InferRow(size, b.Tokens()) > 0
  {
    hide B.InferRow;
  }

  // ---------- the checks of one block together ----------

  datatype Refusal = BadRows(error: RowError) | BadRange

  datatype Verified = Verified(ranges: seq<Range>, rows: RowSizes, sizeMismatches: nat, coverageErrors: nat)

  /** The verifier accepts exactly the mappable blocks; then size mismatch, coverage error and exact coverage
      all agree, and inferred rows have none of the errors. */
  ghost predicate VerifiedWith(b: Block, size: int, rows: RowSizes, r: Result<Verified, Refusal>) {
    if !Mappable(b, rows.key, rows.value) then r.Failure? && r.error.BadRange?
    else
      && r.Success? && r.value.rows == rows
      && BuildUpTo(b, rows.key, rows.value, b.Tokens()) == Success(r.value.ranges)
      && r.value.sizeMismatches == r.value.coverageErrors
      && (r.value.sizeMismatches == 0 <==> ExactCover(r.value.ranges, size))
      && (rows.inferred ==> r.value.sizeMismatches == 0)
  }

  /** The part of the verifier's loop body that depends on the block alone. */
  method VerifyBlock(b: Block, size: int, key: Option<int>, value: Option<int>) returns (r: Result<Verified, Refusal>)
    requires b.Tokens() > 0
    ensures ResolveRowSizes(size, b.Tokens(), key, value).Failure? ==>
      r.Failure? && r.error.BadRows? && r.error.error == ResolveRowSizes(size, b.Tokens(), key, value).error
    ensures ResolveRowSizes(size, b.Tokens(), key, value).Success? ==>
      VerifiedWith(b, size, ResolveRowSizes(size, b.Tokens(), key, value).value, r)
  {
    var resolved := ResolveRowSizes(size, b.Tokens(), key, value);
    if resolved.Failure? {
      return Failure(BadRows(resolved.error));
    }
    ResolveFits(size, b.Tokens(), key, value);
    hide ResolveRowSizes, BuildUpTo, Mappable;
    var rows := resolved.value;
    var mismatches := if (rows.key + rows.value) * b.Tokens() != size then 1 else 0;
    var built := BuildBlockRanges(b, rows.key, rows.value);
    BuildExact(b, rows.key, rows.value, b.Tokens());
    if built.Failure? {
      return Failure(BadRange);
    }
    ChecksAgree(b, rows.key, rows.value, built.value, size);
    hide CoverageErrors, ExactCover;
    var coverage := CountCoverageErrors(built.value, size);
    return Success(Verified(built.value, rows, mismatches, coverage));
  }

  /** The size check, the coverage check and exact coverage all say the same. */
  lemma {:induction false} ChecksAgree(b: Block, k: int, v: int, rs: seq<Range>, size: int)
    requires b.Tokens() > 0 && BuildUpTo(b, k, v, b.Tokens()) == Success(rs)
    ensures CoverageErrors(rs, size) == 0 <==> ExactCover(rs, size)
    ensures CoverageErrors(rs, size) == if (k + v) * b.Tokens() == size then 0 else 1
  {
    BuiltCoverage(b, k, v, rs, size);
    BuiltPositive(b, k, v, rs);
    BuildExact(b, k, v, b.Tokens());
    MulMono(1, b.Tokens(), k + v);
    hide BuildUpTo, ScanTo, Mappable;
    if size >= 0 {
      CoverageExact(rs, size);
    } else {
      CoverOfNothing(rs, size, b.Tokens() * (k + v));
    }
    hide ExactCover;
  }

  lemma {:induction false} CoverOfNothing(rs: seq<Range>, size: int, total: int)
    requires size < 0 < total && ExactCover(rs, total)
    ensures !ExactCover(rs, size)
  {
    assert CoverCount(rs, 0) == 1;
  }

  // ---------- the blocks of a plan ----------

  datatype PlanBlock = PlanBlock(key: Key, extent: Extent)

  predicate KeyLe(a: Key, b: Key) {
    a.layer < b.layer || (a.layer == b.layer && (a.block < b.block || (a.block == b.block &&
      (a.start < b.start || (a.start == b.start && a.end <= b.end)))))
  }

  predicate BlockLe(a: PlanBlock, b: PlanBlock) {
    KeyLe(a.key, b.key)
  }

  datatype Inconsistent = Inconsistent(key: Key)

  function EntryOf(c: Command): PlanBlock {
    PlanBlock(c.BufferKey(), c.Place())
  }

  predicate Listed(blocks: seq<PlanBlock>, key: Key) {
    exists i :: 0 <= i < |blocks| && blocks[i].key == key
  }

  /** One entry for each key of the first `n` commands. */
  ghost predicate Collects(blocks: seq<PlanBlock>, cs: seq<Command>, n: nat)
    requires n <= |cs|
  {
    && (forall i, j :: 0 <= i < j < |blocks| ==> blocks[i].key != blocks[j].key)
    && (forall i :: 0 <= i < n ==> EntryOf(cs[i]) in blocks)
    && (forall i :: 0 <= i < |blocks| ==> exists j :: 0 <= j < n && EntryOf(cs[j]) == blocks[i])
  }

  /** One key is described by one range: what the tensor theorems ask of a command list. */
  ghost predicate OneRangeEach(cs: seq<Command>) {
    forall i, j :: 0 <= i < |cs| && 0 <= j < |cs| && cs[i].BufferKey() == cs[j].BufferKey() ==> EntryOf(cs[i]) == EntryOf(cs[j])
  }

  lemma {:induction false} CollectsOne(blocks: seq<PlanBlock>, cs: seq<Command>)
    requires Collects(blocks, cs, |cs|)
    ensures OneRangeEach(cs)
  {
    forall i, j | 0 <= i < |cs| && 0 <= j < |cs| && cs[i].BufferKey() == cs[j].BufferKey() ensures EntryOf(cs[i]) == EntryOf(cs[j]) {
      assert EntryOf(cs[i]) in blocks && EntryOf(cs[j]) in blocks;
    }
  }

  lemma {:induction false} EntryKey(c: Command)
    ensures EntryOf(c).key == c.BufferKey()
  {
  }

  /** The next command repeats a listed block. */
  lemma {:induction false} CollectAgain(blocks: seq<PlanBlock>, cs: seq<Command>, n: nat, at: nat)
    requires n < |cs| && Collects(blocks, cs, n) && at < |blocks| && blocks[at] == EntryOf(cs[n])
    ensures Collects(blocks, cs, n + 1)
  {
    hide EntryOf;
    assert EntryOf(cs[n]) in blocks;
    forall i | 0 <= i < |blocks| ensures exists j :: 0 <= j < n + 1 && EntryOf(cs[j]) == blocks[i] {
      var j :| 0 <= j < n && EntryOf(cs[j]) == blocks[i];
    }
  }

  /** The next command brings a new block. */
  lemma {:induction false} CollectNew(blocks: seq<PlanBlock>, cs: seq<Command>, n: nat)
    requires n < |cs| && Collects(blocks, cs, n) && !Listed(blocks, cs[n].BufferKey())
    ensures Collects(blocks + [EntryOf(cs[n])], cs, n + 1)
  {
    EntryKey(cs[n]);
    hide EntryOf;
    var x := EntryOf(cs[n]);
    var after := blocks + [x];
    forall i, j | 0 <= i < j < |after| ensures after[i].key != after[j].key {
      if j == |blocks| {
        assert after[i] == blocks[i];
      }
    }
    forall i | 0 <= i < n + 1 ensures EntryOf(cs[i]) in after {
      if i < n {
        assert EntryOf(cs[i]) in blocks;
      } else {
        assert after[|blocks|] == x;
      }
    }
    forall i | 0 <= i < |after| ensures exists j :: 0 <= j < n + 1 && EntryOf(cs[j]) == after[i] {
      if i < |blocks| {
        assert after[i] == blocks[i];
        var j :| 0 <= j < n && EntryOf(cs[j]) == blocks[i];
      } else {
        assert EntryOf(cs[n]) == after[i];
      }
    }
  }

  method FindBlock(blocks: seq<PlanBlock>, key: Key) returns (at: Option<nat>)
    ensures at.Some? ==> at.value < |blocks| && blocks[at.value].key == key
    ensures at.None? ==> !Listed(blocks, key)
  {
    var i := 0;
    while i < |blocks|
      invariant 0 <= i <= |blocks| && forall j :: 0 <= j < i ==> blocks[j].key != key
    {
      if blocks[i].key == key {
        return Some(i);
      }
      i := i + 1;
    }
    return None;
  }

  /** `_unique_blocks`: it succeeds exactly on plans that give each block one range, and then lists every
      block once, in key order. */
  method UniqueBlocks(cs: seq<Command>) returns (r: Result<seq<PlanBlock>, Inconsistent>)
    ensures r.Success? <==> OneRangeEach(cs)
    ensures r.Success? ==> Collects(r.value, cs, |cs|) && Ordered(r.value, BlockLe)
  {
    var blocks: seq<PlanBlock> := [];
    var n := 0;
    while n < |cs|
      invariant 0 <= n <= |cs| && Collects(blocks, cs, n)
    {
      var seen := FindBlock(blocks, cs[n].BufferKey());
      if seen.Some? && blocks[seen.value].extent != cs[n].Place() {
        ghost var j :| 0 <= j < n && EntryOf(cs[j]) == blocks[seen.value];
        assert cs[j].BufferKey() == cs[n].BufferKey() && EntryOf(cs[j]) != EntryOf(cs[n]);
        return Failure(Inconsistent(cs[n].BufferKey()));
      }
      if seen.None? {
        CollectNew(blocks, cs, n);
        blocks := blocks + [EntryOf(cs[n])];
      } else {
        CollectAgain(blocks, cs, n, seen.value);
      }
      n := n + 1;
    }
    CollectsOne(blocks, cs);
    SortOrders(blocks, BlockLe);
    SortPermutes(blocks, BlockLe);
    SortedCollects(blocks, Sort(blocks, BlockLe), cs);
    return Success(Sort(blocks, BlockLe));
  }

  lemma {:induction false} SortedCollects(blocks: seq<PlanBlock>, sorted: seq<PlanBlock>, cs: seq<Command>)
    requires Collects(blocks, cs, |cs|) && multiset(sorted) == multiset(blocks)
    ensures Collects(sorted, cs, |cs|)
  {
    SameElements(sorted, blocks);
    assert Distinct(blocks);
    DistinctPermuted(blocks, sorted);
    forall i, j | 0 <= i < j < |sorted| ensures sorted[i].key != sorted[j].key {
      assert sorted[i] in sorted && sorted[j] in sorted && sorted[i] != sorted[j];
      var x :| 0 <= x < |blocks| && blocks[x] == sorted[i];
      var y :| 0 <= y < |blocks| && blocks[y] == sorted[j];
      assert blocks[if x < y then x else y].key != blocks[if x < y then y else x].key;
    }
    forall i | 0 <= i < |sorted| ensures exists j :: 0 <= j < |cs| && EntryOf(cs[j]) == sorted[i] {
      assert sorted[i] in sorted;
      assert sorted[i] in blocks;
    }
  }
}
