/** Block selection: the earliest blocks, the latest blocks, and the best-scored blocks in between. The
    score of a block against the query is a parameter.
 */
module Selector {
  import opened Kv
  import opened Blocks
  import opened Sorting

  datatype SelectionConfig = SelectionConfig(init: nat, local: nat, selected: nat)

  datatype Selection = Selection(init: seq<BlockInfo>, local: seq<BlockInfo>, selected: seq<BlockInfo>) {
    /** The distinct blocks of the three groups, in order. */
    function AllBlocks(): seq<BlockInfo> {
      Dedupe(init + local + selected)
    }
  }

  predicate StartLe(a: BlockInfo, b: BlockInfo) {
    a.start < b.start || (a.start == b.start && a.key.block <= b.key.block)
  }

  /** Higher scores first, then earlier blocks. */
  predicate RankLe(score: BlockInfo -> real, a: BlockInfo, b: BlockInfo) {
    score(a) > score(b) || (score(a) == score(b) && StartLe(a, b))
  }

  function Rank(score: BlockInfo -> real): (BlockInfo, BlockInfo) -> bool {
    (a, b) => RankLe(score, a, b)
  }

  /** The layer's blocks that end before the current token. */
  predicate IsEligible(b: BlockInfo, layer: int, token: int) {
    b.key.layer == layer && b.end <= token
  }

  function Eligible(bs: seq<BlockInfo>, layer: int, token: int): seq<BlockInfo> {
    if bs == [] then []
    else Eligible(bs[..|bs| - 1], layer, token) + if IsEligible(bs[|bs| - 1], layer, token) then [bs[|bs| - 1]] else []
  }

  /** The blocks whose key is not among those of `taken`. */
  function Without(bs: seq<BlockInfo>, taken: seq<BlockInfo>): seq<BlockInfo> {
    if bs == [] then []
    else Without(bs[..|bs| - 1], taken) + if HasKey(taken, bs[|bs| - 1].key) then [] else [bs[|bs| - 1]]
  }

  function First<T>(s: seq<T>, n: nat): seq<T> {
    if n < |s| then s[..n] else s
  }

  /** The last `n`; none at all for zero. */
  function Last<T>(s: seq<T>, n: nat): seq<T> {
    if n == 0 then [] else if n < |s| then s[|s| - n..] else s
  }

  function InOrder(bs: seq<BlockInfo>, layer: int, token: int): seq<BlockInfo> {
    Sort(Eligible(bs, layer, token), StartLe)
  }

  /** `BlockSelector.select`. */
  function Select(bs: seq<BlockInfo>, layer: int, token: int, cfg: SelectionConfig, score: BlockInfo -> real): Selection {
    var blocks := InOrder(bs, layer, token);
    var init := First(blocks, cfg.init);
    var local := Last(Without(blocks, init), cfg.local);
    var candidates := Without(Without(blocks, init), local);
    Selection(init, local, First(Sort(candidates, Rank(score)), cfg.selected))
  }

  // ---------- order ----------

  lemma {:induction false} EligibleIs(bs: seq<BlockInfo>, layer: int, token: int)
    requires DistinctKeys(bs)
    ensures DistinctKeys(Eligible(bs, layer, token))
    ensures forall b :: b in Eligible(bs, layer, token) <==> b in bs && IsEligible(b, layer, token)
  {
    if bs == [] {
    } else {
      var front := bs[..|bs| - 1];
      EligibleIs(front, layer, token);
      var e := Eligible(front, layer, token);
      forall i | 0 <= i < |e| ensures e[i].key != bs[|bs| - 1].key {
        assert e[i] in e;
        var j :| 0 <= j < |front| && front[j] == e[i];
      }
    }
  }

  lemma {:induction false} EligiblePermutes(a: seq<BlockInfo>, layer: int, token: int, x: BlockInfo)
    ensures multiset(Eligible(a, layer, token))[x] == if IsEligible(x, layer, token) then multiset(a)[x] else 0
  {
    if a == [] {
    } else {
      EligiblePermutes(a[..|a| - 1], layer, token, x);
      assert a == a[..|a| - 1] + [a[|a| - 1]];
    }
  }

  lemma {:induction false} KeyIndex(bs: seq<BlockInfo>, i: nat, j: nat)
    requires DistinctKeys(bs) && i < |bs| && j < |bs| && bs[i].key == bs[j].key
    ensures i == j
  {
  }

  /** Blocks of one layer with distinct keys never tie. */
  lemma {:induction false} LayerOrders(bs: seq<BlockInfo>, layer: int, score: BlockInfo -> real)
    requires DistinctKeys(bs) && forall b :: b in bs ==> b.key.layer == layer
    ensures TotalOn(bs, StartLe) && NoTies(bs, StartLe) && TotalOn(bs, Rank(score)) && NoTies(bs, Rank(score))
  {
    forall x, y | x in bs && y in bs && x.key.block == y.key.block ensures x == y {
      var i :| 0 <= i < |bs| && bs[i] == x;
      var j :| 0 <= j < |bs| && bs[j] == y;
      KeyIndex(bs, i, j);
    }
  }

  /** The eligible blocks in token order: a sorted permutation with distinct keys. */
  lemma {:induction false} OrderedIs(bs: seq<BlockInfo>, layer: int, token: int)
    requires DistinctKeys(bs)
    ensures var e := InOrder(bs, layer, token);
      && DistinctKeys(e) && Ordered(e, StartLe) && multiset(e) == multiset(Eligible(bs, layer, token))
      && (forall b :: b in e <==> b in bs && IsEligible(b, layer, token))
  {
    var x := Eligible(bs, layer, token);
    EligibleIs(bs, layer, token);
    LayerOrders(x, layer, b => 0.0);
    SortOrders(x, StartLe);
    SortPermutes(x, StartLe);
    KeysPermuted(x, Sort(x, StartLe));
    SameElements(x, Sort(x, StartLe));
  }

  // ---------- the three groups ----------

  lemma {:induction false} NotEarlier(bs: seq<BlockInfo>, n: nat, m: nat)
    requires DistinctKeys(bs) && n <= m < |bs|
    ensures !HasKey(bs[..n], bs[m].key)
  {
    forall i | 0 <= i < |bs[..n]| ensures bs[..n][i].key != bs[m].key {
      assert bs[..n][i] == bs[i];
    }
  }

  lemma {:induction false} NotLater(bs: seq<BlockInfo>, n: nat, m: nat)
    requires DistinctKeys(bs) && m < n <= |bs|
    ensures !HasKey(bs[n..], bs[m].key)
  {
    forall i | 0 <= i < |bs[n..]| ensures bs[n..][i].key != bs[m].key {
      assert bs[n..][i] == bs[n + i];
    }
  }

  lemma {:induction false} WithoutFirst(bs: seq<BlockInfo>, n: nat, m: nat)
    requires DistinctKeys(bs) && n <= m <= |bs|
    ensures Without(bs[..m], bs[..n]) == bs[n..m]
    decreases m
  {
    hide HasKey, DistinctKeys;
    if m > n {
      WithoutFirst(bs, n, m - 1);
      assert bs[..m][..m - 1] == bs[..m - 1] && bs[..m][m - 1] == bs[m - 1];
      NotEarlier(bs, n, m - 1);
    } else {
      WithoutSelf(bs[..n], n);
      assert bs[..n][..n] == bs[..n];
    }
  }

  lemma {:induction false} WithoutSelf(bs: seq<BlockInfo>, n: nat)
    requires n <= |bs|
    ensures Without(bs[..n], bs) == []
  {
    if n == 0 {
    } else {
      WithoutSelf(bs, n - 1);
      assert bs[..n][..n - 1] == bs[..n - 1];
      assert HasKey(bs, bs[n - 1].key);
    }
  }

  lemma {:induction false} WithoutLast(bs: seq<BlockInfo>, n: nat, m: nat)
    requires DistinctKeys(bs) && n <= |bs| && m <= |bs|
    ensures Without(bs[..m], bs[n..]) == if m <= n then bs[..m] else bs[..n]
  {
    if m == 0 {
    } else {
      WithoutLast(bs, n, m - 1);
      assert bs[..m][..m - 1] == bs[..m - 1];
      if m - 1 >= n {
        assert bs[n..][m - 1 - n] == bs[m - 1];
      } else {
        NotLater(bs, n, m - 1);
      }
    }
  }

  function Least(a: nat, b: nat): nat {
    if a < b then a else b
  }

  /** The middle of the ordered list: what neither the init nor the local group takes. */
  function Middle(e: seq<BlockInfo>, cfg: SelectionConfig): seq<BlockInfo> {
    var i := Least(cfg.init, |e|);
    e[i..|e| - Least(cfg.local, |e| - i)]
  }

  lemma {:induction false} DropDistinct(e: seq<BlockInfo>, i: nat)
    requires DistinctKeys(e) && i <= |e|
    ensures DistinctKeys(e[i..])
  {
  }

  /** A list is its first `i`, its last `l`, and what lies between. */
  lemma {:induction false} ThreeParts<T>(e: seq<T>, i: nat, l: nat)
    requires i + l <= |e|
    ensures e == e[..i] + e[i..|e| - l] + e[|e| - l..]
    ensures e[i..][..|e| - i - l] == e[i..|e| - l] && e[i..][|e| - i - l..] == e[|e| - l..]
    ensures e[..|e|] == e && e[i..|e|] == e[i..]
  {
  }

  lemma {:induction false} EndsAre<T>(s: seq<T>, n: nat)
    ensures First(s, n) == s[..Least(n, |s|)] && Last(s, n) == s[|s| - Least(n, |s|)..]
  {
  }

  /** Taking the first and then the last blocks leaves the middle. */
  lemma {:induction false} Groups(e: seq<BlockInfo>, cfg: SelectionConfig)
    requires DistinctKeys(e)
    ensures var init := First(e, cfg.init); var local := Last(Without(e, init), cfg.local);
      && e == init + Middle(e, cfg) + local
      && |init| == Least(cfg.init, |e|) && |local| == Least(cfg.local, |e| - |init|)
      && Without(Without(e, init), local) == Middle(e, cfg)
  {
    hide Without, HasKey, DistinctKeys, First, Last;
    var i := Least(cfg.init, |e|);
    var rest := e[i..];
    var l := Least(cfg.local, |rest|);
    ThreeParts(e, i, l);
    EndsAre(e, cfg.init);
    EndsAre(rest, cfg.local);
    WithoutFirst(e, i, |e|);
    DropDistinct(e, i);
    WithoutLast(rest, |rest| - l, |rest|);
    ThreeParts(rest, 0, l);
  }

  /** The three groups are the start, the end, and the best of the middle, of the ordered eligible list. */
  lemma {:induction false} SelectGroups(bs: seq<BlockInfo>, layer: int, token: int, cfg: SelectionConfig, score: BlockInfo -> real)
    requires DistinctKeys(bs)
    ensures var e, r := InOrder(bs, layer, token), Select(bs, layer, token, cfg, score);
      && e == r.init + Middle(e, cfg) + r.local
      && |r.init| == Least(cfg.init, |e|) && |r.local| == Least(cfg.local, |e| - |r.init|)
      && r.selected == First(Sort(Middle(e, cfg), Rank(score)), cfg.selected)
  {
    hide InOrder, Middle, Without, First, Last, Sort;
    OrderedIs(bs, layer, token);
    Groups(InOrder(bs, layer, token), cfg);
  }

  lemma {:induction false} FirstHas<T>(s: seq<T>, n: nat, j: nat)
    requires j < |s|
    ensures j < |First(s, n)| ==> s[j] in First(s, n)
  {
    assert j < |First(s, n)| ==> First(s, n)[j] == s[j];
  }

  /** The first of a sorted list: nothing that is left out goes before something that is taken. */
  lemma {:induction false} FirstAreLeast<T>(all: seq<T>, le: (T, T) -> bool, n: nat)
    requires TotalOn(all, le) && NoTies(all, le)
    ensures var chosen := First(Sort(all, le), n);
      && |chosen| == Least(n, |all|) && Ordered(chosen, le) && (forall x :: x in chosen ==> x in all)
      && (forall x, y :: x in chosen && y in all && y !in chosen ==> le(x, y) && !le(y, x))
  {
    var sorted := Sort(all, le);
    SortOrders(all, le);
    SortPermutes(all, le);
    SameElements(all, sorted);
    var chosen := First(sorted, n);
    hide Sort;
    forall x | x in chosen ensures x in all {
      assert x in sorted;
    }
    forall x, y | x in chosen && y in all && y !in chosen ensures le(x, y) && !le(y, x) {
      var i :| 0 <= i < |chosen| && chosen[i] == x;
      assert y in sorted;
      var j :| 0 <= j < |sorted| && sorted[j] == y;
      FirstHas(sorted, n, j);
      assert le(sorted[i], sorted[j]);
    }
  }

  lemma {:induction false} FirstDistinct(s: seq<BlockInfo>, n: nat)
    requires DistinctKeys(s)
    ensures DistinctKeys(First(s, n))
  {
  }

  /** The selected blocks are the top of the middle: all of it if it is small, and otherwise none that was
      left out ranks before one that was taken. */
  lemma {:induction false} SelectedAreTop(bs: seq<BlockInfo>, layer: int, token: int, cfg: SelectionConfig, score: BlockInfo -> real)
    requires DistinctKeys(bs)
    ensures var middle, chosen := Middle(InOrder(bs, layer, token), cfg), Select(bs, layer, token, cfg, score).selected;
      && |chosen| == Least(cfg.selected, |middle|)
      && (forall b :: b in chosen ==> b in middle)
      && (forall x, y :: x in chosen && y in middle && y !in chosen ==> RankLe(score, x, y) && !RankLe(score, y, x))
      && Ordered(chosen, Rank(score)) && DistinctKeys(chosen)
  {
    SelectGroups(bs, layer, token, cfg, score);
    OrderedIs(bs, layer, token);
    var e := InOrder(bs, layer, token);
    MiddleDistinct(e, cfg, layer);
    var middle := Middle(e, cfg);
    hide InOrder, Select, Middle, RankLe;
    LayerOrders(middle, layer, score);
    SortPermutes(middle, Rank(score));
    KeysPermuted(middle, Sort(middle, Rank(score)));
    FirstDistinct(Sort(middle, Rank(score)), cfg.selected);
    FirstAreLeast(middle, Rank(score), cfg.selected);
    forall x, y ensures Rank(score)(x, y) == RankLe(score, x, y) {
    }
  }

  lemma {:induction false} MiddleDistinct(e: seq<BlockInfo>, cfg: SelectionConfig, layer: int)
    requires DistinctKeys(e) && forall b :: b in e ==> b.key.layer == layer
    ensures DistinctKeys(Middle(e, cfg)) && (forall b :: b in Middle(e, cfg) ==> b.key.layer == layer)
  {
  }

  ghost predicate KeysApart(a: seq<BlockInfo>, b: seq<BlockInfo>) {
    forall i, j :: 0 <= i < |a| && 0 <= j < |b| ==> a[i].key != b[j].key
  }

  /** The groups share no block, so together they have as many blocks as they ask for, or all there are. */
  lemma {:induction false} GroupsDisjoint(bs: seq<BlockInfo>, layer: int, token: int, cfg: SelectionConfig, score: BlockInfo -> real)
    requires DistinctKeys(bs)
    ensures var r := Select(bs, layer, token, cfg, score);
      && KeysApart(r.init, r.local) && KeysApart(r.init, r.selected) && KeysApart(r.local, r.selected)
      && r.AllBlocks() == r.init + r.local + r.selected
      && |r.AllBlocks()| == Least(|Eligible(bs, layer, token)|, cfg.init + cfg.local + cfg.selected)
  {
    OrderedIs(bs, layer, token);
    SelectGroups(bs, layer, token, cfg, score);
    SelectedAreTop(bs, layer, token, cfg, score);
    var e, r := InOrder(bs, layer, token), Select(bs, layer, token, cfg, score);
    var middle := Middle(e, cfg);
    PartsApart(r.init, middle, r.local);
    ApartSubset(r.init, middle, r.selected);
    ApartSubset(r.local, middle, r.selected);
    DistinctJoin(r.init, r.local);
    forall i, j | 0 <= i < |r.init + r.local| && 0 <= j < |r.selected| ensures (r.init + r.local)[i].key != r.selected[j].key {
    }
    DistinctJoin(r.init + r.local, r.selected);
    DedupeOfDistinct(r.init + r.local + r.selected);
    assert |e| == |multiset(e)| == |Eligible(bs, layer, token)|;
  }

  lemma {:induction false} PartsApart(a: seq<BlockInfo>, b: seq<BlockInfo>, c: seq<BlockInfo>)
    requires DistinctKeys(a + b + c)
    ensures KeysApart(a, b) && KeysApart(a, c) && KeysApart(c, b)
    ensures DistinctKeys(a) && DistinctKeys(c)
  {
    var e := a + b + c;
    assert forall i :: 0 <= i < |a| ==> e[i] == a[i];
    assert forall i :: 0 <= i < |b| ==> e[|a| + i] == b[i];
    assert forall i :: 0 <= i < |c| ==> e[|a| + |b| + i] == c[i];
  }

  lemma {:induction false} ApartSubset(a: seq<BlockInfo>, b: seq<BlockInfo>, c: seq<BlockInfo>)
    requires KeysApart(a, b) && forall x :: x in c ==> x in b
    ensures KeysApart(a, c)
  {
    forall i, j | 0 <= i < |a| && 0 <= j < |c| ensures a[i].key != c[j].key {
      assert c[j] in c;
      assert c[j] in b;
    }
  }

  lemma {:induction false} DistinctJoin(a: seq<BlockInfo>, b: seq<BlockInfo>)
    requires DistinctKeys(a) && DistinctKeys(b) && KeysApart(a, b)
    ensures DistinctKeys(a + b)
  {
  }

  lemma {:induction false} DedupeOfDistinct(s: seq<BlockInfo>)
    requires DistinctKeys(s)
    ensures Dedupe(s) == s
  {
    if s == [] {
    } else {
      var front := s[..|s| - 1];
      DedupeOfDistinct(front);
      assert !HasKey(front, s[|s| - 1].key);
    }
  }

  predicate StartsFirst(x: BlockInfo, y: BlockInfo) {
    x.start < y.start || (x.start == y.start && x.key.block < y.key.block)
  }

  predicate ScoresBest(score: BlockInfo -> real, x: BlockInfo, y: BlockInfo) {
    score(x) > score(y) || (score(x) == score(y) && StartsFirst(x, y))
  }

  /** Of the blocks of the layer that end before the token, the first group starts before all others, the second
      after all others, and of the rest the third has the highest scores, an earlier block winning a tie. */
  ghost predicate GroupsOf(all: seq<BlockInfo>, score: BlockInfo -> real, r: Selection) {
    && (forall b :: b in r.init || b in r.local || b in r.selected ==> b in all)
    && (forall x, y :: x in r.init && y in all && y !in r.init ==> StartsFirst(x, y))
    && (forall x, y :: x in r.local && y in all && y !in r.local && y !in r.init ==> StartsFirst(y, x))
    && (forall x, y :: x in r.selected && y in all && y !in r.init && y !in r.local && y !in r.selected ==> ScoresBest(score, x, y))
  }

  /** What the selection means, without naming the orders that the code sorts by. */
  lemma {:induction false} SelectionMeans(bs: seq<BlockInfo>, layer: int, token: int, cfg: SelectionConfig, score: BlockInfo -> real)
    requires DistinctKeys(bs)
    ensures var all := InOrder(bs, layer, token);
      && (forall b :: b in all <==> b in bs && b.key.layer == layer && b.end <= token)
      && GroupsOf(all, score, Select(bs, layer, token, cfg, score))
  {
    OrderedIs(bs, layer, token);
    SelectGroups(bs, layer, token, cfg, score);
    SelectedAreTop(bs, layer, token, cfg, score);
    var e, r := InOrder(bs, layer, token), Select(bs, layer, token, cfg, score);
    hide InOrder, Select, Middle, Sort, First, RankLe, StartLe, Ordered, DistinctKeys, GroupsOf;
    GroupsFollow(e, layer, Middle(e, cfg), score, r);
  }

  /** The top of the middle: what was left out of it ranks behind what was taken. */
  ghost predicate TopOf(middle: seq<BlockInfo>, score: BlockInfo -> real, chosen: seq<BlockInfo>) {
    && (forall b :: b in chosen ==> b in middle)
    && (forall x, y :: x in chosen && y in middle && y !in chosen ==> RankLe(score, x, y))
  }

  lemma {:induction false} GroupsFollow(e: seq<BlockInfo>, layer: int, middle: seq<BlockInfo>, score: BlockInfo -> real, r: Selection)
    requires DistinctKeys(e) && (forall b :: b in e ==> b.key.layer == layer) && Ordered(e, StartLe)
    requires e == r.init + middle + r.local && TopOf(middle, score, r.selected)
    ensures GroupsOf(e, score, r)
  {
    hide RankLe, StartLe, StartsFirst, ScoresBest, Ordered, DistinctKeys;
    InThreeParts(r.init, middle, r.local);
    PartsOrdered(r.init, middle, r.local);
    forall x, y | x in r.init && y in e && y !in r.init ensures StartsFirst(x, y) {
      StrictOrder(e, layer, score, x, y);
    }
    forall x, y | x in r.local && y in e && y !in r.local && y !in r.init ensures StartsFirst(y, x) {
      StrictOrder(e, layer, score, y, x);
    }
    forall x, y | x in r.selected && y in e && y !in r.init && y !in r.local && y !in r.selected ensures ScoresBest(score, x, y) {
      StrictOrder(e, layer, score, x, y);
    }
  }

  lemma {:induction false} StrictOrder(e: seq<BlockInfo>, layer: int, score: BlockInfo -> real, x: BlockInfo, y: BlockInfo)
    requires DistinctKeys(e) && (forall b :: b in e ==> b.key.layer == layer) && x in e && y in e && x != y
    ensures StartLe(x, y) ==> StartsFirst(x, y)
    ensures RankLe(score, x, y) ==> ScoresBest(score, x, y)
  {
    if x.key.block == y.key.block {
      SameBlock(e, layer, x, y);
    }
  }

  lemma {:induction false} InThreeParts(a: seq<BlockInfo>, b: seq<BlockInfo>, c: seq<BlockInfo>)
    ensures forall x :: x in a + b + c <==> x in a || x in b || x in c
  {
  }

  lemma {:induction false} SameBlock(e: seq<BlockInfo>, layer: int, x: BlockInfo, y: BlockInfo)
    requires DistinctKeys(e) && (forall b :: b in e ==> b.key.layer == layer) && x in e && y in e && x.key.block == y.key.block
    ensures x == y
  {
    var i :| 0 <= i < |e| && e[i] == x;
    var j :| 0 <= j < |e| && e[j] == y;
    KeyIndex(e, i, j);
  }

  /** In an ordered list cut in three, each part goes before the next. */
  lemma {:induction false} PartsOrdered(a: seq<BlockInfo>, b: seq<BlockInfo>, c: seq<BlockInfo>)
    requires Ordered(a + b + c, StartLe)
    ensures forall x, y :: x in a && (y in b || y in c) ==> StartLe(x, y)
    ensures forall x, y :: x in b && y in c ==> StartLe(x, y)
  {
    var e := a + b + c;
    hide StartLe;
    forall x, y | x in a && (y in b || y in c) ensures StartLe(x, y) {
      var i :| 0 <= i < |a| && a[i] == x;
      assert e[i] == x && y in b + c;
      var j :| 0 <= j < |b + c| && (b + c)[j] == y;
      assert e[|a| + j] == y;
    }
    forall x, y | x in b && y in c ensures StartLe(x, y) {
      var i :| 0 <= i < |b| && b[i] == x;
      var j :| 0 <= j < |c| && c[j] == y;
      assert e[|a| + i] == x && e[|a| + |b| + j] == y;
    }
  }

  /** The result does not depend on the order in which the blocks are given. */
  lemma {:induction false} SelectCanonical(a: seq<BlockInfo>, b: seq<BlockInfo>, layer: int, token: int, cfg: SelectionConfig, score: BlockInfo -> real)
    requires DistinctKeys(a) && multiset(a) == multiset(b)
    ensures Select(a, layer, token, cfg, score) == Select(b, layer, token, cfg, score)
  {
    var x, y := Eligible(a, layer, token), Eligible(b, layer, token);
    forall v: BlockInfo ensures multiset(x)[v] == multiset(y)[v] {
      EligiblePermutes(a, layer, token, v);
      EligiblePermutes(b, layer, token, v);
    }
    assert multiset(x) == multiset(y);
    EligibleIs(a, layer, token);
    LayerOrders(x, layer, score);
    SortCanonical(x, y, StartLe);
  }

  // ---------- the selector on block objects ----------

  function OnInfo(le: (BlockInfo, BlockInfo) -> bool): (KVBlock, KVBlock) -> bool {
    (a: KVBlock, b: KVBlock) => le(a.info, b.info)
  }

  lemma {:induction false} InfosSplit(bs: seq<KVBlock>)
    requires bs != []
    ensures InfosOf(bs)[..|bs| - 1] == InfosOf(bs[..|bs| - 1]) && InfosOf(bs)[|bs| - 1] == bs[|bs| - 1].info
  {
  }

  /** Sorting objects by their info sorts the infos. */
  lemma {:induction false} InsertInfos(bs: seq<KVBlock>, b: KVBlock, le: (BlockInfo, BlockInfo) -> bool)
    ensures InfosOf(Insert(bs, b, OnInfo(le))) == Insert(InfosOf(bs), b.info, le)
  {
    if bs == [] {
      assert InfosOf([b]) == [b.info];
    } else {
      InfosSplit(bs);
      if le(bs[|bs| - 1].info, b.info) {
        InfosSnoc(bs, b);
      } else {
        InsertInfos(bs[..|bs| - 1], b, le);
        InfosSnoc(Insert(bs[..|bs| - 1], b, OnInfo(le)), bs[|bs| - 1]);
      }
    }
  }

  lemma {:induction false} SortInfos(bs: seq<KVBlock>, le: (BlockInfo, BlockInfo) -> bool)
    ensures InfosOf(Sort(bs, OnInfo(le))) == Sort(InfosOf(bs), le)
    ensures forall b :: b in Sort(bs, OnInfo(le)) ==> b in bs
  {
    SortPermutes(bs, OnInfo(le));
    SameElements(Sort(bs, OnInfo(le)), bs);
    hide Insert, InfosOf, OnInfo;
    if bs == [] {
      NoInfos();
    } else {
      InfosSplit(bs);
      SortInfos(bs[..|bs| - 1], le);
      InsertInfos(Sort(bs[..|bs| - 1], OnInfo(le)), bs[|bs| - 1], le);
    }
  }

  lemma {:induction false} NoInfos()
    ensures InfosOf([]) == []
  {
  }

  method EligibleBlocks(bs: seq<KVBlock>, layer: int, token: int) returns (r: seq<KVBlock>)
    ensures InfosOf(r) == Eligible(InfosOf(bs), layer, token) && forall b :: b in r ==> b in bs
  {
    r := [];
    var i := 0;
    while i < |bs|
      invariant 0 <= i <= |bs| && InfosOf(r) == Eligible(InfosOf(bs)[..i], layer, token) && forall b :: b in r ==> b in bs
    {
      assert InfosOf(bs)[..i + 1][..i] == InfosOf(bs)[..i];
      InfosSnoc(r, bs[i]);
      if IsEligible(bs[i].info, layer, token) {
        r := r + [bs[i]];
      }
      i := i + 1;
    }
    assert InfosOf(bs)[..|bs|] == InfosOf(bs);
  }

  /** `[block for block in bs if block.key not in keys]`. */
  method BlocksWithout(bs: seq<KVBlock>, taken: seq<KVBlock>) returns (r: seq<KVBlock>)
    ensures InfosOf(r) == Without(InfosOf(bs), InfosOf(taken)) && forall b :: b in r ==> b in bs
  {
    hide HasKey;
    var keys := set b | b in taken :: b.info.key;
    r := [];
    var i := 0;
    while i < |bs|
      invariant 0 <= i <= |bs| && InfosOf(r) == Without(InfosOf(bs)[..i], InfosOf(taken)) && forall b :: b in r ==> b in bs
    {
      assert InfosOf(bs)[..i + 1][..i] == InfosOf(bs)[..i];
      InfosSnoc(r, bs[i]);
      KeysOfTaken(taken, bs[i].info.key);
      if bs[i].info.key !in keys {
        r := r + [bs[i]];
      }
      i := i + 1;
    }
    assert InfosOf(bs)[..|bs|] == InfosOf(bs);
  }

  lemma {:induction false} KeysOfTaken(taken: seq<KVBlock>, key: BlockKey)
    ensures key in (set b | b in taken :: b.info.key) <==> HasKey(InfosOf(taken), key)
  {
    if HasKey(InfosOf(taken), key) {
      var i :| 0 <= i < |taken| && InfosOf(taken)[i].key == key;
      assert taken[i] in taken && taken[i].info.key == key;
    }
    if key in (set b | b in taken :: b.info.key) {
      var b :| b in taken && b.info.key == key;
      var i :| 0 <= i < |taken| && taken[i] == b;
      assert InfosOf(taken)[i].key == key;
    }
  }

  lemma {:induction false} FirstInfos(bs: seq<KVBlock>, n: nat)
    ensures InfosOf(First(bs, n)) == First(InfosOf(bs), n) && InfosOf(Last(bs, n)) == Last(InfosOf(bs), n)
    ensures (forall b :: b in First(bs, n) ==> b in bs) && (forall b :: b in Last(bs, n) ==> b in bs)
  {
  }

  class BlockSelector {
    const config: SelectionConfig

    constructor (config: SelectionConfig)
      ensures this.config == config
    {
      this.config := config;
    }

    /** Choose the three groups among the objects. */
    method Choose(bs: seq<KVBlock>, layer: int, token: int, score: BlockInfo -> real)
      returns (init: seq<KVBlock>, local: seq<KVBlock>, selected: seq<KVBlock>)
      ensures Selection(InfosOf(init), InfosOf(local), InfosOf(selected)) == Select(InfosOf(bs), layer, token, config, score)
      ensures forall b :: b in init || b in local || b in selected ==> b in bs
    {
      hide InfosOf, Sort, Without, Eligible, First, Last, OnInfo, Rank;
      var eligible := EligibleBlocks(bs, layer, token);
      SortInfos(eligible, StartLe);
      var blocks := Sort(eligible, OnInfo(StartLe));
      FirstInfos(blocks, config.init);
      init := First(blocks, config.init);
      var rest := BlocksWithout(blocks, init);
      FirstInfos(rest, config.local);
      local := Last(rest, config.local);
      var candidates := BlocksWithout(rest, local);
      SortInfos(candidates, Rank(score));
      FirstInfos(Sort(candidates, OnInfo(Rank(score))), config.selected);
      selected := First(Sort(candidates, OnInfo(Rank(score))), config.selected);
    }

    static method Mark(bs: seq<KVBlock>, role: Role)
      modifies (set b | b in bs)`role
      ensures forall b :: b in bs ==> b.role == role
    {
      var i := 0;
      while i < |bs|
        invariant 0 <= i <= |bs| && forall j :: 0 <= j < i ==> bs[j].role == role
      {
        bs[i].MarkRole(role);
        i := i + 1;
      }
    }

    /** `select`: choose the groups and mark their blocks, a later group over an earlier one. */
    method SelectBlocks(bs: seq<KVBlock>, layer: int, token: int, score: BlockInfo -> real)
      returns (init: seq<KVBlock>, local: seq<KVBlock>, selected: seq<KVBlock>)
      modifies (set b | b in bs)`role
      ensures Selection(InfosOf(init), InfosOf(local), InfosOf(selected)) == Select(InfosOf(bs), layer, token, config, score)
      ensures forall b :: b in selected ==> b.role == SelectedRole
      ensures forall b :: b in local && b !in selected ==> b.role == LocalRole
      ensures forall b :: b in init && b !in local && b !in selected ==> b.role == InitRole
      ensures forall b :: b in bs && b !in init && b !in local && b !in selected ==> b.role == old(b.role)
    {
      hide InfosOf, Select;
      init, local, selected := Choose(bs, layer, token, score);
      Mark(init, InitRole);
      Mark(local, LocalRole);
      Mark(selected, SelectedRole);
    }
  }
}
