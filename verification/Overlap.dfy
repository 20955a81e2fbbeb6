/** Blocks whose cells overlap: a copied block survives the copy of another block exactly when the two have
    the same bytes for every token that falls on a shared cell.
 */
module Overlap {
  import opened Kv
  import opened ByteCopies
  import opened TensorLayout
  import opened TensorGate

  /** The copies write whole slots of one grid: two of them write the same slot or no common byte. */
  ghost predicate Gridded(cs: seq<Copy>, ds: seq<Copy>) {
    forall i, j :: 0 <= i < |cs| && 0 <= j < |ds| ==> SameSlot(cs[i], ds[j]) || Apart(cs[i], ds[j])
  }

  predicate SameSlot(c: Copy, d: Copy) {
    c.dst == d.dst && c.len == d.len
  }

  predicate SameBytes(mine: seq<Byte>, c: Copy, other: seq<Byte>, d: Copy)
    requires c.src + c.len <= |mine| && d.src + d.len <= |other|
  {
    Slice(mine, c.src, c.len) == Slice(other, d.src, d.len)
  }

  /** Where both write a slot, they bring the same bytes. */
  ghost predicate Agree(mine: seq<Byte>, cs: seq<Copy>, other: seq<Byte>, ds: seq<Copy>, to: nat)
    requires AllFit(cs, |mine|, to) && AllFit(ds, |other|, to)
  {
    forall i, j :: 0 <= i < |cs| && 0 <= j < |ds| && SameSlot(cs[i], ds[j]) ==> SameBytes(mine, cs[i], other, ds[j])
  }

  /** Two sets of copies can be in place together only if they agree. */
  lemma {:induction false} BothHoldAgree(to: seq<Byte>, mine: seq<Byte>, cs: seq<Copy>, other: seq<Byte>, ds: seq<Copy>)
    requires AllFit(cs, |mine|, |to|) && AllFit(ds, |other|, |to|) && AllHold(to, mine, cs) && AllHold(to, other, ds)
    ensures Agree(mine, cs, other, ds, |to|)
  {
    forall i, j | 0 <= i < |cs| && 0 <= j < |ds| && SameSlot(cs[i], ds[j]) ensures SameBytes(mine, cs[i], other, ds[j]) {
      assert Holds(to, mine, cs[i]) && Holds(to, other, ds[j]);
    }
  }

  /** A copied block survives other copies on the same grid if and only if they agree with it. */
  lemma {:induction false} SurvivesIff(to: seq<Byte>, mine: seq<Byte>, cs: seq<Copy>, other: seq<Byte>, ds: seq<Copy>)
    requires AllFit(cs, |mine|, |to|) && AllFit(ds, |other|, |to|) && AllHold(to, mine, cs)
    requires PairwiseApart(ds) && Gridded(cs, ds)
    ensures AllHold(Apply(to, other, ds), mine, cs) <==> Agree(mine, cs, other, ds, |to|)
  {
    var after := Apply(to, other, ds);
    ApplyDelivers(to, other, ds);
    if AllHold(after, mine, cs) {
      BothHoldAgree(after, mine, cs, other, ds);
    }
    if Agree(mine, cs, other, ds, |to|) {
      forall i | 0 <= i < |cs| ensures Holds(after, mine, cs[i]) {
        if j :| 0 <= j < |ds| && SameSlot(cs[i], ds[j]) {
          assert SameBytes(mine, cs[i], other, ds[j]) && Holds(after, other, ds[j]);
        } else {
          assert Holds(to, mine, cs[i]);
          forall j | 0 <= j < |ds| ensures Apart(cs[i], ds[j]) {
            assert SameSlot(cs[i], ds[j]) || Apart(cs[i], ds[j]);
          }
          ApplyKeeps(to, other, ds, mine, cs[i]);
        }
      }
    }
  }

  // ---------- the K and V rows of two blocks lie on one grid ----------

  lemma {:induction false} KeysGridded(g: Rows, h: Rows)
    requires g.keyRow == h.keyRow
    ensures Gridded(KeyCopies(g, g.tokens), KeyCopies(h, h.tokens))
  {
    var cs, ds := KeyCopies(g, g.tokens), KeyCopies(h, h.tokens);
    forall i, j | 0 <= i < |cs| && 0 <= j < |ds| ensures SameSlot(cs[i], ds[j]) || Apart(cs[i], ds[j]) {
      if g.cell + i != h.cell + j {
        RowsApart(g.cell + i, h.cell + j, g.keyRow);
      }
    }
  }

  lemma {:induction false} ValuesGridded(g: Rows, h: Rows, site: Site, size: int, other: int)
    requires Judge(g, size, site).Copied? && Judge(h, other, site).Copied? && site.cache > 0
    ensures Gridded(ValuePlan(g, site, g.tokens), ValuePlan(h, site, h.tokens))
  {
    var cs, ds := ValuePlan(g, site, g.tokens), ValuePlan(h, site, h.tokens);
    forall i, j | 0 <= i < |cs| && 0 <= j < |ds| ensures SameSlot(cs[i], ds[j]) || Apart(cs[i], ds[j]) {
      if site.vTrans {
        var x := ElementLayout(site);
        var t, e := ElementCopiesMember(g, x, g.tokens, i);
        var u, f := ElementCopiesMember(h, x, h.tokens, j);
        if g.cell + t != h.cell + u || e != f {
          ElementsApart(g, h, x, t, e, u, f);
        }
      } else if g.cell + i != h.cell + j {
        RowsApart(g.cell + i, h.cell + j, g.valueRow);
      }
    }
  }

  /** The two staged blocks agree on every tensor slot that both of them fill. */
  ghost predicate SharedAgree(mine: seq<Byte>, g: Rows, other: seq<Byte>, h: Rows, site: Site, k: nat, v: nat)
    requires Shaped(site, k, v) && Judge(g, |mine|, site).Copied? && Judge(h, |other|, site).Copied?
  {
    PlansFit(g, |mine|, site, k, v, g.tokens);
    PlansFit(h, |other|, site, k, v, h.tokens);
    && Agree(mine, KeyCopies(g, g.tokens), other, KeyCopies(h, h.tokens), k)
    && Agree(mine, ValuePlan(g, site, g.tokens), other, ValuePlan(h, site, h.tokens), v)
  }

  // ---------- agreeing on slots is agreeing on cells ----------

  /** The staged bytes of one token: its K row followed by its V row. */
  function TokenBytes(image: seq<Byte>, g: Rows, t: nat): (r: seq<Byte>)
    requires t < g.tokens && g.Size() == |image|
    ensures |r| == g.Stride()
  {
    KeyRow(image, g, t) + ValueRow(image, g, t)
  }

  /** Tokens of the two blocks that fall on the same cell have the same bytes. */
  ghost predicate CellsAgree(mine: seq<Byte>, g: Rows, other: seq<Byte>, h: Rows)
    requires g.Size() == |mine| && h.Size() == |other|
  {
    forall t, u :: 0 <= t < g.tokens && 0 <= u < h.tokens && g.cell + t == h.cell + u
      ==> TokenBytes(mine, g, t) == TokenBytes(other, h, u)
  }

  ghost predicate KeyRowsAgree(mine: seq<Byte>, g: Rows, other: seq<Byte>, h: Rows)
    requires g.Size() == |mine| && h.Size() == |other|
  {
    forall t, u :: 0 <= t < g.tokens && 0 <= u < h.tokens && g.cell + t == h.cell + u
      ==> KeyRow(mine, g, t) == KeyRow(other, h, u)
  }

  ghost predicate ValueRowsAgree(mine: seq<Byte>, g: Rows, other: seq<Byte>, h: Rows)
    requires g.Size() == |mine| && h.Size() == |other|
  {
    forall t, u :: 0 <= t < g.tokens && 0 <= u < h.tokens && g.cell + t == h.cell + u
      ==> ValueRow(mine, g, t) == ValueRow(other, h, u)
  }

  lemma {:induction false} CellsAgreeRows(mine: seq<Byte>, g: Rows, other: seq<Byte>, h: Rows)
    requires g.Size() == |mine| && h.Size() == |other| && g.keyRow == h.keyRow
    ensures CellsAgree(mine, g, other, h) <==> KeyRowsAgree(mine, g, other, h) && ValueRowsAgree(mine, g, other, h)
  {
    hide KeyRow, ValueRow;
    forall t, u | 0 <= t < g.tokens && 0 <= u < h.tokens
      ensures TokenBytes(mine, g, t) == TokenBytes(other, h, u)
        <==> KeyRow(mine, g, t) == KeyRow(other, h, u) && ValueRow(mine, g, t) == ValueRow(other, h, u)
    {
      PairsEqual(KeyRow(mine, g, t), ValueRow(mine, g, t), KeyRow(other, h, u), ValueRow(other, h, u));
    }
  }

  lemma {:induction false} PairsEqual(a: seq<Byte>, b: seq<Byte>, c: seq<Byte>, d: seq<Byte>)
    requires |a| == |c|
    ensures a + b == c + d <==> a == c && b == d
  {
    assert (a + b)[..|a|] == a && (c + d)[..|a|] == c && (a + b)[|a|..] == b && (c + d)[|a|..] == d;
  }

  /** K rows share a slot exactly when they are for the same cell. */
  lemma {:induction false} KeysAgreeIff(mine: seq<Byte>, g: Rows, other: seq<Byte>, h: Rows, to: nat)
    requires g.Size() == |mine| && h.Size() == |other| && g.keyRow == h.keyRow > 0
    requires AllFit(KeyCopies(g, g.tokens), |mine|, to) && AllFit(KeyCopies(h, h.tokens), |other|, to)
    ensures Agree(mine, KeyCopies(g, g.tokens), other, KeyCopies(h, h.tokens), to) <==> KeyRowsAgree(mine, g, other, h)
  {
    var cs, ds := KeyCopies(g, g.tokens), KeyCopies(h, h.tokens);
    forall t, u | 0 <= t < g.tokens && 0 <= u < h.tokens
      ensures SameSlot(cs[t], ds[u]) <==> g.cell + t == h.cell + u
      ensures SameBytes(mine, cs[t], other, ds[u]) <==> KeyRow(mine, g, t) == KeyRow(other, h, u)
    {
      if g.cell + t != h.cell + u {
        RowsApart(g.cell + t, h.cell + u, g.keyRow);
      }
    }
    hide KeyCopies, KeyRow, SameSlot, SameBytes;
  }

  lemma {:induction false} RowValuesAgreeIff(mine: seq<Byte>, g: Rows, other: seq<Byte>, h: Rows, to: nat)
    requires g.Size() == |mine| && h.Size() == |other| && g.valueRow == h.valueRow > 0
    requires AllFit(ValueCopies(g, g.tokens), |mine|, to) && AllFit(ValueCopies(h, h.tokens), |other|, to)
    ensures Agree(mine, ValueCopies(g, g.tokens), other, ValueCopies(h, h.tokens), to) <==> ValueRowsAgree(mine, g, other, h)
  {
    var cs, ds := ValueCopies(g, g.tokens), ValueCopies(h, h.tokens);
    forall t, u | 0 <= t < g.tokens && 0 <= u < h.tokens
      ensures SameSlot(cs[t], ds[u]) <==> g.cell + t == h.cell + u
      ensures SameBytes(mine, cs[t], other, ds[u]) <==> ValueRow(mine, g, t) == ValueRow(other, h, u)
    {
      if g.cell + t != h.cell + u {
        RowsApart(g.cell + t, h.cell + u, g.valueRow);
      }
    }
    hide ValueCopies, ValueRow, SameSlot, SameBytes;
  }

  // ---------- the same for transposed elements ----------

  /** Rows that agree in every element are equal. */
  lemma {:induction false} ElementsMakeRow(a: seq<Byte>, b: seq<Byte>, width: nat, el: nat, n: nat)
    requires |a| == |b| == width * el && n <= width
    requires forall j :: 0 <= j < n ==> ElementAt(a, width, el, j) == ElementAt(b, width, el, j)
    ensures 0 <= n * el <= |a| && a[..n * el] == b[..n * el]
  {
    MulMono(n, width, el);
    if n == 0 {
    } else {
      ElementsMakeRow(a, b, width, el, n - 1);
      ElementAppends(a, width, el, n - 1);
      ElementAppends(b, width, el, n - 1);
      assert ElementAt(a, width, el, n - 1) == ElementAt(b, width, el, n - 1);
    }
  }

  function ElementAt(row: seq<Byte>, width: nat, el: nat, j: nat): (r: seq<Byte>)
    requires |row| == width * el && j < width
    ensures |r| == el
  {
    MulMono(j + 1, width, el);
    MulNext(j, el);
    Slice(row, j * el, el)
  }

  lemma {:induction false} ElementAppends(row: seq<Byte>, width: nat, el: nat, j: nat)
    requires |row| == width * el && j < width
    ensures 0 <= j * el <= (j + 1) * el <= |row|
    ensures row[..(j + 1) * el] == row[..j * el] + ElementAt(row, width, el, j)
  {
    MulMono(j + 1, width, el);
    MulNext(j, el);
  }

  lemma {:induction false} ElementBytes(image: seq<Byte>, g: Rows, x: Transposed, t: nat, j: nat)
    requires t < g.tokens && g.Size() == |image| && g.valueRow == x.width * x.el && j < x.width
    ensures var c := ElementCopy(g, x, t, j);
      c.src + c.len <= |image| && c.len == x.el && Slice(image, c.src, c.len) == ElementAt(ValueRow(image, g, t), x.width, x.el, j)
  {
    MulMono(j + 1, x.width, x.el);
    MulNext(j, x.el);
    ElementSource(image, g, x, t, j);
  }

  /** The two blocks are staged with the same V rows of `width` elements, inside the cache. */
  ghost predicate SameElements(mine: seq<Byte>, g: Rows, other: seq<Byte>, h: Rows, x: Transposed) {
    && g.Size() == |mine| && h.Size() == |other| && x.el > 0
    && ElementsFitRow(g, x) && ElementsFitRow(h, x)
  }

  lemma {:induction false} ElementSlots(g: Rows, h: Rows, x: Transposed, t: nat, j: nat, u: nat, f: nat)
    requires g.cell + t < x.cache && h.cell + u < x.cache && x.el > 0
    ensures SameSlot(ElementCopy(g, x, t, j), ElementCopy(h, x, u, f)) <==> g.cell + t == h.cell + u && j == f
  {
    if g.cell + t != h.cell + u || j != f {
      ElementsApart(g, h, x, t, j, u, f);
    }
  }

  lemma {:induction false} AgreeingElements(mine: seq<Byte>, g: Rows, other: seq<Byte>, h: Rows, x: Transposed, to: nat, t: nat, u: nat)
    requires SameElements(mine, g, other, h, x)
    requires AllFit(ElementCopies(g, x, g.tokens), |mine|, to) && AllFit(ElementCopies(h, x, h.tokens), |other|, to)
    requires Agree(mine, ElementCopies(g, x, g.tokens), other, ElementCopies(h, x, h.tokens), to)
    requires t < g.tokens && u < h.tokens && g.cell + t == h.cell + u
    ensures ValueRow(mine, g, t) == ValueRow(other, h, u)
  {
    var a, b := ValueRow(mine, g, t), ValueRow(other, h, u);
    hide ValueRow, ElementAt, ElementCopies, Slice;
    forall j | 0 <= j < x.width ensures ElementAt(a, x.width, x.el, j) == ElementAt(b, x.width, x.el, j) {
      ElementCopyIn(g, x, g.tokens, t, j);
      ElementCopyIn(h, x, h.tokens, u, j);
      var cs, ds := ElementCopies(g, x, g.tokens), ElementCopies(h, x, h.tokens);
      var i :| 0 <= i < |cs| && cs[i] == ElementCopy(g, x, t, j);
      var k :| 0 <= k < |ds| && ds[k] == ElementCopy(h, x, u, j);
      ElementSlots(g, h, x, t, j, u, j);
      ElementBytes(mine, g, x, t, j);
      ElementBytes(other, h, x, u, j);
      hide ElementCopy, SameSlot;
      assert SameBytes(mine, cs[i], other, ds[k]);
    }
    ElementsMakeRow(a, b, x.width, x.el, x.width);
    assert a[..x.width * x.el] == a && b[..x.width * x.el] == b;
  }

  lemma {:induction false} ElementsAgreeIff(mine: seq<Byte>, g: Rows, other: seq<Byte>, h: Rows, x: Transposed, to: nat)
    requires SameElements(mine, g, other, h, x)
    requires AllFit(ElementCopies(g, x, g.tokens), |mine|, to) && AllFit(ElementCopies(h, x, h.tokens), |other|, to)
    ensures Agree(mine, ElementCopies(g, x, g.tokens), other, ElementCopies(h, x, h.tokens), to) <==> ValueRowsAgree(mine, g, other, h)
  {
    var cs, ds := ElementCopies(g, x, g.tokens), ElementCopies(h, x, h.tokens);
    hide ValueRow, ElementAt, ElementCopies, Slice, ElementCopy;
    if Agree(mine, cs, other, ds, to) {
      forall t, u | 0 <= t < g.tokens && 0 <= u < h.tokens && g.cell + t == h.cell + u
        ensures ValueRow(mine, g, t) == ValueRow(other, h, u)
      {
        AgreeingElements(mine, g, other, h, x, to, t, u);
      }
    }
    if ValueRowsAgree(mine, g, other, h) {
      forall i, j | 0 <= i < |cs| && 0 <= j < |ds| && SameSlot(cs[i], ds[j]) ensures SameBytes(mine, cs[i], other, ds[j]) {
        var t, e := ElementCopiesMember(g, x, g.tokens, i);
        var u, f := ElementCopiesMember(h, x, h.tokens, j);
        ElementSlots(g, h, x, t, e, u, f);
        ElementBytes(mine, g, x, t, e);
        ElementBytes(other, h, x, u, f);
      }
    }
  }

  /** What the gate's verdict tells about two blocks of one layer. */
  lemma {:induction false} SameRowSizes(g: Rows, h: Rows, size: nat, other: nat, site: Site)
    requires Judge(g, size, site).Copied? && Judge(h, other, site).Copied? && site.cache > 0
    ensures g.Size() == size && h.Size() == other
    ensures g.keyRow == h.keyRow > 0 && g.valueRow == h.valueRow > 0
    ensures site.vTrans ==> ElementLayout(site).el > 0 && ElementsFitRow(g, ElementLayout(site)) && ElementsFitRow(h, ElementLayout(site))
  {
  }

  /** Two accepted blocks bring the same bytes to every tensor slot that both fill, in both V layouts, if
      and only if their tokens on shared cells have the same staged bytes. */
  lemma {:induction false} SharedAgreeIff(mine: seq<Byte>, g: Rows, other: seq<Byte>, h: Rows, site: Site, k: nat, v: nat)
    requires Shaped(site, k, v) && Judge(g, |mine|, site).Copied? && Judge(h, |other|, site).Copied?
    ensures g.Size() == |mine| && h.Size() == |other|
    ensures SharedAgree(mine, g, other, h, site, k, v) <==> CellsAgree(mine, g, other, h)
  {
    SameRowSizes(g, h, |mine|, |other|, site);
    PlansFit(g, |mine|, site, k, v, g.tokens);
    PlansFit(h, |other|, site, k, v, h.tokens);
    CellsAgreeRows(mine, g, other, h);
    hide Agree, CellsAgree, KeyRowsAgree, ValueRowsAgree, KeyCopies, ValueCopies, ElementCopies, Judge;
    KeysAgreeIff(mine, g, other, h, k);
    if site.vTrans {
      ElementsAgreeIff(mine, g, other, h, ElementLayout(site), v);
    } else {
      RowValuesAgreeIff(mine, g, other, h, v);
    }
  }

  /** A landed block stays in place when another block of the layer is written if and only if the two have
      the same bytes for every token on a shared cell, in both V layouts. */
  lemma {:induction false} BlockSurvivesIff(k: seq<Byte>, v: seq<Byte>, mine: seq<Byte>, g: Rows, other: seq<Byte>, h: Rows, site: Site)
    requires Shaped(site, |k|, |v|) && Judge(g, |mine|, site).Copied? && Judge(h, |other|, site).Copied?
    requires Landed(k, v, mine, g, site)
    ensures g.Size() == |mine| && h.Size() == |other|
    ensures AllFit(KeyCopies(h, h.tokens), |other|, |k|) && AllFit(ValuePlan(h, site, h.tokens), |other|, |v|)
    ensures Landed(WriteKeys(k, other, h, site), WriteValues(v, other, h, site), mine, g, site)
      <==> CellsAgree(mine, g, other, h)
  {
    PlansFit(g, |mine|, site, |k|, |v|, g.tokens);
    PlansFit(h, |other|, site, |k|, |v|, h.tokens);
    PlansApart(h, |other|, site, h.tokens);
    KeysGridded(g, h);
    ValuesGridded(g, h, site, |mine|, |other|);
    SharedAgreeIff(mine, g, other, h, site, |k|, |v|);
    hide KeyCopies, ValuePlan, Gridded, PairwiseApart, Agree, AllHold, Apply, CellsAgree, Judge;
    SurvivesIff(k, mine, KeyCopies(g, g.tokens), other, KeyCopies(h, h.tokens));
    SurvivesIff(v, mine, ValuePlan(g, site, g.tokens), other, ValuePlan(h, site, h.tokens));
  }

  /** Both blocks are in place in the tensors only if they agree. */
  lemma {:induction false} BothLandedAgree(k: seq<Byte>, v: seq<Byte>, mine: seq<Byte>, g: Rows, other: seq<Byte>, h: Rows, site: Site)
    requires Shaped(site, |k|, |v|) && Judge(g, |mine|, site).Copied? && Judge(h, |other|, site).Copied?
    requires Landed(k, v, mine, g, site) && Landed(k, v, other, h, site)
    ensures g.Size() == |mine| && h.Size() == |other| && CellsAgree(mine, g, other, h)
  {
    PlansFit(g, |mine|, site, |k|, |v|, g.tokens);
    PlansFit(h, |other|, site, |k|, |v|, h.tokens);
    hide KeyCopies, ValuePlan, Agree, CellsAgree, Judge;
    BothHoldAgree(k, mine, KeyCopies(g, g.tokens), other, KeyCopies(h, h.tokens));
    BothHoldAgree(v, mine, ValuePlan(g, site, g.tokens), other, ValuePlan(h, site, h.tokens));
    SharedAgreeIff(mine, g, other, h, site, |k|, |v|);
  }
}
