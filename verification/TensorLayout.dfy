/** Where the rows of one staged block go in the K and V tensors of a layer, as lists of copies.
    A staged block interleaves one K row and one V row per token; the tensors are row-major by cell,
    except that the V tensor may be transposed.
 */
module TensorLayout {
  import opened ByteCopies

  /** First cell, token count and row sizes of one block. */
  datatype Rows = Rows(cell: nat, tokens: nat, keyRow: nat, valueRow: nat) {
    function Stride(): nat {
      keyRow + valueRow
    }

    function Size(): nat {
      tokens * Stride()
    }

    function CellEnd(): nat {
      cell + tokens
    }
  }

  ghost predicate CellsDisjoint(g: Rows, h: Rows) {
    g.CellEnd() <= h.cell || h.CellEnd() <= g.cell
  }

  lemma MulMono(a: int, b: int, r: nat)
    requires a <= b
    ensures a * r <= b * r
  {
  }

  lemma MulNext(a: nat, r: nat)
    ensures (a + 1) * r == a * r + r
  {
  }

  lemma {:induction false} QuotientUnique(a: int, q: int, rem: nat, n: nat)
    requires rem < n && q * n + rem == a * n
    ensures rem == 0 && q == a
  {
    assert (q + 1) * n == q * n + n && (a + 1) * n == a * n + n;
    if q < a {
      MulMono(q + 1, a, n);
    } else if a < q {
      MulMono(a + 1, q, n);
    }
  }

  /** A multiple leaves no remainder, and its quotient is the factor. */
  lemma {:induction false} Division(size: int, n: nat, a: int)
    requires n > 0
    ensures a * n == size <==> size % n == 0 && size / n == a
  {
    var q, rem := size / n, size % n;
    assert size == q * n + rem && 0 <= rem < n;
    if a * n == size {
      QuotientUnique(a, q, rem, n);
    }
  }

  function KeyCopy(g: Rows, t: nat): Copy {
    Copy(t * g.Stride(), (g.cell + t) * g.keyRow, g.keyRow)
  }

  function KeyCopies(g: Rows, n: nat): (r: seq<Copy>)
    ensures |r| == n
  {
    seq(n, t requires 0 <= t < n => KeyCopy(g, t))
  }

  function ValueCopy(g: Rows, t: nat): Copy {
    Copy(t * g.Stride() + g.keyRow, (g.cell + t) * g.valueRow, g.valueRow)
  }

  function ValueCopies(g: Rows, n: nat): (r: seq<Copy>)
    ensures |r| == n
  {
    seq(n, t requires 0 <= t < n => ValueCopy(g, t))
  }

  /** The transposed V tensor: `width` elements of `el` bytes per row, `cache` cells per element column. */
  datatype Transposed = Transposed(width: nat, el: nat, cache: nat)

  function ElementCopy(g: Rows, x: Transposed, t: nat, j: nat): Copy {
    Copy(t * g.Stride() + g.keyRow + j * x.el, (g.cell + t + j * x.cache) * x.el, x.el)
  }

  function RowElements(g: Rows, x: Transposed, t: nat, n: nat): (r: seq<Copy>)
    ensures |r| == n
  {
    seq(n, j requires 0 <= j < n => ElementCopy(g, x, t, j))
  }

  function ElementCopies(g: Rows, x: Transposed, n: nat): seq<Copy> {
    if n == 0 then [] else ElementCopies(g, x, n - 1) + RowElements(g, x, n - 1, x.width)
  }

  // ---------- every copy stays inside its buffers ----------

  lemma KeyCopyFits(g: Rows, cache: nat, t: nat)
    requires g.CellEnd() <= cache && t < g.tokens
    ensures Fits(KeyCopy(g, t), g.Size(), cache * g.keyRow)
  {
    MulMono(t + 1, g.tokens, g.Stride());
    MulNext(t, g.Stride());
    MulMono(g.cell + t + 1, cache, g.keyRow);
    MulNext(g.cell + t, g.keyRow);
  }

  lemma KeyCopiesFit(g: Rows, cache: nat, n: nat)
    requires g.CellEnd() <= cache && n <= g.tokens
    ensures AllFit(KeyCopies(g, n), g.Size(), cache * g.keyRow)
  {
    forall t | 0 <= t < n ensures Fits(KeyCopies(g, n)[t], g.Size(), cache * g.keyRow) {
      KeyCopyFits(g, cache, t);
    }
  }

  lemma ValueCopyFits(g: Rows, cache: nat, t: nat)
    requires g.CellEnd() <= cache && t < g.tokens
    ensures Fits(ValueCopy(g, t), g.Size(), cache * g.valueRow)
  {
    MulMono(t + 1, g.tokens, g.Stride());
    MulNext(t, g.Stride());
    MulMono(g.cell + t + 1, cache, g.valueRow);
    MulNext(g.cell + t, g.valueRow);
  }

  lemma ValueCopiesFit(g: Rows, cache: nat, n: nat)
    requires g.CellEnd() <= cache && n <= g.tokens
    ensures AllFit(ValueCopies(g, n), g.Size(), cache * g.valueRow)
  {
    forall t | 0 <= t < n ensures Fits(ValueCopies(g, n)[t], g.Size(), cache * g.valueRow) {
      ValueCopyFits(g, cache, t);
    }
  }

  ghost predicate ElementsFitRow(g: Rows, x: Transposed) {
    g.valueRow == x.width * x.el && g.CellEnd() <= x.cache
  }

  lemma MulSwap(a: nat, b: nat, c: nat)
    ensures a * b * c == b * (a * c)
  {
  }

  /** Element `j` ends inside its row, and its slot inside the tensor. */
  lemma ElementInRow(x: Transposed, j: nat)
    requires j < x.width
    ensures 0 <= j * x.el && j * x.el + x.el <= x.width * x.el
  {
    MulMono(j + 1, x.width, x.el);
    MulNext(j, x.el);
  }

  lemma SlotInTensor(x: Transposed, cell: nat, j: nat)
    requires cell < x.cache && j < x.width
    ensures 0 <= cell + j * x.cache && (cell + j * x.cache) * x.el + x.el <= x.cache * (x.width * x.el)
  {
    MulMono(j + 1, x.width, x.cache);
    MulNext(j, x.cache);
    var at: nat := cell + j * x.cache;
    MulMono(at + 1, x.width * x.cache, x.el);
    MulNext(at, x.el);
    MulSwap(x.width, x.cache, x.el);
  }

  lemma ElementCopyFits(g: Rows, x: Transposed, t: nat, j: nat)
    requires ElementsFitRow(g, x) && t < g.tokens && j < x.width
    ensures Fits(ElementCopy(g, x, t, j), g.Size(), x.cache * g.valueRow)
  {
    MulMono(t + 1, g.tokens, g.Stride());
    MulNext(t, g.Stride());
    ElementInRow(x, j);
    SlotInTensor(x, g.cell + t, j);
  }

  /** Every member of the list is the copy of one element of one token. */
  lemma {:induction false} ElementCopiesMember(g: Rows, x: Transposed, n: nat, i: nat) returns (t: nat, j: nat)
    requires i < |ElementCopies(g, x, n)|
    ensures t < n && j < x.width && ElementCopies(g, x, n)[i] == ElementCopy(g, x, t, j)
  {
    var before := ElementCopies(g, x, n - 1);
    if i < |before| {
      t, j := ElementCopiesMember(g, x, n - 1, i);
    } else {
      t, j := n - 1, i - |before|;
    }
  }

  /** And every element's copy is a member. */
  lemma {:induction false} ElementCopyIn(g: Rows, x: Transposed, n: nat, t: nat, j: nat)
    requires t < n && j < x.width
    ensures ElementCopy(g, x, t, j) in ElementCopies(g, x, n)
  {
    if t < n - 1 {
      ElementCopyIn(g, x, n - 1, t, j);
    } else {
      assert RowElements(g, x, n - 1, x.width)[j] == ElementCopy(g, x, t, j);
    }
  }

  lemma ElementCopiesFit(g: Rows, x: Transposed, n: nat)
    requires ElementsFitRow(g, x) && n <= g.tokens
    ensures AllFit(ElementCopies(g, x, n), g.Size(), x.cache * g.valueRow)
  {
    var cs := ElementCopies(g, x, n);
    forall i | 0 <= i < |cs| ensures Fits(cs[i], g.Size(), x.cache * g.valueRow) {
      var t, j := ElementCopiesMember(g, x, n, i);
      ElementCopyFits(g, x, t, j);
    }
  }

  // ---------- no byte is written twice ----------

  lemma RowsApart(a: nat, b: nat, row: nat)
    requires a != b
    ensures a * row + row <= b * row || b * row + row <= a * row
  {
    if a < b {
      MulMono(a + 1, b, row);
      MulNext(a, row);
    } else {
      MulMono(b + 1, a, row);
      MulNext(b, row);
    }
  }

  lemma KeyCopiesApart(g: Rows, n: nat)
    ensures PairwiseApart(KeyCopies(g, n))
  {
    forall i, j | 0 <= i < j < n ensures Apart(KeyCopies(g, n)[i], KeyCopies(g, n)[j]) {
      RowsApart(g.cell + i, g.cell + j, g.keyRow);
    }
  }

  lemma ValueCopiesApart(g: Rows, n: nat)
    ensures PairwiseApart(ValueCopies(g, n))
  {
    forall i, j | 0 <= i < j < n ensures Apart(ValueCopies(g, n)[i], ValueCopies(g, n)[j]) {
      RowsApart(g.cell + i, g.cell + j, g.valueRow);
    }
  }

  /** A slot of the transposed tensor belongs to one cell and one element only. */
  lemma SlotsDistinct(a: nat, b: nat, j: nat, k: nat, cache: nat)
    requires a < cache && b < cache && (a != b || j != k)
    ensures a + j * cache != b + k * cache
  {
    if j < k {
      MulMono(j + 1, k, cache);
      MulNext(j, cache);
    } else if k < j {
      MulMono(k + 1, j, cache);
      MulNext(k, cache);
    }
  }

  lemma ElementsApart(g: Rows, h: Rows, x: Transposed, t: nat, j: nat, u: nat, k: nat)
    requires g.cell + t < x.cache && h.cell + u < x.cache
    requires g.cell + t != h.cell + u || j != k
    ensures Apart(ElementCopy(g, x, t, j), ElementCopy(h, x, u, k))
  {
    SlotsDistinct(g.cell + t, h.cell + u, j, k, x.cache);
    RowsApart(g.cell + t + j * x.cache, h.cell + u + k * x.cache, x.el);
  }

  lemma {:induction false} ElementCopiesApart(g: Rows, x: Transposed, n: nat)
    requires g.cell + n <= x.cache
    ensures PairwiseApart(ElementCopies(g, x, n))
  {
    if n == 0 {
    } else {
      ElementCopiesApart(g, x, n - 1);
      var cs, before := ElementCopies(g, x, n), ElementCopies(g, x, n - 1);
      forall i, j | 0 <= i < j < |cs| ensures Apart(cs[i], cs[j]) {
        if j < |before| {
          assert cs[i] == before[i] && cs[j] == before[j];
        } else if i < |before| {
          var t, e := ElementCopiesMember(g, x, n - 1, i);
          ElementsApart(g, g, x, t, e, n - 1, j - |before|);
        } else {
          ElementsApart(g, g, x, n - 1, i - |before|, n - 1, j - |before|);
        }
      }
    }
  }

  // ---------- blocks on disjoint cells do not disturb each other ----------

  lemma KeyCopiesOfBlocksApart(g: Rows, h: Rows)
    requires CellsDisjoint(g, h) && g.keyRow == h.keyRow
    ensures AllApart(KeyCopies(g, g.tokens), KeyCopies(h, h.tokens))
  {
    forall i, j | 0 <= i < g.tokens && 0 <= j < h.tokens
      ensures Apart(KeyCopies(g, g.tokens)[i], KeyCopies(h, h.tokens)[j])
    {
      RowsApart(g.cell + i, h.cell + j, g.keyRow);
    }
  }

  lemma ValueCopiesOfBlocksApart(g: Rows, h: Rows)
    requires CellsDisjoint(g, h) && g.valueRow == h.valueRow
    ensures AllApart(ValueCopies(g, g.tokens), ValueCopies(h, h.tokens))
  {
    forall i, j | 0 <= i < g.tokens && 0 <= j < h.tokens
      ensures Apart(ValueCopies(g, g.tokens)[i], ValueCopies(h, h.tokens)[j])
    {
      RowsApart(g.cell + i, h.cell + j, g.valueRow);
    }
  }

  lemma ElementCopiesOfBlocksApart(g: Rows, h: Rows, x: Transposed)
    requires CellsDisjoint(g, h) && g.CellEnd() <= x.cache && h.CellEnd() <= x.cache
    ensures AllApart(ElementCopies(g, x, g.tokens), ElementCopies(h, x, h.tokens))
  {
    var cs, ds := ElementCopies(g, x, g.tokens), ElementCopies(h, x, h.tokens);
    forall i, j | 0 <= i < |cs| && 0 <= j < |ds| ensures Apart(cs[i], ds[j]) {
      var t, e := ElementCopiesMember(g, x, g.tokens, i);
      var u, f := ElementCopiesMember(h, x, h.tokens, j);
      ElementsApart(g, h, x, t, e, u, f);
    }
  }
}
