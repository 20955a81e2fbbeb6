/** The law of one layer: the blocks that the gate has copied are all in the tensors if and only if their
    backing bytes agree on the cells they share. Copying, refusing and marking elsewhere keep it.
 */
module LayerLaws {
  import opened Kv
  import opened ByteCopies
  import opened TensorLayout
  import opened TensorGate
  import opened BridgeModel
  import opened Overlap
  import opened StagingBooks

  // ---------- which blocks are marked, accepted and in place ----------

  /** The inferred row size, exactly: two of them per token make up the block. */
  lemma {:induction false} InferExact(size: int, tokens: nat, row: nat)
    requires row > 0 && tokens > 0
    ensures InferRow(size, tokens) == row <==> size == tokens * (2 * row)
  {
    Division(size, tokens, 2 * row);
    if InferRow(size, tokens) == row {
      assert size / tokens == 2 * row;
    }
    if size == tokens * (2 * row) {
      MulMono(1, tokens, 2 * row);
    }
  }

  /** The gate accepts exactly the blocks that fit the layer's tensors. */
  lemma {:induction false} VerdictExact(cfg: Config, key: Key, size: int)
    ensures VerdictFor(cfg, key, size).Copied? <==>
      FitsTensors(cfg.SiteOf(key.layer), NatOf(key.block), NatOf(key.end - key.start), size)
  {
    var site, g := cfg.SiteOf(key.layer), RowsFor(key, size);
    if g.tokens > 0 && site.k.Some? {
      if g.keyRow > 0 {
        InferExact(size, g.tokens, g.keyRow);
      }
      if site.k.value.RowSize() > 0 {
        InferExact(size, g.tokens, site.k.value.RowSize());
      }
    }
    hide InferRow, Config.SiteOf, TensorShape.RowSize, NatOf;
    RowsSize(g.tokens, g.keyRow);
  }

  lemma {:induction false} RowsSize(tokens: nat, row: nat)
    ensures tokens * (row + row) == tokens * (2 * row)
  {
  }

  /** The gate copies the command's block when it acts on it. */
  predicate Accepted(cfg: Config, c: Command) {
    InFile(cfg, c) && VerdictFor(cfg, c.BufferKey(), c.size).Copied?
  }

  /** Every K and V row of the command's block is in the tensors of its layer. */
  ghost predicate BlockInPlace(cfg: Config, c: Command, t: Tensors) {
    var site := cfg.SiteOf(c.layer);
    && TensorsShaped(site, t) && Accepted(cfg, c)
    && Landed(t.k, t.v, Image(cfg, c), RowsFor(c.BufferKey(), c.size), site)
  }

  /** Both blocks are accepted, and the backing file has the same bytes for every two of their tokens that
      fall on one cell. */
  ghost predicate BlocksAgree(cfg: Config, c: Command, d: Command) {
    && Accepted(cfg, c) && Accepted(cfg, d)
    && CellsAgree(Image(cfg, c), RowsFor(c.BufferKey(), c.size), Image(cfg, d), RowsFor(d.BufferKey(), d.size))
  }

  /** The gate has copied the command's block. */
  predicate Written(cfg: Config, marked: set<Key>, layer: int, c: Command) {
    c.layer == layer && c.BufferKey() in marked && Accepted(cfg, c)
  }

  ghost predicate LayerInPlace(cfg: Config, marked: set<Key>, layer: int, t: Tensors) {
    forall i :: 0 <= i < |cfg.commands| && Written(cfg, marked, layer, cfg.commands[i]) ==> BlockInPlace(cfg, cfg.commands[i], t)
  }

  ghost predicate LayerAgrees(cfg: Config, marked: set<Key>, layer: int) {
    forall i, j :: 0 <= i < |cfg.commands| && 0 <= j < |cfg.commands| &&
      Written(cfg, marked, layer, cfg.commands[i]) && Written(cfg, marked, layer, cfg.commands[j])
      ==> BlocksAgree(cfg, cfg.commands[i], cfg.commands[j])
  }

  /** The exact law of one layer: the copied blocks are all in place if and only if they agree pairwise. */
  ghost predicate LayerLaw(cfg: Config, marked: set<Key>, layer: int, t: Tensors) {
    LayerInPlace(cfg, marked, layer, t) <==> LayerAgrees(cfg, marked, layer)
  }

  /** Blocks that are in place agree. */
  lemma {:induction false} InPlaceAgree(cfg: Config, marked: set<Key>, layer: int, t: Tensors)
    requires LayerInPlace(cfg, marked, layer, t)
    ensures LayerAgrees(cfg, marked, layer)
  {
    forall i, j | 0 <= i < |cfg.commands| && 0 <= j < |cfg.commands| &&
        Written(cfg, marked, layer, cfg.commands[i]) && Written(cfg, marked, layer, cfg.commands[j])
      ensures BlocksAgree(cfg, cfg.commands[i], cfg.commands[j])
    {
      assert BlockInPlace(cfg, cfg.commands[i], t) && BlockInPlace(cfg, cfg.commands[j], t);
      TwoInPlaceAgree(cfg, cfg.commands[i], cfg.commands[j], t);
    }
  }

  lemma {:induction false} TwoInPlaceAgree(cfg: Config, c: Command, d: Command, t: Tensors)
    requires c.layer == d.layer && BlockInPlace(cfg, c, t) && BlockInPlace(cfg, d, t)
    ensures BlocksAgree(cfg, c, d)
  {
    hide Landed, CellsAgree, RowsFor, Image, Judge, Shaped, InFile, Config.SiteOf;
    BothLandedAgree(t.k, t.v, Image(cfg, c), RowsFor(c.BufferKey(), c.size), Image(cfg, d), RowsFor(d.BufferKey(), d.size), cfg.SiteOf(c.layer));
  }

  // ---------- copying one block ----------

  /** The tensors after the gate has copied `image` to the rows `g`. */
  ghost predicate IsScatter(image: seq<Byte>, g: Rows, site: Site, t: Tensors, t': Tensors) {
    && site.k.Some? && site.v.Some?
    && AllFit(KeyCopies(g, g.tokens), |image|, |t.k|) && AllFit(ValuePlan(g, site, g.tokens), |image|, |t.v|)
    && t' == Tensors(WriteKeys(t.k, image, g, site), WriteValues(t.v, image, g, site))
  }

  lemma {:induction false} CopiedLands(cfg: Config, c: Command, t: Tensors, t': Tensors)
    requires Accepted(cfg, c) && TensorsShaped(cfg.SiteOf(c.layer), t)
    requires IsScatter(Image(cfg, c), RowsFor(c.BufferKey(), c.size), cfg.SiteOf(c.layer), t, t')
    ensures BlockInPlace(cfg, c, t')
  {
    hide RowsFor, Landed, Image, Judge, Shaped, InFile, Config.SiteOf, WriteKeys, WriteValues, KeyCopies, ValuePlan, AllFit;
    ScatterLands(t.k, t.v, Image(cfg, c), RowsFor(c.BufferKey(), c.size), cfg.SiteOf(c.layer));
  }

  /** A block of the layer survives the copy of an agreeing one. */
  lemma {:induction false} CopyKeepsOther(cfg: Config, c: Command, d: Command, t: Tensors, t': Tensors)
    requires c.layer == d.layer && BlockInPlace(cfg, d, t) && BlocksAgree(cfg, d, c)
    requires IsScatter(Image(cfg, c), RowsFor(c.BufferKey(), c.size), cfg.SiteOf(c.layer), t, t')
    ensures BlockInPlace(cfg, d, t')
  {
    hide RowsFor, Landed, Image, CellsAgree, Judge, Shaped, InFile, Config.SiteOf, WriteKeys, WriteValues, KeyCopies, ValuePlan, AllFit;
    BlockSurvivesIff(t.k, t.v, Image(cfg, d), RowsFor(d.BufferKey(), d.size), Image(cfg, c), RowsFor(c.BufferKey(), c.size), cfg.SiteOf(c.layer));
  }

  /** Commands with one buffer key stand for one block. */
  lemma SameBlock(cfg: Config, i: nat, j: nat)
    requires Coherent(cfg.commands) && i < |cfg.commands| && j < |cfg.commands|
    requires cfg.commands[i].BufferKey() == cfg.commands[j].BufferKey()
    ensures cfg.commands[i].layer == cfg.commands[j].layer && Accepted(cfg, cfg.commands[i]) == Accepted(cfg, cfg.commands[j])
    ensures forall t :: BlockInPlace(cfg, cfg.commands[i], t) == BlockInPlace(cfg, cfg.commands[j], t)
  {
    hide VerdictFor, Landed, RowsFor;
  }

  /** The law is kept when the gate copies the block of command `n`. */
  lemma {:induction false} CopyKeepsLaw(cfg: Config, marked: set<Key>, layer: int, n: nat, t: Tensors, t': Tensors)
    requires Coherent(cfg.commands) && n < |cfg.commands| && cfg.commands[n].layer == layer && Accepted(cfg, cfg.commands[n])
    requires TensorsShaped(cfg.SiteOf(layer), t) && LayerLaw(cfg, marked, layer, t)
    requires var c := cfg.commands[n]; IsScatter(Image(cfg, c), RowsFor(c.BufferKey(), c.size), cfg.SiteOf(layer), t, t')
    ensures LayerLaw(cfg, marked + {cfg.commands[n].BufferKey()}, layer, t')
  {
    var c := cfg.commands[n];
    var now := marked + {c.BufferKey()};
    hide BlockInPlace, BlocksAgree, Accepted, IsScatter, Image;
    if LayerAgrees(cfg, now, layer) {
      forall i, j | 0 <= i < |cfg.commands| && 0 <= j < |cfg.commands| &&
          Written(cfg, marked, layer, cfg.commands[i]) && Written(cfg, marked, layer, cfg.commands[j])
        ensures BlocksAgree(cfg, cfg.commands[i], cfg.commands[j])
      {
        assert Written(cfg, now, layer, cfg.commands[i]) && Written(cfg, now, layer, cfg.commands[j]);
      }
      forall i | 0 <= i < |cfg.commands| && Written(cfg, now, layer, cfg.commands[i])
        ensures BlockInPlace(cfg, cfg.commands[i], t')
      {
        if cfg.commands[i].BufferKey() == c.BufferKey() {
          CopiedLands(cfg, c, t, t');
          SameBlock(cfg, i, n);
        } else {
          assert Written(cfg, marked, layer, cfg.commands[i]) && Written(cfg, now, layer, c);
          CopyKeepsOther(cfg, c, cfg.commands[i], t, t');
        }
      }
    }
    if LayerInPlace(cfg, now, layer, t') {
      InPlaceAgree(cfg, now, layer, t');
    }
  }

  /** Marking a refused block changes nothing that was written. */
  lemma {:induction false} RefusalKeepsLaw(cfg: Config, marked: set<Key>, layer: int, n: nat, t: Tensors)
    requires Coherent(cfg.commands) && n < |cfg.commands| && !Accepted(cfg, cfg.commands[n])
    requires LayerLaw(cfg, marked, layer, t)
    ensures LayerLaw(cfg, marked + {cfg.commands[n].BufferKey()}, layer, t)
  {
    var now := marked + {cfg.commands[n].BufferKey()};
    hide BlockInPlace, BlocksAgree, Accepted;
    forall i | 0 <= i < |cfg.commands|
      ensures Written(cfg, now, layer, cfg.commands[i]) == Written(cfg, marked, layer, cfg.commands[i])
    {
      if cfg.commands[i].BufferKey() == cfg.commands[n].BufferKey() {
        SameBlock(cfg, i, n);
      }
    }
    hide Written;
  }

  /** Marking a block of another layer changes nothing in this one. */
  lemma {:induction false} OtherLayerKeepsLaw(cfg: Config, marked: set<Key>, layer: int, key: Key, t: Tensors)
    requires key.layer != layer && LayerLaw(cfg, marked, layer, t)
    ensures LayerLaw(cfg, marked + {key}, layer, t)
  {
    var now := marked + {key};
    forall i | 0 <= i < |cfg.commands|
      ensures Written(cfg, now, layer, cfg.commands[i]) == Written(cfg, marked, layer, cfg.commands[i])
    {
    }
    hide Written, BlockInPlace, BlocksAgree;
  }

  // ---------- what a ready block means ----------

  /** Every block of the layer that the gate has marked is in place. */
  ghost predicate MarkedInPlace(cfg: Config, marked: set<Key>, layer: int, t: Tensors) {
    forall i :: 0 <= i < |cfg.commands| && cfg.commands[i].layer == layer && cfg.commands[i].BufferKey() in marked
      ==> BlockInPlace(cfg, cfg.commands[i], t)
  }

  /** The blocks `marked` of the layer are accepted and agree pairwise on shared cells: a condition on the
      commands, the backing file and the tensors' shapes. */
  ghost predicate MarkedAgree(cfg: Config, marked: set<Key>, layer: int) {
    forall i, j :: 0 <= i < |cfg.commands| && 0 <= j < |cfg.commands| &&
      cfg.commands[i].layer == layer && cfg.commands[i].BufferKey() in marked &&
      cfg.commands[j].layer == layer && cfg.commands[j].BufferKey() in marked
      ==> BlocksAgree(cfg, cfg.commands[i], cfg.commands[j])
  }

  lemma {:induction false} LawMeans(cfg: Config, marked: set<Key>, layer: int, t: Tensors)
    requires LayerLaw(cfg, marked, layer, t)
    ensures MarkedInPlace(cfg, marked, layer, t) <==> MarkedAgree(cfg, marked, layer)
  {
    var cs := cfg.commands;
    if MarkedInPlace(cfg, marked, layer, t) {
      forall i, j | 0 <= i < |cs| && 0 <= j < |cs| && cs[i].layer == layer && cs[i].BufferKey() in marked &&
          cs[j].layer == layer && cs[j].BufferKey() in marked
        ensures BlocksAgree(cfg, cs[i], cs[j])
      {
        assert BlockInPlace(cfg, cs[i], t) && BlockInPlace(cfg, cs[j], t);
        TwoInPlaceAgree(cfg, cs[i], cs[j], t);
      }
    }
    if MarkedAgree(cfg, marked, layer) {
      forall i | 0 <= i < |cs| && cs[i].layer == layer && cs[i].BufferKey() in marked ensures Written(cfg, marked, layer, cs[i]) {
        assert BlocksAgree(cfg, cs[i], cs[i]);
      }
      hide BlocksAgree, BlockInPlace;
    }
  }

  /** Any two accepted blocks of the layer agree on the cells they share. */
  ghost predicate LayerFits(cfg: Config, layer: int) {
    forall i, j :: 0 <= i < |cfg.commands| && 0 <= j < |cfg.commands| &&
      cfg.commands[i].layer == layer && Accepted(cfg, cfg.commands[i]) && cfg.commands[j].layer == layer && Accepted(cfg, cfg.commands[j])
      ==> BlocksAgree(cfg, cfg.commands[i], cfg.commands[j])
  }

  /** Agreement is symmetric, and an accepted block agrees with itself. */
  lemma {:induction false} AgreeSymmetric(cfg: Config, c: Command, d: Command)
    requires BlocksAgree(cfg, c, d)
    ensures BlocksAgree(cfg, d, c) && BlocksAgree(cfg, c, c) && BlocksAgree(cfg, d, d)
  {
    hide TokenBytes, RowsFor, Image;
    SelfAgrees(Image(cfg, c), RowsFor(c.BufferKey(), c.size));
    SelfAgrees(Image(cfg, d), RowsFor(d.BufferKey(), d.size));
  }

  /** Agreement does not depend on which command of a block is taken. */
  lemma {:induction false} SameBlocksAgree(cfg: Config, x: nat, y: nat, i: nat, j: nat)
    requires Coherent(cfg.commands) && x < |cfg.commands| && y < |cfg.commands| && i < |cfg.commands| && j < |cfg.commands|
    requires cfg.commands[x].BufferKey() == cfg.commands[i].BufferKey() && cfg.commands[y].BufferKey() == cfg.commands[j].BufferKey()
    requires BlocksAgree(cfg, cfg.commands[i], cfg.commands[j])
    ensures BlocksAgree(cfg, cfg.commands[x], cfg.commands[y])
  {
    hide CellsAgree, RowsFor, VerdictFor;
  }

  // ---------- disjoint cells ----------

  lemma {:induction false} ApartCellsAgree(mine: seq<Byte>, g: Rows, other: seq<Byte>, h: Rows)
    requires g.Size() == |mine| && h.Size() == |other| && CellsDisjoint(g, h)
    ensures CellsAgree(mine, g, other, h)
  {
  }

  lemma {:induction false} SelfAgrees(image: seq<Byte>, g: Rows)
    requires g.Size() == |image|
    ensures CellsAgree(image, g, image, g)
  {
    hide TokenBytes;
  }

  /** Blocks on disjoint cells agree, whatever the backing file holds. */
  lemma {:induction false} CellsApartFit(cfg: Config, layer: int)
    requires Coherent(cfg.commands) && CellsApart(cfg.commands)
    ensures LayerFits(cfg, layer)
  {
    var cs := cfg.commands;
    forall i, j | 0 <= i < |cs| && 0 <= j < |cs| && cs[i].layer == layer && Accepted(cfg, cs[i]) && cs[j].layer == layer && Accepted(cfg, cs[j])
      ensures BlocksAgree(cfg, cs[i], cs[j])
    {
      var g, h := RowsFor(cs[i].BufferKey(), cs[i].size), RowsFor(cs[j].BufferKey(), cs[j].size);
      var x, y := Image(cfg, cs[i]), Image(cfg, cs[j]);
      if cs[i].BufferKey() == cs[j].BufferKey() {
        assert x == y && g == h;
        hide Image, RowsFor, CellsAgree;
        SelfAgrees(x, g);
      } else {
        assert CellsDisjoint(CellsOf(cs[i].BufferKey()), CellsOf(cs[j].BufferKey()));
        assert CellsDisjoint(g, h);
        hide Image, RowsFor, CellsAgree, CellsDisjoint;
        ApartCellsAgree(x, g, y, h);
      }
    }
  }

  /** What "in place" means, byte by byte: a block of `tokens` tokens has rows of `size / (2 * tokens)` bytes;
      the K row of each token is in its own cell, the first cell being the block's id, and so is its V row,
      element by element when V is transposed. */
  lemma {:induction false} InPlaceBytes(cfg: Config, c: Command, t: Tensors, token: nat, b: nat)
    requires BlockInPlace(cfg, c, t) && token < NatOf(c.end - c.start)
    ensures var site, row := cfg.SiteOf(c.layer), InferRow(c.size, c.end - c.start);
      && c.size == (c.end - c.start) * (2 * row) && row > 0
      && (b < row ==> BytePlaced(t.k, (NatOf(c.block) + token) * row + b, cfg.backing, c.offset + (token * (2 * row) + b)))
      && (b < row && !site.vTrans ==>
            BytePlaced(t.v, (NatOf(c.block) + token) * row + b, cfg.backing, c.offset + (token * (2 * row) + row + b)))
  {
    var site, g, image := cfg.SiteOf(c.layer), RowsFor(c.BufferKey(), c.size), Image(cfg, c);
    LandedBytes(t.k, t.v, image, g, site, token, b);
    InferExact(c.size, c.end - c.start, g.keyRow);
    hide Judge, InferRow, Landed, Shaped;
  }

  /** The transposed V tensor: byte `b` of element `j` of the token's V row. */
  lemma {:induction false} InPlaceElements(cfg: Config, c: Command, t: Tensors, token: nat, j: nat, b: nat)
    requires BlockInPlace(cfg, c, t) && token < NatOf(c.end - c.start) && cfg.SiteOf(c.layer).vTrans
    requires var v := cfg.SiteOf(c.layer).v; v.Some? && j < v.value.ne0 && b < v.value.typeSize
    ensures var el, row := cfg.SiteOf(c.layer).v.value.typeSize, InferRow(c.size, c.end - c.start);
      BytePlaced(t.v, (NatOf(c.block) + token + j * cfg.cache) * el + b, cfg.backing, c.offset + (token * (2 * row) + row + j * el + b))
  {
    var site, g, image := cfg.SiteOf(c.layer), RowsFor(c.BufferKey(), c.size), Image(cfg, c);
    LandedElements(t.k, t.v, image, g, site, token, j, b);
    hide Judge, InferRow, Landed, Shaped;
  }

  predicate BytePlaced(tensor: seq<Byte>, at: int, file: seq<Byte>, from: int) {
    0 <= at < |tensor| && 0 <= from < |file| && tensor[at] == file[from]
  }
}
