/** Lists of byte-range copies: the theory behind the tensor scatter, the byte-range mapper and the
    executors' buffers.
 */
module ByteCopies {
  import opened Kv

  /** Copy `len` bytes from offset `src` of one buffer to offset `dst` of another. */
  datatype Copy = Copy(src: nat, dst: nat, len: nat)

  predicate Fits(c: Copy, from: nat, to: nat) {
    c.src + c.len <= from && c.dst + c.len <= to
  }

  predicate AllFit(cs: seq<Copy>, from: nat, to: nat) {
    forall i :: 0 <= i < |cs| ==> Fits(cs[i], from, to)
  }

  /** The two copies write no common byte. */
  predicate Apart(c: Copy, d: Copy) {
    c.dst + c.len <= d.dst || d.dst + d.len <= c.dst
  }

  ghost predicate AllApart(cs: seq<Copy>, ds: seq<Copy>) {
    forall i, j :: 0 <= i < |cs| && 0 <= j < |ds| ==> Apart(cs[i], ds[j])
  }

  ghost predicate PairwiseApart(cs: seq<Copy>) {
    forall i, j :: 0 <= i < j < |cs| ==> Apart(cs[i], cs[j])
  }

  function Slice(s: seq<Byte>, at: nat, len: nat): (r: seq<Byte>)
    requires at + len <= |s|
    ensures |r| == len
  {
    s[at..at + len]
  }

  function Splice(s: seq<Byte>, at: nat, bytes: seq<Byte>): (r: seq<Byte>)
    requires at + |bytes| <= |s|
    ensures |r| == |s|
    ensures forall i :: 0 <= i < |s| ==> r[i] == if at <= i < at + |bytes| then bytes[i - at] else s[i]
  {
    s[..at] + bytes + s[at + |bytes|..]
  }

  /** Perform the copies from left to right. */
  function Apply(to: seq<Byte>, from: seq<Byte>, cs: seq<Copy>): (r: seq<Byte>)
    requires AllFit(cs, |from|, |to|)
    ensures |r| == |to|
  {
    if cs == [] then to
    else
      var c := cs[|cs| - 1];
      Splice(Apply(to, from, cs[..|cs| - 1]), c.dst, Slice(from, c.src, c.len))
  }

  /** The destination holds the bytes this copy was to bring there. */
  predicate Holds(to: seq<Byte>, from: seq<Byte>, c: Copy)
    requires Fits(c, |from|, |to|)
  {
    Slice(to, c.dst, c.len) == Slice(from, c.src, c.len)
  }

  ghost predicate AllHold(to: seq<Byte>, from: seq<Byte>, cs: seq<Copy>)
    requires AllFit(cs, |from|, |to|)
  {
    forall i :: 0 <= i < |cs| ==> Holds(to, from, cs[i])
  }

  predicate Writes(c: Copy, i: int) {
    c.dst <= i < c.dst + c.len
  }

  ghost predicate Untouched(cs: seq<Copy>, i: int) {
    forall k :: 0 <= k < |cs| ==> !Writes(cs[k], i)
  }

  lemma ApplySnoc(to: seq<Byte>, from: seq<Byte>, cs: seq<Copy>, c: Copy)
    requires AllFit(cs, |from|, |to|) && Fits(c, |from|, |to|)
    ensures AllFit(cs + [c], |from|, |to|)
    ensures Apply(to, from, cs + [c]) == Splice(Apply(to, from, cs), c.dst, Slice(from, c.src, c.len))
  {
    assert (cs + [c])[..|cs + [c]| - 1] == cs;
  }

  /** Bytes outside every destination range keep their value. */
  lemma {:induction false} ApplyFrame(to: seq<Byte>, from: seq<Byte>, cs: seq<Copy>, i: nat)
    requires AllFit(cs, |from|, |to|) && i < |to| && Untouched(cs, i)
    ensures Apply(to, from, cs)[i] == to[i]
  {
    if cs == [] {
    } else {
      assert !Writes(cs[|cs| - 1], i);
      ApplyFrame(to, from, cs[..|cs| - 1], i);
    }
  }

  /** A range already in place survives copies that write elsewhere. */
  lemma {:induction false} ApplyKeeps(to: seq<Byte>, from: seq<Byte>, cs: seq<Copy>, image: seq<Byte>, c: Copy)
    requires AllFit(cs, |from|, |to|) && Fits(c, |image|, |to|)
    requires forall i :: 0 <= i < |cs| ==> Apart(c, cs[i])
    requires Holds(to, image, c)
    ensures Holds(Apply(to, from, cs), image, c)
  {
    var after := Apply(to, from, cs);
    forall k | 0 <= k < c.len
      ensures Slice(after, c.dst, c.len)[k] == Slice(image, c.src, c.len)[k]
    {
      assert Untouched(cs, c.dst + k) by {
        forall i | 0 <= i < |cs| ensures !Writes(cs[i], c.dst + k) {
          assert Apart(c, cs[i]);
        }
      }
      ApplyFrame(to, from, cs, c.dst + k);
      assert Slice(to, c.dst, c.len)[k] == Slice(image, c.src, c.len)[k];
    }
  }

  /** Copies that never write the same byte all arrive. */
  lemma {:induction false} ApplyDelivers(to: seq<Byte>, from: seq<Byte>, cs: seq<Copy>)
    requires AllFit(cs, |from|, |to|) && PairwiseApart(cs)
    ensures AllHold(Apply(to, from, cs), from, cs)
  {
    if cs == [] {
    } else {
      var front, last := cs[..|cs| - 1], cs[|cs| - 1];
      var before := Apply(to, from, front);
      var after := Apply(to, from, cs);
      ApplyDelivers(to, from, front);
      assert Holds(after, from, last);
      forall i | 0 <= i < |front| ensures Holds(after, from, cs[i]) {
        assert Apart(cs[i], last) && Holds(before, from, front[i]);
        ApplyKeeps(before, from, [last], from, cs[i]);
        assert Apply(before, from, [last]) == after;
      }
    }
  }

  /** The converse direction, byte by byte: with every copy in place, each written byte is known. */
  lemma HoldsAt(to: seq<Byte>, from: seq<Byte>, c: Copy, k: nat)
    requires Fits(c, |from|, |to|) && Holds(to, from, c) && k < c.len
    ensures to[c.dst + k] == from[c.src + k]
  {
    assert Slice(to, c.dst, c.len)[k] == Slice(from, c.src, c.len)[k];
  }

  /** The same copies with the two buffers exchanged. */
  function Reversed(c: Copy): Copy {
    Copy(c.dst, c.src, c.len)
  }

  function Reverse(cs: seq<Copy>): (r: seq<Copy>)
    ensures |r| == |cs|
    ensures forall i :: 0 <= i < |cs| ==> r[i] == Reversed(cs[i])
  {
    seq(|cs|, i requires 0 <= i < |cs| => Reversed(cs[i]))
  }

  /** Where the first `n` copies of a tiling end. */
  function TileEnd(cs: seq<Copy>, n: nat): nat
    requires n <= |cs|
  {
    if n == 0 then 0 else cs[n - 1].src + cs[n - 1].len
  }

  /** The source ranges tile `[0, total)` in order: no gap, no overlap. */
  ghost predicate Tiles(cs: seq<Copy>, total: nat) {
    && (forall i {:trigger TileEnd(cs, i)} :: 0 <= i < |cs| ==> cs[i].src == TileEnd(cs, i))
    && total == TileEnd(cs, |cs|)
  }

  lemma ReverseFits(cs: seq<Copy>, from: nat, to: nat)
    requires AllFit(cs, from, to)
    ensures AllFit(Reverse(cs), to, from)
  {
    forall i | 0 <= i < |cs| ensures Fits(Reverse(cs)[i], to, from) {
      assert Fits(cs[i], from, to);
    }
  }

  /** Scattering along copies whose sources tile a buffer and gathering back restores that buffer. */
  lemma {:induction false} GatherAfterScatter(to: seq<Byte>, from: seq<Byte>, cs: seq<Copy>, blank: seq<Byte>)
    requires AllFit(cs, |from|, |to|) && PairwiseApart(cs) && Tiles(cs, |from|)
    requires |blank| == |from|
    ensures AllFit(Reverse(cs), |to|, |blank|)
    ensures Apply(blank, Apply(to, from, cs), Reverse(cs)) == from
  {
    var landed := Apply(to, from, cs);
    ApplyDelivers(to, from, cs);
    ReverseFits(cs, |from|, |to|);
    GatherPrefix(landed, from, cs, blank, |cs|);
    assert Reverse(cs)[..|cs|] == Reverse(cs);
  }

  predicate AgreeUpTo(a: seq<Byte>, b: seq<Byte>, n: nat)
    requires n <= |a| && n <= |b|
  {
    a[..n] == b[..n]
  }

  lemma TileEndFits(cs: seq<Copy>, from: nat, to: nat, n: nat)
    requires n <= |cs| && AllFit(cs, from, to)
    ensures TileEnd(cs, n) <= from
  {
    if n > 0 {
      assert Fits(cs[n - 1], from, to);
    }
  }

  lemma {:induction false} GatherPrefix(landed: seq<Byte>, from: seq<Byte>, cs: seq<Copy>, blank: seq<Byte>, n: nat)
    requires n <= |cs|
    requires AllFit(cs, |from|, |landed|) && AllHold(landed, from, cs) && Tiles(cs, |from|)
    requires AllFit(Reverse(cs), |landed|, |blank|) && |blank| == |from|
    ensures TileEnd(cs, n) <= |from|
    ensures AgreeUpTo(Apply(blank, landed, Reverse(cs)[..n]), from, TileEnd(cs, n))
  {
    TileEndFits(cs, |from|, |landed|, n);
    if n == 0 {
    } else {
      var rs := Reverse(cs);
      var c := cs[n - 1];
      GatherPrefix(landed, from, cs, blank, n - 1);
      assert rs[..n] == rs[..n - 1] + [Reversed(c)];
      assert Fits(rs[n - 1], |landed|, |blank|);
      ApplySnoc(blank, landed, rs[..n - 1], Reversed(c));
      assert Holds(landed, from, c);
      assert c.src == TileEnd(cs, n - 1);
      GatherOne(Apply(blank, landed, rs[..n - 1]), landed, from, c);
    }
  }

  lemma GatherOne(before: seq<Byte>, landed: seq<Byte>, from: seq<Byte>, c: Copy)
    requires Fits(c, |from|, |landed|) && |before| == |from| && Holds(landed, from, c)
    requires AgreeUpTo(before, from, c.src)
    ensures AgreeUpTo(Splice(before, c.src, Slice(landed, c.dst, c.len)), from, c.src + c.len)
  {
    var after := Splice(before, c.src, Slice(landed, c.dst, c.len));
    forall i | 0 <= i < c.src + c.len ensures after[i] == from[i] {
      if i < c.src {
        assert before[..c.src][i] == from[..c.src][i];
      } else {
        HoldsAt(landed, from, c, i - c.src);
      }
    }
  }
}
