/** What a checksum tells: the patch's fold and the checksum of a staged block change whenever one byte of the
    data changes, so equal staging and read-back checksums rule out every single-byte difference.
 */
module Checksums {
  import opened Kv
  import opened TensorLayout
  import opened TensorGate
  import opened BridgeModel
  import opened Fnv

  /** The product with the inverse of that prime modulo 2^64. */
  function Unscaled(word: bv64): bv64 {
    word * 14886173955864302971
  }

  lemma {:induction false} ProductBack(word: bv64)
    ensures Unscaled(word * 1099511628211) == word
  {
  }

  lemma {:induction false} ScaledBack(word: bv64)
    ensures Unscaled(Scaled(word)) == word
  {
    hide Unscaled;
    ProductBack(word);
  }

  lemma {:induction false} XorApart(a: bv64, b: bv64, c: bv64)
    requires a != b
    ensures Xor(a, c) != Xor(b, c) && Xor(c, a) != Xor(c, b)
  {
  }

  lemma {:induction false} WideBytes(b: Byte, c: Byte)
    requires b != c
    ensures b as bv64 != c as bv64
  {
  }

  /** One step of the fold loses neither the running hash nor the byte. */
  lemma {:induction false} MixApart(hash: bv64, other: bv64, b: Byte, c: Byte)
    ensures hash != other ==> Mix(hash, b) != Mix(other, b)
    ensures b != c ==> Mix(hash, b) != Mix(hash, c)
  {
    hide Scaled, Unscaled, Xor;
    ScaledBack(Xor(hash, b as bv64));
    ScaledBack(Xor(other, b as bv64));
    ScaledBack(Xor(hash, c as bv64));
    if hash != other {
      XorApart(hash, other, b as bv64);
    }
    if b != c {
      WideBytes(b, c);
      XorApart(b as bv64, c as bv64, hash);
    }
  }

  lemma {:induction false} HashApart(hash: bv64, other: bv64, data: seq<Byte>)
    requires hash != other
    ensures Hash(hash, data) != Hash(other, data)
    decreases |data|
  {
    hide Mix;
    if data != [] {
      MixApart(hash, other, data[0], data[0]);
      HashApart(Mix(hash, data[0]), Mix(other, data[0]), data[1..]);
    }
  }

  /** Changing one byte changes the fold. */
  lemma {:induction false} OneByteChangesHash(hash: bv64, data: seq<Byte>, i: nat, b: Byte)
    requires i < |data| && data[i] != b
    ensures Hash(hash, data) != Hash(hash, data[i := b])
    decreases |data|
  {
    hide Mix;
    var changed := data[i := b];
    if i == 0 {
      assert changed[1..] == data[1..];
      MixApart(hash, hash, data[0], b);
      HashApart(Mix(hash, data[0]), Mix(hash, b), data[1..]);
    } else {
      assert changed[1..] == data[1..][i - 1 := b];
      OneByteChangesHash(Mix(hash, data[0]), data[1..], i - 1, b);
    }
  }

  // ---------- the rows of a staged block ----------

  /** The position of byte `p` in the row that starts `at` bytes into token `t`'s stride. */
  function InRow(p: nat, stride: nat, at: nat, row: nat, t: nat): (r: Option<nat>)
    ensures r.Some? ==> r.value < row
  {
    if t * stride + at <= p < t * stride + at + row then Some(p - (t * stride + at)) else None
  }

  lemma {:induction false} InRowIff(u: nat, off: nat, stride: nat, at: nat, row: nat, t: nat)
    requires off < stride && at + row <= stride
    ensures InRow(u * stride + off, stride, at, row, t).Some? <==> t == u && at <= off < at + row
  {
    if t < u {
      MulMono(t + 1, u, stride);
      MulNext(t, stride);
    } else if u < t {
      MulMono(u + 1, t, stride);
      MulNext(u, stride);
    }
  }

  lemma {:induction false} RowsFit(image: seq<Byte>, stride: nat, n: nat)
    requires n > 0 && n * stride <= |image|
    ensures (n - 1) * stride <= |image|
  {
    MulNext(n - 1, stride);
  }

  lemma {:induction false} RowChanges(image: seq<Byte>, p: nat, b: Byte, stride: nat, at: nat, row: nat, t: nat)
    requires p < |image| && at + row <= stride && (t + 1) * stride <= |image|
    ensures var changed, r, hit := RowAt(image[p := b], stride, at, row, t), RowAt(image, stride, at, row, t), InRow(p, stride, at, row, t);
      if hit.Some? then r[hit.value] == image[p] && changed == r[hit.value := b] else changed == r
  {
    MulNext(t, stride);
  }

  /** One row more, in which the byte `hit` may have changed. */
  lemma {:induction false} RowStep(before: bv64, after: bv64, row: seq<Byte>, changed: seq<Byte>, hit: Option<nat>, b: Byte)
    requires hit.None? ==> changed == row
    requires hit.Some? ==> before == after && hit.value < |row| && row[hit.value] != b && changed == row[hit.value := b]
    ensures Hash(before, row) != Hash(after, changed) <==> hit.Some? || before != after
  {
    hide Hash;
    if hit.Some? {
      OneByteChangesHash(before, row, hit.value, b);
    } else if before != after {
      HashApart(before, after, row);
    }
  }

  /** Changing a byte that lies in no row but that of token `u` changes the fold exactly when it lies in that
      row and the fold covers it. */
  lemma {:induction false} OneByteChangesRows(image: seq<Byte>, p: nat, b: Byte, u: nat, stride: nat, at: nat, row: nat, n: nat)
    requires at + row <= stride && n * stride <= |image| && p < |image| && image[p] != b
    requires forall t: nat :: InRow(p, stride, at, row, t).Some? ==> t == u
    ensures RowsHash(image[p := b], stride, at, row, n) != RowsHash(image, stride, at, row, n)
      <==> u < n && InRow(p, stride, at, row, u).Some?
  {
    if n > 0 {
      hide Hash, RowAt, InRow;
      RowsFit(image, stride, n);
      OneByteChangesRows(image, p, b, u, stride, at, row, n - 1);
      RowChanges(image, p, b, stride, at, row, n - 1);
      RowStep(RowsHash(image, stride, at, row, n - 1), RowsHash(image[p := b], stride, at, row, n - 1),
              RowAt(image, stride, at, row, n - 1), RowAt(image[p := b], stride, at, row, n - 1),
              InRow(p, stride, at, row, n - 1), b);
    }
  }

  /** Changing any one byte of a staged block changes its checksum. */
  lemma {:induction false} OneByteChangesChecksum(image: seq<Byte>, g: Rows, p: nat, b: Byte)
    requires |image| == g.Size() && p < |image| && image[p] != b
    ensures BlockHash(image[p := b], g) != BlockHash(image, g)
  {
    var stride := g.Stride();
    var u, off := p / stride, p % stride;
    TokenOf(p, stride, g.tokens);
    var changed := image[p := b];
    forall t: nat
      ensures InRow(p, stride, 0, g.keyRow, t).Some? <==> t == u && off < g.keyRow
      ensures InRow(p, stride, g.keyRow, g.valueRow, t).Some? <==> t == u && g.keyRow <= off
    {
      InRowIff(u, off, stride, 0, g.keyRow, t);
      InRowIff(u, off, stride, g.keyRow, g.valueRow, t);
    }
    OneByteChangesRows(image, p, b, u, stride, 0, g.keyRow, g.tokens);
    OneByteChangesRows(image, p, b, u, stride, g.keyRow, g.valueRow, g.tokens);
    hide RowsHash, Xor;
    if off < g.keyRow {
      XorApart(KeysHash(changed, g), KeysHash(image, g), ValuesHash(image, g));
    } else {
      XorApart(ValuesHash(changed, g), ValuesHash(image, g), KeysHash(image, g));
    }
  }

  lemma {:induction false} TokenOf(p: nat, stride: nat, n: nat)
    requires p < n * stride
    ensures stride > 0 && p / stride < n && p % stride < stride && p == p / stride * stride + p % stride
  {
    if stride > 0 && p / stride >= n {
      MulMono(n, p / stride, stride);
    }
  }

  lemma {:induction false} ScaledExample()
    ensures Scaled(Xor(OFFSET, 97)) == 4953267810257967366 && Scaled(Xor(4953267810257967366, 98)) == 11217423238573040876
  {
  }

  /** The fold of the bytes 97 and 98: each byte is mixed in before the product. */
  lemma {:induction false} HashExample()
    ensures Hash(OFFSET, [97, 98]) == 11217423238573040876
  {
    ScaledExample();
    hide Scaled, Xor;
    var data: seq<Byte> := [97, 98];
    assert data[1..] == [98] && data[1..][1..] == [];
    assert data[0] as bv64 == 97 && data[1] as bv64 == 98;
    assert Hash(OFFSET, data) == Hash(Mix(OFFSET, 97), [98]);
    assert Hash(Mix(OFFSET, 97), [98]) == Hash(Mix(Mix(OFFSET, 97), 98), []);
  }
}
