/** The checksum of the llama.cpp patch: a 64-bit xor-multiply fold with the patch's own offset
    constant.
 */
module Fnv {
  import opened Kv

  const OFFSET: bv64 := 1469598103934665603

  function Xor(a: bv64, b: bv64): bv64 {
    a ^ b
  }

  /** The product with the fold's prime. */
  function Scaled(word: bv64): bv64 {
    word * 1099511628211
  }

  function Mix(hash: bv64, b: Byte): bv64 {
    Scaled(Xor(hash, b as bv64))
  }

  function Hash(hash: bv64, data: seq<Byte>): bv64
    decreases |data|
  {
    if data == [] then hash else Hash(Mix(hash, data[0]), data[1..])
  }

  /** Folding chunk by chunk equals folding their concatenation. */
  lemma {:induction false} HashConcat(hash: bv64, a: seq<Byte>, b: seq<Byte>)
    ensures Hash(Hash(hash, a), b) == Hash(hash, a + b)
    decreases |a|
  {
    if a == [] {
      assert a + b == b;
    } else {
      HashConcat(Mix(hash, a[0]), a[1..], b);
      assert (a + b)[1..] == a[1..] + b;
    }
  }

  method Update(hash: bv64, data: seq<Byte>) returns (r: bv64)
    ensures r == Hash(hash, data)
  {
    r := hash;
    var i := 0;
    while i < |data|
      invariant 0 <= i <= |data|
      invariant Hash(r, data[i..]) == Hash(hash, data)
    {
      r := Mix(r, data[i]);
      i := i + 1;
    }
  }
}
