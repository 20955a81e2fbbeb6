/** Bytes and the numbers they stand for. */
module ByteNumbers {
  lemma {:induction false} ByteBack(x: int)
    requires 0 <= x < 256
    ensures (x as bv8) as int == x
  {
  }

  lemma {:induction false} RemaindersEqual(x: int, y: int)
    ensures x % 256 == y % 256 <==> (x - y) % 256 == 0
  {
  }

  lemma {:induction false} BytesEqual(x: int, y: int)
    requires 0 <= x < 256 && 0 <= y < 256
    ensures x as bv8 == y as bv8 <==> x == y
  {
    var a, b := x as bv8, y as bv8;
    ByteBack(x);
    ByteBack(y);
    assert a == b ==> a as int == b as int;
  }

  lemma {:induction false} NumbersEqual(a: bv8, b: bv8)
    ensures a as int == b as int <==> a == b
  {
    var x, y := a as int, b as int;
    assert x as bv8 == a && y as bv8 == b;
  }
}
