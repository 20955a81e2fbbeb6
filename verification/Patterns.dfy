/** What the C consumer's verification can tell apart. A block's bytes depend on the low byte of a seed that
    mixes its layer, block, token interval and offset: two patterns agree everywhere or nowhere, and keys that
    differ in one component are told apart exactly when the difference is not a multiple of 256.
 */
module Patterns {
  import opened Kv
  import opened ByteCopies
  import opened ByteNumbers
  import opened ConsumerModel

  // ---------- bytes of words ----------

  lemma {:induction false} LowBytesEqual(x: int, y: int)
    ensures LowByte(x) == LowByte(y) <==> (x - y) % 256 == 0
  {
    RemaindersEqual(x, y);
    var a, b := x % 256, y % 256;
    BytesEqual(a, b);
  }

  // ---------- the low byte of a seed ----------

  lemma {:induction false} LowOfWord(high: bv64, low: bv8)
    ensures LowOf((high << 8) | (low as bv64)) == low
  {
  }

  lemma {:induction false} LowOfNumber(x: int)
    ensures LowOf(Word(x)) == LowByte(x)
  {
    hide LowOf, LowByte;
    LowOfWord((x / 256 % 0x100_0000_0000_0000) as bv64, LowByte(x));
  }

  // Arithmetic on bytes, wrapping as on the low bytes of words.

  function BytePlus(a: Byte, b: Byte): Byte {
    a + b
  }

  function ByteTimes(a: Byte, factor: Byte): Byte {
    a * factor
  }

  function ByteJoined(l: Byte, k: Byte, s: Byte, e: Byte, o: Byte): Byte {
    0x83 ^ l ^ k ^ s ^ e ^ o
  }

  lemma {:induction false} LowOfSum(a: bv64, b: bv64)
    ensures LowOf(Plus(a, b)) == BytePlus(LowOf(a), LowOf(b))
  {
  }

  lemma {:induction false} LowOfJoined(l: bv64, k: bv64, s: bv64, e: bv64, o: bv64)
    ensures LowOf(Joined(l, k, s, e, o)) == ByteJoined(LowOf(l), LowOf(k), LowOf(s), LowOf(e), LowOf(o))
  {
  }

  lemma {:induction false} LowOfLayer(a: bv64)
    ensures LowOf(Times(a, 1099511628211)) == ByteTimes(LowOf(a), 0xb3)
  {
  }

  lemma {:induction false} LowOfBlock(a: bv64)
    ensures LowOf(Times(a, 14029467366897019727)) == ByteTimes(LowOf(a), 0x4f)
  {
  }

  lemma {:induction false} LowOfStart(a: bv64)
    ensures LowOf(Times(a, 1609587929392839161)) == ByteTimes(LowOf(a), 0xf9)
  {
  }

  lemma {:induction false} LowOfEnd(a: bv64)
    ensures LowOf(Times(a, 9650029242287828579)) == ByteTimes(LowOf(a), 0x63)
  {
  }

  lemma {:induction false} LowOfOffset(a: bv64)
    ensures LowOf(Times(a, 2870177450012600261)) == ByteTimes(LowOf(a), 0xc5)
  {
  }

  /** The low byte of the seed, from the low bytes of the five numbers. */
  function Tag(key: Key, offset: int): Byte {
    ByteJoined(ByteTimes(LowByte(key.layer + 1), 0xb3), ByteTimes(LowByte(key.block + 17), 0x4f),
               ByteTimes(LowByte(key.start + 31), 0xf9), ByteTimes(LowByte(key.end + 47), 0x63), ByteTimes(LowByte(offset + 59), 0xc5))
  }

  lemma {:induction false} SeedTag(key: Key, offset: int)
    ensures LowOf(PatternSeed(key, offset)) == Tag(key, offset)
  {
    hide Word, LowByte, LowOf, Joined, Times, ByteJoined, ByteTimes;
    var l, k, s, e, o := Word(key.layer + 1), Word(key.block + 17), Word(key.start + 31), Word(key.end + 47), Word(offset + 59);
    LowOfNumber(key.layer + 1);
    LowOfNumber(key.block + 17);
    LowOfNumber(key.start + 31);
    LowOfNumber(key.end + 47);
    LowOfNumber(offset + 59);
    LowOfLayer(l);
    LowOfBlock(k);
    LowOfStart(s);
    LowOfEnd(e);
    LowOfOffset(o);
    LowOfJoined(Times(l, 1099511628211), Times(k, 14029467366897019727), Times(s, 1609587929392839161),
                Times(e, 9650029242287828579), Times(o, 2870177450012600261));
  }

  /** Every byte of a pattern is the tag plus a byte that depends on the index only. */
  lemma {:induction false} ByteOfTag(key: Key, offset: int, i: nat)
    ensures PatternByte(key, offset, i) == BytePlus(Tag(key, offset), LowOf(Step(Word(i))))
  {
    hide PatternSeed, Step, Word, LowOf, Tag, Plus, BytePlus;
    SeedTag(key, offset);
    LowOfSum(PatternSeed(key, offset), Step(Word(i)));
  }

  // A xor and a product with an odd constant keep bytes apart.

  lemma {:induction false} LayerTold(a: Byte, b: Byte, w: Byte, x: Byte, y: Byte, z: Byte)
    ensures ByteJoined(a, w, x, y, z) == ByteJoined(b, w, x, y, z) <==> a == b
  {
  }

  lemma {:induction false} LayerTimesTold(a: Byte, b: Byte)
    ensures ByteTimes(a, 0xb3) == ByteTimes(b, 0xb3) <==> a == b
  {
  }

  lemma {:induction false} BlockTold(a: Byte, b: Byte, w: Byte, x: Byte, y: Byte, z: Byte)
    ensures ByteJoined(w, a, x, y, z) == ByteJoined(w, b, x, y, z) <==> a == b
  {
  }

  lemma {:induction false} BlockTimesTold(a: Byte, b: Byte)
    ensures ByteTimes(a, 0x4f) == ByteTimes(b, 0x4f) <==> a == b
  {
  }

  lemma {:induction false} StartTold(a: Byte, b: Byte, w: Byte, x: Byte, y: Byte, z: Byte)
    ensures ByteJoined(w, x, a, y, z) == ByteJoined(w, x, b, y, z) <==> a == b
  {
  }

  lemma {:induction false} StartTimesTold(a: Byte, b: Byte)
    ensures ByteTimes(a, 0xf9) == ByteTimes(b, 0xf9) <==> a == b
  {
  }

  lemma {:induction false} EndTold(a: Byte, b: Byte, w: Byte, x: Byte, y: Byte, z: Byte)
    ensures ByteJoined(w, x, y, a, z) == ByteJoined(w, x, y, b, z) <==> a == b
  {
  }

  lemma {:induction false} EndTimesTold(a: Byte, b: Byte)
    ensures ByteTimes(a, 0x63) == ByteTimes(b, 0x63) <==> a == b
  {
  }

  lemma {:induction false} OffsetTold(a: Byte, b: Byte, w: Byte, x: Byte, y: Byte, z: Byte)
    ensures ByteJoined(w, x, y, z, a) == ByteJoined(w, x, y, z, b) <==> a == b
  {
  }

  lemma {:induction false} OffsetTimesTold(a: Byte, b: Byte)
    ensures ByteTimes(a, 0xc5) == ByteTimes(b, 0xc5) <==> a == b
  {
  }

  /** Tags of keys that differ in one component. */
  lemma {:induction false} TagsTold(a: Key, o: int, b: Key, p: int)
    ensures a == b.(layer := a.layer) && o == p ==> (Tag(a, o) == Tag(b, p) <==> (a.layer - b.layer) % 256 == 0)
    ensures a == b.(block := a.block) && o == p ==> (Tag(a, o) == Tag(b, p) <==> (a.block - b.block) % 256 == 0)
    ensures a == b.(start := a.start) && o == p ==> (Tag(a, o) == Tag(b, p) <==> (a.start - b.start) % 256 == 0)
    ensures a == b.(end := a.end) && o == p ==> (Tag(a, o) == Tag(b, p) <==> (a.end - b.end) % 256 == 0)
    ensures a == b ==> (Tag(a, o) == Tag(b, p) <==> (o - p) % 256 == 0)
  {
    hide ByteJoined, ByteTimes, LowByte;
    var l, k, s, e, f := ByteTimes(LowByte(b.layer + 1), 0xb3), ByteTimes(LowByte(b.block + 17), 0x4f),
      ByteTimes(LowByte(b.start + 31), 0xf9), ByteTimes(LowByte(b.end + 47), 0x63), ByteTimes(LowByte(p + 59), 0xc5);
    LowBytesEqual(a.layer + 1, b.layer + 1);
    LowBytesEqual(a.block + 17, b.block + 17);
    LowBytesEqual(a.start + 31, b.start + 31);
    LowBytesEqual(a.end + 47, b.end + 47);
    LowBytesEqual(o + 59, p + 59);
    LayerTimesTold(LowByte(a.layer + 1), LowByte(b.layer + 1));
    BlockTimesTold(LowByte(a.block + 17), LowByte(b.block + 17));
    StartTimesTold(LowByte(a.start + 31), LowByte(b.start + 31));
    EndTimesTold(LowByte(a.end + 47), LowByte(b.end + 47));
    OffsetTimesTold(LowByte(o + 59), LowByte(p + 59));
    LayerTold(ByteTimes(LowByte(a.layer + 1), 0xb3), l, k, s, e, f);
    BlockTold(ByteTimes(LowByte(a.block + 17), 0x4f), k, l, s, e, f);
    StartTold(ByteTimes(LowByte(a.start + 31), 0xf9), s, l, k, e, f);
    EndTold(ByteTimes(LowByte(a.end + 47), 0x63), e, l, k, s, f);
    OffsetTold(ByteTimes(LowByte(o + 59), 0xc5), f, l, k, s, e);
  }

  // ---------- patterns ----------

  lemma {:induction false} SumsTold(a: Byte, b: Byte, c: Byte)
    ensures BytePlus(a, c) == BytePlus(b, c) <==> a == b
  {
  }

  /** Two patterns agree at an index exactly when their tags are equal: everywhere or nowhere. */
  lemma {:induction false} TagDecides(a: Key, o: int, b: Key, p: int, i: nat)
    ensures PatternByte(a, o, i) == PatternByte(b, p, i) <==> Tag(a, o) == Tag(b, p)
  {
    hide PatternByte, Tag, LowOf, Step, Word, BytePlus;
    ByteOfTag(a, o, i);
    ByteOfTag(b, p, i);
    SumsTold(Tag(a, o), Tag(b, p), LowOf(Step(Word(i))));
  }

  /** Keys that differ in one component have different bytes, at every index, exactly when the difference is
      not a multiple of 256. */
  lemma {:induction false} OneApart(a: Key, o: int, b: Key, p: int, i: nat)
    ensures a == b.(layer := a.layer) && o == p ==> (PatternByte(a, o, i) == PatternByte(b, p, i) <==> (a.layer - b.layer) % 256 == 0)
    ensures a == b.(block := a.block) && o == p ==> (PatternByte(a, o, i) == PatternByte(b, p, i) <==> (a.block - b.block) % 256 == 0)
    ensures a == b.(start := a.start) && o == p ==> (PatternByte(a, o, i) == PatternByte(b, p, i) <==> (a.start - b.start) % 256 == 0)
    ensures a == b.(end := a.end) && o == p ==> (PatternByte(a, o, i) == PatternByte(b, p, i) <==> (a.end - b.end) % 256 == 0)
    ensures a == b ==> (PatternByte(a, o, i) == PatternByte(b, p, i) <==> (o - p) % 256 == 0)
  {
    TagDecides(a, o, b, p, i);
    TagsTold(a, o, b, p);
    hide PatternByte, Tag;
  }

  /** The first bytes of the patterns of two blocks of sixteen tokens at the start of the file. */
  lemma {:induction false} ExampleBytes()
    ensures PatternByte(Key(0, 0, 0, 16), 0, 0) == 18 && PatternByte(Key(0, 1, 0, 16), 0, 0) == 163
  {
    ExampleTags();
    FirstStep();
    ByteOfTag(Key(0, 0, 0, 16), 0, 0);
    ByteOfTag(Key(0, 1, 0, 16), 0, 0);
    hide PatternByte, Step, Word, LowOf, Tag;
  }

  lemma {:induction false} FirstStep()
    ensures LowOf(Step(Word(0))) == 0
  {
    ZeroWord();
    hide Word;
    assert Step(0) == 0;
  }

  lemma {:induction false} ZeroWord()
    ensures Word(0) == 0
  {
    var h := 0 / 256 % 0x100_0000_0000_0000;
    assert h == 0 && LowByte(0) == 0;
    assert h as bv64 == 0;
    hide LowByte;
  }

  lemma {:induction false} ExampleTags()
    ensures Tag(Key(0, 0, 0, 16), 0) == 18 && Tag(Key(0, 1, 0, 16), 0) == 163
  {
    assert LowByte(1) == 1 && LowByte(17) == 17 && LowByte(18) == 18 && LowByte(31) == 31 && LowByte(63) == 63 && LowByte(59) == 59;
    hide LowByte;
  }

  // ---------- verification ----------

  /** One block's bytes pass another block's verification of the same size if and only if the two tags are
      equal. */
  lemma {:induction false} ForeignVerifiesIff(c: Command, d: Command)
    requires SizeOf(c) == SizeOf(d) > 0
    ensures Verifies(Pattern(c), d) <==> Tag(c.BufferKey(), c.offset) == Tag(d.BufferKey(), d.offset)
  {
    hide PatternByte, Tag;
    var n := SizeOf(d);
    assert Pattern(c)[..n] == Pattern(c);
    forall i | 0 <= i < n ensures Pattern(c)[i] == Pattern(d)[i] <==> Tag(c.BufferKey(), c.offset) == Tag(d.BufferKey(), d.offset) {
      TagDecides(c.BufferKey(), c.offset, d.BufferKey(), d.offset, i);
    }
    if Pattern(c) == Pattern(d) {
      assert Pattern(c)[0] == Pattern(d)[0];
    }
  }

  /** So a block is not mistaken for one whose id alone is different, unless by a multiple of 256; and in
      the same way for the other components. */
  lemma {:induction false} OtherBlockFails(c: Command, d: Command)
    requires SizeOf(c) == SizeOf(d) > 0
    ensures c.offset == d.offset && c.BufferKey() == d.BufferKey().(block := c.block) ==>
      (Verifies(Pattern(c), d) <==> (c.block - d.block) % 256 == 0)
    ensures c.offset == d.offset && c.BufferKey() == d.BufferKey().(layer := c.layer) ==>
      (Verifies(Pattern(c), d) <==> (c.layer - d.layer) % 256 == 0)
    ensures c.BufferKey() == d.BufferKey() ==> (Verifies(Pattern(c), d) <==> (c.offset - d.offset) % 256 == 0)
  {
    hide Tag, Pattern, Verifies;
    ForeignVerifiesIff(c, d);
    TagsTold(c.BufferKey(), c.offset, d.BufferKey(), d.offset);
  }

  /** Reading a range that holds another block's bytes is counted as a verification error and ends the run, if
      and only if the two tags differ. */
  lemma {:induction false} ForeignReadFails(s: State, i: nat, c: Command, env: Env, d: Command)
    requires i < |s.slots| && Roomy(s.slots[i], c) && |s.slots[i].Buffer(c.target).value| == SizeOf(c)
    requires env.ioOk && InFile(s.file, c) && SizeOf(c) == SizeOf(d) > 0 && Slice(s.file, c.offset, SizeOf(c)) == Pattern(d)
    ensures var r := ReadOnto(s, i, c, env);
      && r.state.stats.verificationErrors == s.stats.verificationErrors + (if r.ok then 0 else 1)
      && (r.ok <==> Tag(c.BufferKey(), c.offset) == Tag(d.BufferKey(), d.offset))
  {
    ForeignVerifiesIff(d, c);
    hide Tag, Pattern, Verifies;
    OverwriteWhole(s.slots[i].Buffer(c.target).value, Pattern(d));
    hide Overwrite;
  }

  lemma {:induction false} OverwriteWhole(b: seq<Byte>, bytes: seq<Byte>)
    requires |b| == |bytes|
    ensures Overwrite(b, bytes) == bytes
  {
  }
}
