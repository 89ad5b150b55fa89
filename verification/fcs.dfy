/**
 The 16-bit frame check sequence of section C of RFC 1662: the table, the byte-at-a-time update that uses it, and
 the bit-at-a-time definition that both implement.
 */
module Fcs {

  const INITIAL: bv16 := 0xffff
  const GOOD: bv16 := 0xf0b8

  /** One step of the bit-serial definition, with the reversed polynomial. */
  function Shift(c: bv16): bv16 {
    if c & 1 == 1 then (c >> 1) ^ 0x8408 else c >> 1
  }

  function Shift8(c: bv16): bv16 {
    Shift(Shift(Shift(Shift(Shift(Shift(Shift(Shift(c))))))))
  }

  /** The closed form that fills table entry `i`. */
  function Entry(i: bv16): bv16 {
    var zx := (i ^ (i << 4)) & 0xff;
    (zx << 8) ^ (zx << 3) ^ (zx >> 4)
  }

  /** The byte-at-a-time update, reading the table entry in its closed form. */
  function Update(c: bv16, v: bv8): bv16 {
    Mix(c, v as bv16)
  }

  function Mix(c: bv16, x: bv16): bv16 {
    (c >> 8) ^ Entry(x ^ (c & 0xff))
  }

  function FcsOf(c: bv16, bs: seq<bv8>): bv16
    decreases |bs|
  {
    if bs == [] then c else FcsOf(Update(c, bs[0]), bs[1..])
  }

  /** The same by shifting in one bit at a time. */
  function BitwiseFcs(c: bv16, bs: seq<bv8>): bv16
    decreases |bs|
  {
    if bs == [] then c else BitwiseFcs(Shift8(c ^ (bs[0] as bv16)), bs[1..])
  }

  // Two, four and eight bit-serial steps without a test: the bits that leave at the bottom come back at the three taps.

  function One(c: bv16): bv16 {
    (c >> 1) ^ ((c & 1) << 15) ^ ((c & 1) << 10) ^ ((c & 1) << 3)
  }

  function Two(c: bv16): bv16 {
    (c >> 2) ^ ((c & 3) << 14) ^ ((c & 3) << 9) ^ ((c & 3) << 2)
  }

  function Four(c: bv16): bv16 {
    (c >> 4) ^ ((c & 0xf) << 12) ^ ((c & 0xf) << 7) ^ (c & 0xf)
  }

  lemma LowBit(c: bv16)
    ensures c & 1 == 0 || c & 1 == 1
  {
  }

  lemma ShiftIsOne(c: bv16)
    ensures Shift(c) == One(c)
  {
    LowBit(c);
    if c & 1 == 1 {
      assert One(c) == (c >> 1) ^ ((1 as bv16) << 15) ^ ((1 as bv16) << 10) ^ ((1 as bv16) << 3);
    } else {
      assert One(c) == (c >> 1) ^ ((0 as bv16) << 15) ^ ((0 as bv16) << 10) ^ ((0 as bv16) << 3);
    }
  }

  lemma OneTwice(c: bv16)
    ensures One(One(c)) == Two(c)
  {
  }

  lemma ShiftTwice(c: bv16)
    ensures Shift(Shift(c)) == Two(c)
  {
    var d := Shift(c);
    ShiftIsOne(c);
    ShiftIsOne(d);
    OneTwice(c);
  }

  lemma TwoTwice(c: bv16)
    ensures Two(Two(c)) == Four(c)
  {
  }

  lemma FourTwice(c: bv16)
    ensures Four(Four(c)) == (c >> 8) ^ Entry(c & 0xff)
  {
  }

  lemma EightShifts(c: bv16)
    ensures Shift8(c) == Four(Four(c))
  {
    var d := Shift(Shift(c));
    var e := Shift(Shift(d));
    var f := Shift(Shift(e));
    ShiftTwice(c);
    ShiftTwice(d);
    ShiftTwice(e);
    ShiftTwice(f);
    TwoTwice(c);
    TwoTwice(e);
  }

  lemma SmallIndex(i: bv16)
    requires i < 256
    ensures i >> 8 == 0 && i & 0xff == i
  {
  }

  /** Each table entry is eight bit-serial steps applied to its index. */
  lemma EntryIsEightShifts(i: bv16)
    requires i < 256
    ensures Entry(i) == Shift8(i)
  {
    SmallIndex(i);
    EightShifts(i);
    FourTwice(i);
  }

  // The facts below are stated as implications, so that each proof has a single goal.

  lemma MixSplits(c: bv16, x: bv16)
    ensures x & 0xff00 == 0 ==> (c ^ x) >> 8 == c >> 8 && (c ^ x) & 0xff == x ^ (c & 0xff)
  {
  }

  lemma MixOfSplit(c: bv16, x: bv16, hi: bv16, i: bv16)
    ensures hi == c >> 8 && i == x ^ (c & 0xff) ==> Mix(c, x) == hi ^ Entry(i)
  {
  }

  lemma FoursOfSplit(d: bv16, hi: bv16, i: bv16)
    ensures hi == d >> 8 && i == d & 0xff ==> Four(Four(d)) == hi ^ Entry(i)
  {
    FourTwice(d);
  }

  lemma MixIsFours(c: bv16, x: bv16)
    ensures x & 0xff00 == 0 ==> Mix(c, x) == Four(Four(c ^ x))
  {
    var d := c ^ x;
    MixSplits(c, x);
    MixOfSplit(c, x, d >> 8, d & 0xff);
    FoursOfSplit(d, d >> 8, d & 0xff);
  }

  lemma MixIsEightShifts(c: bv16, x: bv16)
    ensures x & 0xff00 == 0 ==> Mix(c, x) == Shift8(c ^ x)
  {
    MixIsFours(c, x);
    EightShifts(c ^ x);
  }

  lemma ByteIsLow(v: bv8)
    ensures (v as bv16) & 0xff00 == 0
  {
  }

  lemma UpdateIsEightShifts(c: bv16, v: bv8)
    ensures Update(c, v) == Shift8(c ^ (v as bv16))
  {
    ByteIsLow(v);
    MixIsEightShifts(c, v as bv16);
  }

  lemma {:induction false} TableIsBitwise(c: bv16, bs: seq<bv8>)
    ensures FcsOf(c, bs) == BitwiseFcs(c, bs)
    decreases |bs|
  {
    if bs != [] {
      UpdateIsEightShifts(c, bs[0]);
      TableIsBitwise(Update(c, bs[0]), bs[1..]);
    }
  }

  function LowByte(c: bv16): bv8 {
    (c & 0xff) as bv8
  }

  function HighByte(c: bv16): bv8 {
    ((c >> 8) & 0xff) as bv8
  }

  /** The two bytes a sender appends: the complemented check sequence, low byte first. */
  function Trailer(c: bv16): seq<bv8> {
    [LowByte(!c), HighByte(!c)]
  }

  lemma TrailerLeavesGood(c: bv16)
    ensures Update(Update(c, LowByte(!c)), HighByte(!c)) == GOOD
  {
  }

  lemma {:induction false} FcsOfConcat(c: bv16, a: seq<bv8>, b: seq<bv8>)
    ensures FcsOf(c, a + b) == FcsOf(FcsOf(c, a), b)
    decreases |a|
  {
    if a == [] {
      assert a + b == b;
    } else {
      assert (a + b)[0] == a[0] && (a + b)[1..] == a[1..] + b;
      FcsOfConcat(Update(c, a[0]), a[1..], b);
    }
  }

  /** Any data followed by its trailer leaves the good residue. */
  lemma ResidueIsGood(c: bv16, bs: seq<bv8>)
    ensures FcsOf(c, bs + Trailer(FcsOf(c, bs))) == GOOD
  {
    var d := FcsOf(c, bs);
    FcsOfConcat(c, bs, Trailer(d));
    TrailerLeavesGood(d);
    var t := Trailer(d);
    assert t[1..] == [HighByte(!d)];
    assert FcsOf(d, t) == FcsOf(Update(d, t[0]), t[1..]);
  }

  /** The table index, recovered from the high byte of the entry it selects. */
  function Index(y: bv16): bv16 {
    var z := y ^ (y >> 5);
    (z ^ (z << 4)) & 0xff
  }

  /** The check sequence before an update by byte `x`, recovered from the one after it. */
  function Undo(u: bv16, x: bv16): bv16 {
    var i := Index(u >> 8);
    ((u ^ Entry(i)) << 8) | ((i ^ x) & 0xff)
  }

  lemma IndexUndoesEntry(i: bv16)
    requires i < 256
    ensures Index(Entry(i) >> 8) == i
  {
  }

  lemma HighByteIsEntry(c: bv16, x: bv16)
    requires x < 256
    ensures Mix(c, x) >> 8 == Entry(x ^ (c & 0xff)) >> 8
  {
  }

  lemma UndoUndoesMix(c: bv16, x: bv16)
    requires x < 256
    ensures Undo(Mix(c, x), x) == c
  {
    IndexUndoesEntry(x ^ (c & 0xff));
    HighByteIsEntry(c, x);
  }

  lemma UpdateIsInjective(c: bv16, d: bv16, v: bv8)
    requires c != d
    ensures Update(c, v) != Update(d, v)
  {
    UndoUndoesMix(c, v as bv16);
    UndoUndoesMix(d, v as bv16);
  }

  lemma MixSeparatesBytes(c: bv16, x: bv16, y: bv16)
    requires x < 256 && y < 256 && x != y
    ensures Mix(c, x) != Mix(c, y)
  {
    IndexUndoesEntry(x ^ (c & 0xff));
    IndexUndoesEntry(y ^ (c & 0xff));
    HighByteIsEntry(c, x);
    HighByteIsEntry(c, y);
  }

  lemma UpdateSeparatesBytes(c: bv16, v: bv8, w: bv8)
    requires v != w
    ensures Update(c, v) != Update(c, w)
  {
    MixSeparatesBytes(c, v as bv16, w as bv16);
  }

  lemma {:induction false} FcsIsInjective(c: bv16, d: bv16, bs: seq<bv8>)
    requires c != d
    ensures FcsOf(c, bs) != FcsOf(d, bs)
    decreases |bs|
  {
    if bs != [] {
      UpdateIsInjective(c, d, bs[0]);
      FcsIsInjective(Update(c, bs[0]), Update(d, bs[0]), bs[1..]);
    }
  }

  /** Changing any one byte of a good frame destroys the good residue. */
  lemma OneBadByteIsSeen(c: bv16, bs: seq<bv8>, i: nat, v: bv8)
    requires i < |bs| && v != bs[i] && FcsOf(c, bs) == GOOD
    ensures FcsOf(c, bs[i := v]) != GOOD
  {
    var a, z := bs[..i], bs[i + 1..];
    assert bs == a + ([bs[i]] + z) && bs[i := v] == a + ([v] + z);
    FcsOfConcat(c, a, [bs[i]] + z);
    FcsOfConcat(c, a, [v] + z);
    var d := FcsOf(c, a);
    assert ([bs[i]] + z)[1..] == z && ([v] + z)[1..] == z;
    UpdateSeparatesBytes(d, bs[i], v);
    FcsIsInjective(Update(d, bs[i]), Update(d, v), z);
  }
}
