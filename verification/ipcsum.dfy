/**
 The Internet checksum: RFC 1071, as the i386 code computes it, and its use on TCP segments.
 */
module InternetChecksum {
  type Byte = x: int | 0 <= x < 256
  type Word = x: int | 0 <= x < 0x1_0000

  /** Addition with end-around carry. */
  function AddCarry(s: Word, w: Word): Word {
    if s + w < 0x1_0000 then s + w else s + w - 0xffff
  }

  /** Two bytes as the processor loads them. */
  function Load(a: Byte, b: Byte): Word {
    (a as int) + 256 * (b as int)
  }

  /** The partial sum of a buffer, taken two bytes at a time, low byte first. */
  function Partial(s: Word, buf: seq<Byte>): Word
    decreases |buf|
  {
    if |buf| == 0 then s
    else if |buf| == 1 then AddCarry(s, buf[0])
    else Partial(AddCarry(s, Load(buf[0], buf[1])), buf[2..])
  }

  function Complement(w: Word): Word {
    0xffff - w
  }

  // ---------- what the sum is ----------

  /** The plain sum of the words of a buffer, low byte first. */
  ghost function Total(buf: seq<Byte>): nat
    decreases |buf|
  {
    if |buf| == 0 then 0 else if |buf| == 1 then buf[0] else Load(buf[0], buf[1]) + Total(buf[2..])
  }

  /** The plain sum of the words of a buffer in network byte order. */
  ghost function NetworkTotal(buf: seq<Byte>): nat
    decreases |buf|
  {
    if |buf| == 0 then 0 else if |buf| == 1 then 256 * buf[0] else 256 * buf[0] + buf[1] + NetworkTotal(buf[2..])
  }

  /** The carries of a sum added back until it fits: zero only for zero. */
  ghost function Fold(v: nat): nat {
    if v <= 0xffff then v else Fold(v - 0xffff)
  }

  lemma {:induction false} FoldIsRemainder(v: nat)
    ensures Fold(v) <= 0xffff && (v == 0 <==> Fold(v) == 0)
    ensures v > 0 ==> Fold(v) == (v - 1) % 0xffff + 1
    decreases v
  {
    if v > 0xffff {
      FoldIsRemainder(v - 0xffff);
    }
  }

  lemma {:induction false} FoldOnce(v: nat)
    requires v > 0
    ensures Fold(v + 0xffff) == Fold(v)
  {
  }

  lemma {:induction false} FoldTwice(v: nat, w: nat)
    ensures Fold(Fold(v) + w) == Fold(v + w)
    decreases v
  {
    if v > 0xffff {
      FoldTwice(v - 0xffff, w);
      FoldOnce(v - 0xffff + w);
    }
  }

  lemma {:induction false} FoldMultiple(v: nat, k: nat)
    requires v > 0
    ensures Fold(v + 0xffff * k) == Fold(v)
    decreases k
  {
    if k > 0 {
      FoldMultiple(v, k - 1);
      FoldOnce(v + 0xffff * (k - 1));
    }
  }

  /** The loop computes the one's complement sum of the words. */
  lemma {:induction false} PartialIsFold(s: Word, buf: seq<Byte>)
    ensures Partial(s, buf) == Fold(s + Total(buf))
    decreases |buf|
  {
    if |buf| >= 2 {
      var w := Load(buf[0], buf[1]);
      PartialIsFold(AddCarry(s, w), buf[2..]);
      FoldTwice(s + w, Total(buf[2..]));
    }
  }

  lemma {:induction false} TotalConcat(a: seq<Byte>, b: seq<Byte>)
    requires |a| % 2 == 0
    ensures Total(a + b) == Total(a) + Total(b)
    decreases |a|
  {
    if a == [] {
      assert a + b == b;
    } else {
      assert (a + b)[2..] == a[2..] + b;
      TotalConcat(a[2..], b);
    }
  }

  lemma PartialTwice(s: Word, a: seq<Byte>, b: seq<Byte>)
    ensures Partial(Partial(s, a), b) == Fold(s + Total(a) + Total(b))
  {
    var first := Partial(s, a);
    PartialIsFold(s, a);
    PartialIsFold(first, b);
    FoldTwice(s + Total(a), Total(b));
  }

  lemma PartialOf(s: Word, buf: seq<Byte>, v: nat)
    requires v == s + Total(buf)
    ensures Partial(s, buf) == Fold(v)
  {
    PartialIsFold(s, buf);
  }

  /** Chunks of even length can be summed one after the other. */
  lemma PartialChains(s: Word, a: seq<Byte>, b: seq<Byte>)
    requires |a| % 2 == 0
    ensures Partial(Partial(s, a), b) == Partial(s, a + b)
  {
    var v, both := s + Total(a) + Total(b), a + b;
    assert Total(both) == Total(a) + Total(b) by {
      TotalConcat(a, b);
    }
    PartialTwice(s, a, b);
    PartialOf(s, both, v);
  }

  // ---------- byte order ----------

  function SwapBytes(w: Word): Word {
    256 * (w % 256) + w / 256
  }

  lemma {:induction false} OrdersDifferByMultiple(buf: seq<Byte>) returns (k: nat)
    ensures 256 * Total(buf) == NetworkTotal(buf) + 0xffff * k
    decreases |buf|
  {
    if |buf| < 2 {
      k := 0;
    } else {
      k := OrdersDifferByMultiple(buf[2..]);
      k := k + buf[1];
    }
  }

  lemma {:induction false} TotalZero(buf: seq<Byte>)
    ensures Total(buf) == 0 <==> NetworkTotal(buf) == 0
    decreases |buf|
  {
    if |buf| >= 2 {
      TotalZero(buf[2..]);
    }
  }

  lemma SwapIsFold(w: Word)
    ensures SwapBytes(w) == Fold(256 * w)
  {
    if w > 0 {
      var hi, lo := w / 256, w % 256;
      assert 256 * w == 256 * lo + hi + 0xffff * hi;
      FoldMultiple(256 * lo + hi, hi);
    }
  }

  lemma {:induction false} FoldScaled(v: nat)
    ensures Fold(256 * Fold(v)) == Fold(256 * v)
    decreases v
  {
    if v > 0xffff {
      FoldScaled(v - 0xffff);
      FoldMultiple(256 * (v - 0xffff), 256);
    }
  }

  /**
   Summing words low byte first gives, bytes exchanged, the sum in network byte order: stored as it is computed, the
   checksum is already in network byte order.
   */
  lemma SumIsInNetworkOrder(buf: seq<Byte>)
    ensures SwapBytes(Partial(0, buf)) == Fold(NetworkTotal(buf))
  {
    PartialIsFold(0, buf);
    SwapIsFold(Partial(0, buf));
    FoldScaled(Total(buf));
    TotalZero(buf);
    var k := OrdersDifferByMultiple(buf);
    if NetworkTotal(buf) > 0 {
      FoldMultiple(NetworkTotal(buf), k);
    }
  }

  // ---------- segments ----------

  const TCP: Byte := 6

  function PseudoHeader(src: seq<Byte>, dest: seq<Byte>, len: seq<Byte>): seq<Byte> {
    src + dest + [0, TCP] + len
  }

  /** A TCP header: the sixteen bytes before the checksum, the checksum, and what follows. */
  datatype Header = Header(front: seq<Byte>, csum: Word, back: seq<Byte>)

  ghost predicate Framed(h: Header) {
    |h.front| == 16 && |h.back| % 2 == 0
  }

  function Bytes(h: Header): seq<Byte> {
    h.front + [h.csum % 256, h.csum / 256] + h.back
  }

  /** The checksum routine over pseudo-header, header and data, before its final complement. */
  function SegmentSum(from: seq<Byte>, to: seq<Byte>, len: seq<Byte>, h: Header, data: seq<Byte>): Word {
    Partial(Partial(Partial(0, PseudoHeader(from, to, len)), Bytes(h)), data)
  }

  /** Sending fills the checksum in. */
  function Stamp(here: seq<Byte>, there: seq<Byte>, len: seq<Byte>, h: Header, data: seq<Byte>): Header {
    h.(csum := Complement(SegmentSum(here, there, len, h.(csum := 0), data)))
  }

  /** Receiving checks it, unless it is zero; the receiver puts its own address first. */
  predicate Accepts(here: seq<Byte>, there: seq<Byte>, len: seq<Byte>, h: Header, data: seq<Byte>) {
    h.csum == 0 || Complement(SegmentSum(here, there, len, h, data)) == 0
  }

  /** The plain sum of everything but the checksum. */
  ghost function Rest(from: seq<Byte>, to: seq<Byte>, len: seq<Byte>, h: Header, data: seq<Byte>): nat {
    Total(from) + Total(to) + 256 * TCP + Total(len) + Total(h.front) + Total(h.back) + Total(data)
  }

  ghost predicate Addressed(src: seq<Byte>, dest: seq<Byte>, len: seq<Byte>) {
    |src| == 4 && |dest| == 4 && |len| == 2
  }

  lemma TotalOfTwo(a: Byte, b: Byte)
    ensures Total([a, b]) == Load(a, b)
  {
    assert [a, b][2..] == [];
  }

  lemma PseudoTotal(src: seq<Byte>, dest: seq<Byte>, len: seq<Byte>)
    requires Addressed(src, dest, len)
    ensures Total(PseudoHeader(src, dest, len)) == Total(src) + Total(dest) + 256 * TCP + Total(len)
  {
    TotalConcat(src, dest);
    TotalConcat(src + dest, [0, TCP]);
    TotalConcat(src + dest + [0, TCP], len);
    TotalOfTwo(0, TCP);
  }

  lemma BytesTotal(h: Header)
    requires Framed(h)
    ensures Total(Bytes(h)) == Total(h.front) + h.csum + Total(h.back)
  {
    var mid: seq<Byte> := [h.csum % 256, h.csum / 256];
    TotalConcat(h.front, mid);
    TotalConcat(h.front + mid, h.back);
    TotalOfTwo(h.csum % 256, h.csum / 256);
  }

  lemma SegmentSumIsFold(from: seq<Byte>, to: seq<Byte>, len: seq<Byte>, h: Header, data: seq<Byte>)
    requires Addressed(from, to, len) && Framed(h)
    ensures SegmentSum(from, to, len, h, data) == Fold(Rest(from, to, len, h, data) + h.csum)
  {
    var p, b := PseudoHeader(from, to, len), Bytes(h);
    PseudoTotal(from, to, len);
    BytesTotal(h);
    var both := Partial(Partial(0, p), b);
    PartialTwice(0, p, b);
    PartialIsFold(both, data);
    FoldTwice(Total(p) + Total(b), Total(data));
  }

  /** What one end stamps, the other end accepts. */
  lemma StampedIsAccepted(a: seq<Byte>, b: seq<Byte>, len: seq<Byte>, h: Header, data: seq<Byte>)
    requires Addressed(a, b, len) && Framed(h)
    ensures Accepts(b, a, len, Stamp(a, b, len, h, data), data)
  {
    var blank, sent := h.(csum := 0), Stamp(a, b, len, h, data);
    var r := Rest(a, b, len, h, data);
    SegmentSumIsFold(a, b, len, blank, data);
    SegmentSumIsFold(b, a, len, sent, data);
    FoldTwice(r, sent.csum);
  }

  /** Everything a checksum covers, in the order in which it is summed. */
  function Covered(src: seq<Byte>, dest: seq<Byte>, len: seq<Byte>, h: Header, data: seq<Byte>): seq<Byte> {
    src + dest + [0, 6] + len + (h.front + [0, 0] + h.back) + data
  }

  lemma TotalOfCovered(src: seq<Byte>, dest: seq<Byte>, len: seq<Byte>, h: Header, data: seq<Byte>)
    requires Addressed(src, dest, len) && Framed(h)
    ensures Total(Covered(src, dest, len, h, data)) == Rest(src, dest, len, h, data)
  {
    var a, b := PseudoHeader(src, dest, len), Bytes(h.(csum := 0));
    PseudoTotal(src, dest, len);
    BytesTotal(h.(csum := 0));
    TotalConcat(a, b);
    TotalConcat(a + b, data);
    assert Covered(src, dest, len, h, data) == a + b + data;
  }

  lemma SumOfCovered(src: seq<Byte>, dest: seq<Byte>, len: seq<Byte>, h: Header, data: seq<Byte>)
    requires Addressed(src, dest, len) && Framed(h)
    ensures SegmentSum(src, dest, len, h.(csum := 0), data) == Partial(0, Covered(src, dest, len, h, data))
  {
    TotalOfCovered(src, dest, len, h, data);
    SegmentSumIsFold(src, dest, len, h.(csum := 0), data);
    PartialOf(0, Covered(src, dest, len, h, data), Rest(src, dest, len, h, data));
  }

  lemma ComplementSwaps(w: Word)
    ensures SwapBytes(Complement(w)) == Complement(SwapBytes(w))
  {
    var hi, lo := w / 256, w % 256;
    assert Complement(w) == 256 * (255 - hi) + (255 - lo);
    HalvesOf(255 - hi, 255 - lo);
  }

  lemma HalvesOf(hi: Byte, lo: Byte)
    ensures (256 * hi + lo) / 256 == hi && (256 * hi + lo) % 256 == lo
  {
  }

  /**
   The checksum that is sent, read in network byte order, is the complement of the one's complement sum, in network byte
   order, of addresses, protocol, length, header and data: section 3.1 of RFC 793.
   */
  lemma StampIsRfc793(src: seq<Byte>, dest: seq<Byte>, len: seq<Byte>, h: Header, data: seq<Byte>)
    requires Addressed(src, dest, len) && Framed(h)
    ensures var sent := Stamp(src, dest, len, h, data);
            && sent.front == h.front && sent.back == h.back
            && SwapBytes(sent.csum) == 0xffff - Fold(NetworkTotal(Covered(src, dest, len, h, data)))
  {
    var covered := Covered(src, dest, len, h, data);
    SumOfCovered(src, dest, len, h, data);
    SumIsInNetworkOrder(covered);
    ComplementSwaps(Partial(0, covered));
  }

  /** A checked segment is accepted exactly when its whole sum is a multiple of 0xffff. */
  lemma AcceptedIsMultiple(here: seq<Byte>, there: seq<Byte>, len: seq<Byte>, h: Header, data: seq<Byte>)
    requires Addressed(here, there, len) && Framed(h) && h.csum != 0
    ensures Accepts(here, there, len, h, data) <==> (Rest(here, there, len, h, data) + h.csum) % 0xffff == 0
  {
    var v := Rest(here, there, len, h, data) + h.csum;
    SegmentSumIsFold(here, there, len, h, data);
    FoldIsRemainder(v);
    RemainderTop(v);
  }

  lemma RemainderTop(v: nat)
    requires v > 0
    ensures (v - 1) % 0xffff + 1 == 0xffff <==> v % 0xffff == 0
  {
  }

  /** Changing one word of a sum that is accepted is noticed, unless one form of zero is exchanged for the other. */
  lemma OneWordIsNoticed(rest: nat, w: Word, x: Word)
    requires rest > 0 && Fold(rest + w) == 0xffff
    ensures Fold(rest + x) == 0xffff <==> x == w || (w == 0 && x == 0xffff) || (w == 0xffff && x == 0)
  {
    FoldIsRemainder(rest + w);
    FoldIsRemainder(rest + x);
    RemainderTop(rest + w);
    RemainderTop(rest + x);
    RemaindersMeet(rest, w, x);
  }

  lemma RemaindersMeet(rest: nat, w: Word, x: Word)
    requires (rest + w) % 0xffff == 0
    ensures (rest + x) % 0xffff == 0 <==> x == w || (w == 0 && x == 0xffff) || (w == 0xffff && x == 0)
  {
    var q := (rest + w) / 0xffff;
    assert rest + w == 0xffff * q;
    assert rest + x == 0xffff * q + (x - w);
  }

  lemma TotalAround(front: seq<Byte>, a: Byte, b: Byte, back: seq<Byte>)
    requires |front| % 2 == 0
    ensures Total(front + [a, b] + back) == Total(front) + Load(a, b) + Total(back)
  {
    TotalConcat(front, [a, b]);
    TotalConcat(front + [a, b], back);
    TotalOfTwo(a, b);
  }

  /**
   A segment that would be accepted, damaged in one word of its data, is refused: the exceptions are a word of all ones
   that becomes zero and a zero word that becomes all ones.
   */
  lemma DamagedWordIsNoticed(here: seq<Byte>, there: seq<Byte>, len: seq<Byte>, h: Header,
                             front: seq<Byte>, a: Byte, b: Byte, c: Byte, d: Byte, back: seq<Byte>)
    requires Addressed(here, there, len) && Framed(h) && h.csum != 0 && |front| % 2 == 0
    requires Accepts(here, there, len, h, front + [a, b] + back)
    ensures Accepts(here, there, len, h, front + [c, d] + back) <==>
            var w, x := Load(a, b), Load(c, d);
            x == w || (w == 0 && x == 0xffff) || (w == 0xffff && x == 0)
  {
    var rest := Rest(here, there, len, h, []) + h.csum + Total(front) + Total(back);
    TotalAround(front, a, b, back);
    TotalAround(front, c, d, back);
    SegmentSumIsFold(here, there, len, h, front + [a, b] + back);
    SegmentSumIsFold(here, there, len, h, front + [c, d] + back);
    OneWordIsNoticed(rest, Load(a, b), Load(c, d));
  }

  /**
   What one end stamps and the line damages in one word of the data, the other end refuses, exactly unless the checksum
   happens to be zero, which the receiver takes for none, or one form of zero became the other.
   */
  lemma DamageInTransit(src: seq<Byte>, dest: seq<Byte>, len: seq<Byte>, h: Header,
                        front: seq<Byte>, a: Byte, b: Byte, c: Byte, d: Byte, back: seq<Byte>)
    requires Addressed(src, dest, len) && Framed(h) && |front| % 2 == 0
    ensures var sent := Stamp(src, dest, len, h, front + [a, b] + back);
            var w, x := Load(a, b), Load(c, d);
            Accepts(dest, src, len, sent, front + [c, d] + back) <==>
              sent.csum == 0 || x == w || (w == 0 && x == 0xffff) || (w == 0xffff && x == 0)
  {
    var sent := Stamp(src, dest, len, h, front + [a, b] + back);
    StampedIsAccepted(src, dest, len, h, front + [a, b] + back);
    if sent.csum != 0 {
      DamagedWordIsNoticed(dest, src, len, sent, front, a, b, c, d, back);
    }
  }

  /** It does happen: a header whose checksum comes out as zero, and data of one byte for another that is accepted. */
  lemma ZeroChecksumIsNone() returns (h: Header, addr: seq<Byte>, len: seq<Byte>)
    ensures Addressed(addr, addr, len) && Framed(h)
    ensures var sent := Stamp(addr, addr, len, h, [1, 0]);
            sent.csum == 0 && Accepts(addr, addr, len, sent, [2, 0])
  {
    addr, len := [0, 0, 0, 0], [0, 22];
    h := Header([0xfe, 0xe3, 0, 0, 0, 0, 0, 0, 0, 0, 0, 0, 0, 0, 0, 0], 0, [0, 0]);
    var blank := h.(csum := 0);
    ShortTotals(addr, len, h);
    SegmentSumIsFold(addr, addr, len, blank, [1, 0]);
    TotalOfTwo(1, 0);
  }

  lemma ShortTotals(addr: seq<Byte>, len: seq<Byte>, h: Header)
    requires addr == [0, 0, 0, 0] && len == [0, 22]
    requires h == Header([0xfe, 0xe3, 0, 0, 0, 0, 0, 0, 0, 0, 0, 0, 0, 0, 0, 0], 0, [0, 0])
    ensures Total(addr) == 0 && Total(len) == 256 * 22 && Total(h.front) == 0xe3fe && Total(h.back) == 0
  {
    TotalOfZeros(addr);
    TotalOfZeros(h.back);
    TotalOfTwo(0, 22);
    TotalOfZeros(h.front[2..]);
  }

  // ---------- the routines ----------

  /** The sum of the first `count` bytes of a buffer: a loop over words, then the odd byte. */
  method IpcsumPartial(partial: Word, buf: array<Byte>, count: nat) returns (csum: Word)
    requires count <= buf.Length
    ensures csum == Partial(partial, buf[..count]) == Fold(partial + Total(buf[..count]))
  {
    ghost var all := buf[..count];
    csum := partial;
    var words, i := count / 2, 0;
    assert all[0..] == all;
    while words != 0
      invariant 0 <= i && 0 <= words && i + 2 * words == count - count % 2
      invariant Partial(csum, all[i..]) == Partial(partial, all)
    {
      assert all[i..][2..] == all[i + 2..];
      csum := AddCarry(csum, Load(buf[i], buf[i + 1]));
      i := i + 2;
      words := words - 1;
    }
    if count % 2 == 1 {
      csum := AddCarry(csum, buf[i]);
    }
    PartialIsFold(partial, all);
  }

  /** The checksum over pseudo-header, header and data, as both ends compute it. */
  method SegmentChecksum(from: seq<Byte>, to: seq<Byte>, len: seq<Byte>, hdr: array<Byte>, data: array<Byte>,
      ghost h: Header)
    returns (csum: Word)
    requires hdr[..] == Bytes(h)
    ensures csum == Complement(SegmentSum(from, to, len, h, data[..]))
  {
    var ph := PseudoHeader(from, to, len);
    var buf := new Byte[|ph|](i requires 0 <= i < |ph| => ph[i]);
    assert buf[..buf.Length] == ph && hdr[..hdr.Length] == hdr[..] && data[..data.Length] == data[..];
    csum := IpcsumPartial(0, buf, buf.Length);
    csum := IpcsumPartial(csum, hdr, hdr.Length);
    csum := IpcsumPartial(csum, data, data.Length);
    csum := Complement(csum);
  }

  /** Fill in the checksum of the TCP header in `hdr`, before it is sent. */
  method CompleteHeader(here: seq<Byte>, there: seq<Byte>, len: seq<Byte>, hdr: array<Byte>, data: array<Byte>)
    requires hdr.Length >= 20 && hdr != data
    modifies hdr
    ensures hdr[..] == Bytes(Stamp(here, there, len, Header(old(hdr[..16]), 0, old(hdr[18..])), data[..]))
  {
    ghost var front, back := hdr[..16], hdr[18..];
    hdr[16], hdr[17] := 0, 0;
    assert hdr[..] == front + [0, 0] + back;
    var csum := SegmentChecksum(here, there, len, hdr, data, Header(front, 0, back));
    hdr[16], hdr[17] := csum % 256, csum / 256;
    assert hdr[..] == front + [csum % 256, csum / 256] + back;
  }

  /** The receiver's check of the segment in `hdr` and `data`. */
  method CheckSegment(here: seq<Byte>, there: seq<Byte>, len: seq<Byte>, hdr: array<Byte>, data: array<Byte>,
      ghost h: Header)
    returns (ok: bool)
    requires |h.front| == 16 && hdr[..] == Bytes(h)
    ensures ok <==> Accepts(here, there, len, h, data[..])
  {
    assert hdr[..][16] == h.csum % 256 && hdr[..][17] == h.csum / 256;
    if hdr[16] == 0 && hdr[17] == 0 {
      ok := true;
    } else {
      var csum := SegmentChecksum(here, there, len, hdr, data, h);
      ok := csum == 0;
    }
  }

  // ---------- the AVR routine ----------

  /** How many words the AVR loop adds up: a low counter byte that starts at zero is counted down from 256. */
  function AvrWords(words: nat): nat {
    if words > 0 && words % 256 == 0 then words + 256 else words
  }

  /** The bytes the AVR routine sums for a buffer of `count`. */
  function AvrCount(count: nat): nat {
    2 * AvrWords(count / 2) + count % 2
  }

  ghost predicate SameSumIn(mem: seq<Byte>, partial: Word, n: nat, count: nat) {
    |mem| >= n && |mem| >= count ==> Partial(partial, mem[..n]) == Partial(partial, mem[..count])
  }

  /** Summing the first n bytes of memory is always summing the first `count`. */
  ghost predicate SameSum(n: nat, count: nat) {
    forall mem: seq<Byte>, partial: Word :: SameSumIn(mem, partial, n, count)
  }

  ghost predicate AvrAgrees(count: nat) {
    SameSum(AvrCount(count), count)
  }

  lemma {:induction false} TotalOfZeros(buf: seq<Byte>)
    requires forall i | 0 <= i < |buf| :: buf[i] == 0
    ensures Total(buf) == 0
    decreases |buf|
  {
    if |buf| >= 2 {
      TotalOfZeros(buf[2..]);
    }
  }

  lemma {:induction false} TotalIsPositive(buf: seq<Byte>, k: nat)
    requires k < |buf| && buf[k] > 0
    ensures Total(buf) > 0
    decreases k
  {
    if k >= 2 {
      TotalIsPositive(buf[2..], k - 2);
    }
  }

  lemma SumIsZero(buf: seq<Byte>)
    requires forall i | 0 <= i < |buf| :: buf[i] == 0
    ensures Partial(0, buf) == 0
  {
    TotalOfZeros(buf);
    PartialIsFold(0, buf);
  }

  lemma SumIsPositive(buf: seq<Byte>, k: nat)
    requires k < |buf| && buf[k] > 0
    ensures Partial(0, buf) > 0
  {
    TotalIsPositive(buf, k);
    PartialIsFold(0, buf);
    FoldIsRemainder(Total(buf));
  }

  lemma OneBehind(n: nat, count: nat) returns (mem: seq<Byte>)
    requires n > count
    ensures !SameSumIn(mem, 0, n, count)
  {
    mem := seq(n, i => if i == count then 1 else 0);
    var buf, read := mem[..count], mem[..n];
    SumIsZero(buf);
    SumIsPositive(read, count);
  }

  lemma LongerSumDiffers(n: nat, count: nat)
    requires n > count
    ensures !SameSum(n, count)
  {
    var mem := OneBehind(n, count);
  }

  lemma AvrCountIs(count: nat)
    ensures AvrCount(count) == if count / 2 > 0 && (count / 2) % 256 == 0 then count + 512 else count
  {
  }

  /**
   The AVR routine computes the sum of its buffer, whatever lies behind it in memory, exactly when the number of words
   is zero or not a multiple of 256.
   */
  lemma AvrAgreesExactly(count: nat)
    ensures AvrAgrees(count) <==> count / 2 == 0 || (count / 2) % 256 != 0
  {
    AvrCountIs(count);
    if AvrCount(count) > count {
      LongerSumDiffers(AvrCount(count), count);
    }
  }

  /** A buffer of 512 bytes: what the AVR routine returns depends on the bytes behind it. */
  lemma AvrSumsTooFar()
    ensures !AvrAgrees(512)
  {
    AvrAgreesExactly(512);
  }

  /** The words still to be added with the counter bytes at `lo` and `hi`. */
  function AvrLeft(lo: Byte, hi: Byte): nat {
    (if lo == 0 then 256 else lo) + 256 * hi
  }

  method AvrIpcsumPartial(partial: Word, mem: array<Byte>, count: Word) returns (csum: Word)
    requires AvrCount(count) <= mem.Length
    ensures csum == Partial(partial, mem[..AvrCount(count)])
  {
    var words := count / 2;
    ghost var n := AvrCount(count);
    ghost var all := mem[..n];
    var i := 0;
    csum := partial;
    assert all[0..] == all;
    if words != 0 {
      var lo: Byte, hi: Byte := words % 256, words / 256;
      var more := true;
      while more
        invariant 0 <= i <= n && 2 * (if more then AvrLeft(lo, hi) else 0) + i == n - count % 2
        invariant Partial(csum, all[i..]) == Partial(partial, all)
        decreases n - i, more
      {
        assert all[i..][2..] == all[i + 2..];
        csum := AddCarry(csum, Load(mem[i], mem[i + 1]));
        i := i + 2;
        lo := if lo == 0 then 255 else lo - 1;
        if lo == 0 {
          if hi == 0 {
            more := false;
          } else {
            hi := hi - 1;
          }
        }
      }
    }
    if count % 2 == 1 {
      csum := AddCarry(csum, mem[i]);
    }
  }
}
