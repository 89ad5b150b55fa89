/**
 The asynchronous control character map in the negotiation: which maps are acknowledged, bit by bit, and which one is in
 force after any number of requests.  Section 7.1 of RFC 1662.
 */
module LcpAccm {
  import opened Bits
  import opened LcpOptions

  // ---------- the bits of four bytes ----------

  function Power(w: nat): (p: nat)
    ensures p >= 1
  {
    if w == 0 then 1 else 2 * Power(w - 1)
  }

  lemma HalveSum(hi: nat, lo: nat, p: nat)
    ensures (hi * (2 * p) + lo) / 2 == hi * p + lo / 2 && (hi * (2 * p) + lo) % 2 == lo % 2
  {
    assert hi * (2 * p) == 2 * (hi * p);
  }

  /** The bits of a number are those of its low part, and above them those of its high part. */
  lemma {:induction false} BitsJoin(hi: nat, lo: nat, w: nat, i: nat)
    requires lo < Power(w)
    ensures Bit(hi * Power(w) + lo, i) <==> if i < w then Bit(lo, i) else Bit(hi, i - w)
  {
    if w > 0 {
      HalveSum(hi, lo, Power(w - 1));
      if i > 0 {
        BitsJoin(hi, lo / 2, w - 1, i - 1);
      }
    }
  }

  function Be32(b: seq<Byte>): nat
    requires |b| == 4
  {
    (((b[0] as nat) * 256 + (b[1] as nat)) * 256 + (b[2] as nat)) * 256 + (b[3] as nat)
  }

  lemma ByteJoins(hi: nat, lo: Byte, i: nat)
    ensures Bit(hi * 256 + lo, i) <==> if i < 8 then Bit(lo, i) else Bit(hi, i - 8)
  {
    assert Power(8) == 256;
    BitsJoin(hi, lo, 8, i);
  }

  /** Bit i of four bytes is bit i % 8 of one of them, the first byte being the highest. */
  lemma BitOfBytes(b: seq<Byte>, i: nat)
    requires |b| == 4 && i < 32
    ensures Bit(Be32(b), i) <==> Bit(b[3 - i / 8], i % 8)
  {
    var two := (b[0] as nat) * 256 + b[1];
    ByteJoins(two * 256 + b[2], b[3], i);
    if i >= 8 {
      ByteJoins(two, b[2], i - 8);
    }
    if i >= 16 {
      ByteJoins(b[0], b[1], i - 16);
    }
  }

  // ---------- which maps are acknowledged ----------

  /** The bits that have to be set, as the code writes them. */
  const NEEDED: nat := 0xff0f0f0f

  /** Every bit that has to be set is. */
  ghost predicate HasNeeded(accm: seq<Byte>) {
    |accm| == 4 && forall i: nat | i < 32 && Bit(NEEDED, i) :: Bit(Be32(accm), i)
  }

  lemma NeededBits(i: nat)
    requires i < 32
    ensures Bit(NEEDED, i) <==> i / 8 == 3 || i % 8 < 4
  {
    var b: seq<Byte> := [0xff, 0x0f, 0x0f, 0x0f];
    assert Be32(b) == NEEDED;
    BitOfBytes(b, i);
    FullBits(i % 8);
    HalfBits(i % 8);
  }

  lemma FullBits(i: nat)
    requires i < 8
    ensures Bit(0xff, i)
  {
    LowOnes(0xff, 8);
  }

  lemma HalfBits(i: nat)
    requires i < 8
    ensures Bit(0x0f, i) <==> i < 4
  {
    assert Power(4) == 16;
    LowOnes(0x0f, 4);
    BitsJoin(0, 0x0f, 4, i);
    if i >= 4 {
      ZeroBits(i - 4);
    }
  }

  lemma {:induction false} ZeroBits(i: nat)
    ensures !Bit(0, i)
  {
    if i > 0 {
      ZeroBits(i - 1);
    }
  }

  /** The w lowest bits are all set. */
  predicate Ones(n: nat, w: nat) {
    w == 0 || (n % 2 == 1 && Ones(n / 2, w - 1))
  }

  lemma {:induction false} OnesHaveBit(n: nat, w: nat, r: nat)
    requires Ones(n, w) && r < w
    ensures Bit(n, r)
  {
    if r > 0 {
      OnesHaveBit(n / 2, w - 1, r - 1);
    }
  }

  ghost predicate AllSet(n: nat, w: nat) {
    forall r: nat | r < w :: Bit(n, r)
  }

  lemma {:induction false} BitsMakeOnes(n: nat, w: nat)
    requires AllSet(n, w)
    ensures Ones(n, w)
  {
    if w > 0 {
      assert Bit(n, 0);
      forall r: nat | r < w - 1 ensures Bit(n / 2, r) {
        assert Bit(n, r + 1);
      }
      BitsMakeOnes(n / 2, w - 1);
    }
  }

  lemma LowOnes(n: nat, w: nat)
    ensures Ones(n, w) <==> AllSet(n, w)
  {
    if Ones(n, w) {
      forall r: nat | r < w ensures Bit(n, r) {
        OnesHaveBit(n, w, r);
      }
    } else if AllSet(n, w) {
      BitsMakeOnes(n, w);
    }
  }

  lemma OnesOfPair(n: nat)
    ensures Ones(n, 2) <==> n % 4 == 3
  {
    assert Ones(n / 2, 1) <==> n / 2 % 2 == 1;
  }

  lemma OnesOfNibble(n: nat)
    ensures Ones(n, 4) <==> n % 16 == 15
  {
    var h := n / 4;
    OnesSplit(n, 2, 2);
    assert Halved(n / 2, 1) == n / 2 / 2;
    assert Halved(n, 2) == Halved(n / 2, 1);
    OnesOfPair(n);
    OnesOfPair(h);
    PairsMakeNibble(n, h);
  }

  lemma PairsMakeNibble(n: nat, h: nat)
    requires h == n / 4
    ensures n % 16 == 15 <==> n % 4 == 3 && h % 4 == 3
  {
  }

  function Halved(n: nat, k: nat): nat {
    if k == 0 then n else Halved(n / 2, k - 1)
  }

  lemma {:induction false} OnesSplit(n: nat, k: nat, w: nat)
    ensures Ones(n, k + w) <==> Ones(n, k) && Ones(Halved(n, k), w)
  {
    if k > 0 {
      OnesSplit(n / 2, k - 1, w);
    }
  }

  lemma HalvedFour(n: nat)
    ensures Halved(n, 4) == n / 16
  {
    var a := n / 2;
    var b := a / 2;
    var c := b / 2;
    assert Halved(c, 1) == c / 2;
    assert Halved(b, 2) == Halved(c, 1);
    assert Halved(a, 3) == Halved(b, 2);
  }

  lemma OnesOfByte(b: Byte)
    ensures Ones(b, 8) <==> b == 0xff
  {
    var h := b / 16;
    OnesSplit(b, 4, 4);
    HalvedFour(b);
    OnesOfNibble(b);
    OnesOfNibble(h);
  }

  lemma AllBits(b: Byte)
    ensures b == 0xff <==> AllSet(b, 8)
  {
    OnesOfByte(b);
    LowOnes(b, 8);
  }

  lemma LowBits(b: Byte)
    ensures Low4(b) <==> AllSet(b, 4)
  {
    OnesOfNibble(b);
    LowOnes(b, 4);
  }

  /** What has to be set, byte by byte. */
  ghost predicate HasNeededBytes(b: seq<Byte>)
    requires |b| == 4
  {
    AllSet(b[0], 8) && AllSet(b[1], 4) && AllSet(b[2], 4) && AllSet(b[3], 4)
  }

  lemma NeededAt(b: seq<Byte>, i: nat)
    requires |b| == 4 && i < 32 && (i / 8 == 3 || i % 8 < 4) && HasNeeded(b)
    ensures Bit(b[3 - i / 8], i % 8)
  {
    NeededBits(i);
    assert Bit(NEEDED, i);
    BitOfBytes(b, i);
  }

  lemma NeededByBytes(b: seq<Byte>)
    requires |b| == 4
    ensures HasNeeded(b) <==> HasNeededBytes(b)
  {
    if HasNeeded(b) {
      forall r: nat | r < 8 ensures Bit(b[0], r) { NeededAt(b, 24 + r); }
      forall r: nat | r < 4 ensures Bit(b[1], r) { NeededAt(b, 16 + r); }
      forall r: nat | r < 4 ensures Bit(b[2], r) { NeededAt(b, 8 + r); }
      forall r: nat | r < 4 ensures Bit(b[3], r) { NeededAt(b, r); }
    } else if HasNeededBytes(b) {
      forall i: nat | i < 32 && Bit(NEEDED, i) ensures Bit(Be32(b), i) {
        NeededBits(i);
        BitOfBytes(b, i);
        assert Bit(b[3 - i / 8], i % 8);
      }
    }
  }

  lemma CoversByBytes(b: seq<Byte>)
    requires |b| == 4
    ensures Covers(b) <==> HasNeededBytes(b)
  {
    AllBits(b[0]);
    LowBits(b[1]);
    LowBits(b[2]);
    LowBits(b[3]);
  }

  /** A control character map is agreeable exactly when every bit of 0xff0f0f0f is set in it. */
  lemma AccmAgreeableExactly(body: seq<Byte>)
    ensures AccmAgreeable(body) <==> HasNeeded(body)
  {
    if |body| == 4 {
      CoversByBytes(body);
      NeededByBytes(body);
    }
  }

  /** What a map without one of those bits, in an option of the right length, is answered with. */
  lemma AccmProposal(s: Settings, body: seq<Byte>, beyond: seq<Byte>)
    requires Usable(s, beyond) && |body| == 4 && !HasNeeded(body)
    ensures var j := Judge(s, Good(ACCM, body), beyond); j.usage.Nak? && j.bytes == [2, 6, 0xff, 0x0f, 0x0f, 0x0f]
  {
    AccmAgreeableExactly(body);
    assert Proposal(s, ACCM, beyond)[..4] == ACCM_PROPOSAL;
  }

  // ---------- which map is in force ----------

  predicate AsksAccm(o: Opt) {
    o.Good? && o.kind == 2 && AccmAgreeable(o.body)
  }

  /** Option k is the last that asks for an agreeable map. */
  ghost predicate LastAccm(opts: seq<Opt>, k: nat) {
    k < |opts| && AsksAccm(opts[k]) && forall i | k < i < |opts| :: !AsksAccm(opts[i])
  }

  lemma {:induction false} AccmIsKept(s: Settings, opts: seq<Opt>)
    requires forall i | 0 <= i < |opts| :: !AsksAccm(opts[i])
    ensures SettleAll(s, opts).accm == s.accm
    decreases |opts|
  {
    if opts != [] {
      AccmIsKept(Settle(s, opts[0]), opts[1..]);
    }
  }

  lemma {:induction false} AccmIsLast(s: Settings, opts: seq<Opt>, k: nat)
    requires LastAccm(opts, k)
    ensures SettleAll(s, opts).accm == opts[k].body
    decreases k
  {
    var t := Settle(s, opts[0]);
    if k == 0 {
      AccmIsKept(t, opts[1..]);
    } else {
      AccmIsLast(t, opts[1..], k - 1);
    }
  }

  /** After a request the map is the last agreeable one it asked for, or the old one if it asked for none. */
  lemma AccmInForce(s: Settings, opts: seq<Opt>)
    ensures forall k: nat | LastAccm(opts, k) :: HasNeeded(opts[k].body) && SettleAll(s, opts).accm == opts[k].body
    ensures (forall i | 0 <= i < |opts| && opts[i].Good? && opts[i].kind == 2 :: !HasNeeded(opts[i].body)) ==>
              SettleAll(s, opts).accm == s.accm
  {
    forall k: nat | LastAccm(opts, k) ensures HasNeeded(opts[k].body) && SettleAll(s, opts).accm == opts[k].body {
      AccmIsLast(s, opts, k);
      AccmAgreeableExactly(opts[k].body);
    }
    if forall i | 0 <= i < |opts| && opts[i].Good? && opts[i].kind == 2 :: !HasNeeded(opts[i].body) {
      forall i | 0 <= i < |opts| ensures !AsksAccm(opts[i]) {
        if opts[i].Good? {
          AccmAgreeableExactly(opts[i].body);
        }
      }
      AccmIsKept(s, opts);
    }
  }

  /** The settings after any number of requests. */
  ghost function Negotiated(s: Settings, requests: seq<seq<Byte>>): Settings
    decreases |requests|
  {
    if requests == [] then s else Negotiated(SettleAll(s, Options(requests[0])), requests[1..])
  }

  lemma {:induction false} SettleKeepsNeeded(s: Settings, opts: seq<Opt>)
    requires HasNeeded(s.accm)
    ensures HasNeeded(SettleAll(s, opts).accm)
    decreases |opts|
  {
    if opts != [] {
      if opts[0].Good? {
        AccmAgreeableExactly(opts[0].body);
      }
      SettleKeepsNeeded(Settle(s, opts[0]), opts[1..]);
    }
  }

  /** Whatever a peer asks for and however often, the bits that have to be set stay set. */
  lemma {:induction false} NegotiationKeepsNeeded(s: Settings, requests: seq<seq<Byte>>)
    requires HasNeeded(s.accm)
    ensures HasNeeded(Negotiated(s, requests).accm)
    decreases |requests|
  {
    if requests != [] {
      SettleKeepsNeeded(s, Options(requests[0]));
      NegotiationKeepsNeeded(SettleAll(s, Options(requests[0])), requests[1..]);
    }
  }

  lemma DefaultIsNeeded()
    ensures HasNeeded([0xff, 0xff, 0xff, 0xff])
  {
    AccmAgreeableExactly([0xff, 0xff, 0xff, 0xff]);
  }

  /** A negotiator with its default values, before any request. */
  method Start() returns (n: Negotiator)
    ensures fresh(n) && HasNeeded(n.View().accm)
  {
    n := new Negotiator();
    DefaultIsNeeded();
  }

  /** One request, in place. */
  method Ask(n: Negotiator, buf: seq<Byte>, id: Byte, beyond: seq<Byte>)
    requires n.send.Length == 1500 && |buf| + 4 <= 1500 && Usable(n.View(), beyond) && HasNeeded(n.View().accm)
    modifies n, n.send
    ensures n.View() == Negotiated(old(n.View()), [buf]) && HasNeeded(n.View().accm)
  {
    ghost var s := n.View();
    NegotiationKeepsNeeded(s, [buf]);
    assert [buf][1..] == [];
    assert Negotiated(SettleAll(s, Options(buf)), []) == SettleAll(s, Options(buf));
    n.CheckRequest(buf, id, beyond);
  }
}
