/**
 The routing list: hosts first, then networks by falling netmask, so that the first match is the best one.
 */
module Routing {
  import opened Bits
  import opened Collections

  type Word = x: int | 0 <= x < 0x1_0000_0000

  /** Bitwise and. */
  function And(x: nat, y: nat): nat {
    if x == 0 || y == 0 then 0 else 2 * And(x / 2, y / 2) + (if x % 2 == 1 && y % 2 == 1 then 1 else 0)
  }

  datatype Route =
    | Host(addr: Word, gateway: nat)
    | Network(addr: Word, mask: Word, gateway: nat)

  predicate Matches(r: Route, ip: Word) {
    match r
    case Host(addr, _) => ip == addr
    case Network(addr, mask, _) => And(ip, mask) == addr
  }

  predicate Ahead(a: Route, b: Route) {
    a.Network? ==> b.Network? && a.mask >= b.mask
  }

  /** Hosts come first and netmasks never rise. */
  ghost predicate Layered(list: seq<Route>) {
    forall i, j | 0 <= i < j < |list| :: Ahead(list[i], list[j])
  }

  // ---------- adding ----------

  /** The entries a new route is placed behind. */
  predicate Skips(there: Route, r: Route) {
    r.Network? && (there.Host? || there.mask > r.mask)
  }

  function Slot(list: seq<Route>, r: Route): (i: nat)
    ensures i <= |list|
    ensures forall j | 0 <= j < i :: Skips(list[j], r)
    ensures i < |list| ==> !Skips(list[i], r)
  {
    if list == [] || !Skips(list[0], r) then 0 else 1 + Slot(list[1..], r)
  }

  function Insert(list: seq<Route>, r: Route): seq<Route> {
    var i := Slot(list, r);
    list[..i] + [r] + list[i..]
  }

  lemma InsertKeepsLayers(list: seq<Route>, r: Route)
    requires Layered(list)
    ensures Layered(Insert(list, r))
  {
    var i := Slot(list, r);
    var t := Insert(list, r);
    forall a, b | 0 <= a < b < |t| ensures Ahead(t[a], t[b]) {
      if b == i {
        assert t[a] == list[a];
      } else if a == i {
        assert t[b] == list[b - 1] && (b - 1 == i || Ahead(list[i], list[b - 1]));
      } else {
        assert t[a] == list[if a < i then a else a - 1] && t[b] == list[if b < i then b else b - 1];
      }
    }
  }

  // ---------- finding ----------

  function Find(list: seq<Route>, ip: Word): Option<Route> {
    if list == [] then None else if Matches(list[0], ip) then Some(list[0]) else Find(list[1..], ip)
  }

  /** A new route is found instead of an old one unless the old one is placed before it. */
  predicate Replaces(r: Route, was: Option<Route>) {
    was.None? || !Skips(was.value, r)
  }

  lemma {:induction false} FindConcat(a: seq<Route>, b: seq<Route>, ip: Word)
    ensures Find(a + b, ip) == if Find(a, ip).Some? then Find(a, ip) else Find(b, ip)
    decreases |a|
  {
    if a == [] {
      assert a + b == b;
    } else {
      assert (a + b)[0] == a[0] && (a + b)[1..] == a[1..] + b;
      FindConcat(a[1..], b, ip);
    }
  }

  lemma {:induction false} FoundIsMember(list: seq<Route>, ip: Word)
    ensures Find(list, ip).Some? ==>
              exists i | 0 <= i < |list| :: list[i] == Find(list, ip).value && Matches(list[i], ip)
    ensures Find(list, ip).None? ==> forall i | 0 <= i < |list| :: !Matches(list[i], ip)
    decreases |list|
  {
    if list != [] && !Matches(list[0], ip) {
      FoundIsMember(list[1..], ip);
      if Find(list, ip).Some? {
        var i :| 0 <= i < |list| - 1 && list[1..][i] == Find(list, ip).value && Matches(list[1..][i], ip);
        assert list[i + 1] == list[1..][i];
      } else {
        forall i | 0 <= i < |list| ensures !Matches(list[i], ip) {
          assert i > 0 ==> list[i] == list[1..][i - 1];
        }
      }
    }
  }

  lemma SlotSplits(list: seq<Route>, r: Route, j: nat)
    requires Layered(list) && j < |list|
    ensures Skips(list[j], r) <==> j < Slot(list, r)
  {
    var i := Slot(list, r);
    if i < j {
      assert Ahead(list[i], list[j]);
    }
  }

  lemma FindAfterInsert(list: seq<Route>, r: Route, ip: Word)
    requires Layered(list)
    ensures Find(Insert(list, r), ip) ==
            if Matches(r, ip) && Replaces(r, Find(list, ip)) then Some(r) else Find(list, ip)
  {
    var i := Slot(list, r);
    var before, after := list[..i], list[i..];
    assert list == before + after;
    assert Insert(list, r) == before + ([r] + after);
    FindConcat(before, after, ip);
    FindConcat(before, [r] + after, ip);
    FindConcat([r], after, ip);
    FoundIsMember(before, ip);
    FoundIsMember(after, ip);
    if Find(before, ip).Some? {
      var j :| 0 <= j < i && before[j] == Find(before, ip).value;
      assert Skips(list[j], r);
    } else if Find(after, ip).Some? {
      var j :| 0 <= j < |after| && after[j] == Find(after, ip).value;
      SlotSplits(list, r, i + j);
      assert after[j] == list[i + j];
    }
  }

  // ---------- what the first match is ----------

  /** The list after adding routes in order. */
  function Table(added: seq<Route>): seq<Route> {
    if added == [] then [] else Insert(Table(added[..|added| - 1]), added[|added| - 1])
  }

  /**
   Of two matching routes, the k-th added is to be used rather than the j-th: hosts, then netmasks, then the newest.
   */
  predicate Preferred(added: seq<Route>, k: nat, j: nat)
    requires k < |added| && j < |added|
  {
    var a, b := added[k], added[j];
    if a.Host? then b.Network? || k > j
    else b.Network? && (a.mask > b.mask || (a.mask == b.mask && k > j))
  }

  ghost predicate IsBest(added: seq<Route>, k: nat, ip: Word) {
    && k < |added| && Matches(added[k], ip)
    && forall j: nat | j < |added| && j != k && Matches(added[j], ip) :: Preferred(added, k, j)
  }

  lemma {:induction false} TableIsLayered(added: seq<Route>)
    ensures Layered(Table(added))
  {
    if added != [] {
      TableIsLayered(added[..|added| - 1]);
      InsertKeepsLayers(Table(added[..|added| - 1]), added[|added| - 1]);
    }
  }

  ghost predicate NoneMatch(added: seq<Route>, ip: Word) {
    forall j | 0 <= j < |added| :: !Matches(added[j], ip)
  }

  lemma BestStays(added: seq<Route>, r: Route, k: nat, ip: Word)
    requires IsBest(added, k, ip) && !(Matches(r, ip) && !Skips(added[k], r))
    ensures IsBest(added + [r], k, ip)
  {
    var all := added + [r];
    forall j: nat | j < |all| && j != k && Matches(all[j], ip) ensures Preferred(all, k, j) {
      assert j < |added| ==> Preferred(added, k, j);
    }
  }

  lemma BestIsNew(added: seq<Route>, r: Route, k: nat, ip: Word)
    requires IsBest(added, k, ip) && Matches(r, ip) && !Skips(added[k], r)
    ensures IsBest(added + [r], |added|, ip)
  {
    var all, n := added + [r], |added|;
    forall j: nat | j < |all| && j != n && Matches(all[j], ip) ensures Preferred(all, n, j) {
      assert j == k || Preferred(added, k, j);
    }
  }

  /** The route found is the best of all routes added, and there is none exactly when nothing matches. */
  lemma {:induction false} FirstMatchIsBest(added: seq<Route>, ip: Word) returns (k: nat)
    ensures Find(Table(added), ip).None? <==> NoneMatch(added, ip)
    ensures Find(Table(added), ip).Some? ==> IsBest(added, k, ip) && Find(Table(added), ip).value == added[k]
    decreases |added|
  {
    if added == [] {
      k := 0;
    } else {
      var n := |added| - 1;
      var pre, r := added[..n], added[n];
      assert added == pre + [r];
      TableIsLayered(pre);
      FindAfterInsert(Table(pre), r, ip);
      k := FirstMatchIsBest(pre, ip);
      if Find(Table(pre), ip).Some? {
        if Matches(r, ip) && !Skips(pre[k], r) {
          BestIsNew(pre, r, k, ip);
          k := n;
        } else {
          BestStays(pre, r, k, ip);
        }
      } else if Matches(r, ip) {
        k := n;
      }
    }
  }

  lemma PreferredOneWay(added: seq<Route>, k: nat, j: nat)
    requires k < |added| && j < |added|
    ensures k == j || !Preferred(added, k, j) || !Preferred(added, j, k)
  {
  }

  lemma BestIsUnique(added: seq<Route>, k: nat, j: nat, ip: Word)
    requires IsBest(added, k, ip) && IsBest(added, j, ip)
    ensures k == j
  {
    PreferredOneWay(added, k, j);
  }

  /** The other way round: whichever route is the best is the one found. */
  lemma BestIsFound(added: seq<Route>, k: nat, ip: Word)
    requires IsBest(added, k, ip)
    ensures Find(Table(added), ip) == Some(added[k])
  {
    var j := FirstMatchIsBest(added, ip);
    assert !NoneMatch(added, ip);
    BestIsUnique(added, k, j, ip);
  }

  // ---------- netmasks that are prefixes ----------

  /** The greatest number of `width` bits. */
  function Full(width: nat): nat {
    if width == 0 then 0 else 2 * Full(width - 1) + 1
  }

  /** Ones followed by zeros, `width` bits in all. */
  predicate IsPrefix(mask: nat, width: nat) {
    mask == Full(width) || (width > 0 && mask % 2 == 0 && IsPrefix(mask / 2, width - 1))
  }

  lemma {:induction false} PrefixFits(mask: nat, width: nat)
    requires IsPrefix(mask, width)
    ensures mask <= Full(width)
  {
    if mask != Full(width) {
      PrefixFits(mask / 2, width - 1);
    }
  }

  lemma {:induction false} AndFull(n: nat, width: nat)
    requires n <= Full(width)
    ensures And(Full(width), n) == n
  {
    if n > 0 {
      assert Full(width) / 2 == Full(width - 1) && Full(width) % 2 == 1;
      AndFull(n / 2, width - 1);
    }
  }

  lemma {:induction false} PrefixesNest(m: nat, n: nat, width: nat)
    requires IsPrefix(m, width) && IsPrefix(n, width) && m >= n
    ensures And(m, n) == n
  {
    PrefixFits(m, width);
    PrefixFits(n, width);
    if m == Full(width) {
      AndFull(n, width);
    } else if n > 0 {
      PrefixesNest(m / 2, n / 2, width - 1);
    }
  }

  lemma AndHalves(x: nat, y: nat)
    ensures And(x, y) / 2 == And(x / 2, y / 2)
    ensures And(x, y) % 2 == (if x % 2 == 1 && y % 2 == 1 then 1 else 0)
  {
  }

  lemma {:induction false} MaskTwice(x: nat, m: nat, n: nat)
    requires And(m, n) == n
    ensures And(And(x, m), n) == And(x, n)
  {
    if x != 0 && m != 0 && n != 0 {
      AndHalves(m, n);
      AndHalves(x, m);
      AndHalves(x, n);
      AndHalves(And(x, m), n);
      MaskTwice(x / 2, m / 2, n / 2);
    }
  }

  // ---------- which addresses a route matches ----------

  lemma {:induction false} AndBits(x: nat, y: nat, i: nat)
    ensures Bit(And(x, y), i) <==> Bit(x, i) && Bit(y, i)
  {
    AndHalves(x, y);
    if i > 0 {
      AndBits(x / 2, y / 2, i - 1);
    }
  }

  /** Every bit of `n` is the bit of `ip` there, if the mask has one, and otherwise zero. */
  ghost predicate BitsUnder(n: nat, ip: nat, mask: nat) {
    forall i: nat :: Bit(n, i) <==> Bit(ip, i) && Bit(mask, i)
  }

  lemma AndIsBitsUnder(n: nat, ip: nat, mask: nat)
    ensures n == And(ip, mask) <==> BitsUnder(n, ip, mask)
  {
    forall i: nat ensures Bit(And(ip, mask), i) <==> Bit(ip, i) && Bit(mask, i) {
      AndBits(ip, mask, i);
    }
    if BitsUnder(n, ip, mask) {
      assert SameBits(n, And(ip, mask));
      BitsDetermine(n, And(ip, mask));
    }
  }

  /** A host route matches its own address; a network route those that agree with it bit by bit under its mask. */
  lemma MatchesExactly(r: Route, ip: Word)
    ensures Matches(r, ip) <==> if r.Host? then r.addr == ip else BitsUnder(r.addr, ip, r.mask)
  {
    if r.Network? {
      AndIsBitsUnder(r.addr, ip, r.mask);
    }
  }

  /** A network route matches any address at all exactly when its own has no bit outside its mask. */
  lemma MatchesSomethingExactly(r: Route)
    requires r.Network?
    ensures (exists ip: Word :: Matches(r, ip)) <==> Matches(r, r.addr)
  {
    if ip: Word :| Matches(r, ip) {
      MatchesExactly(r, ip);
      MatchesExactly(r, r.addr);
    }
  }

  // ---------- when the route found is the most specific ----------

  /** Every address that `r` matches is one that `other` matches. */
  ghost predicate Covered(r: Route, other: Route) {
    forall x: Word :: Matches(r, x) ==> Matches(other, x)
  }

  /** `x` with the lowest bit changed that is in `n` but not in `m`. */
  function Flip(x: nat, m: nat, n: nat): nat
    decreases n
  {
    if n == 0 then x
    else if n % 2 == 1 && m % 2 == 0 then (if x % 2 == 0 then x + 1 else x - 1)
    else 2 * Flip(x / 2, m / 2, n / 2) + x % 2
  }

  lemma FlipHalves(x: nat, m: nat, n: nat)
    requires n != 0
    ensures var y := Flip(x, m, n);
            if n % 2 == 1 && m % 2 == 0 then y / 2 == x / 2 && y % 2 != x % 2
            else y / 2 == Flip(x / 2, m / 2, n / 2) && y % 2 == x % 2
  {
  }

  lemma HalfFits(y: nat, half: nat)
    ensures y / 2 <= half <==> y <= 2 * half + 1
  {
  }

  lemma {:induction false} FlipFits(x: nat, m: nat, n: nat, width: nat)
    requires x <= Full(width) && n <= Full(width)
    ensures Flip(x, m, n) <= Full(width)
    decreases n
  {
    if n != 0 {
      var half := Full(width - 1);
      FlipHalves(x, m, n);
      HalfFits(x, half);
      HalfFits(n, half);
      HalfFits(Flip(x, m, n), half);
      if !(n % 2 == 1 && m % 2 == 0) {
        FlipFits(x / 2, m / 2, n / 2, width - 1);
      }
    }
  }

  /** A mask that lacks a bit of another lets an address change there unseen. */
  lemma {:induction false} FlipDiffers(x: nat, m: nat, n: nat)
    requires And(m, n) != n
    ensures And(Flip(x, m, n), m) == And(x, m) && And(Flip(x, m, n), n) != And(x, n)
    decreases n
  {
    var y := Flip(x, m, n);
    FlipHalves(x, m, n);
    AndHalves(m, n);
    AndHalves(y, m);
    AndHalves(y, n);
    AndHalves(x, m);
    AndHalves(x, n);
    if !(n % 2 == 1 && m % 2 == 0) {
      FlipDiffers(x / 2, m / 2, n / 2);
    }
  }

  lemma FullWord()
    ensures Full(32) == 0xffff_ffff
  {
    assert Full(8) == 0xff;
    assert Full(16) == 0xffff;
    assert Full(24) == 0xff_ffff;
  }

  /**
   Of two networks that match one address, the first lies within the second exactly when its mask has all its bits.
   */
  lemma CoveredExactly(r: Route, other: Route, ip: Word)
    requires r.Network? && other.Network? && Matches(r, ip) && Matches(other, ip)
    ensures Covered(r, other) <==> And(r.mask, other.mask) == other.mask
  {
    if And(r.mask, other.mask) == other.mask {
      forall x: Word | Matches(r, x) ensures Matches(other, x) {
        MaskTwice(x, r.mask, other.mask);
        MaskTwice(ip, r.mask, other.mask);
      }
    } else {
      FullWord();
      FlipFits(ip, r.mask, other.mask, 32);
      FlipDiffers(ip, r.mask, other.mask);
      var x: Word := Flip(ip, r.mask, other.mask);
      assert Matches(r, x) && !Matches(other, x);
    }
  }

  /**
   The route found lies within another that matches exactly when it is a host or its netmask has all the bits of the
   other's.
   */
  lemma FoundIsWithinExactly(added: seq<Route>, ip: Word, j: nat)
    requires j < |added| && Matches(added[j], ip)
    ensures Find(Table(added), ip).Some?
    ensures var found := Find(Table(added), ip).value;
            Covered(found, added[j]) <==>
              found.Host? || (added[j].Network? && And(found.mask, added[j].mask) == added[j].mask)
  {
    var k := FirstMatchIsBest(added, ip);
    assert !NoneMatch(added, ip);
    assert k == j || Preferred(added, k, j);
    if added[k].Network? {
      CoveredExactly(added[k], added[j], ip);
    }
  }

  /** With prefix netmasks the route found is the most specific: it lies within every other that matches. */
  lemma FoundIsMostSpecific(added: seq<Route>, ip: Word, j: nat)
    requires forall i | 0 <= i < |added| :: added[i].Network? ==> IsPrefix(added[i].mask, 32)
    requires j < |added| && Matches(added[j], ip)
    ensures Find(Table(added), ip).Some? && Covered(Find(Table(added), ip).value, added[j])
  {
    FoundIsWithinExactly(added, ip, j);
    var k := FirstMatchIsBest(added, ip);
    assert k == j || Preferred(added, k, j);
    if added[k].Network? {
      PrefixesNest(added[k].mask, added[j].mask, 32);
    }
  }

  /** With other netmasks it need not be: here the route found covers an address that the other match does not. */
  lemma OddMasksDoNotNest()
    ensures var a, b := Network(2, 2, 1), Network(1, 1, 2);
            && Find(Table([b, a]), 3) == Some(a) && Matches(b, 3)
            && Matches(a, 2) && !Matches(b, 2)
  {
    var a, b := Network(2, 2, 1), Network(1, 1, 2);
    assert [b, a][..1] == [b] && [b][..0] == [];
    assert Table([b]) == [b];
    assert Slot([b], a) == 0;
    assert Table([b, a]) == [a, b];
    assert And(3, 2) == 2 by {
      AndHalves(3, 2);
      AndHalves(1, 1);
    }
    assert And(3, 1) == 1 by {
      AndHalves(3, 1);
    }
    assert And(2, 1) == 0 by {
      AndHalves(2, 1);
    }
    FlipDiffers(3, 2, 1);
  }

  // ---------- the list in place ----------

  class RouteList {
    var list: seq<Route>

    constructor ()
      ensures list == [] && Layered(list)
    {
      list := [];
    }

    method Add(r: Route)
      requires Layered(list)
      modifies this
      ensures list == Insert(old(list), r) && Layered(list)
    {
      var i := 0;
      if r.Network? {
        while i < |list| && list[i].Host?
          invariant 0 <= i <= |list|
          invariant forall j | 0 <= j < i :: Skips(list[j], r)
        {
          i := i + 1;
        }
        while i < |list| && list[i].mask > r.mask
          invariant 0 <= i <= |list|
          invariant forall j | 0 <= j < i :: Skips(list[j], r)
          invariant i < |list| ==> list[i].Network?
        {
          assert i + 1 < |list| ==> Ahead(list[i], list[i + 1]);
          i := i + 1;
        }
      }
      SlotIs(list, r, i);
      InsertKeepsLayers(list, r);
      list := list[..i] + [r] + list[i..];
    }

    method Lookup(ip: Word) returns (found: Option<Route>)
      ensures found == Find(list, ip)
    {
      var i := 0;
      assert list[0..] == list;
      while i < |list| && !Matches(list[i], ip)
        invariant 0 <= i <= |list|
        invariant Find(list[i..], ip) == Find(list, ip)
      {
        assert list[i..][1..] == list[i + 1..];
        i := i + 1;
      }
      found := if i < |list| then Some(list[i]) else None;
    }
  }

  lemma SlotIs(list: seq<Route>, r: Route, i: nat)
    requires i <= |list| && (forall j | 0 <= j < i :: Skips(list[j], r)) && (i < |list| ==> !Skips(list[i], r))
    ensures Slot(list, r) == i
  {
  }
}
