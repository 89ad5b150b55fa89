/**
 The heap: a best-fit allocator over an address-ordered list of holes, with splitting and coalescing.

 The central fact is that a hole list which is address-ordered and has no touching holes is determined by the set of
 free addresses.  Everything about the order of frees follows from it.
 */
module HeapModel {
  import opened Collections

  /** A run of bytes: a hole, or an allocated block including its header. */
  datatype Extent = Extent(addr: nat, size: nat)
  {
    function End(): nat { addr + size }

    predicate Contains(x: nat) { addr <= x < addr + size }
  }

  /**
   Sizes, in bytes, of a block header, a hole header and a debug magic number, and the number of addresses; they differ
   between targets.
   */
  datatype Layout = Layout(block: nat, hole: nat, magic: nat, word: nat)
  {
    // The smallest extent that can stand alone as a hole.
    function Smallest(): nat { hole + magic }

    // What is asked of the hole list for a request of `size` bytes; the sum is kept in an address.
    function Required(size: nat): nat {
      var sum := size + block + magic;
      var r := if sum < word then sum else sum - word;
      if r < Smallest() then Smallest() else r
    }

    // A remainder larger than this is split off as a new hole.
    function Slack(): nat { hole + 1 + magic }
  }

  // ---------- hole lists ----------

  ghost predicate Covers(hs: seq<Extent>, x: nat) {
    hs != [] && (hs[0].Contains(x) || Covers(hs[1..], x))
  }

  /** `a` lies before `b` and does not touch it. */
  predicate Before(a: Extent, b: Extent) {
    a.addr + a.size < b.addr
  }

  /** Address-ordered, disjoint, never touching, never empty. */
  ghost predicate Canonical(hs: seq<Extent>) {
    && (forall i | 0 <= i < |hs| :: hs[i].size > 0)
    && (forall i, j | 0 <= i < j < |hs| :: Before(hs[i], hs[j]))
  }

  ghost function Sum(hs: seq<Extent>): nat {
    if hs == [] then 0 else hs[0].size + Sum(hs[1..])
  }

  lemma {:induction false} CoveredBySome(hs: seq<Extent>, x: nat)
    ensures Covers(hs, x) <==> exists i | 0 <= i < |hs| :: hs[i].Contains(x)
  {
    if hs != [] {
      CoveredBySome(hs[1..], x);
      if Covers(hs[1..], x) {
        var i :| 0 <= i < |hs[1..]| && hs[1..][i].Contains(x);
        assert hs[i + 1].Contains(x);
      }
      if i :| 0 <= i < |hs| && hs[i].Contains(x) {
        assert i > 0 ==> hs[1..][i - 1].Contains(x);
      }
    }
  }

  lemma {:induction false} CoverOfConcat(a: seq<Extent>, b: seq<Extent>, x: nat)
    ensures Covers(a + b, x) <==> Covers(a, x) || Covers(b, x)
  {
    if a == [] {
      assert a + b == b;
    } else {
      assert (a + b)[0] == a[0] && (a + b)[1..] == a[1..] + b;
      CoverOfConcat(a[1..], b, x);
    }
  }

  lemma {:induction false} SumOfConcat(a: seq<Extent>, b: seq<Extent>)
    ensures Sum(a + b) == Sum(a) + Sum(b)
  {
    if a == [] {
      assert a + b == b;
    } else {
      assert (a + b)[0] == a[0] && (a + b)[1..] == a[1..] + b;
      SumOfConcat(a[1..], b);
    }
  }

  lemma CanonicalTail(hs: seq<Extent>)
    requires Canonical(hs) && hs != []
    ensures Canonical(hs[1..])
    ensures forall x | Covers(hs[1..], x) :: hs[0].End() < x
  {
    var t := hs[1..];
    assert forall i | 0 <= i < |t| :: t[i] == hs[i + 1];
    forall x | Covers(t, x) ensures hs[0].End() < x {
      CoveredBySome(t, x);
      var i :| 0 <= i < |t| && t[i].Contains(x);
      assert Before(hs[0], hs[i + 1]);
    }
  }

  lemma CanonicalCons(h: Extent, hs: seq<Extent>)
    requires Canonical(hs) && h.size > 0 && (hs != [] ==> Before(h, hs[0]))
    ensures Canonical([h] + hs)
  {
    var r := [h] + hs;
    forall i, j | 0 <= i < j < |r| ensures Before(r[i], r[j]) {
      assert r[j] == hs[j - 1];
      if i > 0 {
        assert Before(hs[i - 1], hs[j - 1]);
      } else {
        assert j > 1 ==> Before(hs[0], hs[j - 1]);
      }
    }
  }

  /** An address-ordered list without touching holes is determined by the addresses it covers. */
  lemma {:induction false} CanonicalIsUnique(a: seq<Extent>, b: seq<Extent>)
    requires Canonical(a) && Canonical(b)
    requires forall x: nat :: Covers(a, x) <==> Covers(b, x)
    ensures a == b
    decreases |a|
  {
    if a == [] {
      assert b != [] ==> Covers(b, b[0].addr);
    } else if b == [] {
      assert Covers(a, a[0].addr);
    } else {
      FirstHolesAgree(a, b);
      CanonicalTail(a);
      CanonicalTail(b);
      forall x: nat ensures Covers(a[1..], x) <==> Covers(b[1..], x) {
        assert Covers(a, x) <==> Covers(b, x);
      }
      CanonicalIsUnique(a[1..], b[1..]);
    }
  }

  lemma FirstHolesAgree(a: seq<Extent>, b: seq<Extent>)
    requires Canonical(a) && Canonical(b) && a != [] && b != []
    requires forall x: nat :: Covers(a, x) <==> Covers(b, x)
    ensures a[0] == b[0]
  {
    assert Covers(a, a[0].addr) && Covers(b, b[0].addr);
    NothingBeforeFirst(a, b[0].addr);
    NothingBeforeFirst(b, a[0].addr);
    GapAfterFirst(a);
    GapAfterFirst(b);
    assert !b[0].Contains(a[0].End()) && !a[0].Contains(b[0].End());
    assert a[0].size == b[0].size;
  }

  lemma NothingBeforeFirst(hs: seq<Extent>, x: nat)
    requires Canonical(hs) && hs != [] && Covers(hs, x)
    ensures hs[0].addr <= x
  {
    CanonicalTail(hs);
  }

  lemma GapAfterFirst(hs: seq<Extent>)
    requires Canonical(hs) && hs != []
    ensures !Covers(hs, hs[0].End())
  {
    CanonicalTail(hs);
  }

  // ---------- freeing ----------

  /** The hole list after the extent `b` has been released: one pass that merges or inserts. */
  function Release(hs: seq<Extent>, b: Extent): seq<Extent> {
    if hs == [] then [b]
    else
      var h, rest := hs[0], hs[1..];
      if h.End() == b.addr then
        var m := Extent(h.addr, h.size + b.size);
        if rest != [] && m.End() == rest[0].addr then [Extent(m.addr, m.size + rest[0].size)] + rest[1..]
        else [m] + rest
      else if h.addr > b.addr then
        if b.End() == h.addr then [Extent(b.addr, b.size + h.size)] + rest else [b] + hs
      else [h] + Release(rest, b)
  }

  /** No byte of `b` is free yet. */
  ghost predicate Outside(hs: seq<Extent>, b: Extent) {
    forall x | b.addr <= x < b.addr + b.size :: !Covers(hs, x)
  }

  lemma OutsideFirst(hs: seq<Extent>, b: Extent)
    requires Canonical(hs) && hs != [] && b.size > 0 && Outside(hs, b)
    ensures hs[0].End() <= b.addr || b.End() <= hs[0].addr
    ensures Outside(hs[1..], b)
  {
    var h := hs[0];
    assert !Covers(hs, b.addr) && Covers(hs, h.addr);
    forall x | b.addr <= x < b.addr + b.size ensures !Covers(hs[1..], x) {
      assert !Covers(hs, x);
    }
  }

  lemma ConsCovers(h: Extent, hs: seq<Extent>)
    ensures forall x: nat :: Covers([h] + hs, x) <==> h.Contains(x) || Covers(hs, x)
  {
    assert ([h] + hs)[1..] == hs;
  }

  /** `r` is canonical and covers `b` besides what `hs` covers. */
  ghost predicate Extends(r: seq<Extent>, hs: seq<Extent>, b: Extent) {
    Canonical(r) && forall x: nat :: Covers(r, x) <==> Covers(hs, x) || b.Contains(x)
  }

  /** The released extent follows the first hole, and may close the gap to the second. */
  lemma ReleaseBehindFirst(hs: seq<Extent>, b: Extent)
    requires Canonical(hs) && hs != [] && b.size > 0 && Outside(hs, b) && hs[0].End() == b.addr
    ensures Extends(Release(hs, b), hs, b)
  {
    var h, rest := hs[0], hs[1..];
    OutsideFirst(hs, b);
    CanonicalTail(hs);
    var m := Extent(h.addr, h.size + b.size);
    if rest != [] {
      OutsideFirst(rest, b);
      CanonicalTail(rest);
      assert Before(h, rest[0]);
    }
    if rest != [] && m.End() == rest[0].addr {
      var n := Extent(m.addr, m.size + rest[0].size);
      assert |rest| > 1 ==> Before(rest[0], rest[1]);
      CanonicalCons(n, rest[1..]);
      ConsCovers(n, rest[1..]);
      forall x: nat ensures Covers([n] + rest[1..], x) <==> Covers(hs, x) || b.Contains(x) {
        assert Covers(rest, x) <==> rest[0].Contains(x) || Covers(rest[1..], x);
      }
    } else {
      CanonicalCons(m, rest);
      ConsCovers(m, rest);
    }
  }

  /** The released extent precedes the first hole, and may touch it. */
  lemma ReleaseBeforeFirst(hs: seq<Extent>, b: Extent)
    requires Canonical(hs) && hs != [] && b.size > 0 && Outside(hs, b) && hs[0].addr > b.addr
    ensures Extends(Release(hs, b), hs, b)
  {
    var h, rest := hs[0], hs[1..];
    OutsideFirst(hs, b);
    CanonicalTail(hs);
    if b.End() == h.addr {
      var n := Extent(b.addr, b.size + h.size);
      assert rest != [] ==> Before(h, rest[0]);
      CanonicalCons(n, rest);
      ConsCovers(n, rest);
    } else {
      CanonicalCons(b, hs);
      ConsCovers(b, hs);
    }
  }

  /** Releasing adds exactly the released addresses and keeps the list canonical. */
  lemma {:induction false} ReleaseIsCanonical(hs: seq<Extent>, b: Extent)
    requires Canonical(hs) && b.size > 0 && Outside(hs, b)
    ensures Extends(Release(hs, b), hs, b)
    ensures Release(hs, b)[0].addr == if hs != [] && hs[0].addr < b.addr then hs[0].addr else b.addr
    decreases |hs|
  {
    if hs == [] {
      assert [b][1..] == [];
    } else if hs[0].End() == b.addr {
      ReleaseBehindFirst(hs, b);
      assert hs[0].size > 0;
    } else if hs[0].addr > b.addr {
      ReleaseBeforeFirst(hs, b);
    } else {
      var h, rest := hs[0], hs[1..];
      OutsideFirst(hs, b);
      CanonicalTail(hs);
      ReleaseIsCanonical(rest, b);
      assert rest != [] ==> Before(h, rest[0]);
      CanonicalCons(h, Release(rest, b));
      ConsCovers(h, Release(rest, b));
    }
  }

  // ---------- allocating ----------

  /** Hole `i` is the lowest-addressed of the smallest holes of at least `required` bytes. */
  ghost predicate IsBestFit(hs: seq<Extent>, required: nat, i: nat) {
    && i < |hs|
    && hs[i].size >= required
    && (forall j | 0 <= j < |hs| && hs[j].size >= required :: hs[i].size <= hs[j].size)
    && (forall j | 0 <= j < i && hs[j].size >= required :: hs[i].size < hs[j].size)
  }

  ghost function BestFit(hs: seq<Extent>, required: nat): (r: Option<nat>)
    ensures r.Some? ==> IsBestFit(hs, required, r.value)
    ensures r.None? <==> forall j | 0 <= j < |hs| :: hs[j].size < required
  {
    if hs == [] then None
    else
      var n := |hs| - 1;
      var b := BestFit(hs[..n], required);
      if hs[n].size >= required && (b.None? || hs[b.value].size > hs[n].size) then Some(n) else b
  }

  lemma BestFitIsUnique(hs: seq<Extent>, required: nat, i: nat)
    requires IsBestFit(hs, required, i)
    ensures BestFit(hs, required) == Some(i)
  {
    assert hs[i].size >= required;
    var k := BestFit(hs, required).value;
    assert hs[k].size == hs[i].size;
  }

  /** Carve a block of at least `required` bytes off the front of hole `i`. */
  ghost function Carve(l: Layout, hs: seq<Extent>, i: nat, required: nat): (r: (Extent, seq<Extent>))
    requires i < |hs| && hs[i].size >= required
  {
    var h := hs[i];
    if h.size - required > l.Slack() then
      (Extent(h.addr, required), hs[i := Extent(h.addr + required, h.size - required)])
    else
      (h, hs[..i] + hs[i + 1..])
  }

  lemma SplitAt(hs: seq<Extent>, i: nat, x: nat)
    requires Canonical(hs) && i < |hs|
    ensures Covers(hs, x) <==> Covers(hs[..i], x) || hs[i].Contains(x) || Covers(hs[i + 1..], x)
    ensures hs[i].Contains(x) ==> !Covers(hs[..i], x) && !Covers(hs[i + 1..], x)
  {
    var a, b := hs[..i], hs[i + 1..];
    assert hs == a + ([hs[i]] + b);
    CoverOfConcat(a, [hs[i]] + b, x);
    ConsCovers(hs[i], b);
    CoveredBySome(a, x);
    CoveredBySome(b, x);
    if j :| 0 <= j < |a| && a[j].Contains(x) {
      assert Before(hs[j], hs[i]);
    }
    if j :| 0 <= j < |b| && b[j].Contains(x) {
      assert Before(hs[i], hs[i + 1 + j]);
    }
  }

  lemma ShrinkKeepsCanonical(hs: seq<Extent>, i: nat, n: Extent)
    requires Canonical(hs) && i < |hs| && n.size > 0 && hs[i].addr <= n.addr && n.End() <= hs[i].End()
    ensures Canonical(hs[i := n])
  {
    var r := hs[i := n];
    forall j, k | 0 <= j < k < |r| ensures Before(r[j], r[k]) {
      assert Before(hs[j], hs[k]);
    }
  }

  lemma RemoveKeepsCanonical(hs: seq<Extent>, i: nat)
    requires Canonical(hs) && i < |hs|
    ensures Canonical(hs[..i] + hs[i + 1..])
  {
    var r := hs[..i] + hs[i + 1..];
    assert forall j | 0 <= j < |r| :: r[j] == hs[if j < i then j else j + 1];
    forall j, k | 0 <= j < k < |r| ensures Before(r[j], r[k]) {
      assert Before(hs[if j < i then j else j + 1], hs[if k < i then k else k + 1]);
    }
  }

  lemma SumSplit(hs: seq<Extent>, i: nat)
    requires i < |hs|
    ensures Sum(hs) == Sum(hs[..i]) + hs[i].size + Sum(hs[i + 1..])
  {
    var a, b := hs[..i], hs[i + 1..];
    assert hs == a + ([hs[i]] + b);
    SumOfConcat(a, [hs[i]] + b);
    SumOfCons(hs[i], b);
  }

  lemma SumOfCons(h: Extent, hs: seq<Extent>)
    ensures Sum([h] + hs) == h.size + Sum(hs)
  {
    assert ([h] + hs)[1..] == hs;
  }

  /** The block `b` and the hole list `r` split the hole list `hs` between them. */
  ghost predicate Divides(hs: seq<Extent>, b: Extent, r: seq<Extent>) {
    && Canonical(r)
    && Sum(r) + b.size == Sum(hs)
    && (forall x: nat :: Covers(hs, x) <==> Covers(r, x) || b.Contains(x))
    && (forall x: nat | b.Contains(x) :: !Covers(r, x))
  }

  lemma CarveFront(hs: seq<Extent>, i: nat, required: nat)
    requires Canonical(hs) && i < |hs| && hs[i].size > required > 0
    ensures Divides(hs, Extent(hs[i].addr, required), hs[i := Extent(hs[i].addr + required, hs[i].size - required)])
  {
    var b, n := Extent(hs[i].addr, required), Extent(hs[i].addr + required, hs[i].size - required);
    var r := hs[i := n];
    ShrinkKeepsCanonical(hs, i, n);
    SumSplit(hs, i);
    SumSplit(r, i);
    assert r[..i] == hs[..i] && r[i + 1..] == hs[i + 1..];
    forall x: nat
      ensures Covers(hs, x) <==> Covers(r, x) || b.Contains(x)
      ensures b.Contains(x) ==> !Covers(r, x)
    {
      SplitAt(hs, i, x);
      SplitAt(r, i, x);
    }
  }

  lemma CarveWhole(hs: seq<Extent>, i: nat)
    requires Canonical(hs) && i < |hs|
    ensures Divides(hs, hs[i], hs[..i] + hs[i + 1..])
  {
    var r := hs[..i] + hs[i + 1..];
    RemoveKeepsCanonical(hs, i);
    SumSplit(hs, i);
    SumOfConcat(hs[..i], hs[i + 1..]);
    forall x: nat
      ensures Covers(hs, x) <==> Covers(r, x) || hs[i].Contains(x)
      ensures hs[i].Contains(x) ==> !Covers(r, x)
    {
      SplitAt(hs, i, x);
      CoverOfConcat(hs[..i], hs[i + 1..], x);
    }
  }

  /** Carving removes exactly the block's addresses, keeps the list canonical and wastes at most the slack. */
  lemma CarveIsExact(l: Layout, hs: seq<Extent>, i: nat, required: nat)
    requires Canonical(hs) && i < |hs| && hs[i].size >= required > 0
    ensures var (b, r) := Carve(l, hs, i, required);
            && Divides(hs, b, r)
            && b.addr == hs[i].addr && required <= b.size <= required + l.Slack()
            && ((forall j | 0 <= j < |hs| :: hs[j].size >= l.Smallest())
                ==> forall j | 0 <= j < |r| :: r[j].size >= l.Smallest())
  {
    if hs[i].size - required > l.Slack() {
      CarveFront(hs, i, required);
    } else {
      CarveWhole(hs, i);
    }
  }

  /** Freeing a block immediately after allocating it restores the hole list exactly. */
  lemma FreeUndoesAlloc(l: Layout, hs: seq<Extent>, i: nat, required: nat)
    requires Canonical(hs) && i < |hs| && hs[i].size >= required > 0
    ensures var (b, r) := Carve(l, hs, i, required); Release(r, b) == hs
  {
    var (b, r) := Carve(l, hs, i, required);
    CarveIsExact(l, hs, i, required);
    ReleaseIsCanonical(r, b);
    CanonicalIsUnique(Release(r, b), hs);
  }

  // ---------- the order of frees ----------

  ghost function ReleaseAll(hs: seq<Extent>, bs: seq<Extent>): seq<Extent>
    decreases |bs|
  {
    if bs == [] then hs else ReleaseAll(Release(hs, bs[0]), bs[1..])
  }

  /** `bs` are non-empty extents that overlap neither each other nor the holes. */
  ghost predicate Releasable(hs: seq<Extent>, bs: multiset<Extent>) {
    && (forall b | b in bs :: b.size > 0 && bs[b] == 1 && Outside(hs, b))
    && (forall b, c, x: nat | b in bs && c in bs && b != c && b.Contains(x) :: !c.Contains(x))
  }

  lemma {:induction false} ReleaseAllIsCanonical(hs: seq<Extent>, bs: seq<Extent>)
    requires Canonical(hs) && Releasable(hs, multiset(bs))
    ensures Canonical(ReleaseAll(hs, bs))
    ensures forall x: nat :: Covers(ReleaseAll(hs, bs), x) <==> Covers(hs, x) || exists b | b in bs :: b.Contains(x)
    decreases |bs|
  {
    if bs != [] {
      var r := Release(hs, bs[0]);
      var rest := bs[1..];
      ReleaseIsCanonical(hs, bs[0]);
      assert bs == [bs[0]] + rest;
      assert multiset(bs) == multiset{bs[0]} + multiset(rest);
      assert bs[0] in multiset(bs);
      forall b | b in multiset(rest) ensures Outside(r, b) {
        assert Outside(hs, b);
      }
      ReleaseAllIsCanonical(r, rest);
      forall x: nat ensures Covers(ReleaseAll(hs, bs), x) <==> Covers(hs, x) || exists b | b in bs :: b.Contains(x) {
        assert Covers(ReleaseAll(r, rest), x) <==> Covers(r, x) || exists b | b in rest :: b.Contains(x);
      }
    }
  }

  /** Freeing the same blocks in any order gives the same hole list. */
  lemma FreeOrderIsIrrelevant(hs: seq<Extent>, cs: seq<Extent>, bs: seq<Extent>)
    requires Canonical(hs) && Releasable(hs, multiset(cs)) && multiset(cs) == multiset(bs)
    ensures ReleaseAll(hs, cs) == ReleaseAll(hs, bs)
  {
    ReleaseAllIsCanonical(hs, cs);
    ReleaseAllIsCanonical(hs, bs);
    assert forall e :: e in cs <==> e in multiset(cs);
    assert forall e :: e in bs <==> e in multiset(bs);
    CanonicalIsUnique(ReleaseAll(hs, cs), ReleaseAll(hs, bs));
  }
}
