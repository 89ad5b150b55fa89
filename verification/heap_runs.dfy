/**
 The heap over whole runs of adding, allocating and freeing, and the allocator as an object edited in place.
 */
module HeapRuns {
  import opened Collections
  import opened HeapModel

  /**
   `blocks` maps the address of each allocated block to the size in its header; `regions` lists the memory given to
   the heap so far (bookkeeping of the model).
   */
  datatype HeapState = HeapState(holes: seq<Extent>, freeRam: int, blocks: map<nat, nat>, regions: seq<Extent>)

  ghost predicate InBlock(blocks: map<nat, nat>, x: nat) {
    exists a | a in blocks :: a <= x < a + blocks[a]
  }

  ghost function Total(blocks: map<nat, nat>): nat {
    if blocks == map[] then 0
    else
      var a :| a in blocks;
      blocks[a] + Total(blocks - {a})
  }

  lemma {:induction false} TotalWithout(m: map<nat, nat>, a: nat)
    requires a in m
    ensures Total(m) == m[a] + Total(m - {a})
    decreases |m|
  {
    var c :| c in m && Total(m) == m[c] + Total(m - {c});
    if a != c {
      TotalWithout(m - {c}, a);
      TotalWithout(m - {a}, c);
      assert m - {c} - {a} == m - {a} - {c};
    }
  }

  /** What holds between operations. */
  ghost predicate HeapInv(l: Layout, s: HeapState) {
    && Canonical(s.holes)
    && (forall i | 0 <= i < |s.holes| :: s.holes[i].size >= l.Smallest())
    && (forall a | a in s.blocks :: s.blocks[a] >= l.Smallest())
    && (forall a, b | a in s.blocks && b in s.blocks && a < b :: a + s.blocks[a] <= b)
    && (forall x: nat | Covers(s.holes, x) :: !InBlock(s.blocks, x))
    && (forall x: nat :: Covers(s.regions, x) <==> Covers(s.holes, x) || InBlock(s.blocks, x))
    && s.freeRam == Sum(s.holes)
    && Sum(s.regions) == s.freeRam + Total(s.blocks)
  }

  // ---------- operations ----------

  ghost function AllocOp(l: Layout, s: HeapState, size: nat): (r: (Option<nat>, HeapState)) {
    var required := l.Required(size);
    match BestFit(s.holes, required)
    case None => (None, s)
    case Some(i) =>
      var (b, hs) := Carve(l, s.holes, i, required);
      (Some(b.addr + l.block + l.magic),
       s.(holes := hs, freeRam := s.freeRam - b.size, blocks := s.blocks[b.addr := b.size]))
  }

  /** Release the block whose header is at `a`. */
  ghost function FreeOp(s: HeapState, a: nat): HeapState
    requires a in s.blocks
  {
    s.(holes := Release(s.holes, Extent(a, s.blocks[a])), freeRam := s.freeRam + s.blocks[a], blocks := s.blocks - {a})
  }

  /** Give a region to the heap by forging a block there and freeing it. */
  ghost function AddOp(s: HeapState, a: nat, size: nat): HeapState {
    FreeOp(s.(blocks := s.blocks[a := size], regions := s.regions + [Extent(a, size)]), a)
  }

  // ---------- the invariant ----------

  lemma BlockIsOutside(l: Layout, s: HeapState, a: nat)
    requires HeapInv(l, s) && a in s.blocks
    ensures Outside(s.holes, Extent(a, s.blocks[a]))
  {
  }

  lemma {:induction false} SumOfRelease(hs: seq<Extent>, b: Extent)
    ensures Sum(Release(hs, b)) == Sum(hs) + b.size
    decreases |hs|
  {
    if hs != [] {
      var h, rest := hs[0], hs[1..];
      if h.End() == b.addr {
        var m := Extent(h.addr, h.size + b.size);
        if rest != [] && m.End() == rest[0].addr {
          var n := Extent(m.addr, m.size + rest[0].size);
          assert ([n] + rest[1..])[1..] == rest[1..];
        } else {
          assert ([m] + rest)[1..] == rest;
        }
      } else if h.addr > b.addr {
        assert ([Extent(b.addr, b.size + h.size)] + rest)[1..] == rest;
        assert ([b] + hs)[1..] == hs;
      } else {
        SumOfRelease(rest, b);
        assert ([h] + Release(rest, b))[1..] == Release(rest, b);
      }
    }
  }

  lemma {:induction false} ReleaseGrows(hs: seq<Extent>, b: Extent, least: nat)
    requires b.size >= least && forall i | 0 <= i < |hs| :: hs[i].size >= least
    ensures forall i | 0 <= i < |Release(hs, b)| :: Release(hs, b)[i].size >= least
    decreases |hs|
  {
    if hs != [] {
      var h, rest := hs[0], hs[1..];
      assert forall i | 0 <= i < |rest| :: rest[i] == hs[i + 1];
      if !(h.End() == b.addr || h.addr > b.addr) {
        ReleaseGrows(rest, b, least);
      }
    }
  }

  lemma InBlockWithout(m: map<nat, nat>, a: nat, x: nat)
    requires a in m && forall b, c | b in m && c in m && b < c :: b + m[b] <= c
    ensures InBlock(m, x) <==> InBlock(m - {a}, x) || a <= x < a + m[a]
    ensures a <= x < a + m[a] ==> !InBlock(m - {a}, x)
  {
    if InBlock(m, x) {
      var b :| b in m && b <= x < b + m[b];
      assert b != a ==> b in m - {a};
    }
  }

  lemma FreeKeepsInv(l: Layout, s: HeapState, a: nat)
    requires HeapInv(l, s) && a in s.blocks && l.hole > 0
    ensures HeapInv(l, FreeOp(s, a))
  {
    var b := Extent(a, s.blocks[a]);
    var t := FreeOp(s, a);
    BlockIsOutside(l, s, a);
    ReleaseIsCanonical(s.holes, b);
    ReleaseGrows(s.holes, b, l.Smallest());
    SumOfRelease(s.holes, b);
    TotalWithout(s.blocks, a);
    forall x: nat
      ensures Covers(t.holes, x) ==> !InBlock(t.blocks, x)
      ensures Covers(t.regions, x) <==> Covers(t.holes, x) || InBlock(t.blocks, x)
    {
      InBlockWithout(s.blocks, a, x);
    }
  }

  /** The region is new to the heap and large enough to stand alone as a hole. */
  ghost predicate FreshRegion(l: Layout, s: HeapState, a: nat, size: nat) {
    size >= l.Smallest() && forall x | a <= x < a + size :: !Covers(s.regions, x)
  }

  lemma AddKeepsInv(l: Layout, s: HeapState, a: nat, size: nat)
    requires HeapInv(l, s) && FreshRegion(l, s, a, size) && l.hole > 0
    ensures HeapInv(l, AddOp(s, a, size))
  {
    var t := s.(blocks := s.blocks[a := size], regions := s.regions + [Extent(a, size)]);
    NewBlockInv(l, s, a, size);
    FreeKeepsInv(l, t, a);
  }

  lemma AddressIsNew(l: Layout, s: HeapState, a: nat, size: nat)
    requires HeapInv(l, s) && FreshRegion(l, s, a, size) && l.hole > 0
    ensures a !in s.blocks
    ensures forall b | b in s.blocks :: b + s.blocks[b] <= a || a + size <= b
  {
    forall b | b in s.blocks ensures b != a && (b + s.blocks[b] <= a || a + size <= b) {
      assert InBlock(s.blocks, b);
      assert Covers(s.regions, b);
      if b < a {
        assert a < b + s.blocks[b] ==> InBlock(s.blocks, a);
        assert !Covers(s.regions, a);
      }
    }
  }

  lemma TotalWith(m: map<nat, nat>, a: nat, size: nat)
    requires a !in m
    ensures Total(m[a := size]) == Total(m) + size
  {
    TotalWithout(m[a := size], a);
    assert m[a := size] - {a} == m;
  }

  lemma InBlockWith(m: map<nat, nat>, a: nat, size: nat, x: nat)
    requires a !in m
    ensures InBlock(m[a := size], x) <==> InBlock(m, x) || a <= x < a + size
  {
    var n := m[a := size];
    if InBlock(m, x) {
      var b :| b in m && b <= x < b + m[b];
      assert b in n && n[b] == m[b];
    }
    if a <= x < a + size {
      assert a in n;
    }
  }

  /** Forging a block in new memory is as good as having allocated it. */
  lemma NewBlockInv(l: Layout, s: HeapState, a: nat, size: nat)
    requires HeapInv(l, s) && FreshRegion(l, s, a, size) && l.hole > 0
    ensures HeapInv(l, s.(blocks := s.blocks[a := size], regions := s.regions + [Extent(a, size)]))
  {
    var e := Extent(a, size);
    var t := s.(blocks := s.blocks[a := size], regions := s.regions + [e]);
    AddressIsNew(l, s, a, size);
    TotalWith(s.blocks, a, size);
    SumOfConcat(s.regions, [e]);
    forall x: nat
      ensures Covers(t.holes, x) ==> !InBlock(t.blocks, x)
      ensures Covers(t.regions, x) <==> Covers(t.holes, x) || InBlock(t.blocks, x)
    {
      InBlockWith(s.blocks, a, size, x);
      CoverOfConcat(s.regions, [e], x);
      assert Covers([e], x) <==> e.Contains(x);
    }
  }

  lemma AllocKeepsInv(l: Layout, s: HeapState, size: nat)
    requires HeapInv(l, s) && l.hole > 0
    ensures HeapInv(l, AllocOp(l, s, size).1)
  {
    var required := l.Required(size);
    match BestFit(s.holes, required)
    case None =>
    case Some(i) =>
      var (b, hs) := Carve(l, s.holes, i, required);
      CarveIsExact(l, s.holes, i, required);
      CarvedBlockInv(l, s, b, hs);
  }

  lemma BlocksMissHoles(l: Layout, s: HeapState, b: Extent)
    requires HeapInv(l, s) && l.hole > 0 && b.size > 0 && forall x | b.addr <= x < b.addr + b.size :: Covers(s.holes, x)
    ensures b.addr !in s.blocks
    ensures forall a | a in s.blocks :: a + s.blocks[a] <= b.addr || b.End() <= a
  {
    forall a | a in s.blocks ensures a != b.addr && (a + s.blocks[a] <= b.addr || b.End() <= a) {
      assert InBlock(s.blocks, a);
      assert Covers(s.holes, b.addr);
      assert a <= b.addr < a + s.blocks[a] ==> InBlock(s.blocks, b.addr);
    }
  }

  /** A new block beside the old ones leaves every two blocks apart. */
  lemma BlocksStayApart(blocks: map<nat, nat>, b: Extent)
    requires forall a, c | a in blocks && c in blocks && a < c :: a + blocks[a] <= c
    requires b.addr !in blocks && forall a | a in blocks :: a + blocks[a] <= b.addr || b.End() <= a
    ensures var t := blocks[b.addr := b.size]; forall a, c | a in t && c in t && a < c :: a + t[a] <= c
  {
  }

  lemma CarvedCover(s: HeapState, b: Extent, hs: seq<Extent>, x: nat)
    requires b.addr !in s.blocks && Divides(s.holes, b, hs)
    requires Covers(s.holes, x) ==> !InBlock(s.blocks, x)
    ensures var blocks := s.blocks[b.addr := b.size];
            && (Covers(hs, x) ==> !InBlock(blocks, x))
            && (Covers(s.holes, x) || InBlock(s.blocks, x) <==> Covers(hs, x) || InBlock(blocks, x))
  {
    InBlockWith(s.blocks, b.addr, b.size, x);
  }

  lemma CarvedBlockInv(l: Layout, s: HeapState, b: Extent, hs: seq<Extent>)
    requires HeapInv(l, s) && l.hole > 0 && b.size >= l.Smallest()
    requires Divides(s.holes, b, hs)
    requires forall j | 0 <= j < |hs| :: hs[j].size >= l.Smallest()
    ensures HeapInv(l, s.(holes := hs, freeRam := s.freeRam - b.size, blocks := s.blocks[b.addr := b.size]))
  {
    BlocksMissHoles(l, s, b);
    TotalWith(s.blocks, b.addr, b.size);
    BlocksStayApart(s.blocks, b);
    var t := s.(holes := hs, freeRam := s.freeRam - b.size, blocks := s.blocks[b.addr := b.size]);
    forall x: nat
      ensures Covers(t.holes, x) ==> !InBlock(t.blocks, x)
      ensures Covers(t.regions, x) <==> Covers(t.holes, x) || InBlock(t.blocks, x)
    {
      CarvedCover(s, b, hs, x);
    }
  }

  // ---------- whole runs ----------

  datatype HeapCall = Add(a: nat, n: nat) | Alloc(n: nat) | Free(a: nat)

  ghost predicate Permitted(l: Layout, s: HeapState, c: HeapCall) {
    match c
    case Add(a, n) => FreshRegion(l, s, a, n)
    case Alloc(n) => true
    case Free(a) => a in s.blocks
  }

  ghost function Call(l: Layout, s: HeapState, c: HeapCall): HeapState
    requires Permitted(l, s, c)
  {
    match c
    case Add(a, n) => AddOp(s, a, n)
    case Alloc(n) => AllocOp(l, s, n).1
    case Free(a) => FreeOp(s, a)
  }

  ghost predicate IsHeapRun(l: Layout, trace: seq<HeapState>, calls: seq<HeapCall>) {
    && |trace| == |calls| + 1
    && trace[0] == HeapState([], 0, map[], [])
    && forall i | 0 <= i < |calls| :: Permitted(l, trace[i], calls[i]) && trace[i + 1] == Call(l, trace[i], calls[i])
  }

  /** The invariant holds after every run. */
  lemma {:induction false} RunKeepsHeapInv(l: Layout, trace: seq<HeapState>, calls: seq<HeapCall>, n: nat)
    requires IsHeapRun(l, trace, calls) && l.hole > 0 && n < |trace|
    ensures HeapInv(l, trace[n])
  {
    if n > 0 {
      RunKeepsHeapInv(l, trace, calls, n - 1);
      var s, c := trace[n - 1], calls[n - 1];
      assert Permitted(l, s, c) && trace[n - 1 + 1] == Call(l, s, c);
      match c
      case Add(a, k) => AddKeepsInv(l, s, a, k);
      case Alloc(k) => AllocKeepsInv(l, s, k);
      case Free(a) => FreeKeepsInv(l, s, a);
    }
  }

  /** The hole list depends only on what memory was added and what is allocated, not on how that came about. */
  lemma HolesAreDetermined(l: Layout, s: HeapState, t: HeapState)
    requires HeapInv(l, s) && HeapInv(l, t)
    requires s.blocks == t.blocks && forall x: nat :: Covers(s.regions, x) <==> Covers(t.regions, x)
    ensures s.holes == t.holes && s.freeRam == t.freeRam
  {
    forall x: nat ensures Covers(s.holes, x) <==> Covers(t.holes, x) {
      assert Covers(s.regions, x) <==> Covers(t.regions, x);
    }
    CanonicalIsUnique(s.holes, t.holes);
  }

  /** A successful allocation followed at once by its free leaves the heap as it was. */
  lemma FreeUndoesAllocation(l: Layout, s: HeapState, size: nat) returns (a: nat)
    requires HeapInv(l, s) && l.hole > 0 && AllocOp(l, s, size).0.Some?
    ensures AllocOp(l, s, size).0 == Some(a + l.block + l.magic)
    ensures var t := AllocOp(l, s, size).1; a in t.blocks && FreeOp(t, a) == s
  {
    var i := BestFit(s.holes, l.Required(size)).value;
    CarvedBlockIsNew(l, s, i, l.Required(size));
    a := UndoAt(l, s, size, i);
  }

  lemma UndoAt(l: Layout, s: HeapState, size: nat, i: nat) returns (a: nat)
    requires BestFit(s.holes, l.Required(size)) == Some(i) && l.hole > 0
    requires Canonical(s.holes) && Carve(l, s.holes, i, l.Required(size)).0.addr !in s.blocks
    ensures AllocOp(l, s, size).0 == Some(a + l.block + l.magic)
    ensures var t := AllocOp(l, s, size).1; a in t.blocks && FreeOp(t, a) == s
  {
    var (b, hs) := Carve(l, s.holes, i, l.Required(size));
    FreeUndoesAlloc(l, s.holes, i, l.Required(size));
    UndoCarve(s, b, hs);
    AllocTakes(l, s, size, i, b, hs);
    a := b.addr;
  }

  lemma AllocTakes(l: Layout, s: HeapState, size: nat, i: nat, b: Extent, hs: seq<Extent>)
    requires BestFit(s.holes, l.Required(size)) == Some(i) && (b, hs) == Carve(l, s.holes, i, l.Required(size))
    ensures AllocOp(l, s, size) ==
            (Some(b.addr + l.block + l.magic),
             s.(holes := hs, freeRam := s.freeRam - b.size, blocks := s.blocks[b.addr := b.size]))
  {
  }

  lemma CarvedBlockIsNew(l: Layout, s: HeapState, i: nat, required: nat)
    requires HeapInv(l, s) && l.hole > 0 && i < |s.holes| && s.holes[i].size >= required > 0
    ensures Carve(l, s.holes, i, required).0.addr !in s.blocks
  {
    CarveIsExact(l, s.holes, i, required);
    CarvedAddressIsNew(l, s, Carve(l, s.holes, i, required).0);
  }

  lemma UndoCarve(s: HeapState, b: Extent, hs: seq<Extent>)
    requires Release(hs, b) == s.holes && b.addr !in s.blocks
    ensures FreeOp(s.(holes := hs, freeRam := s.freeRam - b.size, blocks := s.blocks[b.addr := b.size]), b.addr) == s
  {
    ForgetNew(s.blocks, b.addr, b.size);
    assert Extent(b.addr, b.size) == b;
  }

  lemma CarvedAddressIsNew(l: Layout, s: HeapState, b: Extent)
    requires HeapInv(l, s) && l.hole > 0 && Covers(s.holes, b.addr)
    ensures b.addr !in s.blocks
  {
    assert b.addr in s.blocks ==> InBlock(s.blocks, b.addr);
  }

  lemma ForgetNew(m: map<nat, nat>, a: nat, size: nat)
    requires a !in m
    ensures m[a := size] - {a} == m
  {
  }

  /** Allocation succeeds exactly when some hole is large enough, and over-allocates by at most the slack. */
  lemma AllocSucceeds(l: Layout, s: HeapState, size: nat)
    requires HeapInv(l, s) && l.hole > 0
    ensures AllocOp(l, s, size).0.Some? <==> exists i | 0 <= i < |s.holes| :: s.holes[i].size >= l.Required(size)
    ensures var (p, t) := AllocOp(l, s, size);
            p.Some? ==>
              var a := p.value - l.block - l.magic;
              && a >= 0 && a !in s.blocks && a in t.blocks
              && l.Required(size) <= t.blocks[a] <= l.Required(size) + l.Slack()
              && (exists i: nat :: IsBestFit(s.holes, l.Required(size), i) && s.holes[i].addr == a)
  {
    var required := l.Required(size);
    var r := BestFit(s.holes, required);
    if r.Some? {
      var (b, hs) := Carve(l, s.holes, r.value, required);
      CarveIsExact(l, s.holes, r.value, required);
      assert Covers(s.holes, b.addr);
      assert b.addr in s.blocks ==> InBlock(s.blocks, b.addr);
    }
  }

  /**
   The size of a new block: what was asked for and its header, or what a hole needs if that is more; and the whole hole
   if what would be left of it is no larger than a hole's own header and its magic number, and one.
   */
  lemma BlockSizeExactly(l: Layout, s: HeapState, size: nat, i: nat)
    requires HeapInv(l, s) && l.hole > 0 && size + l.block + l.magic < l.word
    requires var least := if size + l.block < l.hole then l.hole + l.magic else size + l.block + l.magic;
             IsBestFit(s.holes, least, i)
    ensures var least := if size + l.block < l.hole then l.hole + l.magic else size + l.block + l.magic;
            var (p, t) := AllocOp(l, s, size);
            && p == Some(s.holes[i].addr + l.block + l.magic)
            && t.blocks == s.blocks[s.holes[i].addr := if s.holes[i].size > least + l.hole + 1 + l.magic then least
                                                       else s.holes[i].size]
  {
    BestFitIsUnique(s.holes, l.Required(size), i);
  }

  /** An address has room for any two headers. */
  ghost predicate Roomy(l: Layout) {
    l.Smallest() + l.Slack() + l.block + l.magic < l.word
  }

  /**
   A block that was allocated has room for the bytes asked for exactly when their number and the header fit an address.
   */
  lemma AllocFitsExactly(l: Layout, s: HeapState, size: nat)
    requires HeapInv(l, s) && l.hole > 0 && Roomy(l) && size < l.word && AllocOp(l, s, size).0.Some?
    ensures var (p, t) := AllocOp(l, s, size);
            var a := p.value - l.block - l.magic;
            && a in t.blocks
            && (p.value + size <= a + t.blocks[a] <==> size + l.block + l.magic < l.word)
  {
    AllocSucceeds(l, s, size);
  }

  /** A heap of one region of a hundred bytes grants a request for almost every address there is. */
  lemma HugeRequestIsGranted() returns (l: Layout, s: HeapState)
    ensures l == Layout(4, 8, 2, 0x1_0000_0000) && Roomy(l)
    ensures s == AddOp(HeapState([], 0, map[], []), 4096, 100) && HeapInv(l, s)
    ensures var (p, t) := AllocOp(l, s, 0xffff_ffff);
            && p.Some? && p.value - 6 in t.blocks
            && p.value + 0xffff_ffff > p.value - 6 + t.blocks[p.value - 6]
  {
    l := Layout(4, 8, 2, 0x1_0000_0000);
    var none := HeapState([], 0, map[], []);
    s := AddOp(none, 4096, 100);
    assert HeapInv(l, none);
    AddKeepsInv(l, none, 4096, 100);
    assert s.holes == [Extent(4096, 100)];
    assert s.holes[0].size >= l.Required(0xffff_ffff);
    AllocSucceeds(l, s, 0xffff_ffff);
    AllocFitsExactly(l, s, 0xffff_ffff);
  }

  /** What the release scan does at hole `i`. */
  lemma ReleaseAt(hs: seq<Extent>, b: Extent, i: nat)
    requires i < |hs|
    ensures Release(hs[i..], b) ==
            var h := hs[i];
            if h.End() == b.addr then
              var m := Extent(h.addr, h.size + b.size);
              if i + 1 < |hs| && m.End() == hs[i + 1].addr then [Extent(m.addr, m.size + hs[i + 1].size)] + hs[i + 2..]
              else [m] + hs[i + 1..]
            else if h.addr > b.addr then
              if b.End() == h.addr then [Extent(b.addr, b.size + h.size)] + hs[i + 1..] else [b] + hs[i..]
            else [h] + Release(hs[i + 1..], b)
  {
    var t := hs[i..];
    assert t[0] == hs[i] && t[1..] == hs[i + 1..];
    assert i + 1 < |hs| ==> t[1..][0] == hs[i + 1] && t[1..][1..] == hs[i + 2..];
  }

  lemma Regroup(hs: seq<Extent>, i: nat, r: seq<Extent>)
    requires i < |hs|
    ensures hs[..i] + ([hs[i]] + r) == hs[..i + 1] + r
  {
  }

  // ---------- the allocator in place ----------

  class Heap {
    const layout: Layout
    var holes: seq<Extent>
    var freeRam: int
    var headers: map<nat, nat>  // the size word in front of each allocated block
    ghost var regions: seq<Extent>

    ghost function View(): HeapState
      reads this
    {
      HeapState(holes, freeRam, headers, regions)
    }

    constructor (l: Layout)
      ensures layout == l && View() == HeapState([], 0, map[], [])
    {
      layout, holes, freeRam, headers, regions := l, [], 0, map[], [];
    }

    /** Scan the whole list for the smallest sufficient hole, leaving early on an exact match. */
    method FindHole(required: nat) returns (use: Option<nat>)
      ensures use == BestFit(holes, required)
    {
      use := None;
      var i := 0;
      while i < |holes|
        invariant 0 <= i <= |holes|
        invariant forall j | 0 <= j < i :: holes[j].size != required
        invariant use.None? ==> forall j | 0 <= j < i :: holes[j].size < required
        invariant use.Some? ==> use.value < i && IsBestFit(holes[..i], required, use.value)
      {
        if holes[i].size == required {
          BestFitIsUnique(holes, required, i);
          return Some(i);
        } else if holes[i].size > required {
          if use.None? || holes[use.value].size > holes[i].size {
            use := Some(i);
          }
        }
        i := i + 1;
      }
      assert holes[..i] == holes;
      if use.Some? {
        BestFitIsUnique(holes, required, use.value);
      }
    }

    method Alloc(size: nat) returns (p: Option<nat>)
      modifies this
      ensures (p, View()) == AllocOp(layout, old(View()), size)
    {
      var required := layout.Required(size);
      var use := FindHole(required);
      p := None;
      if use.Some? {
        var i := use.value;
        var h := holes[i];
        var taken := required;
        if h.size - required > layout.Slack() {
          holes := holes[i := Extent(h.addr + required, h.size - required)];
        } else {
          taken := h.size;
          holes := holes[..i] + holes[i + 1..];
        }
        headers := headers[h.addr := taken];
        freeRam := freeRam - taken;
        p := Some(h.addr + layout.block + layout.magic);
      }
    }

    /** At hole `i`: merge the released extent with its neighbours, link it in before the hole, or move on. */
    static method MergeAt(hs: seq<Extent>, b: Extent, i: nat) returns (done: bool, t: seq<Extent>)
      requires i < |hs|
      ensures Release(hs[i..], b) == if done then t else [hs[i]] + Release(hs[i + 1..], b)
    {
      ReleaseAt(hs, b, i);
      var h := hs[i];
      done, t := true, [];
      if h.End() == b.addr {
        var m := Extent(h.addr, h.size + b.size);
        if i + 1 < |hs| && m.End() == hs[i + 1].addr {
          t := [Extent(m.addr, m.size + hs[i + 1].size)] + hs[i + 2..];
        } else {
          t := [m] + hs[i + 1..];
        }
      } else if h.addr > b.addr {
        if b.End() == h.addr {
          t := [Extent(b.addr, b.size + h.size)] + hs[i + 1..];
        } else {
          t := [b] + hs[i..];
        }
      } else {
        done := false;
      }
    }

    /** Walk the hole list until the released extent has found its place. */
    method Coalesce(b: Extent)
      modifies this`holes
      ensures holes == Release(old(holes), b)
    {
      ghost var goal := Release(holes, b);
      var i := 0;
      assert holes[0..] == holes && holes[..0] + goal == goal;
      while i < |holes|
        invariant 0 <= i <= |holes| && holes == old(holes)
        invariant goal == holes[..i] + Release(holes[i..], b)
      {
        var done, t := MergeAt(holes, b, i);
        if done {
          holes := holes[..i] + t;
          return;
        }
        Regroup(holes, i, Release(holes[i + 1..], b));
        i := i + 1;
      }
      assert holes[..i] == holes && holes[i..] == [];
      holes := holes + [b];
    }

    /** Release the block for which address `p` was returned. */
    method Free(p: nat)
      requires p >= layout.block + layout.magic && p - layout.block - layout.magic in headers
      modifies this
      ensures View() == FreeOp(old(View()), p - layout.block - layout.magic)
    {
      var a := p - layout.magic - layout.block;
      var size := headers[a];
      freeRam := freeRam + size;
      headers := headers - {a};
      Coalesce(Extent(a, size));
    }

    method Add(a: nat, size: nat)
      modifies this
      ensures View() == AddOp(old(View()), a, size)
    {
      headers := headers[a := size];
      regions := regions + [Extent(a, size)];
      Free(a + layout.block + layout.magic);
    }

    /** In every reachable state the free counter is exactly the memory in the holes. */
    method GetFree() returns (r: int)
      requires HeapInv(layout, View())
      ensures r == Sum(holes) == Sum(regions) - Total(headers)
    {
      r := freeRam;
    }
  }
}
