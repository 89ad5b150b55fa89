/**
 The ARP cache of an Ethernet IP instance: eight slots stamped with a counter, against a least-recently-used list.
 */
module Arp {
  import opened Collections

  type Ip = nat
  type Mac = nat

  datatype Slot = Slot(ip: Ip, mac: Mac, age: nat)

  datatype Cache = Cache(slots: seq<Slot>, age: nat)

  const SLOTS: nat := 8
  const MAX_AGE: nat := 0xffff_ffff

  function NextAge(age: nat): nat {
    if age == MAX_AGE then 0 else age + 1
  }

  /** The slot an address is written to, scanning from slot `i`: its own slot, or the first with the lowest stamp. */
  function Scan(slots: seq<Slot>, ip: Ip, i: nat, oldest: nat, oldAge: nat): nat
    decreases |slots| - i
  {
    if i >= |slots| then oldest
    else if slots[i].ip == ip then i
    else if slots[i].age < oldAge then Scan(slots, ip, i + 1, i, slots[i].age)
    else Scan(slots, ip, i + 1, oldest, oldAge)
  }

  /** The first slot from `i` on that holds an address. */
  function Place(slots: seq<Slot>, ip: Ip, i: nat): nat
    decreases |slots| - i
  {
    if i >= |slots| || slots[i].ip == ip then i else Place(slots, ip, i + 1)
  }

  lemma {:induction false} PlaceFinds(slots: seq<Slot>, ip: Ip, i: nat)
    requires i <= |slots|
    ensures i <= Place(slots, ip, i) <= |slots|
    ensures Place(slots, ip, i) < |slots| ==> slots[Place(slots, ip, i)].ip == ip
    ensures forall j | i <= j < Place(slots, ip, i) :: slots[j].ip != ip
    decreases |slots| - i
  {
    if i < |slots| && slots[i].ip != ip {
      PlaceFinds(slots, ip, i + 1);
    }
  }

  lemma {:induction false} ScanFinds(slots: seq<Slot>, ip: Ip, i: nat, oldest: nat, oldAge: nat)
    requires i <= |slots| && oldest < |slots|
    requires forall j | 0 <= j < |slots| :: slots[j].age <= MAX_AGE
    requires forall j | 0 <= j < i :: slots[j].ip != ip && oldAge <= slots[j].age
    requires (i == 0 && oldest == 0 && oldAge == MAX_AGE) || (oldest < i && oldAge == slots[oldest].age)
    ensures var r := Scan(slots, ip, i, oldest, oldAge);
            && r < |slots|
            && (slots[r].ip == ip || forall j | 0 <= j < |slots| :: slots[j].ip != ip && slots[r].age <= slots[j].age)
    decreases |slots| - i
  {
    if i < |slots| && slots[i].ip != ip {
      if slots[i].age < oldAge {
        ScanFinds(slots, ip, i + 1, i, slots[i].age);
      } else {
        ScanFinds(slots, ip, i + 1, oldest, oldAge);
      }
    }
  }

  function Add(c: Cache, ip: Ip, mac: Mac): Cache
    requires |c.slots| == SLOTS
  {
    var r := Scan(c.slots, ip, 0, 0, MAX_AGE);
    if r < SLOTS then Cache(c.slots[r := Slot(ip, mac, c.age)], NextAge(c.age)) else c
  }

  function Find(c: Cache, ip: Ip): (Cache, Option<Mac>)
    requires |c.slots| == SLOTS
  {
    var i := Place(c.slots, ip, 0);
    if i < SLOTS then (Cache(c.slots[i := c.slots[i].(age := c.age)], NextAge(c.age)), Some(c.slots[i].mac))
    else (c, None)
  }

  function Boot(): Cache {
    Cache(seq(SLOTS, _ => Slot(0, 0, 0)), 1)
  }

  // ---------- the list it stands for ----------

  datatype Entry = Entry(ip: Ip, mac: Mac)

  function IndexIn(list: seq<Entry>, ip: Ip): (i: nat)
    ensures i <= |list|
    ensures i < |list| ==> list[i].ip == ip
    ensures forall j | 0 <= j < i :: list[j].ip != ip
  {
    if list == [] || list[0].ip == ip then 0 else 1 + IndexIn(list[1..], ip)
  }

  function RemoveAt<T>(s: seq<T>, i: nat): seq<T>
    requires i < |s|
  {
    s[..i] + s[i + 1..]
  }

  /** Every address but one, in order. */
  function Others(list: seq<Entry>, ip: Ip): seq<Entry> {
    var i := IndexIn(list, ip);
    if i < |list| then RemoveAt(list, i) else list
  }

  function FirstEight(list: seq<Entry>): seq<Entry> {
    if |list| <= SLOTS then list else list[..SLOTS]
  }

  /** An address that is added goes to the front. */
  function Announce(list: seq<Entry>, ip: Ip, mac: Mac): seq<Entry> {
    [Entry(ip, mac)] + Others(list, ip)
  }

  /** An address that is looked up goes to the front if it is there. */
  function LookUp(list: seq<Entry>, ip: Ip): seq<Entry> {
    var i := IndexIn(list, ip);
    if i < |list| then [list[i]] + RemoveAt(list, i) else list
  }

  ghost predicate Newer(slots: seq<Slot>, a: nat, b: nat) {
    a < |slots| && b < |slots| && slots[b].age < slots[a].age
  }

  ghost predicate InRange(order: seq<nat>) {
    forall i | 0 <= i < |order| :: order[i] < SLOTS
  }

  ghost predicate NewestFirst(slots: seq<Slot>, order: seq<nat>) {
    forall i, j | 0 <= i < j < |order| :: Newer(slots, order[i], order[j])
  }

  ghost predicate InUse(slot: Slot, age: nat) {
    0 < slot.age < age && slot.ip != 0
  }

  /** `order` lists the slots in use, newest stamp first; every stamp is below `age`. */
  ghost predicate Ranked(slots: seq<Slot>, age: nat, order: seq<nat>) {
    && |slots| == SLOTS
    && InRange(order)
    && NewestFirst(slots, order)
    && (forall i | 0 <= i < |order| :: InUse(slots[order[i]], age))
    && (forall s | 0 <= s < SLOTS && s !in order :: slots[s].age == 0 && slots[s].ip == 0)
  }

  ghost predicate Shows(slots: seq<Slot>, order: seq<nat>, list: seq<Entry>) {
    && |list| == |order|
    && forall i | 0 <= i < |order| :: order[i] < |slots| && list[i] == Entry(slots[order[i]].ip, slots[order[i]].mac)
  }

  ghost predicate NoIpTwice(list: seq<Entry>) {
    forall i, j | 0 <= i < j < |list| :: list[i].ip != list[j].ip
  }

  ghost predicate Refines(c: Cache, order: seq<nat>, list: seq<Entry>) {
    Ranked(c.slots, c.age, order) && Shows(c.slots, order, list) && NoIpTwice(list)
  }

  ghost function Below(n: nat): (r: set<nat>)
    ensures |r| == n && forall s: nat :: s in r <==> s < n
  {
    if n == 0 then {} else Below(n - 1) + {n - 1}
  }

  lemma IndicesFit(order: seq<nat>, n: nat)
    requires Apart(order) && forall i | 0 <= i < |order| :: order[i] < n
    ensures |order| <= n
    ensures |order| == n ==> forall s: nat | s < n :: s in order
    ensures |order| < n ==> exists s: nat | s < n :: s !in order
  {
    ApartSize(order);
    SubsetSize(Members(order), Below(n));
    if |order| == n {
      forall s: nat | s < n ensures s in order {
        assert Below(n) - Members(order) == {};
        assert s in Below(n);
      }
    } else {
      var s :| s in Below(n) - Members(order);
      assert s !in order;
    }
  }

  lemma RankedIsApart(slots: seq<Slot>, age: nat, order: seq<nat>)
    requires Ranked(slots, age, order)
    ensures Apart(order) && |order| <= SLOTS
    ensures |order| == SLOTS ==> forall s: nat | s < SLOTS :: s in order
    ensures |order| < SLOTS ==> exists s: nat | s < SLOTS :: s !in order
  {
    forall i, j | 0 <= i < j < |order| ensures order[i] != order[j] {
      assert Newer(slots, order[i], order[j]);
    }
    IndicesFit(order, SLOTS);
  }

  lemma RemovedIn(order: seq<nat>, k: nat, s: nat)
    requires k < |order| && Apart(order)
    ensures s in RemoveAt(order, k) <==> s in order && s != order[k]
  {
    assert order == order[..k] + [order[k]] + order[k + 1..];
  }

  lemma RemovedAt(order: seq<nat>, k: nat, i: nat)
    requires k < |order| && i < |order| - 1 && Apart(order)
    ensures RemoveAt(order, k)[i] == order[if i < k then i else i + 1] && RemoveAt(order, k)[i] != order[k]
  {
  }

  lemma RemovedInOrder(slots: seq<Slot>, order: seq<nat>, k: nat)
    requires InRange(order) && NewestFirst(slots, order) && Apart(order) && k < |order|
    ensures InRange(RemoveAt(order, k)) && NewestFirst(slots, RemoveAt(order, k))
    ensures forall i | 0 <= i < |order| - 1 :: RemoveAt(order, k)[i] != order[k] && RemoveAt(order, k)[i] in order
  {
    var rest := RemoveAt(order, k);
    forall i | 0 <= i < |rest| ensures rest[i] == order[if i < k then i else i + 1] && rest[i] != order[k] {
      RemovedAt(order, k, i);
    }
  }

  /** A slot stamped `age`, above all others, goes to the front. */
  lemma NewestToFront(slots: seq<Slot>, age: nat, rest: seq<nat>, r: nat, slot: Slot)
    requires |slots| == SLOTS && r < SLOTS && slot.age == age && InRange(rest) && NewestFirst(slots, rest)
    requires forall i | 0 <= i < |rest| :: rest[i] != r && InUse(slots[rest[i]], age)
    ensures NewestFirst(slots[r := slot], [r] + rest)
  {
    var slots', order' := slots[r := slot], [r] + rest;
    forall i, j | 0 <= i < j < |order'| ensures Newer(slots', order'[i], order'[j]) {
      assert order'[j] == rest[j - 1];
      if i > 0 {
        assert Newer(slots, rest[i - 1], rest[j - 1]);
      }
    }
  }

  /** A slot that was the k-th most recent is stamped anew. */
  lemma RestampKeepsRank(slots: seq<Slot>, age: nat, order: seq<nat>, k: nat, ip: Ip, mac: Mac)
    requires Ranked(slots, age, order) && Apart(order) && k < |order| && ip != 0 && age > 0
    ensures Ranked(slots[order[k] := Slot(ip, mac, age)], age + 1, [order[k]] + RemoveAt(order, k))
  {
    var r, rest := order[k], RemoveAt(order, k);
    RemovedInOrder(slots, order, k);
    forall i | 0 <= i < |rest| ensures InUse(slots[rest[i]], age) {
      var n :| 0 <= n < |order| && order[n] == rest[i];
    }
    NewestToFront(slots, age, rest, r, Slot(ip, mac, age));
    forall s: nat | s < SLOTS && s !in [r] + rest ensures s !in order {
      RemovedIn(order, k, s);
    }
  }

  /** A slot that was not in use is stamped. */
  lemma StampKeepsRank(slots: seq<Slot>, age: nat, order: seq<nat>, r: nat, ip: Ip, mac: Mac)
    requires Ranked(slots, age, order) && r < SLOTS && r !in order && ip != 0 && age > 0
    ensures Ranked(slots[r := Slot(ip, mac, age)], age + 1, [r] + order)
  {
  }

  lemma ShowsRestamped(slots: seq<Slot>, order: seq<nat>, list: seq<Entry>, k: nat, ip: Ip, mac: Mac, age: nat)
    requires Shows(slots, order, list) && Apart(order) && k < |order|
    ensures Shows(slots[order[k] := Slot(ip, mac, age)], [order[k]] + RemoveAt(order, k),
            [Entry(ip, mac)] + RemoveAt(list, k))
  {
    var slots' := slots[order[k] := Slot(ip, mac, age)];
    forall i | 0 <= i < |order| - 1
      ensures RemoveAt(order, k)[i] < |slots| && slots'[RemoveAt(order, k)[i]] == slots[RemoveAt(order, k)[i]]
      ensures RemoveAt(list, k)[i] == Entry(slots[RemoveAt(order, k)[i]].ip, slots[RemoveAt(order, k)[i]].mac)
    {
      RemovedAt(order, k, i);
    }
  }

  ghost predicate Lacks(list: seq<Entry>, ip: Ip) {
    forall j | 0 <= j < |list| :: list[j].ip != ip
  }

  lemma FrontIsNew(list: seq<Entry>, e: Entry)
    requires NoIpTwice(list) && Lacks(list, e.ip)
    ensures NoIpTwice([e] + list)
  {
  }

  lemma RemovedLacks(list: seq<Entry>, k: nat)
    requires NoIpTwice(list) && k < |list|
    ensures NoIpTwice(RemoveAt(list, k)) && Lacks(RemoveAt(list, k), list[k].ip)
  {
  }

  lemma IndexIs(list: seq<Entry>, ip: Ip, k: nat)
    requires NoIpTwice(list) && k < |list| && list[k].ip == ip
    ensures IndexIn(list, ip) == k
  {
    var i := IndexIn(list, ip);
    assert i <= k;
  }

  /** The address already has a slot, the k-th most recent. */
  lemma AddAgain(c: Cache, order: seq<nat>, list: seq<Entry>, k: nat, ip: Ip, mac: Mac) returns (order': seq<nat>)
    requires Refines(c, order, list) && ip != 0 && 0 < c.age && k < |order| && list[k].ip == ip
    ensures Refines(Cache(c.slots[order[k] := Slot(ip, mac, c.age)], c.age + 1), order', Announce(list, ip, mac))
    ensures |Announce(list, ip, mac)| == |list|
  {
    RankedIsApart(c.slots, c.age, order);
    IndexIs(list, ip, k);
    order' := [order[k]] + RemoveAt(order, k);
    RestampKeepsRank(c.slots, c.age, order, k, ip, mac);
    ShowsRestamped(c.slots, order, list, k, ip, mac, c.age);
    RemovedLacks(list, k);
    FrontIsNew(RemoveAt(list, k), Entry(ip, mac));
  }

  /** A new address takes a slot that was not in use. */
  lemma AddToUnused(c: Cache, order: seq<nat>, list: seq<Entry>, r: nat, ip: Ip, mac: Mac) returns (order': seq<nat>)
    requires Refines(c, order, list) && ip != 0 && 0 < c.age && r < SLOTS && r !in order && Lacks(list, ip)
    ensures Refines(Cache(c.slots[r := Slot(ip, mac, c.age)], c.age + 1), order', Announce(list, ip, mac))
    ensures |Announce(list, ip, mac)| == |list| + 1
  {
    order' := [r] + order;
    StampKeepsRank(c.slots, c.age, order, r, ip, mac);
    FrontIsNew(list, Entry(ip, mac));
  }

  lemma EightOfNine(list: seq<Entry>, ip: Ip, mac: Mac)
    requires |list| == SLOTS && Lacks(list, ip)
    ensures FirstEight(Announce(list, ip, mac)) == [Entry(ip, mac)] + RemoveAt(list, 7)
  {
    assert IndexIn(list, ip) == |list|;
  }

  /** A new address takes the slot that was used longest ago. */
  lemma AddToOldest(c: Cache, order: seq<nat>, list: seq<Entry>, ip: Ip, mac: Mac) returns (order': seq<nat>)
    requires Refines(c, order, list) && ip != 0 && 0 < c.age && |order| == SLOTS && Lacks(list, ip)
    ensures Refines(Cache(c.slots[order[7] := Slot(ip, mac, c.age)], c.age + 1), order',
            FirstEight(Announce(list, ip, mac)))
  {
    RankedIsApart(c.slots, c.age, order);
    order' := [order[7]] + RemoveAt(order, 7);
    RestampKeepsRank(c.slots, c.age, order, 7, ip, mac);
    ShowsRestamped(c.slots, order, list, 7, ip, mac, c.age);
    RemovedLacks(list, 7);
    FrontIsNew(RemoveAt(list, 7), Entry(ip, mac));
    EightOfNine(list, ip, mac);
  }

  lemma ScanFromStart(c: Cache, order: seq<nat>, ip: Ip) returns (r: nat)
    requires Ranked(c.slots, c.age, order) && c.age <= MAX_AGE + 1
    ensures r == Scan(c.slots, ip, 0, 0, MAX_AGE) < SLOTS
    ensures c.slots[r].ip == ip || forall j | 0 <= j < SLOTS :: c.slots[j].ip != ip && c.slots[r].age <= c.slots[j].age
  {
    r := Scan(c.slots, ip, 0, 0, MAX_AGE);
    forall j | 0 <= j < SLOTS ensures c.slots[j].age <= MAX_AGE {
      if j in order {
        var i :| 0 <= i < |order| && order[i] == j;
      }
    }
    ScanFinds(c.slots, ip, 0, 0, MAX_AGE);
  }

  /** The slots hold no address that the list lacks. */
  lemma ListLacks(c: Cache, order: seq<nat>, list: seq<Entry>, ip: Ip)
    requires Refines(c, order, list) && forall j | 0 <= j < SLOTS :: c.slots[j].ip != ip
    ensures Lacks(list, ip)
  {
    forall i | 0 <= i < |list| ensures list[i].ip != ip {
      assert c.slots[order[i]].ip != ip;
    }
  }

  /** With all slots in use the lowest stamp is the last in the order. */
  lemma LowestIsLast(c: Cache, order: seq<nat>, r: nat)
    requires Ranked(c.slots, c.age, order) && |order| == SLOTS && r < SLOTS
    requires forall j | 0 <= j < SLOTS :: c.slots[r].age <= c.slots[j].age
    ensures r == order[7]
  {
    RankedIsApart(c.slots, c.age, order);
    assert r in order;
    var k :| 0 <= k < |order| && order[k] == r;
    assert k == 7 || Newer(c.slots, order[k], order[7]);
  }

  /** Writing an address to slot `r`, which already holds it. */
  lemma AddKnown(c: Cache, order: seq<nat>, list: seq<Entry>, r: nat, ip: Ip, mac: Mac) returns (order': seq<nat>)
    requires Refines(c, order, list) && ip != 0 && 0 < c.age && r < SLOTS && c.slots[r].ip == ip
    ensures Refines(Cache(c.slots[r := Slot(ip, mac, c.age)], c.age + 1), order', FirstEight(Announce(list, ip, mac)))
  {
    RankedIsApart(c.slots, c.age, order);
    assert r in order;
    var k :| 0 <= k < |order| && order[k] == r;
    order' := AddAgain(c, order, list, k, ip, mac);
  }

  /** Writing an address that has no slot to the slot with the lowest stamp. */
  lemma AddNew(c: Cache, order: seq<nat>, list: seq<Entry>, r: nat, ip: Ip, mac: Mac) returns (order': seq<nat>)
    requires Refines(c, order, list) && ip != 0 && 0 < c.age && r < SLOTS && Lacks(list, ip)
    requires forall j | 0 <= j < SLOTS :: c.slots[r].age <= c.slots[j].age
    ensures Refines(Cache(c.slots[r := Slot(ip, mac, c.age)], c.age + 1), order', FirstEight(Announce(list, ip, mac)))
  {
    RankedIsApart(c.slots, c.age, order);
    if |order| < SLOTS {
      var s: nat :| s < SLOTS && s !in order;
      assert c.slots[r].age <= c.slots[s].age;
      order' := AddToUnused(c, order, list, r, ip, mac);
    } else {
      LowestIsLast(c, order, r);
      order' := AddToOldest(c, order, list, ip, mac);
    }
  }

  /** Adding with stamp `c.age`, which need not fit the counter, is adding to the list and keeping its first eight. */
  lemma AddRefines(c: Cache, order: seq<nat>, list: seq<Entry>, ip: Ip, mac: Mac) returns (r: nat, order': seq<nat>)
    requires Refines(c, order, list) && ip != 0 && 0 < c.age <= MAX_AGE + 1
    ensures r == Scan(c.slots, ip, 0, 0, MAX_AGE) < SLOTS
    ensures Refines(Cache(c.slots[r := Slot(ip, mac, c.age)], c.age + 1), order', FirstEight(Announce(list, ip, mac)))
  {
    r := ScanFromStart(c, order, ip);
    if c.slots[r].ip == ip {
      order' := AddKnown(c, order, list, r, ip, mac);
    } else {
      ListLacks(c, order, list, ip);
      order' := AddNew(c, order, list, r, ip, mac);
    }
  }

  /** Stamping slot `s` anew, which holds the address. */
  lemma FindKnown(c: Cache, order: seq<nat>, list: seq<Entry>, s: nat, ip: Ip) returns (order': seq<nat>)
    requires Refines(c, order, list) && ip != 0 && 0 < c.age && s < SLOTS && c.slots[s].ip == ip
    ensures Refines(Cache(c.slots[s := Slot(ip, c.slots[s].mac, c.age)], c.age + 1), order', LookUp(list, ip))
    ensures IndexIn(list, ip) < |list| && list[IndexIn(list, ip)].mac == c.slots[s].mac
  {
    RankedIsApart(c.slots, c.age, order);
    assert s in order;
    var k :| 0 <= k < |order| && order[k] == s;
    IndexIs(list, ip, k);
    order' := AddAgain(c, order, list, k, ip, c.slots[s].mac);
  }

  /** A lookup answers as the list does; stamping with `c.age` moves the address to its front. */
  lemma FindRefines(c: Cache, order: seq<nat>, list: seq<Entry>, ip: Ip) returns (s: nat, order': seq<nat>)
    requires Refines(c, order, list) && ip != 0 && 0 < c.age
    ensures s == Place(c.slots, ip, 0) <= SLOTS
    ensures s < SLOTS ==> Refines(Cache(c.slots[s := c.slots[s].(age := c.age)], c.age + 1), order', LookUp(list, ip))
    ensures s == SLOTS ==> order' == order && LookUp(list, ip) == list
    ensures var i := IndexIn(list, ip); Find(c, ip).1 == if i < |list| then Some(list[i].mac) else None
  {
    PlaceFinds(c.slots, ip, 0);
    s := Place(c.slots, ip, 0);
    if s < SLOTS {
      order' := FindKnown(c, order, list, s, ip);
    } else {
      order' := order;
      ListLacks(c, order, list, ip);
    }
  }

  // ---------- whole histories ----------

  datatype ArpOp = Adding(ip: Ip, mac: Mac) | Finding(ip: Ip)

  datatype History = Start | After(before: History, op: ArpOp)

  function Run(h: History): (c: Cache)
    ensures |c.slots| == SLOTS
  {
    match h
    case Start => Boot()
    case After(before, Adding(ip, mac)) => Add(Run(before), ip, mac)
    case After(before, Finding(ip)) => Find(Run(before), ip).0
  }

  ghost predicate Nonzero(h: History) {
    h.Start? || (h.op.ip != 0 && Nonzero(h.before))
  }

  ghost function Length(h: History): nat {
    if h.Start? then 0 else 1 + Length(h.before)
  }

  /** Every address ever added, the most recently touched first; a lookup touches what it finds. */
  ghost function Recency(h: History): seq<Entry> {
    match h
    case Start => []
    case After(before, Adding(ip, mac)) => Announce(Recency(before), ip, mac)
    case After(before, Finding(ip)) =>
      var list := Recency(before);
      if IndexIn(list, ip) < SLOTS then LookUp(list, ip) else list
  }

  /** The hardware address last added for an address. */
  ghost function LastMac(h: History, ip: Ip): Option<Mac> {
    match h
    case Start => None
    case After(before, Adding(i, mac)) => if i == ip then Some(mac) else LastMac(before, ip)
    case After(before, Finding(_)) => LastMac(before, ip)
  }

  ghost predicate UpToDate(h: History, list: seq<Entry>) {
    && NoIpTwice(list)
    && (forall i | 0 <= i < |list| :: LastMac(h, list[i].ip) == Some(list[i].mac))
    && (forall ip: Ip :: LastMac(h, ip).Some? ==> IndexIn(list, ip) < |list|)
  }

  lemma LookUpKeepsMembers(list: seq<Entry>, ip: Ip, x: Ip)
    requires NoIpTwice(list)
    ensures NoIpTwice(LookUp(list, ip))
    ensures IndexIn(list, x) < |list| ==> IndexIn(LookUp(list, ip), x) < |list|
  {
    var k, i := IndexIn(list, ip), IndexIn(list, x);
    var moved := LookUp(list, ip);
    if k < |list| {
      RemovedLacks(list, k);
      FrontIsNew(RemoveAt(list, k), list[k]);
      if i < |list| {
        assert moved[if i < k then i + 1 else if i == k then 0 else i] == list[i];
        IndexIs(moved, x, if i < k then i + 1 else if i == k then 0 else i);
      }
    }
  }

  lemma AnnounceIsNew(list: seq<Entry>, ip: Ip, mac: Mac)
    requires NoIpTwice(list)
    ensures NoIpTwice(Announce(list, ip, mac)) && Announce(list, ip, mac)[0] == Entry(ip, mac)
  {
    var k := IndexIn(list, ip);
    if k < |list| {
      RemovedLacks(list, k);
    }
    FrontIsNew(Others(list, ip), Entry(ip, mac));
  }

  lemma HasIndex(list: seq<Entry>, n: nat)
    requires n < |list|
    ensures IndexIn(list, list[n].ip) <= n
  {
  }

  lemma AnnounceKeepsMembers(list: seq<Entry>, ip: Ip, mac: Mac, x: Ip)
    requires IndexIn(list, x) < |list| || x == ip
    ensures IndexIn(Announce(list, ip, mac), x) < |Announce(list, ip, mac)|
  {
    var k, i := IndexIn(list, ip), IndexIn(list, x);
    var others := Others(list, ip);
    if x == ip {
      HasIndex([Entry(ip, mac)] + others, 0);
    } else if i < k {
      assert others[i] == list[i];
      HasIndex([Entry(ip, mac)] + others, i + 1);
    } else {
      assert others[i - 1] == list[i];
      HasIndex([Entry(ip, mac)] + others, i);
    }
  }

  lemma OthersAreFromList(list: seq<Entry>, ip: Ip, i: nat)
    requires NoIpTwice(list) && i < |Others(list, ip)|
    ensures Others(list, ip)[i] in list && Others(list, ip)[i].ip != ip
  {
    var k := IndexIn(list, ip);
    if k < |list| {
      RemovedLacks(list, k);
    }
  }

  /** The recency list holds each address ever added, once, with the hardware address last added for it. */
  lemma {:induction false} RecencyIsUpToDate(h: History)
    ensures UpToDate(h, Recency(h))
  {
    match h
    case Start =>
    case After(before, Adding(ip, mac)) =>
      RecencyIsUpToDate(before);
      AddingIsUpToDate(before, Recency(before), ip, mac);
    case After(before, Finding(ip)) =>
      RecencyIsUpToDate(before);
      FindingIsUpToDate(before, Recency(before), ip);
  }

  lemma AddingIsUpToDate(before: History, list: seq<Entry>, ip: Ip, mac: Mac)
    requires UpToDate(before, list)
    ensures UpToDate(After(before, Adding(ip, mac)), Announce(list, ip, mac))
  {
    var h, r := After(before, Adding(ip, mac)), Announce(list, ip, mac);
    AnnounceIsNew(list, ip, mac);
    forall i | 0 <= i < |r| ensures LastMac(h, r[i].ip) == Some(r[i].mac) {
      if i > 0 {
        OthersAreFromList(list, ip, i - 1);
      }
    }
    forall x: Ip | LastMac(h, x).Some? ensures IndexIn(r, x) < |r| {
      AnnounceKeepsMembers(list, ip, mac, x);
    }
  }

  lemma FindingIsUpToDate(before: History, list: seq<Entry>, ip: Ip)
    requires UpToDate(before, list)
    ensures UpToDate(After(before, Finding(ip)), list) && UpToDate(After(before, Finding(ip)), LookUp(list, ip))
  {
    var h, r := After(before, Finding(ip)), LookUp(list, ip);
    LookUpKeepsMembers(list, ip, ip);
    forall x: Ip | LastMac(h, x).Some? ensures IndexIn(r, x) < |r| {
      LookUpKeepsMembers(list, ip, x);
    }
  }

  lemma IndexInFirstEight(list: seq<Entry>, ip: Ip)
    ensures var i := IndexIn(list, ip);
            IndexIn(FirstEight(list), ip) == if i < |FirstEight(list)| then i else |FirstEight(list)|
  {
    var i, j := IndexIn(list, ip), IndexIn(FirstEight(list), ip);
    if j < |FirstEight(list)| && i < |list| {
      assert FirstEight(list)[j] == list[j];
      if i < |FirstEight(list)| {
        assert FirstEight(list)[i] == list[i];
      }
    }
  }

  lemma RemoveWithin(list: seq<Entry>, i: nat)
    requires i < SLOTS < |list|
    ensures RemoveAt(list[..SLOTS], i) == RemoveAt(list, i)[..7]
  {
  }

  lemma FrontOfEight(e: Entry, list: seq<Entry>)
    requires |list| >= SLOTS
    ensures FirstEight([e] + list) == [e] + list[..7]
  {
  }

  lemma AnnounceToFirstEight(list: seq<Entry>, ip: Ip, mac: Mac)
    requires NoIpTwice(list)
    ensures FirstEight(Announce(FirstEight(list), ip, mac)) == FirstEight(Announce(list, ip, mac))
  {
    IndexInFirstEight(list, ip);
    var i, e := IndexIn(list, ip), Entry(ip, mac);
    if |list| > SLOTS {
      FrontOfEight(e, Others(list, ip));
      if i < SLOTS {
        RemoveWithin(list, i);
      } else {
        FrontOfEight(e, list[..SLOTS]);
        assert Others(list, ip)[..7] == list[..7] == list[..SLOTS][..7];
      }
    }
  }

  lemma LookUpInFirstEight(list: seq<Entry>, ip: Ip)
    requires NoIpTwice(list)
    ensures LookUp(FirstEight(list), ip) == FirstEight(if IndexIn(list, ip) < SLOTS then LookUp(list, ip) else list)
  {
    IndexInFirstEight(list, ip);
    var i := IndexIn(list, ip);
    if i < SLOTS < |list| {
      RemoveWithin(list, i);
      FrontOfEight(list[i], RemoveAt(list, i));
    }
  }

  lemma BootRefines()
    ensures Refines(Boot(), [], [])
  {
  }

  /** Every operation takes a stamp. */
  ghost predicate OnlyAdds(h: History) {
    h.Start? || (h.op.Adding? && OnlyAdds(h.before))
  }

  /** What the 32-bit counter shows when `stamp` is next. */
  ghost function Shown(stamp: nat): nat {
    if stamp <= MAX_AGE then stamp else 0
  }

  /** The cache holds the list, and `stamp` is next. */
  ghost predicate RunsAt(c: Cache, stamp: nat, order: seq<nat>, list: seq<Entry>) {
    0 < stamp && c.age == Shown(stamp) && Refines(Cache(c.slots, stamp), order, FirstEight(list))
  }

  lemma AddRuns(c: Cache, stamp: nat, order: seq<nat>, list: seq<Entry>, ip: Ip, mac: Mac) returns (order': seq<nat>)
    requires RunsAt(c, stamp, order, list) && NoIpTwice(list) && stamp <= MAX_AGE && ip != 0
    ensures RunsAt(Add(c, ip, mac), stamp + 1, order', Announce(list, ip, mac))
  {
    var r, next := AddRefines(Cache(c.slots, stamp), order, FirstEight(list), ip, mac);
    order' := next;
    AnnounceToFirstEight(list, ip, mac);
  }

  lemma FindRuns(c: Cache, stamp: nat, order: seq<nat>, list: seq<Entry>, ip: Ip)
      returns (stamp': nat, order': seq<nat>)
    requires RunsAt(c, stamp, order, list) && NoIpTwice(list) && stamp <= MAX_AGE && ip != 0
    ensures stamp <= stamp' <= stamp + 1
    ensures RunsAt(Find(c, ip).0, stamp', order', if IndexIn(list, ip) < SLOTS then LookUp(list, ip) else list)
  {
    var s, next := FindRefines(Cache(c.slots, stamp), order, FirstEight(list), ip);
    order' := next;
    LookUpInFirstEight(list, ip);
    stamp' := if s < SLOTS then stamp + 1 else stamp;
  }

  /** Until the counter has been used up the cache is the list, stamps in order. */
  lemma {:induction false} RunRefines(h: History) returns (stamp: nat, order: seq<nat>)
    requires Nonzero(h) && Length(h) <= MAX_AGE
    ensures RunsAt(Run(h), stamp, order, Recency(h)) && stamp <= Length(h) + 1
    ensures OnlyAdds(h) ==> stamp == Length(h) + 1
  {
    match h
    case Start =>
      stamp, order := 1, [];
      BootRefines();
    case After(before, op) =>
      var earlier, was := RunRefines(before);
      RecencyIsUpToDate(before);
      match op {
        case Adding(ip, mac) =>
          order := AddRuns(Run(before), earlier, was, Recency(before), ip, mac);
          stamp := earlier + 1;
        case Finding(ip) =>
          stamp, order := FindRuns(Run(before), earlier, was, Recency(before), ip);
      }
  }

  /** The same addresses in the same slots; only the stamps may differ. */
  ghost predicate SameAddresses(a: seq<Slot>, b: seq<Slot>) {
    |a| == |b| && forall j | 0 <= j < |a| :: a[j].ip == b[j].ip && a[j].mac == b[j].mac
  }

  lemma {:induction false} PlaceIgnoresStamps(a: seq<Slot>, b: seq<Slot>, ip: Ip, i: nat)
    requires SameAddresses(a, b) && i <= |a|
    ensures Place(a, ip, i) == Place(b, ip, i)
    decreases |a| - i
  {
    if i < |a| && a[i].ip != ip {
      PlaceIgnoresStamps(a, b, ip, i + 1);
    }
  }

  /** One more step, whose stamp may be a wrapped one, still leaves the right addresses behind. */
  lemma RunHolds(h: History) returns (ideal: Cache, order: seq<nat>)
    requires Nonzero(h) && Length(h) <= MAX_AGE + 1
    ensures SameAddresses(Run(h).slots, ideal.slots) && 0 < ideal.age
    ensures Refines(ideal, order, FirstEight(Recency(h)))
  {
    match h
    case Start =>
      ideal, order := Boot(), [];
      BootRefines();
    case After(before, op) =>
      var list := Recency(before);
      var stamp, earlier := RunRefines(before);
      var c := Cache(Run(before).slots, stamp);
      RecencyIsUpToDate(before);
      match op {
        case Adding(ip, mac) =>
          var r, next := AddRefines(c, earlier, FirstEight(list), ip, mac);
          ideal, order := Cache(c.slots[r := Slot(ip, mac, stamp)], stamp + 1), next;
          AnnounceToFirstEight(list, ip, mac);
        case Finding(ip) =>
          var s, next := FindRefines(c, earlier, FirstEight(list), ip);
          LookUpInFirstEight(list, ip);
          order := next;
          if s < SLOTS {
            ideal := Cache(c.slots[s := c.slots[s].(age := stamp)], stamp + 1);
          } else {
            ideal := c;
          }
      }
  }

  /**
   The answer of a least-recently-used cache: the hardware address last added, if the address is among the eight most
   recently touched.
   */
  ghost predicate AnswersRight(h: History, ip: Ip) {
    var i := IndexIn(Recency(h), ip);
    Find(Run(h), ip).1 == if i < |Recency(h)| && i < 8 then LastMac(h, ip) else None
  }

  lemma LookupIsLeastRecentlyUsed(h: History, ip: Ip)
    requires Nonzero(h) && ip != 0 && Length(h) <= MAX_AGE + 1
    ensures AnswersRight(h, ip)
  {
    var ideal, order := RunHolds(h);
    var _, _ := FindRefines(ideal, order, FirstEight(Recency(h)), ip);
    PlaceIgnoresStamps(Run(h).slots, ideal.slots, ip, 0);
    IndexInFirstEight(Recency(h), ip);
    RecencyIsUpToDate(h);
  }

  // ---------- the exact limit ----------

  /** The addresses n down to 1. */
  ghost predicate Countdown(list: seq<Entry>, n: nat) {
    |list| == n && forall i | 0 <= i < n :: list[i] == Entry(n - i, n - i)
  }

  /** A history of `len` additions. */
  ghost predicate Additions(h: History, len: nat) {
    Length(h) == len && Nonzero(h) && OnlyAdds(h)
  }

  lemma CountdownLacks(list: seq<Entry>, n: nat, ip: Ip)
    requires Countdown(list, n) && ip > n
    ensures IndexIn(list, ip) == n
  {
  }

  lemma AnnounceNext(list: seq<Entry>, n: nat)
    requires Countdown(list, n)
    ensures Countdown(Announce(list, n + 1, n + 1), n + 1)
  {
    CountdownLacks(list, n, n + 1);
  }

  /** n addresses are added one after the other. */
  lemma {:induction false} Ramp(n: nat) returns (h: History)
    ensures Additions(h, n) && Countdown(Recency(h), n)
  {
    if n == 0 {
      h := Start;
    } else {
      var before := Ramp(n - 1);
      h := After(before, Adding(n, n));
      AnnounceNext(Recency(before), n - 1);
    }
  }

  lemma TouchFront(list: seq<Entry>, e: Entry)
    requires list != [] && list[0] == e
    ensures Announce(list, e.ip, e.mac) == list
  {
    assert IndexIn(list, e.ip) == 0;
    assert list == [list[0]] + list[1..];
  }

  /** The newest address is added k times more, which changes nothing but the stamps. */
  lemma {:induction false} Refill(start: History, len: nat, e: Entry, k: nat) returns (h: History)
    requires Additions(start, len) && Recency(start) != [] && Recency(start)[0] == e && e.ip != 0
    ensures Additions(h, len + k) && Recency(h) == Recency(start)
  {
    if k == 0 {
      h := start;
    } else {
      var before := Refill(start, len, e, k - 1);
      h := After(before, Adding(e.ip, e.mac));
      TouchFront(Recency(before), e);
    }
  }

  /** With every slot in use, stamping the newest address with zero makes it the next to be thrown out. */
  lemma ZeroStampGoesFirst(slots: seq<Slot>, r: nat, x: Ip, y: Ip, mac: Mac)
    requires |slots| == SLOTS && r < SLOTS && slots[r].age == 0 && slots[r].ip == x
    requires forall j | 0 <= j < SLOTS :: slots[j].age <= MAX_AGE && slots[j].ip != y
    requires forall j | 0 <= j < SLOTS && j != r :: slots[j].age > 0 && slots[j].ip != x
    requires x != y
    ensures forall age :: Find(Add(Cache(slots, age), y, mac), x).1 == None
  {
    ScanFinds(slots, y, 0, 0, MAX_AGE);
    forall age ensures Find(Add(Cache(slots, age), y, mac), x).1 == None {
      PlaceFinds(Add(Cache(slots, age), y, mac).slots, x, 0);
    }
  }

  /** What the slots hold when the list is full, slot by slot. */
  lemma SlotsOfFullList(c: Cache, order: seq<nat>, list: seq<Entry>, j: nat)
    requires Refines(c, order, list) && |list| == SLOTS && j < SLOTS
    ensures 0 < c.slots[j].age < c.age
    ensures exists i | 0 <= i < SLOTS :: order[i] == j && list[i].ip == c.slots[j].ip
  {
    RankedIsApart(c.slots, c.age, order);
    assert j in order;
    var i :| 0 <= i < |order| && order[i] == j;
    assert list[i].ip == c.slots[j].ip;
  }

  lemma FullListHasSlot(c: Cache, order: seq<nat>, list: seq<Entry>, x: Ip, y: Ip) returns (r: nat)
    requires Refines(c, order, list) && |list| == SLOTS && c.age <= MAX_AGE + 1
    requires IndexIn(list, x) < SLOTS && Lacks(list, y)
    ensures r == Scan(c.slots, x, 0, 0, MAX_AGE) < SLOTS && c.slots[r].ip == x
    ensures forall j | 0 <= j < SLOTS ::
              0 < c.slots[j].age <= MAX_AGE && c.slots[j].ip != y && (j != r ==> c.slots[j].ip != x)
  {
    r := ScanFromStart(c, order, x);
    var k := IndexIn(list, x);
    assert c.slots[order[k]].ip == x;
    forall j | 0 <= j < SLOTS
      ensures 0 < c.slots[j].age <= MAX_AGE && c.slots[j].ip != y && (j != r ==> c.slots[j].ip != x)
    {
      SlotsOfFullList(c, order, list, j);
      SlotsOfFullList(c, order, list, r);
      var i :| 0 <= i < SLOTS && order[i] == j && list[i].ip == c.slots[j].ip;
      var n :| 0 <= n < SLOTS && order[n] == r && list[n].ip == c.slots[r].ip;
      assert j != r ==> i != n;
    }
  }

  /** A full cache whose counter has been used up: touch the newest address, then add another. */
  lemma LoseNewest(c: Cache, order: seq<nat>, list: seq<Entry>, x: Entry, y: Entry)
    requires Refines(Cache(c.slots, MAX_AGE + 1), order, list) && c.age == 0 && |list| == SLOTS && list[0] == x
    requires Lacks(list, y.ip)
    ensures Find(Add(Add(c, x.ip, x.mac), y.ip, y.mac), x.ip).1 == None
  {
    assert IndexIn(list, x.ip) == 0;
    var r := FullListHasSlot(Cache(c.slots, MAX_AGE + 1), order, list, x.ip, y.ip);
    ZeroStampGoesFirst(c.slots[r := Slot(x.ip, x.mac, 0)], r, x.ip, y.ip, y.mac);
  }

  lemma LostIsRecent(list: seq<Entry>, x: Entry, y: Entry)
    requires list != [] && list[0] == x && Lacks(list, y.ip)
    ensures IndexIn(Announce(list, y.ip, y.mac), x.ip) == 1 < |Announce(list, y.ip, y.mac)|
  {
    var added := Announce(list, y.ip, y.mac);
    assert added == [y] + list;
    assert added[1] == x && added[0].ip != x.ip;
  }

  /** The two operations of `LoseNewest`, as the end of a history: the answer for the newest address is wrong. */
  lemma LossIsWrong(full: History, list: seq<Entry>, x: Entry, y: Entry) returns (h: History)
    requires Recency(full) == list && list != [] && list[0] == x && Lacks(list, y.ip)
    requires Find(Add(Add(Run(full), x.ip, x.mac), y.ip, y.mac), x.ip).1 == None
    ensures Length(h) == Length(full) + 2 && !AnswersRight(h, x.ip)
    ensures Nonzero(full) && x.ip != 0 && y.ip != 0 ==> Nonzero(h)
  {
    TouchFront(list, x);
    LostIsRecent(list, x, y);
    var again := After(full, Adding(x.ip, x.mac));
    h := After(again, Adding(y.ip, y.mac));
    assert Run(again) == Add(Run(full), x.ip, x.mac) && Recency(again) == list;
    assert LastMac(h, x.ip) == LastMac(again, x.ip) == Some(x.mac);
  }

  /** A history of 2^32 + 1 operations after which the address touched last but one is gone. */
  lemma WrapThrowsOutNewest(n: nat, k: nat) returns (h: History, ip: Ip)
    requires n == SLOTS && n + k == MAX_AGE
    ensures Nonzero(h) && Length(h) == MAX_AGE + 2 && ip != 0 && !AnswersRight(h, ip)
  {
    var ramp := Ramp(n);
    var x, y := Entry(n, n), Entry(n + 1, n + 1);
    var full := Refill(ramp, n, x, k);
    var list := Recency(full);
    var stamp, order := RunRefines(full);
    CountdownLacks(list, n, y.ip);
    LoseNewest(Run(full), order, list, x, y);
    h := LossIsWrong(full, list, x, y);
    ip := x.ip;
  }

  ghost predicate AlwaysRight(n: nat) {
    forall h, ip: Ip :: Nonzero(h) && ip != 0 && Length(h) <= n ==> AnswersRight(h, ip)
  }

  /** The cache is a least-recently-used one over all histories of length at most n exactly when n is at most 2^32. */
  lemma LeastRecentlyUsedExactly(n: nat)
    ensures AlwaysRight(n) <==> n <= 0x1_0000_0000
  {
    if n <= MAX_AGE + 1 {
      forall h, ip: Ip | Nonzero(h) && ip != 0 && Length(h) <= n ensures AnswersRight(h, ip) {
        LookupIsLeastRecentlyUsed(h, ip);
      }
    } else {
      var h, ip := WrapThrowsOutNewest(SLOTS, MAX_AGE - SLOTS);
      assert Nonzero(h) && ip != 0 && Length(h) <= n && !AnswersRight(h, ip);
    }
  }

  // ---------- what holds whatever the stamps say ----------

  ghost predicate NoSlotTwice(slots: seq<Slot>) {
    forall a, b | 0 <= a < b < |slots| :: slots[a].ip != 0 ==> slots[a].ip != slots[b].ip
  }

  lemma {:induction false} ScanMatches(slots: seq<Slot>, ip: Ip, i: nat, oldest: nat, oldAge: nat)
    requires i <= |slots| && oldest < |slots|
    ensures var r := Scan(slots, ip, i, oldest, oldAge);
            r < |slots| && (slots[r].ip == ip || forall j | i <= j < |slots| :: slots[j].ip != ip)
    decreases |slots| - i
  {
    if i < |slots| && slots[i].ip != ip {
      if slots[i].age < oldAge {
        ScanMatches(slots, ip, i + 1, i, slots[i].age);
      } else {
        ScanMatches(slots, ip, i + 1, oldest, oldAge);
      }
    }
  }

  /** No address is ever in two slots, however long the history and even after the stamp has wrapped. */
  lemma {:induction false} NoAddressTwice(h: History)
    ensures NoSlotTwice(Run(h).slots)
  {
    match h
    case Start =>
    case After(before, op) =>
      var slots := Run(before).slots;
      NoAddressTwice(before);
      ScanMatches(slots, op.ip, 0, 0, MAX_AGE);
  }

  // ---------- address zero ----------

  lemma ZeroIsInUnused(c: Cache, order: seq<nat>)
    requires Ranked(c.slots, c.age, order)
    ensures Find(c, 0).1.Some? <==> |order| < SLOTS
  {
    RankedIsApart(c.slots, c.age, order);
    PlaceFinds(c.slots, 0, 0);
    if |order| < SLOTS {
      var s: nat :| s < SLOTS && s !in order;
      assert c.slots[s].ip == 0;
    } else {
      forall s: nat | s < SLOTS ensures c.slots[s].ip != 0 {
        assert s in order;
        var i :| 0 <= i < |order| && order[i] == s;
      }
    }
  }

  /** Unused slots hold address zero, so a lookup of zero succeeds for as long as one is left. */
  lemma ZeroIsFoundUnlessFull(h: History)
    requires Nonzero(h) && Length(h) <= MAX_AGE + 1
    ensures Find(Run(h), 0).1.Some? <==> |Recency(h)| < SLOTS
  {
    var ideal, order := RunHolds(h);
    ZeroIsInUnused(ideal, order);
    PlaceIgnoresStamps(Run(h).slots, ideal.slots, 0, 0);
  }

  // ---------- the cache in place ----------

  class ArpCache {
    const slots: array<Slot>
    var age: nat

    ghost function View(): Cache
      reads this, slots
    {
      Cache(slots[..], age)
    }

    constructor ()
      ensures View() == Boot() && slots.Length == SLOTS && fresh(slots)
    {
      age := 1;
      slots := new Slot[SLOTS](_ => Slot(0, 0, 0));
    }

    method CacheAdd(mac: Mac, ip: Ip)
      requires slots.Length == SLOTS
      modifies this, slots
      ensures View() == Add(old(View()), ip, mac)
    {
      var oldest, oldAge, i := 0, MAX_AGE, 0;
      ghost var goal := Scan(slots[..], ip, 0, 0, MAX_AGE);
      while i < SLOTS
        invariant 0 <= i <= SLOTS && 0 <= oldest < SLOTS
        invariant Scan(slots[..], ip, i, oldest, oldAge) == goal
      {
        if slots[i].ip == ip {
          oldest := i;
          break;
        } else if slots[i].age < oldAge {
          oldest, oldAge := i, slots[i].age;
        }
        i := i + 1;
      }
      assert oldest == goal;
      slots[oldest] := Slot(ip, mac, age);
      age := NextAge(age);
    }

    method CacheFind(ip: Ip) returns (mac: Option<Mac>)
      requires slots.Length == SLOTS
      modifies this, slots
      ensures View() == Find(old(View()), ip).0 && mac == Find(old(View()), ip).1
    {
      mac := None;
      ghost var goal := Place(slots[..], ip, 0);
      for i := 0 to SLOTS
        invariant mac == None && View() == old(View())
        invariant Place(slots[..], ip, i) == goal
      {
        if slots[i].ip == ip {
          mac := Some(slots[i].mac);
          slots[i] := slots[i].(age := age);
          age := NextAge(age);
          return;
        }
      }
    }
  }
}
