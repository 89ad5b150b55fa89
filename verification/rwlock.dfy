/**
 Reader/writer locks.

 Each operation runs under the lock's own spinlock, so one operation is one step.  A context that is made to sleep
 returns later: with access when it is signalled, without when it is interrupted.  `readersIn` and `writersIn` record
 who has access; the C code keeps only the two counters.
 */
module RwLocks {
  import opened Collections
  import opened Contexts

  datatype Rw = Rw(
    readers: nat, writers: nat, readQueue: seq<Context>, writeQueue: seq<Context>,
    readersIn: set<Context>, writersIn: set<Context>)

  /** `rwlock_init` does not set the writer count; the lock is taken to lie in cleared memory. */
  function Init(): Rw {
    Rw(0, 0, [], [], {}, {})
  }

  datatype RwOp =
    | LockRead(c: Context)
    | LockWrite(c: Context, at: nat)   // `at`: the place its priority gives it among waiting writers
    | UnlockRead(c: Context)
    | UnlockWrite(c: Context)
    | StopWaiting(c: Context)

  ghost predicate Idle(s: Rw, c: Context) {
    c !in s.readersIn && c !in s.writersIn && c !in s.readQueue && c !in s.writeQueue
  }

  /** Only an idle context asks for access, and only one that has access gives it up. */
  ghost predicate Allowed(s: Rw, op: RwOp) {
    match op
    case LockRead(c) => Idle(s, c)
    case LockWrite(c, at) => Idle(s, c) && at <= |s.writeQueue|
    case UnlockRead(c) => c in s.readersIn
    case UnlockWrite(c) => c in s.writersIn
    case StopWaiting(c) => true
  }

  /** Signal the first waiting writer, if any: it has access. */
  function SignalWriter(s: Rw): Rw {
    if s.writeQueue == [] then s
    else s.(writeQueue := s.writeQueue[1..], writersIn := s.writersIn + {s.writeQueue[0]})
  }

  ghost function Without(q: seq<Context>, c: Context): seq<Context> {
    var i := IndexOf(c, q);
    if i == |q| then q else q[..i] + q[i + 1..]
  }

  ghost function Apply(s: Rw, op: RwOp): Rw
    requires Allowed(s, op)
  {
    match op
    case LockRead(c) =>
      if s.writers == 0 && s.writeQueue == [] then s.(readers := Inc8(s.readers), readersIn := s.readersIn + {c})
      else s.(readQueue := [c] + s.readQueue)
    case LockWrite(c, at) =>
      if s.writers == 0 && s.readers == 0 then s.(writers := Inc8(s.writers), writersIn := s.writersIn + {c})
      else s.(writeQueue := s.writeQueue[..at] + [c] + s.writeQueue[at..])
    case UnlockRead(c) =>
      var t := s.(readersIn := s.readersIn - {c});
      if s.readers == 0 then t
      else if s.readers == 1 then SignalWriter(t).(readers := 0, writers := if s.writeQueue == [] then 0 else 1)
      else t.(readers := s.readers - 1)
    case UnlockWrite(c) =>
      var t := s.(writersIn := s.writersIn - {c});
      if s.writeQueue != [] then SignalWriter(t)
      else t.(readers := Low8(|s.readQueue|), readQueue := [], readersIn := s.readersIn + Members(s.readQueue))
    case StopWaiting(c) =>
      if c in s.writeQueue then s.(writeQueue := Without(s.writeQueue, c))
      else s.(readQueue := Without(s.readQueue, c))
  }

  ghost function Run(s: Rw, ops: seq<RwOp>): Rw
    requires AllowedRun(s, ops)
    decreases |ops|
  {
    if ops == [] then s else Run(Apply(s, ops[0]), ops[1..])
  }

  ghost predicate AllowedRun(s: Rw, ops: seq<RwOp>)
    decreases |ops|
  {
    ops == [] || (Allowed(s, ops[0]) && AllowedRun(Apply(s, ops[0]), ops[1..]))
  }

  // ---------- exclusion ----------

  /** At most one writer, and never beside a reader. */
  ghost predicate Exclusive(s: Rw) {
    && |s.writersIn| <= 1
    && (s.writersIn != {} ==> s.readersIn == {})
  }

  /** Every context is of `users`, and is in at most one place. */
  ghost predicate Placed(s: Rw, users: set<Context>) {
    && s.readersIn <= users && s.writersIn <= users
    && Members(s.readQueue) <= users && Members(s.writeQueue) <= users
    && Apart(s.readQueue) && Apart(s.writeQueue)
    && s.readersIn !! Members(s.readQueue) && s.readersIn !! Members(s.writeQueue)
    && s.writersIn !! Members(s.readQueue) && s.writersIn !! Members(s.writeQueue)
    && Members(s.readQueue) !! Members(s.writeQueue)
  }

  ghost predicate Counted(s: Rw) {
    && s.readers == |s.readersIn|
    && s.writers <= 1
    && (s.writersIn != {} ==> s.writers == 1)
  }

  ghost predicate Inv(s: Rw, users: set<Context>) {
    Placed(s, users) && Counted(s) && Exclusive(s)
  }

  ghost predicate Uses(op: RwOp, users: set<Context>) {
    op.c in users
  }

  /** The lock while exactly `r` read and nobody waits. */
  ghost function Reading(r: set<Context>): Rw {
    Rw(Low8(|r|), 0, [], [], r, {})
  }

  lemma AllOfThem(a: set<Context>, b: set<Context>)
    requires a <= b && |a| >= |b|
    ensures a == b
  {
    SubsetSize(a, b);
    assert b - a == {};
  }

  /** With 256 contexts all of them reading, and only then, the count is wrong. */
  lemma LockReadKeepsInv(s: Rw, c: Context, users: set<Context>)
    requires Inv(s, users) && Allowed(s, LockRead(c)) && c in users && |users| <= 256
    ensures Inv(Apply(s, LockRead(c)), users) || (|users| == 256 && Apply(s, LockRead(c)) == Reading(users))
  {
    var t := Apply(s, LockRead(c));
    if s.writers == 0 && s.writeQueue == [] {
      SubsetSize(t.readersIn, users);
      if |t.readersIn| == 256 {
        AllOfThem(t.readersIn, users);
        EverybodyReads(t, users);
      }
    } else {
      assert Members(t.readQueue) == Members(s.readQueue) + {c};
    }
  }

  lemma EverybodyReads(t: Rw, users: set<Context>)
    requires Placed(t, users) && t.readersIn == users && |users| == 256 && t.readers == 0 && t.writers == 0
             && t.writersIn == {}
    ensures t == Reading(users)
  {
    assert Members(t.readQueue) == {} && Members(t.writeQueue) == {};
    ApartSize(t.readQueue);
    ApartSize(t.writeQueue);
  }

  lemma MembersInserted(q: seq<Context>, c: Context, at: nat)
    requires at <= |q| && c !in q && Apart(q)
    ensures var r := q[..at] + [c] + q[at..]; Members(r) == Members(q) + {c} && Apart(r)
  {
    var r := q[..at] + [c] + q[at..];
    assert q == q[..at] + q[at..];
    forall x ensures x in r <==> x in q || x == c {
      assert x in r <==> x in q[..at] || x == c || x in q[at..];
    }
  }

  lemma LockWriteKeepsInv(s: Rw, c: Context, at: nat, users: set<Context>)
    requires Inv(s, users) && Allowed(s, LockWrite(c, at)) && c in users
    ensures Inv(Apply(s, LockWrite(c, at)), users)
  {
    if !(s.writers == 0 && s.readers == 0) {
      MembersInserted(s.writeQueue, c, at);
    }
  }

  lemma TailMembers(q: seq<Context>)
    requires q != [] && Apart(q)
    ensures Apart(q[1..]) && Members(q) == Members(q[1..]) + {q[0]} && q[0] !in q[1..]
  {
    assert q == [q[0]] + q[1..];
  }

  lemma UnlockReadKeepsInv(s: Rw, c: Context, users: set<Context>)
    requires Inv(s, users) && Allowed(s, UnlockRead(c))
    ensures Inv(Apply(s, UnlockRead(c)), users)
  {
    if s.writeQueue != [] {
      TailMembers(s.writeQueue);
    }
    assert s.readersIn == (s.readersIn - {c}) + {c};
  }

  lemma UnlockWriteKeepsInv(s: Rw, c: Context, users: set<Context>)
    requires Inv(s, users) && Allowed(s, UnlockWrite(c)) && |users| <= 256
    ensures Inv(Apply(s, UnlockWrite(c)), users)
  {
    assert s.writersIn == {c} by {
      assert s.writersIn == {c} + (s.writersIn - {c});
    }
    if s.writeQueue != [] {
      TailMembers(s.writeQueue);
    } else {
      QueueIsSmall(s.readQueue, c, users);
    }
  }

  lemma QueueIsSmall(q: seq<Context>, c: Context, users: set<Context>)
    requires Apart(q) && Members(q) <= users && c in users && c !in Members(q) && |users| <= 256
    ensures |Members(q)| == |q| == Low8(|q|)
  {
    ApartSize(q);
    SubsetSize(Members(q), users - {c});
    SubsetSize({c}, users);
  }

  lemma ApartWithout(q: seq<Context>, c: Context)
    requires Apart(q)
    ensures Apart(Without(q, c))
  {
  }

  lemma MembersWithout(q: seq<Context>, c: Context)
    requires Apart(q)
    ensures Members(Without(q, c)) == Members(q) - {c}
  {
    var i := IndexOf(c, q);
    if i < |q| {
      var before, after := q[..i], q[i + 1..];
      assert q == before + [c] + after;
      assert c !in before && c !in after;
      forall x ensures x in before + after <==> x in q && x != c {
        assert x in q <==> x in before || x == c || x in after;
      }
    }
  }

  lemma InterruptKeepsInv(s: Rw, c: Context, users: set<Context>)
    requires Inv(s, users)
    ensures Inv(Apply(s, StopWaiting(c)), users)
  {
    ApartWithout(s.writeQueue, c);
    ApartWithout(s.readQueue, c);
    MembersWithout(s.writeQueue, c);
    MembersWithout(s.readQueue, c);
  }

  lemma AnyStep(s: Rw, op: RwOp, users: set<Context>)
    requires Inv(s, users) && Allowed(s, op) && Uses(op, users) && |users| <= 256
    ensures Inv(Apply(s, op), users) || (|users| == 256 && Apply(s, op) == Reading(users))
  {
    match op
    case LockRead(c) => LockReadKeepsInv(s, c, users);
    case LockWrite(c, at) => LockWriteKeepsInv(s, c, at, users);
    case UnlockRead(c) => UnlockReadKeepsInv(s, c, users);
    case UnlockWrite(c) => UnlockWriteKeepsInv(s, c, users);
    case StopWaiting(c) => InterruptKeepsInv(s, c, users);
  }

  lemma StepKeepsInv(s: Rw, op: RwOp, users: set<Context>)
    requires Inv(s, users) && Allowed(s, op) && Uses(op, users) && |users| <= 255
    ensures Inv(Apply(s, op), users)
  {
    AnyStep(s, op, users);
  }

  ghost predicate UsesOnly(ops: seq<RwOp>, users: set<Context>) {
    forall i | 0 <= i < |ops| :: Uses(ops[i], users)
  }

  lemma {:induction false} RunKeepsInv(s: Rw, ops: seq<RwOp>, users: set<Context>)
    requires Inv(s, users) && AllowedRun(s, ops) && UsesOnly(ops, users) && |users| <= 255
    ensures Inv(Run(s, ops), users)
    decreases |ops|
  {
    if ops != [] {
      StepKeepsInv(s, ops[0], users);
      RunKeepsInv(Apply(s, ops[0]), ops[1..], users);
    }
  }

  // ---------- who is served ----------

  /** Who has access and who waits, and nothing of the counters. */
  ghost predicate Served(s: Rw, readersIn: set<Context>, writersIn: set<Context>, readQueue: seq<Context>,
      writeQueue: seq<Context>)
  {
    s.readersIn == readersIn && s.writersIn == writersIn && s.readQueue == readQueue && s.writeQueue == writeQueue
  }

  lemma OnlyOne(r: set<Context>, c: Context)
    requires c in r && |r| == 1
    ensures r == {c}
  {
    assert r == {c} + (r - {c});
  }

  /**
   A reader that leaves while others read changes nothing for anybody else.  The last one hands over: the first waiting
   writer, if there is one, has access, and otherwise the lock is free.
   */
  lemma ReaderLeaves(s: Rw, c: Context, users: set<Context>)
    requires Inv(s, users) && Allowed(s, UnlockRead(c))
    ensures var t := Apply(s, UnlockRead(c));
            if s.readersIn != {c} then Served(t, s.readersIn - {c}, {}, s.readQueue, s.writeQueue)
            else if s.writeQueue == [] then Served(t, {}, {}, s.readQueue, []) && t.writers == 0 && t.readers == 0
            else Served(t, {}, {s.writeQueue[0]}, s.readQueue, s.writeQueue[1..]) && t.writers == 1
  {
    assert s.readersIn == (s.readersIn - {c}) + {c};
    if |s.readersIn| == 1 {
      OnlyOne(s.readersIn, c);
    }
  }

  /** A writer that leaves hands over to the first waiting writer, and only if there is none to all waiting readers. */
  lemma WriterLeaves(s: Rw, c: Context, users: set<Context>)
    requires Inv(s, users) && Allowed(s, UnlockWrite(c))
    ensures var t := Apply(s, UnlockWrite(c));
            if s.writeQueue != [] then Served(t, {}, {s.writeQueue[0]}, s.readQueue, s.writeQueue[1..])
            else Served(t, set d | d in s.readQueue, {}, [], [])
  {
    assert |s.writersIn| == 1 by {
      assert s.writersIn == {c} + (s.writersIn - {c});
    }
    OnlyOne(s.writersIn, c);
  }

  /** A context that asks is given access at once exactly as the counters allow, and otherwise waits in its place. */
  lemma AskerIsServed(s: Rw, c: Context, at: nat, users: set<Context>)
    requires Inv(s, users) && Idle(s, c) && at <= |s.writeQueue|
    ensures var t := Apply(s, LockRead(c));
            if s.writers == 0 && s.writeQueue == [] then
              Served(t, s.readersIn + {c}, s.writersIn, s.readQueue, s.writeQueue) && s.writersIn == {}
            else Served(t, s.readersIn, s.writersIn, [c] + s.readQueue, s.writeQueue)
    ensures var t := Apply(s, LockWrite(c, at));
            if s.writers == 0 && s.readersIn == {} then
              Served(t, {}, {c}, s.readQueue, s.writeQueue)
            else Served(t, s.readersIn, s.writersIn, s.readQueue, s.writeQueue[..at] + [c] + s.writeQueue[at..])
  {
  }

  /** A context that stops waiting leaves its queue, without access. */
  lemma WaiterLeaves(s: Rw, c: Context, users: set<Context>)
    requires Inv(s, users)
    ensures var t := Apply(s, StopWaiting(c));
            && t.readersIn == s.readersIn && t.writersIn == s.writersIn
            && t.readers == s.readers && t.writers == s.writers
            && c !in t.readQueue && c !in t.writeQueue
            && (forall d | d != c ::
                  (d in t.readQueue <==> d in s.readQueue) && (d in t.writeQueue <==> d in s.writeQueue))
  {
    MembersWithout(s.writeQueue, c);
    MembersWithout(s.readQueue, c);
    var t := Apply(s, StopWaiting(c));
    assert forall d :: d in t.readQueue <==> d in Members(t.readQueue);
    assert forall d :: d in t.writeQueue <==> d in Members(t.writeQueue);
    assert forall d :: d in s.readQueue <==> d in Members(s.readQueue);
    assert forall d :: d in s.writeQueue <==> d in Members(s.writeQueue);
  }

  // ---------- the exact limit ----------

  lemma OneMoreReader(r: set<Context>, c: Context)
    requires c !in r
    ensures Allowed(Reading(r), LockRead(c)) && Apply(Reading(r), LockRead(c)) == Reading(r + {c})
  {
    CounterSteps(|r|);
  }

  lemma RunFirst(s: Rw, op: RwOp, ops: seq<RwOp>)
    requires Allowed(s, op) && AllowedRun(Apply(s, op), ops)
    ensures AllowedRun(s, [op] + ops) && Run(s, [op] + ops) == Run(Apply(s, op), ops)
  {
    assert ([op] + ops)[1..] == ops;
  }

  lemma OneMoreRuns(r: set<Context>, c: Context, rest: seq<RwOp>) returns (ops: seq<RwOp>)
    requires c !in r && AllowedRun(Reading(r + {c}), rest)
    ensures ops == [LockRead(c)] + rest
    ensures AllowedRun(Reading(r), ops) && Run(Reading(r), ops) == Run(Reading(r + {c}), rest)
  {
    ops := [LockRead(c)] + rest;
    OneMoreReader(r, c);
    RunFirst(Reading(r), LockRead(c), rest);
  }

  lemma NextReader(r: set<Context>, q: seq<Context>)
    requires q != [] && Apart(q) && r !! Members(q)
    ensures q[0] !in r && q[0] in Members(q) && Members(q[1..]) <= Members(q)
    ensures Apart(q[1..]) && (r + {q[0]}) !! Members(q[1..])
    ensures r + {q[0]} + Members(q[1..]) == r + Members(q)
  {
    TailMembers(q);
    assert q[0] in Members(q);
  }

  /** Any number of contexts can take read access one after the other. */
  lemma {:induction false} AllRead(r: set<Context>, q: seq<Context>) returns (ops: seq<RwOp>)
    requires Apart(q) && r !! Members(q)
    ensures AllowedRun(Reading(r), ops) && Run(Reading(r), ops) == Reading(r + Members(q))
    ensures ReadsOnly(ops, Members(q))
    decreases |q|
  {
    if q == [] {
      ops := [];
      assert r + Members(q) == r;
    } else {
      NextReader(r, q);
      var rest := AllRead(r + {q[0]}, q[1..]);
      ops := OneMoreRuns(r, q[0], rest);
      ReadsFirst(q[0], rest, Members(q[1..]), Members(q));
    }
  }

  /** Nothing but requests for read access, by contexts of the given set. */
  ghost predicate ReadsOnly(ops: seq<RwOp>, users: set<Context>) {
    forall i | 0 <= i < |ops| :: ops[i].LockRead? && ops[i].c in users
  }

  lemma ReadsFirst(c: Context, ops: seq<RwOp>, some: set<Context>, all: set<Context>)
    requires ReadsOnly(ops, some) && some <= all && c in all
    ensures ReadsOnly([LockRead(c)] + ops, all)
  {
  }

  lemma {:induction false} RunOn(s: Rw, a: seq<RwOp>, b: seq<RwOp>)
    requires AllowedRun(s, a) && AllowedRun(Run(s, a), b)
    ensures AllowedRun(s, a + b) && Run(s, a + b) == Run(Run(s, a), b)
    decreases |a|
  {
    if a == [] {
      assert a + b == b;
    } else {
      assert (a + b)[0] == a[0] && (a + b)[1..] == a[1..] + b;
      RunOn(Apply(s, a[0]), a[1..], b);
    }
  }

  lemma {:induction false} Pick(users: set<Context>, n: nat) returns (q: seq<Context>)
    requires n <= |users|
    ensures |q| == n && Apart(q) && Members(q) <= users
    decreases n
  {
    if n == 0 {
      q := [];
    } else {
      var c :| c in users;
      var rest := Pick(users - {c}, n - 1);
      q := [c] + rest;
      assert forall x :: x in rest ==> x in Members(rest);
    }
  }

  /**
   256 readers show a count of zero: one of them leaves uncounted, past the debug trap on the way, and is then given
   write access beside the others.
   */
  lemma TooManyReaders(r: set<Context>, c: Context)
    requires |r| == 256 && c in r
    ensures var ops := [UnlockRead(c), LockWrite(c, 0)];
            AllowedRun(Reading(r), ops) && !Exclusive(Run(Reading(r), ops))
  {
    var ops := [UnlockRead(c), LockWrite(c, 0)];
    var s := Reading(r);
    assert s.readers == 0;
    var t := Apply(s, ops[0]);
    assert t == s.(readersIn := r - {c});
    assert |r - {c}| == 255;
    var u := Apply(t, ops[1]);
    assert ops[1..] == [LockWrite(c, 0)] && ops[1..][1..] == [];
    assert Run(s, ops) == u by {
      assert Run(u, []) == u && AllowedRun(u, []);
      assert Run(t, ops[1..]) == u && AllowedRun(t, ops[1..]);
    }
    assert c in u.writersIn && u.readersIn == r - {c};
  }

  ghost predicate AlwaysExclusive(users: set<Context>) {
    forall ops :: AllowedRun(Init(), ops) && UsesOnly(ops, users) ==> Exclusive(Run(Init(), ops))
  }

  lemma OverflowBreaksExclusion(users: set<Context>)
    requires |users| >= 256
    ensures !AlwaysExclusive(users)
  {
    var q := Pick(users, 256);
    var r, ops := Members(q), [UnlockRead(q[0]), LockWrite(q[0], 0)];
    ApartSize(q);
    var first := AllRead({}, q);
    assert {} + r == r && Reading({}) == Init();
    TooManyReaders(r, q[0]);
    RunOn(Init(), first, ops);
    assert UsesOnly(first + ops, users);
  }

  /** Exclusion holds over every run of a set of contexts exactly when there are at most 255 of them. */
  lemma ExclusionExactly(users: set<Context>)
    ensures AlwaysExclusive(users) <==> |users| <= 255
  {
    if |users| <= 255 {
      assert Members<Context>([]) == {};
      assert Inv(Init(), users);
      forall ops | AllowedRun(Init(), ops) && UsesOnly(ops, users) ensures Exclusive(Run(Init(), ops)) {
        RunKeepsInv(Init(), ops, users);
      }
    } else {
      OverflowBreaksExclusion(users);
    }
  }

  // ---------- the limit as far as the debug traps ----------

  /** Giving up access that the counters do not show is trapped. */
  ghost predicate Traps(s: Rw, op: RwOp) {
    (op.UnlockRead? && s.readers == 0) || (op.UnlockWrite? && s.writers == 0)
  }

  ghost predicate TrapFree(s: Rw, ops: seq<RwOp>)
    requires AllowedRun(s, ops)
    decreases |ops|
  {
    ops == [] || (!Traps(s, ops[0]) && TrapFree(Apply(s, ops[0]), ops[1..]))
  }

  lemma FullStep(op: RwOp, users: set<Context>)
    requires |users| == 256 && Allowed(Reading(users), op) && Uses(op, users) && !Traps(Reading(users), op)
    ensures Apply(Reading(users), op) == Reading(users)
  {
  }

  lemma {:induction false} TrapFreeKeepsInv(s: Rw, ops: seq<RwOp>, users: set<Context>)
    requires Inv(s, users) || (|users| == 256 && s == Reading(users))
    requires AllowedRun(s, ops) && UsesOnly(ops, users) && TrapFree(s, ops) && |users| <= 256
    ensures Inv(Run(s, ops), users) || (|users| == 256 && Run(s, ops) == Reading(users))
    decreases |ops|
  {
    if ops != [] {
      var op, t := ops[0], Apply(s, ops[0]);
      assert Uses(op, users);
      if Inv(s, users) {
        AnyStep(s, op, users);
      } else {
        FullStep(op, users);
      }
      assert UsesOnly(ops[1..], users) by {
        assert forall i | 0 <= i < |ops[1..]| :: ops[1..][i] == ops[i + 1];
      }
      TrapFreeKeepsInv(t, ops[1..], users);
    }
  }

  lemma {:induction false} ReadingIsTrapFree(s: Rw, ops: seq<RwOp>)
    requires AllowedRun(s, ops) && forall i | 0 <= i < |ops| :: !ops[i].UnlockRead? && !ops[i].UnlockWrite?
    ensures TrapFree(s, ops)
    decreases |ops|
  {
    if ops != [] {
      ReadingIsTrapFree(Apply(s, ops[0]), ops[1..]);
    }
  }

  ghost predicate ExclusiveUntilTrap(users: set<Context>) {
    forall ops :: AllowedRun(Init(), ops) && UsesOnly(ops, users) && TrapFree(Init(), ops)
        ==> Exclusive(Run(Init(), ops))
  }

  lemma WriterBesideReaders(r: set<Context>, c: Context)
    requires |r| == 256 && c !in r
    ensures AllowedRun(Reading(r), [LockWrite(c, 0)]) && !Exclusive(Run(Reading(r), [LockWrite(c, 0)]))
  {
    var s, op := Reading(r), LockWrite(c, 0);
    var t := Apply(s, op);
    assert s.readers == 0 && t.writersIn == {c} && t.readersIn == r;
    assert AllowedRun(t, []) && Run(t, []) == t;
    RunFirst(s, op, []);
    assert [op] + [] == [op];
  }

  /** One more than 256, and a writer is let in beside 256 readers without a trap. */
  lemma OverflowBreaksQuietly(users: set<Context>)
    requires |users| >= 257
    ensures !ExclusiveUntilTrap(users)
  {
    var q := Pick(users, 257);
    var first := q[..256];
    var r, c := Members(first), q[256];
    ApartSize(first);
    assert c !in r && c in Members(q);
    var ops := AllRead({}, first);
    assert {} + r == r && Reading({}) == Init();
    WriterBesideReaders(r, c);
    RunOn(Init(), ops, [LockWrite(c, 0)]);
    var all := ops + [LockWrite(c, 0)];
    assert forall x :: x in first ==> x in Members(q);
    assert UsesOnly(all, users);
    ReadingIsTrapFree(Init(), all);
  }

  /** Runs that reach no debug trap are exclusive exactly when there are at most 256 contexts. */
  lemma ExclusionUntilTrapExactly(users: set<Context>)
    ensures ExclusiveUntilTrap(users) <==> |users| <= 256
  {
    if |users| <= 256 {
      assert Members<Context>([]) == {};
      assert Inv(Init(), users);
      forall ops | AllowedRun(Init(), ops) && UsesOnly(ops, users) && TrapFree(Init(), ops)
        ensures Exclusive(Run(Init(), ops))
      {
        TrapFreeKeepsInv(Init(), ops, users);
      }
    } else {
      OverflowBreaksQuietly(users);
    }
  }

  // ---------- the lock that nobody can take again ----------

  /** Nobody has access, and nobody will be given any. */
  ghost predicate Dead(s: Rw) {
    s.writers != 0 && s.readers == 0 && s.readersIn == {} && s.writersIn == {}
  }

  lemma {:induction false} DeadForever(s: Rw, ops: seq<RwOp>)
    requires Dead(s) && AllowedRun(s, ops)
    ensures Dead(Run(s, ops))
    decreases |ops|
  {
    if ops != [] {
      DeadForever(Apply(s, ops[0]), ops[1..]);
    }
  }

  /**
   Giving up write access does not clear the writer count, so with nobody waiting at that moment the lock is dead; it is
   not when somebody is waiting.
   */
  lemma UnlockWriteKillsExactly(s: Rw, c: Context, users: set<Context>)
    requires Inv(s, users) && c in s.writersIn && |users| <= 255
    ensures Dead(Apply(s, UnlockWrite(c))) <==> s.readQueue == [] && s.writeQueue == []
  {
    assert s.writersIn == {c} by {
      assert s.writersIn == {c} + (s.writersIn - {c});
    }
    if s.readQueue != [] {
      assert s.readQueue[0] in Members(s.readQueue);
    }
    if s.readQueue == [] {
      assert Members(s.readQueue) == {};
    }
  }

  /** One uncontended write access is enough: afterwards nobody is ever given access. */
  lemma OneWriteKills(c: Context, ops: seq<RwOp>)
    requires AllowedRun(Init(), [LockWrite(c, 0), UnlockWrite(c)] + ops)
    ensures Dead(Run(Init(), [LockWrite(c, 0), UnlockWrite(c)] + ops))
  {
    var both := [LockWrite(c, 0), UnlockWrite(c)];
    var all := both + ops;
    assert all[0] == both[0] && all[1..][0] == both[1] && all[1..][1..] == ops;
    var t := Apply(Init(), all[0]);
    var u := Apply(t, all[1..][0]);
    assert Members<Context>([]) == {};
    DeadForever(u, ops);
    assert Run(t, all[1..]) == Run(u, ops);
    assert Run(Init(), all) == Run(t, all[1..]);
  }

  // ---------- the lock in place ----------

  class RwLock {
    var readers: nat
    var writers: nat
    var readQueue: seq<Context>
    var writeQueue: seq<Context>
    ghost var readersIn: set<Context>
    ghost var writersIn: set<Context>

    ghost function View(): Rw
      reads this
    {
      Rw(readers, writers, readQueue, writeQueue, readersIn, writersIn)
    }

    constructor ()
      ensures View() == Init()
    {
      readers, writers, readQueue, writeQueue, readersIn, writersIn := 0, 0, [], [], {}, {};
    }

    /** `granted` is false for a context that has been put to sleep. */
    method AcquireRead(c: Context) returns (granted: bool)
      requires Allowed(View(), LockRead(c))
      modifies this
      ensures View() == Apply(old(View()), LockRead(c)) && (granted <==> c in readersIn)
    {
      granted := writers == 0 && writeQueue == [];
      if granted {
        readers := Inc8(readers);
        readersIn := readersIn + {c};
      } else {
        readQueue := [c] + readQueue;
      }
    }

    method AcquireWrite(c: Context, at: nat) returns (granted: bool)
      requires Allowed(View(), LockWrite(c, at))
      modifies this
      ensures View() == Apply(old(View()), LockWrite(c, at)) && (granted <==> c in writersIn)
    {
      granted := writers == 0 && readers == 0;
      if granted {
        writers := Inc8(writers);
        writersIn := writersIn + {c};
      } else {
        writeQueue := writeQueue[..at] + [c] + writeQueue[at..];
      }
    }

    method SignalFirstWriter() returns (woken: nat)
      modifies this`writeQueue, this`writersIn
      ensures View() == SignalWriter(old(View())) && woken == (if old(writeQueue) == [] then 0 else 1)
    {
      woken := 0;
      if writeQueue != [] {
        var c := writeQueue[0];
        writeQueue := writeQueue[1..];
        writersIn := writersIn + {c};
        woken := 1;
      }
    }

    /** The count of woken contexts is a byte. */
    method BroadcastReaders() returns (woken: nat)
      modifies this`readQueue, this`readersIn
      ensures readQueue == [] && readersIn == old(readersIn) + Members(old(readQueue))
      ensures woken == Low8(|old(readQueue)|)
    {
      woken := 0;
      var q := readQueue;
      ghost var n := 0;
      while q != []
        invariant n + |q| == |old(readQueue)| && q == old(readQueue)[n..]
        invariant woken == Low8(n)
        invariant readersIn == old(readersIn) + Members(old(readQueue)[..n])
        decreases |q|
      {
        CounterSteps(n);
        readersIn := readersIn + {q[0]};
        assert old(readQueue)[..n + 1] == old(readQueue)[..n] + [q[0]];
        woken := Inc8(woken);
        q := q[1..];
        n := n + 1;
      }
      readQueue := [];
      assert old(readQueue)[..n] == old(readQueue);
    }

    method ReleaseRead(c: Context)
      requires Allowed(View(), UnlockRead(c))
      modifies this
      ensures View() == Apply(old(View()), UnlockRead(c))
    {
      readersIn := readersIn - {c};
      if readers != 0 {
        readers := readers - 1;
        if readers == 0 {
          writers := SignalFirstWriter();
        }
      }
    }

    method ReleaseWrite(c: Context)
      requires Allowed(View(), UnlockWrite(c))
      modifies this
      ensures View() == Apply(old(View()), UnlockWrite(c))
    {
      writersIn := writersIn - {c};
      var woken := SignalFirstWriter();
      if woken == 0 {
        readers := BroadcastReaders();
      }
    }

    static method Remove(c: Context, q: seq<Context>) returns (found: bool, r: seq<Context>)
      ensures found <==> c in q
      ensures r == Without(q, c)
    {
      var i := 0;
      while i < |q| && q[i] != c
        invariant 0 <= i <= |q| && c !in q[..i]
      {
        i := i + 1;
      }
      IndexIsFirst(c, q, i);
      found := i < |q|;
      r := if found then q[..i] + q[i + 1..] else q;
    }

    method InterruptWaiter(c: Context)
      modifies this`writeQueue, this`readQueue
      ensures View() == Apply(old(View()), StopWaiting(c))
    {
      var found, w := Remove(c, writeQueue);
      writeQueue := w;
      if !found {
        var _, r := Remove(c, readQueue);
        readQueue := r;
      }
    }
  }
}
