/**
 The priority-ceiling theorem for one processor.

 Every run in which callers follow the lock discipline keeps the run queue in order, never meets a held lock and
 never reaches one of the kernel's debug traps.  The heart of it is the third clause of `Ordered`: whoever stands
 ahead of a lock holder was created strictly more urgent than the priority that lock boosts to.
 */
module PriorityCeiling {
  import opened Collections
  import opened Contexts

  // ---------- the invariant ----------

  /**
   `a` may stand ahead of `b`: it is no less urgent, and if `b` holds a lock then `a` was created strictly more
   urgent than the priority that `b` is boosted to.
   */
  ghost predicate Ahead(cs: map<Context, ContextRecord>, a: Context, b: Context)
    requires a in cs && b in cs
  {
    && a != b
    && cs[a].priority <= cs[b].priority
    && (cs[b].stack != [] ==> cs[a].base < cs[b].priority)
  }

  /** The run queue is duplicate-free and each context may stand ahead of all those behind it. */
  ghost predicate Ordered(q: seq<Context>, cs: map<Context, ContextRecord>) {
    && (forall i | 0 <= i < |q| :: q[i] in cs)
    && (forall i, j | 0 <= i < j < |q| :: Ahead(cs, q[i], q[j]))
  }

  /** The priority at which a context created at `base` runs while it holds the locks `st`. */
  ghost function Level(st: seq<Lock>, base: nat, ls: map<Lock, LockRecord>): nat {
    if st == [] || st[|st| - 1] !in ls then base else ls[st[|st| - 1]].ceiling
  }

  /** Locks nest: each was taken at or below the priority then in force, which it saved. */
  ghost predicate Nested(c: Context, st: seq<Lock>, base: nat, ls: map<Lock, LockRecord>) {
    st == [] ||
    var l, rest := st[|st| - 1], st[..|st| - 1];
    && l in ls
    && l !in rest
    && ls[l].owner == Some(c)
    && ls[l].saved == Level(rest, base, ls)
    && ls[l].ceiling <= ls[l].saved
    && Nested(c, rest, base, ls)
  }

  ghost predicate StackOk(c: Context, r: ContextRecord, ls: map<Lock, LockRecord>) {
    && Nested(c, r.stack, r.base, ls)
    && r.priority == Level(r.stack, r.base, ls)
    && r.held == Low8(|r.stack|)
    && (r.resume.Some? ==> r.stack == [] && r.resume.value in ls && ls[r.resume.value].ceiling <= r.base)
  }

  /** A lock is marked taken exactly when some context holds it, and then exactly one does. */
  ghost predicate LockOk(s: State, l: Lock)
    requires l in s.locks
  {
    && s.locks[l].locked == s.locks[l].owner.Some?
    && (s.locks[l].owner.Some? ==>
          s.locks[l].owner.value in s.contexts && l in s.contexts[s.locks[l].owner.value].stack)
  }

  ghost predicate ContextOk(s: State, c: Context)
    requires c in s.contexts
  {
    var r := s.contexts[c];
    && StackOk(c, r, s.locks)
    && (c in s.runQueue <==> r.state.Runnable())
    && (r.state.Running? ==> c == s.current)
    && (r.state.Sleep? || r.state.SleepQueue? ==> r.resume.Some?)
    && (!r.state.Runnable() ==> r.stack == [])
    && (r.state.SleepQueue? ==> exists q | q in s.queues :: c in s.queues[q])
  }

  /** Sleep queues hold queued sleepers only, each at one place. */
  ghost predicate QueuesOk(s: State) {
    && (forall q, i | q in s.queues && 0 <= i < |s.queues[q]| ::
          s.queues[q][i] in s.contexts && s.contexts[s.queues[q][i]].state.SleepQueue?)
    && NoContextTwice(s.queues)
  }

  ghost predicate NoContextTwice(qs: map<WaitQueue, seq<Context>>) {
    forall q, i, p, j | q in qs && p in qs && 0 <= i < |qs[q]| && 0 <= j < |qs[p]| ::
      qs[q][i] == qs[p][j] ==> q == p && i == j
  }

  /** What holds even in the middle of a switch. */
  ghost predicate Core(s: State) {
    && s.current in s.contexts
    && s.idle in s.contexts
    && s.idle in s.runQueue
    && Ordered(s.runQueue, s.contexts)
    && s.runQueueLen == Low8(|s.runQueue|)
    && (forall c | c in s.contexts :: ContextOk(s, c))
    && (forall l | l in s.locks :: LockOk(s, l))
    && QueuesOk(s)
    && !s.trapped
  }

  /** What holds at every scheduling point. */
  ghost predicate Inv(s: State) {
    && Core(s)
    && s.runQueue[0] == s.current
    && s.contexts[s.current].state.Running?
    && s.contexts[s.current].resume.None?
  }

  lemma CoreIsClosed(s: State)
    requires Core(s)
    ensures Closed(s)
  {
    forall c, i | c in s.contexts && 0 <= i < |s.contexts[c].stack|
      ensures s.contexts[c].stack[i] in s.locks
    {
      assert ContextOk(s, c);
      HeldIsNested(c, s.contexts[c].stack, s.contexts[c].base, s.locks, s.contexts[c].stack[i]);
    }
    forall c | c in s.contexts
      ensures s.contexts[c].resume.Some? ==> s.contexts[c].resume.value in s.locks
    {
      assert ContextOk(s, c);
    }
  }

  lemma InvIsScheduled(s: State)
    requires Inv(s)
    ensures Scheduled(s)
  {
    CoreIsClosed(s);
  }

  // ---------- one lock, one holder ----------

  /** The boosted priority of a holder is at least as urgent as each ceiling it holds. */
  lemma {:induction false} HeldIsNested(c: Context, st: seq<Lock>, base: nat, ls: map<Lock, LockRecord>, l: Lock)
    requires Nested(c, st, base, ls) && l in st
    ensures l in ls && ls[l].owner == Some(c) && Level(st, base, ls) <= ls[l].ceiling <= base
    decreases |st|
  {
    var top, rest := st[|st| - 1], st[..|st| - 1];
    LevelIsUrgent(c, st, base, ls);
    if l != top {
      assert st == rest + [top];
      HeldIsNested(c, rest, base, ls, l);
    }
  }

  lemma {:induction false} LevelIsUrgent(c: Context, st: seq<Lock>, base: nat, ls: map<Lock, LockRecord>)
    requires Nested(c, st, base, ls)
    ensures Level(st, base, ls) <= base
    decreases |st|
  {
    if st != [] {
      LevelIsUrgent(c, st[..|st| - 1], base, ls);
    }
  }

  /** Whoever is at the head was created more urgent than the ceiling of any lock held further back. */
  lemma HolderIsBehindHead(s: State, l: Lock)
    requires Core(s) && l in s.locks && s.locks[l].locked
    ensures s.locks[l].owner == Some(s.runQueue[0]) || s.contexts[s.runQueue[0]].base < s.locks[l].ceiling
    ensures s.locks[l].owner == Some(s.runQueue[0]) ==> l in s.contexts[s.runQueue[0]].stack
  {
    assert LockOk(s, l);
    var h := s.locks[l].owner.value;
    assert ContextOk(s, h);
    var j :| 0 <= j < |s.runQueue| && s.runQueue[j] == h;
    HeldIsNested(h, s.contexts[h].stack, s.contexts[h].base, s.locks, l);
    assert j > 0 ==> Ahead(s.contexts, s.runQueue[0], s.runQueue[j]);
  }

  /**
   The priority-ceiling argument: a context at the head of the run queue that may take `l` at all never finds it
   held by somebody else.
   */
  lemma HeadFindsLockFree(s: State, l: Lock)
    requires Core(s) && l in s.locks
    requires s.locks[l].ceiling <= s.contexts[s.runQueue[0]].base
    requires l !in s.contexts[s.runQueue[0]].stack
    ensures !s.locks[l].locked
    ensures s.locks[l].owner.None?
  {
    assert LockOk(s, l);
    if s.locks[l].locked {
      HolderIsBehindHead(s, l);
    }
  }

  // ---------- run queue ----------

  lemma PlaceInOrder(q: seq<Context>, cs: map<Context, ContextRecord>, c: Context, k: nat)
    requires Ordered(q, cs) && c in cs && k <= |q|
    requires forall i | 0 <= i < k :: Ahead(cs, q[i], c)
    requires forall i | k <= i < |q| :: Ahead(cs, c, q[i])
    ensures Ordered(q[..k] + [c] + q[k..], cs)
  {
    var r := q[..k] + [c] + q[k..];
    forall i, j | 0 <= i < j < |r| ensures r[i] in cs && r[j] in cs && Ahead(cs, r[i], r[j]) {
      assert r[i] == if i < k then q[i] else if i == k then c else q[i - 1];
      assert r[j] == if j < k then q[j] else if j == k then c else q[j - 1];
    }
  }

  /** In a sorted queue nobody behind the slot would have been passed. */
  lemma SlotSplits(q: seq<Context>, cs: map<Context, ContextRecord>, p: nat, strict: bool, i: nat)
    requires Ordered(q, cs) && Slot(q, cs, p, strict) <= i < |q|
    ensures !Passes(cs[q[i]].priority, p, strict)
  {
    var k := Slot(q, cs, p, strict);
    assert k < i ==> Ahead(cs, q[k], q[i]);
  }

  lemma InsertKeepsOrder(q: seq<Context>, cs: map<Context, ContextRecord>, c: Context, p: nat, strict: bool)
    requires Ordered(q, cs) && c !in q && c in cs && cs[c].priority == p
    requires forall i | 0 <= i < |q| && Passes(cs[q[i]].priority, p, strict) :: cs[c].stack != [] ==> cs[q[i]].base < p
    requires forall i | 0 <= i < |q| && !Passes(cs[q[i]].priority, p, strict) ::
               cs[q[i]].stack != [] ==> cs[c].base < cs[q[i]].priority
    ensures Ordered(Insert(q, cs, c, p, strict), cs)
  {
    var k := Slot(q, cs, p, strict);
    forall i | k <= i < |q| ensures Ahead(cs, c, q[i]) {
      SlotSplits(q, cs, p, strict, i);
    }
    PlaceInOrder(q, cs, c, k);
  }

  lemma InsertMembers(q: seq<Context>, cs: map<Context, ContextRecord>, c: Context, p: nat, strict: bool)
    requires forall i | 0 <= i < |q| :: q[i] in cs
    ensures forall d :: d in Insert(q, cs, c, p, strict) <==> d == c || d in q
  {
    var r := Insert(q, cs, c, p, strict);
    forall d ensures d in r <==> d == c || d in q {
      if d in q {
        var i :| 0 <= i < |q| && q[i] == d;
      }
    }
  }

  /** Insertion looks only at the priorities of the contexts already queued. */
  lemma {:induction false} InsertFrame(q: seq<Context>, cs: map<Context, ContextRecord>,
      cs': map<Context, ContextRecord>, c: Context, p: nat, strict: bool)
    requires forall i | 0 <= i < |q| :: q[i] in cs && q[i] in cs' && cs'[q[i]].priority == cs[q[i]].priority
    ensures Insert(q, cs', c, p, strict) == Insert(q, cs, c, p, strict)
  {
    var k, k' := Slot(q, cs, p, strict), Slot(q, cs', p, strict);
    assert k == k';
  }

  /** A context that holds no lock may join behind its equals. */
  lemma JoinKeepsOrder(q: seq<Context>, cs: map<Context, ContextRecord>, c: Context, r: ContextRecord)
    requires Ordered(q, cs) && c !in q && r.stack == [] && r.priority == r.base
    ensures Ordered(q, cs[c := r])
    ensures var u := Insert(q, cs[c := r], c, r.priority, false);
            && Ordered(u, cs[c := r])
            && (q != [] ==> (u[0] == q[0] <==> cs[q[0]].priority <= r.priority))
  {
    var cs' := cs[c := r];
    forall i, j | 0 <= i < j < |q| ensures Ahead(cs', q[i], q[j]) {
      assert Ahead(cs, q[i], q[j]);
    }
    InsertKeepsOrder(q, cs', c, r.priority, false);
  }

  // ---------- what a step leaves alone ----------

  /** Only locks that are free or belong to `c` differ, and no ceiling does. */
  ghost predicate OnlyLocksOf(s: State, u: State, c: Context) {
    && u.locks.Keys == s.locks.Keys
    && forall l | l in s.locks ::
         && u.locks[l].ceiling == s.locks[l].ceiling
         && (u.locks[l] == s.locks[l] || s.locks[l].owner == None || s.locks[l].owner == Some(c))
  }

  /** The step from `s` to `u` touches no context but `c`. */
  ghost predicate OnlyTouches(s: State, u: State, c: Context) {
    && u.current == s.current
    && u.idle == s.idle
    && OnlyLocksOf(s, u, c)
    && u.contexts.Keys == s.contexts.Keys + {c}
    && (forall d | d in s.contexts && d != c ::
          && u.contexts[d] == s.contexts[d]
          && (d in u.runQueue <==> d in s.runQueue))
    && (forall q, d | q in s.queues && d in s.queues[q] && d != c :: q in u.queues && d in u.queues[q])
  }

  /** Nesting depends only on the records of the locks held. */
  lemma {:induction false} NestedFrame(c: Context, st: seq<Lock>, base: nat, ls: map<Lock, LockRecord>,
      ls': map<Lock, LockRecord>)
    requires Nested(c, st, base, ls)
    requires forall l | l in st && l in ls :: l in ls' && ls'[l] == ls[l]
    ensures Nested(c, st, base, ls') && Level(st, base, ls') == Level(st, base, ls)
    decreases |st|
  {
    if st != [] {
      NestedFrame(c, st[..|st| - 1], base, ls, ls');
    }
  }

  lemma StackFrame(d: Context, r: ContextRecord, s: State, u: State, c: Context)
    requires StackOk(d, r, s.locks) && OnlyLocksOf(s, u, c) && d != c
    ensures StackOk(d, r, u.locks)
  {
    forall l | l in r.stack && l in s.locks ensures u.locks[l] == s.locks[l] {
      HeldIsNested(d, r.stack, r.base, s.locks, l);
    }
    NestedFrame(d, r.stack, r.base, s.locks, u.locks);
  }

  lemma OthersUntouched(s: State, u: State, c: Context, d: Context)
    requires Core(s) && OnlyTouches(s, u, c) && d in s.contexts && d != c
    ensures ContextOk(u, d)
  {
    assert ContextOk(s, d);
    StackFrame(d, s.contexts[d], s, u, c);
  }

  /** The invariant survives a step that is right about the one context and the locks it touches. */
  lemma RebuildCore(s: State, u: State, c: Context)
    requires Core(s) && OnlyTouches(s, u, c)
    requires ContextOk(u, c)
    requires s.idle in u.runQueue
    requires Ordered(u.runQueue, u.contexts)
    requires u.runQueueLen == Low8(|u.runQueue|)
    requires forall l | l in u.locks && u.locks[l] != s.locks[l] :: LockOk(u, l)
    requires c in s.contexts ==>
               forall l | l in s.contexts[c].stack ::
                 l in u.contexts[c].stack || (l in u.locks && l in s.locks && u.locks[l] != s.locks[l])
    requires QueuesOk(u)
    requires !u.trapped
    ensures Core(u)
  {
    forall d | d in u.contexts ensures ContextOk(u, d) {
      if d != c {
        OthersUntouched(s, u, c, d);
      }
    }
    forall l | l in u.locks ensures LockOk(u, l) {
      assert LockOk(s, l);
    }
  }

  // ---------- taking a lock ----------

  lemma PushKeepsStack(c: Context, r: ContextRecord, ls: map<Lock, LockRecord>, l: Lock, r': ContextRecord,
      ls': map<Lock, LockRecord>)
    requires StackOk(c, r, ls) && r.resume.None? && l in ls && l !in r.stack && ls[l].ceiling <= r.priority
    requires ls' == ls[l := LockRecord(true, ls[l].ceiling, r.priority, Some(c))]
    requires r' == r.(priority := ls[l].ceiling, held := Inc8(r.held), stack := r.stack + [l])
    ensures StackOk(c, r', ls')
  {
    NestedFrame(c, r.stack, r.base, ls, ls');
    CounterSteps(|r.stack|);
    assert r'.stack[..|r'.stack| - 1] == r.stack;
  }

  /** Boosting the head of the run queue keeps the queue in order. */
  lemma BoostKeepsOrder(q: seq<Context>, cs: map<Context, ContextRecord>, r: ContextRecord)
    requires Ordered(q, cs) && q != [] && r.priority <= cs[q[0]].priority && r.base == cs[q[0]].base
    ensures Ordered(q, cs[q[0] := r])
  {
    var cs' := cs[q[0] := r];
    forall i, j | 0 <= i < j < |q| ensures Ahead(cs', q[i], q[j]) {
      assert Ahead(cs, q[i], q[j]) && Ahead(cs, q[0], q[j]);
    }
  }

  lemma TakeKeepsInv(s: State, l: Lock)
    requires Inv(s) && l in s.locks && l !in s.contexts[s.current].stack
    requires s.locks[l].ceiling <= s.contexts[s.current].priority
    ensures !s.locks[l].locked
    ensures Closed(s) && Inv(TakeLock(s, l, s.locks[l].ceiling))
  {
    CoreIsClosed(s);
    var c := s.current;
    var r := s.contexts[c];
    assert ContextOk(s, c);
    LevelIsUrgent(c, r.stack, r.base, s.locks);
    HeadFindsLockFree(s, l);
    var u := TakeLock(s, l, s.locks[l].ceiling);
    PushKeepsStack(c, r, s.locks, l, u.contexts[c], u.locks);
    BoostKeepsOrder(s.runQueue, s.contexts, u.contexts[c]);
    RebuildCore(s, u, c);
  }

  // ---------- switching ----------

  ghost predicate NobodyRuns(s: State) {
    forall c | c in s.contexts :: !s.contexts[c].state.Running?
  }

  /** While nobody runs it does not matter who is current. */
  lemma CoreIgnoresCurrent(s: State, c: Context)
    requires Core(s) && NobodyRuns(s) && c in s.contexts
    ensures Core(s.(current := c))
  {
    var s0 := s.(current := c);
    forall d | d in s0.contexts ensures ContextOk(s0, d) { assert ContextOk(s, d); }
    forall l | l in s0.locks ensures LockOk(s0, l) { assert LockOk(s, l); }
  }

  /** Switching to the head of an ordered run queue is safe, and a woken waiter finds its lock free. */
  lemma DispatchEstablishesInv(s: State)
    requires Core(s) && NobodyRuns(s)
    ensures Closed(s) && Inv(Dispatch(s))
    ensures var w := s.contexts[s.runQueue[0]].resume; w.Some? ==> !s.locks[w.value].locked
  {
    CoreIsClosed(s);
    var c := s.runQueue[0];
    var r := s.contexts[c];
    assert ContextOk(s, c);
    var s0 := s.(current := c);
    CoreIgnoresCurrent(s, c);
    var t := SetContext(s0, c, r.(state := Running, wake := r.state, resume := None));
    BoostKeepsOrder(s.runQueue, s.contexts, t.contexts[c]);
    RebuildCore(s0, t, c);
    if r.resume.Some? {
      TakeKeepsInv(t, r.resume.value);
    }
  }

  // ---------- waking ----------

  /** `qs` is the sleep queues of `s` with `c` taken out. */
  ghost predicate TakenOut(s: State, qs: map<WaitQueue, seq<Context>>, c: Context) {
    && qs.Keys == s.queues.Keys
    && NoContextTwice(qs)
    && (forall q, i | q in qs && 0 <= i < |qs[q]| :: qs[q][i] != c && qs[q][i] in s.queues[q])
    && (forall q, d | q in s.queues && d in s.queues[q] && d != c :: d in qs[q])
  }

  lemma SleeperIsUnqueued(s: State, c: Context)
    requires Core(s) && c in s.contexts && s.contexts[c].state.Sleep?
    ensures TakenOut(s, s.queues, c)
  {
  }

  lemma RemoveKeepsUnique(qs: map<WaitQueue, seq<Context>>, q: WaitQueue, i: nat)
    requires NoContextTwice(qs) && q in qs && i < |qs[q]|
    ensures NoContextTwice(qs[q := qs[q][..i] + qs[q][i + 1..]])
    ensures var qs' := qs[q := qs[q][..i] + qs[q][i + 1..]];
            forall p, k :: p in qs' && 0 <= k < |qs'[p]| ==> qs'[p][k] != qs[q][i]
  {
    var w := qs[q];
    var w' := w[..i] + w[i + 1..];
    var qs' := qs[q := w'];
    forall p, k | p in qs && 0 <= k < |qs'[p]| ensures qs'[p][k] != w[i] {
      assert qs'[p][k] == qs[p][if p == q && k >= i then k + 1 else k];
    }
    forall p1, k1, p2, k2 | p1 in qs' && p2 in qs' && 0 <= k1 < |qs'[p1]| && 0 <= k2 < |qs'[p2]|
        && qs'[p1][k1] == qs'[p2][k2]
      ensures p1 == p2 && k1 == k2
    {
      assert qs'[p1][k1] == qs[p1][if p1 == q && k1 >= i then k1 + 1 else k1];
      assert qs'[p2][k2] == qs[p2][if p2 == q && k2 >= i then k2 + 1 else k2];
    }
  }

  lemma RemoveKeepsOthers(w: seq<Context>, i: nat, d: Context)
    requires i < |w| && d != w[i]
    ensures d in w <==> d in w[..i] + w[i + 1..]
  {
    assert w == w[..i] + [w[i]] + w[i + 1..];
  }

  lemma RemoveTakesOut(s: State, q: WaitQueue, i: nat)
    requires QueuesOk(s) && q in s.queues && i < |s.queues[q]|
    ensures var w := s.queues[q]; TakenOut(s, s.queues[q := w[..i] + w[i + 1..]], w[i])
  {
    var w := s.queues[q];
    var qs := s.queues[q := w[..i] + w[i + 1..]];
    RemoveKeepsUnique(s.queues, q, i);
    forall p, d | p in s.queues && d != w[i] ensures d in s.queues[p] <==> d in qs[p] {
      RemoveKeepsOthers(w, i, d);
    }
  }

  lemma WokenIsOk(s: State, u: State, c: Context, reason: RunState)
    requires c in s.contexts && ContextOk(s, c) && u.locks == s.locks && c in u.runQueue
    requires !s.contexts[c].state.Runnable() && (reason.Ready? || reason.Interrupted?)
    requires c in u.contexts && u.contexts[c] == s.contexts[c].(state := reason)
    ensures ContextOk(u, c) && u.contexts[c].stack == [] && u.contexts[c].priority == u.contexts[c].base
  {
  }

  lemma WakeOnlyTouches(s: State, qs: map<WaitQueue, seq<Context>>, c: Context, reason: RunState)
    requires Closed(s) && c in s.contexts && TakenOut(s, qs, c)
    ensures Closed(s.(queues := qs)) && OnlyTouches(s, Wake(s.(queues := qs), c, reason), c)
  {
    forall q, i | q in qs && 0 <= i < |qs[q]| ensures qs[q][i] in s.contexts {
      var j :| 0 <= j < |s.queues[q]| && s.queues[q][j] == qs[q][i];
    }
    var u := Wake(s.(queues := qs), c, reason);
    InsertMembers(s.runQueue, u.contexts, c, s.contexts[c].priority, false);
  }

  lemma QueuesWithout(s: State, u: State, c: Context)
    requires QueuesOk(s) && TakenOut(s, u.queues, c)
    requires forall d | d in s.contexts && d != c :: d in u.contexts && u.contexts[d] == s.contexts[d]
    ensures QueuesOk(u)
  {
    forall q, i | q in u.queues && 0 <= i < |u.queues[q]|
      ensures u.queues[q][i] in u.contexts && u.contexts[u.queues[q][i]].state.SleepQueue?
    {
      var d := u.queues[q][i];
      assert d in s.queues[q] && d != c;
      var j :| 0 <= j < |s.queues[q]| && s.queues[q][j] == d;
    }
  }

  /** Waking a sleeper keeps the invariant. */
  lemma WakeKeepsCore(s: State, qs: map<WaitQueue, seq<Context>>, c: Context, reason: RunState)
    requires Core(s) && c in s.contexts && TakenOut(s, qs, c)
    requires s.contexts[c].state.Sleep? || s.contexts[c].state.SleepQueue?
    requires reason.Ready? || reason.Interrupted?
    ensures Closed(s.(queues := qs))
    ensures Core(Wake(s.(queues := qs), c, reason))
  {
    CoreIsClosed(s);
    WakeOnlyTouches(s, qs, c, reason);
    var u := Wake(s.(queues := qs), c, reason);
    assert ContextOk(s, c);
    WokenIsOk(s, u, c, reason);
    WokenQueue(s, u, c);
    QueuesWithout(s, u, c);
    RebuildCore(s, u, c);
  }

  lemma WokenQueue(s: State, u: State, c: Context)
    requires Ordered(s.runQueue, s.contexts) && c !in s.runQueue && s.runQueueLen == Low8(|s.runQueue|)
    requires c in u.contexts && u.contexts[c].stack == [] && u.contexts[c].priority == u.contexts[c].base
    requires u.contexts == s.contexts[c := u.contexts[c]] && u.runQueueLen == Inc8(s.runQueueLen)
    requires u.runQueue == Insert(s.runQueue, u.contexts, c, u.contexts[c].priority, false)
    ensures Ordered(u.runQueue, u.contexts) && u.runQueueLen == Low8(|u.runQueue|)
  {
    JoinKeepsOrder(s.runQueue, s.contexts, c, u.contexts[c]);
    CounterSteps(|s.runQueue|);
  }

  /** Waking keeps the head where it was exactly when the sleeper is not more urgent. */
  lemma WakeKeepsHead(s: State, qs: map<WaitQueue, seq<Context>>, c: Context, reason: RunState)
    requires Core(s) && c in s.contexts && TakenOut(s, qs, c)
    requires s.contexts[c].state.Sleep? || s.contexts[c].state.SleepQueue?
    ensures Closed(s.(queues := qs))
    ensures var u := Wake(s.(queues := qs), c, reason);
            u.runQueue[0] == s.runQueue[0] <==> s.contexts[s.runQueue[0]].priority <= s.contexts[c].priority
  {
    CoreIsClosed(s);
    WakeOnlyTouches(s, qs, c, reason);
    assert ContextOk(s, c);
    JoinKeepsOrder(s.runQueue, s.contexts, c, s.contexts[c].(state := reason));
  }

  // ---------- releasing a lock ----------

  lemma PopKeepsStack(c: Context, r: ContextRecord, ls: map<Lock, LockRecord>, l: Lock, r': ContextRecord,
      ls': map<Lock, LockRecord>)
    requires StackOk(c, r, ls) && r.stack != [] && r.stack[|r.stack| - 1] == l && l in ls
    requires ls' == ls[l := ls[l].(locked := false, owner := None)]
    requires r'.priority == ls[l].saved && r'.held == Dec8(r.held) && r'.base == r.base
    requires r'.stack == r.stack[..|r.stack| - 1] && (r'.resume == r.resume || (r'.stack == [] && r'.resume == Some(l)))
    ensures StackOk(c, r', ls')
    ensures forall k | k in r.stack :: k == l || k in r'.stack
  {
    assert r.stack == r'.stack + [l];
    NestedFrame(c, r'.stack, r.base, ls, ls');
    CounterSteps(|r.stack|);
    if r'.stack == [] {
      HeldIsNested(c, r.stack, r.base, ls, l);
    }
  }

  /** The priority saved inside the newest lock is between its ceiling and the base priority of the holder. */
  lemma SavedIsBetween(c: Context, r: ContextRecord, ls: map<Lock, LockRecord>)
    requires StackOk(c, r, ls) && r.stack != []
    ensures var l := r.stack[|r.stack| - 1];
            && l in ls && ls[l].owner == Some(c) && r.priority == ls[l].ceiling <= ls[l].saved <= r.base
  {
    LevelIsUrgent(c, r.stack[..|r.stack| - 1], r.base, ls);
  }

  lemma TailIsOrdered(q: seq<Context>, cs: map<Context, ContextRecord>, r: ContextRecord)
    requires Ordered(q, cs) && q != []
    ensures Ordered(q[1..], cs) && Ordered(q[1..], cs[q[0] := r])
    ensures q[0] !in q[1..]
    ensures forall i | 1 <= i < |q| :: Ahead(cs, q[0], q[i])
  {
    var w := q[1..];
    forall i, j | 0 <= i < j < |w| ensures Ahead(cs, w[i], w[j]) && Ahead(cs[q[0] := r], w[i], w[j]) {
      assert Ahead(cs, q[i + 1], q[j + 1]) && Ahead(cs, q[0], q[i + 1]) && Ahead(cs, q[0], q[j + 1]);
    }
    forall i | 0 <= i < |w| ensures w[i] != q[0] {
      assert Ahead(cs, q[0], q[i + 1]);
    }
  }

  /**
   After a release the former holder goes back behind strictly more urgent contexts only; even if it still
   holds other locks, none of those contexts could ask for them.
   */
  lemma ReleaseKeepsOrder(q: seq<Context>, cs: map<Context, ContextRecord>, r: ContextRecord)
    requires Ordered(q, cs) && q != [] && r.base == cs[q[0]].base && r.priority <= r.base
    requires forall i | 1 <= i < |q| && cs[q[i]].stack == [] :: cs[q[i]].base == cs[q[i]].priority
    ensures Ordered(Insert(q[1..], cs[q[0] := r], q[0], r.priority, true), cs[q[0] := r])
  {
    TailIsOrdered(q, cs, r);
    var w := q[1..];
    assert forall i | 0 <= i < |w| :: w[i] == q[i + 1];
    InsertKeepsOrder(w, cs[q[0] := r], q[0], r.priority, true);
  }

  lemma IdleHandsHaveBasePriority(s: State, c: Context)
    requires Core(s) && c in s.contexts && s.contexts[c].stack == []
    ensures s.contexts[c].priority == s.contexts[c].base
  {
    assert ContextOk(s, c);
  }

  /** The state right after a release, before any switch, with the former holder re-inserted. */
  ghost function Released(s: State, l: Lock, st: RunState): State
    requires Scheduled(s) && l in s.locks
  {
    var t := DropLock(s, l);
    var me := t.contexts[s.current].(state := st);
    var cs := t.contexts[s.current := me];
    t.(runQueue := Insert(s.runQueue[1..], cs, s.current, me.priority, true), contexts := cs)
  }

  ghost predicate HoldsOnTop(s: State, l: Lock) {
    && s.current in s.contexts
    && var st := s.contexts[s.current].stack;
    && st != [] && st[|st| - 1] == l
  }

  lemma ReleasedRecords(s: State, l: Lock, st: RunState)
    requires Scheduled(s) && l in s.locks
    ensures var u := Released(s, l, st); u.contexts == s.contexts[s.current := u.contexts[s.current]]
  {
  }

  lemma ReinsertMembers(q: seq<Context>, cs: map<Context, ContextRecord>, p: nat, strict: bool)
    requires q != [] && forall i | 0 <= i < |q[1..]| :: q[1..][i] in cs
    ensures forall d :: d in Insert(q[1..], cs, q[0], p, strict) <==> d in q
  {
    InsertMembers(q[1..], cs, q[0], p, strict);
    assert q == [q[0]] + q[1..];
  }

  lemma ReleasedOnlyTouches(s: State, l: Lock, st: RunState)
    requires Scheduled(s) && l in s.locks && s.locks[l].owner == Some(s.current)
    ensures OnlyTouches(s, Released(s, l, st), s.current)
  {
    ReleasedRecords(s, l, st);
    var u := Released(s, l, st);
    ReinsertMembers(s.runQueue, u.contexts, u.contexts[s.current].priority, true);
  }

  lemma ReleasedOrdered(s: State, l: Lock, st: RunState)
    requires Inv(s) && HoldsOnTop(s, l)
    ensures Scheduled(s) && l in s.locks
    ensures var u := Released(s, l, st); Ordered(u.runQueue, u.contexts)
  {
    InvIsScheduled(s);
    var c := s.current;
    assert ContextOk(s, c);
    SavedIsBetween(c, s.contexts[c], s.locks);
    forall i | 1 <= i < |s.runQueue| && s.contexts[s.runQueue[i]].stack == []
      ensures s.contexts[s.runQueue[i]].base == s.contexts[s.runQueue[i]].priority
    {
      IdleHandsHaveBasePriority(s, s.runQueue[i]);
    }
    var u := Released(s, l, st);
    ReleaseKeepsOrder(s.runQueue, s.contexts, u.contexts[c]);
    ReleasedRecords(s, l, st);
  }

  lemma ReleasedContext(s: State, l: Lock, st: RunState)
    requires Inv(s) && HoldsOnTop(s, l) && st.Runnable()
    ensures Scheduled(s) && l in s.locks && s.locks[l].locked && s.locks[l].owner == Some(s.current)
    ensures s.contexts[s.current].priority <= s.locks[l].saved
    ensures ContextOk(Released(s, l, st), s.current)
    ensures forall k | k in s.contexts[s.current].stack :: k == l || k in Released(s, l, st).contexts[s.current].stack
  {
    HeldLockFacts(s, l);
    var c := s.current;
    var u := Released(s, l, st);
    PopKeepsStack(c, s.contexts[c], s.locks, l, u.contexts[c], u.locks);
  }

  /** The sleep queues name no running context, so a change to its record leaves them in order. */
  lemma QueuesKept(s: State, u: State, c: Context)
    requires QueuesOk(s) && u.queues == s.queues && c in s.contexts && !s.contexts[c].state.SleepQueue?
    requires forall d | d in s.contexts && d != c :: d in u.contexts && u.contexts[d] == s.contexts[d]
    ensures QueuesOk(u)
  {
  }

  lemma ReleasedQueues(s: State, l: Lock, st: RunState)
    requires Inv(s) && HoldsOnTop(s, l)
    ensures Scheduled(s) && l in s.locks && QueuesOk(Released(s, l, st))
  {
    InvIsScheduled(s);
    ReleasedRecords(s, l, st);
    QueuesKept(s, Released(s, l, st), s.current);
  }

  lemma HeldLockFacts(s: State, l: Lock)
    requires Inv(s) && HoldsOnTop(s, l)
    ensures Scheduled(s) && ContextOk(s, s.current) && l in s.locks
    ensures s.locks[l].locked && s.locks[l].owner == Some(s.current)
    ensures s.contexts[s.current].priority <= s.locks[l].saved <= s.contexts[s.current].base
  {
    InvIsScheduled(s);
    assert ContextOk(s, s.current);
    SavedIsBetween(s.current, s.contexts[s.current], s.locks);
    assert LockOk(s, l);
  }

  lemma ReleasedLength(s: State, l: Lock, st: RunState)
    requires Scheduled(s) && l in s.locks
    ensures var u := Released(s, l, st);
            && |u.runQueue| == |s.runQueue| && u.runQueueLen == s.runQueueLen
            && u.trapped == (s.trapped || !s.locks[l].locked)
  {
  }

  lemma ReleasedRest(s: State, l: Lock, st: RunState)
    requires Inv(s) && HoldsOnTop(s, l)
    ensures Scheduled(s) && l in s.locks
    ensures var u := Released(s, l, st); s.idle in u.runQueue && u.runQueueLen == Low8(|u.runQueue|) && !u.trapped
  {
    HeldLockFacts(s, l);
    ReleasedLength(s, l, st);
    ReleasedOnlyTouches(s, l, st);
  }

  lemma ReleasedLocks(s: State, l: Lock, st: RunState)
    requires Inv(s) && HoldsOnTop(s, l)
    ensures Scheduled(s) && l in s.locks
    ensures var u := Released(s, l, st);
            forall k | k in u.locks && k in s.locks && u.locks[k] != s.locks[k] :: LockOk(u, k)
  {
    InvIsScheduled(s);
    ReleasedRecords(s, l, st);
    assert LockOk(s, l);
  }

  lemma ReleasedCore(s: State, l: Lock, st: RunState)
    requires Inv(s) && HoldsOnTop(s, l) && st.Runnable()
    ensures Scheduled(s) && l in s.locks
    ensures Core(Released(s, l, st))
  {
    ReleasedOrdered(s, l, st);
    ReleasedContext(s, l, st);
    ReleasedOnlyTouches(s, l, st);
    ReleasedQueues(s, l, st);
    ReleasedRest(s, l, st);
    ReleasedLocks(s, l, st);
    RebuildCore(s, Released(s, l, st), s.current);
  }

  /** What the release of a lock finds: the lock is held, no urgency is lost, and the caller runs. */
  ghost predicate MayRelease(s: State, l: Lock) {
    && Scheduled(s) && l in s.locks && s.locks[l].locked && s.contexts[s.current].priority <= s.locks[l].saved
    && s.contexts[s.current].state.Running?
  }

  /** The next context in the run queue is strictly more urgent than the one that gives the lock back. */
  ghost predicate NextIsUrgent(s: State, l: Lock)
    requires MayRelease(s, l)
  {
    |s.runQueue| > 1 && DropLock(s, l).contexts[s.runQueue[1]].priority < s.locks[l].saved
  }

  lemma ReleasedClosed(s: State, l: Lock, st: RunState)
    requires MayRelease(s, l)
    ensures Closed(Released(s, l, st)) && Released(s, l, st).runQueue != []
  {
    var u := Released(s, l, st);
    assert forall i | 0 <= i < |u.runQueue| :: u.runQueue[i] in u.contexts;
  }

  lemma ReleaseGivesWay(s: State, l: Lock)
    requires MayRelease(s, l) && NextIsUrgent(s, l)
    ensures Closed(Released(s, l, Ready)) && Released(s, l, Ready).runQueue != []
    ensures UnlockOp(s, l) == Dispatch(Released(s, l, Ready))
  {
    ReleasedClosed(s, l, Ready);
    assert s.(trapped := s.trapped || s.locks[l].saved < s.contexts[s.current].priority) == s;
  }

  lemma ReleaseCarriesOn(s: State, l: Lock)
    requires MayRelease(s, l) && !NextIsUrgent(s, l)
    ensures UnlockOp(s, l) == Released(s, l, Running)
  {
    var t := DropLock(s, l);
    assert s.(trapped := s.trapped || s.locks[l].saved < s.contexts[s.current].priority) == s;
    assert t.contexts[s.current].(state := Running) == t.contexts[s.current];
    assert t.contexts[s.current := t.contexts[s.current]] == t.contexts;
    assert [s.current] + s.runQueue[1..] == s.runQueue;
  }

  /** A release either gives way to a strictly more urgent context or carries on. */
  lemma UnlockIsRelease(s: State, l: Lock)
    requires MayRelease(s, l)
    ensures Closed(Released(s, l, Ready)) && Released(s, l, Ready).runQueue != []
    ensures UnlockOp(s, l) ==
            if NextIsUrgent(s, l) then Dispatch(Released(s, l, Ready)) else Released(s, l, Running)
  {
    ReleasedClosed(s, l, Ready);
    if NextIsUrgent(s, l) {
      ReleaseGivesWay(s, l);
    } else {
      ReleaseCarriesOn(s, l);
    }
  }

  lemma NobodyElseRuns(s: State, u: State)
    requires Core(s) && u.contexts.Keys == s.contexts.Keys && s.current in u.contexts
    requires forall d | d in s.contexts && d != s.current :: u.contexts[d] == s.contexts[d]
    requires !u.contexts[s.current].state.Running?
    ensures NobodyRuns(u)
  {
    forall d | d in u.contexts ensures !u.contexts[d].state.Running? {
      assert ContextOk(s, d);
    }
  }

  /** A state in which the running context has stood down is safe to switch away from. */
  lemma HandOver(s: State, u: State)
    requires Core(s) && Core(u) && OnlyTouches(s, u, s.current) && s.current in s.contexts
    requires !u.contexts[s.current].state.Running?
    ensures Closed(u) && u.runQueue != [] && Inv(Dispatch(u))
  {
    NobodyElseRuns(s, u);
    DispatchEstablishesInv(u);
  }

  lemma UnlockGivesWay(s: State, l: Lock)
    requires Inv(s) && HoldsOnTop(s, l)
    ensures Scheduled(s) && l in s.locks
    ensures var u := Released(s, l, Ready); Closed(u) && u.runQueue != [] && Inv(Dispatch(u))
  {
    HeldLockFacts(s, l);
    ReleasedCore(s, l, Ready);
    ReleasedOnlyTouches(s, l, Ready);
    HandOver(s, Released(s, l, Ready));
  }

  lemma UnlockKeepsInv(s: State, l: Lock)
    requires Inv(s) && HoldsOnTop(s, l)
    ensures Scheduled(s) && l in s.locks
    ensures Inv(UnlockOp(s, l))
  {
    ReleasedContext(s, l, Running);
    UnlockIsRelease(s, l);
    UnlockGivesWay(s, l);
    ReleasedCore(s, l, Running);
  }

  // ---------- sleeping ----------

  /** `qs` is the sleep queues of `s` with `c` added at one place, or unchanged if `c` does not queue. */
  ghost predicate PutIn(s: State, qs: map<WaitQueue, seq<Context>>, c: Context, queued: bool) {
    && qs.Keys == s.queues.Keys
    && NoContextTwice(qs)
    && (forall q, i | q in qs && 0 <= i < |qs[q]| :: (queued && qs[q][i] == c) || qs[q][i] in s.queues[q])
    && (forall q, d | q in s.queues && d in s.queues[q] :: d in qs[q])
    && (queued ==> exists q | q in qs :: c in qs[q])
  }

  lemma InsertKeepsUnique(qs: map<WaitQueue, seq<Context>>, q: WaitQueue, k: nat, c: Context)
    requires NoContextTwice(qs) && q in qs && k <= |qs[q]|
    requires forall p, i :: p in qs && 0 <= i < |qs[p]| ==> qs[p][i] != c
    ensures NoContextTwice(qs[q := qs[q][..k] + [c] + qs[q][k..]])
  {
    var w := qs[q];
    var w' := w[..k] + [c] + w[k..];
    var qs' := qs[q := w'];
    forall p1, k1, p2, k2 | p1 in qs' && p2 in qs' && 0 <= k1 < |qs'[p1]| && 0 <= k2 < |qs'[p2]|
        && qs'[p1][k1] == qs'[p2][k2]
      ensures p1 == p2 && k1 == k2
    {
      assert !(p1 == q && k1 == k) ==> qs'[p1][k1] == qs[p1][if p1 == q && k1 > k then k1 - 1 else k1];
      assert !(p2 == q && k2 == k) ==> qs'[p2][k2] == qs[p2][if p2 == q && k2 > k then k2 - 1 else k2];
    }
  }

  lemma InsertPutsIn(s: State, q: WaitQueue, k: nat, c: Context)
    requires QueuesOk(s) && c in s.contexts && !s.contexts[c].state.SleepQueue?
    requires q in s.queues && k <= |s.queues[q]|
    ensures var w := s.queues[q]; PutIn(s, s.queues[q := w[..k] + [c] + w[k..]], c, true)
  {
    var w := s.queues[q];
    var qs := s.queues[q := w[..k] + [c] + w[k..]];
    InsertKeepsUnique(s.queues, q, k, c);
    assert w == w[..k] + w[k..];
    assert c in qs[q];
  }

  /** The state of a waiter that has handed over `l` and left the run queue, before the switch. */
  ghost function Parked(s: State, qs: map<WaitQueue, seq<Context>>, l: Lock, st: RunState): State
    requires Scheduled(s) && l in s.locks
  {
    var t := DropLock(s, l);
    t.(queues := qs, runQueue := s.runQueue[1..], runQueueLen := Dec8(s.runQueueLen),
       contexts := t.contexts[s.current := t.contexts[s.current].(state := st, resume := Some(l))])
  }

  lemma LeaveKeepsOrder(q: seq<Context>, cs: map<Context, ContextRecord>, r: ContextRecord, idle: Context)
    requires Ordered(q, cs) && q != [] && idle in q && idle != q[0]
    ensures Ordered(q[1..], cs[q[0] := r]) && q[0] !in q[1..] && idle in q[1..]
    ensures forall d :: d != q[0] ==> (d in q[1..] <==> d in q)
  {
    TailIsOrdered(q, cs, r);
    assert q == [q[0]] + q[1..];
  }

  lemma ParkedContext(s: State, qs: map<WaitQueue, seq<Context>>, l: Lock, st: RunState)
    requires Scheduled(s) && ContextOk(s, s.current) && s.contexts[s.current].stack == [l] && l in s.locks
    requires s.current !in s.runQueue[1..]
    requires st.Sleep? || st.SleepQueue?
    requires st.SleepQueue? ==> exists q | q in qs :: s.current in qs[q]
    ensures Dec8(s.contexts[s.current].held) == 0
    ensures ContextOk(Parked(s, qs, l, st), s.current)
  {
    var c := s.current;
    var u := Parked(s, qs, l, st);
    PopKeepsStack(c, s.contexts[c], s.locks, l, u.contexts[c], u.locks);
  }

  lemma QueuesWith(s: State, u: State, c: Context, queued: bool)
    requires QueuesOk(s) && PutIn(s, u.queues, c, queued) && c in s.contexts && !s.contexts[c].state.SleepQueue?
    requires forall d | d in s.contexts && d != c :: d in u.contexts && u.contexts[d] == s.contexts[d]
    requires c in u.contexts && (queued ==> u.contexts[c].state.SleepQueue?)
    ensures QueuesOk(u)
  {
    forall q, i | q in u.queues && 0 <= i < |u.queues[q]|
      ensures u.queues[q][i] in u.contexts && u.contexts[u.queues[q][i]].state.SleepQueue?
    {
      var d := u.queues[q][i];
      if !(queued && d == c) {
        assert d in s.queues[q];
        var j :| 0 <= j < |s.queues[q]| && s.queues[q][j] == d;
      }
    }
  }

  lemma ParkedOnlyTouches(s: State, qs: map<WaitQueue, seq<Context>>, l: Lock, st: RunState)
    requires Scheduled(s) && l in s.locks && s.locks[l].owner == Some(s.current)
    requires PutIn(s, qs, s.current, st.SleepQueue?)
    ensures OnlyTouches(s, Parked(s, qs, l, st), s.current)
  {
    assert s.runQueue == [s.current] + s.runQueue[1..];
  }

  lemma ParkedCore(s: State, qs: map<WaitQueue, seq<Context>>, l: Lock, st: RunState)
    requires Inv(s) && s.contexts[s.current].stack == [l] && s.current != s.idle
    requires st.Sleep? || st.SleepQueue?
    requires PutIn(s, qs, s.current, st.SleepQueue?)
    ensures Scheduled(s) && l in s.locks && Dec8(s.contexts[s.current].held) == 0
    ensures var u := Parked(s, qs, l, st); OnlyTouches(s, u, s.current) && Core(u)
  {
    HeldLockFacts(s, l);
    var c := s.current;
    var u := Parked(s, qs, l, st);
    LeaveKeepsOrder(s.runQueue, s.contexts, u.contexts[c], s.idle);
    ParkedContext(s, qs, l, st);
    ParkedOnlyTouches(s, qs, l, st);
    QueuesWith(s, u, c, st.SleepQueue?);
    CounterSteps(|s.runQueue|);
    ParkedIs(s, qs, l, st);
    RebuildCore(s, u, c);
  }

  lemma ParkedIs(s: State, qs: map<WaitQueue, seq<Context>>, l: Lock, st: RunState)
    requires Scheduled(s) && l in s.locks
    ensures var u := Parked(s, qs, l, st); u.contexts == s.contexts[s.current := u.contexts[s.current]]
  {
  }

  lemma SomebodyElseIsReady(s: State)
    requires Inv(s) && s.current != s.idle
    ensures |s.runQueue| > 1
  {
    var i :| 0 <= i < |s.runQueue| && s.runQueue[i] == s.idle;
  }

  lemma WaitIsPark(s: State, qs: map<WaitQueue, seq<Context>>, l: Lock, st: RunState)
    requires Scheduled(s) && l in s.locks && |s.runQueue| > 1
    requires Closed(s.(queues := qs))
    requires Dec8(s.contexts[s.current].held) == 0
    ensures var u := Parked(s, qs, l, st);
            Closed(u) && u.runQueue != [] && WaitOp(s.(queues := qs), l, st) == Dispatch(u)
  {
    var u := Parked(s, qs, l, st);
    assert forall i | 0 <= i < |u.runQueue| :: u.runQueue[i] == s.runQueue[i + 1];
    assert DropLock(s.(queues := qs), l) == DropLock(s, l).(queues := qs);
  }

  lemma PutInIsClosed(s: State, qs: map<WaitQueue, seq<Context>>, c: Context, queued: bool)
    requires Closed(s) && c in s.contexts && PutIn(s, qs, c, queued)
    ensures Closed(s.(queues := qs))
  {
    forall q, i | q in qs && 0 <= i < |qs[q]| ensures qs[q][i] in s.contexts {
      if qs[q][i] != c {
        var j :| 0 <= j < |s.queues[q]| && s.queues[q][j] == qs[q][i];
      }
    }
  }

  lemma ParkedDispatch(s: State, qs: map<WaitQueue, seq<Context>>, l: Lock, st: RunState)
    requires Inv(s) && s.contexts[s.current].stack == [l] && s.current != s.idle
    requires st.Sleep? || st.SleepQueue?
    requires PutIn(s, qs, s.current, st.SleepQueue?)
    ensures Scheduled(s) && l in s.locks && Dec8(s.contexts[s.current].held) == 0
    ensures var u := Parked(s, qs, l, st); Closed(u) && u.runQueue != [] && Inv(Dispatch(u))
  {
    ParkedCore(s, qs, l, st);
    HandOver(s, Parked(s, qs, l, st));
  }

  /** Going to sleep hands the lock over, and whoever runs next finds its own lock free. */
  lemma WaitKeepsInv(s: State, qs: map<WaitQueue, seq<Context>>, l: Lock, st: RunState)
    requires Inv(s) && s.contexts[s.current].stack == [l] && s.current != s.idle
    requires st.Sleep? || st.SleepQueue?
    requires PutIn(s, qs, s.current, st.SleepQueue?)
    ensures |s.runQueue| > 1 && l in s.locks && Scheduled(s) && Scheduled(s.(queues := qs))
    ensures Inv(WaitOp(s.(queues := qs), l, st))
  {
    SomebodyElseIsReady(s);
    ParkedDispatch(s, qs, l, st);
    PutInIsClosed(s, qs, s.current, st.SleepQueue?);
    WaitIsPark(s, qs, l, st);
  }

  // ---------- yielding, creating, exiting ----------

  lemma ReadyKeepsOrder(q: seq<Context>, cs: map<Context, ContextRecord>, c: Context, st: RunState)
    requires Ordered(q, cs) && c in cs
    ensures Ordered(q, cs[c := cs[c].(state := st)])
  {
    var cs' := cs[c := cs[c].(state := st)];
    forall i, j | 0 <= i < j < |q| ensures Ahead(cs', q[i], q[j]) {
      assert Ahead(cs, q[i], q[j]);
    }
  }

  /** Marking the running context as merely ready, in whatever place the run queue gives it. */
  lemma StandDownKeepsCore(s: State)
    requires Core(s) && s.current in s.runQueue
    ensures var u := SetContext(s, s.current, s.contexts[s.current].(state := Ready)); Core(u) && NobodyRuns(u)
  {
    var c := s.current;
    var u := SetContext(s, c, s.contexts[c].(state := Ready));
    assert ContextOk(s, c);
    ReadyKeepsOrder(s.runQueue, s.contexts, c, Ready);
    RebuildCore(s, u, c);
    NobodyElseRuns(s, u);
  }

  /** Moving the head behind its equals keeps the queue in order, provided the head holds no lock. */
  lemma RotateKeepsOrder(q: seq<Context>, cs: map<Context, ContextRecord>)
    requires Ordered(q, cs) && q != [] && cs[q[0]].stack == [] && cs[q[0]].priority == cs[q[0]].base
    ensures forall i | 0 <= i < |q[1..]| :: q[1..][i] in cs
    ensures var r := Insert(q[1..], cs, q[0], cs[q[0]].priority, false);
            Ordered(r, cs) && |r| == |q| && (forall d :: d in r <==> d in q)
  {
    TailIsOrdered(q, cs, cs[q[0]]);
    JoinKeepsOrder(q[1..], cs, q[0], cs[q[0]]);
    assert cs[q[0] := cs[q[0]]] == cs;
    InsertMembers(q[1..], cs, q[0], cs[q[0]].priority, false);
    assert q == [q[0]] + q[1..];
  }

  lemma RotateKeepsCore(s: State)
    requires Inv(s) && s.contexts[s.current].stack == []
    ensures Scheduled(s)
    ensures var q := Insert(s.runQueue[1..], s.contexts, s.current, s.contexts[s.current].priority, false);
            Core(s.(runQueue := q)) && s.current in q
  {
    InvIsScheduled(s);
    var c := s.current;
    assert ContextOk(s, c);
    RotateKeepsOrder(s.runQueue, s.contexts);
    RebuildCore(s, s.(runQueue := Insert(s.runQueue[1..], s.contexts, c, s.contexts[c].priority, false)), c);
  }

  lemma YieldKeepsInv(s: State)
    requires Inv(s) && s.contexts[s.current].stack == []
    ensures Scheduled(s) && Inv(YieldOp(s))
  {
    RotateKeepsCore(s);
    var t := s.(runQueue := Insert(s.runQueue[1..], s.contexts, s.current, s.contexts[s.current].priority, false));
    if t.runQueue[0] != s.current {
      StandDownKeepsCore(t);
      DispatchEstablishesInv(SetContext(t, s.current, t.contexts[s.current].(state := Ready)));
    }
  }

  /** The state in which a new context has joined the run queue, before any switch. */
  ghost function Joined(s: State, c: Context, p: nat): State
    requires Scheduled(s)
  {
    var cs := s.contexts[c := ContextRecord(p, Ready, 0, Ready, None, p, [])];
    s.(contexts := cs, runQueueLen := Inc8(s.runQueueLen), runQueue := Insert(s.runQueue, cs, c, p, false))
  }

  lemma JoinedOnlyTouches(s: State, c: Context, p: nat)
    requires Scheduled(s)
    ensures var u := Joined(s, c, p);
            OnlyTouches(s, u, c) && ContextOk(u, c) && (s.idle in s.runQueue ==> s.idle in u.runQueue)
  {
    InsertMembers(s.runQueue, Joined(s, c, p).contexts, c, p, false);
  }

  lemma JoinedQueues(s: State, c: Context, p: nat)
    requires Scheduled(s) && QueuesOk(s) && (c in s.contexts ==> !s.contexts[c].state.SleepQueue?)
    ensures QueuesOk(Joined(s, c, p))
  {
  }

  lemma JoinedCore(s: State, c: Context, p: nat)
    requires Inv(s) && (c in s.contexts ==> s.contexts[c].state.Null? && c != s.idle)
    ensures Scheduled(s) && c != s.current && Core(Joined(s, c, p))
  {
    InvIsScheduled(s);
    if c in s.contexts {
      assert ContextOk(s, c);
    }
    var u := Joined(s, c, p);
    JoinKeepsOrder(s.runQueue, s.contexts, c, u.contexts[c]);
    JoinedOnlyTouches(s, c, p);
    JoinedQueues(s, c, p);
    CounterSteps(|s.runQueue|);
    RebuildCore(s, u, c);
  }

  lemma CreateKeepsInv(s: State, c: Context, p: nat)
    requires Inv(s) && (c in s.contexts ==> s.contexts[c].state.Null? && c != s.idle)
    ensures Scheduled(s) && Inv(CreateOp(s, c, p))
  {
    JoinedCore(s, c, p);
    var t := Joined(s, c, p);
    if t.runQueue[0] != s.current {
      assert ContextOk(t, s.current);
      StandDownKeepsCore(t);
      DispatchEstablishesInv(SetContext(t, s.current, t.contexts[s.current].(state := Ready)));
    }
  }

  lemma ExitedCore(s: State, u: State)
    requires Inv(s) && s.contexts[s.current].stack == [] && s.current != s.idle
    requires u == s.(runQueueLen := Dec8(s.runQueueLen), runQueue := s.runQueue[1..],
                     contexts := s.contexts[s.current := s.contexts[s.current].(state := Null)])
    ensures Core(u) && NobodyRuns(u)
  {
    var c := s.current;
    assert ContextOk(s, c);
    LeaveKeepsOrder(s.runQueue, s.contexts, u.contexts[c], s.idle);
    CounterSteps(|s.runQueue|);
    RebuildCore(s, u, c);
    NobodyElseRuns(s, u);
  }

  lemma ExitKeepsInv(s: State)
    requires Inv(s) && s.contexts[s.current].stack == [] && s.current != s.idle
    ensures Scheduled(s) && |s.runQueue| > 1 && Inv(ExitOp(s))
  {
    InvIsScheduled(s);
    SomebodyElseIsReady(s);
    var u := s.(runQueueLen := Dec8(s.runQueueLen), runQueue := s.runQueue[1..],
                contexts := s.contexts[s.current := s.contexts[s.current].(state := Null)]);
    ExitedCore(s, u);
    DispatchEstablishesInv(u);
  }

  // ---------- signalling ----------

  lemma WakeKeepsInv(s: State, qs: map<WaitQueue, seq<Context>>, c: Context, reason: RunState)
    requires Inv(s) && c in s.contexts && TakenOut(s, qs, c)
    requires s.contexts[c].state.Sleep? || s.contexts[c].state.SleepQueue?
    requires reason.Ready? || reason.Interrupted?
    requires s.contexts[s.current].priority <= s.contexts[c].priority
    ensures Closed(s.(queues := qs)) && Inv(Wake(s.(queues := qs), c, reason))
  {
    WakeKeepsCore(s, qs, c, reason);
    WakeKeepsHead(s, qs, c, reason);
  }

  lemma SignalKeepsInv(s: State, c: Context, reason: RunState)
    requires Inv(s) && c in s.contexts && s.contexts[c].state.Sleep?
    requires reason.Ready? || reason.Interrupted?
    requires s.contexts[s.current].priority <= s.contexts[c].priority
    ensures Closed(s) && Inv(Wake(s, c, reason))
  {
    SleeperIsUnqueued(s, c);
    WakeKeepsInv(s, s.queues, c, reason);
    assert s.(queues := s.queues) == s;
  }

  lemma WakeFromQueueKeepsInv(s: State, q: WaitQueue, i: nat, reason: RunState)
    requires Inv(s) && q in s.queues && i < |s.queues[q]|
    requires reason.Ready? || reason.Interrupted?
    requires s.queues[q][i] in s.contexts && s.contexts[s.current].priority <= s.contexts[s.queues[q][i]].priority
    ensures Closed(s) && Inv(WakeFrom(s, q, i, reason))
  {
    CoreIsClosed(s);
    var w := s.queues[q];
    RemoveTakesOut(s, q, i);
    WakeKeepsInv(s, s.queues[q := w[..i] + w[i + 1..]], w[i], reason);
  }

  lemma SignalQueueKeepsInv(s: State, q: WaitQueue)
    requires Inv(s) && q in s.queues && s.queues[q] != []
    requires s.queues[q][0] in s.contexts && s.contexts[s.current].priority <= s.contexts[s.queues[q][0]].priority
    ensures Closed(s) && Inv(SignalQueueOp(s, q))
  {
    WakeFromQueueKeepsInv(s, q, 0, Ready);
  }

  lemma InterruptQueueKeepsInv(s: State, c: Context, q: WaitQueue)
    requires Inv(s) && q in s.queues && c in s.queues[q]
    requires c in s.contexts && s.contexts[s.current].priority <= s.contexts[c].priority
    ensures Closed(s) && Inv(InterruptQueueOp(s, c, q))
  {
    WakeFromQueueKeepsInv(s, q, IndexOf(c, s.queues[q]), Interrupted);
  }

  /** Waking contexts does not depend on what the sleep queues say. */
  lemma {:induction false} WakeAllIgnoresQueues(s: State, qs: map<WaitQueue, seq<Context>>, w: seq<Context>)
    requires Closed(s) && Closed(s.(queues := qs)) && forall i | 0 <= i < |w| :: w[i] in s.contexts
    ensures WakeAll(s.(queues := qs), w) == WakeAll(s, w).(queues := qs)
    decreases |w|
  {
    if w != [] {
      WakeIsClosed(s, w[0], Ready);
      WakeIsClosed(s.(queues := qs), w[0], Ready);
      assert Wake(s.(queues := qs), w[0], Ready) == Wake(s, w[0], Ready).(queues := qs);
      WakeAllIgnoresQueues(Wake(s, w[0], Ready), qs, w[1..]);
    }
  }

  /** Signalling is waking the head and unlinking it. */
  lemma SignalIsWake(s: State, q: WaitQueue)
    requires Closed(s) && q in s.queues && s.queues[q] != []
    ensures SignalQueueOp(s, q) == Wake(s, s.queues[q][0], Ready).(queues := s.queues[q := s.queues[q][1..]])
    ensures Closed(SignalQueueOp(s, q))
  {
    var w := s.queues[q];
    assert w[..0] + w[1..] == w[1..];
    assert forall i | 0 <= i < |w[1..]| :: w[1..][i] == w[i + 1];
    WakeIsClosed(s, w[0], Ready);
  }

  lemma BroadcastWakesAll(t: State, qs: map<WaitQueue, seq<Context>>, q: WaitQueue)
    requires Closed(t) && Closed(t.(queues := qs)) && q in qs
    ensures BroadcastQueueOp(t.(queues := qs), q) == WakeAll(t, qs[q]).(queues := qs[q := []])
  {
    WakeAllIgnoresQueues(t, qs, qs[q]);
  }

  lemma LastUpdateWins(qs: map<WaitQueue, seq<Context>>, q: WaitQueue, w: seq<Context>, w': seq<Context>)
    ensures qs[q := w][q := w'] == qs[q := w']
  {
  }

  /** A broadcast is a signal repeated until the queue is empty. */
  lemma BroadcastIsRepeatedSignal(s: State, q: WaitQueue)
    requires Closed(s) && q in s.queues && s.queues[q] != []
    ensures Closed(SignalQueueOp(s, q))
    ensures BroadcastQueueOp(s, q) == BroadcastQueueOp(SignalQueueOp(s, q), q)
  {
    var w := s.queues[q];
    SignalIsWake(s, q);
    WakeIsClosed(s, w[0], Ready);
    BroadcastWakesAll(Wake(s, w[0], Ready), s.queues[q := w[1..]], q);
    LastUpdateWins(s.queues, q, w[1..], []);
  }

  lemma {:induction false} BroadcastKeepsInv(s: State, q: WaitQueue)
    requires Inv(s) && q in s.queues && Outranks(s, s.contexts[s.current].priority, s.queues[q])
    ensures Closed(s) && Inv(BroadcastQueueOp(s, q))
    decreases |s.queues[q]|
  {
    CoreIsClosed(s);
    var w := s.queues[q];
    if w == [] {
      assert s.queues[q := []] == s.queues;
    } else {
      SignalQueueKeepsInv(s, q);
      BroadcastIsRepeatedSignal(s, q);
      var t := SignalQueueOp(s, q);
      SignalLeavesPriorities(s, q);
      BroadcastKeepsInv(t, q);
    }
  }

  lemma SignalLeavesPriorities(s: State, q: WaitQueue)
    requires Closed(s) && q in s.queues && s.queues[q] != []
    requires Outranks(s, s.contexts[s.current].priority, s.queues[q])
    ensures var t := SignalQueueOp(s, q);
            && t.current == s.current && t.current in t.contexts && t.queues[q] == s.queues[q][1..]
            && Outranks(t, t.contexts[t.current].priority, t.queues[q])
  {
    SignalIsWake(s, q);
    var t := SignalQueueOp(s, q);
    assert forall i | 0 <= i < |t.queues[q]| :: t.queues[q][i] == s.queues[q][i + 1];
  }

  // ---------- whole runs ----------

  ghost predicate LeavesRunQueue(op: Op) {
    op.Wait? || op.WaitOn? || op.WaitByPriority? || op.Exit?
  }

  /** One operation of the running context, or of an interrupt handler running on top of it. */
  ghost function Apply(s: State, op: Op): State
    requires Scheduled(s) && Disciplined(s, op) && (LeavesRunQueue(op) ==> |s.runQueue| > 1)
  {
    match op
    case TakeSpinlock(l) => LockOp(s, l)
    case IsrTakeSpinlock(l) => IsrLockOp(s, l)
    case ReleaseSpinlock(l) => UnlockOp(s, l)
    case Wait(l) => assert s.contexts[s.current].stack[0] == l; WaitOp(s, l, Sleep)
    case WaitOn(l, q) => assert s.contexts[s.current].stack[0] == l; WaitQueueOp(s, l, q)
    case WaitByPriority(l, q) => assert s.contexts[s.current].stack[0] == l; WaitPriQueueOp(s, l, q)
    case Signal(c) => SignalOp(s, c)
    case SignalFirst(q) => SignalQueueOp(s, q)
    case Broadcast(q) => BroadcastQueueOp(s, q)
    case Interrupt(c) => InterruptOp(s, c)
    case InterruptOn(c, q) => InterruptQueueOp(s, c, q)
    case Yield => YieldOp(s)
    case Create(c, p) => CreateOp(s, c, p)
    case Exit => ExitOp(s)
  }

  /** A disciplined caller can always take its step. */
  lemma NeverStuck(s: State, op: Op)
    requires Inv(s)
    ensures Scheduled(s)
    ensures Disciplined(s, op) && LeavesRunQueue(op) ==> |s.runQueue| > 1
  {
    InvIsScheduled(s);
    if s.current != s.idle {
      SomebodyElseIsReady(s);
    }
  }

  lemma TakeStep(s: State, l: Lock)
    requires Inv(s) && l in s.locks && l !in s.contexts[s.current].stack
    requires s.locks[l].ceiling <= s.contexts[s.current].priority
    ensures Scheduled(s) && !s.locks[l].locked
    ensures Inv(LockOp(s, l)) && (s.locks[l].ceiling == 0 ==> Inv(IsrLockOp(s, l)))
  {
    InvIsScheduled(s);
    TakeKeepsInv(s, l);
    assert s.(trapped := s.trapped) == s;
  }

  lemma WaitStep(s: State, op: Op)
    requires Inv(s) && (op.Wait? || op.WaitOn? || op.WaitByPriority?)
    requires Scheduled(s) && Disciplined(s, op)
    ensures |s.runQueue| > 1 && Inv(Apply(s, op))
  {
    SomebodyElseIsReady(s);
    match op
    case Wait(l) =>
      assert PutIn(s, s.queues, s.current, false);
      WaitKeepsInv(s, s.queues, l, Sleep);
      assert s.(queues := s.queues) == s;
    case WaitOn(l, q) =>
      InsertPutsIn(s, q, 0, s.current);
      var w := s.queues[q];
      assert w[..0] + [s.current] + w[0..] == [s.current] + w;
      WaitKeepsInv(s, s.queues[q := [s.current] + w], l, SleepQueue);
    case WaitByPriority(l, q) =>
      var w := s.queues[q];
      InsertPutsIn(s, q, Slot(w, s.contexts, s.locks[l].saved, false), s.current);
      WaitKeepsInv(s, s.queues[q := Insert(w, s.contexts, s.current, s.locks[l].saved, false)], l, SleepQueue);
  }

  lemma WakeStep(s: State, op: Op)
    requires Inv(s) && (op.Signal? || op.Interrupt? || op.SignalFirst? || op.Broadcast? || op.InterruptOn?)
    requires Scheduled(s) && Disciplined(s, op)
    ensures Inv(Apply(s, op))
  {
    match op
    case Signal(c) =>
      if s.contexts[c].state.Sleep? { SignalKeepsInv(s, c, Ready); }
    case Interrupt(c) =>
      if s.contexts[c].state.Sleep? { SignalKeepsInv(s, c, Interrupted); }
    case SignalFirst(q) =>
      if s.queues[q] != [] {
        assert s.queues[q][..1][0] == s.queues[q][0];
        SignalQueueKeepsInv(s, q);
      }
    case Broadcast(q) =>
      BroadcastKeepsInv(s, q);
    case InterruptOn(c, q) =>
      if c in s.queues[q] { InterruptQueueKeepsInv(s, c, q); }
  }

  /** Every operation of a disciplined caller keeps the invariant. */
  lemma StepKeepsInv(s: State, op: Op)
    requires Inv(s) && Scheduled(s) && Disciplined(s, op)
    ensures LeavesRunQueue(op) ==> |s.runQueue| > 1
    ensures Inv(Apply(s, op))
  {
    NeverStuck(s, op);
    match op
    case TakeSpinlock(l) => TakeStep(s, l);
    case IsrTakeSpinlock(l) => TakeStep(s, l);
    case ReleaseSpinlock(l) => UnlockKeepsInv(s, l);
    case Wait(l) => WaitStep(s, op);
    case WaitOn(l, q) => WaitStep(s, op);
    case WaitByPriority(l, q) => WaitStep(s, op);
    case Signal(c) => WakeStep(s, op);
    case Interrupt(c) => WakeStep(s, op);
    case SignalFirst(q) => WakeStep(s, op);
    case Broadcast(q) => WakeStep(s, op);
    case InterruptOn(c, q) => WakeStep(s, op);
    case Yield => YieldKeepsInv(s);
    case Create(c, p) => CreateKeepsInv(s, c, p);
    case Exit => ExitKeepsInv(s);
  }
}
