/**
 What the scheduler promises over whole runs, and why the lock discipline is needed.
 */
module CeilingTheorems {
  import opened Collections
  import opened Contexts
  import opened PriorityCeiling

  // ---------- runs ----------

  /** Just after start-up only the idle context exists, every lock is free and every sleep queue is empty. */
  ghost predicate Boot(s: State) {
    && s.current == s.idle
    && s.contexts.Keys == {s.idle}
    && s.runQueue == [s.idle]
    && s.runQueueLen == 1
    && (var r := s.contexts[s.idle];
        r == ContextRecord(r.base, Running, 0, r.wake, None, r.base, []))
    && (forall l | l in s.locks :: !s.locks[l].locked && s.locks[l].owner == None)
    && (forall q | q in s.queues :: s.queues[q] == [])
    && !s.trapped
  }

  ghost predicate Step(s: State, op: Op, t: State) {
    && Scheduled(s)
    && Disciplined(s, op)
    && (LeavesRunQueue(op) ==> |s.runQueue| > 1)
    && t == Apply(s, op)
  }

  ghost predicate IsRun(trace: seq<State>, ops: seq<Op>) {
    && |trace| == |ops| + 1
    && forall i | 0 <= i < |ops| :: Step(trace[i], ops[i], trace[i + 1])
  }

  lemma BootEstablishesInv(s: State)
    requires Boot(s)
    ensures Inv(s)
  {
    assert s.runQueue[0] == s.idle;
    assert ContextOk(s, s.idle);
    assert forall l | l in s.locks :: LockOk(s, l);
  }

  lemma {:induction false} RunKeepsInv(trace: seq<State>, ops: seq<Op>, n: nat)
    requires IsRun(trace, ops) && Boot(trace[0]) && n < |trace|
    ensures Inv(trace[n])
  {
    if n == 0 {
      BootEstablishesInv(trace[0]);
    } else {
      RunKeepsInv(trace, ops, n - 1);
      assert Step(trace[n - 1], ops[n - 1], trace[n - 1 + 1]);
      StepKeepsInv(trace[n - 1], ops[n - 1]);
    }
  }

  /**
   The priority-ceiling theorem: in every disciplined run no debug trap is ever reached, and whenever a context or
   an interrupt handler takes a lock, the lock is free.
   */
  lemma DisciplinedRunsNeverMeetALock(trace: seq<State>, ops: seq<Op>, n: nat)
    requires IsRun(trace, ops) && Boot(trace[0]) && n < |trace|
    ensures !trace[n].trapped
    ensures n < |ops| && (ops[n].TakeSpinlock? || ops[n].IsrTakeSpinlock?) ==>
              ops[n].l in trace[n].locks && !trace[n].locks[ops[n].l].locked
  {
    RunKeepsInv(trace, ops, n);
    if n < |ops| && (ops[n].TakeSpinlock? || ops[n].IsrTakeSpinlock?) {
      assert Step(trace[n], ops[n], trace[n + 1]);
      TakeStep(trace[n], ops[n].l);
    }
  }

  /** No two contexts ever hold the same lock, and a held lock is always marked as held. */
  lemma OneHolder(s: State, a: Context, b: Context, l: Lock)
    requires Inv(s) && a in s.contexts && b in s.contexts
    requires l in s.contexts[a].stack && l in s.contexts[b].stack
    ensures a == b && l in s.locks && s.locks[l].locked
  {
    assert ContextOk(s, a) && ContextOk(s, b);
    HeldIsNested(a, s.contexts[a].stack, s.contexts[a].base, s.locks, l);
    HeldIsNested(b, s.contexts[b].stack, s.contexts[b].base, s.locks, l);
    assert LockOk(s, l);
  }

  // ---------- who runs ----------

  /** At every scheduling point the running context is at least as urgent as every other runnable one. */
  lemma MostUrgentRuns(s: State, c: Context)
    requires Inv(s) && c in s.contexts && s.contexts[c].state.Runnable()
    ensures c in s.runQueue
    ensures s.contexts[s.current].priority <= s.contexts[c].priority
  {
    assert ContextOk(s, c);
    var i :| 0 <= i < |s.runQueue| && s.runQueue[i] == c;
    assert i > 0 ==> Ahead(s.contexts, s.runQueue[0], s.runQueue[i]);
  }

  /**
   At any moment, of the contexts that stand ahead of a runnable context at most one was created less urgent than it.
   */
  lemma AtMostOneInversion(s: State, i: nat, j: nat, k: nat)
    requires Inv(s) && i < k < |s.runQueue| && j < k
    requires s.contexts[s.runQueue[i]].base > s.contexts[s.runQueue[k]].base
    requires s.contexts[s.runQueue[j]].base > s.contexts[s.runQueue[k]].base
    ensures i == j
  {
    if i < j {
      InversionIsAlone(s, i, j, k);
    } else if j < i {
      InversionIsAlone(s, j, i, k);
    }
  }

  lemma InversionIsAlone(s: State, i: nat, j: nat, k: nat)
    requires Inv(s) && i < j < k < |s.runQueue|
    requires s.contexts[s.runQueue[j]].base > s.contexts[s.runQueue[k]].base
    ensures s.contexts[s.runQueue[i]].base < s.contexts[s.runQueue[k]].base
  {
    var a, b, c := s.runQueue[i], s.runQueue[j], s.runQueue[k];
    assert ContextOk(s, b) && ContextOk(s, c);
    LevelIsUrgent(c, s.contexts[c].stack, s.contexts[c].base, s.locks);
    assert Ahead(s.contexts, b, c) && Ahead(s.contexts, a, b);
  }

  /** What stands where after `c` is put in at place k. */
  lemma SpliceAt(q: seq<Context>, c: Context, k: nat, r: seq<Context>)
    requires k <= |q| && c !in q && r == q[..k] + [c] + q[k..]
    ensures |r| == |q| + 1 && r[k] == c
    ensures forall i | 0 <= i < k :: r[i] == q[i] && r[i] != c
    ensures forall i | k < i < |r| :: r[i] == q[i - 1] && r[i] != c
  {
  }

  /** Insertion places a context behind exactly the contexts that its scan passes. */
  lemma InsertPlace(q: seq<Context>, cs: map<Context, ContextRecord>, c: Context, p: nat, strict: bool) returns (k: nat)
    requires Ordered(q, cs) && c !in q
    ensures var r := Insert(q, cs, c, p, strict);
            && k < |r| && r[k] == c
            && (forall i | 0 <= i < k :: r[i] in cs && r[i] != c && Passes(cs[r[i]].priority, p, strict))
            && (forall i | k < i < |r| :: r[i] in cs && r[i] != c && !Passes(cs[r[i]].priority, p, strict))
  {
    k := Slot(q, cs, p, strict);
    var r := Insert(q, cs, c, p, strict);
    SpliceAt(q, c, k, r);
    forall i | k < i < |r| ensures r[i] in cs && r[i] != c && !Passes(cs[r[i]].priority, p, strict) {
      SlotSplits(q, cs, p, strict, i - 1);
    }
  }

  lemma ReleasedQueue(s: State, l: Lock, st: RunState)
    requires Scheduled(s) && l in s.locks && s.current !in s.runQueue[1..]
    ensures Released(s, l, st).runQueue == Insert(s.runQueue[1..], s.contexts, s.current, s.locks[l].saved, true)
  {
    ReleasedRecords(s, l, st);
    InsertFrame(s.runQueue[1..], s.contexts, Released(s, l, st).contexts, s.current, s.locks[l].saved, true);
  }

  /** Whether or not a release switches, the run queue is the one with the former holder re-inserted. */
  lemma UnlockQueue(s: State, l: Lock)
    requires Inv(s) && HoldsOnTop(s, l)
    ensures Scheduled(s) && l in s.locks && s.current !in s.runQueue[1..]
    ensures UnlockOp(s, l).runQueue == Insert(s.runQueue[1..], s.contexts, s.current, s.locks[l].saved, true)
  {
    HeldLockFacts(s, l);
    UnlockIsRelease(s, l);
    TailIsOrdered(s.runQueue, s.contexts, s.contexts[s.current]);
    ReleasedQueue(s, l, Ready);
    ReleasedQueue(s, l, Running);
  }

  /** A context that releases a lock stays ahead of its equals: only strictly more urgent ones pass it. */
  lemma PreemptedStaysAhead(s: State, l: Lock) returns (k: nat)
    requires Inv(s) && HoldsOnTop(s, l)
    ensures Scheduled(s) && l in s.locks
    ensures var q := UnlockOp(s, l).runQueue;
            && k < |q| && q[k] == s.current
            && (forall i | 0 <= i < k :: q[i] in s.contexts && s.contexts[q[i]].priority < s.locks[l].saved)
            && (forall i | k < i < |q| :: q[i] in s.contexts && s.contexts[q[i]].priority >= s.locks[l].saved)
  {
    UnlockQueue(s, l);
    TailIsOrdered(s.runQueue, s.contexts, s.contexts[s.current]);
    k := InsertPlace(s.runQueue[1..], s.contexts, s.current, s.locks[l].saved, true);
  }

  lemma YieldQueue(s: State)
    requires Scheduled(s)
    ensures YieldOp(s).runQueue == Insert(s.runQueue[1..], s.contexts, s.current, s.contexts[s.current].priority, false)
  {
  }

  /** A context that yields goes behind its equals: everything left behind it is strictly less urgent. */
  lemma YieldingGoesBehind(s: State) returns (k: nat)
    requires Inv(s)
    ensures Scheduled(s)
    ensures var q := YieldOp(s).runQueue; var p := s.contexts[s.current].priority;
            && k < |q| && q[k] == s.current
            && (forall i | 0 <= i < k :: q[i] in s.contexts && s.contexts[q[i]].priority <= p)
            && (forall i | k < i < |q| :: q[i] in s.contexts && s.contexts[q[i]].priority > p)
  {
    InvIsScheduled(s);
    YieldQueue(s);
    TailIsOrdered(s.runQueue, s.contexts, s.contexts[s.current]);
    k := InsertPlace(s.runQueue[1..], s.contexts, s.current, s.contexts[s.current].priority, false);
  }

  // ---------- why the discipline is needed ----------

  /** Signalling leaves the signaller running exactly when it is at least as urgent as the sleeper it wakes. */
  lemma SignalKeepsSignallerAtHead(s: State, c: Context)
    requires Inv(s) && c in s.contexts && s.contexts[c].state.Sleep?
    ensures Closed(s)
    ensures SignalOp(s, c).runQueue[0] == s.current <==> s.contexts[s.current].priority <= s.contexts[c].priority
  {
    SleeperIsUnqueued(s, c);
    WakeKeepsHead(s, s.queues, c, Ready);
    assert s.(queues := s.queues) == s;
  }

  /**
   A holder that yields keeps the run queue safe exactly when no other runnable context equals its boosted priority.
   */
  lemma YieldWhileHolding(s: State)
    requires Inv(s) && s.contexts[s.current].stack != []
    ensures Scheduled(s)
    ensures Ordered(YieldOp(s).runQueue, s.contexts) <==>
            forall i | 0 < i < |s.runQueue| :: s.contexts[s.runQueue[i]].priority != s.contexts[s.current].priority
  {
    InvIsScheduled(s);
    YieldQueue(s);
    if i :| 0 < i < |s.runQueue| && s.contexts[s.runQueue[i]].priority == s.contexts[s.current].priority {
      EqualMayNotPass(s, i);
      PassedByEqual(s.runQueue, s.contexts, i);
    } else {
      PassedByNone(s.runQueue, s.contexts);
    }
  }

  lemma PassedByEqual(q: seq<Context>, cs: map<Context, ContextRecord>, i: nat)
    requires Ordered(q, cs) && 0 < i < |q| && cs[q[i]].priority == cs[q[0]].priority && !Ahead(cs, q[i], q[0])
    ensures Ordered(q[1..], cs)
    ensures !Ordered(Insert(q[1..], cs, q[0], cs[q[0]].priority, false), cs)
  {
    TailIsOrdered(q, cs, cs[q[0]]);
    var k := InsertPlace(q[1..], cs, q[0], cs[q[0]].priority, false);
    assert q[i] == q[1..][i - 1];
    PassedStandsAhead(q[1..], cs, q[0], cs[q[0]].priority, k, i - 1);
  }

  lemma PassedByNone(q: seq<Context>, cs: map<Context, ContextRecord>)
    requires Ordered(q, cs) && q != []
    requires forall i | 0 < i < |q| :: cs[q[i]].priority != cs[q[0]].priority
    ensures Ordered(q[1..], cs)
    ensures Ordered(Insert(q[1..], cs, q[0], cs[q[0]].priority, false), cs)
  {
    TailIsOrdered(q, cs, cs[q[0]]);
    assert forall i | 0 <= i < |q[1..]| :: q[1..][i] == q[i + 1];
    InsertKeepsOrder(q[1..], cs, q[0], cs[q[0]].priority, false);
  }

  /** A context as urgent as a holder's boosted priority holds no lock, so it may not stand ahead of the holder. */
  lemma EqualMayNotPass(s: State, i: nat)
    requires Inv(s) && s.contexts[s.current].stack != [] && 0 < i < |s.runQueue|
    requires s.contexts[s.runQueue[i]].priority == s.contexts[s.current].priority
    ensures s.contexts[s.runQueue[i]].stack == []
    ensures !Ahead(s.contexts, s.runQueue[i], s.current)
  {
    var c, d := s.current, s.runQueue[i];
    assert ContextOk(s, c) && ContextOk(s, d);
    LevelIsUrgent(c, s.contexts[c].stack, s.contexts[c].base, s.locks);
    assert Ahead(s.contexts, s.runQueue[0], s.runQueue[i]);
  }

  lemma PassedStandsAhead(w: seq<Context>, cs: map<Context, ContextRecord>, c: Context, p: nat, k: nat, i: nat)
    requires Ordered(w, cs) && c in cs && c !in w && i < |w| && Passes(cs[w[i]].priority, p, false)
             && !Ahead(cs, w[i], c)
    requires var r := Insert(w, cs, c, p, false);
             && k < |r| && r[k] == c
             && forall j | k < j < |r| :: r[j] in cs && r[j] != c && !Passes(cs[r[j]].priority, p, false)
    ensures !Ordered(Insert(w, cs, c, p, false), cs)
  {
    var r := Insert(w, cs, c, p, false);
    var j :| 0 <= j < |r| && r[j] == w[i];
    assert j < k && !Ahead(cs, r[j], r[k]);
  }

  /** If a holder yields to an equal, that equal's own, disciplined request meets the held lock and traps. */
  lemma YieldWhileHoldingTraps(s: State, l: Lock)
    requires Inv(s) && HoldsOnTop(s, l) && |s.runQueue| > 1
    requires s.contexts[s.runQueue[1]].priority == s.contexts[s.current].priority
    requires s.contexts[s.runQueue[1]].resume.None?
    ensures Scheduled(s) && Scheduled(YieldOp(s))
    ensures var u := YieldOp(s); u.current == s.runQueue[1] && Disciplined(u, TakeSpinlock(l)) && LockOp(u, l).trapped
  {
    HeldLockFacts(s, l);
    assert ContextOk(s, s.current);
    SavedIsBetween(s.current, s.contexts[s.current], s.locks);
    EqualMayNotPass(s, 1);
    YieldSwitchesTo(s);
  }

  lemma YieldSwitchesTo(s: State)
    requires Scheduled(s) && |s.runQueue| > 1 && s.runQueue[1] != s.current
    requires s.contexts[s.runQueue[1]].priority <= s.contexts[s.current].priority
    requires s.contexts[s.runQueue[1]].resume.None?
    ensures var u := YieldOp(s); var b := s.runQueue[1];
            && Scheduled(u) && u.current == b && u.locks == s.locks && u.queues == s.queues
            && u.contexts == s.contexts[s.current := s.contexts[s.current].(state := Ready)]
                                       [b := s.contexts[b].(state := Running, wake := s.contexts[b].state)]
  {
    var q := Insert(s.runQueue[1..], s.contexts, s.current, s.contexts[s.current].priority, false);
    assert q[0] == s.runQueue[1];
    assert forall i | 0 <= i < |q| :: q[i] in s.contexts;
    SwitchTo(s, q);
  }

  lemma SwitchTo(s: State, q: seq<Context>)
    requires Closed(s) && q != [] && (forall i | 0 <= i < |q| :: q[i] in s.contexts)
    requires s.contexts[q[0]].resume.None? && q[0] != s.current
    ensures var u := SwitchAway(s, q, s.contexts[s.current].(state := Ready)); var b := q[0];
            && Scheduled(u) && u.current == b && u.runQueue == q && u.locks == s.locks
            && u.contexts == s.contexts[s.current := s.contexts[s.current].(state := Ready)]
                                       [b := s.contexts[b].(state := Running, wake := s.contexts[b].state)]
  {
  }

  // ---------- round robin ----------

  /** The first `n` runnable contexts are equally urgent and lock-free, and everybody behind them is less urgent. */
  ghost predicate Band(s: State, n: nat) {
    && 0 < n <= |s.runQueue|
    && (forall i | 0 <= i < |s.runQueue| :: s.runQueue[i] in s.contexts)
    && (forall i | 0 <= i < n ::
          var r := s.contexts[s.runQueue[i]];
          r.priority == s.contexts[s.runQueue[0]].priority && r.stack == [] && r.resume.None?)
    && (n < |s.runQueue| ==> s.contexts[s.runQueue[n]].priority > s.contexts[s.runQueue[0]].priority)
  }

  ghost function Turned(q: seq<Context>, n: nat): (r: seq<Context>)
    requires 0 < n <= |q|
    ensures |r| == |q|
    ensures forall i | 0 <= i < |q| :: r[i] == if i < n - 1 then q[i + 1] else if i == n - 1 then q[0] else q[i]
  {
    q[1..n] + [q[0]] + q[n..]
  }

  lemma BandTurns(s: State, u: State, n: nat)
    requires Band(s, n) && u.runQueue == Turned(s.runQueue, n) && u.contexts.Keys == s.contexts.Keys
    requires forall c | c in s.contexts ::
               && u.contexts[c].priority == s.contexts[c].priority
               && u.contexts[c].stack == s.contexts[c].stack
               && (s.contexts[c].resume.None? ==> u.contexts[c].resume.None?)
    ensures Band(u, n)
  {
  }

  lemma BandSlot(s: State, n: nat)
    requires Scheduled(s) && Band(s, n)
    ensures Insert(s.runQueue[1..], s.contexts, s.current, s.contexts[s.current].priority, false) ==
            Turned(s.runQueue, n)
  {
    BandEnd(s.runQueue, s.contexts, n, Slot(s.runQueue[1..], s.contexts, s.contexts[s.current].priority, false));
  }

  lemma BandEnd(q: seq<Context>, cs: map<Context, ContextRecord>, n: nat, k: nat)
    requires 0 < n <= |q| && k < |q| && (forall i | 0 <= i < |q| :: q[i] in cs)
    requires forall i | 0 <= i < n :: cs[q[i]].priority == cs[q[0]].priority
    requires n < |q| ==> cs[q[n]].priority > cs[q[0]].priority
    requires forall i | 0 <= i < k :: cs[q[1..][i]].priority <= cs[q[0]].priority
    requires k < |q| - 1 ==> cs[q[1..][k]].priority > cs[q[0]].priority
    ensures k == n - 1 && q[1..][..k] + [q[0]] + q[1..][k..] == Turned(q, n)
  {
    assert forall i | 0 <= i < |q| - 1 :: q[1..][i] == q[i + 1];
  }

  /** One yield moves the running context to the back of its band. */
  lemma YieldTurnsBand(s: State, n: nat)
    requires Inv(s) && Band(s, n)
    ensures Scheduled(s)
    ensures var u := YieldOp(s); Inv(u) && Band(u, n) && u.runQueue == Turned(s.runQueue, n)
  {
    YieldKeepsInv(s);
    YieldQueue(s);
    BandSlot(s, n);
    assert n > 1 ==> Ahead(s.contexts, s.runQueue[0], s.runQueue[1]);
    YieldKeepsRecords(s, n);
    BandTurns(s, YieldOp(s), n);
  }

  lemma YieldKeepsRecords(s: State, n: nat)
    requires Scheduled(s) && Band(s, n) && (n > 1 ==> s.runQueue[1] != s.current)
    ensures YieldOp(s).contexts.Keys == s.contexts.Keys
    ensures forall c | c in s.contexts ::
              && YieldOp(s).contexts[c].priority == s.contexts[c].priority
              && YieldOp(s).contexts[c].stack == s.contexts[c].stack
              && (s.contexts[c].resume.None? ==> YieldOp(s).contexts[c].resume.None?)
  {
    if n > 1 {
      YieldSwitchesTo(s);
    } else {
      BandSlot(s, n);
    }
  }

  /** The states passed through when whoever runs yields, again and again. */
  ghost predicate Yielding(run: seq<State>) {
    forall i | 0 <= i < |run| - 1 :: Scheduled(run[i]) && run[i + 1] == YieldOp(run[i])
  }

  /** The queue after `k` turns. */
  ghost function TurnedTimes(q: seq<Context>, n: nat, k: nat): (r: seq<Context>)
    requires 0 < n <= |q|
    ensures |r| == |q|
  {
    if k == 0 then q else Turned(TurnedTimes(q, n, k - 1), n)
  }

  ghost predicate AfterTurns(q: seq<Context>, t: State, n: nat, k: nat) {
    && 0 < n <= |q|
    && Inv(t)
    && Band(t, n)
    && t.runQueue == TurnedTimes(q, n, k)
  }

  lemma TakeTurn(q: seq<Context>, t: State, n: nat, k: nat)
    requires AfterTurns(q, t, n, k)
    ensures Scheduled(t) && AfterTurns(q, YieldOp(t), n, k + 1)
  {
    YieldTurnsBand(t, n);
  }

  lemma {:induction false} TakeTurns(q: seq<Context>, run: seq<State>, n: nat, k: nat)
    requires Yielding(run) && k < |run| && AfterTurns(q, run[0], n, 0)
    ensures AfterTurns(q, run[k], n, k)
  {
    if k > 0 {
      TakeTurns(q, run, n, k - 1);
      TakeTurn(q, run[k - 1], n, k - 1);
    }
  }

  lemma TurnAgain(q: seq<Context>, r: seq<Context>, n: nat, k: nat)
    requires 0 < k <= n <= |q| && r == q[k - 1..n] + q[..k - 1] + q[n..]
    ensures Turned(r, n) == q[k..n] + q[..k] + q[n..]
  {
    assert r[0] == q[k - 1] && r[1..n] == q[k..n] + q[..k - 1] && r[n..] == q[n..];
    assert q[..k] == q[..k - 1] + [q[k - 1]];
  }

  /** After `k` of `n` turns the contexts that had their turn stand behind those that have not. */
  lemma {:induction false} TurnedTimesIs(q: seq<Context>, n: nat, k: nat)
    requires 0 < n <= |q| && k <= n
    ensures TurnedTimes(q, n, k) == q[k..n] + q[..k] + q[n..]
  {
    if k == 0 {
      assert q[0..n] + q[..0] + q[n..] == q;
    } else {
      TurnedTimesIs(q, n, k - 1);
      TurnAgain(q, TurnedTimes(q, n, k - 1), n, k);
    }
  }

  lemma TurnedBack(q: seq<Context>, r: seq<Context>, n: nat, k: nat)
    requires k <= n <= |q| && r == q[k..n] + q[..k] + q[n..]
    ensures k < n ==> r != [] && r[0] == q[k]
    ensures k == n ==> r == q
  {
  }

  /** `n` yields in a row give each of `n` equals one turn, in order, and end where they began. */
  lemma RoundRobin(run: seq<State>, n: nat, k: nat)
    requires Yielding(run) && k < |run| && k <= n && Inv(run[0]) && Band(run[0], n)
    ensures k < n ==> run[k].current == run[0].runQueue[k]
    ensures k == n ==> run[k].runQueue == run[0].runQueue
  {
    var q := run[0].runQueue;
    TakeTurns(q, run, n, k);
    TurnedTimesIs(q, n, k);
    TurnedBack(q, run[k].runQueue, n, k);
  }

  // ---------- what a step leaves alone ----------

  /** From `s` to `u` the record of `d` keeps everything but its state, and that too if `d` was runnable. */
  ghost predicate Undisturbed(s: State, u: State, d: Context) {
    && d in s.contexts && d in u.contexts
    && u.contexts[d] == s.contexts[d].(state := u.contexts[d].state)
    && (s.contexts[d].state.Runnable() ==> u.contexts[d] == s.contexts[d])
  }

  /**
   `d` runs next and is told the state it was waiting in.  If it went to sleep with a lock it holds that lock again, at
   the lock's ceiling; otherwise nothing else of it changes.
   */
  ghost predicate Resumed(s: State, u: State, d: Context) {
    && d in s.contexts && d in u.contexts
    && u.current == d
    && u.contexts[d].wake == s.contexts[d].state
    && u.contexts[d].base == s.contexts[d].base
    && u.contexts[d].resume.None?
    && (match s.contexts[d].resume
        case None => u.contexts[d].stack == s.contexts[d].stack && u.contexts[d].priority == s.contexts[d].priority
        case Some(l) =>
          && l in u.locks && u.locks[l].locked && u.locks[l].owner == Some(d)
          && u.contexts[d].stack == s.contexts[d].stack + [l] && u.contexts[d].priority == u.locks[l].ceiling)
  }

  /** `d` is left alone, unless it is the one to run next. */
  ghost predicate LeftAlone(s: State, u: State, d: Context) {
    if u.current == d then Resumed(s, u, d) else Undisturbed(s, u, d)
  }

  /** `d` either runs next or keeps its record as it was. */
  ghost predicate Untouched(s: State, u: State, d: Context) {
    && d in s.contexts && d in u.contexts
    && if u.current == d then Resumed(s, u, d) else u.contexts[d] == s.contexts[d]
  }

  ghost predicate IsWake(op: Op) {
    op.Signal? || op.Interrupt? || op.SignalFirst? || op.Broadcast? || op.InterruptOn?
  }

  lemma DispatchLeaves(s: State, d: Context)
    requires Closed(s) && s.runQueue != [] && d in s.contexts
    ensures if d == s.runQueue[0] then Resumed(s, Dispatch(s), d)
            else Undisturbed(s, Dispatch(s), d) && Dispatch(s).contexts[d] == s.contexts[d]
    ensures Dispatch(s).current == s.runQueue[0]
  {
  }

  lemma WakeLeaves(s: State, c: Context, reason: RunState, d: Context)
    requires Closed(s) && c in s.contexts && d in s.contexts && !s.contexts[c].state.Runnable()
    ensures Undisturbed(s, Wake(s, c, reason), d)
  {
  }

  lemma {:induction false} WakeAllLeaves(s: State, w: seq<Context>, d: Context)
    requires Closed(s) && d in s.contexts
    requires forall i | 0 <= i < |w| :: w[i] in s.contexts && !s.contexts[w[i]].state.Runnable()
    requires forall i, j | 0 <= i < j < |w| :: w[i] != w[j]
    ensures Undisturbed(s, WakeAll(s, w), d)
    decreases |w|
  {
    if w != [] {
      WakeIsClosed(s, w[0], Ready);
      var t := Wake(s, w[0], Ready);
      assert forall i | 0 <= i < |w[1..]| :: w[1..][i] == w[i + 1];
      WakeAllLeaves(t, w[1..], d);
      if d == w[0] {
        WakeAllSkips(t, w[1..], d);
      }
    }
  }

  lemma {:induction false} WakeAllSkips(s: State, w: seq<Context>, d: Context)
    requires Closed(s) && d in s.contexts && d !in w && (forall i | 0 <= i < |w| :: w[i] in s.contexts)
    ensures WakeAll(s, w).contexts[d] == s.contexts[d]
    decreases |w|
  {
    if w != [] {
      WakeIsClosed(s, w[0], Ready);
      WakeAllSkips(Wake(s, w[0], Ready), w[1..], d);
    }
  }

  lemma WaitStepLeaves(s: State, op: Op, d: Context)
    requires Scheduled(s) && Disciplined(s, op) && (op.Wait? || op.WaitOn? || op.WaitByPriority?) && |s.runQueue| > 1
    requires d in s.contexts && d != s.current
    ensures Untouched(s, Apply(s, op), d)
  {
    assert s.contexts[s.current].stack[0] == op.l;
    match op
    case Wait(l) => WaitLeaves(s, s, l, Sleep, d);
    case WaitOn(l, q) => WaitLeaves(s, s.(queues := s.queues[q := [s.current] + s.queues[q]]), l, SleepQueue, d);
    case WaitByPriority(l, q) =>
      var w := Insert(s.queues[q], s.contexts, s.current, s.locks[l].saved, false);
      assert forall i | 0 <= i < |w| :: w[i] in s.contexts;
      WaitLeaves(s, s.(queues := s.queues[q := w]), l, SleepQueue, d);
  }

  lemma WakeStepLeaves(s: State, op: Op, d: Context)
    requires Scheduled(s) && QueuesOk(s) && Disciplined(s, op) && IsWake(op)
    requires d in s.contexts && d != s.current
    ensures LeftAlone(s, Apply(s, op), d)
  {
    match op
    case Signal(c) => if s.contexts[c].state.Sleep? { WakeLeaves(s, c, Ready, d); }
    case Interrupt(c) => if s.contexts[c].state.Sleep? { WakeLeaves(s, c, Interrupted, d); }
    case SignalFirst(q) => if s.queues[q] != [] { WakeFromLeaves(s, q, 0, Ready, d); }
    case Broadcast(q) => WakeAllLeaves(s, s.queues[q], d);
    case InterruptOn(c, q) => if c in s.queues[q] { WakeFromLeaves(s, q, IndexOf(c, s.queues[q]), Interrupted, d); }
  }

  /**
   A step disturbs no context but the one that ran and the one that runs next; and the one that runs next sees the
   reason it was woken with.
   */
  lemma StepLeaves(s: State, op: Op, d: Context)
    requires Scheduled(s) && QueuesOk(s) && Disciplined(s, op) && (LeavesRunQueue(op) ==> |s.runQueue| > 1)
    requires d in s.contexts && d != s.current && (op.Create? ==> op.c != d)
    ensures LeftAlone(s, Apply(s, op), d)
    ensures !IsWake(op) ==> Untouched(s, Apply(s, op), d)
  {
    if op.Wait? || op.WaitOn? || op.WaitByPriority? {
      WaitStepLeaves(s, op, d);
    } else if IsWake(op) {
      WakeStepLeaves(s, op, d);
    } else {
      match op
      case TakeSpinlock(l) =>
      case IsrTakeSpinlock(l) =>
      case ReleaseSpinlock(l) => UnlockLeaves(s, l, d);
      case Yield => YieldLeaves(s, d);
      case Create(c, p) => CreateLeaves(s, c, p, d);
      case Exit => ExitLeaves(s, d);
    }
  }

  lemma UnlockLeaves(s: State, l: Lock, d: Context)
    requires Scheduled(s) && l in s.locks && d in s.contexts && d != s.current
    ensures Untouched(s, UnlockOp(s, l), d)
  {
    var p := s.locks[l].saved;
    var t := DropLock(s.(trapped := s.trapped || p < s.contexts[s.current].priority), l);
    assert Untouched(s, t, d);
    var q := s.runQueue[1..];
    if q != [] && t.contexts[q[0]].priority < p {
      var me := t.contexts[s.current].(state := Ready);
      var u := Insert(q, t.contexts[s.current := me], s.current, p, true);
      assert forall i | 0 <= i < |u| :: u[i] in t.contexts;
      SwitchAwayLeaves(t, u, me, d);
      assert UnlockOp(s, l) == SwitchAway(t, u, me);
    }
  }

  lemma SwitchAwayLeaves(s: State, q: seq<Context>, r: ContextRecord, d: Context)
    requires Closed(s) && q != []
    requires forall i | 0 <= i < |q| :: q[i] in s.contexts
    requires forall i | 0 <= i < |r.stack| :: r.stack[i] in s.locks
    requires r.resume.Some? ==> r.resume.value in s.locks
    requires d in s.contexts && d != s.current
    ensures Untouched(s, SwitchAway(s, q, r), d)
  {
    DispatchLeaves(s.(runQueue := q, contexts := s.contexts[s.current := r]), d);
  }

  lemma WaitLeaves(s: State, t: State, l: Lock, st: RunState, d: Context)
    requires Scheduled(t) && l in t.locks && |t.runQueue| > 1 && t.contexts == s.contexts && t.current == s.current
    requires d in s.contexts && d != s.current
    ensures Untouched(s, WaitOp(t, l, st), d)
  {
    var v := DropLock(t, l);
    var me := v.contexts[t.current];
    DispatchLeaves(
      v.(trapped := v.trapped || me.held != 0, runQueueLen := Dec8(t.runQueueLen), runQueue := t.runQueue[1..],
         contexts := v.contexts[t.current := me.(state := st, resume := Some(l))]), d);
  }

  lemma WakeFromLeaves(s: State, q: WaitQueue, i: nat, reason: RunState, d: Context)
    requires Closed(s) && q in s.queues && i < |s.queues[q]| && d in s.contexts
    requires !s.contexts[s.queues[q][i]].state.Runnable()
    ensures Undisturbed(s, WakeFrom(s, q, i, reason), d)
    ensures WakeFrom(s, q, i, reason).current == s.current
  {
  }

  lemma YieldLeaves(s: State, d: Context)
    requires Scheduled(s) && d in s.contexts && d != s.current
    ensures Untouched(s, YieldOp(s), d)
  {
    var q := Insert(s.runQueue[1..], s.contexts, s.current, s.contexts[s.current].priority, false);
    assert forall i | 0 <= i < |q| :: q[i] in s.contexts;
    if q[0] != s.current {
      DispatchLeaves(s.(runQueue := q, contexts := s.contexts[s.current := s.contexts[s.current].(state := Ready)]), d);
    }
  }

  lemma CreateLeaves(s: State, c: Context, p: nat, d: Context)
    requires Scheduled(s) && d in s.contexts && d != s.current && d != c
    ensures Untouched(s, CreateOp(s, c, p), d)
  {
    var t := Joined(s, c, p);
    assert forall i | 0 <= i < |t.runQueue| :: t.runQueue[i] in t.contexts;
    if t.runQueue[0] != s.current {
      DispatchLeaves(SetContext(t, s.current, t.contexts[s.current].(state := Ready)), d);
    }
  }

  lemma ExitLeaves(s: State, d: Context)
    requires Scheduled(s) && |s.runQueue| > 1 && d in s.contexts && d != s.current
    ensures Untouched(s, ExitOp(s), d)
  {
    DispatchLeaves(s.(runQueueLen := Dec8(s.runQueueLen), runQueue := s.runQueue[1..],
                      contexts := s.contexts[s.current := s.contexts[s.current].(state := Null)]), d);
  }

  // ---------- priority-ordered sleep queues ----------

  ghost predicate NoLessUrgent(cs: map<Context, ContextRecord>, a: Context, b: Context) {
    a in cs && b in cs && cs[a].priority <= cs[b].priority
  }

  ghost predicate MostUrgentFirst(w: seq<Context>, cs: map<Context, ContextRecord>) {
    && (forall i | 0 <= i < |w| :: w[i] in cs)
    && (forall i, j | 0 <= i < j < |w| :: NoLessUrgent(cs, w[i], w[j]))
  }

  /** What one step can do to one sleep queue that it does not put anybody on. */
  lemma QueueOnlyShrinks(s: State, op: Op, q: WaitQueue)
    requires Scheduled(s) && Disciplined(s, op) && (LeavesRunQueue(op) ==> |s.runQueue| > 1) && q in s.queues
    requires !(op.WaitByPriority? || op.WaitOn?) || op.q != q
    ensures var u := Apply(s, op); var w := s.queues[q];
            && q in u.queues
            && (u.queues[q] == w || u.queues[q] == [] || exists i | 0 <= i < |w| :: u.queues[q] == w[..i] + w[i + 1..])
  {
  }

  lemma PlaceByUrgency(w: seq<Context>, cs: map<Context, ContextRecord>, c: Context, k: nat)
    requires MostUrgentFirst(w, cs) && c in cs && k <= |w|
    requires forall i | 0 <= i < k :: NoLessUrgent(cs, w[i], c)
    requires forall i | k <= i < |w| :: NoLessUrgent(cs, c, w[i])
    ensures MostUrgentFirst(w[..k] + [c] + w[k..], cs)
  {
    var r := w[..k] + [c] + w[k..];
    forall i, j | 0 <= i < j < |r| ensures NoLessUrgent(cs, r[i], r[j]) {
      assert r[i] == if i < k then w[i] else if i == k then c else w[i - 1];
      assert r[j] == if j < k then w[j] else if j == k then c else w[j - 1];
    }
  }

  lemma InsertKeepsUrgency(w: seq<Context>, cs: map<Context, ContextRecord>, c: Context, p: nat,
      cs': map<Context, ContextRecord>)
    requires MostUrgentFirst(w, cs)
    requires forall i | 0 <= i < |w| :: w[i] in cs' && cs'[w[i]].priority == cs[w[i]].priority
    requires c in cs' && cs'[c].priority == p
    ensures MostUrgentFirst(Insert(w, cs, c, p, false), cs')
  {
    var k := Slot(w, cs, p, false);
    forall i, j | 0 <= i < j < |w| ensures NoLessUrgent(cs', w[i], w[j]) {
      assert NoLessUrgent(cs, w[i], w[j]);
    }
    forall i | k <= i < |w| ensures NoLessUrgent(cs', c, w[i]) {
      assert k < i ==> NoLessUrgent(cs, w[k], w[i]);
    }
    PlaceByUrgency(w, cs', c, k);
  }

  lemma ShrunkKeepsUrgency(w: seq<Context>, r: seq<Context>, cs: map<Context, ContextRecord>)
    requires MostUrgentFirst(w, cs)
    requires r == w || r == [] || exists i | 0 <= i < |w| :: r == w[..i] + w[i + 1..]
    ensures MostUrgentFirst(r, cs) && forall k | 0 <= k < |r| :: r[k] in w
  {
    if i :| 0 <= i < |w| && r == w[..i] + w[i + 1..] {
      forall j, k | 0 <= j < k < |r| ensures NoLessUrgent(cs, r[j], r[k]) {
        assert r[j] == w[if j < i then j else j + 1] && r[k] == w[if k < i then k else k + 1];
      }
    }
  }

  /** A context that goes to sleep sleeps at its base priority, the one its lock had saved. */
  lemma SleepsAtSavedPriority(s: State, l: Lock, q: WaitQueue)
    requires Inv(s) && Scheduled(s) && Disciplined(s, WaitByPriority(l, q)) && |s.runQueue| > 1
    ensures l in s.locks && Apply(s, WaitByPriority(l, q)).contexts[s.current].priority == s.locks[l].saved
  {
    var p := s.locks[l].saved;
    var qs := s.queues[q := Insert(s.queues[q], s.contexts, s.current, p, false)];
    InsertPutsIn(s, q, Slot(s.queues[q], s.contexts, p, false), s.current);
    ParkedSleeps(s, qs, l);
  }

  lemma ParkedSleeps(s: State, qs: map<WaitQueue, seq<Context>>, l: Lock)
    requires Inv(s) && s.contexts[s.current].stack == [l] && s.current != s.idle && PutIn(s, qs, s.current, true)
    ensures Scheduled(s) && |s.runQueue| > 1 && l in s.locks && Scheduled(s.(queues := qs))
    ensures WaitOp(s.(queues := qs), l, SleepQueue).contexts[s.current].priority == s.locks[l].saved
  {
    SomebodyElseIsReady(s);
    ParkedCore(s, qs, l, SleepQueue);
    PutInIsClosed(s, qs, s.current, true);
    WaitIsPark(s, qs, l, SleepQueue);
    TailIsOrdered(s.runQueue, s.contexts, s.contexts[s.current]);
    DispatchLeaves(Parked(s, qs, l, SleepQueue), s.current);
  }

  lemma SleepersKeepPriority(s: State, op: Op, d: Context)
    requires Inv(s) && Scheduled(s) && Disciplined(s, op) && (LeavesRunQueue(op) ==> |s.runQueue| > 1)
    requires d in s.contexts && s.contexts[d].state.SleepQueue?
    requires Inv(Apply(s, op)) && d in Apply(s, op).contexts && Apply(s, op).contexts[d].state.SleepQueue?
    ensures Apply(s, op).contexts[d].priority == s.contexts[d].priority
  {
    StepLeaves(s, op, d);
  }

  lemma JoinKeepsUrgency(s: State, l: Lock, q: WaitQueue)
    requires Inv(s) && Scheduled(s) && Disciplined(s, WaitByPriority(l, q)) && |s.runQueue| > 1
    requires MostUrgentFirst(s.queues[q], s.contexts)
    requires Inv(Apply(s, WaitByPriority(l, q)))
    ensures var u := Apply(s, WaitByPriority(l, q)); q in u.queues && MostUrgentFirst(u.queues[q], u.contexts)
  {
    SleepsAtSavedPriority(s, l, q);
    var u := Apply(s, WaitByPriority(l, q));
    var w := s.queues[q];
    InsertMembers(w, s.contexts, s.current, s.locks[l].saved, false);
    forall i | 0 <= i < |w| ensures w[i] in u.contexts && u.contexts[w[i]].priority == s.contexts[w[i]].priority {
      assert w[i] in u.queues[q];
      SleepersKeepPriority(s, WaitByPriority(l, q), w[i]);
    }
    InsertKeepsUrgency(w, s.contexts, s.current, s.locks[l].saved, u.contexts);
  }

  lemma SleepersKeepUrgency(s: State, op: Op, q: WaitQueue, r: seq<Context>)
    requires Inv(s) && Scheduled(s) && Disciplined(s, op) && (LeavesRunQueue(op) ==> |s.runQueue| > 1)
    requires Inv(Apply(s, op)) && q in s.queues && q in Apply(s, op).queues && r == Apply(s, op).queues[q]
    requires MostUrgentFirst(r, s.contexts) && forall i | 0 <= i < |r| :: r[i] in s.queues[q]
    ensures MostUrgentFirst(r, Apply(s, op).contexts)
  {
    var u := Apply(s, op);
    forall i | 0 <= i < |r| ensures r[i] in u.contexts && u.contexts[r[i]].priority == s.contexts[r[i]].priority {
      assert u.contexts[u.queues[q][i]].state.SleepQueue?;
      assert r[i] in s.queues[q];
      SleepersKeepPriority(s, op, r[i]);
    }
    forall i, j | 0 <= i < j < |r| ensures NoLessUrgent(u.contexts, r[i], r[j]) {
      assert NoLessUrgent(s.contexts, r[i], r[j]);
    }
  }

  lemma ShrinkStep(s: State, op: Op, q: WaitQueue)
    requires Inv(s) && Scheduled(s) && Disciplined(s, op) && (LeavesRunQueue(op) ==> |s.runQueue| > 1)
    requires Inv(Apply(s, op)) && q in s.queues && MostUrgentFirst(s.queues[q], s.contexts)
    requires !(op.WaitByPriority? || op.WaitOn?) || op.q != q
    ensures var u := Apply(s, op); q in u.queues && MostUrgentFirst(u.queues[q], u.contexts)
  {
    QueueOnlyShrinks(s, op, q);
    var r, w := Apply(s, op).queues[q], s.queues[q];
    ShrunkKeepsUrgency(w, r, s.contexts);
    SleepersKeepUrgency(s, op, q, r);
  }

  /** A queue joined only through the priority-ordered wait stays ordered, most urgent first, whatever else happens. */
  lemma StepKeepsMostUrgentFirst(s: State, op: Op, q: WaitQueue)
    requires Inv(s) && Scheduled(s) && Disciplined(s, op) && (LeavesRunQueue(op) ==> |s.runQueue| > 1)
    requires q in s.queues && MostUrgentFirst(s.queues[q], s.contexts) && !(op.WaitOn? && op.q == q)
    ensures var u := Apply(s, op); q in u.queues && MostUrgentFirst(u.queues[q], u.contexts)
  {
    StepKeepsInv(s, op);
    if op.WaitByPriority? && op.q == q {
      JoinKeepsUrgency(s, op.l, q);
    } else {
      ShrinkStep(s, op, q);
    }
  }

  /** In a run, nobody joins `q` but through the priority-ordered wait before state n. */
  ghost predicate JoinedByPriority(ops: seq<Op>, q: WaitQueue, n: nat) {
    forall i | 0 <= i < n && i < |ops| :: !(ops[i].WaitOn? && ops[i].q == q)
  }

  lemma {:induction false} RunKeepsMostUrgentFirst(trace: seq<State>, ops: seq<Op>, q: WaitQueue, n: nat)
    requires IsRun(trace, ops) && Boot(trace[0]) && q in trace[0].queues && n < |trace| && JoinedByPriority(ops, q, n)
    ensures q in trace[n].queues && MostUrgentFirst(trace[n].queues[q], trace[n].contexts)
  {
    if n > 0 {
      var k := n - 1;
      RunKeepsMostUrgentFirst(trace, ops, q, k);
      RunKeepsInv(trace, ops, k);
      assert Step(trace[k], ops[k], trace[k + 1]);
      StepKeepsMostUrgentFirst(trace[k], ops[k], q);
    }
  }

  lemma SignalWakesFirst(s: State, q: WaitQueue)
    requires Closed(s) && q in s.queues && s.queues[q] != []
    ensures var w := s.queues[q];
            var u := SignalQueueOp(s, q);
            w[0] in u.contexts && u.contexts[w[0]].state.Ready? && u.queues[q] == w[1..]
  {
    assert s.queues[q][..0] + s.queues[q][1..] == s.queues[q][1..];
  }

  /** In every run, signalling such a queue wakes a waiter that is at least as urgent as all who go on waiting. */
  lemma SignalWakesMostUrgent(trace: seq<State>, ops: seq<Op>, q: WaitQueue, n: nat)
    requires IsRun(trace, ops) && Boot(trace[0]) && q in trace[0].queues && n < |ops| && JoinedByPriority(ops, q, n)
    requires ops[n] == SignalFirst(q)
    ensures q in trace[n].queues
    ensures var w := trace[n].queues[q];
            w != [] ==>
              && w[0] in trace[n].contexts && w[0] in trace[n + 1].contexts && trace[n + 1].contexts[w[0]].state.Ready?
              && forall i | 0 <= i < |w| :: NoLessUrgent(trace[n].contexts, w[0], w[i])
  {
    RunKeepsMostUrgentFirst(trace, ops, q, n);
    assert Step(trace[n], ops[n], trace[n + 1]);
    if trace[n].queues[q] != [] {
      SignalWakesFirst(trace[n], q);
    }
  }
}
