/**
 Bounded priority inversion over whole runs: for as long as a context stays runnable, it is held up by one critical
 section of one less urgent context at most.
 */
module PriorityInversion {
  import opened Collections
  import opened Contexts
  import opened PriorityCeiling
  import opened CeilingTheorems

  ghost predicate IsRunnable(s: State, c: Context) {
    c in s.contexts && s.contexts[c].state.Runnable()
  }

  /**
   `d` was created less urgent than the runnable `c` and is runnable itself, inside a critical section that boosts it to
   where `c` may not pass.
   */
  ghost predicate HoldsUp(s: State, d: Context, c: Context) {
    && IsRunnable(s, c) && IsRunnable(s, d)
    && s.contexts[d].base > s.contexts[c].base
    && s.contexts[d].stack != [] && s.contexts[d].priority <= s.contexts[c].base
  }

  lemma RunnableIsQueued(s: State, c: Context) returns (i: nat)
    requires Inv(s) && IsRunnable(s, c)
    ensures i < |s.runQueue| && s.runQueue[i] == c
    ensures s.contexts[c].priority <= s.contexts[c].base
    ensures s.contexts[c].stack == [] ==> s.contexts[c].priority == s.contexts[c].base
  {
    assert ContextOk(s, c);
    LevelIsUrgent(c, s.contexts[c].stack, s.contexts[c].base, s.locks);
    i :| 0 <= i < |s.runQueue| && s.runQueue[i] == c;
  }

  /** Of two runnable contexts, the one created less urgent stands ahead exactly when it holds the other up. */
  lemma AheadMeansHoldsUp(s: State, i: nat, j: nat)
    requires Inv(s) && i < |s.runQueue| && j < |s.runQueue|
    requires s.contexts[s.runQueue[i]].base > s.contexts[s.runQueue[j]].base
    ensures i < j <==> HoldsUp(s, s.runQueue[i], s.runQueue[j])
  {
    var d, c := s.runQueue[i], s.runQueue[j];
    assert ContextOk(s, d) && ContextOk(s, c);
    var _ := RunnableIsQueued(s, d);
    var _ := RunnableIsQueued(s, c);
    if i < j {
      assert Ahead(s.contexts, d, c);
    } else {
      assert Ahead(s.contexts, c, d);
    }
  }

  // ---------- who runs next ----------

  /** The processor stays, or goes to the context just created, or to the second in the queue. */
  ghost predicate RunsNext(s: State, op: Op, u: State)
    requires s.current in s.contexts
  {
    || u.current == s.current
    || (op.Create? && u.current == op.c)
    || (&& |s.runQueue| > 1 && u.current == s.runQueue[1] && u.current in s.contexts
        && (IsRunnable(u, s.current) ==> s.contexts[u.current].priority <= s.contexts[s.current].base))
  }

  lemma ReleaseRunsNext(s: State, l: Lock)
    requires Inv(s) && HoldsOnTop(s, l)
    ensures Scheduled(s) && l in s.locks && RunsNext(s, ReleaseSpinlock(l), UnlockOp(s, l))
  {
    HeldLockFacts(s, l);
    UnlockIsRelease(s, l);
    TailIsOrdered(s.runQueue, s.contexts, s.contexts[s.current]);
  }

  lemma YieldRunsNext(s: State)
    requires Scheduled(s) && s.current !in s.runQueue[1..]
             && s.contexts[s.current].priority <= s.contexts[s.current].base
    ensures RunsNext(s, Yield, YieldOp(s))
  {
    YieldQueue(s);
  }

  lemma CreateRunsNext(s: State, c: Context, p: nat)
    requires Scheduled(s)
    ensures RunsNext(s, Create(c, p), CreateOp(s, c, p))
  {
  }

  ghost predicate Gone(s: State, u: State) {
    |s.runQueue| > 1 && u.current == s.runQueue[1] && !IsRunnable(u, s.current)
  }

  lemma WaitIsGone(s: State, l: Lock, st: RunState)
    requires Scheduled(s) && l in s.locks && |s.runQueue| > 1 && s.runQueue[1] != s.current && !st.Runnable()
    ensures Gone(s, WaitOp(s, l, st))
  {
    assert s.runQueue[1] == s.runQueue[1..][0];
  }

  lemma ExitIsGone(s: State)
    requires Scheduled(s) && |s.runQueue| > 1 && s.runQueue[1] != s.current
    ensures Gone(s, ExitOp(s))
  {
    assert s.runQueue[1] == s.runQueue[1..][0];
  }

  /** Whoever leaves the run queue is not runnable afterwards. */
  lemma LeaverIsGone(s: State, op: Op)
    requires Scheduled(s) && Disciplined(s, op) && LeavesRunQueue(op) && |s.runQueue| > 1 && s.runQueue[1] != s.current
    ensures Gone(s, Apply(s, op))
  {
    match op
    case Wait(l) =>
      assert s.contexts[s.current].stack[0] == l;
      WaitIsGone(s, l, Sleep);
    case WaitOn(l, q) =>
      assert s.contexts[s.current].stack[0] == l;
      WaitIsGone(s.(queues := s.queues[q := [s.current] + s.queues[q]]), l, SleepQueue);
    case WaitByPriority(l, q) =>
      assert s.contexts[s.current].stack[0] == l;
      var w := Insert(s.queues[q], s.contexts, s.current, s.locks[l].saved, false);
      assert forall i | 0 <= i < |w| :: w[i] in w;
      WaitIsGone(s.(queues := s.queues[q := w]), l, SleepQueue);
    case Exit => ExitIsGone(s);
  }

  lemma StepRunsNext(s: State, op: Op)
    requires Inv(s) && Scheduled(s) && Disciplined(s, op) && (LeavesRunQueue(op) ==> |s.runQueue| > 1)
    ensures RunsNext(s, op, Apply(s, op))
  {
    TailIsOrdered(s.runQueue, s.contexts, s.contexts[s.current]);
    var _ := RunnableIsQueued(s, s.current);
    if LeavesRunQueue(op) {
      LeaverIsGone(s, op);
    } else {
      match op
      case ReleaseSpinlock(l) => ReleaseRunsNext(s, l);
      case Yield => YieldRunsNext(s);
      case Create(c, p) => CreateRunsNext(s, c, p);
      case _ =>
    }
  }

  // ---------- what a step does to the one that ran ----------

  /** The context that ran keeps its base priority, and its outermost lock for as long as it holds any. */
  ghost predicate SameSection(s: State, u: State, d: Context) {
    && d in s.contexts && d in u.contexts && u.contexts[d].base == s.contexts[d].base
    && (s.contexts[d].stack != [] && u.contexts[d].stack != [] ==> u.contexts[d].stack[0] == s.contexts[d].stack[0])
  }

  lemma DispatchKeepsStack(s: State, d: Context)
    requires Closed(s) && s.runQueue != [] && d in s.contexts && (d == s.runQueue[0] ==> s.contexts[d].resume.None?)
    ensures var t := Dispatch(s);
            d in t.contexts && t.contexts[d].base == s.contexts[d].base && t.contexts[d].stack == s.contexts[d].stack
  {
  }

  lemma SwitchKeepsStack(s: State, q: seq<Context>, r: ContextRecord)
    requires Closed(s) && q != [] && r.resume.None?
    requires forall i | 0 <= i < |q| :: q[i] in s.contexts
    requires forall i | 0 <= i < |r.stack| :: r.stack[i] in s.locks
    ensures var t := SwitchAway(s, q, r);
            s.current in t.contexts && t.contexts[s.current].base == r.base && t.contexts[s.current].stack == r.stack
  {
    DispatchKeepsStack(s.(runQueue := q, contexts := s.contexts[s.current := r]), s.current);
  }

  lemma ReleaseKeepsSection(s: State, l: Lock)
    requires Scheduled(s) && l in s.locks && s.contexts[s.current].resume.None?
    ensures SameSection(s, UnlockOp(s, l), s.current)
  {
    var p := s.locks[l].saved;
    var t := DropLock(s.(trapped := s.trapped || p < s.contexts[s.current].priority), l);
    var q := s.runQueue[1..];
    if q != [] && t.contexts[q[0]].priority < p {
      var me := t.contexts[s.current].(state := Ready);
      var cs := t.contexts[s.current := me];
      var u := Insert(q, cs, s.current, p, true);
      assert forall i | 0 <= i < |u| :: u[i] in cs;
      SwitchKeepsStack(t, u, me);
    }
  }

  lemma YieldKeepsSection(s: State)
    requires Scheduled(s) && s.contexts[s.current].resume.None?
    ensures SameSection(s, YieldOp(s), s.current)
  {
    var me := s.contexts[s.current];
    var q := Insert(s.runQueue[1..], s.contexts, s.current, me.priority, false);
    assert forall i | 0 <= i < |q| :: q[i] in s.contexts;
    if q[0] != s.current {
      SwitchKeepsStack(s, q, me.(state := Ready));
    }
  }

  lemma CreateKeepsSection(s: State, c: Context, p: nat)
    requires Scheduled(s) && c != s.current
    ensures SameSection(s, CreateOp(s, c, p), s.current)
  {
  }

  lemma {:induction false} WakeAllKeepsSection(s: State, w: seq<Context>, d: Context)
    requires Closed(s) && (forall i | 0 <= i < |w| :: w[i] in s.contexts) && d in s.contexts
    ensures SameSection(s, WakeAll(s, w), d)
    decreases |w|
  {
    if w != [] {
      WakeIsClosed(s, w[0], Ready);
      WakeAllKeepsSection(Wake(s, w[0], Ready), w[1..], d);
    }
  }

  lemma StepKeepsSection(s: State, op: Op)
    requires Inv(s) && Scheduled(s) && Disciplined(s, op) && !LeavesRunQueue(op)
    ensures SameSection(s, Apply(s, op), s.current)
  {
    TailIsOrdered(s.runQueue, s.contexts, s.contexts[s.current]);
    match op
    case ReleaseSpinlock(l) =>
      HeldLockFacts(s, l);
      ReleaseKeepsSection(s, l);
    case Yield => YieldKeepsSection(s);
    case Create(c, p) => CreateKeepsSection(s, c, p);
    case Broadcast(q) => WakeAllKeepsSection(s, s.queues[q], s.current);
    case _ =>
  }

  // ---------- no new delay ----------

  /** Somebody who neither ran nor runs next: what it holds, it held before. */
  lemma BystanderHeldUp(s: State, u: State, c: Context, d: Context)
    requires Inv(s) && IsRunnable(s, c) && Undisturbed(s, u, d) && HoldsUp(u, d, c)
    requires u.contexts[c].base == s.contexts[c].base
    ensures HoldsUp(s, d, c) && s.contexts[d].stack == u.contexts[d].stack
  {
    assert ContextOk(s, d);
  }

  /** Whoever runs, while `c` is runnable and was created more urgent, is in a critical section. */
  lemma RunnerHoldsUp(s: State, c: Context)
    requires Inv(s) && IsRunnable(s, c) && s.contexts[s.current].base > s.contexts[c].base
    ensures HoldsUp(s, s.current, c)
  {
    var j := RunnableIsQueued(s, c);
    AheadMeansHoldsUp(s, 0, j);
  }

  /** The second in the queue, if it holds no lock, was created no less urgent than anybody who is still runnable. */
  lemma SecondIsUrgent(s: State, op: Op, u: State, c: Context)
    requires Inv(s) && |s.runQueue| > 1 && RunsNext(s, op, u) && u.current == s.runQueue[1]
    requires s.contexts[s.runQueue[1]].stack == [] && IsRunnable(s, c) && IsRunnable(u, c)
    ensures s.contexts[s.runQueue[1]].base <= s.contexts[c].base || (op.Create? && op.c == s.runQueue[1])
  {
    var d := s.runQueue[1];
    assert ContextOk(s, d);
    var _ := RunnableIsQueued(s, d);
    var j := RunnableIsQueued(s, c);
    assert Ahead(s.contexts, s.runQueue[0], d);
    if j > 1 {
      assert Ahead(s.contexts, d, c);
    }
  }

  /** Whoever runs next, if it holds `c` up then, did so before. */
  lemma NextHeldUp(s: State, op: Op, u: State, c: Context)
    requires Inv(s) && RunsNext(s, op, u) && u.current != s.current && (op.Create? ==> op.c != u.current)
    requires IsRunnable(s, c) && HoldsUp(u, u.current, c) && u.contexts[c].base == s.contexts[c].base
    requires u.current in s.contexts && (Undisturbed(s, u, u.current) || Resumed(s, u, u.current))
    ensures HoldsUp(s, u.current, c) && s.contexts[u.current].stack == u.contexts[u.current].stack
  {
    var d := u.current;
    assert ContextOk(s, d);
    if s.contexts[d].stack == [] {
      SecondIsUrgent(s, op, u, c);
    }
  }

  // ---------- one step ----------

  ghost predicate MayStep(s: State, op: Op) {
    Inv(s) && Scheduled(s) && Disciplined(s, op) && (LeavesRunQueue(op) ==> |s.runQueue| > 1)
  }

  lemma SecondIsAnother(s: State)
    requires Inv(s) && |s.runQueue| > 1
    ensures s.runQueue[1] != s.current
  {
    assert Ahead(s.contexts, s.runQueue[0], s.runQueue[1]);
  }

  /** A context that stays runnable keeps the priority it was created with. */
  lemma BaseIsKept(s: State, op: Op, c: Context)
    requires MayStep(s, op) && IsRunnable(s, c) && IsRunnable(Apply(s, op), c)
    ensures Apply(s, op).contexts[c].base == s.contexts[c].base
  {
    if c != s.current {
      StepLeaves(s, op, c);
    } else if !LeavesRunQueue(op) {
      StepKeepsSection(s, op);
    } else {
      SecondIsAnother(s);
      LeaverIsGone(s, op);
      assert false;
    }
  }

  lemma RanHeldUp(s: State, op: Op, c: Context)
    requires MayStep(s, op) && IsRunnable(s, c) && HoldsUp(Apply(s, op), s.current, c)
    ensures HoldsUp(s, s.current, c) && SameSection(s, Apply(s, op), s.current)
  {
    if !LeavesRunQueue(op) {
      BaseIsKept(s, op, c);
      StepKeepsSection(s, op);
      RunnerHoldsUp(s, c);
    } else {
      SecondIsAnother(s);
      LeaverIsGone(s, op);
      assert false;
    }
  }

  lemma CreatedHoldsNothing(s: State, c: Context, p: nat)
    requires Scheduled(s) && c != s.current
    ensures c in CreateOp(s, c, p).contexts && CreateOp(s, c, p).contexts[c].stack == []
  {
  }

  ghost predicate SameKeys(s: State, u: State) {
    u.contexts.Keys == s.contexts.Keys
  }

  lemma KeysAfterWait(s: State, t: State, l: Lock, st: RunState)
    requires Scheduled(t) && l in t.locks && |t.runQueue| > 1 && t.contexts == s.contexts
    ensures SameKeys(s, WaitOp(t, l, st))
  {
  }

  lemma KeysAfterSwitch(s: State, q: seq<Context>, r: ContextRecord)
    requires Closed(s) && q != []
    requires forall i | 0 <= i < |q| :: q[i] in s.contexts
    requires forall i | 0 <= i < |r.stack| :: r.stack[i] in s.locks
    requires r.resume.Some? ==> r.resume.value in s.locks
    ensures SameKeys(s, SwitchAway(s, q, r))
  {
  }

  lemma KeysAfterRelease(s: State, l: Lock)
    requires Scheduled(s) && l in s.locks
    ensures SameKeys(s, UnlockOp(s, l))
  {
    var p := s.locks[l].saved;
    var t := DropLock(s.(trapped := s.trapped || p < s.contexts[s.current].priority), l);
    var q := s.runQueue[1..];
    assert SameKeys(s, t);
    if q != [] && t.contexts[q[0]].priority < p {
      var me := t.contexts[s.current].(state := Ready);
      var cs := t.contexts[s.current := me];
      var u := Insert(q, cs, s.current, p, true);
      assert forall i | 0 <= i < |u| :: u[i] in cs;
      KeysAfterSwitch(t, u, me);
    }
  }

  lemma KeysAfterYield(s: State)
    requires Scheduled(s)
    ensures SameKeys(s, YieldOp(s))
  {
    var me := s.contexts[s.current];
    var q := Insert(s.runQueue[1..], s.contexts, s.current, me.priority, false);
    assert forall i | 0 <= i < |q| :: q[i] in s.contexts;
    if q[0] != s.current {
      KeysAfterSwitch(s, q, me.(state := Ready));
    }
  }

  lemma KeysAfterExit(s: State)
    requires Scheduled(s) && |s.runQueue| > 1
    ensures SameKeys(s, ExitOp(s))
  {
    var q := s.runQueue[1..];
    assert forall i | 0 <= i < |q| :: q[i] in s.contexts;
    KeysAfterSwitch(s.(runQueueLen := Dec8(s.runQueueLen)), q, s.contexts[s.current].(state := Null));
  }

  lemma KeysAfterCreate(s: State, c: Context, p: nat)
    requires Scheduled(s)
    ensures CreateOp(s, c, p).contexts.Keys == s.contexts.Keys + {c}
  {
  }

  lemma KeysAfterWaiting(s: State, op: Op)
    requires Scheduled(s) && Disciplined(s, op) && (op.Wait? || op.WaitOn? || op.WaitByPriority?) && |s.runQueue| > 1
    ensures SameKeys(s, Apply(s, op))
  {
    assert s.contexts[s.current].stack[0] == op.l;
    match op
    case Wait(l) => KeysAfterWait(s, s, l, Sleep);
    case WaitOn(l, q) => KeysAfterWait(s, s.(queues := s.queues[q := [s.current] + s.queues[q]]), l, SleepQueue);
    case WaitByPriority(l, q) =>
      var w := Insert(s.queues[q], s.contexts, s.current, s.locks[l].saved, false);
      assert forall i | 0 <= i < |w| :: w[i] in w;
      KeysAfterWait(s, s.(queues := s.queues[q := w]), l, SleepQueue);
  }

  /** Contexts come into being by creation only. */
  lemma NobodyFromNowhere(s: State, op: Op)
    requires Scheduled(s) && Disciplined(s, op) && (LeavesRunQueue(op) ==> |s.runQueue| > 1)
    ensures if op.Create? then Apply(s, op).contexts.Keys == s.contexts.Keys + {op.c} else SameKeys(s, Apply(s, op))
  {
    if op.Wait? || op.WaitOn? || op.WaitByPriority? {
      KeysAfterWaiting(s, op);
    } else {
      match op
      case ReleaseSpinlock(l) => KeysAfterRelease(s, l);
      case Create(c, p) => KeysAfterCreate(s, c, p);
      case Yield => KeysAfterYield(s);
      case Exit => KeysAfterExit(s);
      case _ =>
    }
  }

  lemma OtherHeldUp(s: State, op: Op, u: State, c: Context, d: Context)
    requires MayStep(s, op) && u == Apply(s, op) && IsRunnable(s, c) && HoldsUp(u, d, c)
    requires d in s.contexts && d != s.current && (op.Create? ==> op.c != d) && u.contexts[c].base == s.contexts[c].base
    ensures HoldsUp(s, d, c) && SameSection(s, u, d)
  {
    StepLeaves(s, op, d);
    if d == u.current {
      StepRunsNext(s, op);
      NextHeldUp(s, op, u, c);
    } else {
      BystanderHeldUp(s, u, c, d);
    }
  }

  /** A context just created holds nobody up. */
  lemma HolderIsOld(s: State, op: Op, u: State, c: Context, d: Context)
    requires MayStep(s, op) && u == Apply(s, op) && HoldsUp(u, d, c)
    ensures d in s.contexts && (op.Create? ==> op.c != d)
  {
    NobodyFromNowhere(s, op);
    assert d in u.contexts.Keys;
    if op.Create? {
      NewcomerHoldsNobodyUp(s, op.c, op.priority, u, c);
    }
  }

  lemma NewcomerHoldsNobodyUp(s: State, d: Context, p: nat, u: State, c: Context)
    requires Scheduled(s) && d != s.current && u == CreateOp(s, d, p)
    ensures !HoldsUp(u, d, c)
  {
    CreatedHoldsNothing(s, d, p);
  }

  /**
   Whoever holds a runnable context up after a step did so before it, in the same outermost critical section: no new
   delay arises while a context is runnable.
   */
  lemma NoNewDelay(s: State, op: Op, u: State, c: Context, d: Context)
    requires MayStep(s, op) && u == Apply(s, op) && IsRunnable(s, c) && HoldsUp(u, d, c)
    ensures HoldsUp(s, d, c) && SameSection(s, u, d)
  {
    if d == s.current {
      RanHeldUp(s, op, c);
    } else {
      HolderIsOld(s, op, u, c, d);
      BaseIsKept(s, op, c);
      OtherHeldUp(s, op, u, c, d);
    }
  }

  // ---------- whole runs ----------

  /** `c` is runnable from state i to state j of a run. */
  ghost predicate StaysRunnable(trace: seq<State>, c: Context, i: nat, j: nat) {
    i <= j < |trace| && forall k | i <= k <= j :: IsRunnable(trace[k], c)
  }

  /** Whoever holds `c` up at the end of such a stretch has done so since its beginning. */
  lemma {:induction false} DelaysGoBack(trace: seq<State>, ops: seq<Op>, c: Context, d: Context, i: nat, j: nat)
    requires IsRun(trace, ops) && Boot(trace[0]) && StaysRunnable(trace, c, i, j) && HoldsUp(trace[j], d, c)
    ensures HoldsUp(trace[i], d, c) && trace[i].contexts[d].stack[0] == trace[j].contexts[d].stack[0]
    decreases j
  {
    if i < j {
      var k := j - 1;
      RunKeepsInv(trace, ops, k);
      assert Step(trace[k], ops[k], trace[k + 1]);
      NoNewDelay(trace[k], ops[k], trace[k + 1], c, d);
      DelaysGoBack(trace, ops, c, d, i, k);
    }
  }

  /** From state i to state j, `d` holds `c` up without a break, in one outermost critical section. */
  ghost predicate HeldThroughout(trace: seq<State>, c: Context, d: Context, i: nat, j: nat) {
    && i <= j < |trace| && HoldsUp(trace[i], d, c)
    && forall k | i <= k <= j ::
         HoldsUp(trace[k], d, c) && trace[k].contexts[d].stack[0] == trace[i].contexts[d].stack[0]
  }

  lemma HeldSinceStart(trace: seq<State>, ops: seq<Op>, c: Context, d: Context, i: nat, j: nat)
    requires IsRun(trace, ops) && Boot(trace[0]) && StaysRunnable(trace, c, i, j) && HoldsUp(trace[j], d, c)
    ensures HeldThroughout(trace, c, d, i, j)
  {
    DelaysGoBack(trace, ops, c, d, i, j);
    forall k | i <= k <= j
      ensures HoldsUp(trace[k], d, c) && trace[k].contexts[d].stack[0] == trace[i].contexts[d].stack[0]
    {
      DelaysGoBack(trace, ops, c, d, k, j);
    }
  }

  lemma AtMostOneHoldsUp(s: State, c: Context, d: Context, e: Context)
    requires Inv(s) && HoldsUp(s, d, c) && HoldsUp(s, e, c)
    ensures d == e
  {
    var i := RunnableIsQueued(s, d);
    var j := RunnableIsQueued(s, e);
    var k := RunnableIsQueued(s, c);
    AheadMeansHoldsUp(s, i, k);
    AheadMeansHoldsUp(s, j, k);
    AtMostOneInversion(s, i, j, k);
  }

  /**
   Bounded priority inversion: over any stretch of a disciplined run in which a context stays runnable, whoever holds it
   up, at whatever times, is one and the same context, which has been inside one outermost critical section since the
   stretch began.
   */
  lemma HeldUpByOneSection(trace: seq<State>, ops: seq<Op>, c: Context, i: nat, j: nat, m: nat, d: Context, n: nat,
      e: Context)
    requires IsRun(trace, ops) && Boot(trace[0]) && StaysRunnable(trace, c, i, j)
    requires i <= m <= j && HoldsUp(trace[m], d, c) && i <= n <= j && HoldsUp(trace[n], e, c)
    ensures d == e && HeldThroughout(trace, c, d, i, m) && HeldThroughout(trace, c, d, i, n)
  {
    RunKeepsInv(trace, ops, i);
    HeldSinceStart(trace, ops, c, d, i, m);
    HeldSinceStart(trace, ops, c, e, i, n);
    AtMostOneHoldsUp(trace[i], c, d, e);
  }

  /** While a context stays runnable, only such a section ever runs in place of it that was not created as urgent. */
  lemma OnlySectionsDelay(trace: seq<State>, ops: seq<Op>, c: Context, n: nat)
    requires IsRun(trace, ops) && Boot(trace[0]) && n < |trace| && IsRunnable(trace[n], c)
    ensures trace[n].current in trace[n].contexts
    ensures trace[n].contexts[trace[n].current].base <= trace[n].contexts[c].base
            || HoldsUp(trace[n], trace[n].current, c)
  {
    RunKeepsInv(trace, ops, n);
    if trace[n].contexts[trace[n].current].base > trace[n].contexts[c].base {
      RunnerHoldsUp(trace[n], c);
    }
  }
}
