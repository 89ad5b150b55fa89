/**
 What the operations that take, release and hand over locks or the processor bring about: the caller, the locks and the
 queues before the switch, and then who takes over.
 */
module SchedulerHandOver {
  import opened Collections
  import opened Contexts
  import opened PriorityCeiling
  import opened CeilingTheorems
  import opened PriorityInversion
  import opened SchedulerEffects

  // ---------- taking over ----------

  /**
   From `v`, in which nobody runs, the head of the run queue takes over.  It is told the state it was in; if it went to
   sleep with a lock it takes that lock again, at its ceiling.  Nothing else changes.
   */
  ghost predicate TakesOver(v: State, u: State) {
    && v.runQueue != [] && v.runQueue[0] in v.contexts
    && var d := v.runQueue[0];
       var r := v.contexts[d];
       && u.current == d && u.runQueue == v.runQueue && u.runQueueLen == v.runQueueLen
       && u.queues == v.queues && u.idle == v.idle && u.trapped == v.trapped
       && match r.resume
          case None =>
            && u.contexts == v.contexts[d := r.(state := Running, wake := r.state)]
            && u.locks == v.locks
          case Some(l) =>
            && l in v.locks && !v.locks[l].locked
            && u.contexts ==
               v.contexts[d := ContextRecord(v.locks[l].ceiling, Running, 1, r.state, None, r.base, [l])]
            && u.locks == v.locks[l := LockRecord(true, v.locks[l].ceiling, r.base, Some(d))]
  }

  lemma HeadIsOk(v: State)
    requires Core(v) && NobodyRuns(v)
    ensures Closed(v) && v.runQueue != []
    ensures var r := v.contexts[v.runQueue[0]];
            r.resume.Some? ==>
              && r.resume.value in v.locks && !v.locks[r.resume.value].locked
              && r.stack == [] && r.held == 0 && r.priority == r.base
  {
    DispatchEstablishesInv(v);
    assert ContextOk(v, v.runQueue[0]);
  }

  lemma DispatchTakesOver(v: State)
    requires Core(v) && NobodyRuns(v)
    ensures Closed(v) && v.runQueue != [] && TakesOver(v, Dispatch(v))
  {
    HeadIsOk(v);
    var d := v.runQueue[0];
    var r := v.contexts[d];
    if r.resume.Some? {
      assert [] + [r.resume.value] == [r.resume.value];
      var t := v.contexts[d := r.(state := Running, wake := r.state, resume := None)];
      assert t[d := ContextRecord(v.locks[r.resume.value].ceiling, Running, 1, r.state, None, r.base, [r.resume.value])]
          == v.contexts[d := ContextRecord(v.locks[r.resume.value].ceiling, Running, 1, r.state, None, r.base,
                                           [r.resume.value])];
    }
  }

  // ---------- taking a lock ----------

  /** The caller holds `l` on top of what it held, at priority `p`, and that is all that changes. */
  ghost predicate Holds(s: State, u: State, l: Lock, p: nat) {
    && s.current in s.contexts && l in s.locks
    && var me := s.contexts[s.current];
       && u.contexts ==
          s.contexts[s.current := me.(priority := p, held := Low8(|me.stack| + 1), stack := me.stack + [l])]
       && u == s.(contexts := u.contexts,
                  locks := s.locks[l := LockRecord(true, s.locks[l].ceiling, me.priority, Some(s.current))])
  }

  /** A lock that is asked for is taken: at its ceiling by a context, at priority zero by an interrupt handler. */
  lemma TakeHolds(s: State, l: Lock)
    requires Inv(s) && Scheduled(s)
    ensures Disciplined(s, TakeSpinlock(l)) ==> Holds(s, Apply(s, TakeSpinlock(l)), l, s.locks[l].ceiling)
    ensures Disciplined(s, IsrTakeSpinlock(l)) ==> Holds(s, Apply(s, IsrTakeSpinlock(l)), l, 0)
  {
    if l in s.locks && l !in s.contexts[s.current].stack && s.locks[l].ceiling <= s.contexts[s.current].priority {
      TakeStep(s, l);
      assert ContextOk(s, s.current);
      CounterSteps(|s.contexts[s.current].stack|);
    }
  }

  // ---------- releasing a lock ----------

  /** The record of a holder that has given its latest lock back. */
  ghost function Without(me: ContextRecord, saved: nat, st: RunState): ContextRecord
    requires me.stack != []
  {
    var rest := me.stack[..|me.stack| - 1];
    me.(priority := saved, held := Low8(|rest|), stack := rest, state := st)
  }

  /** The caller has given `l` back and has the priority it had before it took it, in the given state. */
  ghost predicate GaveBack(s: State, v: State, l: Lock, st: RunState) {
    && s.current in s.contexts && HoldsOnTop(s, l) && l in s.locks && s.runQueue != []
    && v.contexts == s.contexts[s.current := Without(s.contexts[s.current], s.locks[l].saved, st)]
    && v.locks == s.locks[l := s.locks[l].(locked := false, owner := None)]
    && Joins(s.runQueue[1..], v.runQueue, s.current, s.contexts, s.locks[l].saved, true)
    && v == s.(contexts := v.contexts, locks := v.locks, runQueue := v.runQueue)
  }

  lemma DropLockIs(s: State, l: Lock, st: RunState)
    requires Scheduled(s) && HoldsOnTop(s, l) && l in s.locks && s.locks[l].locked
    requires s.contexts[s.current].held == Low8(|s.contexts[s.current].stack|)
    ensures var me, t := s.contexts[s.current], DropLock(s, l);
            && t.contexts == s.contexts[s.current := t.contexts[s.current]]
            && t.contexts[s.current].(state := st) == Without(me, s.locks[l].saved, st)
            && t == s.(contexts := t.contexts, locks := s.locks[l := s.locks[l].(locked := false, owner := None)])
  {
    CounterSteps(|s.contexts[s.current].stack|);
  }

  lemma ReleasedIs(s: State, l: Lock, st: RunState)
    requires Scheduled(s) && HoldsOnTop(s, l) && l in s.locks && s.locks[l].locked
    requires s.contexts[s.current].held == Low8(|s.contexts[s.current].stack|)
    ensures var v := Released(s, l, st);
            && v.contexts == s.contexts[s.current := Without(s.contexts[s.current], s.locks[l].saved, st)]
            && v.locks == s.locks[l := s.locks[l].(locked := false, owner := None)]
            && v == s.(contexts := v.contexts, locks := v.locks, runQueue := v.runQueue)
  {
    DropLockIs(s, l, st);
    ReleasedRecords(s, l, st);
  }

  lemma ReleasedJoins(s: State, l: Lock, st: RunState)
    requires Scheduled(s) && l in s.locks && Ordered(s.runQueue, s.contexts)
    ensures Joins(s.runQueue[1..], Released(s, l, st).runQueue, s.current, s.contexts, s.locks[l].saved, true)
  {
    TailIsOrdered(s.runQueue, s.contexts, s.contexts[s.current]);
    ReleasedQueue(s, l, st);
    InsertJoins(s.runQueue[1..], s.contexts, s.current, s.locks[l].saved, true);
  }

  lemma ReleasedGaveBack(s: State, l: Lock, st: RunState)
    requires Inv(s) && HoldsOnTop(s, l)
    ensures Scheduled(s) && l in s.locks && GaveBack(s, Released(s, l, st), l, st)
  {
    HeldLockFacts(s, l);
    ReleasedIs(s, l, st);
    ReleasedJoins(s, l, st);
  }

  /** Somebody ready is strictly more urgent than priority `p`. */
  ghost predicate SomebodyAbove(s: State, p: nat) {
    exists i | 0 < i < |s.runQueue| :: s.runQueue[i] in s.contexts && s.contexts[s.runQueue[i]].priority < p
  }

  lemma NextIsUrgentExactly(s: State, l: Lock)
    requires Inv(s) && MayRelease(s, l)
    ensures NextIsUrgent(s, l) <==> SomebodyAbove(s, s.locks[l].saved)
  {
    TailIsOrdered(s.runQueue, s.contexts, s.contexts[s.current]);
    if |s.runQueue| > 1 {
      assert s.runQueue[1] == s.runQueue[1..][0];
      assert forall i | 1 < i < |s.runQueue| :: Ahead(s.contexts, s.runQueue[1], s.runQueue[i]);
    }
  }

  lemma StoodDown(s: State, u: State)
    requires Core(s) && OnlyTouches(s, u, s.current) && s.current in s.contexts
    requires !u.contexts[s.current].state.Running?
    ensures NobodyRuns(u)
  {
    NobodyElseRuns(s, u);
  }

  lemma ReleasedNobodyRuns(s: State, l: Lock)
    requires Inv(s) && HoldsOnTop(s, l)
    ensures Scheduled(s) && l in s.locks && NobodyRuns(Released(s, l, Ready)) && Core(Released(s, l, Ready))
  {
    HeldLockFacts(s, l);
    ReleasedCore(s, l, Ready);
    ReleasedOnlyTouches(s, l, Ready);
    StoodDown(s, Released(s, l, Ready));
  }

  lemma UnlockRestores(s: State, l: Lock) returns (v: State)
    requires Inv(s) && HoldsOnTop(s, l)
    ensures Scheduled(s) && l in s.locks
    ensures GaveBack(s, v, l, if SomebodyAbove(s, s.locks[l].saved) then Ready else Running)
    ensures if SomebodyAbove(s, s.locks[l].saved) then TakesOver(v, UnlockOp(s, l)) else UnlockOp(s, l) == v
  {
    HeldLockFacts(s, l);
    UnlockIsRelease(s, l);
    NextIsUrgentExactly(s, l);
    v := Released(s, l, if SomebodyAbove(s, s.locks[l].saved) then Ready else Running);
    ReleasedGaveBack(s, l, if SomebodyAbove(s, s.locks[l].saved) then Ready else Running);
    if SomebodyAbove(s, s.locks[l].saved) {
      ReleasedNobodyRuns(s, l);
      DispatchTakesOver(v);
    }
  }

  /**
   A release frees the lock, gives the caller back the priority it had before, and puts it behind exactly those that are
   strictly more urgent; if there is one, the first of them takes over.
   */
  lemma ReleaseRestores(s: State, l: Lock) returns (v: State)
    requires MayStep(s, ReleaseSpinlock(l))
    ensures l in s.locks && GaveBack(s, v, l, if SomebodyAbove(s, s.locks[l].saved) then Ready else Running)
    ensures var u := Apply(s, ReleaseSpinlock(l));
            if SomebodyAbove(s, s.locks[l].saved) then TakesOver(v, u) else u == v
  {
    v := UnlockRestores(s, l);
  }

  lemma StandsFirst(q: seq<Context>, r: seq<Context>, c: Context, cs: map<Context, ContextRecord>, p: nat)
    requires Joins(q, r, c, cs, p, true) && forall i | 0 <= i < |q| :: q[i] in cs && cs[q[i]].priority >= p
    ensures r == [c] + q
  {
    var k: nat :| JoinsAt(q, r, c, cs, p, true, k);
    assert q == [] || cs[q[0]].priority >= p;
  }

  lemma RecordsRestored(s: State, t: State, u: State, l: Lock)
    requires l in s.locks && Holds(s, t, l, s.locks[l].ceiling) && GaveBack(t, u, l, Running)
    requires s.contexts[s.current].held == Low8(|s.contexts[s.current].stack|) && s.contexts[s.current].state.Running?
    ensures u.contexts == s.contexts
    ensures u.locks ==
            s.locks[l := s.locks[l].(locked := false, saved := s.contexts[s.current].priority, owner := None)]
  {
    var me := s.contexts[s.current];
    assert (me.stack + [l])[..|me.stack|] == me.stack;
  }

  lemma QueueRestored(s: State, t: State, u: State, l: Lock)
    requires l in s.locks && Holds(s, t, l, s.locks[l].ceiling) && GaveBack(t, u, l, Running)
    requires s.runQueue != [] && s.runQueue[0] == s.current && s.current !in s.runQueue[1..]
    requires forall i | 0 < i < |s.runQueue| ::
               s.runQueue[i] in s.contexts && s.contexts[s.runQueue[i]].priority >= s.contexts[s.current].priority
    ensures u.runQueue == s.runQueue
  {
    var q := s.runQueue[1..];
    assert forall i | 0 <= i < |q| :: q[i] == s.runQueue[i + 1] && q[i] != s.current;
    StandsFirst(q, u.runQueue, s.current, t.contexts, s.contexts[s.current].priority);
  }

  /** Nobody who is ready is more urgent than the head, so a lock taken and released at once leaves no trace. */
  lemma TakeThenRelease(s: State, l: Lock)
    requires MayStep(s, TakeSpinlock(l))
    ensures MayStep(Apply(s, TakeSpinlock(l)), ReleaseSpinlock(l))
    ensures Apply(Apply(s, TakeSpinlock(l)), ReleaseSpinlock(l)) ==
            s.(locks := s.locks[l := s.locks[l].(
                          locked := false, saved := s.contexts[s.current].priority, owner := None)])
  {
    var t := Apply(s, TakeSpinlock(l));
    TakeHolds(s, l);
    StepKeepsInv(s, TakeSpinlock(l));
    InvIsScheduled(t);
    HeadFacts(s);
    HeldTop(s, t, l);
    ReleaseUndoes(s, t, l);
  }

  lemma ReleaseUndoes(s: State, t: State, l: Lock)
    requires l in s.locks && Holds(s, t, l, s.locks[l].ceiling) && MayStep(t, ReleaseSpinlock(l))
    requires s.runQueue != [] && s.runQueue[0] == s.current && s.current !in s.runQueue[1..]
    requires s.contexts[s.current].held == Low8(|s.contexts[s.current].stack|) && s.contexts[s.current].state.Running?
    requires forall i | 0 < i < |s.runQueue| ::
               && s.runQueue[i] in s.contexts && s.runQueue[i] != s.current
               && s.contexts[s.runQueue[i]].priority >= s.contexts[s.current].priority
    ensures Apply(t, ReleaseSpinlock(l)) ==
            s.(locks := s.locks[l := s.locks[l].(
                          locked := false, saved := s.contexts[s.current].priority, owner := None)])
  {
    NobodyAboveAfter(s, t, l);
    var u := ReleaseRestores(t, l);
    RecordsRestored(s, t, u, l);
    QueueRestored(s, t, u, l);
  }

  lemma HeadFacts(s: State)
    requires Inv(s)
    ensures s.runQueue != [] && s.runQueue[0] == s.current && s.current !in s.runQueue[1..]
    ensures s.current in s.contexts && s.contexts[s.current].state.Running?
    ensures s.contexts[s.current].held == Low8(|s.contexts[s.current].stack|)
    ensures forall i | 0 < i < |s.runQueue| ::
              && s.runQueue[i] in s.contexts && s.runQueue[i] != s.current
              && s.contexts[s.runQueue[i]].priority >= s.contexts[s.current].priority
  {
    TailIsOrdered(s.runQueue, s.contexts, s.contexts[s.current]);
    assert ContextOk(s, s.current);
    forall i | 0 < i < |s.runQueue|
      ensures s.runQueue[i] != s.current && s.contexts[s.runQueue[i]].priority >= s.contexts[s.current].priority
    {
      assert Ahead(s.contexts, s.runQueue[0], s.runQueue[i]);
    }
  }

  lemma HeldTop(s: State, t: State, l: Lock)
    requires l in s.locks && Holds(s, t, l, s.locks[l].ceiling) && Scheduled(t)
    ensures HoldsOnTop(t, l) && Disciplined(t, ReleaseSpinlock(l))
    ensures l in t.locks && t.locks[l].saved == s.contexts[s.current].priority
  {
  }

  lemma NobodyAboveAfter(s: State, t: State, l: Lock)
    requires l in s.locks && Holds(s, t, l, s.locks[l].ceiling)
    requires forall i | 0 < i < |s.runQueue| ::
               && s.runQueue[i] in s.contexts && s.runQueue[i] != s.current
               && s.contexts[s.runQueue[i]].priority >= s.contexts[s.current].priority
    ensures !SomebodyAbove(t, s.contexts[s.current].priority)
  {
  }

  // ---------- going to sleep ----------

  /** The caller has handed `l` over and sleeps at the priority it was created with, out of the run queue. */
  ghost predicate WentToSleep(s: State, v: State, l: Lock, st: RunState) {
    && s.current in s.contexts && l in s.locks && s.runQueue != []
    && var me := s.contexts[s.current];
       && v.contexts == s.contexts[s.current := ContextRecord(me.base, st, 0, me.wake, Some(l), me.base, [])]
       && v.locks == s.locks[l := s.locks[l].(locked := false, owner := None)]
       && v.runQueue == s.runQueue[1..] && v.runQueueLen == Dec8(s.runQueueLen)
       && v == s.(contexts := v.contexts, locks := v.locks, runQueue := v.runQueue, runQueueLen := v.runQueueLen,
                  queues := v.queues)
  }

  lemma OnlyLockFacts(s: State, l: Lock)
    requires Inv(s) && s.contexts[s.current].stack == [l]
    ensures Scheduled(s) && l in s.locks && s.locks[l].locked
    ensures s.contexts[s.current].held == 1 && s.locks[l].saved == s.contexts[s.current].base
  {
    HeldLockFacts(s, l);
    var me := s.contexts[s.current];
    assert Nested(s.current, me.stack, me.base, s.locks);
    assert me.stack[..0] == [];
  }

  lemma ParkedWentToSleep(s: State, qs: map<WaitQueue, seq<Context>>, l: Lock, st: RunState)
    requires Scheduled(s) && l in s.locks && s.locks[l].locked && s.contexts[s.current].stack == [l]
    requires s.contexts[s.current].held == 1 && s.locks[l].saved == s.contexts[s.current].base
    ensures WentToSleep(s, Parked(s, qs, l, st), l, st) && Parked(s, qs, l, st).queues == qs
  {
    assert s.contexts[s.current].stack[..0] == [];
  }

  lemma ParkedNobodyRuns(s: State, qs: map<WaitQueue, seq<Context>>, l: Lock, st: RunState)
    requires Inv(s) && s.contexts[s.current].stack == [l] && s.current != s.idle
    requires st.Sleep? || st.SleepQueue?
    requires PutIn(s, qs, s.current, st.SleepQueue?)
    ensures Scheduled(s) && l in s.locks && Dec8(s.contexts[s.current].held) == 0
    ensures var v := Parked(s, qs, l, st); Core(v) && NobodyRuns(v)
  {
    ParkedCore(s, qs, l, st);
    StoodDown(s, Parked(s, qs, l, st));
  }

  lemma WaitSleeps(s: State, qs: map<WaitQueue, seq<Context>>, l: Lock, st: RunState) returns (v: State)
    requires Inv(s) && s.contexts[s.current].stack == [l] && s.current != s.idle
    requires st.Sleep? || st.SleepQueue?
    requires PutIn(s, qs, s.current, st.SleepQueue?)
    ensures |s.runQueue| > 1 && l in s.locks && Scheduled(s) && Scheduled(s.(queues := qs))
    ensures WentToSleep(s, v, l, st) && v.queues == qs && TakesOver(v, WaitOp(s.(queues := qs), l, st))
  {
    SomebodyElseIsReady(s);
    OnlyLockFacts(s, l);
    v := Parked(s, qs, l, st);
    ParkedWentToSleep(s, qs, l, st);
    ParkedNobodyRuns(s, qs, l, st);
    DispatchTakesOver(v);
    PutInIsClosed(s, qs, s.current, st.SleepQueue?);
    WaitIsPark(s, qs, l, st);
  }

  /** Where the caller stands among the waiters: nowhere, at the front, or behind the first that are as urgent. */
  ghost predicate JoinedSleepers(s: State, op: Op, qs: map<WaitQueue, seq<Context>>) {
    match op
    case WaitOn(l, q) => q in s.queues && qs == s.queues[q := [s.current] + s.queues[q]]
    case WaitByPriority(l, q) => q in s.queues && exists k: nat :: StandsAt(s, q, qs, k)
    case _ => qs == s.queues
  }

  ghost predicate StandsAt(s: State, q: WaitQueue, qs: map<WaitQueue, seq<Context>>, k: nat)
    requires q in s.queues
  {
    var w := s.queues[q];
    && s.current in s.contexts && k <= |w| && (forall i | 0 <= i < |w| :: w[i] in s.contexts)
    && var p := s.contexts[s.current].base;
       && (forall i | 0 <= i < k :: s.contexts[w[i]].priority <= p)
       && (k < |w| ==> s.contexts[w[k]].priority > p)
       && qs == s.queues[q := w[..k] + [s.current] + w[k..]]
  }

  lemma WaitPutsIn(s: State, op: Op) returns (qs: map<WaitQueue, seq<Context>>)
    requires MayStep(s, op) && (op.Wait? || op.WaitOn? || op.WaitByPriority?)
    ensures PutIn(s, qs, s.current, !op.Wait?) && JoinedSleepers(s, op, qs)
    ensures op.l in s.locks && Scheduled(s.(queues := qs))
    ensures Apply(s, op) == WaitOp(s.(queues := qs), op.l, if op.Wait? then Sleep else SleepQueue)
  {
    OnlyLockFacts(s, op.l);
    match op
    case Wait(l) =>
      qs := s.queues;
      assert s.(queues := qs) == s;
    case WaitOn(l, q) =>
      var w := s.queues[q];
      InsertPutsIn(s, q, 0, s.current);
      assert w[..0] + [s.current] + w[0..] == [s.current] + w;
      qs := s.queues[q := [s.current] + w];
      PutInIsClosed(s, qs, s.current, true);
    case WaitByPriority(l, q) =>
      var k := Slot(s.queues[q], s.contexts, s.locks[l].saved, false);
      InsertPutsIn(s, q, k, s.current);
      qs := s.queues[q := s.queues[q][..k] + [s.current] + s.queues[q][k..]];
      assert StandsAt(s, q, qs, k);
      PutInIsClosed(s, qs, s.current, true);
  }

  /** A context that waits hands its lock over, joins the sleep queue if there is one, and the next one takes over. */
  lemma WaitHandsOver(s: State, op: Op) returns (v: State)
    requires MayStep(s, op) && (op.Wait? || op.WaitOn? || op.WaitByPriority?)
    ensures WentToSleep(s, v, op.l, if op.Wait? then Sleep else SleepQueue)
    ensures JoinedSleepers(s, op, v.queues) && TakesOver(v, Apply(s, op))
  {
    var qs := WaitPutsIn(s, op);
    v := WaitSleeps(s, qs, op.l, if op.Wait? then Sleep else SleepQueue);
  }

  // ---------- yielding, creating, exiting ----------

  /** The caller has moved behind its equals, and is merely ready unless it is still the head. */
  ghost predicate MovedBack(s: State, v: State) {
    && s.current in s.contexts && s.runQueue != [] && v.runQueue != []
    && var me := s.contexts[s.current];
       && Joins(s.runQueue[1..], v.runQueue, s.current, s.contexts, me.priority, false)
       && v == s.(runQueue := v.runQueue,
                  contexts := if v.runQueue[0] == s.current then s.contexts
                              else s.contexts[s.current := me.(state := Ready)])
  }

  lemma YieldMoves(s: State) returns (v: State)
    requires Inv(s) && Scheduled(s) && s.contexts[s.current].stack == []
    ensures MovedBack(s, v)
    ensures v.runQueue[0] != s.current ==> Core(v) && NobodyRuns(v)
    ensures Closed(v)
    ensures YieldOp(s) == if v.runQueue[0] == s.current then v else Dispatch(v)
  {
    RotateKeepsCore(s);
    TailIsOrdered(s.runQueue, s.contexts, s.contexts[s.current]);
    InsertJoins(s.runQueue[1..], s.contexts, s.current, s.contexts[s.current].priority, false);
    v := s.(runQueue := Insert(s.runQueue[1..], s.contexts, s.current, s.contexts[s.current].priority, false));
    if v.runQueue[0] != s.current {
      StandDownKeepsCore(v);
      v := SetContext(v, s.current, s.contexts[s.current].(state := Ready));
    }
    CoreIsClosed(v);
  }

  lemma YieldOpHandsOver(s: State) returns (v: State)
    requires Inv(s) && Scheduled(s) && s.contexts[s.current].stack == []
    ensures MovedBack(s, v)
    ensures if v.runQueue[0] == s.current then YieldOp(s) == v else TakesOver(v, YieldOp(s))
  {
    v := YieldMoves(s);
    if v.runQueue[0] != s.current {
      DispatchTakesOver(v);
    }
  }

  lemma ApplyIsYieldOrCreate(s: State, op: Op)
    requires Scheduled(s) && Disciplined(s, op) && (op.Yield? || op.Create?)
    ensures op.Yield? ==> s.contexts[s.current].stack == [] && Apply(s, op) == YieldOp(s)
    ensures op.Create? ==> (op.c in s.contexts ==> s.contexts[op.c].state.Null? && op.c != s.idle)
    ensures op.Create? ==> Apply(s, op) == CreateOp(s, op.c, op.priority)
  {
  }

  /** A context that yields goes behind its equals; if it is not the head then, the head takes over. */
  lemma YieldHandsOver(s: State) returns (v: State)
    requires MayStep(s, Yield)
    ensures MovedBack(s, v)
    ensures if v.runQueue[0] == s.current then Apply(s, Yield) == v else TakesOver(v, Apply(s, Yield))
  {
    ApplyIsYieldOrCreate(s, Yield);
    v := YieldOpHandsOver(s);
  }

  /** A new context has joined behind its equals, and the caller is merely ready if it is strictly less urgent. */
  ghost predicate Newcomer(s: State, v: State, c: Context, p: nat) {
    && c != s.current && s.current in s.contexts
    && var me, cs := s.contexts[s.current], s.contexts[c := ContextRecord(p, Ready, 0, Ready, None, p, [])];
       && Joins(s.runQueue, v.runQueue, c, s.contexts, p, false)
       && v == s.(runQueue := v.runQueue, runQueueLen := Inc8(s.runQueueLen),
                  contexts := if p >= me.priority then cs else cs[s.current := me.(state := Ready)])
  }

  lemma JoinedFacts(s: State, c: Context, p: nat)
    requires Inv(s) && Scheduled(s) && c !in s.runQueue
    ensures var q := Joined(s, c, p).runQueue;
            && Joins(s.runQueue, q, c, s.contexts, p, false)
            && q != [] && q[0] == (if p < s.contexts[s.current].priority then c else s.current)
  {
    var cs := s.contexts[c := ContextRecord(p, Ready, 0, Ready, None, p, [])];
    InsertFrame(s.runQueue, s.contexts, cs, c, p, false);
    InsertJoins(s.runQueue, s.contexts, c, p, false);
    FirstIffAbove(s.runQueue, Joined(s, c, p).runQueue, c, s.contexts, p);
  }

  lemma CreateJoins(s: State, c: Context, p: nat) returns (v: State)
    requires Inv(s) && Scheduled(s) && (c in s.contexts ==> s.contexts[c].state.Null? && c != s.idle)
    ensures Newcomer(s, v, c, p) && Closed(v) && v.runQueue != []
    ensures p < s.contexts[s.current].priority ==> Core(v) && NobodyRuns(v) && v.runQueue[0] == c
    ensures CreateOp(s, c, p) == if p >= s.contexts[s.current].priority then v else Dispatch(v)
  {
    JoinedCore(s, c, p);
    assert c in s.contexts ==> ContextOk(s, c);
    JoinedFacts(s, c, p);
    v := Joined(s, c, p);
    if p < s.contexts[s.current].priority {
      assert ContextOk(v, s.current);
      StandDownKeepsCore(v);
      v := SetContext(v, s.current, s.contexts[s.current].(state := Ready));
    }
    CoreIsClosed(v);
  }

  lemma CreateOpHandsOver(s: State, c: Context, p: nat) returns (v: State)
    requires Inv(s) && Scheduled(s) && (c in s.contexts ==> s.contexts[c].state.Null? && c != s.idle)
    ensures Newcomer(s, v, c, p)
    ensures var u := CreateOp(s, c, p);
            if p >= s.contexts[s.current].priority then u == v else TakesOver(v, u) && u.current == c
  {
    v := CreateJoins(s, c, p);
    if p < s.contexts[s.current].priority {
      DispatchTakesOver(v);
    }
  }

  /** A new context joins behind its equals and runs at once exactly when it is strictly more urgent than the caller. */
  lemma CreateHandsOver(s: State, c: Context, p: nat) returns (v: State)
    requires MayStep(s, Create(c, p))
    ensures Newcomer(s, v, c, p)
    ensures var u := Apply(s, Create(c, p));
            if p >= s.contexts[s.current].priority then u == v else TakesOver(v, u) && u.current == c
  {
    ApplyIsYieldOrCreate(s, Create(c, p));
    v := CreateOpHandsOver(s, c, p);
  }

  lemma FirstIffAbove(q: seq<Context>, r: seq<Context>, c: Context, cs: map<Context, ContextRecord>, p: nat)
    requires Joins(q, r, c, cs, p, false) && q != [] && q[0] != c
    ensures r != [] && q[0] in cs && r[0] == if p < cs[q[0]].priority then c else q[0]
  {
    var k: nat :| JoinsAt(q, r, c, cs, p, false, k);
    assert k > 0 ==> cs[q[0]].priority <= p;
    assert k == 0 ==> cs[q[0]].priority > p;
  }

  /** The caller has left the run queue and will not run again. */
  ghost predicate Gone(s: State, v: State) {
    && s.current in s.contexts && s.runQueue != []
    && v == s.(runQueue := s.runQueue[1..], runQueueLen := Dec8(s.runQueueLen),
               contexts := s.contexts[s.current := s.contexts[s.current].(state := Null)])
  }

  lemma ExitOpHandsOver(s: State, v: State)
    requires Inv(s) && Scheduled(s) && s.contexts[s.current].stack == [] && s.current != s.idle && |s.runQueue| > 1
    requires Gone(s, v)
    ensures TakesOver(v, ExitOp(s))
  {
    ExitedCore(s, v);
    DispatchTakesOver(v);
  }

  /** A context that exits leaves the run queue for good, and the next one takes over. */
  lemma ExitHandsOver(s: State, v: State)
    requires MayStep(s, Exit) && Gone(s, v)
    ensures TakesOver(v, Apply(s, Exit))
  {
    ExitOpHandsOver(s, v);
  }

  // ---------- what the debug traps catch ----------

  lemma HeldByCaller(s: State, l: Lock)
    requires Inv(s) && l in s.locks && s.locks[l].ceiling <= s.contexts[s.current].priority
    ensures s.locks[l].locked <==> l in s.contexts[s.current].stack
  {
    var me := s.contexts[s.current];
    assert ContextOk(s, s.current);
    LevelIsUrgent(s.current, me.stack, me.base, s.locks);
    if l in me.stack {
      HeldIsNested(s.current, me.stack, me.base, s.locks, l);
      assert LockOk(s, l);
    } else {
      HeadFindsLockFree(s, l);
    }
  }

  /** The traps in taking a lock catch exactly the requests that break the discipline. */
  lemma TakeTrapsExactly(s: State, l: Lock)
    requires Inv(s) && Scheduled(s) && l in s.locks
    ensures LockOp(s, l).trapped <==> !Disciplined(s, TakeSpinlock(l))
    ensures IsrLockOp(s, l).trapped <==> !Disciplined(s, IsrTakeSpinlock(l))
  {
    if s.locks[l].ceiling <= s.contexts[s.current].priority {
      HeldByCaller(s, l);
    }
  }

  /** Releasing a lock that is free, or that was taken at a more urgent priority than the one in force, is trapped. */
  lemma BadReleaseTraps(s: State, l: Lock)
    requires Scheduled(s) && l in s.locks
    ensures !s.locks[l].locked || s.locks[l].saved < s.contexts[s.current].priority ==> UnlockOp(s, l).trapped
  {
  }

  /** So is going to sleep with a lock that is free, or with any other lock held besides. */
  lemma BadWaitTraps(s: State, l: Lock, st: RunState)
    requires Inv(s) && Scheduled(s) && l in s.locks && |s.runQueue| > 1
    ensures !s.locks[l].locked || 1 < |s.contexts[s.current].stack| < 256 ==> WaitOp(s, l, st).trapped
  {
    assert ContextOk(s, s.current);
  }
}
