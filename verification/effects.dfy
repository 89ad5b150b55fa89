/**
 What each operation of a disciplined caller brings about: who wakes and with what reason, who holds which lock, where
 everybody stands in the queues, and that nothing else changes.
 */
module SchedulerEffects {
  import opened Collections
  import opened Contexts
  import opened PriorityCeiling
  import opened CeilingTheorems
  import opened PriorityInversion

  // ---------- joining a queue ----------

  /** From `q` to `r`, a context of priority `p` joined at place k: behind its equals, or ahead of them if `strict`. */
  ghost predicate JoinsAt(q: seq<Context>, r: seq<Context>, c: Context, cs: map<Context, ContextRecord>, p: nat,
      strict: bool, k: nat)
  {
    && k <= |q| && r == q[..k] + [c] + q[k..]
    && (forall i | 0 <= i < k :: q[i] in cs && (cs[q[i]].priority < p || (cs[q[i]].priority == p && !strict)))
    && (forall i | k <= i < |q| :: q[i] in cs && (cs[q[i]].priority > p || (cs[q[i]].priority == p && strict)))
  }

  ghost predicate Joins(q: seq<Context>, r: seq<Context>, c: Context, cs: map<Context, ContextRecord>, p: nat,
      strict: bool)
  {
    exists k: nat :: JoinsAt(q, r, c, cs, p, strict, k)
  }

  lemma InsertJoins(q: seq<Context>, cs: map<Context, ContextRecord>, c: Context, p: nat, strict: bool)
    requires Ordered(q, cs)
    ensures Joins(q, Insert(q, cs, c, p, strict), c, cs, p, strict)
  {
    var k := Slot(q, cs, p, strict);
    forall i | k <= i < |q| ensures !Passes(cs[q[i]].priority, p, strict) {
      SlotSplits(q, cs, p, strict, i);
    }
    assert JoinsAt(q, Insert(q, cs, c, p, strict), c, cs, p, strict, k);
  }

  // ---------- waking ----------

  /** `c` is woken with the given reason and joins the run queue behind its equals; only sleep queues may change too. */
  ghost predicate Woken(s: State, u: State, c: Context, reason: RunState) {
    && c in s.contexts
    && u.contexts == s.contexts[c := s.contexts[c].(state := reason)]
    && Joins(s.runQueue, u.runQueue, c, s.contexts, s.contexts[c].priority, false)
    && u.runQueueLen == Inc8(s.runQueueLen)
    && u.locks == s.locks && u.current == s.current && u.idle == s.idle && u.trapped == s.trapped
  }

  lemma WakeWakes(s: State, qs: map<WaitQueue, seq<Context>>, c: Context, reason: RunState)
    requires Inv(s) && Closed(s.(queues := qs)) && c in s.contexts && c !in s.runQueue
    ensures Woken(s, Wake(s.(queues := qs), c, reason), c, reason)
    ensures Wake(s.(queues := qs), c, reason).queues == qs
  {
    var cs := s.contexts[c := s.contexts[c].(state := reason)];
    InsertFrame(s.runQueue, s.contexts, cs, c, cs[c].priority, false);
    InsertJoins(s.runQueue, s.contexts, c, cs[c].priority, false);
  }

  /** `c` is woken if it sleeps on its own; otherwise nothing happens. */
  ghost predicate WokenIfAsleep(s: State, u: State, c: Context, reason: RunState) {
    && c in s.contexts
    && if s.contexts[c].state.Sleep? then Woken(s, u, c, reason) && u.queues == s.queues else u == s
  }

  lemma WakeSleeper(s: State, c: Context, reason: RunState)
    requires Inv(s) && Closed(s) && c in s.contexts && s.contexts[c].state.Sleep?
    ensures WokenIfAsleep(s, Wake(s, c, reason), c, reason)
  {
    assert ContextOk(s, c);
    assert s.(queues := s.queues) == s;
    WakeWakes(s, s.queues, c, reason);
  }

  lemma SignalOpWakes(s: State, c: Context)
    requires Inv(s) && Closed(s) && c in s.contexts
    ensures WokenIfAsleep(s, SignalOp(s, c), c, Ready) && WokenIfAsleep(s, InterruptOp(s, c), c, Interrupted)
  {
    if s.contexts[c].state.Sleep? {
      WakeSleeper(s, c, Ready);
      WakeSleeper(s, c, Interrupted);
    }
  }

  /** A signal wakes a context that sleeps, and does nothing to any other. */
  lemma SignalWakes(s: State, c: Context)
    requires MayStep(s, Signal(c))
    ensures WokenIfAsleep(s, Apply(s, Signal(c)), c, Ready)
  {
    SignalOpWakes(s, c);
  }

  /** An interruption does the same and says so. */
  lemma InterruptWakes(s: State, c: Context)
    requires MayStep(s, Interrupt(c))
    ensures WokenIfAsleep(s, Apply(s, Interrupt(c)), c, Interrupted)
  {
    SignalOpWakes(s, c);
  }

  lemma QueuedIsAsleep(s: State, q: WaitQueue, i: nat)
    requires Inv(s) && q in s.queues && i < |s.queues[q]|
    ensures s.queues[q][i] in s.contexts && s.queues[q][i] !in s.runQueue
    ensures s.contexts[s.queues[q][i]].state.SleepQueue?
  {
    assert ContextOk(s, s.queues[q][i]);
  }

  lemma ShorterIsClosed(s: State, q: WaitQueue, i: nat, rest: seq<Context>)
    requires Closed(s) && q in s.queues && i < |s.queues[q]| && rest == s.queues[q][..i] + s.queues[q][i + 1..]
    ensures Closed(s.(queues := s.queues[q := rest]))
  {
  }

  lemma WakeFromWakes(s: State, q: WaitQueue, i: nat, reason: RunState, rest: seq<Context>)
    requires Inv(s) && Closed(s) && q in s.queues && i < |s.queues[q]|
    requires rest == s.queues[q][..i] + s.queues[q][i + 1..]
    ensures Woken(s, WakeFrom(s, q, i, reason), s.queues[q][i], reason)
    ensures WakeFrom(s, q, i, reason).queues == s.queues[q := rest]
  {
    QueuedIsAsleep(s, q, i);
    ShorterIsClosed(s, q, i, rest);
    WakeWakes(s, s.queues[q := rest], s.queues[q][i], reason);
  }

  /** The waiter at place i of a queue, if there is one, is woken and taken off; otherwise nothing happens. */
  ghost predicate WokenAtPlace(s: State, u: State, q: WaitQueue, i: nat, reason: RunState) {
    && q in s.queues && i <= |s.queues[q]|
    && var w := s.queues[q];
       if i == |w| then u == s else Woken(s, u, w[i], reason) && u.queues == s.queues[q := w[..i] + w[i + 1..]]
  }

  lemma SignalQueueWakes(s: State, q: WaitQueue)
    requires Inv(s) && Closed(s) && q in s.queues
    ensures WokenAtPlace(s, SignalQueueOp(s, q), q, 0, Ready)
  {
    if s.queues[q] != [] {
      WakeFromWakes(s, q, 0, Ready, s.queues[q][..0] + s.queues[q][1..]);
    }
  }

  /** Signalling a queue wakes its first waiter and takes it off the queue. */
  lemma SignalFirstWakes(s: State, q: WaitQueue)
    requires MayStep(s, SignalFirst(q))
    ensures WokenAtPlace(s, Apply(s, SignalFirst(q)), q, 0, Ready)
  {
    SignalQueueWakes(s, q);
  }

  lemma OnlyPlace(s: State, q: WaitQueue, i: nat)
    requires Inv(s) && q in s.queues && i < |s.queues[q]|
    ensures IndexOf(s.queues[q][i], s.queues[q]) == i
  {
    var k := IndexOf(s.queues[q][i], s.queues[q]);
    assert s.queues[q][k] == s.queues[q][i];
  }

  lemma InterruptQueueWakes(s: State, c: Context, q: WaitQueue, i: nat)
    requires Inv(s) && Closed(s) && q in s.queues && i <= |s.queues[q]|
    requires if i < |s.queues[q]| then s.queues[q][i] == c else c !in s.queues[q]
    ensures WokenAtPlace(s, InterruptQueueOp(s, c, q), q, i, Interrupted)
  {
    if i < |s.queues[q]| {
      OnlyPlace(s, q, i);
      WakeFromWakes(s, q, i, Interrupted, s.queues[q][..i] + s.queues[q][i + 1..]);
    }
  }

  /** Interrupting a waiter wakes it, if it is on the queue, and takes it off, wherever it stands. */
  lemma InterruptOnWakes(s: State, c: Context, q: WaitQueue, i: nat)
    requires MayStep(s, InterruptOn(c, q)) && i <= |s.queues[q]|
    requires if i < |s.queues[q]| then s.queues[q][i] == c else c !in s.queues[q]
    ensures WokenAtPlace(s, Apply(s, InterruptOn(c, q)), q, i, Interrupted)
  {
    ApplyIsInterruptQueue(s, c, q);
    InterruptQueueWakes(s, c, q, i);
  }

  lemma ApplyIsInterruptQueue(s: State, c: Context, q: WaitQueue)
    requires Scheduled(s) && Disciplined(s, InterruptOn(c, q))
    ensures Apply(s, InterruptOn(c, q)) == InterruptQueueOp(s, c, q)
  {
  }

  /** All of `w` are woken, in order; but for the sleep queues, that is all. */
  ghost predicate AllWoken(s: State, u: State, w: seq<Context>) {
    && u.contexts.Keys == s.contexts.Keys
    && (forall d | d in s.contexts ::
          u.contexts[d] == if d in w then s.contexts[d].(state := Ready) else s.contexts[d])
    && (forall d :: d in u.runQueue <==> d in s.runQueue || d in w)
    && |u.runQueue| == |s.runQueue| + |w|
    && u.locks == s.locks && u.current == s.current && u.idle == s.idle && u.trapped == s.trapped
  }

  lemma OneThenRest(s: State, t: State, u: State, w: seq<Context>)
    requires w != [] && AllWoken(s, t, [w[0]]) && AllWoken(t, u, w[1..])
    ensures AllWoken(s, u, w)
  {
    assert w == [w[0]] + w[1..];
    assert forall d :: d in w <==> d in [w[0]] || d in w[1..];
  }

  lemma WakeOneWakes(s: State, c: Context)
    requires Closed(s) && c in s.contexts
    ensures Closed(Wake(s, c, Ready)) && AllWoken(s, Wake(s, c, Ready), [c])
  {
    var t := Wake(s, c, Ready);
    WakeIsClosed(s, c, Ready);
    InsertMembers(s.runQueue, t.contexts, c, s.contexts[c].priority, false);
  }

  lemma {:induction false} WakeAllWakes(s: State, w: seq<Context>)
    requires Closed(s) && forall i | 0 <= i < |w| :: w[i] in s.contexts
    ensures AllWoken(s, WakeAll(s, w), w)
    decreases |w|
  {
    if w != [] {
      var t := Wake(s, w[0], Ready);
      WakeOneWakes(s, w[0]);
      WakeAllWakes(t, w[1..]);
      OneThenRest(s, t, WakeAll(t, w[1..]), w);
    }
  }

  lemma BroadcastQueueWakes(s: State, q: WaitQueue)
    requires Closed(s) && q in s.queues
    ensures AllWoken(s, BroadcastQueueOp(s, q), s.queues[q])
    ensures BroadcastQueueOp(s, q).queues == s.queues[q := []]
  {
    WakeAllWakes(s, s.queues[q]);
  }

  /** A broadcast wakes every waiter and empties the queue. */
  lemma BroadcastWakes(s: State, q: WaitQueue)
    requires MayStep(s, Broadcast(q))
    ensures var u := Apply(s, Broadcast(q)); AllWoken(s, u, s.queues[q]) && u.queues == s.queues[q := []]
  {
    BroadcastQueueWakes(s, q);
  }

  // ---------- who is woken, and why ----------

  ghost predicate Asleep(s: State, c: Context) {
    c in s.contexts && (s.contexts[c].state.Sleep? || s.contexts[c].state.SleepQueue?)
  }

  /** The reason with which an operation wakes a sleeper, if it does. */
  ghost function WakeReason(s: State, op: Op, c: Context): Option<RunState>
    requires c in s.contexts
  {
    var st := s.contexts[c].state;
    if st.Sleep? then
      if op == Signal(c) then Some(Ready) else if op == Interrupt(c) then Some(Interrupted) else None
    else if st.SleepQueue? then
      match op
      case SignalFirst(q) => if q in s.queues && s.queues[q] != [] && s.queues[q][0] == c then Some(Ready) else None
      case Broadcast(q) => if q in s.queues && c in s.queues[q] then Some(Ready) else None
      case InterruptOn(d, q) => if d == c && q in s.queues && c in s.queues[q] then Some(Interrupted) else None
      case _ => None
    else None
  }

  /** What a step does to the record of a sleeper: nothing at all, or waking it with the reason above. */
  ghost predicate SleepsOrWakes(s: State, op: Op, u: State, c: Context) {
    && c in s.contexts && c in u.contexts
    && (match WakeReason(s, op, c)
        case None => u.contexts[c] == s.contexts[c]
        case Some(r) => u.contexts[c] == s.contexts[c].(state := r) && c in u.runQueue)
  }

  lemma WokenSleepsOrWakes(s: State, u: State, d: Context, reason: RunState, c: Context)
    requires Woken(s, u, d, reason) && c in s.contexts
    ensures c in u.contexts && u.contexts[c] == if c == d then s.contexts[c].(state := reason) else s.contexts[c]
    ensures d in u.runQueue
  {
    var k: nat :| JoinsAt(s.runQueue, u.runQueue, d, s.contexts, s.contexts[d].priority, false, k);
    assert u.runQueue[k] == d;
  }

  lemma DirectReason(s: State, op: Op, u: State, reason: RunState, c: Context)
    requires (op.Signal? && reason.Ready?) || (op.Interrupt? && reason.Interrupted?)
    requires Asleep(s, c) && WokenIfAsleep(s, u, op.c, reason)
    ensures SleepsOrWakes(s, op, u, c)
  {
    if s.contexts[op.c].state.Sleep? {
      WokenSleepsOrWakes(s, u, op.c, reason, c);
    }
  }

  lemma DirectWakeWakes(s: State, op: Op, c: Context)
    requires MayStep(s, op) && (op.Signal? || op.Interrupt?) && Asleep(s, c)
    ensures SleepsOrWakes(s, op, Apply(s, op), c)
  {
    if op.Signal? {
      SignalWakes(s, op.c);
      DirectReason(s, op, Apply(s, op), Ready, c);
    } else {
      InterruptWakes(s, op.c);
      DirectReason(s, op, Apply(s, op), Interrupted, c);
    }
  }

  lemma QueueReason(s: State, op: Op, u: State, d: Context, reason: RunState, c: Context)
    requires (op.SignalFirst? && reason.Ready?) || (op.InterruptOn? && reason.Interrupted?)
    requires Asleep(s, c) && op.q in s.queues && d in s.contexts && s.contexts[d].state.SleepQueue?
    requires d in s.queues[op.q] && if op.SignalFirst? then s.queues[op.q][0] == d else op.c == d
    requires Woken(s, u, d, reason)
    ensures SleepsOrWakes(s, op, u, c)
  {
    WokenSleepsOrWakes(s, u, d, reason, c);
  }

  lemma SignalFirstStep(s: State, q: WaitQueue, c: Context)
    requires MayStep(s, SignalFirst(q)) && Asleep(s, c)
    ensures SleepsOrWakes(s, SignalFirst(q), Apply(s, SignalFirst(q)), c)
  {
    if s.queues[q] != [] {
      SignalFirstWakes(s, q);
      QueuedIsAsleep(s, q, 0);
      QueueReason(s, SignalFirst(q), Apply(s, SignalFirst(q)), s.queues[q][0], Ready, c);
    }
  }

  lemma InterruptOnStep(s: State, d: Context, q: WaitQueue, c: Context)
    requires MayStep(s, InterruptOn(d, q)) && Asleep(s, c)
    ensures SleepsOrWakes(s, InterruptOn(d, q), Apply(s, InterruptOn(d, q)), c)
  {
    var i := IndexOf(d, s.queues[q]);
    InterruptOnWakes(s, d, q, i);
    if i < |s.queues[q]| {
      QueuedIsAsleep(s, q, i);
      QueueReason(s, InterruptOn(d, q), Apply(s, InterruptOn(d, q)), d, Interrupted, c);
    }
  }

  lemma BroadcastReason(s: State, q: WaitQueue, u: State, c: Context)
    requires q in s.queues && AllWoken(s, u, s.queues[q]) && Asleep(s, c)
    requires c in s.queues[q] ==> s.contexts[c].state.SleepQueue?
    ensures SleepsOrWakes(s, Broadcast(q), u, c)
  {
  }

  lemma BroadcastStepWakes(s: State, q: WaitQueue, c: Context)
    requires MayStep(s, Broadcast(q)) && Asleep(s, c)
    ensures SleepsOrWakes(s, Broadcast(q), Apply(s, Broadcast(q)), c)
  {
    var i := IndexOf(c, s.queues[q]);
    if i < |s.queues[q]| {
      QueuedIsAsleep(s, q, i);
    }
    BroadcastWakes(s, q);
    BroadcastReason(s, q, Apply(s, Broadcast(q)), c);
  }

  lemma SleeperIsNotNext(s: State, op: Op, u: State, c: Context)
    requires MayStep(s, op) && !IsWake(op) && Asleep(s, c) && RunsNext(s, op, u)
    ensures u.current != c && (op.Create? ==> op.c != c) && s.current != c
  {
    assert ContextOk(s, c);
    assert |s.runQueue| > 1 ==> s.runQueue[1] in s.runQueue;
  }

  lemma OthersSleepOn(s: State, op: Op, u: State, c: Context)
    requires MayStep(s, op) && u == Apply(s, op) && !IsWake(op) && Asleep(s, c)
    ensures u.current != c && SleepsOrWakes(s, op, u, c)
  {
    StepRunsNext(s, op);
    SleeperIsNotNext(s, op, u, c);
    StepLeaves(s, op, c);
    UntouchedSleepsOn(s, op, u, c);
  }

  lemma UntouchedSleepsOn(s: State, op: Op, u: State, c: Context)
    requires !IsWake(op) && Untouched(s, u, c) && u.current != c
    ensures SleepsOrWakes(s, op, u, c)
  {
  }

  lemma WakeStepKeepsCurrent(s: State, op: Op)
    requires MayStep(s, op) && IsWake(op)
    ensures Apply(s, op).current == s.current
  {
  }

  /** Of all operations only these wake anybody, each whom it should, with its own reason. */
  lemma SleeperStep(s: State, op: Op, c: Context)
    requires MayStep(s, op) && Asleep(s, c)
    ensures SleepsOrWakes(s, op, Apply(s, op), c) && Apply(s, op).current != c
  {
    if IsWake(op) {
      WakeStepKeepsCurrent(s, op);
      assert ContextOk(s, c);
    }
    if op.Signal? || op.Interrupt? {
      DirectWakeWakes(s, op, c);
    } else if op.SignalFirst? {
      SignalFirstStep(s, op.q, c);
    } else if op.InterruptOn? {
      InterruptOnStep(s, op.c, op.q, c);
    } else if op.Broadcast? {
      BroadcastStepWakes(s, op.q, c);
    } else {
      OthersSleepOn(s, op, Apply(s, op), c);
    }
  }

  // ---------- from falling asleep to running again ----------

  /** From state i on, up to but not including state j, `c` does not run. */
  ghost predicate Away(trace: seq<State>, c: Context, i: nat, j: nat) {
    i <= j < |trace| && forall k | i <= k < j :: trace[k].current != c
  }

  /** `c` is woken by step k with reason r, having slept since state i, and waits for its turn up to state j. */
  ghost predicate WokenAt(trace: seq<State>, ops: seq<Op>, c: Context, i: nat, j: nat, k: nat, r: RunState) {
    && |trace| == |ops| + 1 && i <= k < j < |trace| && Asleep(trace[i], c)
    && (forall m | i <= m <= k :: Asleep(trace[m], c) && trace[m].contexts[c] == trace[i].contexts[c])
    && WakeReason(trace[k], ops[k], c) == Some(r)
    && (forall m | k < m <= j ::
          c in trace[m].contexts && trace[m].contexts[c] == trace[i].contexts[c].(state := r) && trace[m].current != c)
  }

  ghost predicate SleepsThrough(trace: seq<State>, c: Context, i: nat, j: nat) {
    && i <= j < |trace| && Asleep(trace[i], c)
    && forall m | i <= m <= j :: Asleep(trace[m], c) && trace[m].contexts[c] == trace[i].contexts[c]
  }

  lemma StepMayBeTaken(trace: seq<State>, ops: seq<Op>, n: nat)
    requires IsRun(trace, ops) && Boot(trace[0]) && n < |ops|
    ensures MayStep(trace[n], ops[n]) && trace[n + 1] == Apply(trace[n], ops[n])
  {
    RunKeepsInv(trace, ops, n);
    assert Step(trace[n], ops[n], trace[n + 1]);
  }

  lemma RunnableStaysPut(trace: seq<State>, ops: seq<Op>, n: nat, c: Context)
    requires IsRun(trace, ops) && Boot(trace[0]) && n < |ops| && c in trace[n].contexts
    requires trace[n].contexts[c].state.Runnable() && trace[n].current != c && trace[n + 1].current != c
    ensures c in trace[n + 1].contexts && trace[n + 1].contexts[c] == trace[n].contexts[c]
  {
    StepMayBeTaken(trace, ops, n);
    NotCreatedAgain(trace[n], ops[n], c);
    StepLeaves(trace[n], ops[n], c);
  }

  lemma SleepsOneMore(trace: seq<State>, ops: seq<Op>, c: Context, i: nat, j: nat) returns (k: nat, r: RunState)
    requires |trace| == |ops| + 1 && SleepsThrough(trace, c, i, j) && j < |ops| && trace[j + 1].current != c
    requires SleepsOrWakes(trace[j], ops[j], trace[j + 1], c)
    ensures SleepsThrough(trace, c, i, j + 1) || WokenAt(trace, ops, c, i, j + 1, k, r)
  {
    k, r := j, Ready;
    if WakeReason(trace[j], ops[j], c).Some? {
      r := WakeReason(trace[j], ops[j], c).value;
    }
  }

  lemma WaitsOneMore(trace: seq<State>, ops: seq<Op>, c: Context, i: nat, j: nat, k: nat, r: RunState)
    requires WokenAt(trace, ops, c, i, j, k, r) && j < |ops| && trace[j + 1].current != c
    requires c in trace[j + 1].contexts && trace[j + 1].contexts[c] == trace[j].contexts[c]
    ensures WokenAt(trace, ops, c, i, j + 1, k, r)
  {
  }

  lemma WokenRunnable(trace: seq<State>, ops: seq<Op>, c: Context, i: nat, j: nat, k: nat, r: RunState)
    requires WokenAt(trace, ops, c, i, j, k, r)
    ensures c in trace[j].contexts && trace[j].contexts[c].state.Runnable() && trace[j].current != c
  {
    ReasonIsRunnable(trace[k], ops[k], c);
  }

  lemma SleepOrWakeStep(trace: seq<State>, ops: seq<Op>, c: Context, i: nat, j: nat, k: nat, r: RunState)
    returns (k': nat, r': RunState)
    requires IsRun(trace, ops) && Boot(trace[0]) && i <= j < |ops| && trace[j + 1].current != c
    requires SleepsThrough(trace, c, i, j) || WokenAt(trace, ops, c, i, j, k, r)
    ensures SleepsThrough(trace, c, i, j + 1) || WokenAt(trace, ops, c, i, j + 1, k', r')
  {
    k', r' := k, r;
    if SleepsThrough(trace, c, i, j) {
      SleeperNeverRuns(trace, ops, j, c);
      k', r' := SleepsOneMore(trace, ops, c, i, j);
    } else {
      WokenRunnable(trace, ops, c, i, j, k, r);
      RunnableStaysPut(trace, ops, j, c);
      WaitsOneMore(trace, ops, c, i, j, k, r);
    }
  }

  /** Until it is woken a sleeper's record stays as it is, and afterwards only its state differs, until it runs. */
  lemma {:induction false} SleepOrWake(trace: seq<State>, ops: seq<Op>, c: Context, i: nat, j: nat)
    returns (k: nat, r: RunState)
    requires IsRun(trace, ops) && Boot(trace[0]) && i <= j < |trace| && Asleep(trace[i], c)
    requires Away(trace, c, i, j) && trace[j].current != c
    ensures SleepsThrough(trace, c, i, j) || WokenAt(trace, ops, c, i, j, k, r)
    decreases j
  {
    k, r := i, Ready;
    if i < j {
      k, r := SleepOrWake(trace, ops, c, i, j - 1);
      k, r := SleepOrWakeStep(trace, ops, c, i, j - 1, k, r);
    }
  }

  lemma ReasonIsRunnable(s: State, op: Op, c: Context)
    requires c in s.contexts
    ensures WakeReason(s, op, c).Some? ==> WakeReason(s, op, c).value.Runnable()
  {
  }

  /** `c` runs, told the reason r, and holds exactly `l`, at its ceiling. */
  ghost predicate RunsWith(s: State, c: Context, r: RunState, l: Lock) {
    && s.current == c && c in s.contexts && s.contexts[c].wake == r && s.contexts[c].stack == [l]
    && l in s.locks && s.contexts[c].priority == s.locks[l].ceiling
    && s.locks[l].locked && s.locks[l].owner == Some(c)
  }

  lemma SleeperHasLock(trace: seq<State>, ops: seq<Op>, n: nat, c: Context)
    requires IsRun(trace, ops) && Boot(trace[0]) && n < |trace| && Asleep(trace[n], c)
    ensures trace[n].contexts[c].resume.Some? && trace[n].contexts[c].stack == []
  {
    RunKeepsInv(trace, ops, n);
    assert ContextOk(trace[n], c);
  }

  lemma SleeperNeverRuns(trace: seq<State>, ops: seq<Op>, n: nat, c: Context)
    requires IsRun(trace, ops) && Boot(trace[0]) && n < |ops| && Asleep(trace[n], c)
    ensures SleepsOrWakes(trace[n], ops[n], trace[n + 1], c) && trace[n + 1].current != c
  {
    StepMayBeTaken(trace, ops, n);
    SleeperStep(trace[n], ops[n], c);
  }

  lemma ResumesWith(s: State, op: Op, c: Context)
    requires MayStep(s, op) && c != s.current && c in s.contexts && s.contexts[c].state.Runnable()
    requires s.contexts[c].resume.Some? && s.contexts[c].stack == [] && Apply(s, op).current == c
    ensures RunsWith(Apply(s, op), c, s.contexts[c].state, s.contexts[c].resume.value)
  {
    NotCreatedAgain(s, op, c);
    StepLeaves(s, op, c);
  }

  /**
   A context that went to sleep runs again only after one operation woke it, and is told by what kind: a signal or an
   interruption.  It then holds exactly the lock it went to sleep with, at that lock's ceiling.
   */
  lemma RunsAgainAsWoken(trace: seq<State>, ops: seq<Op>, c: Context, i: nat, j: nat) returns (k: nat, r: RunState)
    requires IsRun(trace, ops) && Boot(trace[0]) && i < j < |trace| && Asleep(trace[i], c) && Away(trace, c, i, j)
    requires trace[j].current == c
    ensures WokenAt(trace, ops, c, i, j - 1, k, r)
    ensures trace[i].contexts[c].resume.Some? && RunsWith(trace[j], c, r, trace[i].contexts[c].resume.value)
  {
    k, r := SleepOrWake(trace, ops, c, i, j - 1);
    SleeperHasLock(trace, ops, i, c);
    if SleepsThrough(trace, c, i, j - 1) {
      SleeperNeverRuns(trace, ops, j - 1, c);
    } else {
      ReasonIsRunnable(trace[k], ops[k], c);
      RunsAfterWaiting(trace, ops, c, i, j - 1, k, r);
    }
  }

  lemma RunsAfterWaiting(trace: seq<State>, ops: seq<Op>, c: Context, i: nat, j: nat, k: nat, r: RunState)
    requires WokenAt(trace, ops, c, i, j, k, r) && r.Runnable() && trace[i].contexts[c].resume.Some?
    requires trace[i].contexts[c].stack == [] && IsRun(trace, ops) && Boot(trace[0]) && j < |ops|
    requires trace[j + 1].current == c
    ensures RunsWith(trace[j + 1], c, r, trace[i].contexts[c].resume.value)
  {
    StepMayBeTaken(trace, ops, j);
    ResumesWith(trace[j], ops[j], c);
  }

  lemma NotCreatedAgain(s: State, op: Op, c: Context)
    requires MayStep(s, op) && c in s.contexts && s.contexts[c].state.Runnable()
    ensures op.Create? ==> op.c != c
  {
  }
}
