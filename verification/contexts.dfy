/**
 The scheduling state of the kernel, and what each context operation does to it.

 A `State` is a snapshot of everything the operations read or write: the run queue, every context and
 lock record, the sleep queues and the identity of the running context.  Each operation is a function on
 snapshots; the class in kernel.dfy performs the same operations in place and is proved against these functions.

 Three parts of a record are bookkeeping of the model rather than fields of the C structures.  `base` is the
 priority a context was created with, `stack` is the list of locks it holds (oldest first) and `owner` is the
 holder of a lock.  `resume` stands for the stack frame of a context suspended inside the wait routine: it names
 the lock the context re-takes when it next runs.
 */
module Contexts {
  import opened Collections

  datatype RunState = Null | Running | Ready | Interrupted | Sleep | SleepQueue
  {
    predicate Runnable() {
      Running? || Ready? || Interrupted?
    }
  }

  // The addresses by which the C code refers to its structures.
  newtype Context = x: int | 0 <= x
  newtype Lock = x: int | 0 <= x
  newtype WaitQueue = x: int | 0 <= x

  datatype ContextRecord = ContextRecord(
    priority: nat, state: RunState, held: nat, wake: RunState, resume: Option<Lock>, base: nat, stack: seq<Lock>)

  datatype LockRecord = LockRecord(locked: bool, ceiling: nat, saved: nat, owner: Option<Context>)

  datatype State = State(
    contexts: map<Context, ContextRecord>,
    locks: map<Lock, LockRecord>,
    queues: map<WaitQueue, seq<Context>>,
    runQueue: seq<Context>,
    runQueueLen: nat,
    current: Context,
    idle: Context,
    trapped: bool)

  // The u8_t counters run_queue_len and c_spinlocks_held wrap at 256.

  function Inc8(n: nat): nat {
    if n == 255 then 0 else n + 1
  }

  function Dec8(n: nat): nat {
    if n == 0 then 255 else n - 1
  }

  /** What a u8_t counter shows when the true count is `n`. */
  ghost function Low8(n: nat): nat {
    if n < 256 then n else Low8(n - 256)
  }

  lemma {:induction false} CounterSteps(n: nat)
    ensures Low8(n + 1) == Inc8(Low8(n))
    ensures n > 0 ==> Low8(n - 1) == Dec8(Low8(n))
  {
    if n > 256 {
      CounterSteps(n - 256);
    }
  }

  lemma {:induction false} Low8IsRemainder(n: nat)
    ensures Low8(n) == n % 256
  {
    if n >= 256 {
      Low8IsRemainder(n - 256);
    }
  }

  /** Every context and lock that the state mentions has a record. */
  ghost predicate Closed(s: State) {
    && s.current in s.contexts
    && s.idle in s.contexts
    && (forall i | 0 <= i < |s.runQueue| :: s.runQueue[i] in s.contexts)
    && (forall q, i | q in s.queues && 0 <= i < |s.queues[q]| :: s.queues[q][i] in s.contexts)
    && (forall c | c in s.contexts ::
          && (forall i | 0 <= i < |s.contexts[c].stack| :: s.contexts[c].stack[i] in s.locks)
          && (s.contexts[c].resume.Some? ==> s.contexts[c].resume.value in s.locks))
  }

  /** The running context is at the head of the run queue. */
  ghost predicate Scheduled(s: State) {
    Closed(s) && s.runQueue != [] && s.runQueue[0] == s.current
  }

  // ---------- run queue insertion ----------

  /** Whether the insertion scan walks past `other` when placing a context of priority `p`. */
  predicate Passes(other: nat, p: nat, strict: bool) {
    if strict then other < p else other <= p
  }

  /** The position at which an insertion scan for priority `p` stops. */
  ghost function Slot(q: seq<Context>, cs: map<Context, ContextRecord>, p: nat, strict: bool): (k: nat)
    requires forall i | 0 <= i < |q| :: q[i] in cs
    ensures k <= |q|
    ensures forall i | 0 <= i < k :: Passes(cs[q[i]].priority, p, strict)
    ensures k < |q| ==> !Passes(cs[q[k]].priority, p, strict)
  {
    if q == [] || !Passes(cs[q[0]].priority, p, strict) then 0
    else
      var rest := Slot(q[1..], cs, p, strict);
      assert forall i | 0 < i < |q| :: q[i] == q[1..][i - 1];
      1 + rest
  }

  ghost function Insert(q: seq<Context>, cs: map<Context, ContextRecord>, c: Context, p: nat, strict: bool)
    : (r: seq<Context>)
    requires forall i | 0 <= i < |q| :: q[i] in cs
    ensures |r| == |q| + 1
    ensures c in r
    ensures forall i | 0 <= i < |q| :: q[i] in r
    ensures forall i | 0 <= i < |r| :: r[i] == c || r[i] in q
  {
    var k := Slot(q, cs, p, strict);
    var r := q[..k] + [c] + q[k..];
    assert r[k] == c;
    assert forall i | 0 <= i < |q| :: q[i] == r[if i < k then i else i + 1];
    r
  }

  // ---------- building blocks ----------

  ghost function SetContext(s: State, c: Context, r: ContextRecord): State {
    s.(contexts := s.contexts[c := r])
  }

  /** Boost the running context to priority `p` and mark `l` as taken by it. */
  ghost function TakeLock(s: State, l: Lock, p: nat): (t: State)
    requires Closed(s) && l in s.locks
    ensures Closed(t)
  {
    var me := s.contexts[s.current];
    var k := s.locks[l];
    s.(contexts := s.contexts[s.current := me.(priority := p, held := Inc8(me.held), stack := me.stack + [l])],
       locks := s.locks[l := k.(locked := true, saved := me.priority, owner := Some(s.current))],
       trapped := s.trapped || k.locked)
  }

  /** Restore the priority saved inside `l` and mark `l` as free. */
  ghost function DropLock(s: State, l: Lock): (t: State)
    requires Closed(s) && l in s.locks
    ensures Closed(t)
  {
    var me := s.contexts[s.current];
    var k := s.locks[l];
    var rest := if me.stack == [] then [] else me.stack[..|me.stack| - 1];
    s.(contexts := s.contexts[s.current := me.(priority := k.saved, held := Dec8(me.held), stack := rest)],
       locks := s.locks[l := k.(locked := false, owner := None)],
       trapped := s.trapped || !k.locked)
  }

  /** Switch to the head of the run queue; a context that was waiting re-takes its lock. */
  ghost function Dispatch(s: State): (t: State)
    requires Closed(s) && s.runQueue != []
    ensures t.queues == s.queues
  {
    var c := s.runQueue[0];
    var r := s.contexts[c];
    var t := s.(current := c, contexts := s.contexts[c := r.(state := Running, wake := r.state, resume := None)]);
    if r.resume.None? then t else TakeLock(t, r.resume.value, s.locks[r.resume.value].ceiling)
  }

  /** Give up the processor, keeping the record `r` for the context that was running. */
  ghost function SwitchAway(s: State, q: seq<Context>, r: ContextRecord): (t: State)
    requires Closed(s) && q != []
    requires forall i | 0 <= i < |q| :: q[i] in s.contexts
    requires forall i | 0 <= i < |r.stack| :: r.stack[i] in s.locks
    requires r.resume.Some? ==> r.resume.value in s.locks
    ensures t.queues == s.queues
  {
    Dispatch(s.(runQueue := q, contexts := s.contexts[s.current := r]))
  }

  /** Put a sleeping context back on the run queue, behind its equals. */
  ghost function Wake(s: State, c: Context, reason: RunState): State
    requires Closed(s) && c in s.contexts
  {
    var cs := s.contexts[c := s.contexts[c].(state := reason)];
    s.(contexts := cs,
       runQueueLen := Inc8(s.runQueueLen),
       runQueue := Insert(s.runQueue, cs, c, cs[c].priority, false))
  }

  lemma WakeIsClosed(s: State, c: Context, reason: RunState)
    requires Closed(s) && c in s.contexts
    ensures Closed(Wake(s, c, reason))
  {
    var t := Wake(s, c, reason);
    forall i | 0 <= i < |t.runQueue| ensures t.runQueue[i] in t.contexts {
      assert t.runQueue[i] in t.runQueue;
    }
  }

  // ---------- locks ----------

  ghost function LockOp(s: State, l: Lock): State
    requires Scheduled(s) && l in s.locks
  {
    var p := s.locks[l].ceiling;
    TakeLock(s.(trapped := s.trapped || p > s.contexts[s.current].priority), l, p)
  }

  ghost function IsrLockOp(s: State, l: Lock): State
    requires Scheduled(s) && l in s.locks
  {
    TakeLock(s.(trapped := s.trapped || s.locks[l].ceiling != 0), l, 0)
  }

  /** Release `l`; give way only to contexts strictly more urgent than the restored priority. */
  ghost function UnlockOp(s: State, l: Lock): (t: State)
    requires Scheduled(s) && l in s.locks
    ensures t.queues == s.queues
  {
    var p := s.locks[l].saved;
    var t := DropLock(s.(trapped := s.trapped || p < s.contexts[s.current].priority), l);
    var q := s.runQueue[1..];
    if q != [] && t.contexts[q[0]].priority < p then
      var me := t.contexts[s.current].(state := Ready);
      var cs := t.contexts[s.current := me];
      var u := Insert(q, cs, s.current, p, true);
      assert forall i | 0 <= i < |u| :: u[i] in cs;
      SwitchAway(t, u, me)
    else t
  }

  // ---------- sleeping ----------

  ghost function WaitOp(s: State, l: Lock, sleepState: RunState): (t: State)
    requires Scheduled(s) && l in s.locks && |s.runQueue| > 1
    ensures t.queues == s.queues
  {
    var t := DropLock(s, l);
    var me := t.contexts[s.current];
    SwitchAway(
      t.(trapped := t.trapped || me.held != 0, runQueueLen := Dec8(s.runQueueLen)),
      s.runQueue[1..], me.(state := sleepState, resume := Some(l)))
  }

  ghost function WaitQueueOp(s: State, l: Lock, q: WaitQueue): State
    requires Scheduled(s) && l in s.locks && |s.runQueue| > 1 && q in s.queues
  {
    WaitOp(s.(queues := s.queues[q := [s.current] + s.queues[q]]), l, SleepQueue)
  }

  ghost function WaitPriQueueOp(s: State, l: Lock, q: WaitQueue): State
    requires Scheduled(s) && l in s.locks && |s.runQueue| > 1 && q in s.queues
  {
    var w := Insert(s.queues[q], s.contexts, s.current, s.locks[l].saved, false);
    assert forall i | 0 <= i < |w| :: w[i] in w;
    WaitOp(s.(queues := s.queues[q := w]), l, SleepQueue)
  }

  // ---------- waking ----------

  ghost function SignalOp(s: State, c: Context): State
    requires Closed(s) && c in s.contexts
  {
    if s.contexts[c].state.Sleep? then Wake(s, c, Ready) else s
  }

  ghost function InterruptOp(s: State, c: Context): State
    requires Closed(s) && c in s.contexts
  {
    if s.contexts[c].state.Sleep? then Wake(s, c, Interrupted) else s
  }

  /** Unlink the `i`-th waiter of `q` and wake it. */
  ghost function WakeFrom(s: State, q: WaitQueue, i: nat, reason: RunState): State
    requires Closed(s) && q in s.queues && i < |s.queues[q]|
  {
    var w := s.queues[q];
    Wake(s.(queues := s.queues[q := w[..i] + w[i + 1..]]), w[i], reason)
  }

  ghost function SignalQueueOp(s: State, q: WaitQueue): State
    requires Closed(s) && q in s.queues
  {
    if s.queues[q] == [] then s else WakeFrom(s, q, 0, Ready)
  }

  /** Wake the members of `w` in order. */
  ghost function WakeAll(s: State, w: seq<Context>): (t: State)
    requires Closed(s) && forall i | 0 <= i < |w| :: w[i] in s.contexts
    ensures Closed(t)
    ensures t.contexts.Keys == s.contexts.Keys && t.locks == s.locks && t.queues == s.queues
    ensures t.current == s.current && t.idle == s.idle && t.trapped == s.trapped
    decreases |w|
  {
    if w == [] then s
    else
      WakeIsClosed(s, w[0], Ready);
      WakeAll(Wake(s, w[0], Ready), w[1..])
  }

  ghost function BroadcastQueueOp(s: State, q: WaitQueue): State
    requires Closed(s) && q in s.queues
  {
    WakeAll(s, s.queues[q]).(queues := s.queues[q := []])
  }

  ghost function IndexOf(c: Context, w: seq<Context>): (i: nat)
    ensures i <= |w|
    ensures i < |w| ==> w[i] == c
    ensures i == |w| <==> c !in w
    ensures c !in w[..i]
  {
    if w == [] || w[0] == c then 0
    else
      assert w == [w[0]] + w[1..];
      1 + IndexOf(c, w[1..])
  }

  lemma IndexIsFirst(c: Context, w: seq<Context>, i: nat)
    requires i <= |w| && c !in w[..i] && (i < |w| ==> w[i] == c)
    ensures i == IndexOf(c, w)
  {
    var k := IndexOf(c, w);
    assert forall j | 0 <= j < i :: w[j] == w[..i][j];
    assert forall j | 0 <= j < k :: w[j] == w[..k][j];
  }

  ghost function InterruptQueueOp(s: State, c: Context, q: WaitQueue): State
    requires Closed(s) && q in s.queues
  {
    var i := IndexOf(c, s.queues[q]);
    if i == |s.queues[q]| then s else WakeFrom(s, q, i, Interrupted)
  }

  // ---------- yielding, creating, exiting ----------

  ghost function YieldOp(s: State): (t: State)
    requires Scheduled(s)
    ensures t.queues == s.queues
  {
    var me := s.contexts[s.current];
    var q := Insert(s.runQueue[1..], s.contexts, s.current, me.priority, false);
    assert forall i | 0 <= i < |q| :: q[i] in q;
    if q[0] == s.current then s.(runQueue := q)
    else SwitchAway(s, q, me.(state := Ready))
  }

  ghost function CreateOp(s: State, c: Context, p: nat): (t: State)
    requires Scheduled(s)
    ensures t.queues == s.queues
  {
    var cs := s.contexts[c := ContextRecord(p, Ready, 0, Ready, None, p, [])];
    var q := Insert(s.runQueue, cs, c, p, false);
    assert forall i | 0 <= i < |q| :: q[i] in q;
    var t := s.(contexts := cs, runQueueLen := Inc8(s.runQueueLen));
    if q[0] == s.current then t.(runQueue := q)
    else SwitchAway(t, q, cs[s.current].(state := Ready))
  }

  ghost function ExitOp(s: State): (t: State)
    requires Scheduled(s) && |s.runQueue| > 1
    ensures t.queues == s.queues
  {
    SwitchAway(s.(runQueueLen := Dec8(s.runQueueLen)), s.runQueue[1..],
               s.contexts[s.current].(state := Null))
  }

  // ---------- whole runs ----------

  datatype Op =
    | TakeSpinlock(l: Lock)
    | IsrTakeSpinlock(l: Lock)
    | ReleaseSpinlock(l: Lock)
    | Wait(l: Lock)
    | WaitOn(l: Lock, q: WaitQueue)
    | WaitByPriority(l: Lock, q: WaitQueue)
    | Signal(c: Context)
    | SignalFirst(q: WaitQueue)
    | Broadcast(q: WaitQueue)
    | Interrupt(c: Context)
    | InterruptOn(c: Context, q: WaitQueue)
    | Yield
    | Create(c: Context, priority: nat)
    | Exit

  /**
   The lock discipline the callers follow.  None of it says that a lock is free, that the run queue is in
   order or that waking is safe: those are what the discipline is proved to guarantee.
   */
  ghost predicate Disciplined(s: State, op: Op)
    requires Scheduled(s)
  {
    var me := s.contexts[s.current];
    match op
    case TakeSpinlock(l) => l in s.locks && l !in me.stack && s.locks[l].ceiling <= me.priority
    case IsrTakeSpinlock(l) => l in s.locks && l !in me.stack && s.locks[l].ceiling == 0
    case ReleaseSpinlock(l) => me.stack != [] && me.stack[|me.stack| - 1] == l
    case Wait(l) => me.stack == [l] && s.current != s.idle
    case WaitOn(l, q) => me.stack == [l] && s.current != s.idle && q in s.queues
    case WaitByPriority(l, q) => me.stack == [l] && s.current != s.idle && q in s.queues
    case Signal(c) => c in s.contexts && (s.contexts[c].state.Sleep? ==> me.priority <= s.contexts[c].priority)
    case Interrupt(c) => c in s.contexts && (s.contexts[c].state.Sleep? ==> me.priority <= s.contexts[c].priority)
    case SignalFirst(q) => q in s.queues && Outranks(s, me.priority, s.queues[q][..if s.queues[q] == [] then 0 else 1])
    case Broadcast(q) => q in s.queues && Outranks(s, me.priority, s.queues[q])
    case InterruptOn(c, q) =>
      q in s.queues && (c in s.queues[q] ==> c in s.contexts && me.priority <= s.contexts[c].priority)
    case Yield => me.stack == []
    case Create(c, p) => c in s.contexts ==> s.contexts[c].state.Null? && c != s.idle
    case Exit => me.stack == [] && s.current != s.idle
  }

  /** Priority `p` is at least as urgent as every member of `w`. */
  ghost predicate Outranks(s: State, p: nat, w: seq<Context>) {
    forall i | 0 <= i < |w| :: w[i] in s.contexts && p <= s.contexts[w[i]].priority
  }
}
