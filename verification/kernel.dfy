/**
 The context library itself: a kernel object whose operations change the run queue, the context and lock records and
 the sleep queues in place.  `View` is the snapshot of all of it, and each method is proved to turn one snapshot into
 the next exactly as its counterpart in module Contexts says.
 */
module KernelModule {
  import opened Collections
  import opened Contexts

  lemma SlotIsUnique(q: seq<Context>, cs: map<Context, ContextRecord>, p: nat, strict: bool, k: nat)
    requires forall i | 0 <= i < |q| :: q[i] in cs
    requires k <= |q|
    requires forall i | 0 <= i < k :: Passes(cs[q[i]].priority, p, strict)
    requires k < |q| ==> !Passes(cs[q[k]].priority, p, strict)
    ensures k == Slot(q, cs, p, strict)
  {
  }

  /** The scan of every insertion: past the contexts that go first, and no further. */
  method ScanPast(q: seq<Context>, cs: map<Context, ContextRecord>, p: nat, strict: bool) returns (k: nat)
    requires forall i | 0 <= i < |q| :: q[i] in cs
    ensures k == Slot(q, cs, p, strict)
  {
    k := 0;
    while k < |q| && Passes(cs[q[k]].priority, p, strict)
      invariant 0 <= k <= |q|
      invariant forall j | 0 <= j < k :: Passes(cs[q[j]].priority, p, strict)
    {
      k := k + 1;
    }
    SlotIsUnique(q, cs, p, strict, k);
  }

  /** The search of a queue for a waiter; past the end if it is not there. */
  method FindWaiter(c: Context, w: seq<Context>) returns (i: nat)
    ensures i == IndexOf(c, w)
    ensures i <= |w| && (i < |w| <==> c in w)
  {
    i := 0;
    while i < |w| && w[i] != c
      invariant 0 <= i <= |w|
      invariant c !in w[..i]
    {
      i := i + 1;
    }
    IndexIsFirst(c, w, i);
  }

  class Kernel {
    var contexts: map<Context, ContextRecord>
    var locks: map<Lock, LockRecord>
    var queues: map<WaitQueue, seq<Context>>
    var runQueue: seq<Context>
    var runQueueLen: nat
    var current: Context
    const idle: Context
    var trapped: bool

    ghost function View(): State
      reads this
    {
      State(contexts, locks, queues, runQueue, runQueueLen, current, idle, trapped)
    }

    /** Start-up: the first context to be created becomes the running one; every lock is initialised as free. */
    constructor (c: Context, p: nat, ceilings: map<Lock, nat>, qs: set<WaitQueue>)
      ensures View() == State(map[c := ContextRecord(p, Running, 0, Ready, None, p, [])],
                              map l | l in ceilings :: LockRecord(false, ceilings[l], 0, None),
                              map q | q in qs :: [],
                              [c], 1, c, c, false)
    {
      contexts := map[c := ContextRecord(p, Running, 0, Ready, None, p, [])];
      locks := map l | l in ceilings :: LockRecord(false, ceilings[l], 0, None);
      queues := map q | q in qs :: [];
      runQueue, runQueueLen, current, idle, trapped := [c], 1, c, c, false;
    }

    /** Insert `c` into the run queue: the scan walks past its equals. */
    method ContextReady(c: Context)
      requires Closed(View()) && c in contexts
      modifies this`runQueue
      ensures runQueue == Insert(old(runQueue), contexts, c, contexts[c].priority, false)
      ensures Closed(View())
    {
      var i := ScanPast(runQueue, contexts, contexts[c].priority, false);
      runQueue := runQueue[..i] + [c] + runQueue[i..];
    }

    /** Boost the running context and mark `l` as taken; taking a lock that is already held is trapped. */
    method Boost(l: Lock, p: nat)
      requires Closed(View()) && l in locks
      modifies this`contexts, this`locks, this`trapped
      ensures View() == TakeLock(old(View()), l, p)
    {
      var me := contexts[current];
      if locks[l].locked {
        trapped := true;
      }
      locks := locks[l := locks[l].(locked := true, saved := me.priority, owner := Some(current))];
      contexts := contexts[current := me.(priority := p, held := Inc8(me.held), stack := me.stack + [l])];
    }

    /** Restore the priority saved inside `l` and mark it as free; releasing a free lock is trapped. */
    method Unboost(l: Lock)
      requires Closed(View()) && l in locks
      modifies this`contexts, this`locks, this`trapped
      ensures View() == DropLock(old(View()), l)
    {
      var me := contexts[current];
      if !locks[l].locked {
        trapped := true;
      }
      var rest := if me.stack == [] then [] else me.stack[..|me.stack| - 1];
      contexts := contexts[current := me.(priority := locks[l].saved, held := Dec8(me.held), stack := rest)];
      locks := locks[l := locks[l].(locked := false, owner := None)];
    }

    /** Hand the processor to the head of the run queue; a context that was waiting takes its lock again. */
    method ContextSwitch() returns (ret: RunState)
      requires Closed(View()) && runQueue != []
      modifies this`contexts, this`locks, this`trapped, this`current
      ensures View() == Dispatch(old(View()))
      ensures ret == old(contexts[runQueue[0]].state)
    {
      current := runQueue[0];
      var r := contexts[current];
      ret := r.state;
      contexts := contexts[current := r.(state := Running, wake := ret, resume := None)];
      if r.resume.Some? {
        Boost(r.resume.value, locks[r.resume.value].ceiling);
      }
    }

    method SpinlockLock(l: Lock)
      requires Scheduled(View()) && l in locks
      modifies this`contexts, this`locks, this`trapped
      ensures View() == LockOp(old(View()), l)
    {
      if locks[l].ceiling > contexts[current].priority {
        trapped := true;
      }
      Boost(l, locks[l].ceiling);
    }

    method IsrSpinlockLock(l: Lock)
      requires Scheduled(View()) && l in locks
      modifies this`contexts, this`locks, this`trapped
      ensures View() == IsrLockOp(old(View()), l)
    {
      if locks[l].ceiling != 0 {
        trapped := true;
      }
      Boost(l, 0);
    }

    /** Take the caller off the head of the run queue and put it back in front of its equals. */
    method Reinsert(p: nat)
      requires Closed(View()) && runQueue != []
      modifies this`runQueue
      ensures runQueue == Insert(old(runQueue[1..]), contexts, current, p, true)
      ensures Closed(View())
    {
      var q := runQueue[1..];
      var i := ScanPast(q, contexts, p, true);
      runQueue := q[..i] + [current] + q[i..];
    }

    /** Release `l` and give way if somebody strictly more urgent is ready. */
    method SpinlockUnlock(l: Lock)
      requires Scheduled(View()) && l in locks
      modifies this
      ensures View() == UnlockOp(old(View()), l)
    {
      var p := locks[l].saved;
      if p < contexts[current].priority {
        trapped := true;
      }
      Unboost(l);
      if |runQueue| > 1 && contexts[runQueue[1]].priority < p {
        contexts := contexts[current := contexts[current].(state := Ready)];
        Reinsert(p);
        var _ := ContextSwitch();
      }
    }

    /** Hand over `l`, leave the run queue and sleep until woken. */
    method ContextWait(l: Lock, sleepState: RunState)
      requires Scheduled(View()) && l in locks && |runQueue| > 1
      modifies this
      ensures View() == WaitOp(old(View()), l, sleepState)
    {
      Unboost(l);
      if contexts[current].held != 0 {
        trapped := true;
      }
      runQueue := runQueue[1..];
      runQueueLen := Dec8(runQueueLen);
      contexts := contexts[current := contexts[current].(state := sleepState, resume := Some(l))];
      var _ := ContextSwitch();
    }

    method ContextWaitQueue(l: Lock, q: WaitQueue)
      requires Scheduled(View()) && l in locks && |runQueue| > 1 && q in queues
      modifies this
      ensures View() == WaitQueueOp(old(View()), l, q)
    {
      queues := queues[q := [current] + queues[q]];
      ContextWait(l, SleepQueue);
    }

    /** Join the sleep queue behind the waiters that are at least as urgent, then sleep. */
    method ContextWaitPriQueue(l: Lock, q: WaitQueue)
      requires Scheduled(View()) && l in locks && |runQueue| > 1 && q in queues
      modifies this
      ensures View() == WaitPriQueueOp(old(View()), l, q)
    {
      var p := locks[l].saved;
      var w := queues[q];
      var i := ScanPast(w, contexts, p, false);
      queues := queues[q := w[..i] + [current] + w[i..]];
      ContextWait(l, SleepQueue);
    }

    method WakeUp(c: Context, reason: RunState)
      requires Closed(View()) && c in contexts
      modifies this`contexts, this`runQueue, this`runQueueLen
      ensures View() == Wake(old(View()), c, reason)
      ensures Closed(View())
    {
      contexts := contexts[c := contexts[c].(state := reason)];
      runQueueLen := Inc8(runQueueLen);
      ContextReady(c);
    }

    method ContextSignal(c: Context)
      requires Closed(View()) && c in contexts
      modifies this`contexts, this`runQueue, this`runQueueLen
      ensures View() == SignalOp(old(View()), c)
    {
      if contexts[c].state == Sleep {
        WakeUp(c, Ready);
      }
    }

    method ContextInterrupt(c: Context)
      requires Closed(View()) && c in contexts
      modifies this`contexts, this`runQueue, this`runQueueLen
      ensures View() == InterruptOp(old(View()), c)
    {
      if contexts[c].state == Sleep {
        WakeUp(c, Interrupted);
      }
    }

    /** Unlink the waiter at place i and wake it. */
    method WakeQueued(q: WaitQueue, i: nat, reason: RunState)
      requires Closed(View()) && q in queues && i < |queues[q]|
      modifies this`contexts, this`runQueue, this`runQueueLen, this`queues
      ensures View() == WakeFrom(old(View()), q, i, reason)
    {
      var w := queues[q];
      queues := queues[q := w[..i] + w[i + 1..]];
      WakeUp(w[i], reason);
    }

    /** Wake the first waiter, if there is one, and say how many were woken. */
    method ContextSignalQueue(q: WaitQueue) returns (woken: nat)
      requires Closed(View()) && q in queues
      modifies this`contexts, this`runQueue, this`runQueueLen, this`queues
      ensures View() == SignalQueueOp(old(View()), q)
      ensures woken == if old(queues[q]) == [] then 0 else 1
    {
      woken := 0;
      if queues[q] != [] {
        WakeQueued(q, 0, Ready);
        woken := 1;
      }
    }

    method WakeInOrder(w: seq<Context>) returns (woken: nat)
      requires Closed(View()) && forall i | 0 <= i < |w| :: w[i] in contexts
      modifies this`contexts, this`runQueue, this`runQueueLen
      ensures View() == WakeAll(old(View()), w)
      ensures woken == Low8(|w|)
    {
      woken := 0;
      var i := 0;
      ghost var goal := WakeAll(View(), w);
      assert w[0..] == w;
      while i < |w|
        invariant 0 <= i <= |w| && woken == Low8(i)
        invariant StillToWake(View(), w, i, goal)
      {
        WakeOneMore(View(), w, i, goal);
        CounterSteps(i);
        WakeUp(w[i], Ready);
        i, woken := i + 1, Inc8(woken);
      }
    }

    /** Wake every waiter in queue order, and say (in a wrapping byte) how many were woken. */
    method ContextBroadcastQueue(q: WaitQueue) returns (woken: nat)
      requires Closed(View()) && q in queues
      modifies this`contexts, this`runQueue, this`runQueueLen, this`queues
      ensures View() == BroadcastQueueOp(old(View()), q)
      ensures woken == Low8(|old(queues[q])|)
    {
      woken := WakeInOrder(queues[q]);
      queues := queues[q := []];
    }

    /** Search the queue for `c`; if it is there, unlink it and wake it as interrupted. */
    method ContextInterruptQueue(c: Context, q: WaitQueue) returns (woken: nat)
      requires Closed(View()) && q in queues
      modifies this`contexts, this`runQueue, this`runQueueLen, this`queues
      ensures View() == InterruptQueueOp(old(View()), c, q)
      ensures woken == if c in old(queues[q]) then 1 else 0
    {
      woken := 0;
      var i := FindWaiter(c, queues[q]);
      if i < |queues[q]| {
        WakeQueued(q, i, Interrupted);
        woken := 1;
      }
    }

    method ContextYield()
      requires Scheduled(View())
      modifies this
      ensures View() == YieldOp(old(View()))
    {
      runQueue := runQueue[1..];
      ContextReady(current);
      if current != runQueue[0] {
        contexts := contexts[current := contexts[current].(state := Ready)];
        var _ := ContextSwitch();
      }
    }

    /** Create a context and switch to it at once if it is more urgent than the caller. */
    method ContextInit(c: Context, p: nat)
      requires Scheduled(View())
      modifies this
      ensures View() == CreateOp(old(View()), c, p)
    {
      contexts := contexts[c := ContextRecord(p, Ready, 0, Ready, None, p, [])];
      runQueueLen := Inc8(runQueueLen);
      ContextReady(c);
      if current != runQueue[0] {
        contexts := contexts[current := contexts[current].(state := Ready)];
        var _ := ContextSwitch();
      }
    }

    method ContextExit()
      requires Scheduled(View()) && |runQueue| > 1
      modifies this
      ensures View() == ExitOp(old(View()))
    {
      runQueue := runQueue[1..];
      runQueueLen := Dec8(runQueueLen);
      contexts := contexts[current := contexts[current].(state := Null)];
      var _ := ContextSwitch();
    }
  }

  /** Waking the rest of `w` from here ends in `goal`. */
  ghost predicate StillToWake(s: State, w: seq<Context>, i: nat, goal: State) {
    && Closed(s) && i <= |w|
    && (forall j | 0 <= j < |w| :: w[j] in s.contexts)
    && WakeAll(s, w[i..]) == goal
  }

  lemma WakeOneMore(s: State, w: seq<Context>, i: nat, goal: State)
    requires StillToWake(s, w, i, goal) && i < |w|
    ensures StillToWake(Wake(s, w[i], Ready), w, i + 1, goal)
  {
    WakeIsClosed(s, w[i], Ready);
    assert w[i..][0] == w[i] && w[i..][1..] == w[i + 1..];
  }
}
