/**
 The kernel object under the discipline: from start-up on, every step that the discipline allows can be taken in place
 and keeps the invariant of the priority ceiling, so the object never traps.
 */
module KernelRuns {
  import opened Collections
  import opened Contexts
  import opened PriorityCeiling
  import opened CeilingTheorems
  import opened KernelModule

  method Start(c: Context, p: nat, ceilings: map<Lock, nat>, qs: set<WaitQueue>) returns (k: Kernel)
    ensures fresh(k) && Boot(k.View()) && Inv(k.View())
  {
    k := new Kernel(c, p, ceilings, qs);
    BootEstablishesInv(k.View());
  }

  /** One step of the running context, whichever it is. */
  method Perform(k: Kernel, op: Op)
    requires Inv(k.View()) && Scheduled(k.View()) && Disciplined(k.View(), op)
    modifies k
    ensures Step(old(k.View()), op, k.View()) && Inv(k.View()) && !k.trapped
  {
    StepKeepsInv(k.View(), op);
    match op
    case TakeSpinlock(l) => k.SpinlockLock(l);
    case IsrTakeSpinlock(l) => k.IsrSpinlockLock(l);
    case ReleaseSpinlock(l) => k.SpinlockUnlock(l);
    case Wait(l) => k.ContextWait(l, Sleep);
    case WaitOn(l, q) => k.ContextWaitQueue(l, q);
    case WaitByPriority(l, q) => k.ContextWaitPriQueue(l, q);
    case Signal(c) => k.ContextSignal(c);
    case SignalFirst(q) => var _ := k.ContextSignalQueue(q);
    case Broadcast(q) => var _ := k.ContextBroadcastQueue(q);
    case Interrupt(c) => k.ContextInterrupt(c);
    case InterruptOn(c, q) => var _ := k.ContextInterruptQueue(c, q);
    case Yield => k.ContextYield();
    case Create(c, p) => k.ContextInit(c, p);
    case Exit => k.ContextExit();
  }
}
