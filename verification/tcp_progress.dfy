/**
 When everything sent is still delivered: what the channel and the timers can do for one direction of a connection while
 the client at the other end says nothing.
 */
module TcpProgress {
  import opened Collections
  import opened Tcp
  import opened TcpStream

  // ---------- getting from state to state ----------

  /** B's client says nothing in this step. */
  ghost predicate SilentB(st: Step) {
    !(st.AtB? && st.ev.ClientSends?)
  }

  ghost predicate AllSilentB(steps: seq<Step>) {
    forall i | 0 <= i < |steps| :: SilentB(steps[i])
  }

  ghost predicate IsQuietRun(n: Net, steps: seq<Step>, isnA: nat, isnB: nat) {
    PossibleRun(n, steps, isnA, isnB) && AllSilentB(steps)
  }

  /** Some behaviour of the channel, the timers and A's client leads from `n` to `m` while B's client is silent. */
  ghost predicate CanReach(n: Net, m: Net, isnA: nat, isnB: nat) {
    exists steps :: IsQuietRun(n, steps, isnA, isnB) && Run(n, steps) == m
  }

  lemma {:induction false} RunOn(n: Net, s: seq<Step>, t: seq<Step>, isnA: nat, isnB: nat)
    requires PossibleRun(n, s, isnA, isnB) && PossibleRun(Run(n, s), t, isnA, isnB)
    ensures PossibleRun(n, s + t, isnA, isnB) && Run(n, s + t) == Run(Run(n, s), t)
    decreases |s|
  {
    if s == [] {
      assert s + t == t;
    } else {
      assert (s + t)[0] == s[0] && (s + t)[1..] == s[1..] + t;
      RunOn(Act(n, s[0]), s[1..], t, isnA, isnB);
    }
  }

  lemma CanReachThrough(n: Net, k: Net, m: Net, isnA: nat, isnB: nat)
    requires CanReach(n, k, isnA, isnB) && CanReach(k, m, isnA, isnB)
    ensures CanReach(n, m, isnA, isnB)
  {
    var s :| IsQuietRun(n, s, isnA, isnB) && Run(n, s) == k;
    var t :| IsQuietRun(k, t, isnA, isnB) && Run(k, t) == m;
    RunOn(n, s, t, isnA, isnB);
    assert IsQuietRun(n, s + t, isnA, isnB);
  }

  lemma CanReachItself(n: Net, isnA: nat, isnB: nat)
    ensures CanReach(n, n, isnA, isnB)
  {
    assert IsQuietRun(n, [], isnA, isnB) && Run(n, []) == n;
  }

  lemma CanStep(n: Net, st: Step, isnA: nat, isnB: nat)
    requires Possible(n, st, isnA, isnB) && SilentB(st)
    ensures CanReach(n, Act(n, st), isnA, isnB)
  {
    var s := [st];
    assert s[0] == st && s[1..] == [];
    assert PossibleRun(Act(n, st), s[1..], isnA, isnB) && Run(Act(n, st), s[1..]) == Act(n, st);
    assert IsQuietRun(n, s, isnA, isnB) && Run(n, s) == Act(n, st);
  }

  /** Nothing on the wire is forgotten, and B goes forward. */
  ghost predicate Grown(n: Net, m: Net) {
    n.fromA <= m.fromA && n.fromB <= m.fromB && n.b.rcvNxt <= m.b.rcvNxt
  }

  /** The sender's side of `n` is that of `m`, and both invariants hold. */
  ghost predicate SameFlow(n: Net, m: Net, isnA: nat, isnB: nat) {
    && Linked(m, isnA, isnB) && CanReach(n, m, isnA, isnB) && Grown(n, m)
    && SameSender(n.a, m.a) && m.a.rcvNxt == n.a.rcvNxt && m.streamA == n.streamA
  }

  /** A repeats its segment. */
  lemma Repeat(n: Net, isnA: nat, isnB: nat) returns (m: Net, seg: Segment)
    requires Linked(n, isnA, isnB) && n.a.timing
    ensures SameFlow(n, m, isnA, isnB)
    ensures seg == Segment(n.a.seqno, n.a.rcvNxt, n.a.data) && seg in m.fromA && m.b == n.b
  {
    var st := AtA(RetransmitTimer(true));
    m := Act(n, st);
    seg := Segment(n.a.seqno, n.a.rcvNxt, n.a.data);
    StepKeepsLinked(n, st, isnA, isnB);
    CanStep(n, st, isnA, isnB);
    assert [seg][0] in Out([seg]);
  }

  /** A's repeated segment arrives: B then has everything A sent. */
  lemma Arrive(n: Net, seg: Segment, isnA: nat, isnB: nat) returns (m: Net)
    requires Linked(n, isnA, isnB) && n.a.timing
    requires seg == Segment(n.a.seqno, n.a.rcvNxt, n.a.data) && seg in n.fromA
    ensures SameFlow(n, m, isnA, isnB) && m.b.rcvNxt == m.a.sndNxt && seg in m.fromA
  {
    var st := AtB(Arrives(seg, 0));
    m := Act(n, st);
    StepKeepsLinked(n, st, isnA, isnB);
    CanStep(n, st, isnA, isnB);
    assert SenderOk(n.a, isnA, n.streamA);
    assert n.b.sndUna <= n.b.sndNxt;
  }

  /**
   The same segment arriving again is out of order, and is answered at once or when the acknowledgement timer runs out.
   */
  lemma Answer(n: Net, seg: Segment, isnA: nat, isnB: nat) returns (m: Net, ack: Segment)
    requires Linked(n, isnA, isnB) && seg in n.fromA && seg.seqno != n.b.rcvNxt
    ensures SameFlow(n, m, isnA, isnB)
    ensures ack == Segment(n.b.sndNxt, n.b.rcvNxt, []) && ack in m.fromB
  {
    var st, st' := AtB(Arrives(seg, 0)), AtB(AckTimer);
    var k := Act(n, st);
    m := Act(k, st');
    ack := Segment(n.b.sndNxt, n.b.rcvNxt, []);
    StepKeepsLinked(n, st, isnA, isnB);
    StepKeepsLinked(k, st', isnA, isnB);
    CanStep(n, st, isnA, isnB);
    CanStep(k, st', isnA, isnB);
    CanReachThrough(n, k, m, isnA, isnB);
    assert [ack][0] in Out([ack]);
  }

  /** B repeats its own segment, which carries the acknowledgement. */
  lemma RepeatBack(n: Net, isnA: nat, isnB: nat) returns (m: Net, ack: Segment)
    requires Linked(n, isnA, isnB) && n.b.timing
    ensures SameFlow(n, m, isnA, isnB)
    ensures ack == Segment(n.b.seqno, n.b.rcvNxt, n.b.data) && ack in m.fromB
    ensures SameSender(n.b, m.b) && m.b.rcvNxt == n.b.rcvNxt
  {
    var st := AtB(RetransmitTimer(true));
    m := Act(n, st);
    ack := Segment(n.b.seqno, n.b.rcvNxt, n.b.data);
    StepKeepsLinked(n, st, isnA, isnB);
    CanStep(n, st, isnA, isnB);
    assert [ack][0] in Out([ack]);
  }

  /** Once B has everything A sent, an acknowledgement can be put on the wire that A will take. */
  lemma AcknowledgeBack(n: Net, seg: Segment, isnA: nat, isnB: nat) returns (m: Net, ack: Segment)
    requires Linked(n, isnA, isnB) && n.b.rcvNxt == n.a.sndNxt && seg in n.fromA && seg.seqno != n.b.rcvNxt
    ensures SameFlow(n, m, isnA, isnB)
    ensures ack in m.fromB && ack.seqno == m.a.rcvNxt && ack.ack == m.a.sndNxt
  {
    if n.a.rcvNxt == n.b.sndNxt {
      m, ack := Answer(n, seg, isnA, isnB);
    } else {
      assert SenderOk(n.b, isnB, n.streamB);
      m, ack := RepeatBack(n, isnA, isnB);
    }
  }

  /** A takes the acknowledgement: its segment is done and the next waiting buffer, if any, takes its place. */
  ghost predicate Advanced(n: Net, m: Net, isnA: nat, isnB: nat) {
    && Linked(m, isnA, isnB) && CanReach(n, m, isnA, isnB) && Grown(n, m) && m.streamA == n.streamA
    && (n.a.pending == [] ==> !m.a.timing)
    && (n.a.pending != [] ==> m.a.timing && m.a.data == n.a.pending[0] && m.a.pending == n.a.pending[1..])
  }

  lemma TakeIt(n: Net, ack: Segment, isnA: nat, isnB: nat) returns (m: Net)
    requires Linked(n, isnA, isnB) && n.a.timing
    requires ack in n.fromB && ack.seqno == n.a.rcvNxt && ack.ack == n.a.sndNxt
    ensures Advanced(n, m, isnA, isnB) && m == ActA(n, Arrives(ack, 0))
  {
    var st := AtA(Arrives(ack, 0));
    m := Act(n, st);
    assert n.a.sndUna <= n.a.sndNxt;
    StepKeepsLinked(n, st, isnA, isnB);
    CanStep(n, st, isnA, isnB);
  }

  /** What becomes of the sequence numbers. */
  lemma TakenIs(n: Net, ack: Segment, isnA: nat, isnB: nat)
    requires Linked(n, isnA, isnB) && n.a.timing
    requires ack in n.fromB && ack.seqno == n.a.rcvNxt && ack.ack == n.a.sndNxt
    ensures var m := ActA(n, Arrives(ack, 0));
            && m.b == n.b && m.fromB == n.fromB
            && (ack.data == [] ==> m.a.rcvNxt == n.a.rcvNxt)
            && (ack.data != [] ==> m.a.rcvNxt == n.b.sndNxt)
            && (n.a.pending != [] && n.a.pending[0] == [] ==> m.a.sndNxt == n.a.sndNxt)
  {
    assert SenderOk(n.a, isnA, n.streamA) && SenderOk(n.b, isnB, n.streamB);
    assert ack.data == [] || OldOrCurrent(n.b, ack);
  }

  /** Something A sent is behind what B has: whenever it arrives again, B answers. */
  ghost predicate Nudged(n: Net) {
    exists s :: s in n.fromA && s.seqno < n.b.rcvNxt
  }

  /** One exchange moves the window on. */
  lemma Exchange(n: Net, isnA: nat, isnB: nat) returns (m: Net)
    requires Linked(n, isnA, isnB) && n.a.timing && n.a.data != []
    ensures Advanced(n, m, isnA, isnB) && Nudged(m)
  {
    assert n.a.seqno == n.a.sndUna < n.a.sndNxt;
    var n1, seg := Repeat(n, isnA, isnB);
    var n2 := Arrive(n1, seg, isnA, isnB);
    var n3, ack := AcknowledgeBack(n2, seg, isnA, isnB);
    m := TakeIt(n3, ack, isnA, isnB);
    CanReachThrough(n, n1, n2, isnA, isnB);
    CanReachThrough(n, n2, n3, isnA, isnB);
    CanReachThrough(n, n3, m, isnA, isnB);
    assert seg in m.fromA && seg.seqno < m.b.rcvNxt;
  }

  lemma LevelWhenEmpty(n: Net, isnA: nat, isnB: nat)
    requires Linked(n, isnA, isnB) && n.a.timing && n.a.data == []
    ensures n.a.seqno == n.a.sndUna == n.a.sndNxt == n.b.rcvNxt < SEQUENCE_SPACE
    ensures |n.gotB| < |n.streamA| ==> n.a.pending != []
  {
    assert SenderOk(n.a, isnA, n.streamA);
    if n.a.pending == [] {
      assert Flatten(n.a.pending) == [];
    }
  }

  /** An empty buffer is released by an answer to something old. */
  lemma ExchangeEmpty(n: Net, isnA: nat, isnB: nat) returns (m: Net)
    requires Linked(n, isnA, isnB) && n.a.timing && n.a.data == [] && Nudged(n)
    ensures Advanced(n, m, isnA, isnB) && Nudged(m)
  {
    LevelWhenEmpty(n, isnA, isnB);
    var seg :| seg in n.fromA && seg.seqno < n.b.rcvNxt;
    var n1, ack := AcknowledgeBack(n, seg, isnA, isnB);
    m := TakeIt(n1, ack, isnA, isnB);
    CanReachThrough(n, n1, m, isnA, isnB);
    assert seg in m.fromA && seg.seqno < m.b.rcvNxt;
  }

  /** Some behaviour of the channel and the timers delivers everything A's client has sent. */
  ghost predicate CanDeliver(n: Net, isnA: nat, isnB: nat) {
    exists d :: CanReach(n, d, isnA, isnB) && d.streamA == n.streamA && d.gotB == n.streamA
  }

  lemma CanDeliverThrough(n: Net, k: Net, isnA: nat, isnB: nat)
    requires CanReach(n, k, isnA, isnB) && k.streamA == n.streamA && CanDeliver(k, isnA, isnB)
    ensures CanDeliver(n, isnA, isnB)
  {
    var d :| CanReach(k, d, isnA, isnB) && d.streamA == k.streamA && d.gotB == k.streamA;
    CanReachThrough(n, k, d, isnA, isnB);
  }

  lemma AllDelivered(n: Net, isnA: nat, isnB: nat)
    requires Linked(n, isnA, isnB) && (!n.a.timing || |n.gotB| >= |n.streamA|)
    ensures CanDeliver(n, isnA, isnB)
  {
    CanReachItself(n, isnA, isnB);
    assert SenderOk(n.a, isnA, n.streamA);
    if !n.a.timing {
      assert Flatten(n.a.pending) == [];
    }
    assert n.gotB == n.streamA[..|n.gotB|];
  }

  /** Once B has something to answer, or A has a byte to send, everything can be delivered. */
  lemma {:induction false} DeliverNudged(n: Net, isnA: nat, isnB: nat)
    requires Linked(n, isnA, isnB) && (n.a.timing && n.a.data == [] ==> Nudged(n))
    ensures CanDeliver(n, isnA, isnB)
    decreases n.a.timing, |n.a.pending|
  {
    if !n.a.timing {
      AllDelivered(n, isnA, isnB);
    } else {
      var k;
      if n.a.data != [] {
        k := Exchange(n, isnA, isnB);
      } else {
        k := ExchangeEmpty(n, isnA, isnB);
      }
      DeliverNudged(k, isnA, isnB);
      CanDeliverThrough(n, k, isnA, isnB);
    }
  }

  ghost predicate NoEmptyBuffer(k: Socket) {
    (k.timing ==> k.data != []) && [] !in k.pending
  }

  /** A's client hands over no empty buffer. */
  ghost predicate NoEmptySend(st: Step) {
    st.AtA? && st.ev.ClientSends? ==> st.ev.buf != []
  }

  lemma TakeAckKeepsNoEmptyBuffer(k: Socket, ack: nat, now: nat)
    requires NoEmptyBuffer(k)
    ensures NoEmptyBuffer(TakeAck(k, ack, now).0)
  {
    if k.pending != [] {
      assert k.pending[0] in k.pending;
    }
  }

  lemma RecvKeepsNoEmptyBuffer(k: Socket, s: Segment, now: nat)
    requires NoEmptyBuffer(k)
    ensures NoEmptyBuffer(Recv(k, s, now).0)
  {
    TakeAckKeepsNoEmptyBuffer(k, s.ack, now);
  }

  lemma StepKeepsNoEmptyBuffer(n: Net, st: Step)
    requires NoEmptyBuffer(n.a) && NoEmptySend(st)
    ensures NoEmptyBuffer(Act(n, st).a)
  {
    if st.AtA? && st.ev.Arrives? {
      RecvKeepsNoEmptyBuffer(n.a, st.ev.seg, st.ev.now);
    }
  }

  lemma {:induction false} RunKeepsNoEmptyBuffer(n: Net, steps: seq<Step>)
    requires NoEmptyBuffer(n.a) && forall i | 0 <= i < |steps| :: NoEmptySend(steps[i])
    ensures NoEmptyBuffer(Run(n, steps).a)
    decreases |steps|
  {
    if steps != [] {
      StepKeepsNoEmptyBuffer(n, steps[0]);
      RunKeepsNoEmptyBuffer(Act(n, steps[0]), steps[1..]);
    }
  }

  /** No run without empty buffers gets stuck: from where it ends, everything A's client has sent can be delivered. */
  lemma NeverStuck(n: Net, steps: seq<Step>, m: Net, isnA: nat, isnB: nat)
    requires Reached(n, steps, m, isnA, isnB) && forall i | 0 <= i < |steps| :: NoEmptySend(steps[i])
    ensures CanDeliver(m, isnA, isnB)
  {
    ReachedIsLinked(n, steps, m, isnA, isnB);
    RunKeepsNoEmptyBuffer(n, steps);
    DeliverNudged(m, isnA, isnB);
  }

  // ---------- what stops it ----------

  /** How many empty buffers stand first in a queue. */
  ghost function Lead(bufs: seq<seq<Byte>>): nat {
    if bufs == [] || bufs[0] != [] then 0 else 1 + Lead(bufs[1..])
  }

  /** The buffers of B that A has not yet taken in; each of them can carry one acknowledgement to A. */
  ghost function Supply(n: Net): nat {
    (if n.b.timing && n.a.rcvNxt == n.b.sndUna then 1 else 0) + |n.b.pending|
  }

  /** No bare acknowledgement on its way to A would end A's wait, now or once A has taken in B's current buffer. */
  ghost predicate NoBareAck(n: Net) {
    forall s | s in n.fromB && s.data == [] && s.ack == n.a.sndNxt :: s.seqno != n.a.rcvNxt && s.seqno != n.b.sndNxt
  }

  /** Everything A ever sent is in order for B, so B answers none of it. */
  ghost predicate NothingToAnswer(n: Net) {
    forall s | s in n.fromA :: s.seqno == n.b.rcvNxt
  }

  /** B owes no acknowledgement, and has no empty buffer of its own whose repetitions would do for one. */
  ghost predicate NothingToRepeat(n: Net) {
    n.b.deferred.None? && (n.b.timing ==> n.b.data != []) && [] !in n.b.pending
  }

  /**
   A times an empty buffer, which nothing but a segment from B can release; and B, unless its client speaks, has fewer
   segments to send than A has empty buffers before the next byte.
   */
  ghost predicate Blocked(n: Net) {
    && |n.gotB| < |n.streamA|
    && n.a.timing && n.a.data == []
    && NoBareAck(n) && NothingToAnswer(n) && NothingToRepeat(n)
    && Supply(n) <= Lead(n.a.pending)
  }

  lemma {:induction false} LeadGrows(bufs: seq<seq<Byte>>, b: seq<Byte>)
    ensures Lead(bufs) <= Lead(bufs + [b])
  {
    if bufs != [] && bufs[0] == [] {
      assert (bufs + [b])[0] == bufs[0] && (bufs + [b])[1..] == bufs[1..] + [b];
      LeadGrows(bufs[1..], b);
    }
  }

  /** What a segment from B that is in order for A can be. */
  lemma SegmentForA(n: Net, s: Segment, isnA: nat, isnB: nat)
    requires Linked(n, isnA, isnB) && Blocked(n) && s in n.fromB && s.seqno == n.a.rcvNxt
    ensures s.ack <= n.a.sndNxt
    ensures s.data == [] ==> s.ack < n.a.sndUna
    ensures s.data != [] ==> n.b.timing && n.a.rcvNxt == n.b.sndUna == n.b.seqno && s.data == n.b.data
  {
    LevelWhenEmpty(n, isnA, isnB);
    assert SenderOk(n.b, isnB, n.streamB);
    if s.data != [] {
      assert OldOrCurrent(n.b, s);
    }
  }

  /** What a segment from A can be. */
  lemma SegmentForB(n: Net, s: Segment, isnA: nat, isnB: nat)
    requires Linked(n, isnA, isnB) && Blocked(n) && s in n.fromA
    ensures s.seqno == n.b.rcvNxt && s.data == [] && s.ack <= n.b.sndNxt
    ensures s.ack == n.b.sndNxt ==> n.a.rcvNxt == n.b.sndNxt
  {
    LevelWhenEmpty(n, isnA, isnB);
    assert SenderOk(n.b, isnB, n.streamB);
    assert s.data == [] || OldOrCurrent(n.a, s);
  }

  /** A state that differs only in what A has sent, and only by segments that are in order for B. */
  lemma BlockedByMore(n: Net, t: Socket, out: seq<Segment>, isnA: nat, isnB: nat)
    requires Linked(n, isnA, isnB) && Blocked(n) && SameSender(n.a, t) && t.rcvNxt == n.a.rcvNxt
    requires forall i | 0 <= i < |out| :: out[i].seqno == n.a.sndNxt
    ensures Blocked(n.(a := t, fromA := n.fromA + Out(out)))
  {
    LevelWhenEmpty(n, isnA, isnB);
  }

  /** What A does by itself, or with a segment that is not for it. */
  lemma BlockedAloneA(n: Net, ev: Event, isnA: nat, isnB: nat)
    requires Linked(n, isnA, isnB) && Blocked(n) && PossibleA(n, ev, isnA)
    requires ev.Arrives? ==> ev.seg.seqno != n.a.rcvNxt
    ensures Blocked(ActA(n, ev)) && ActA(n, ev).gotB == n.gotB
  {
    LevelWhenEmpty(n, isnA, isnB);
    assert SenderOk(n.a, isnA, n.streamA);
    match ev
    case ClientSends(buf, now) =>
      LeadGrows(n.a.pending, buf);
      assert n.fromA + Out([]) == n.fromA;
    case Arrives(seg, now) =>
      var (t, out) := Acknowledge(n.a);
      BlockedByMore(n, t, out, isnA, isnB);
      assert n.gotA + [] == n.gotA;
    case AckTimer =>
      var (t, out) := DeferredAckTick(n.a);
      BlockedByMore(n, t, out, isnA, isnB);
    case RetransmitTimer(free) =>
      var (t, out) := RetransmitTick(n.a, free);
      BlockedByMore(n, t, out, isnA, isnB);
  }

  /**
   A takes in B's current buffer with an acknowledgement: one empty buffer is released, and B has one fewer to send.
   */
  lemma BlockedAfterRelease(n: Net, seg: Segment, now: nat, isnA: nat, isnB: nat)
    requires Linked(n, isnA, isnB) && Blocked(n) && seg in n.fromB && seg.seqno == n.a.rcvNxt && seg.data != []
    ensures var (t, out, bytes) := Recv(n.a, seg, now);
            && t.timing && t.data == [] && t.sndNxt == n.a.sndNxt && t.rcvNxt == n.b.sndNxt != n.b.sndUna
            && Lead(n.a.pending) <= Lead(t.pending) + 1
            && forall i | 0 <= i < |out| :: out[i].seqno == n.a.sndNxt
  {
    LevelWhenEmpty(n, isnA, isnB);
    SegmentForA(n, seg, isnA, isnB);
    assert SenderOk(n.b, isnB, n.streamB);
    var (k1, out1) := TakeAck(n.a, seg.ack, now);
    assert Lead(n.a.pending) >= 1;
    assert n.a.pending[0] == [];
    assert k1.sndNxt == n.a.sndNxt && k1.timing && k1.data == [];
    assert forall i | 0 <= i < |out1| :: out1[i].seqno == n.a.sndNxt;
  }

  lemma BlockedArriveA(n: Net, seg: Segment, now: nat, isnA: nat, isnB: nat)
    requires Linked(n, isnA, isnB) && Blocked(n) && seg in n.fromB && seg.seqno == n.a.rcvNxt
    ensures Blocked(ActA(n, Arrives(seg, now))) && ActA(n, Arrives(seg, now)).gotB == n.gotB
  {
    LevelWhenEmpty(n, isnA, isnB);
    SegmentForA(n, seg, isnA, isnB);
    if seg.data == [] {
      var none: seq<Segment> := [];
      assert none + none == none && n.fromA + Out(none) == n.fromA;
      assert Recv(n.a, seg, now) == (n.a, none, []);
    } else {
      BlockedAfterRelease(n, seg, now, isnA, isnB);
    }
  }

  /** B takes in one of A's segments: at most it goes on to its next buffer. */
  lemma BlockedAfterAck(n: Net, seg: Segment, now: nat, isnA: nat, isnB: nat)
    requires Linked(n, isnA, isnB) && Blocked(n) && seg in n.fromA
    ensures var (t, out, bytes) := Recv(n.b, seg, now);
            && bytes == [] && t.rcvNxt == n.b.rcvNxt && t.deferred.None?
            && (t.timing ==> t.data != []) && [] !in t.pending
            && Supply(n.(b := t)) <= Supply(n)
            && (t.sndNxt == n.b.sndNxt || t.sndNxt > n.a.rcvNxt)
            && (forall i | 0 <= i < |out| :: out[i].data != [])
  {
    LevelWhenEmpty(n, isnA, isnB);
    SegmentForB(n, seg, isnA, isnB);
    assert SenderOk(n.b, isnB, n.streamB);
    var (k1, out1) := TakeAck(n.b, seg.ack, now);
    var none: seq<Segment> := [];
    assert Recv(n.b, seg, now) == (k1, out1 + none, []);
    assert out1 + none == out1;
    if n.b.pending != [] {
      assert n.b.pending[0] in n.b.pending;
      assert forall x | x in n.b.pending[1..] :: x in n.b.pending;
    }
  }

  lemma BlockedArriveB(n: Net, seg: Segment, now: nat, isnA: nat, isnB: nat)
    requires Linked(n, isnA, isnB) && Blocked(n) && seg in n.fromA
    ensures var m := Act(n, AtB(Arrives(seg, now))); Blocked(m) && m.gotB == n.gotB
  {
    BlockedAfterAck(n, seg, now, isnA, isnB);
    var (t, out, bytes) := Recv(n.b, seg, now);
    var m := n.(b := t, fromB := n.fromB + Out(out), gotB := n.gotB + bytes);
    assert Act(n, AtB(Arrives(seg, now))) == m;
    assert m.gotB == n.gotB;
    forall s | s in m.fromB && s.data == [] && s.ack == m.a.sndNxt
      ensures s.seqno != m.a.rcvNxt && s.seqno != t.sndNxt
    {
      assert s in n.fromB;
      BareAckIsLow(n, s, isnA, isnB);
    }
  }

  /** B never sent a segment from beyond its own window. */
  lemma BareAckIsLow(n: Net, s: Segment, isnA: nat, isnB: nat)
    requires Linked(n, isnA, isnB) && s in n.fromB
    ensures s.seqno <= n.b.sndNxt
  {
  }

  lemma BlockedTimerB(n: Net, ev: Event, isnA: nat, isnB: nat)
    requires Linked(n, isnA, isnB) && Blocked(n) && (ev.AckTimer? || ev.RetransmitTimer?)
    ensures var m := Act(n, AtB(ev)); Blocked(m) && m.gotB == n.gotB
  {
  }

  lemma BlockedStep(n: Net, st: Step, isnA: nat, isnB: nat)
    requires Linked(n, isnA, isnB) && Blocked(n) && Possible(n, st, isnA, isnB) && SilentB(st)
    ensures Blocked(Act(n, st)) && Act(n, st).gotB == n.gotB
  {
    match st
    case AtA(ev) =>
      if ev.Arrives? && ev.seg.seqno == n.a.rcvNxt {
        BlockedArriveA(n, ev.seg, ev.now, isnA, isnB);
      } else {
        BlockedAloneA(n, ev, isnA, isnB);
      }
    case AtB(ev) =>
      if ev.Arrives? {
        BlockedArriveB(n, ev.seg, ev.now, isnA, isnB);
      } else {
        BlockedTimerB(n, ev, isnA, isnB);
      }
  }

  /** While B's client is silent a blocked connection stays blocked, and B receives nothing more. */
  lemma {:induction false} BlockedForever(n: Net, steps: seq<Step>, isnA: nat, isnB: nat)
    requires Linked(n, isnA, isnB) && Blocked(n) && IsQuietRun(n, steps, isnA, isnB)
    ensures Blocked(Run(n, steps)) && Run(n, steps).gotB == n.gotB
    decreases |steps|
  {
    if steps != [] {
      BlockedStep(n, steps[0], isnA, isnB);
      StepKeepsLinked(n, steps[0], isnA, isnB);
      BlockedForever(Act(n, steps[0]), steps[1..], isnA, isnB);
    }
  }

  // ---------- what does not ----------

  /** A bare acknowledgement releases one empty buffer after the other. */
  lemma {:induction false} DeliverByBareAck(n: Net, s: Segment, isnA: nat, isnB: nat)
    requires Linked(n, isnA, isnB) && n.a.timing && n.a.data == []
    requires s in n.fromB && s.data == [] && s.seqno == n.a.rcvNxt && s.ack == n.a.sndNxt
    ensures CanDeliver(n, isnA, isnB)
    decreases |n.a.pending|
  {
    var k := TakeIt(n, s, isnA, isnB);
    TakenIs(n, s, isnA, isnB);
    if k.a.timing && k.a.data == [] {
      DeliverByBareAck(k, s, isnA, isnB);
    } else {
      DeliverNudged(k, isnA, isnB);
    }
    CanDeliverThrough(n, k, isnA, isnB);
  }

  /** B repeats its current buffer and A takes it in. */
  lemma TakeRepeated(n: Net, isnA: nat, isnB: nat) returns (m: Net)
    requires Linked(n, isnA, isnB) && n.a.timing && n.a.data == [] && n.b.timing && n.a.rcvNxt == n.b.sndUna
    ensures Advanced(n, m, isnA, isnB)
    ensures SameSender(n.b, m.b) && m.a.rcvNxt == n.b.sndNxt
    ensures n.a.pending != [] && n.a.pending[0] == [] ==> m.a.sndNxt == n.a.sndNxt
  {
    LevelWhenEmpty(n, isnA, isnB);
    assert SenderOk(n.b, isnB, n.streamB);
    var n1, ack := RepeatBack(n, isnA, isnB);
    m := TakeIt(n1, ack, isnA, isnB);
    TakenIs(n1, ack, isnA, isnB);
    CanReachThrough(n, n1, m, isnA, isnB);
  }

  /** A bare acknowledgement from behind B's current buffer does as well, once A has taken that in. */
  lemma DeliverByAckBehind(n: Net, s: Segment, isnA: nat, isnB: nat)
    requires Linked(n, isnA, isnB) && n.a.timing && n.a.data == []
    requires s in n.fromB && s.data == [] && s.seqno == n.b.sndNxt && s.ack == n.a.sndNxt
    ensures CanDeliver(n, isnA, isnB)
  {
    if n.a.rcvNxt == n.b.sndNxt {
      DeliverByBareAck(n, s, isnA, isnB);
    } else {
      assert SenderOk(n.b, isnB, n.streamB);
      var k := TakeRepeated(n, isnA, isnB);
      if k.a.timing && k.a.data == [] {
        DeliverByBareAck(k, s, isnA, isnB);
      } else {
        DeliverNudged(k, isnA, isnB);
      }
      CanDeliverThrough(n, k, isnA, isnB);
    }
  }

  /** An acknowledgement that B had put off is sent after all. */
  lemma DeliverByDeferred(n: Net, isnA: nat, isnB: nat)
    requires Linked(n, isnA, isnB) && n.a.timing && n.a.data == [] && n.b.deferred.Some?
    ensures CanDeliver(n, isnA, isnB)
  {
    var st := AtB(AckTimer);
    var k := Act(n, st);
    var ack := Segment(n.b.sndNxt, n.b.rcvNxt, []);
    LevelWhenEmpty(n, isnA, isnB);
    assert SenderOk(n.b, isnB, n.streamB);
    StepKeepsLinked(n, st, isnA, isnB);
    CanStep(n, st, isnA, isnB);
    assert [ack][0] in Out([ack]);
    DeliverByAckBehind(k, ack, isnA, isnB);
    CanDeliverThrough(n, k, isnA, isnB);
  }

  /** A's empty segment acknowledges B's current buffer, and B goes on to its next. */
  lemma Push(n: Net, isnA: nat, isnB: nat) returns (m: Net)
    requires Linked(n, isnA, isnB) && n.a.timing && n.a.data == []
    requires n.b.timing && n.b.pending != [] && n.a.rcvNxt == n.b.sndNxt
    ensures SameFlow(n, m, isnA, isnB)
    ensures m.b.timing && m.b.data == n.b.pending[0] && m.b.pending == n.b.pending[1..] && m.b.sndUna == m.a.rcvNxt
  {
    LevelWhenEmpty(n, isnA, isnB);
    assert SenderOk(n.b, isnB, n.streamB);
    var n1, seg := Repeat(n, isnA, isnB);
    var st := AtB(Arrives(seg, 0));
    m := Act(n1, st);
    StepKeepsLinked(n1, st, isnA, isnB);
    CanStep(n1, st, isnA, isnB);
    CanReachThrough(n, n1, m, isnA, isnB);
  }

  /** B has an empty buffer of its own, or more buffers than A has empty ones before its next byte. */
  ghost predicate Supplied(n: Net) {
    (n.b.timing && n.b.data == []) || [] in n.b.pending || Supply(n) > Lead(n.a.pending)
  }

  lemma DeliverByEmptyBack(n: Net, isnA: nat, isnB: nat)
    requires Linked(n, isnA, isnB) && n.a.timing && n.a.data == [] && n.b.timing && n.b.data == []
    ensures CanDeliver(n, isnA, isnB)
  {
    LevelWhenEmpty(n, isnA, isnB);
    assert SenderOk(n.b, isnB, n.streamB);
    var k, ack := RepeatBack(n, isnA, isnB);
    DeliverByBareAck(k, ack, isnA, isnB);
    CanDeliverThrough(n, k, isnA, isnB);
  }

  lemma SuppliedAfterTake(n: Net, k: Net, isnA: nat, isnB: nat)
    requires Linked(n, isnA, isnB) && Linked(k, isnA, isnB)
    requires n.a.timing && n.b.timing && n.b.data != [] && n.a.rcvNxt == n.b.sndUna && Supplied(n)
    requires SameSender(n.b, k.b) && n.a.pending != [] && k.a.data == n.a.pending[0] == []
             && k.a.pending == n.a.pending[1..]
    ensures Supplied(k)
  {
    assert Lead(n.a.pending) == 1 + Lead(k.a.pending);
  }

  lemma SuppliedAfterPush(n: Net, k: Net)
    requires n.b.timing && n.b.pending != [] && Supplied(n) && SameSender(n.a, k.a) && n.b.data != []
    requires n.a.rcvNxt != n.b.sndUna
    requires k.b.timing && k.b.data == n.b.pending[0] && k.b.pending == n.b.pending[1..] && k.b.sndUna == k.a.rcvNxt
    ensures Supplied(k)
  {
    assert n.b.pending == [n.b.pending[0]] + n.b.pending[1..];
  }

  /** Each buffer of B releases one empty buffer of A. */
  lemma {:induction false} DeliverBySupply(n: Net, isnA: nat, isnB: nat)
    requires Linked(n, isnA, isnB) && n.a.timing && n.a.data == [] && Supplied(n)
    ensures CanDeliver(n, isnA, isnB)
    decreases |n.a.pending|, |n.b.pending|
  {
    assert SenderOk(n.b, isnB, n.streamB);
    if n.b.timing && n.b.data == [] {
      DeliverByEmptyBack(n, isnA, isnB);
    } else if n.b.timing && n.a.rcvNxt == n.b.sndUna {
      var k := TakeRepeated(n, isnA, isnB);
      if k.a.timing && k.a.data == [] {
        SuppliedAfterTake(n, k, isnA, isnB);
        DeliverBySupply(k, isnA, isnB);
      } else {
        DeliverNudged(k, isnA, isnB);
      }
      CanDeliverThrough(n, k, isnA, isnB);
    } else {
      var k := Push(n, isnA, isnB);
      SuppliedAfterPush(n, k);
      DeliverBySupply(k, isnA, isnB);
      CanDeliverThrough(n, k, isnA, isnB);
    }
  }

  lemma DeliverUnlessBlocked(n: Net, isnA: nat, isnB: nat)
    requires Linked(n, isnA, isnB) && !Blocked(n)
    ensures CanDeliver(n, isnA, isnB)
  {
    if |n.gotB| >= |n.streamA| {
      AllDelivered(n, isnA, isnB);
    } else if !n.a.timing || n.a.data != [] {
      DeliverNudged(n, isnA, isnB);
    } else if !NothingToAnswer(n) {
      LevelWhenEmpty(n, isnA, isnB);
      var s :| s in n.fromA && s.seqno != n.b.rcvNxt;
      assert s.seqno <= n.a.sndNxt;
      DeliverNudged(n, isnA, isnB);
    } else if !NoBareAck(n) {
      var s :| s in n.fromB && s.data == [] && s.ack == n.a.sndNxt && (s.seqno == n.a.rcvNxt || s.seqno == n.b.sndNxt);
      if s.seqno == n.a.rcvNxt {
        DeliverByBareAck(n, s, isnA, isnB);
      } else {
        DeliverByAckBehind(n, s, isnA, isnB);
      }
    } else if n.b.deferred.Some? {
      DeliverByDeferred(n, isnA, isnB);
    } else {
      DeliverBySupply(n, isnA, isnB);
    }
  }

  /**
   In every state that a connection reaches, everything A's client has sent can still be delivered while B's client is
   silent, exactly when the connection is not blocked.
   */
  lemma DeliverableExactly(n: Net, steps: seq<Step>, m: Net, isnA: nat, isnB: nat)
    requires Reached(n, steps, m, isnA, isnB)
    ensures CanDeliver(m, isnA, isnB) <==> !Blocked(m)
  {
    ReachedIsLinked(n, steps, m, isnA, isnB);
    if Blocked(m) {
      forall d | CanReach(m, d, isnA, isnB) ensures d.gotB != m.streamA {
        var more :| IsQuietRun(m, more, isnA, isnB) && Run(m, more) == d;
        BlockedForever(m, more, isnA, isnB);
      }
    } else {
      DeliverUnlessBlocked(m, isnA, isnB);
    }
  }

  /** The shortest way there: an empty buffer before anything else, and a byte behind it. */
  lemma EmptyFirstIsBlocked(n: Net, buf: seq<Byte>, now: nat, isnA: nat, isnB: nat)
    requires Connected(n, isnA, isnB) && buf != []
    ensures Blocked(Act(Act(n, AtA(ClientSends([], now))), AtA(ClientSends(buf, now))))
  {
    var k := Act(n, AtA(ClientSends([], now)));
    var m := Act(k, AtA(ClientSends(buf, now)));
    var s := Segment(isnA, isnB, []);
    OutOne(s);
    assert k.fromA == {s} && m.fromA == {s};
    assert m.a.pending == [buf] && m.streamA == buf;
  }
}
