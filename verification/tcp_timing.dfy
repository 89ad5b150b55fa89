/**
 The timers of a TCP socket over whole runs: how long a segment is given, what the estimator learns and from what, and
 when data is acknowledged.
 */
module TcpTiming {
  import opened Collections
  import opened RoundTrip
  import opened Tcp
  import opened TcpStream

  // ---------- a segment that waits for its acknowledgement ----------

  /** A segment was sent at time `at`, has not been repeated, and is given the estimator's timeout. */
  ghost predicate JustSent(k: Socket, at: nat) {
    k.timing && !k.acked && k.retransmits == 0 && k.timeout == k.rtt.rto && k.sentAt == at
  }

  /** A segment that the socket takes as an acknowledgement: in order, and between the two ends of its window. */
  ghost predicate Answers(k: Socket, ev: Event) {
    ev.Arrives? && ev.seg.seqno == k.rcvNxt && k.sndUna <= ev.seg.ack <= k.sndNxt
  }

  /** Nothing of the kind arrives. */
  ghost predicate Unanswered(k: Socket, evs: seq<Event>)
    decreases |evs|
  {
    evs == [] || (!Answers(k, evs[0]) && Unanswered(Next(k, evs[0]), evs[1..]))
  }

  /** How often the segment is repeated. */
  ghost function Repeats(evs: seq<Event>): nat
    decreases |evs|
  {
    if evs == [] then 0
    else Repeats(evs[..|evs| - 1]) + (if evs[|evs| - 1] == RetransmitTimer(true) then 1 else 0)
  }

  /** How often it had been repeated when the retransmission timer last ran out, if it did. */
  ghost function RepeatsAtTimer(evs: seq<Event>): Option<nat>
    decreases |evs|
  {
    if evs == [] then None
    else if evs[|evs| - 1].RetransmitTimer? then Some(Repeats(evs[..|evs| - 1]))
    else RepeatsAtTimer(evs[..|evs| - 1])
  }

  /** A client's buffer that goes out at once starts the timer. */
  lemma SendStartsTiming(k: Socket, buf: seq<Byte>, now: nat)
    requires !k.timing
    ensures JustSent(Next(k, ClientSends(buf, now)), now) && Next(k, ClientSends(buf, now)).rtt == k.rtt
  {
  }

  /** So does a waiting buffer that a complete acknowledgement lets out, with the timeout just learned. */
  lemma AnswerStartsTiming(k: Socket, seg: Segment, now: nat)
    requires Answers(k, Arrives(seg, now)) && k.timing && seg.ack == k.sndNxt && k.pending != []
    ensures JustSent(Next(k, Arrives(seg, now)), now)
  {
  }

  lemma {:induction false} LaterLast(k: Socket, evs: seq<Event>)
    requires evs != []
    ensures Later(k, evs) == Next(Later(k, evs[..|evs| - 1]), evs[|evs| - 1])
    ensures Unanswered(k, evs) ==>
              Unanswered(k, evs[..|evs| - 1]) && !Answers(Later(k, evs[..|evs| - 1]), evs[|evs| - 1])
    decreases |evs|
  {
    var n := |evs| - 1;
    if n > 0 {
      LaterLast(Next(k, evs[0]), evs[1..]);
      assert evs[1..][..n - 1] == evs[..n][1..];
    } else {
      assert evs[1..] == [] && evs[..n] == [];
    }
  }

  lemma WaitingStep(k: Socket, ev: Event)
    requires k.timing && !Answers(k, ev)
    ensures var m := Next(k, ev);
            && m.timing && m.acked == k.acked && m.rtt == k.rtt && m.sentAt == k.sentAt
            && m.retransmits == (if ev == RetransmitTimer(true) then Inc16(k.retransmits) else k.retransmits)
            && m.timeout == (if ev.RetransmitTimer? then BackOff(k.rtt.rto, k.retransmits) else k.timeout)
  {
  }

  lemma CountWraps(n: nat)
    ensures Inc16(n % 0x1_0000) == (n + 1) % 0x1_0000
  {
  }

  /**
   Until it is acknowledged, a segment's repetitions are counted, in sixteen bits, and each time its timer runs out the
   time it is given is the estimator's, shifted once for every repetition before.
   */
  lemma {:induction false} WaitingRun(k: Socket, evs: seq<Event>, at: nat)
    requires JustSent(k, at) && Unanswered(k, evs)
    ensures var m := Later(k, evs);
            && m.timing && !m.acked && m.rtt == k.rtt && m.sentAt == at && m.retransmits == Repeats(evs) % 0x1_0000
            && m.timeout == match RepeatsAtTimer(evs)
                            case None => k.rtt.rto
                            case Some(n) => BackOff(k.rtt.rto, n % 0x1_0000)
    decreases |evs|
  {
    if evs != [] {
      var n := |evs| - 1;
      LaterLast(k, evs);
      WaitingRun(k, evs[..n], at);
      WaitingStep(Later(k, evs[..n]), evs[n]);
      CountWraps(Repeats(evs[..n]));
    }
  }

  lemma SmallCount(n: nat)
    requires n <= 17
    ensures n % 0x1_0000 == n
  {
  }

  /** With up to seventeen repetitions the time given is doubled for each, up to the cap. */
  lemma TimeoutDoubles(k: Socket, evs: seq<Event>, at: nat)
    requires JustSent(k, at) && Unanswered(k, evs) && k.rtt.rto <= CAP
    requires RepeatsAtTimer(evs).Some? && RepeatsAtTimer(evs).value <= 17
    ensures Later(k, evs).timeout == Capped(k.rtt.rto * Pow2(RepeatsAtTimer(evs).value))
  {
    WaitingRun(k, evs, at);
    SmallCount(RepeatsAtTimer(evs).value);
    BackOffIsSafe(k.rtt.rto, RepeatsAtTimer(evs).value);
  }

  // ---------- what the estimator learns ----------

  lemma AnswerTeaches(k: Socket, seg: Segment, now: nat)
    requires Answers(k, Arrives(seg, now)) && !k.acked
    ensures var m := Next(k, Arrives(seg, now));
            m.rtt == Acknowledged(k.rtt, k.retransmits, S32(now - k.sentAt)) && (m.acked || JustSent(m, now))
  {
  }

  /**
   Karn's rule: if the segment was repeated, its first acknowledgement teaches nothing about the round trip, and the
   backed-off timeout stays in force.
   */
  lemma KarnsRule(k: Socket, evs: seq<Event>, at: nat, seg: Segment, now: nat)
    requires JustSent(k, at) && Unanswered(k, evs) && Answers(Later(k, evs), Arrives(seg, now))
    requires k.rtt.rto <= CAP && 1 <= Repeats(evs) <= 17
    ensures Next(Later(k, evs), Arrives(seg, now)).rtt == k.rtt.(rto := Capped(k.rtt.rto * Pow2(Repeats(evs))))
  {
    var n := Repeats(evs);
    WaitingRun(k, evs, at);
    SmallCount(n);
    AnswerTeaches(Later(k, evs), seg, now);
    BackOffIsSafe(k.rtt.rto, n);
  }

  /** If it was not, the time since it was sent is one sample for Van Jacobson's estimator. */
  lemma OneSample(k: Socket, evs: seq<Event>, at: nat, seg: Segment, now: nat, hi: nat)
    requires JustSent(k, at) && Unanswered(k, evs) && Answers(Later(k, evs), Arrives(seg, now))
    requires Repeats(evs) == 0 && at <= now <= at + hi && 1 <= hi <= 0x800_0000
    requires k.rtt.avg == 0 || Within(k.rtt, 1, hi)
    ensures Next(Later(k, evs), Arrives(seg, now)).rtt == Jacobson(k.rtt, if now == at then 1 else now - at)
  {
    WaitingRun(k, evs, at);
    AnswerTeaches(Later(k, evs), seg, now);
    SmallIsExact(now - at);
    SampleIsJacobson(k.rtt, now - at, hi);
  }

  /** Nothing but the first acknowledgement since a segment was sent changes the estimator. */
  lemma OnlyFirstAnswerTeaches(k: Socket, ev: Event)
    ensures Next(k, ev).rtt != k.rtt ==> Answers(k, ev) && !k.acked
    ensures k.acked ==> Next(k, ev).acked || ((ev.ClientSends? || ev.Arrives?) && JustSent(Next(k, ev), ev.now))
  {
  }

  ghost predicate LearnsNothing(n: nat) {
    forall e: Estimator, t: int ::
      var l := Acknowledged(e, n % 0x1_0000, t); l.avg == e.avg && l.dev == e.dev
  }

  /** Repetitions are counted in sixteen bits: Karn's rule is kept exactly when their number is no multiple of 65536. */
  lemma KarnsRuleExactly(n: nat)
    ensures LearnsNothing(n) <==> n % 0x1_0000 != 0
  {
    if n % 0x1_0000 == 0 {
      var e := Estimator(0, 0, 0);
      FirstSample(e, 1);
      assert Acknowledged(e, n % 0x1_0000, 1).avg != e.avg;
    }
  }

  /**
   The first acknowledgement that is taken need not be for the segment: a repetition of an earlier one, one tick after
   the segment was sent, is measured, and the segment's own, much later, is not.
   */
  lemma RepetitionIsMeasured(k: Socket, now: nat, later: nat, ack: Segment, own: Segment)
    requires JustSent(k, now) && k.rtt.avg == 0 && k.sndUna < k.sndNxt && k.pending == []
    requires ack == Segment(k.rcvNxt, k.sndUna, []) && own == Segment(k.rcvNxt, k.sndNxt, [])
    ensures Later(k, [Arrives(ack, now + 1), Arrives(own, later)]).rtt == Jacobson(k.rtt, 1)
  {
    var m := Next(k, Arrives(ack, now + 1));
    assert Answers(k, Arrives(ack, now + 1));
    AnswerTeaches(k, ack, now + 1);
    SmallIsExact(1);
    SampleIsJacobson(k.rtt, 1, 1);
    OnlyFirstAnswerTeaches(m, Arrives(own, later));
    assert [Arrives(ack, now + 1), Arrives(own, later)][1..] == [Arrives(own, later)];
    assert Later(m, [Arrives(own, later)]) == Next(m, Arrives(own, later));
  }

  // ---------- when data is acknowledged ----------

  /** What one event makes the socket send. */
  ghost function Emits(k: Socket, ev: Event): seq<Segment> {
    match ev
    case ClientSends(buf, now) => Send(k, buf, now).1
    case Arrives(seg, now) => Recv(k, seg, now).1
    case AckTimer => DeferredAckTick(k).1
    case RetransmitTimer(free) => RetransmitTick(k, free).1
  }

  ghost function Emitted(k: Socket, evs: seq<Event>): seq<Segment>
    decreases |evs|
  {
    if evs == [] then [] else Emits(k, evs[0]) + Emitted(Next(k, evs[0]), evs[1..])
  }

  /** The acknowledgement that the peer was sent last, `known` if there was none. */
  ghost function LastAck(known: nat, out: seq<Segment>): nat {
    if out == [] then known else out[|out| - 1].ack
  }

  lemma StepOwes(k: Socket, ev: Event, known: nat)
    requires k.deferred.Some? || known == k.rcvNxt
    ensures Next(k, ev).deferred.Some? || LastAck(known, Emits(k, ev)) == Next(k, ev).rcvNxt
  {
  }

  lemma LastAckJoins(known: nat, x: seq<Segment>, y: seq<Segment>)
    ensures LastAck(known, x + y) == LastAck(LastAck(known, x), y)
  {
  }

  /** Over any run, the peer has been told of everything received, or an acknowledgement waits for its timer. */
  lemma {:induction false} AcknowledgedOrDue(k: Socket, evs: seq<Event>, known: nat)
    requires k.deferred.Some? || known == k.rcvNxt
    ensures Later(k, evs).deferred.Some? || LastAck(known, Emitted(k, evs)) == Later(k, evs).rcvNxt
    decreases |evs|
  {
    if evs != [] {
      StepOwes(k, evs[0], known);
      LastAckJoins(known, Emits(k, evs[0]), Emitted(Next(k, evs[0]), evs[1..]));
      AcknowledgedOrDue(Next(k, evs[0]), evs[1..], LastAck(known, Emits(k, evs[0])));
    }
  }

  /** When the timer does run out, what is due is sent, and tells of everything received. */
  lemma DueIsSent(k: Socket)
    requires k.deferred.Some?
    ensures Next(k, AckTimer).deferred.None? && |Emits(k, AckTimer)| == 1
    ensures Emits(k, AckTimer)[0].ack == k.rcvNxt && Emits(k, AckTimer)[0].data == []
  {
  }

  /** Data segments that arrive in order while nothing is being sent. */
  ghost predicate Receiving(k: Socket, evs: seq<Event>)
    decreases |evs|
  {
    evs == [] ||
    (&& Answers(k, evs[0]) && evs[0].seg.data != [] && !k.timing && Receiving(Next(k, evs[0]), evs[1..]))
  }

  /** Every second such segment is acknowledged at once, and the one in between is not. */
  lemma {:induction false} EverySecondIsAcknowledged(k: Socket, evs: seq<Event>)
    requires Receiving(k, evs)
    ensures var owed := |evs| + (if k.deferred.Some? then 1 else 0);
            |Emitted(k, evs)| == owed / 2 && (Later(k, evs).deferred.Some? <==> owed % 2 == 1)
    decreases |evs|
  {
    if evs != [] {
      assert |Emits(k, evs[0])| == if k.deferred.Some? then 1 else 0;
      EverySecondIsAcknowledged(Next(k, evs[0]), evs[1..]);
    }
  }
}
