/**
 Two TCP endpoints joined by a channel that may lose, duplicate and reorder segments.

 The channel in each direction is the set of all segments ever sent that way: any of them may arrive at any time, any
 number of times, or never.
 */
module TcpStream {
  import opened Collections
  import opened Tcp

  // ---------- one direction ----------

  ghost function Flatten(bufs: seq<seq<Byte>>): seq<Byte> {
    if bufs == [] then [] else bufs[0] + Flatten(bufs[1..])
  }

  lemma {:induction false} FlattenAppend(bufs: seq<seq<Byte>>, b: seq<Byte>)
    ensures Flatten(bufs + [b]) == Flatten(bufs) + b
  {
    if bufs == [] {
      assert bufs + [b] == [b] && [b][1..] == [];
      assert Flatten([b]) == b + [];
    } else {
      assert (bufs + [b])[0] == bufs[0] && (bufs + [b])[1..] == bufs[1..] + [b];
      FlattenAppend(bufs[1..], b);
    }
  }

  /** A data segment on the wire is fully acknowledged already, or is the one awaiting acknowledgement. */
  ghost predicate OldOrCurrent(x: Socket, s: Segment) {
    s.seqno + |s.data| <= x.sndUna || (x.timing && s.seqno == x.seqno && s.data == x.data)
  }

  ghost predicate SegmentsOk(x: Socket, xy: set<Segment>) {
    forall s | s in xy :: s.seqno <= x.sndNxt && (s.data != [] ==> OldOrCurrent(x, s))
  }

  /** An acknowledgement on the wire is for nothing new, or for everything sent. */
  ghost predicate AcksOk(x: Socket, y: Socket, yx: set<Segment>) {
    forall s | s in yx :: s.ack <= y.rcvNxt && (s.ack <= x.sndUna || s.ack == x.sndNxt)
  }

  /** What the sender knows about itself; `isn` is the sequence number of the first byte of `stream`. */
  ghost predicate SenderOk(x: Socket, isn: nat, stream: seq<Byte>) {
    && isn + |stream| < SEQUENCE_SPACE
    && isn <= x.sndUna <= x.sndNxt <= isn + |stream|
    && stream[x.sndNxt - isn..] == Flatten(x.pending)
    && (x.timing ==> x.seqno == x.sndUna && x.data == stream[x.sndUna - isn..x.sndNxt - isn])
    && (!x.timing ==> x.sndUna == x.sndNxt && x.pending == [])
    && (x.deferred.Some? ==> x.deferred.value == x.sndNxt)
  }

  /**
   The stop-and-wait invariant of the flow from `x` to `y`: the bytes `got` by the peer are a prefix of the `stream`
   handed to `x`, and the peer is either one segment behind or level.
   */
  ghost predicate Flow(x: Socket, y: Socket, xy: set<Segment>, yx: set<Segment>, isn: nat, stream: seq<Byte>,
      got: seq<Byte>)
  {
    && SenderOk(x, isn, stream)
    && got <= stream
    && y.rcvNxt == isn + |got|
    && (y.rcvNxt == x.sndUna || y.rcvNxt == x.sndNxt)
    && SegmentsOk(x, xy)
    && AcksOk(x, y, yx)
  }

  ghost function Out(out: seq<Segment>): set<Segment> {
    set i | 0 <= i < |out| :: out[i]
  }

  /** The receiver of a flow may do anything that leaves its receive sequence number alone. */
  lemma ReceiverQuiet(x: Socket, y: Socket, y': Socket, xy: set<Segment>, yx: set<Segment>, isn: nat,
      stream: seq<Byte>, got: seq<Byte>, out: seq<Segment>)
    requires Flow(x, y, xy, yx, isn, stream, got) && y'.rcvNxt == y.rcvNxt
    requires forall i | 0 <= i < |out| :: out[i].ack == y.rcvNxt
    ensures Flow(x, y', xy, yx + Out(out), isn, stream, got)
  {
  }

  ghost predicate SameSender(x: Socket, x': Socket) {
    && x'.sndNxt == x.sndNxt && x'.sndUna == x.sndUna && x'.pending == x.pending
    && x'.timing == x.timing && x'.seqno == x.seqno && x'.data == x.data
    && (x'.deferred.Some? ==> x'.deferred == x.deferred || x'.deferred.value == x.sndNxt)
  }

  /** The sender of a flow may send bare acknowledgements and repeat its current segment. */
  lemma SenderQuiet(x: Socket, x': Socket, y: Socket, xy: set<Segment>, yx: set<Segment>, isn: nat, stream: seq<Byte>,
      got: seq<Byte>, out: seq<Segment>)
    requires Flow(x, y, xy, yx, isn, stream, got) && SameSender(x, x')
    requires forall i | 0 <= i < |out| ::
               (out[i].data == [] && out[i].seqno == x.sndNxt)
                   || (x.timing && out[i].seqno == x.seqno && out[i].data == x.data)
    ensures Flow(x', y, xy + Out(out), yx, isn, stream, got)
  {
  }

  /** A new segment starts only when everything before it has been acknowledged. */
  lemma SendNowFlow(x: Socket, y: Socket, xy: set<Segment>, yx: set<Segment>, isn: nat, stream: seq<Byte>,
      got: seq<Byte>, buf: seq<Byte>, now: nat)
    requires isn + |stream| < SEQUENCE_SPACE && !x.timing && x.sndUna == x.sndNxt
    requires isn <= x.sndNxt && x.sndNxt + |buf| <= isn + |stream|
    requires stream[x.sndNxt - isn..] == buf + Flatten(x.pending)
    requires got <= stream && y.rcvNxt == isn + |got| == x.sndNxt
    requires SegmentsOk(x, xy) && AcksOk(x, y, yx)
    ensures var (t, s) := SendNow(x, buf, now); Flow(t, y, xy + {s}, yx, isn, stream, got)
  {
    var (t, s) := SendNow(x, buf, now);
    var i := x.sndNxt - isn;
    assert stream[i..][..|buf|] == stream[i..i + |buf|];
    assert stream[i..][|buf|..] == stream[i + |buf|..];
  }

  lemma OutOne(s: Segment)
    ensures Out([s]) == {s}
  {
    assert [s][0] == s;
  }

  lemma WaitFlow(x: Socket, y: Socket, xy: set<Segment>, yx: set<Segment>, isn: nat, stream: seq<Byte>, got: seq<Byte>,
      buf: seq<Byte>)
    requires Flow(x, y, xy, yx, isn, stream, got) && isn + |stream| + |buf| < SEQUENCE_SPACE && x.timing
    ensures Flow(x.(pending := x.pending + [buf]), y, xy, yx, isn, stream + buf, got)
  {
    var all := stream + buf;
    var u, n := x.sndUna - isn, x.sndNxt - isn;
    FlattenAppend(x.pending, buf);
    assert all[n..] == stream[n..] + buf;
    assert all[u..n] == stream[u..n];
  }

  /** Handing over a buffer extends the stream. */
  lemma SendFlow(x: Socket, y: Socket, xy: set<Segment>, yx: set<Segment>, isn: nat, stream: seq<Byte>, got: seq<Byte>,
      buf: seq<Byte>, now: nat)
    requires Flow(x, y, xy, yx, isn, stream, got) && isn + |stream| + |buf| < SEQUENCE_SPACE
    ensures var (t, out) := Send(x, buf, now); Flow(t, y, xy + Out(out), yx, isn, stream + buf, got)
  {
    if x.timing {
      WaitFlow(x, y, xy, yx, isn, stream, got, buf);
      assert xy + Out([]) == xy;
    } else {
      var all := stream + buf;
      assert all[x.sndNxt - isn..] == buf + Flatten([]);
      SendNowFlow(x, y, xy, yx, isn, all, got, buf, now);
      OutOne(SendNow(x, buf, now).1);
    }
  }

  /** An acknowledgement that is on the wire moves the window forward by the whole segment or not at all. */
  lemma TakeAckFlow(x: Socket, y: Socket, xy: set<Segment>, yx: set<Segment>, isn: nat, stream: seq<Byte>,
      got: seq<Byte>, ack: nat, now: nat)
    requires Flow(x, y, xy, yx, isn, stream, got)
    requires ack <= y.rcvNxt && (ack <= x.sndUna || ack == x.sndNxt)
    ensures var (t, out) := TakeAck(x, ack, now); Flow(t, y, xy + Out(out), yx, isn, stream, got)
  {
    assert Out([]) == {};
    if ack >= x.sndUna {
      var k := Learn(x, now).(sndUna := ack);
      if ack == x.sndNxt && x.timing {
        var k2 := k.(timing := false);
        assert SegmentsOk(k2, xy);
        if x.pending != [] {
          var k3 := k2.(pending := x.pending[1..]);
          SendNowFlow(k3, y, xy, yx, isn, stream, got, x.pending[0], now);
          OutOne(SendNow(k3, x.pending[0], now).1);
        }
      }
    }
  }

  /** A data segment from the wire that arrives in order is the current one, so the receiver draws level. */
  lemma TakeDataFlow(x: Socket, y: Socket, xy: set<Segment>, yx: set<Segment>, isn: nat, stream: seq<Byte>,
      got: seq<Byte>, s: Segment)
    requires Flow(x, y, xy, yx, isn, stream, got) && s in xy && s.seqno == y.rcvNxt
             && (y.deferred.Some? ==> y.deferred.value == y.sndNxt)
    ensures var (t, out) := TakeData(y, s.data); Flow(x, t, xy, yx + Out(out), isn, stream, got + s.data)
    ensures var (t, out) := TakeData(y, s.data);
            SameSender(y, t) && forall i | 0 <= i < |out| :: out[i].data == [] && out[i].seqno == y.sndNxt
  {
    var (t, out) := TakeData(y, s.data);
    if s.data == [] {
      assert got + s.data == got;
      assert Out([]) == {};
    } else {
      assert OldOrCurrent(x, s);
      assert s.data == stream[|got|..x.sndNxt - isn];
      assert stream[..|got|] + stream[|got|..x.sndNxt - isn] == stream[..x.sndNxt - isn];
      assert got == stream[..|got|];
      assert t.rcvNxt == x.sndNxt;
      forall z | z in yx + Out(out) ensures z.ack <= t.rcvNxt && (z.ack <= x.sndUna || z.ack == x.sndNxt) {
      }
    }
  }

  // ---------- two endpoints ----------

  /**
   Two connected sockets.  `fromA` and `fromB` are all segments each has ever sent, `streamA` and `streamB` the bytes
   its client has handed over, `gotA` and `gotB` the bytes given to its client.
   */
  datatype Net = Net(
    a: Socket, b: Socket, fromA: set<Segment>, fromB: set<Segment>,
    streamA: seq<Byte>, streamB: seq<Byte>, gotA: seq<Byte>, gotB: seq<Byte>)

  datatype Event =
    | ClientSends(buf: seq<Byte>, now: nat)
    | Arrives(seg: Segment, now: nat)
    | AckTimer
    | RetransmitTimer(free: bool)

  ghost function Swap(n: Net): Net {
    Net(n.b, n.a, n.fromB, n.fromA, n.streamB, n.streamA, n.gotB, n.gotA)
  }

  /** What endpoint A does with an event. */
  ghost function ActA(n: Net, ev: Event): Net {
    match ev
    case ClientSends(buf, now) =>
      var (t, out) := Send(n.a, buf, now);
      n.(a := t, fromA := n.fromA + Out(out), streamA := n.streamA + buf)
    case Arrives(seg, now) =>
      var (t, out, bytes) := Recv(n.a, seg, now);
      n.(a := t, fromA := n.fromA + Out(out), gotA := n.gotA + bytes)
    case AckTimer =>
      var (t, out) := DeferredAckTick(n.a);
      n.(a := t, fromA := n.fromA + Out(out))
    case RetransmitTimer(free) =>
      var (t, out) := RetransmitTick(n.a, free);
      n.(a := t, fromA := n.fromA + Out(out))
  }

  /** Only segments that were sent arrive, and the stream stays within one turn of the sequence space. */
  ghost predicate PossibleA(n: Net, ev: Event, isnA: nat) {
    match ev
    case ClientSends(buf, _) => isnA + |n.streamA| + |buf| < SEQUENCE_SPACE
    case Arrives(seg, _) => seg in n.fromB
    case _ => true
  }

  datatype Step = AtA(ev: Event) | AtB(ev: Event)

  ghost function Act(n: Net, st: Step): Net {
    match st
    case AtA(ev) => ActA(n, ev)
    case AtB(ev) => Swap(ActA(Swap(n), ev))
  }

  ghost predicate Possible(n: Net, st: Step, isnA: nat, isnB: nat) {
    match st
    case AtA(ev) => PossibleA(n, ev, isnA)
    case AtB(ev) => PossibleA(Swap(n), ev, isnB)
  }

  ghost predicate Linked(n: Net, isnA: nat, isnB: nat) {
    && Flow(n.a, n.b, n.fromA, n.fromB, isnA, n.streamA, n.gotB)
    && Flow(n.b, n.a, n.fromB, n.fromA, isnB, n.streamB, n.gotA)
  }

  lemma ActOneKeepsLinked(n: Net, ev: Event, isnA: nat, isnB: nat)
    requires Linked(n, isnA, isnB) && PossibleA(n, ev, isnA) && !ev.Arrives?
    ensures Linked(ActA(n, ev), isnA, isnB)
  {
    match ev
    case ClientSends(buf, now) =>
      var (t, out) := Send(n.a, buf, now);
      SendFlow(n.a, n.b, n.fromA, n.fromB, isnA, n.streamA, n.gotB, buf, now);
      ReceiverQuiet(n.b, n.a, t, n.fromB, n.fromA, isnB, n.streamB, n.gotA, out);
    case AckTimer =>
      var (t, out) := DeferredAckTick(n.a);
      SenderQuiet(n.a, t, n.b, n.fromA, n.fromB, isnA, n.streamA, n.gotB, out);
      ReceiverQuiet(n.b, n.a, t, n.fromB, n.fromA, isnB, n.streamB, n.gotA, out);
    case RetransmitTimer(free) =>
      var (t, out) := RetransmitTick(n.a, free);
      SenderQuiet(n.a, t, n.b, n.fromA, n.fromB, isnA, n.streamA, n.gotB, out);
      ReceiverQuiet(n.b, n.a, t, n.fromB, n.fromA, isnB, n.streamB, n.gotA, out);
  }

  /** A segment out of order, or one acknowledging what was never sent, is only answered. */
  lemma RefuseKeepsLinked(n: Net, isnA: nat, isnB: nat)
    requires Linked(n, isnA, isnB)
    ensures var (t, out) := Acknowledge(n.a); Linked(n.(a := t, fromA := n.fromA + Out(out)), isnA, isnB)
  {
    var (t, out) := Acknowledge(n.a);
    SenderQuiet(n.a, t, n.b, n.fromA, n.fromB, isnA, n.streamA, n.gotB, out);
    ReceiverQuiet(n.b, n.a, t, n.fromB, n.fromA, isnB, n.streamB, n.gotA, out);
  }

  lemma TakeAckKeepsLinked(n: Net, seg: Segment, now: nat, isnA: nat, isnB: nat)
    requires Linked(n, isnA, isnB) && seg in n.fromB
    ensures var (t, out) := TakeAck(n.a, seg.ack, now);
            Linked(n.(a := t, fromA := n.fromA + Out(out)), isnA, isnB) && t.rcvNxt == n.a.rcvNxt
  {
    var (t, out) := TakeAck(n.a, seg.ack, now);
    TakeAckFlow(n.a, n.b, n.fromA, n.fromB, isnA, n.streamA, n.gotB, seg.ack, now);
    ReceiverQuiet(n.b, n.a, t, n.fromB, n.fromA, isnB, n.streamB, n.gotA, out);
  }

  lemma TakeDataKeepsLinked(n: Net, seg: Segment, isnA: nat, isnB: nat)
    requires Linked(n, isnA, isnB) && seg in n.fromB && seg.seqno == n.a.rcvNxt
    ensures var (t, out) := TakeData(n.a, seg.data);
            Linked(n.(a := t, fromA := n.fromA + Out(out), gotA := n.gotA + seg.data), isnA, isnB)
  {
    var (t, out) := TakeData(n.a, seg.data);
    TakeDataFlow(n.b, n.a, n.fromB, n.fromA, isnB, n.streamB, n.gotA, seg);
    SenderQuiet(n.a, t, n.b, n.fromA, n.fromB, isnA, n.streamA, n.gotB, out);
  }

  lemma OutConcat(s: set<Segment>, x: seq<Segment>, y: seq<Segment>)
    ensures s + Out(x + y) == s + Out(x) + Out(y)
  {
    forall i | 0 <= i < |x| ensures x[i] in Out(x + y) {
      assert (x + y)[i] == x[i];
    }
    forall i | 0 <= i < |y| ensures y[i] in Out(x + y) {
      assert (x + y)[|x| + i] == y[i];
    }
  }

  lemma ArriveKeepsLinked(n: Net, seg: Segment, now: nat, isnA: nat, isnB: nat)
    requires Linked(n, isnA, isnB) && seg in n.fromB
    ensures Linked(ActA(n, Arrives(seg, now)), isnA, isnB)
  {
    if seg.seqno != n.a.rcvNxt || seg.ack > n.a.sndNxt {
      RefuseKeepsLinked(n, isnA, isnB);
      assert n.gotA + [] == n.gotA;
    } else {
      var (k1, out1) := TakeAck(n.a, seg.ack, now);
      var (k2, out2) := TakeData(k1, seg.data);
      var m := n.(a := k1, fromA := n.fromA + Out(out1));
      TakeAckKeepsLinked(n, seg, now, isnA, isnB);
      TakeDataKeepsLinked(m, seg, isnA, isnB);
      OutConcat(n.fromA, out1, out2);
      assert ActA(n, Arrives(seg, now)) == m.(a := k2, fromA := m.fromA + Out(out2), gotA := m.gotA + seg.data);
    }
  }

  lemma EventKeepsLinked(n: Net, ev: Event, isnA: nat, isnB: nat)
    requires Linked(n, isnA, isnB) && PossibleA(n, ev, isnA)
    ensures Linked(ActA(n, ev), isnA, isnB)
  {
    if ev.Arrives? {
      ArriveKeepsLinked(n, ev.seg, ev.now, isnA, isnB);
    } else {
      ActOneKeepsLinked(n, ev, isnA, isnB);
    }
  }

  /** Every step of either endpoint keeps both flows. */
  lemma StepKeepsLinked(n: Net, st: Step, isnA: nat, isnB: nat)
    requires Linked(n, isnA, isnB) && Possible(n, st, isnA, isnB)
    ensures Linked(Act(n, st), isnA, isnB)
  {
    match st
    case AtA(ev) =>
      EventKeepsLinked(n, ev, isnA, isnB);
    case AtB(ev) =>
      var m := Swap(n);
      assert Linked(m, isnB, isnA);
      EventKeepsLinked(m, ev, isnB, isnA);
      assert Linked(ActA(m, ev), isnB, isnA);
  }

  // ---------- whole runs ----------

  /** Two sockets whose connection has just been established. */
  ghost predicate Fresh(k: Socket, snd: nat, rcv: nat) {
    k.sndNxt == snd && k.sndUna == snd && k.rcvNxt == rcv && k.pending == [] && !k.timing && k.deferred.None?
  }

  ghost predicate Connected(n: Net, isnA: nat, isnB: nat) {
    && isnA < SEQUENCE_SPACE && isnB < SEQUENCE_SPACE
    && Fresh(n.a, isnA, isnB) && Fresh(n.b, isnB, isnA)
    && n.fromA == {} && n.fromB == {}
    && n.streamA == [] && n.streamB == [] && n.gotA == [] && n.gotB == []
  }

  ghost function Run(n: Net, steps: seq<Step>): Net
    decreases |steps|
  {
    if steps == [] then n else Run(Act(n, steps[0]), steps[1..])
  }

  ghost predicate PossibleRun(n: Net, steps: seq<Step>, isnA: nat, isnB: nat)
    decreases |steps|
  {
    steps == [] || (Possible(n, steps[0], isnA, isnB) && PossibleRun(Act(n, steps[0]), steps[1..], isnA, isnB))
  }

  lemma {:induction false} RunKeepsLinked(n: Net, steps: seq<Step>, isnA: nat, isnB: nat)
    requires Linked(n, isnA, isnB) && PossibleRun(n, steps, isnA, isnB)
    ensures Linked(Run(n, steps), isnA, isnB)
    decreases |steps|
  {
    if steps != [] {
      StepKeepsLinked(n, steps[0], isnA, isnB);
      RunKeepsLinked(Act(n, steps[0]), steps[1..], isnA, isnB);
    }
  }

  /** `m` is a state of the connection after the given steps. */
  ghost predicate Reached(n: Net, steps: seq<Step>, m: Net, isnA: nat, isnB: nat) {
    Connected(n, isnA, isnB) && PossibleRun(n, steps, isnA, isnB) && m == Run(n, steps)
  }

  lemma FreshSender(k: Socket, snd: nat, rcv: nat)
    requires Fresh(k, snd, rcv) && snd < SEQUENCE_SPACE
    ensures SenderOk(k, snd, [])
  {
    var none: seq<Byte> := [];
    assert none[0..] == none;
    assert Flatten(k.pending) == none;
  }

  lemma FreshFlow(x: Socket, y: Socket, isn: nat, other: nat)
    requires Fresh(x, isn, other) && Fresh(y, other, isn) && isn < SEQUENCE_SPACE
    ensures Flow(x, y, {}, {}, isn, [], [])
  {
    FreshSender(x, isn, other);
  }

  lemma ConnectedIsLinked(n: Net, isnA: nat, isnB: nat)
    requires Connected(n, isnA, isnB)
    ensures Linked(n, isnA, isnB)
  {
    FreshFlow(n.a, n.b, isnA, isnB);
    FreshFlow(n.b, n.a, isnB, isnA);
  }

  lemma ReachedIsLinked(n: Net, steps: seq<Step>, m: Net, isnA: nat, isnB: nat)
    requires Reached(n, steps, m, isnA, isnB)
    ensures Linked(m, isnA, isnB)
  {
    ConnectedIsLinked(n, isnA, isnB);
    RunKeepsLinked(n, steps, isnA, isnB);
  }

  /**
   Over any run, however the channel loses, repeats and reorders segments, what each client receives is a prefix of what
   the other client sent.
   */
  lemma DeliveredIsPrefix(n: Net, steps: seq<Step>, m: Net, isnA: nat, isnB: nat)
    requires Reached(n, steps, m, isnA, isnB)
    ensures m.gotB <= m.streamA && m.gotA <= m.streamB
  {
    ReachedIsLinked(n, steps, m, isnA, isnB);
  }

  /** The whole window of an endpoint is one segment: exactly the buffer being timed, and others wait only behind it. */
  ghost predicate StopAndWait(k: Socket) {
    && k.sndUna <= k.sndNxt
    && (k.timing ==> k.seqno == k.sndUna && k.sndNxt == k.sndUna + |k.data|)
    && (!k.timing ==> k.sndUna == k.sndNxt && k.pending == [])
  }

  /** The window of an endpoint is the one segment, and the peer is at one end of it or the other. */
  lemma WindowIsOneSegment(n: Net, steps: seq<Step>, m: Net, isnA: nat, isnB: nat)
    requires Reached(n, steps, m, isnA, isnB)
    ensures StopAndWait(m.a) && StopAndWait(m.b)
    ensures m.b.rcvNxt == m.a.sndUna || m.b.rcvNxt == m.a.sndNxt
    ensures m.a.rcvNxt == m.b.sndUna || m.a.rcvNxt == m.b.sndNxt
  {
    ReachedIsLinked(n, steps, m, isnA, isnB);
  }

  /** Nothing is lost inside an endpoint: acknowledged, in flight and waiting bytes make up the stream. */
  lemma NothingIsLost(n: Net, steps: seq<Step>, m: Net, isnA: nat, isnB: nat)
    requires Reached(n, steps, m, isnA, isnB)
    ensures isnA <= m.a.sndUna <= isnA + |m.gotB| <= isnA + |m.streamA|
    ensures m.streamA == m.streamA[..m.a.sndUna - isnA] + (if m.a.timing then m.a.data else []) + Flatten(m.a.pending)
  {
    ReachedIsLinked(n, steps, m, isnA, isnB);
    var u, x := m.a.sndUna - isnA, m.a.sndNxt - isnA;
    assert SenderOk(m.a, isnA, m.streamA);
    assert m.streamA == m.streamA[..u] + m.streamA[u..x] + m.streamA[x..];
  }

  /** No acknowledgement on the wire is for bytes never sent, so that refusal never happens between these endpoints. */
  lemma AcksAreForSentBytes(n: Net, steps: seq<Step>, m: Net, isnA: nat, isnB: nat, seg: Segment)
    requires Reached(n, steps, m, isnA, isnB) && seg in m.fromB
    ensures seg.ack <= m.a.sndNxt
  {
    ReachedIsLinked(n, steps, m, isnA, isnB);
  }

  // ---------- the end of the sequence space ----------

  /**
   A complete acknowledgement ends the wait exactly when the segment did not run past the end of the sequence space: the
   comparison with the oldest unacknowledged byte is an ordinary one, so after a wrap it discards the acknowledgement.
   */
  lemma FullAckEndsTheWaitUnlessWrapped(k: Socket, now: nat)
    requires k.sndUna < SEQUENCE_SPACE && 0 < |k.data| < SEQUENCE_SPACE
    requires k.timing && k.seqno == k.sndUna && k.sndNxt == Advance(k.sndUna, |k.data|) && k.pending == []
    ensures !TakeAck(k, k.sndNxt, now).0.timing <==> k.sndUna + |k.data| < SEQUENCE_SPACE
    ensures k.sndUna + |k.data| >= SEQUENCE_SPACE ==> TakeAck(k, k.sndNxt, now) == (k, [])
  {
  }

  /** What one socket becomes by an event. */
  ghost function Next(k: Socket, ev: Event): Socket {
    match ev
    case ClientSends(buf, now) => Send(k, buf, now).0
    case Arrives(seg, now) => Recv(k, seg, now).0
    case AckTimer => DeferredAckTick(k).0
    case RetransmitTimer(free) => RetransmitTick(k, free).0
  }

  ghost function Later(k: Socket, evs: seq<Event>): Socket
    decreases |evs|
  {
    if evs == [] then k else Later(Next(k, evs[0]), evs[1..])
  }

  /** The buffers that the client hands over, oldest first. */
  ghost function HandedOver(evs: seq<Event>): seq<seq<Byte>>
    decreases |evs|
  {
    if evs == [] then []
    else (if evs[0].ClientSends? then [evs[0].buf] else []) + HandedOver(evs[1..])
  }

  /** A segment that has run past the end of the sequence space is being timed. */
  ghost predicate Wrapped(k: Socket) {
    k.timing && k.sndNxt < k.sndUna
  }

  lemma WrappedNext(k: Socket, ev: Event)
    requires Wrapped(k)
    ensures var m := Next(k, ev);
            && m.timing && m.sndUna == k.sndUna && m.sndNxt == k.sndNxt && m.seqno == k.seqno && m.data == k.data
            && m.pending == k.pending + (if ev.ClientSends? then [ev.buf] else [])
  {
  }

  /**
   From then on the socket never sends another byte: whatever arrives, whatever its client hands over and however the
   timers fire, the same segment is timed and everything handed over waits behind it.
   */
  lemma {:induction false} WrappedForever(k: Socket, evs: seq<Event>)
    requires Wrapped(k)
    ensures var m := Later(k, evs);
            && Wrapped(m) && m.sndUna == k.sndUna && m.sndNxt == k.sndNxt && m.seqno == k.seqno && m.data == k.data
            && m.pending == k.pending + HandedOver(evs)
    decreases |evs|
  {
    if evs != [] {
      WrappedNext(k, evs[0]);
      WrappedForever(Next(k, evs[0]), evs[1..]);
    }
  }

  /** One byte sent with the last sequence number of all. */
  lemma LastByteWraps(k: Socket, rcv: nat, b: Byte, now: nat)
    requires Fresh(k, SEQUENCE_SPACE - 1, rcv)
    ensures Wrapped(Next(k, ClientSends([b], now)))
  {
  }

  // ---------- two sockets in place ----------

  /** Two socket objects in the state `n` of the connection; what they have sent is on the channel. */
  ghost predicate Realizes(ka: TcpSocket, kb: TcpSocket, n: Net)
    reads ka, kb
  {
    && ka.View() == n.a && Out(ka.sent) == n.fromA && ka.received == n.gotA
    && kb.View() == n.b && Out(kb.sent) == n.fromB && kb.received == n.gotB
  }

  /** One event at the first of two connected sockets: what its client has received stays a prefix of what was sent. */
  method Perform(ka: TcpSocket, kb: TcpSocket, ghost n: Net, ev: Event, ghost isnA: nat, ghost isnB: nat)
    requires ka != kb && Realizes(ka, kb, n) && Linked(n, isnA, isnB) && PossibleA(n, ev, isnA)
    modifies ka
    ensures Realizes(ka, kb, ActA(n, ev)) && Linked(ActA(n, ev), isnA, isnB)
    ensures ka.received <= n.streamB
  {
    EventKeepsLinked(n, ev, isnA, isnB);
    ghost var before := ka.sent;
    match ev {
      case ClientSends(buf, now) =>
        OutOfBoth(before, Send(n.a, buf, now).1);
        ka.SendNetbuf(buf, now);
      case Arrives(seg, now) =>
        OutOfBoth(before, Recv(n.a, seg, now).1);
        ka.RecvSegment(seg, now);
      case AckTimer =>
        OutOfBoth(before, DeferredAckTick(n.a).1);
        ka.TickDeferredAck();
      case RetransmitTimer(free) =>
        OutOfBoth(before, RetransmitTick(n.a, free).1);
        ka.TickRetransmit(free);
    }
  }

  lemma OutOfBoth(x: seq<Segment>, y: seq<Segment>)
    ensures Out(x + y) == Out(x) + Out(y)
  {
    OutConcat({}, x, y);
    assert {} + Out(x) + Out(y) == Out(x) + Out(y) && {} + Out(x + y) == Out(x + y);
  }
}
