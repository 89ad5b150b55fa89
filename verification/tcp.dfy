/**
 The data phase of a TCP socket: a stop-and-wait sender with a queue of waiting buffers, a receiver that accepts
 segments strictly in order, retransmission and deferred acknowledgements.  Sections 3.3 and 3.9 of RFC 793.

 The socket is in ESTABLISHED throughout and every segment carries an acknowledgement and none of SYN, FIN or RST.
 */
module Tcp {
  import opened Collections
  import opened RoundTrip

  type Byte = bv8

  datatype Segment = Segment(seqno: nat, ack: nat, data: seq<Byte>)

  /**
   The fields of a socket that the data phase uses.  `seqno` and `data` are the buffer awaiting acknowledgement,
   meaningful while `timing` is set, and `timeout` the time it is given; `deferred` is the sequence number inside an
   acknowledgement that waits to be sent.
   */
  datatype Socket = Socket(
    sndNxt: nat, sndUna: nat, rcvNxt: nat,
    pending: seq<seq<Byte>>,
    seqno: nat, data: seq<Byte>,
    timing: bool, acked: bool, deferred: Option<nat>,
    retransmits: nat, timeout: nat, sentAt: nat, rtt: Estimator)

  const SEQUENCE_SPACE: nat := 0x1_0000_0000

  /** Advancing a sequence number, in 32 bits. */
  function Advance(s: nat, n: nat): nat {
    if s + n < SEQUENCE_SPACE then s + n else s + n - SEQUENCE_SPACE
  }

  // ---------- sending ----------

  /** Send `buf` at once: it becomes the one segment awaiting acknowledgement, and carries the acknowledgement along. */
  function SendNow(k: Socket, buf: seq<Byte>, now: nat): (Socket, Segment) {
    (k.(sndNxt := Advance(k.sndNxt, |buf|), seqno := k.sndNxt, data := buf,
        timing := true, acked := false, deferred := None, retransmits := 0, timeout := k.rtt.rto, sentAt := now),
     Segment(k.sndNxt, k.rcvNxt, buf))
  }

  /** A client hands over a buffer: it waits while another segment is unacknowledged. */
  function Send(k: Socket, buf: seq<Byte>, now: nat): (Socket, seq<Segment>) {
    if k.timing then (k.(pending := k.pending + [buf]), [])
    else
      var (t, s) := SendNow(k, buf, now);
      (t, [s])
  }

  /** Acknowledge: the first request is put off, a second one while the first still waits is sent. */
  function Acknowledge(k: Socket): (Socket, seq<Segment>) {
    if k.deferred.Some? then (k.(deferred := None), [Segment(k.sndNxt, k.rcvNxt, [])])
    else (k.(deferred := Some(k.sndNxt)), [])
  }

  // ---------- timers ----------

  function DeferredAckTick(k: Socket): (Socket, seq<Segment>) {
    if k.deferred.Some? then (k.(deferred := None), [Segment(k.deferred.value, k.rcvNxt, [])]) else (k, [])
  }

  function Inc16(n: nat): nat {
    if n == 0xffff then 0 else n + 1
  }

  /**
   The timer is set anew, twice as long for every retransmission so far.  `free` says that no earlier copy of the buffer
   is still on its way out of this host.
   */
  function RetransmitTick(k: Socket, free: bool): (Socket, seq<Segment>) {
    if !k.timing then (k, [])
    else
      var k1 := k.(timeout := BackOff(k.rtt.rto, k.retransmits));
      if free then (k1.(deferred := None, retransmits := Inc16(k.retransmits)), [Segment(k.seqno, k.rcvNxt, k.data)])
      else (k1, [])
  }

  // ---------- receiving ----------

  /** The estimator learns from the first acknowledgement after a transmission only. */
  function Learn(k: Socket, now: nat): Socket {
    if k.acked then k
    else k.(acked := true, rtt := Acknowledged(k.rtt, k.retransmits, S32(now - k.sentAt)))
  }

  /** The acknowledgement field of an in-order segment; a complete acknowledgement starts the next waiting buffer. */
  function TakeAck(k: Socket, ack: nat, now: nat): (Socket, seq<Segment>) {
    if ack < k.sndUna then (k, [])
    else
      var k1 := Learn(k, now).(sndUna := ack);
      if ack == k.sndNxt && k.timing then
        var k2 := k1.(timing := false);
        if k.pending == [] then (k2, [])
        else
          var (k3, s) := SendNow(k2.(pending := k.pending[1..]), k.pending[0], now);
          (k3, [s])
      else (k1, [])
  }

  /** The data of an in-order segment. */
  function TakeData(k: Socket, data: seq<Byte>): (Socket, seq<Segment>) {
    if data == [] then (k, []) else Acknowledge(k.(rcvNxt := Advance(k.rcvNxt, |data|)))
  }

  /** One received segment: the new socket, the segments sent in response and the bytes given to the client. */
  function Recv(k: Socket, s: Segment, now: nat): (Socket, seq<Segment>, seq<Byte>) {
    if s.seqno != k.rcvNxt || s.ack > k.sndNxt then
      var (t, out) := Acknowledge(k);
      (t, out, [])
    else
      var (k1, out1) := TakeAck(k, s.ack, now);
      var (k2, out2) := TakeData(k1, s.data);
      (k2, out1 + out2, s.data)
  }

  // ---------- the socket in place ----------

  class TcpSocket {
    var sndNxt: nat
    var sndUna: nat
    var rcvNxt: nat
    var pending: seq<seq<Byte>>
    var seqno: nat
    var data: seq<Byte>
    var timing: bool
    var acked: bool
    var deferred: Option<nat>
    var retransmits: nat
    var timeout: nat
    var sentAt: nat
    var rtt: Estimator
    var sent: seq<Segment>     // everything handed to the IP layer
    var received: seq<Byte>    // everything handed to the client

    ghost function View(): Socket
      reads this
    {
      Socket(sndNxt, sndUna, rcvNxt, pending, seqno, data, timing, acked, deferred, retransmits, timeout, sentAt, rtt)
    }

    /** A socket whose connection has just been established with the given sequence numbers. */
    constructor (snd: nat, rcv: nat)
      ensures View() == Socket(snd, snd, rcv, [], 0, [], false, false, None, 0, 0, 0,
              Estimator(0, 3 * TICK_RATE, 3 * TICK_RATE))
      ensures sent == [] && received == []
    {
      sndNxt, sndUna, rcvNxt, pending := snd, snd, rcv, [];
      seqno, data, timing, acked, deferred, retransmits, timeout, sentAt := 0, [], false, false, None, 0, 0, 0;
      rtt := Estimator(0, 3 * TICK_RATE, 3 * TICK_RATE);
      sent, received := [], [];
    }

    /** Start timing a segment. */
    method StartTiming(now: nat)
      modifies this`timing, this`acked, this`retransmits, this`timeout, this`sentAt
      ensures View() == old(View()).(timing := true, acked := false, retransmits := 0, timeout := rtt.rto,
              sentAt := now)
    {
      timeout, retransmits, sentAt := rtt.rto, 0, now;
      timing, acked := true, false;
    }

    method SendNetbufNow(buf: seq<Byte>, now: nat)
      modifies this`sndNxt, this`seqno, this`data, this`timing, this`acked, this`deferred, this`retransmits,
          this`timeout, this`sentAt, this`sent
      ensures View() == SendNow(old(View()), buf, now).0
      ensures sent == old(sent) + [SendNow(old(View()), buf, now).1]
    {
      deferred := None;
      seqno, data := sndNxt, buf;
      sndNxt := Advance(sndNxt, |buf|);
      StartTiming(now);
      sent := sent + [Segment(seqno, rcvNxt, data)];
    }

    method SendNetbuf(buf: seq<Byte>, now: nat)
      modifies this
      ensures View() == Send(old(View()), buf, now).0
      ensures sent == old(sent) + Send(old(View()), buf, now).1 && received == old(received)
    {
      if timing {
        pending := pending + [buf];
      } else {
        SendNetbufNow(buf, now);
      }
    }

    method BuildAndSendAck()
      modifies this`deferred, this`sent
      ensures View() == Acknowledge(old(View())).0
      ensures sent == old(sent) + Acknowledge(old(View())).1
    {
      if deferred.Some? {
        deferred := None;
        sent := sent + [Segment(sndNxt, rcvNxt, [])];
      } else {
        deferred := Some(sndNxt);
      }
    }

    method TickDeferredAck()
      modifies this`deferred, this`sent
      ensures View() == DeferredAckTick(old(View())).0
      ensures sent == old(sent) + DeferredAckTick(old(View())).1
    {
      if deferred.Some? {
        sent := sent + [Segment(deferred.value, rcvNxt, [])];
        deferred := None;
      }
    }

    method TickRetransmit(free: bool)
      modifies this`deferred, this`retransmits, this`timeout, this`sent
      ensures View() == RetransmitTick(old(View()), free).0
      ensures sent == old(sent) + RetransmitTick(old(View()), free).1
    {
      if timing {
        timeout := BackOff(rtt.rto, retransmits);
        if free {
          deferred := None;
          retransmits := Inc16(retransmits);
          sent := sent + [Segment(seqno, rcvNxt, data)];
        }
      }
    }

    method CalcRoundTrip(now: nat)
      modifies this`acked, this`rtt
      ensures View() == Learn(old(View()), now)
    {
      if acked {
        return;
      }
      rtt := Acknowledged(rtt, retransmits, S32(now - sentAt));
      acked := true;
    }

    method ProcessAck(ack: nat, now: nat)
      modifies this
      ensures View() == TakeAck(old(View()), ack, now).0
      ensures sent == old(sent) + TakeAck(old(View()), ack, now).1 && received == old(received)
    {
      if ack >= sndUna {
        CalcRoundTrip(now);
        sndUna := ack;
        if ack == sndNxt && timing {
          timing := false;
          if pending != [] {
            var next := pending[0];
            pending := pending[1..];
            SendNetbufNow(next, now);
          }
        }
      }
    }

    /** The ESTABLISHED arm of the receive state machine. */
    method RecvSegment(s: Segment, now: nat)
      modifies this
      ensures var (t, out, bytes) := Recv(old(View()), s, now);
              View() == t && sent == old(sent) + out && received == old(received) + bytes
    {
      if s.seqno != rcvNxt {
        BuildAndSendAck();
        return;
      }
      if s.ack > sndNxt {
        BuildAndSendAck();
        return;
      }
      ProcessAck(s.ack, now);
      if s.data != [] {
        rcvNxt := Advance(rcvNxt, |s.data|);
        BuildAndSendAck();
        received := received + s.data;
      }
    }
  }
}
