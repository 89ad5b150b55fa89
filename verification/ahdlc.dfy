/**
 Asynchronous HDLC framing of PPP packets: byte stuffing, framing with flags and the frame check sequence, and the
 receiver that undoes them.
 */
module Ahdlc {
  import opened Collections
  import opened Fcs

  const MRU: nat := 1500
  const FLAG: bv8 := 0x7e
  const ESC: bv8 := 0x7d

  /** The table holds, for every index, eight bit-serial steps applied to that index. */
  ghost predicate IsTable(t: seq<bv16>) {
    |t| == 256 && forall i | 0 <= i < 256 :: t[i] == Shift8(i as bv16)
  }

  /** Fill the table from its closed form. */
  method BuildTable() returns (t: array<bv16>)
    ensures fresh(t) && IsTable(t[..])
  {
    t := new bv16[256];
    for i := 0 to 256
      invariant forall j | 0 <= j < i :: t[j] == Shift8(j as bv16)
    {
      var x := i as bv16;
      t[i] := Entry(x);
      assert x < 256;
      EntryIsEightShifts(x);
    }
  }

  lemma ByteAsIndex(x: bv16)
    requires x < 256
    ensures 0 <= x as int < 256 && (x as int) as bv16 == x
  {
  }

  lemma LookUp(t: seq<bv16>, x: bv16)
    requires IsTable(t) && x < 256
    ensures 0 <= x as int < 256 && t[x as int] == Entry(x)
  {
    ByteAsIndex(x);
    EntryIsEightShifts(x);
  }

  /** The update as the code performs it, by looking the entry up. */
  method UpdateByTable(t: array<bv16>, c: bv16, v: bv8) returns (u: bv16)
    requires IsTable(t[..])
    ensures u == Update(c, v)
  {
    var x := (v as bv16) ^ (c & 0xff);
    assert x < 256;
    LookUp(t[..], x);
    u := (c >> 8) ^ t[x as int];
  }

  // ---------- sending ----------

  /** Whether the asynchronous control character map asks for `ch` to be escaped. */
  predicate Mapped(accm: bv32, ch: bv8) {
    ch < 0x20 && accm & ((1 as bv32) << ch) != 0
  }

  predicate Escaped(accm: bv32, ch: bv8) {
    ch == FLAG || ch == ESC || Mapped(accm, ch)
  }

  function StuffByte(accm: bv32, ch: bv8): seq<bv8> {
    if Escaped(accm, ch) then [ESC, ch ^ 0x20] else [ch]
  }

  function Stuff(accm: bv32, bs: seq<bv8>): seq<bv8> {
    if bs == [] then [] else StuffByte(accm, bs[0]) + Stuff(accm, bs[1..])
  }

  /** What stands between the flags, before stuffing: address, control, payload and check sequence. */
  function Body(payload: seq<bv8>): seq<bv8> {
    var data := [0xff, 0x03] + payload;
    data + Trailer(FcsOf(INITIAL, data))
  }

  function Encode(accm: bv32, payload: seq<bv8>): seq<bv8> {
    [FLAG] + Stuff(accm, Body(payload)) + [FLAG]
  }

  datatype Packet = Packet(payload: seq<bv8>, accm: bv32)

  function EncodeAll(ps: seq<Packet>): seq<bv8> {
    if ps == [] then [] else Encode(ps[0].accm, ps[0].payload) + EncodeAll(ps[1..])
  }

  // ---------- receiving ----------

  datatype Receiver = Receiver(esc: bool, octets: nat, ignore: bool, packet: seq<bv8>, crc: bv16)

  /** A received frame as handed upwards: the whole buffer, and how many bytes of it were received. */
  datatype Frame = Frame(packet: seq<bv8>, octets: nat)
  {
    // The data starts behind the two header bytes and ends before the check sequence.
    function Payload(): seq<bv8>
      requires 4 <= octets <= |packet|
    {
      packet[2..octets - 2]
    }

    // The size handed upwards with it, in 32 bits: the four framing bytes are taken off without looking.
    function Size(): nat {
      if octets >= 4 then octets - 4 else 0x1_0000_0000 + octets - 4
    }
  }

  /** The buffer is never indexed past its end. */
  ghost predicate ValidReceiver(r: Receiver) {
    |r.packet| == MRU && r.octets <= MRU && (!r.ignore ==> r.octets < MRU)
  }

  /** Accept one unescaped byte. */
  function Store(r: Receiver, b: bv8): Receiver
    requires r.octets < |r.packet|
  {
    r.(packet := r.packet[r.octets := b], octets := r.octets + 1, ignore := r.octets + 1 >= MRU,
        crc := Update(r.crc, b))
  }

  /** The test the code makes before handing a frame upwards. */
  predicate Accepts(r: Receiver)
    requires |r.packet| >= 2
  {
    r.crc == GOOD || r.packet[0] == 0xff || r.packet[1] == 0x03
  }

  predicate Delivers(r: Receiver)
    requires |r.packet| >= 2
  {
    !r.ignore && r.octets > 0 && Accepts(r)
  }

  /** One received byte; `spare` is the buffer that replaces one handed upwards. */
  function RecvByte(r: Receiver, ch: bv8, spare: seq<bv8>): (res: (Receiver, Option<Frame>))
    requires ValidReceiver(r) && |spare| == MRU
    ensures ValidReceiver(res.0)
  {
    if ch == FLAG then
      var up := Delivers(r);
      (Receiver(false, 0, false, if up then spare else r.packet, INITIAL),
       if up then Some(Frame(r.packet, r.octets)) else None)
    else if r.ignore then (r, None)
    else if ch == ESC then (if r.esc then r.(ignore := true) else r.(esc := true), None)
    else (Store(r.(esc := false), if r.esc then ch ^ 0x20 else ch), None)
  }

  /** The buffer that would replace the current one at each byte of a stream. */
  type Buffers = nat -> seq<bv8>

  ghost predicate Sized(mem: Buffers) {
    forall i: nat :: |mem(i)| == MRU
  }

  /** Receive a stream whose first byte has position `n`. */
  ghost function Receive(mem: Buffers, n: nat, r: Receiver, bs: seq<bv8>): (res: (Receiver, seq<Frame>))
    requires ValidReceiver(r) && Sized(mem)
    ensures ValidReceiver(res.0)
    decreases |bs|
  {
    if bs == [] then (r, [])
    else
      var (t, f) := RecvByte(r, bs[0], mem(n));
      var (u, fs) := Receive(mem, n + 1, t, bs[1..]);
      (u, (if f.Some? then [f.value] else []) + fs)
  }

  lemma {:induction false} ReceiveConcat(mem: Buffers, n: nat, r: Receiver, a: seq<bv8>, b: seq<bv8>)
    requires ValidReceiver(r) && Sized(mem)
    ensures var (t, f) := Receive(mem, n, r, a);
            var (u, g) := Receive(mem, n + |a|, t, b);
            Receive(mem, n, r, a + b) == (u, f + g)
    decreases |a|
  {
    if a == [] {
      assert a + b == b;
      var g := Receive(mem, n, r, b).1;
      assert [] + g == g;
    } else {
      assert (a + b)[0] == a[0] && (a + b)[1..] == a[1..] + b;
      var (t, f) := RecvByte(r, a[0], mem(n));
      ReceiveConcat(mem, n + 1, t, a[1..], b);
      assert n + 1 + |a[1..]| == n + |a|;
      var (u, g) := Receive(mem, n + 1, t, a[1..]);
      var h := Receive(mem, n + |a|, u, b).1;
      var first := if f.Some? then [f.value] else [];
      assert first + (g + h) == (first + g) + h;
    }
  }

  lemma ReceiveOne(mem: Buffers, n: nat, r: Receiver, ch: bv8)
    requires ValidReceiver(r) && Sized(mem)
    ensures var (t, f) := RecvByte(r, ch, mem(n));
            Receive(mem, n, r, [ch]) == (t, if f.Some? then [f.value] else [])
  {
    assert [ch][1..] == [];
    var (t, f) := RecvByte(r, ch, mem(n));
    var first: seq<Frame> := if f.Some? then [f.value] else [];
    assert first + [] == first;
  }

  // ---------- stuffing and unstuffing ----------

  /** What unescaped bytes do to a receiver that may be ignoring them. */
  ghost function StoreAll(r: Receiver, bs: seq<bv8>): (t: Receiver)
    requires ValidReceiver(r)
    ensures ValidReceiver(t)
    decreases |bs|
  {
    if bs == [] || r.ignore then r else StoreAll(Store(r, bs[0]), bs[1..])
  }

  lemma EscapesAreDistinct(accm: bv32, ch: bv8)
    requires Escaped(accm, ch)
    ensures ch ^ 0x20 != FLAG && ch ^ 0x20 != ESC && (ch ^ 0x20) ^ 0x20 == ch
  {
  }

  lemma ReceiveStuffedByte(mem: Buffers, n: nat, r: Receiver, accm: bv32, ch: bv8)
    requires ValidReceiver(r) && Sized(mem) && (r.ignore || !r.esc)
    ensures Receive(mem, n, r, StuffByte(accm, ch)) == (if r.ignore then r else Store(r, ch), [])
  {
    if Escaped(accm, ch) {
      EscapesAreDistinct(accm, ch);
      assert [ESC, ch ^ 0x20] == [ESC] + [ch ^ 0x20];
      ReceiveConcat(mem, n, r, [ESC], [ch ^ 0x20]);
      ReceiveOne(mem, n, r, ESC);
      ReceiveOne(mem, n + 1, RecvByte(r, ESC, mem(n)).0, ch ^ 0x20);
    } else {
      ReceiveOne(mem, n, r, ch);
    }
  }

  /** Stuffed bytes arrive as the bytes they stand for, and deliver nothing by themselves. */
  lemma {:induction false} ReceiveStuffed(mem: Buffers, n: nat, r: Receiver, accm: bv32, bs: seq<bv8>)
    requires ValidReceiver(r) && Sized(mem) && (r.ignore || !r.esc)
    ensures Receive(mem, n, r, Stuff(accm, bs)) == (StoreAll(r, bs), [])
    decreases |bs|
  {
    if bs != [] {
      var first := StuffByte(accm, bs[0]);
      ReceiveConcat(mem, n, r, first, Stuff(accm, bs[1..]));
      ReceiveStuffedByte(mem, n, r, accm, bs[0]);
      var t := if r.ignore then r else Store(r, bs[0]);
      ReceiveStuffed(mem, n + |first|, t, accm, bs[1..]);
    }
  }

  /** Bytes that fit are all in the buffer, and the check sequence has seen them. */
  lemma {:induction false} StoreAllFits(r: Receiver, bs: seq<bv8>)
    requires ValidReceiver(r) && !r.ignore && r.octets + |bs| < MRU
    ensures var t := StoreAll(r, bs);
            && t.octets == r.octets + |bs| && !t.ignore && t.crc == FcsOf(r.crc, bs)
            && t.packet[..t.octets] == r.packet[..r.octets] + bs
    decreases |bs|
  {
    if bs != [] {
      var t := Store(r, bs[0]);
      StoreAllFits(t, bs[1..]);
      assert t.packet[..t.octets] == r.packet[..r.octets] + [bs[0]];
      assert [bs[0]] + bs[1..] == bs;
    }
  }

  /** Bytes that do not fit make the receiver ignore the rest of the frame. */
  lemma {:induction false} StoreAllOverflows(r: Receiver, bs: seq<bv8>)
    requires ValidReceiver(r) && r.octets + |bs| >= MRU
    ensures StoreAll(r, bs).ignore
    decreases |bs|
  {
    if !r.ignore {
      StoreAllOverflows(Store(r, bs[0]), bs[1..]);
    }
  }

  // ---------- whole frames and streams ----------

  /** Nothing has been received since the last flag, or whatever was is being ignored. */
  ghost predicate Quiet(r: Receiver) {
    ValidReceiver(r) && (r.ignore || r.octets == 0)
  }

  /** What a body between two flags does. */
  lemma ReceiveFramed(mem: Buffers, n: nat, r: Receiver, accm: bv32, body: seq<bv8>)
    requires Quiet(r) && Sized(mem)
    ensures var start := Receiver(false, 0, false, r.packet, INITIAL);
            var t := StoreAll(start, body);
            var (u, fs) := Receive(mem, n, r, [FLAG] + Stuff(accm, body) + [FLAG]);
            Quiet(u) && fs == if Delivers(t) then [Frame(t.packet, t.octets)] else []
  {
    var start := Receiver(false, 0, false, r.packet, INITIAL);
    var s := Stuff(accm, body);
    assert [FLAG] + s + [FLAG] == [FLAG] + (s + [FLAG]);
    ReceiveConcat(mem, n, r, [FLAG], s + [FLAG]);
    ReceiveOne(mem, n, r, FLAG);
    ReceiveConcat(mem, n + 1, start, s, [FLAG]);
    ReceiveStuffed(mem, n + 1, start, accm, body);
    ReceiveOne(mem, n + 1 + |s|, StoreAll(start, body), FLAG);
  }

  lemma BodyShape(payload: seq<bv8>)
    ensures |Body(payload)| == |payload| + 4
    ensures Body(payload)[2..|payload| + 2] == payload
    ensures FcsOf(INITIAL, Body(payload)) == GOOD
  {
    ResidueIsGood(INITIAL, [0xff, 0x03] + payload);
  }

  /** A buffer that has taken in a whole body holds the payload in its middle and passes the check. */
  lemma StoreBody(start: Receiver, payload: seq<bv8>)
    requires ValidReceiver(start) && !start.ignore && start.octets == 0 && start.crc == INITIAL && |payload| <= MRU - 5
    ensures var t := StoreAll(start, Body(payload));
            && Delivers(t) && t.octets == |payload| + 4
            && t.packet[2..|payload| + 2] == payload
  {
    var body := Body(payload);
    BodyShape(payload);
    StoreAllFits(start, body);
    var t := StoreAll(start, body);
    assert t.packet[..t.octets] == body;
    assert t.packet[2..|payload| + 2] == t.packet[..t.octets][2..|payload| + 2];
  }

  /** A frame is delivered, with its payload intact, exactly when the payload is at most MRU - 5 bytes. */
  lemma ReceiveEncoded(mem: Buffers, n: nat, r: Receiver, accm: bv32, payload: seq<bv8>)
    requires Quiet(r) && Sized(mem)
    ensures var (u, fs) := Receive(mem, n, r, Encode(accm, payload));
            && Quiet(u)
            && (|payload| > MRU - 5 ==> fs == [])
            && (|payload| <= MRU - 5 ==>
                  && |fs| == 1
                  && fs[0].octets == |payload| + 4 <= |fs[0].packet|
                  && fs[0].Payload() == payload)
  {
    var start := Receiver(false, 0, false, r.packet, INITIAL);
    ReceiveFramed(mem, n, r, accm, Body(payload));
    if |payload| <= MRU - 5 {
      StoreBody(start, payload);
    } else {
      BodyShape(payload);
      StoreAllOverflows(start, Body(payload));
    }
  }

  /** The payloads short enough to be received. */
  ghost function Receivable(ps: seq<Packet>): seq<seq<bv8>> {
    if ps == [] then [] else IfReceivable(ps[0]) + Receivable(ps[1..])
  }

  ghost function IfReceivable(p: Packet): seq<seq<bv8>> {
    if |p.payload| <= MRU - 5 then [p.payload] else []
  }

  /** The frames `fs` carry exactly the payloads `xs`, in order. */
  ghost predicate Carry(fs: seq<Frame>, xs: seq<seq<bv8>>) {
    && |fs| == |xs|
    && forall i | 0 <= i < |fs| :: 4 <= fs[i].octets <= |fs[i].packet| && fs[i].Payload() == xs[i]
  }

  /**
   The stream round trip: feeding the concatenated encodings of any packets, each under any control character map,
   to a fresh receiver delivers exactly the payloads that fit, in order.
   */
  lemma {:induction false} StreamRoundTrip(mem: Buffers, n: nat, r: Receiver, ps: seq<Packet>)
    requires Quiet(r) && Sized(mem)
    ensures var (u, fs) := Receive(mem, n, r, EncodeAll(ps)); Quiet(u) && Carry(fs, Receivable(ps))
    decreases |ps|
  {
    if ps != [] {
      var first, rest := Encode(ps[0].accm, ps[0].payload), EncodeAll(ps[1..]);
      var (t, f) := Receive(mem, n, r, first);
      ReceivePacket(mem, n, r, ps[0]);
      StreamRoundTrip(mem, n + |first|, t, ps[1..]);
      var (u, g) := Receive(mem, n + |first|, t, rest);
      CarryConcat(f, IfReceivable(ps[0]), g, Receivable(ps[1..]));
      ReceiveConcat(mem, n, r, first, rest);
      assert Receive(mem, n, r, EncodeAll(ps)) == (u, f + g);
    }
  }

  lemma ReceivePacket(mem: Buffers, n: nat, r: Receiver, p: Packet)
    requires Quiet(r) && Sized(mem)
    ensures var (u, fs) := Receive(mem, n, r, Encode(p.accm, p.payload)); Quiet(u) && Carry(fs, IfReceivable(p))
  {
    ReceiveEncoded(mem, n, r, p.accm, p.payload);
  }

  lemma CarryConcat(f: seq<Frame>, x: seq<seq<bv8>>, g: seq<Frame>, y: seq<seq<bv8>>)
    requires Carry(f, x) && Carry(g, y)
    ensures Carry(f + g, x + y)
  {
  }

  /**
   The second byte of the buffer after a body has been stored: left over from an earlier frame if the body is short.
   */
  function SecondByte(packet: seq<bv8>, body: seq<bv8>): bv8
    requires |packet| >= 2
  {
    if |body| >= 2 then body[1] else packet[1]
  }

  lemma {:induction false} StoreAllKeepsRest(r: Receiver, bs: seq<bv8>, i: nat)
    requires ValidReceiver(r) && !r.ignore && r.octets + |bs| <= i < MRU
    ensures StoreAll(r, bs).packet[i] == r.packet[i]
    decreases |bs|
  {
    if bs != [] {
      StoreAllKeepsRest(Store(r, bs[0]), bs[1..], i);
    }
  }

  lemma StoredBody(packet: seq<bv8>, body: seq<bv8>)
    requires |packet| == MRU && 0 < |body| < MRU
    ensures var t := StoreAll(Receiver(false, 0, false, packet, INITIAL), body);
            && t.octets == |body| && !t.ignore && t.packet[..|body|] == body && t.crc == FcsOf(INITIAL, body)
            && t.packet[0] == body[0] && t.packet[1] == SecondByte(packet, body)
  {
    var start := Receiver(false, 0, false, packet, INITIAL);
    StoreAllFits(start, body);
    var t := StoreAll(start, body);
    assert t.packet[..t.octets] == body;
    assert t.packet[0] == t.packet[..t.octets][0];
    if |body| >= 2 {
      assert t.packet[1] == t.packet[..t.octets][1];
    } else {
      StoreAllKeepsRest(start, body, 1);
    }
  }

  /** A body that passes one of the three tests; the last of them may look at a byte it does not contain. */
  predicate PassesSome(packet: seq<bv8>, body: seq<bv8>)
    requires |packet| >= 2 && body != []
  {
    FcsOf(INITIAL, body) == GOOD || body[0] == 0xff || SecondByte(packet, body) == 0x03
  }

  /**
   What the receiver lets through, for every body between two flags.  Because its three conditions are alternatives, a
   body that has the usual address byte or the usual control byte is delivered whatever its check sequence says.
   */
  lemma AcceptedExactly(mem: Buffers, n: nat, r: Receiver, accm: bv32, body: seq<bv8>)
    requires Quiet(r) && Sized(mem)
    ensures var fs := Receive(mem, n, r, [FLAG] + Stuff(accm, body) + [FLAG]).1;
            if 0 < |body| < MRU && PassesSome(r.packet, body)
            then |fs| == 1 && fs[0].octets == |body| && |fs[0].packet| == MRU && fs[0].packet[..|body|] == body
            else fs == []
  {
    var start := Receiver(false, 0, false, r.packet, INITIAL);
    ReceiveFramed(mem, n, r, accm, body);
    if |body| >= MRU {
      StoreAllOverflows(start, body);
    } else if body != [] {
      StoredBody(r.packet, body);
    }
  }

  /** The size handed upwards stays inside the buffer exactly when the body has at least its four framing bytes. */
  lemma DeliveredSizeFitsExactly(mem: Buffers, n: nat, r: Receiver, accm: bv32, body: seq<bv8>)
    requires Quiet(r) && Sized(mem) && 0 < |body| < MRU && PassesSome(r.packet, body)
    ensures var fs := Receive(mem, n, r, [FLAG] + Stuff(accm, body) + [FLAG]).1;
            |fs| == 1 && (2 + fs[0].Size() <= |fs[0].packet| <==> |body| >= 4)
  {
    AcceptedExactly(mem, n, r, accm, body);
  }

  /** A lone address byte between two flags is delivered, with a size of almost four gigabytes. */
  lemma LoneByteIsDelivered(mem: Buffers, n: nat, r: Receiver, accm: bv32)
    requires Quiet(r) && Sized(mem)
    ensures var fs := Receive(mem, n, r, [FLAG] + Stuff(accm, [0xff]) + [FLAG]).1;
            |fs| == 1 && fs[0].Size() == 0xffff_fffd && |fs[0].packet| == MRU
  {
    AcceptedExactly(mem, n, r, accm, [0xff]);
  }

  /** A frame whose payload was damaged in one byte fails the check sequence and is delivered all the same. */
  lemma DamagedFrameIsDelivered(mem: Buffers, n: nat, r: Receiver, accm: bv32, payload: seq<bv8>, i: nat, v: bv8)
    requires Quiet(r) && Sized(mem) && |payload| <= MRU - 5 && i < |payload| && v != payload[i]
    ensures var damaged := Body(payload)[2 + i := v];
            && FcsOf(INITIAL, damaged) != GOOD
            && Receive(mem, n, r, [FLAG] + Stuff(accm, damaged) + [FLAG]).1 != []
  {
    ResidueIsGood(INITIAL, [0xff, 0x03] + payload);
    OneBadByteIsSeen(INITIAL, Body(payload), 2 + i, v);
    AcceptedExactly(mem, n, r, accm, Body(payload)[2 + i := v]);
  }

  // ---------- the sender in place ----------

  lemma {:induction false} StuffOfConcat(accm: bv32, a: seq<bv8>, b: seq<bv8>)
    ensures Stuff(accm, a + b) == Stuff(accm, a) + Stuff(accm, b)
    decreases |a|
  {
    if a == [] {
      assert a + b == b;
    } else {
      assert (a + b)[0] == a[0] && (a + b)[1..] == a[1..] + b;
      StuffOfConcat(accm, a[1..], b);
    }
  }

  /** The layers of an outgoing packet. */
  datatype Netbuf = Netbuf(datalink: seq<bv8>, network: seq<bv8>, transport: seq<bv8>, application: seq<bv8>)
  {
    // What is sent: the byte counts pass through a 16-bit parameter.
    ghost function Sent(): seq<bv8> {
      Counted(datalink) + Counted(network) + Counted(transport) + Counted(application)
    }
  }

  function Counted(s: seq<bv8>): seq<bv8> {
    s[..|s| % 0x10000]
  }

  class Sender {
    const table: array<bv16>
    var line: seq<bv8>  // everything handed to the UART so far

    constructor (t: array<bv16>)
      ensures table == t && line == []
    {
      table, line := t, [];
    }

    method SendU8(ch: bv8, accm: bv32, crc: bv16) returns (r: bv16)
      requires IsTable(table[..])
      modifies this
      ensures line == old(line) + StuffByte(accm, ch)
      ensures r == Update(crc, ch)
    {
      r := UpdateByTable(table, crc, ch);
      if ch == FLAG || ch == ESC || (ch < 0x20 && accm & ((1 as bv32) << ch) != 0) {
        line := line + [ESC];
        line := line + [ch ^ 0x20];
      } else {
        line := line + [ch];
      }
    }

    method SendSequence(buf: seq<bv8>, accm: bv32, crc: bv16) returns (r: bv16)
      requires IsTable(table[..])
      modifies this
      ensures line == old(line) + Stuff(accm, Counted(buf))
      ensures r == FcsOf(crc, Counted(buf))
    {
      var s := Counted(buf);
      r := crc;
      var i := 0;
      while i < |s|
        invariant 0 <= i <= |s|
        invariant line == old(line) + Stuff(accm, s[..i])
        invariant r == FcsOf(crc, s[..i])
      {
        StuffOneMore(accm, crc, s, i);
        r := SendU8(s[i], accm, r);
        i := i + 1;
      }
      assert s[..i] == s;
    }

    /** A layer that may be absent. */
    method SendLayer(buf: seq<bv8>, accm: bv32, crc: bv16) returns (r: bv16)
      requires IsTable(table[..])
      modifies this
      ensures line == old(line) + Stuff(accm, Counted(buf))
      ensures r == FcsOf(crc, Counted(buf))
    {
      r := crc;
      if |buf| != 0 {
        r := SendSequence(buf, accm, crc);
      }
    }

    method SendLayers(nb: Netbuf, accm: bv32, crc: bv16) returns (r: bv16)
      requires IsTable(table[..])
      modifies this
      ensures line == old(line) + Stuff(accm, nb.Sent())
      ensures r == FcsOf(crc, nb.Sent())
    {
      r := SendSequence(nb.datalink, accm, crc);
      r := SendSequence(nb.network, accm, r);
      r := SendLayer(nb.transport, accm, r);
      r := SendLayer(nb.application, accm, r);
      ghost var d, n, t, a := Counted(nb.datalink), Counted(nb.network), Counted(nb.transport), Counted(nb.application);
      Layers(accm, crc, d, n, t, a);
      Regroup(old(line), Stuff(accm, d), Stuff(accm, n), Stuff(accm, t), Stuff(accm, a));
    }

    /** Send two bytes of header or trailer. */
    method SendTwo(x: bv8, y: bv8, accm: bv32, crc: bv16) returns (r: bv16)
      requires IsTable(table[..])
      modifies this
      ensures line == old(line) + (StuffByte(accm, x) + StuffByte(accm, y))
      ensures r == Update(Update(crc, x), y)
    {
      r := SendU8(x, accm, crc);
      r := SendU8(y, accm, r);
    }

    /** Frame one packet: flag, header, layers, complemented check sequence, flag. */
    method SendFrame(nb: Netbuf, accm: bv32)
      requires IsTable(table[..])
      modifies this
      ensures line == old(line) + Encode(accm, nb.Sent())
    {
      line := line + [FLAG];
      var crc := SendTwo(0xff, 0x03, accm, INITIAL);
      crc := SendLayers(nb, accm, crc);
      var lo, hi := LowByte(!crc), HighByte(!crc);
      var _ := SendTwo(lo, hi, accm, 0);
      line := line + [FLAG];
      FrameData(accm, nb.Sent(), crc, lo, hi);
      ghost var head := StuffByte(accm, 0xff) + StuffByte(accm, 0x03);
      ghost var tail := StuffByte(accm, lo) + StuffByte(accm, hi);
      Regroup(old(line), [FLAG], head, Stuff(accm, nb.Sent()), tail);
      assert line == old(line) + ([FLAG] + head + Stuff(accm, nb.Sent()) + tail) + [FLAG];
    }
  }

  lemma Regroup(o: seq<bv8>, a: seq<bv8>, b: seq<bv8>, c: seq<bv8>, d: seq<bv8>)
    ensures o + a + b + c + d == o + (a + b + c + d)
  {
  }

  /** The stuffed body is the stuffed header, payload and trailer in a row. */
  lemma FrameData(accm: bv32, payload: seq<bv8>, crc: bv16, lo: bv8, hi: bv8)
    requires crc == FcsOf(Update(Update(INITIAL, 0xff), 0x03), payload) && lo == LowByte(!crc) && hi == HighByte(!crc)
    ensures Encode(accm, payload) ==
            [FLAG] + (StuffByte(accm, 0xff) + StuffByte(accm, 0x03)) + Stuff(accm, payload)
            + (StuffByte(accm, lo) + StuffByte(accm, hi)) + [FLAG]
  {
    HeaderFcs(payload);
    assert Body(payload) == [0xff, 0x03] + payload + [lo, hi];
    StuffParts(accm, 0xff, 0x03, payload, lo, hi);
    Regroup([], [FLAG], StuffByte(accm, 0xff) + StuffByte(accm, 0x03), Stuff(accm, payload),
        StuffByte(accm, lo) + StuffByte(accm, hi));
  }

  lemma HeaderFcs(payload: seq<bv8>)
    ensures FcsOf(INITIAL, [0xff, 0x03] + payload) == FcsOf(Update(Update(INITIAL, 0xff), 0x03), payload)
  {
    var data := [0xff, 0x03] + payload;
    assert data[1..] == [0x03] + payload && data[1..][1..] == payload;
  }

  lemma StuffParts(accm: bv32, p: bv8, q: bv8, payload: seq<bv8>, x: bv8, y: bv8)
    ensures Stuff(accm, [p, q] + payload + [x, y]) ==
            (StuffByte(accm, p) + StuffByte(accm, q)) + Stuff(accm, payload) + (StuffByte(accm, x) + StuffByte(accm, y))
  {
    StuffTwoMore(accm, [p, q] + payload, x, y);
    StuffOfConcat(accm, [p, q], payload);
    StuffTwo(accm, p, q);
  }

  lemma StuffTwo(accm: bv32, p: bv8, q: bv8)
    ensures Stuff(accm, [p, q]) == StuffByte(accm, p) + StuffByte(accm, q)
  {
    assert [p, q] == [p] + [q];
    StuffOfConcat(accm, [p], [q]);
    StuffOne(accm, p, 0);
    StuffOne(accm, q, 0);
  }

  lemma StuffOne(accm: bv32, ch: bv8, crc: bv16)
    ensures Stuff(accm, [ch]) == StuffByte(accm, ch) && FcsOf(crc, [ch]) == Update(crc, ch)
  {
    assert [ch][1..] == [];
    assert Stuff(accm, [ch]) == StuffByte(accm, ch) + [];
  }

  lemma Layers(accm: bv32, crc: bv16, d: seq<bv8>, n: seq<bv8>, t: seq<bv8>, a: seq<bv8>)
    ensures Stuff(accm, d + n + t + a) == Stuff(accm, d) + Stuff(accm, n) + Stuff(accm, t) + Stuff(accm, a)
    ensures FcsOf(crc, d + n + t + a) == FcsOf(FcsOf(FcsOf(FcsOf(crc, d), n), t), a)
  {
    StuffOfConcat(accm, d, n);
    StuffOfConcat(accm, d + n, t);
    StuffOfConcat(accm, d + n + t, a);
    FcsOfConcat(crc, d, n);
    FcsOfConcat(crc, d + n, t);
    FcsOfConcat(crc, d + n + t, a);
  }

  lemma StuffTwoMore(accm: bv32, data: seq<bv8>, x: bv8, y: bv8)
    ensures Stuff(accm, data + [x, y]) == Stuff(accm, data) + (StuffByte(accm, x) + StuffByte(accm, y))
  {
    StuffOfConcat(accm, data, [x, y]);
    StuffTwo(accm, x, y);
  }

  lemma StuffOneMore(accm: bv32, crc: bv16, s: seq<bv8>, i: nat)
    requires i < |s|
    ensures Stuff(accm, s[..i + 1]) == Stuff(accm, s[..i]) + StuffByte(accm, s[i])
    ensures FcsOf(crc, s[..i + 1]) == Update(FcsOf(crc, s[..i]), s[i])
  {
    assert s[..i + 1] == s[..i] + [s[i]];
    StuffOfConcat(accm, s[..i], [s[i]]);
    FcsOfConcat(crc, s[..i], [s[i]]);
    StuffOne(accm, s[i], FcsOf(crc, s[..i]));
  }

  // ---------- the receiver in place ----------

  class Deframer {
    const table: array<bv16>
    var esc: bool
    var octets: nat
    var ignore: bool
    var packet: array<bv8>
    var crc: bv16

    ghost function View(): Receiver
      reads this, packet
    {
      Receiver(esc, octets, ignore, packet[..], crc)
    }

    /** A new receiver ignores everything up to the first flag. */
    constructor (t: array<bv16>, buffer: array<bv8>)
      requires buffer.Length == MRU
      ensures table == t && packet == buffer && Quiet(View())
    {
      table, esc, octets, ignore, packet, crc := t, false, 0, true, buffer, 0;
    }

    /** Handle one byte from the line; `spare` replaces the buffer if that is handed upwards. */
    method RecvU8(ch: bv8, spare: array<bv8>) returns (f: Option<Frame>)
      requires IsTable(table[..]) && ValidReceiver(View()) && spare.Length == MRU
      modifies this, packet
      ensures (View(), f) == RecvByte(old(View()), ch, old(spare[..]))
      ensures packet == (if f.Some? then spare else old(packet))
    {
      f := None;
      if ch == FLAG {
        if !ignore && octets != 0 {
          if crc == GOOD || packet[0] == 0xff || packet[1] == 0x03 {
            f := Some(Frame(packet[..], octets));
            packet := spare;
          }
        }
        octets, esc, ignore, crc := 0, false, false, INITIAL;
      } else if !ignore {
        if ch == ESC {
          if esc {
            ignore := true;
          } else {
            esc := true;
          }
        } else {
          var b := ch;
          if esc {
            b := ch ^ 0x20;
            esc := false;
          }
          crc := UpdateByTable(table, crc, b);
          packet[octets] := b;
          octets := octets + 1;
          if octets >= MRU {
            ignore := true;
          }
        }
      }
    }
  }
}
