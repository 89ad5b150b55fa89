/**
 What a frame looks like on the line, whoever receives it: which bytes never appear, how long it is and what stands in
 it. Sections 4.2 and 7.1 of RFC 1662.
 */
module AhdlcLine {
  import opened Collections
  import opened Fcs
  import opened Ahdlc

  // ---------- transparency ----------

  /** Bit `ch` of the map. */
  predicate InMap(accm: bv32, ch: bv8) {
    ch < 0x20 && (accm >> ch) & 1 == 1
  }

  /** A byte that must not appear as it is between two flags. */
  predicate MustEscape(accm: bv32, ch: bv8) {
    ch == 0x7e || ch == 0x7d || InMap(accm, ch)
  }

  lemma MapBit(accm: bv32, ch: bv8)
    ensures Mapped(accm, ch) <==> InMap(accm, ch)
  {
  }

  lemma EscapedExactly(accm: bv32, ch: bv8)
    ensures Escaped(accm, ch) <==> MustEscape(accm, ch)
  {
    MapBit(accm, ch);
  }

  function Needing(accm: bv32, bs: seq<bv8>): nat {
    if bs == [] then 0 else (if MustEscape(accm, bs[0]) then 1 else 0) + Needing(accm, bs[1..])
  }

  /** No flag, and nothing that the map keeps off the line. */
  ghost predicate Clean(accm: bv32, line: seq<bv8>) {
    forall i | 0 <= i < |line| :: line[i] != 0x7e && !InMap(accm, line[i])
  }

  lemma EscapedIsClean(ch: bv8)
    requires ch == 0x7e || ch == 0x7d || ch < 0x20
    ensures ch ^ 0x20 != 0x7e && ch ^ 0x20 >= 0x20
  {
  }

  lemma ByteIsClean(accm: bv32, ch: bv8)
    ensures Clean(accm, StuffByte(accm, ch))
    ensures |StuffByte(accm, ch)| == if MustEscape(accm, ch) then 2 else 1
  {
    EscapedExactly(accm, ch);
    if MustEscape(accm, ch) {
      EscapedIsClean(ch);
    }
  }

  lemma CleanJoins(accm: bv32, a: seq<bv8>, b: seq<bv8>)
    requires Clean(accm, a) && Clean(accm, b)
    ensures Clean(accm, a + b)
  {
  }

  /** Stuffed bytes are clean, and exactly one longer for each byte that must be escaped. */
  lemma {:induction false} StuffIsClean(accm: bv32, bs: seq<bv8>)
    ensures Clean(accm, Stuff(accm, bs)) && |Stuff(accm, bs)| == |bs| + Needing(accm, bs)
    decreases |bs|
  {
    if bs != [] {
      ByteIsClean(accm, bs[0]);
      StuffIsClean(accm, bs[1..]);
      CleanJoins(accm, StuffByte(accm, bs[0]), Stuff(accm, bs[1..]));
    }
  }

  // ---------- what stands in a frame ----------

  /** Undo the escapes: the byte behind an escape has bit 5 changed. */
  function Unstuff(line: seq<bv8>): seq<bv8> {
    if line == [] then []
    else if line[0] == 0x7d && |line| > 1 then [line[1] ^ 0x20] + Unstuff(line[2..])
    else [line[0]] + Unstuff(line[1..])
  }

  lemma UnstuffByte(accm: bv32, ch: bv8, rest: seq<bv8>)
    ensures Unstuff(StuffByte(accm, ch) + rest) == [ch] + Unstuff(rest)
  {
    var line := StuffByte(accm, ch) + rest;
    if Escaped(accm, ch) {
      EscapesAreDistinct(accm, ch);
      assert line[2..] == rest;
    } else {
      assert line[1..] == rest;
    }
  }

  /** Under any map, undoing the escapes gives back the bytes. */
  lemma {:induction false} UnstuffUndoesStuff(accm: bv32, bs: seq<bv8>)
    ensures Unstuff(Stuff(accm, bs)) == bs
    decreases |bs|
  {
    if bs != [] {
      UnstuffByte(accm, bs[0], Stuff(accm, bs[1..]));
      UnstuffUndoesStuff(accm, bs[1..]);
      assert [bs[0]] + bs[1..] == bs;
    }
  }

  /** The two bytes of a check sequence, low byte first. */
  function Bytes16(c: bv16): seq<bv8> {
    [(c & 0xff) as bv8, (c >> 8) as bv8]
  }

  function Complement(c: bv16): bv16 {
    c ^ 0xffff
  }

  lemma TrailerIs(c: bv16)
    ensures Trailer(c) == Bytes16(Complement(c))
  {
    NotIsXor(c);
    HighIsByte(c ^ 0xffff);
  }

  lemma NotIsXor(c: bv16)
    ensures !c == c ^ 0xffff
  {
  }

  lemma HighIsByte(c: bv16)
    ensures (c >> 8) & 0xff == c >> 8
  {
  }

  /** Address and control byte, payload, and the complement of the bit-serial check sequence. */
  lemma BodyIs(payload: seq<bv8>)
    ensures var data := [0xff, 0x03] + payload;
            Body(payload) == data + Bytes16(Complement(BitwiseFcs(0xffff, data)))
  {
    CheckSequenceIs([0xff, 0x03] + payload);
  }

  lemma CheckSequenceIs(data: seq<bv8>)
    ensures Trailer(FcsOf(INITIAL, data)) == Bytes16(Complement(BitwiseFcs(0xffff, data)))
  {
    TableIsBitwise(INITIAL, data);
    TrailerIs(FcsOf(INITIAL, data));
  }

  /**
   A frame on the line: between its two flags stand only bytes that may stand there, one more for every byte that must
   be escaped, and without the escapes they are header, payload and check sequence.
   */
  lemma FrameOnLine(accm: bv32, payload: seq<bv8>) returns (line: seq<bv8>)
    ensures Encode(accm, payload) == [0x7e] + line + [0x7e]
    ensures Clean(accm, line) && |line| == |payload| + 4 + Needing(accm, Body(payload))
    ensures var data := [0xff, 0x03] + payload;
            Unstuff(line) == data + Bytes16(Complement(BitwiseFcs(0xffff, data)))
  {
    line := Stuff(accm, Body(payload));
    StuffIsClean(accm, Body(payload));
    UnstuffUndoesStuff(accm, Body(payload));
    BodyIs(payload);
  }

  // ---------- what a receiver passes over ----------

  /** A receiver that ignores its input does so up to the next flag. */
  lemma {:induction false} NoiseIsIgnored(mem: Buffers, n: nat, r: Receiver, bs: seq<bv8>)
    requires ValidReceiver(r) && Ahdlc.Sized(mem) && r.ignore && 0x7e !in bs
    ensures Receive(mem, n, r, bs) == (r, [])
    decreases |bs|
  {
    if bs != [] {
      assert bs[0] in bs && forall b | b in bs[1..] :: b in bs;
      NoiseIsIgnored(mem, n + 1, r, bs[1..]);
      var none: seq<Frame> := [];
      assert RecvByte(r, bs[0], mem(n)) == (r, None) && none + none == none;
    }
  }

  /** Whatever arrives before the first flag, the frames behind it are received as if it had not. */
  lemma NoiseBeforeFrames(mem: Buffers, n: nat, r: Receiver, noise: seq<bv8>, ps: seq<Packet>)
    requires ValidReceiver(r) && Ahdlc.Sized(mem) && r.ignore && 0x7e !in noise
    ensures Carry(Receive(mem, n, r, noise + EncodeAll(ps)).1, Receivable(ps))
  {
    NoiseIsIgnored(mem, n, r, noise);
    ReceiveConcat(mem, n, r, noise, EncodeAll(ps));
    StreamRoundTrip(mem, n + |noise|, r, ps);
    var fs := Receive(mem, n + |noise|, r, EncodeAll(ps)).1;
    assert [] + fs == fs;
  }

  lemma EscapeEscape(mem: Buffers, n: nat, r: Receiver)
    requires ValidReceiver(r) && Ahdlc.Sized(mem) && !r.ignore && !r.esc
    ensures Receive(mem, n, r, [0x7d, 0x7d]) == (r.(esc := true, ignore := true), [])
  {
    assert [0x7d, 0x7d] == [0x7d] + [0x7d];
    ReceiveConcat(mem, n, r, [0x7d], [0x7d]);
    ReceiveOne(mem, n, r, 0x7d);
    ReceiveOne(mem, n + 1, r.(esc := true), 0x7d);
  }

  lemma IgnoredToFlag(mem: Buffers, n: nat, r: Receiver, rest: seq<bv8>)
    requires ValidReceiver(r) && Ahdlc.Sized(mem) && r.ignore && 0x7e !in rest
    ensures Receive(mem, n, r, rest + [0x7e]) == (Receiver(false, 0, false, r.packet, INITIAL), [])
  {
    ReceiveConcat(mem, n, r, rest, [0x7e]);
    NoiseIsIgnored(mem, n, r, rest);
    ReceiveOne(mem, n + |rest|, r, 0x7e);
  }

  /** Two escapes in a row abort a frame: nothing of it is delivered at the flag that ends it. */
  lemma DoubleEscapeAborts(mem: Buffers, n: nat, r: Receiver, rest: seq<bv8>)
    requires ValidReceiver(r) && Ahdlc.Sized(mem) && !r.ignore && !r.esc && 0x7e !in rest
    ensures Receive(mem, n, r, [0x7d, 0x7d] + rest + [0x7e]) == (Receiver(false, 0, false, r.packet, INITIAL), [])
  {
    assert [0x7d, 0x7d] + rest + [0x7e] == [0x7d, 0x7d] + (rest + [0x7e]);
    ReceiveConcat(mem, n, r, [0x7d, 0x7d], rest + [0x7e]);
    EscapeEscape(mem, n, r);
    IgnoredToFlag(mem, n + 2, r.(esc := true, ignore := true), rest);
  }
}
