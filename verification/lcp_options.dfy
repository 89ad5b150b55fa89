/**
 Answering a Configure-Request: sections 5.1 to 5.4 of RFC 1661.

 The reply is built in one pass over the request's options, in the buffer it will be sent from: whenever an option
 deserves a worse answer than any before it, the reply so far is thrown away and starts again.
 */
module LcpOptions {
  type Byte = x: int | 0 <= x < 256

  datatype Usage = Ack | Nak | Rej

  predicate Worse(a: Usage, b: Usage) {
    (a.Nak? && b.Ack?) || (a.Rej? && !b.Rej?)
  }

  function Worst(a: Usage, b: Usage): Usage {
    if Worse(b, a) then b else a
  }

  function Code(u: Usage): Byte {
    match u
    case Ack => 2
    case Nak => 3
    case Rej => 4
  }

  /** What a peer makes of the code of a reply: sections 5.2 to 5.4 of RFC 1661. */
  function UsageOf(code: Byte): Usage
    requires 2 <= code <= 4
  {
    if code == 2 then Ack else if code == 3 then Nak else Rej
  }

  lemma CodeIsUnderstood(u: Usage)
    ensures 2 <= Code(u) <= 4 && UsageOf(Code(u)) == u
  {
  }

  const MRU: Byte := 1
  const ACCM: Byte := 2

  // ---------- the request ----------

  /** An option, or a header whose length field is impossible; nothing after such a header is looked at. */
  datatype Opt = Good(kind: Byte, body: seq<Byte>) | Bad(kind: Byte)

  function Options(buf: seq<Byte>): seq<Opt>
    decreases |buf|
  {
    if |buf| < 2 then []
    else
      var size := buf[1];
      if size > |buf| || size < 2 then [Bad(buf[0])]
      else [Good(buf[0], buf[2..size])] + Options(buf[size..])
  }

  function Encode(o: Opt): seq<Byte>
    requires o.Good? ==> |o.body| <= 253
  {
    match o
    case Good(kind, body) => [kind, |body| + 2] + body
    case Bad(kind) => [kind, 2]
  }

  /** The negotiated values, in network byte order. */
  datatype Settings = Settings(mru: seq<Byte>, accm: seq<Byte>)

  function Be16(b: seq<Byte>): nat
    requires |b| == 2
  {
    (b[0] as nat) * 256 + (b[1] as nat)
  }

  /** The low four bits are all set. */
  predicate Low4(b: Byte) {
    b % 16 == 15
  }

  /** The control characters that must stay escaped are all set in the map. */
  predicate Covers(accm: seq<Byte>)
    requires |accm| == 4
  {
    accm[0] == 0xff && Low4(accm[1]) && Low4(accm[2]) && Low4(accm[3])
  }

  predicate MruAgreeable(body: seq<Byte>) {
    |body| == 2 && (Be16(body) >= 64 || Be16(body) <= 1500)
  }

  predicate AccmAgreeable(body: seq<Byte>) {
    |body| == 4 && Covers(body)
  }

  function Verdict(o: Opt): Usage {
    match o
    case Bad(_) => Rej
    case Good(kind, body) =>
      if kind == MRU then (if MruAgreeable(body) then Ack else Nak)
      else if kind == ACCM then (if AccmAgreeable(body) then Ack else Nak)
      else Rej
  }

  /** An agreeable option takes effect at once, whatever becomes of the others. */
  function Settle(s: Settings, o: Opt): Settings {
    if !Verdict(o).Ack? then s
    else if o.kind == MRU then s.(mru := o.body)
    else s.(accm := o.body)
  }

  const ACCM_PROPOSAL: seq<Byte> := [0xff, 0x0f, 0x0f, 0x0f]

  /** What a counter-proposal is copied from: the proposed value, and whatever follows it in memory. */
  function Proposal(s: Settings, kind: Byte, beyond: seq<Byte>): seq<Byte> {
    (if kind == MRU then s.mru else ACCM_PROPOSAL) + beyond
  }

  /** The option as it appears in a reply. */
  function Answer(s: Settings, o: Opt, beyond: seq<Byte>): Opt
    requires |s.mru| == 2 && |beyond| >= 253 && (o.Good? ==> |o.body| <= 253)
  {
    if Verdict(o).Nak? then Good(o.kind, Proposal(s, o.kind, beyond)[..|o.body|]) else o
  }

  // ---------- the reply, in two passes ----------

  datatype Judged = Judged(usage: Usage, bytes: seq<Byte>)

  ghost predicate Sized(opts: seq<Opt>) {
    forall i | 0 <= i < |opts| :: opts[i].Good? ==> |opts[i].body| <= 253
  }

  ghost predicate Usable(s: Settings, beyond: seq<Byte>) {
    |s.mru| == 2 && |beyond| >= 253
  }

  ghost function Judge(s: Settings, o: Opt, beyond: seq<Byte>): Judged
    requires Usable(s, beyond) && (o.Good? ==> |o.body| <= 253)
  {
    Judged(Verdict(o), Encode(Answer(s, o, beyond)))
  }

  ghost function JudgeAll(s: Settings, opts: seq<Opt>, beyond: seq<Byte>): seq<Judged>
    requires Usable(s, beyond) && Sized(opts)
    decreases |opts|
  {
    if opts == [] then []
    else [Judge(s, opts[0], beyond)] + JudgeAll(Settle(s, opts[0]), opts[1..], beyond)
  }

  ghost function WorstOf(js: seq<Judged>): Usage
    decreases |js|
  {
    if js == [] then Ack else Worst(js[0].usage, WorstOf(js[1..]))
  }

  ghost function Keep(js: seq<Judged>, u: Usage): seq<Byte>
    decreases |js|
  {
    if js == [] then [] else (if js[0].usage == u then js[0].bytes else []) + Keep(js[1..], u)
  }

  // ---------- the reply, in one pass ----------

  ghost function Add(r: Judged, j: Judged): Judged {
    if Worse(j.usage, r.usage) then j
    else if j.usage == r.usage then Judged(r.usage, r.bytes + j.bytes)
    else r
  }

  ghost function AddAll(r: Judged, js: seq<Judged>): Judged
    decreases |js|
  {
    if js == [] then r else AddAll(Add(r, js[0]), js[1..])
  }

  lemma {:induction false} OnePassIsTwoPass(r: Judged, js: seq<Judged>)
    ensures var u := Worst(r.usage, WorstOf(js));
            AddAll(r, js) == Judged(u, (if r.usage == u then r.bytes else []) + Keep(js, u))
    decreases |js|
  {
    if js != [] {
      OnePassIsTwoPass(Add(r, js[0]), js[1..]);
    }
  }

  lemma {:induction false} OptionsAreSized(buf: seq<Byte>)
    ensures Sized(Options(buf))
    decreases |buf|
  {
    if |buf| >= 2 && 2 <= buf[1] <= |buf| {
      OptionsAreSized(buf[buf[1]..]);
    }
  }

  // ---------- what the reply means ----------

  lemma {:induction false} JudgedInOrder(s: Settings, opts: seq<Opt>, beyond: seq<Byte>)
    requires Usable(s, beyond) && Sized(opts)
    ensures |JudgeAll(s, opts, beyond)| == |opts|
    ensures forall i | 0 <= i < |opts| :: JudgeAll(s, opts, beyond)[i].usage == Verdict(opts[i])
    decreases |opts|
  {
    if opts != [] {
      JudgedInOrder(Settle(s, opts[0]), opts[1..], beyond);
    }
  }

  lemma {:induction false} WorstIsAttained(js: seq<Judged>)
    ensures forall i | 0 <= i < |js| :: !Worse(js[i].usage, WorstOf(js))
    ensures WorstOf(js).Ack? || exists i | 0 <= i < |js| :: js[i].usage == WorstOf(js)
    decreases |js|
  {
    if js != [] {
      WorstIsAttained(js[1..]);
      if !WorstOf(js).Ack? && js[0].usage != WorstOf(js) {
        var i :| 0 <= i < |js[1..]| && js[1..][i].usage == WorstOf(js[1..]);
        assert js[i + 1] == js[1..][i];
      }
    }
  }

  /** The request is acknowledged exactly when every option is agreeable, and rejected exactly when one must be. */
  lemma ReplyIsWorstAnswer(s: Settings, buf: seq<Byte>, beyond: seq<Byte>)
    requires Usable(s, beyond) && Sized(Options(buf))
    ensures var opts := Options(buf);
            var u := WorstOf(JudgeAll(s, opts, beyond));
            && (u.Ack? <==> forall i | 0 <= i < |opts| :: Verdict(opts[i]).Ack?)
            && (u.Rej? <==> exists i | 0 <= i < |opts| :: Verdict(opts[i]).Rej?)
  {
    var opts := Options(buf);
    JudgedInOrder(s, opts, beyond);
    WorstIsAttained(JudgeAll(s, opts, beyond));
  }

  lemma EncodeIsVerbatim(buf: seq<Byte>)
    requires |buf| >= 2 && 2 <= buf[1] <= |buf|
    ensures var n := buf[1]; Encode(Good(buf[0], buf[2..n])) == buf[..n]
  {
    var n := buf[1];
    assert buf[..n] == [buf[0], buf[1]] + buf[2..n];
  }

  /** The first option of a request and the rest of it. */
  lemma UnfoldRequest(s: Settings, buf: seq<Byte>, beyond: seq<Byte>) returns (o: Opt, rest: seq<Byte>)
    requires Usable(s, beyond) && Sized(Options(buf)) && |buf| >= 2 && 2 <= buf[1] <= |buf|
    ensures o == Good(buf[0], buf[2..buf[1]]) && rest == buf[buf[1]..]
    ensures Options(buf) == [o] + Options(rest) && Sized(Options(rest))
    ensures JudgeAll(s, Options(buf), beyond) == [Judge(s, o, beyond)] + JudgeAll(Settle(s, o), Options(rest), beyond)
  {
    o, rest := Good(buf[0], buf[2..buf[1]]), buf[buf[1]..];
    assert Options(buf)[1..] == Options(rest);
  }

  lemma KeepHead(j: Judged, js: seq<Judged>)
    ensures WorstOf([j] + js) == Worst(j.usage, WorstOf(js))
    ensures forall u :: Keep([j] + js, u) == (if j.usage == u then j.bytes else []) + Keep(js, u)
  {
    assert ([j] + js)[1..] == js;
  }

  lemma Rejoin(buf: seq<Byte>, n: nat, r: seq<Byte>)
    requires n <= |buf| && r <= buf[n..]
    ensures buf[..n] + r == buf[..n + |r|]
  {
  }

  /** A Configure-Ack repeats the request byte for byte; only a lone byte at its end is dropped. */
  lemma {:induction false} AckRepeatsRequest(s: Settings, buf: seq<Byte>, beyond: seq<Byte>)
    requires Usable(s, beyond) && Sized(Options(buf))
    requires WorstOf(JudgeAll(s, Options(buf), beyond)).Ack?
    ensures var r := Keep(JudgeAll(s, Options(buf), beyond), Ack);
            |buf| - 1 <= |r| <= |buf| && r == buf[..|r|]
    decreases |buf|
  {
    if |buf| >= 2 {
      if 2 <= buf[1] <= |buf| {
        var n := buf[1];
        var o, rest := UnfoldRequest(s, buf, beyond);
        AckRepeatsRequest(Settle(s, o), rest, beyond);
        EncodeIsVerbatim(buf);
        KeepHead(Judge(s, o, beyond), JudgeAll(Settle(s, o), Options(rest), beyond));
        Rejoin(buf, n, Keep(JudgeAll(Settle(s, o), Options(rest), beyond), Ack));
      } else {
        assert Options(buf)[0] == Bad(buf[0]);
      }
    }
  }

  /** The options this end does not know, as they stood in the request. */
  ghost function Unknown(opts: seq<Opt>): seq<Byte>
    requires Sized(opts)
    decreases |opts|
  {
    if opts == [] then []
    else
      (if opts[0].Bad? || (opts[0].kind != MRU && opts[0].kind != ACCM) then Encode(opts[0]) else [])
      + Unknown(opts[1..])
  }

  /** A Configure-Reject lists exactly the unknown options, in order and unchanged. */
  lemma {:induction false} RejectListsUnknown(s: Settings, opts: seq<Opt>, beyond: seq<Byte>)
    requires Usable(s, beyond) && Sized(opts)
    ensures Keep(JudgeAll(s, opts, beyond), Rej) == Unknown(opts)
    decreases |opts|
  {
    if opts != [] {
      RejectListsUnknown(Settle(s, opts[0]), opts[1..], beyond);
    }
  }

  lemma JudgeKeepsSize(s: Settings, o: Opt, beyond: seq<Byte>)
    requires Usable(s, beyond) && (o.Good? ==> |o.body| <= 253)
    ensures |Judge(s, o, beyond).bytes| == 2 + (if o.Good? then |o.body| else 0)
  {
  }

  /** A reply is never longer than its request. */
  lemma {:induction false} ReplyFits(s: Settings, buf: seq<Byte>, beyond: seq<Byte>, u: Usage)
    requires Usable(s, beyond) && Sized(Options(buf))
    ensures |Keep(JudgeAll(s, Options(buf), beyond), u)| <= |buf|
    decreases |buf|
  {
    if |buf| >= 2 {
      if 2 <= buf[1] <= |buf| {
        var o, rest := UnfoldRequest(s, buf, beyond);
        JudgeKeepsSize(s, o, beyond);
        ReplyFits(Settle(s, o), rest, beyond, u);
      } else {
        JudgeKeepsSize(s, Bad(buf[0]), beyond);
        assert Options(buf) == [Bad(buf[0])];
        assert JudgeAll(s, Options(buf), beyond)[1..] == [];
      }
    }
  }

  /** An option this end knows, of the length its kind calls for. */
  ghost predicate Regular(o: Opt) {
    o.Good? && ((o.kind == MRU && |o.body| == 2) || (o.kind == ACCM && |o.body| == 4))
  }

  /** A counter-proposal has the length of what it answers, so it is agreeable exactly when that length was right. */
  lemma ProposalIsAgreeable(s: Settings, o: Opt, beyond: seq<Byte>)
    requires Usable(s, beyond) && (o.Good? ==> |o.body| <= 253) && Verdict(o).Nak?
    ensures Answer(s, o, beyond).Good? && |Answer(s, o, beyond).body| == |o.body|
    ensures Verdict(Answer(s, o, beyond)).Ack? <==> Regular(o)
  {
    assert Proposal(s, ACCM, beyond)[..4] == ACCM_PROPOSAL;
  }

  /** An MRU of the wrong length is answered with the one in force, followed by whatever lies behind it. */
  lemma MruProposal(s: Settings, body: seq<Byte>, beyond: seq<Byte>)
    requires Usable(s, beyond) && |body| <= 253 && |body| != 2
    ensures var j := Judge(s, Good(MRU, body), beyond);
            j.usage.Nak? && j.bytes == [1, |body| + 2] + (s.mru + beyond)[..|body|]
  {
  }

  lemma OptionsOfEncoded(o: Opt, rest: seq<Byte>)
    requires o.Good? && |o.body| <= 253
    ensures Options(Encode(o) + rest) == [o] + Options(rest)
  {
    var buf := Encode(o) + rest;
    var n := |o.body| + 2;
    assert buf[1] == n;
    assert buf[2..n] == o.body && buf[n..] == rest;
  }

  ghost predicate AllAgreeable(opts: seq<Opt>) {
    forall i | 0 <= i < |opts| :: Verdict(opts[i]).Ack?
  }

  lemma OneMoreAgreeable(o: Opt, opts: seq<Opt>)
    ensures AllAgreeable([o] + opts) <==> Verdict(o).Ack? && AllAgreeable(opts)
  {
    var all := [o] + opts;
    assert all[0] == o && forall i | 0 <= i < |opts| :: all[i + 1] == opts[i];
  }

  /** Every option that calls for a counter-proposal has the length its kind calls for. */
  ghost predicate NakedAreRegular(opts: seq<Opt>) {
    forall i | 0 <= i < |opts| :: Verdict(opts[i]).Nak? ==> Regular(opts[i])
  }

  lemma NakedAreRegularSplit(opts: seq<Opt>)
    requires opts != []
    ensures NakedAreRegular(opts) <==> (Verdict(opts[0]).Nak? ==> Regular(opts[0])) && NakedAreRegular(opts[1..])
  {
    assert forall i | 0 < i < |opts| :: opts[i] == opts[1..][i - 1];
  }

  /**
   A peer that asks again with what a Configure-Nak proposed is acknowledged exactly when no option of its request had
   the wrong length for its kind.
   */
  lemma {:induction false} NakedOptionsAreAgreeable(s: Settings, opts: seq<Opt>, beyond: seq<Byte>)
    requires Usable(s, beyond) && Sized(opts)
    ensures AllAgreeable(Options(Keep(JudgeAll(s, opts, beyond), Nak))) <==> NakedAreRegular(opts)
    decreases |opts|
  {
    if opts == [] {
      assert Options(Keep(JudgeAll(s, opts, beyond), Nak)) == [];
    } else {
      var o, t := opts[0], Settle(s, opts[0]);
      NakedOptionsAreAgreeable(t, opts[1..], beyond);
      NakedAreRegularSplit(opts);
      var rest := Keep(JudgeAll(t, opts[1..], beyond), Nak);
      KeepHead(Judge(s, o, beyond), JudgeAll(t, opts[1..], beyond));
      if Verdict(o).Nak? {
        var again := Answer(s, o, beyond);
        ProposalIsAgreeable(s, o, beyond);
        OptionsOfEncoded(again, rest);
        OneMoreAgreeable(again, Options(rest));
        assert Keep(JudgeAll(s, opts, beyond), Nak) == Encode(again) + rest;
      } else {
        assert Keep(JudgeAll(s, opts, beyond), Nak) == rest;
      }
    }
  }

  /**
   A request for an MRU in three bytes: asking again with what the Configure-Nak proposes is answered with another.
   */
  lemma WrongLengthIsNakedAgain(s: Settings, beyond: seq<Byte>)
    requires Usable(s, beyond)
    ensures var opts := Options([MRU, 5, 0, 0, 0]);
            && Sized(opts) && WorstOf(JudgeAll(s, opts, beyond)).Nak?
            && var again := Options(Keep(JudgeAll(s, opts, beyond), Nak));
               Sized(again) && WorstOf(JudgeAll(s, again, beyond)).Nak?
  {
    var buf: seq<Byte> := [MRU, 5, 0, 0, 0];
    var o := Good(MRU, [0, 0, 0]);
    assert buf[2..5] == o.body && buf[5..] == [];
    assert Options(buf) == [o];
    OneOptionReply(s, o, beyond);
    ProposalIsAgreeable(s, o, beyond);
    OneOptionReply(s, Answer(s, o, beyond), beyond);
  }

  lemma OneOptionReply(s: Settings, o: Opt, beyond: seq<Byte>)
    requires Usable(s, beyond) && o.Good? && |o.body| <= 253 && Verdict(o).Nak?
    ensures var js := JudgeAll(s, [o], beyond); WorstOf(js).Nak? && Options(Keep(js, Nak)) == [Answer(s, o, beyond)]
  {
    var js, again := JudgeAll(s, [o], beyond), Answer(s, o, beyond);
    assert js == [Judge(s, o, beyond)] && js[1..] == [];
    assert Keep(js, Nak) == Encode(again) + [];
    ProposalIsAgreeable(s, o, beyond);
    OptionsOfEncoded(again, []);
    assert Options([]) == [];
  }

  // ---------- building the reply in place ----------

  ghost function SettleAll(s: Settings, opts: seq<Opt>): Settings
    decreases |opts|
  {
    if opts == [] then s else SettleAll(Settle(s, opts[0]), opts[1..])
  }

  // ---------- the negotiated MRU ----------

  /** What the range test on a requested MRU is meant to keep to. */
  predicate InRange(mru: seq<Byte>) {
    |mru| == 2 && 64 <= Be16(mru) <= 1500
  }

  /** The range test joins its bounds with "or": any two bytes pass it. */
  lemma MruTestIsLength(body: seq<Byte>)
    ensures MruAgreeable(body) <==> |body| == 2
  {
  }

  predicate AsksMru(o: Opt) {
    o.Good? && o.kind == MRU && |o.body| == 2
  }

  /** Option k is the last that asks for an MRU in two bytes. */
  ghost predicate LastToAsk(opts: seq<Opt>, k: nat) {
    k < |opts| && AsksMru(opts[k]) && forall i | k < i < |opts| :: !AsksMru(opts[i])
  }

  lemma {:induction false} MruIsKept(s: Settings, opts: seq<Opt>)
    requires forall i | 0 <= i < |opts| :: !AsksMru(opts[i])
    ensures SettleAll(s, opts).mru == s.mru
    decreases |opts|
  {
    if opts != [] {
      MruIsKept(Settle(s, opts[0]), opts[1..]);
    }
  }

  lemma {:induction false} MruIsLast(s: Settings, opts: seq<Opt>, k: nat)
    requires LastToAsk(opts, k)
    ensures SettleAll(s, opts).mru == opts[k].body
    decreases k
  {
    var t := Settle(s, opts[0]);
    if k == 0 {
      MruTestIsLength(opts[0].body);
      MruIsKept(t, opts[1..]);
    } else {
      MruIsLast(t, opts[1..], k - 1);
    }
  }

  /**
   After a request the MRU is in range exactly when the last one it asks for in two bytes is; if it asks for none,
   exactly when it was in range before.
   */
  lemma MruInRangeExactly(s: Settings, buf: seq<Byte>)
    ensures var opts := Options(buf);
            forall k: nat | LastToAsk(opts, k) :: InRange(SettleAll(s, opts).mru) <==> InRange(opts[k].body)
    ensures var opts := Options(buf);
            (forall i | 0 <= i < |opts| :: !AsksMru(opts[i])) ==> (InRange(SettleAll(s, opts).mru) <==> InRange(s.mru))
  {
    var opts := Options(buf);
    forall k: nat | LastToAsk(opts, k) ensures SettleAll(s, opts).mru == opts[k].body {
      MruIsLast(s, opts, k);
    }
    if forall i | 0 <= i < |opts| :: !AsksMru(opts[i]) {
      MruIsKept(s, opts);
    }
  }

  /** A request for an MRU of one byte is acknowledged and takes effect. */
  lemma TinyMruIsAcknowledged(s: Settings, beyond: seq<Byte>)
    requires Usable(s, beyond)
    ensures var opts := Options([MRU, 4, 0, 1]);
            && Sized(opts) && WorstOf(JudgeAll(s, opts, beyond)).Ack?
            && SettleAll(s, opts).mru == [0, 1] && !InRange(SettleAll(s, opts).mru)
  {
    var buf: seq<Byte> := [MRU, 4, 0, 1];
    var o := Good(MRU, [0, 1]);
    assert buf[2..4] == [0, 1] && buf[4..] == [];
    assert Options(buf) == [o] + Options([]);
    var opts := Options(buf);
    assert opts == [o] && opts[1..] == [];
    assert SettleAll(Settle(s, o), opts[1..]) == Settle(s, o);
    JudgedInOrder(s, opts, beyond);
    WorstIsAttained(JudgeAll(s, opts, beyond));
  }

  lemma StepOverBad(r: Judged, s: Settings, buf: seq<Byte>, beyond: seq<Byte>)
    requires Usable(s, beyond) && Sized(Options(buf)) && |buf| >= 2 && !(2 <= buf[1] <= |buf|)
    ensures AddAll(r, JudgeAll(s, Options(buf), beyond)) == Add(r, Judged(Rej, [buf[0], 2]))
    ensures SettleAll(s, Options(buf)) == s
  {
    var opts := Options(buf);
    var js := JudgeAll(s, opts, beyond);
    assert opts == [Bad(buf[0])] && opts[1..] == [];
    assert JudgeAll(Settle(s, opts[0]), opts[1..], beyond) == [];
    assert Judge(s, Bad(buf[0]), beyond) == Judged(Rej, [buf[0], 2]);
    assert js == [Judged(Rej, [buf[0], 2])] && js[1..] == [];
    assert AddAll(Add(r, js[0]), js[1..]) == Add(r, js[0]);
    assert SettleAll(s, opts[1..]) == s;
  }

  lemma StepOverGood(r: Judged, s: Settings, buf: seq<Byte>, beyond: seq<Byte>)
    requires Usable(s, beyond) && Sized(Options(buf)) && |buf| >= 2 && 2 <= buf[1] <= |buf|
    ensures var o, rest := Good(buf[0], buf[2..buf[1]]), buf[buf[1]..];
            && Sized(Options(rest))
            && AddAll(r, JudgeAll(s, Options(buf), beyond))
               == AddAll(Add(r, Judge(s, o, beyond)), JudgeAll(Settle(s, o), Options(rest), beyond))
            && SettleAll(s, Options(buf)) == SettleAll(Settle(s, o), Options(rest))
  {
    var o, rest := UnfoldRequest(s, buf, beyond);
    assert ([o] + Options(rest))[1..] == Options(rest);
    var js := JudgeAll(Settle(s, o), Options(rest), beyond);
    assert ([Judge(s, o, beyond)] + js)[1..] == js;
  }

  lemma JudgeIs(s: Settings, kind: Byte, body: seq<Byte>, beyond: seq<Byte>)
    requires Usable(s, beyond) && |body| <= 253
    ensures var v := Verdict(Good(kind, body));
            && (v.Nak? ==>
                  Judge(s, Good(kind, body), beyond) ==
                      Judged(v, [kind, |body| + 2] + Proposal(s, kind, beyond)[..|body|]))
            && (!v.Nak? ==> Judge(s, Good(kind, body), beyond) == Judged(v, [kind, |body| + 2] + body[..|body|]))
  {
    assert body[..|body|] == body;
  }

  class Negotiator {
    var mru: seq<Byte>
    var accm: seq<Byte>
    var parseState: Usage
    const send: array<Byte>
    var size: nat

    constructor ()
      ensures send.Length == 1500 && fresh(send) && mru == [0x05, 0xdc] && accm == [0xff, 0xff, 0xff, 0xff]
    {
      mru, accm, parseState, size := [0x05, 0xdc], [0xff, 0xff, 0xff, 0xff], Ack, 0;
      send := new Byte[1500](_ => 0);
    }

    ghost function View(): Settings
      reads this
    {
      Settings(mru, accm)
    }

    /** The reply up to position `p`. */
    ghost function SoFar(p: nat): Judged
      requires 4 <= p <= send.Length
      reads this, send
    {
      Judged(parseState, send[4..p])
    }

    method Append(p: nat, opt: Byte, optsz: Byte, optbuf: seq<Byte>) returns (q: nat)
      requires optsz >= 2 && |optbuf| >= optsz - 2 && 4 <= p && p + optsz <= send.Length
      modifies send
      ensures q == p + optsz && send[0] == old(send[0]) && send[1] == old(send[1])
      ensures send[4..q] == old(send[4..p]) + ([opt, optsz] + optbuf[..optsz - 2])
    {
      ghost var start := send[4..p];
      send[p] := opt;
      send[p + 1] := optsz;
      var n := optsz - 2;
      for i := 0 to n
        invariant send[0] == old(send[0]) && send[1] == old(send[1])
        invariant send[4..p + 2] == start + [opt, optsz]
        invariant send[p + 2..p + 2 + i] == optbuf[..i]
      {
        send[p + 2 + i] := optbuf[i];
      }
      q := p + optsz;
      assert send[4..q] == send[4..p + 2] + send[p + 2..q];
    }

    method FrameRej(p: nat, opt: Byte, optsz: Byte, optbuf: seq<Byte>) returns (q: nat)
      requires send.Length == 1500 && send[0] == Code(parseState)
      requires optsz >= 2 && |optbuf| >= optsz - 2 && 4 <= p && p + optsz <= send.Length
      modifies this`parseState, send
      ensures 4 <= q <= p + optsz && send[0] == Code(parseState) && send[1] == old(send[1])
      ensures SoFar(q) == Add(old(SoFar(p)), Judged(Rej, [opt, optsz] + optbuf[..optsz - 2]))
    {
      q := p;
      if !parseState.Rej? {
        send[0] := Code(Rej);
        q := 4;
        parseState := Rej;
      }
      q := Append(q, opt, optsz, optbuf);
    }

    method FrameNak(p: nat, opt: Byte, optsz: Byte, optbuf: seq<Byte>) returns (q: nat)
      requires send.Length == 1500 && send[0] == Code(parseState)
      requires optsz >= 2 && |optbuf| >= optsz - 2 && 4 <= p && p + optsz <= send.Length
      modifies this`parseState, send
      ensures 4 <= q <= p + optsz && send[0] == Code(parseState) && send[1] == old(send[1])
      ensures SoFar(q) == Add(old(SoFar(p)), Judged(Nak, [opt, optsz] + optbuf[..optsz - 2]))
    {
      q := p;
      if parseState.Ack? {
        send[0] := Code(Nak);
        q := 4;
        parseState := Nak;
      }
      if !parseState.Rej? {
        q := Append(q, opt, optsz, optbuf);
      }
    }

    method FrameAck(p: nat, opt: Byte, optsz: Byte, optbuf: seq<Byte>) returns (q: nat)
      requires send.Length == 1500 && send[0] == Code(parseState)
      requires optsz >= 2 && |optbuf| >= optsz - 2 && 4 <= p && p + optsz <= send.Length
      modifies this`parseState, send
      ensures 4 <= q <= p + optsz && send[0] == Code(parseState) && send[1] == old(send[1])
      ensures SoFar(q) == Add(old(SoFar(p)), Judged(Ack, [opt, optsz] + optbuf[..optsz - 2]))
    {
      q := p;
      if parseState.Ack? {
        q := Append(q, opt, optsz, optbuf);
      }
    }

    /** One well-sized option of a request. */
    method CheckOption(p: nat, opt: Byte, optsz: Byte, optbuf: seq<Byte>, beyond: seq<Byte>) returns (q: nat)
      requires send.Length == 1500 && send[0] == Code(parseState) && Usable(View(), beyond)
      requires optsz >= 2 && |optbuf| == optsz - 2 && 4 <= p && p + optsz <= send.Length
      modifies this, send
      ensures 4 <= q <= p + optsz && send[0] == Code(parseState) && send[1] == old(send[1])
      ensures SoFar(q) == Add(old(SoFar(p)), Judge(old(View()), Good(opt, optbuf), beyond))
      ensures View() == Settle(old(View()), Good(opt, optbuf)) && Usable(View(), beyond)
    {
      JudgeIs(View(), opt, optbuf, beyond);
      if opt == MRU {
        if MruAgreeable(optbuf) {
          q := FrameAck(p, opt, optsz, optbuf);
          mru := optbuf;
        } else {
          q := FrameNak(p, opt, optsz, mru + beyond);
        }
      } else if opt == ACCM {
        if AccmAgreeable(optbuf) {
          q := FrameAck(p, opt, optsz, optbuf);
          accm := optbuf;
        } else {
          q := FrameNak(p, opt, optsz, ACCM_PROPOSAL + beyond);
        }
      } else {
        q := FrameRej(p, opt, optsz, optbuf);
      }
    }

    /** What is left of the request will bring the reply to `goal` and the settings to `settled`. */
    ghost predicate Remaining(p: nat, rest: seq<Byte>, beyond: seq<Byte>, goal: Judged, settled: Settings)
      reads this, send
    {
      && 4 <= p <= send.Length && Usable(View(), beyond) && Sized(Options(rest))
      && goal == AddAll(SoFar(p), JudgeAll(View(), Options(rest), beyond))
      && settled == SettleAll(View(), Options(rest))
    }

    /** The well-sized option at the start of `rest`. */
    method CheckNext(p: nat, rest: seq<Byte>, beyond: seq<Byte>, ghost goal: Judged, ghost settled: Settings)
      returns (q: nat)
      requires send.Length == 1500 && send[0] == Code(parseState) && Remaining(p, rest, beyond, goal, settled)
      requires |rest| >= 2 && 2 <= rest[1] <= |rest| && p + rest[1] <= 1500
      modifies this, send
      ensures 4 <= q <= p + rest[1] && send[0] == Code(parseState) && send[1] == old(send[1])
      ensures Remaining(q, rest[rest[1]..], beyond, goal, settled)
    {
      StepOverGood(SoFar(p), View(), rest, beyond);
      q := CheckOption(p, rest[0], rest[1], rest[2..rest[1]], beyond);
    }

    /** A header with an impossible length. */
    method CheckBad(p: nat, rest: seq<Byte>, beyond: seq<Byte>, ghost goal: Judged, ghost settled: Settings)
      returns (q: nat)
      requires send.Length == 1500 && send[0] == Code(parseState) && Remaining(p, rest, beyond, goal, settled)
      requires |rest| >= 2 && !(2 <= rest[1] <= |rest|) && p + 2 <= 1500
      modifies this, send
      ensures 4 <= q <= send.Length && send[0] == Code(parseState) && send[1] == old(send[1])
      ensures SoFar(q) == goal && View() == settled
    {
      StepOverBad(SoFar(p), View(), rest, beyond);
      q := FrameRej(p, rest[0], 2, []);
    }

    /** The options of a request, from its first byte; stops at an impossible length. */
    method CheckOptions(buf: seq<Byte>, beyond: seq<Byte>, ghost goal: Judged, ghost settled: Settings)
      returns (p: nat)
      requires send.Length == 1500 && |buf| + 4 <= 1500 && send[0] == Code(parseState)
      requires Remaining(4, buf, beyond, goal, settled)
      modifies this, send
      ensures 4 <= p <= send.Length && send[0] == Code(parseState) && send[1] == old(send[1])
      ensures SoFar(p) == goal && View() == settled
    {
      var rest := buf;
      p := 4;
      while |rest| >= 2
        invariant 4 <= p && p + |rest| <= |buf| + 4
        invariant send[0] == Code(parseState) && send[1] == old(send[1])
        invariant Remaining(p, rest, beyond, goal, settled)
        decreases |rest|
      {
        var optsz := rest[1];
        if optsz > |rest| || optsz < 2 {
          p := CheckBad(p, rest, beyond, goal, settled);
          return;
        }
        p := CheckNext(p, rest, beyond, goal, settled);
        rest := rest[optsz..];
      }
    }

    /** Write the length of the reply into its header. */
    method StampLength(n: nat)
      requires send.Length == 1500 && 4 <= n <= 1500
      modifies send
      ensures send[..n] == [old(send[0]), old(send[1]), n / 256, n % 256] + old(send[4..n])
    {
      ghost var r := send[4..n];
      send[2], send[3] := n / 256, n % 256;
      assert send[4..n] == r;
    }

    method CheckRequest(buf: seq<Byte>, id: Byte, beyond: seq<Byte>)
      requires send.Length == 1500 && |buf| + 4 <= 1500 && Usable(View(), beyond)
      modifies this, send
      ensures Sized(Options(buf)) && View() == SettleAll(old(View()), Options(buf))
      ensures var js := JudgeAll(old(View()), Options(buf), beyond);
              var u := WorstOf(js);
              parseState == u && size == 4 + |Keep(js, u)| && size <= 1500
              && send[..size] == [Code(u), id, size / 256, size % 256] + Keep(js, u)
    {
      OptionsAreSized(buf);
      OnePassIsTwoPass(Judged(Ack, []), JudgeAll(View(), Options(buf), beyond));
      parseState := Ack;
      send[0], send[1], send[2], send[3] := Code(Ack), id, 0, 4;
      ghost var goal := AddAll(Judged(Ack, []), JudgeAll(View(), Options(buf), beyond));
      assert SoFar(4) == Judged(Ack, []);
      size := CheckOptions(buf, beyond, goal, SettleAll(View(), Options(buf)));
      StampLength(size);
    }
  }
}
