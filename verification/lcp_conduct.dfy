/**
 How an LCP instance conducts itself: its table against that of section 4.1 of RFC 1661, and what every packet, every
 timeout and every request of the administrator makes it send.
 */
module LcpConduct {
  import opened Collections
  import opened Lcp

  // ---------- the table of RFC 1661 ----------

  /** A cell of the table: actions and the number of the next state, or a dash where the event cannot happen. */
  datatype Cell = Cell(actions: seq<Action>, next: nat) | Dash

  /** Section 4.1 of RFC 1661, column by column. */
  function RfcCell(s: LinkState, e: Event): Cell {
    match s
    case Initial => (match e
                     case Up => Cell([], 2)
                     case Open => Cell([Tls], 1)
                     case Close => Cell([], 0)
                     case _ => Dash)
    case Starting => (match e
                      case Up => Cell([Irc, Scr], 6)
                      case Open => Cell([], 1)
                      case Close => Cell([Tlf], 0)
                      case _ => Dash)
    case Closed => (match e
                    case Up => Dash
                    case Down => Cell([], 0)
                    case Open => Cell([Irc, Scr], 6)
                    case Close => Cell([], 2)
                    case TimeoutPlus => Dash
                    case TimeoutMinus => Dash
                    case RcrPlus => Cell([Sta], 2)
                    case RcrMinus => Cell([Sta], 2)
                    case Rca => Cell([Sta], 2)
                    case Rcn => Cell([Sta], 2)
                    case Rtr => Cell([Sta], 2)
                    case Rta => Cell([], 2)
                    case Ruc => Cell([Scj], 2)
                    case RxjPlus => Cell([], 2)
                    case RxjMinus => Cell([Tlf], 2)
                    case Rxr => Cell([], 2))
    case Stopped => (match e
                     case Up => Dash
                     case Down => Cell([Tls], 1)
                     case Open => Cell([], 3)
                     case Close => Cell([], 2)
                     case TimeoutPlus => Dash
                     case TimeoutMinus => Dash
                     case RcrPlus => Cell([Irc, Scr, Sca], 8)
                     case RcrMinus => Cell([Irc, Scr, Scn], 6)
                     case Rca => Cell([Sta], 3)
                     case Rcn => Cell([Sta], 3)
                     case Rtr => Cell([Sta], 3)
                     case Rta => Cell([], 3)
                     case Ruc => Cell([Scj], 3)
                     case RxjPlus => Cell([], 3)
                     case RxjMinus => Cell([Tlf], 3)
                     case Rxr => Cell([], 3))
    case Closing => (match e
                     case Up => Dash
                     case Down => Cell([], 0)
                     case Open => Cell([], 5)
                     case Close => Cell([], 4)
                     case TimeoutPlus => Cell([Str], 4)
                     case TimeoutMinus => Cell([Tlf], 2)
                     case RcrPlus => Cell([], 4)
                     case RcrMinus => Cell([], 4)
                     case Rca => Cell([], 4)
                     case Rcn => Cell([], 4)
                     case Rtr => Cell([Sta], 4)
                     case Rta => Cell([Tlf], 2)
                     case Ruc => Cell([Scj], 4)
                     case RxjPlus => Cell([], 4)
                     case RxjMinus => Cell([Tlf], 2)
                     case Rxr => Cell([], 4))
    case Stopping => (match e
                      case Up => Dash
                      case Down => Cell([], 1)
                      case Open => Cell([], 5)
                      case Close => Cell([], 4)
                      case TimeoutPlus => Cell([Str], 5)
                      case TimeoutMinus => Cell([Tlf], 3)
                      case RcrPlus => Cell([], 5)
                      case RcrMinus => Cell([], 5)
                      case Rca => Cell([], 5)
                      case Rcn => Cell([], 5)
                      case Rtr => Cell([Sta], 5)
                      case Rta => Cell([Tlf], 3)
                      case Ruc => Cell([Scj], 5)
                      case RxjPlus => Cell([], 5)
                      case RxjMinus => Cell([Tlf], 3)
                      case Rxr => Cell([], 5))
    case ReqSent => (match e
                     case Up => Dash
                     case Down => Cell([], 1)
                     case Open => Cell([], 6)
                     case Close => Cell([Irc, Str], 4)
                     case TimeoutPlus => Cell([Scr], 6)
                     case TimeoutMinus => Cell([Tlf], 3)
                     case RcrPlus => Cell([Sca], 8)
                     case RcrMinus => Cell([Scn], 6)
                     case Rca => Cell([Irc], 7)
                     case Rcn => Cell([Irc, Scr], 6)
                     case Rtr => Cell([Sta], 6)
                     case Rta => Cell([], 6)
                     case Ruc => Cell([Scj], 6)
                     case RxjPlus => Cell([], 6)
                     case RxjMinus => Cell([Tlf], 3)
                     case Rxr => Cell([], 6))
    case AckRcvd => (match e
                     case Up => Dash
                     case Down => Cell([], 1)
                     case Open => Cell([], 7)
                     case Close => Cell([Irc, Str], 4)
                     case TimeoutPlus => Cell([Scr], 6)
                     case TimeoutMinus => Cell([Tlf], 3)
                     case RcrPlus => Cell([Sca, Tlu], 9)
                     case RcrMinus => Cell([Scn], 7)
                     case Rca => Cell([Scr], 6)
                     case Rcn => Cell([Scr], 6)
                     case Rtr => Cell([Sta], 6)
                     case Rta => Cell([], 6)
                     case Ruc => Cell([Scj], 7)
                     case RxjPlus => Cell([], 6)
                     case RxjMinus => Cell([Tlf], 3)
                     case Rxr => Cell([], 7))
    case AckSent => (match e
                     case Up => Dash
                     case Down => Cell([], 1)
                     case Open => Cell([], 8)
                     case Close => Cell([Irc, Str], 4)
                     case TimeoutPlus => Cell([Scr], 8)
                     case TimeoutMinus => Cell([Tlf], 3)
                     case RcrPlus => Cell([Sca], 8)
                     case RcrMinus => Cell([Scn], 6)
                     case Rca => Cell([Irc, Tlu], 9)
                     case Rcn => Cell([Irc, Scr], 8)
                     case Rtr => Cell([Sta], 6)
                     case Rta => Cell([], 8)
                     case Ruc => Cell([Scj], 8)
                     case RxjPlus => Cell([], 8)
                     case RxjMinus => Cell([Tlf], 3)
                     case Rxr => Cell([], 8))
    case Opened => (match e
                    case Up => Dash
                    case Down => Cell([Tld], 1)
                    case Open => Cell([], 9)
                    case Close => Cell([Tld, Irc, Str], 4)
                    case TimeoutPlus => Dash
                    case TimeoutMinus => Dash
                    case RcrPlus => Cell([Tld, Scr, Sca], 8)
                    case RcrMinus => Cell([Tld, Scr, Scn], 6)
                    case Rca => Cell([Tld, Scr], 6)
                    case Rcn => Cell([Tld, Scr], 6)
                    case Rtr => Cell([Tld, Zrc, Sta], 5)
                    case Rta => Cell([Tld, Scr], 6)
                    case Ruc => Cell([Scj], 9)
                    case RxjPlus => Cell([], 9)
                    case RxjMinus => Cell([Tld, Irc, Str], 5)
                    case Rxr => Cell([Ser], 9))
  }

  /** The number that the RFC gives a state. */
  function Number(s: LinkState): nat {
    match s
    case Initial => 0
    case Starting => 1
    case Closed => 2
    case Stopped => 3
    case Closing => 4
    case Stopping => 5
    case ReqSent => 6
    case AckRcvd => 7
    case AckSent => 8
    case Opened => 9
  }

  /** The actions that the RFC names, which a compound action consists of. */
  function Expand(a: Action): seq<Action> {
    match a
    case NoAction => []
    case TldScr => [Tld, Scr]
    case IrcTlu => [Irc, Tlu]
    case IrcScr => [Irc, Scr]
    case IrcStr => [Irc, Str]
    case ScaTlu => [Sca, Tlu]
    case TldIrcStr => [Tld, Irc, Str]
    case TldScrSca => [Tld, Scr, Sca]
    case TldScrScn => [Tld, Scr, Scn]
    case TldZrcSta => [Tld, Zrc, Sta]
    case IrcScrSca => [Irc, Scr, Sca]
    case IrcScrScn => [Irc, Scr, Scn]
    case _ => [a]
  }

  ghost predicate SameCell(e: Event, s: LinkState) {
    var (a, next) := Transition(e, s);
    match RfcCell(s, e)
    case Cell(actions, n) => Expand(a) == actions && Number(next) == n
    case Dash => a.NoAction? && next == s
  }

  lemma TableIsRfcAtRest(e: Event, s: LinkState)
    requires Number(s) <= 4
    ensures SameCell(e, s)
  {
  }

  lemma TableIsRfcInNegotiation(e: Event, s: LinkState)
    requires 4 < Number(s) <= 7
    ensures SameCell(e, s)
  {
  }

  lemma TableIsRfcNearTheEnd(e: Event, s: LinkState)
    requires Number(s) > 7
    ensures SameCell(e, s)
  {
  }

  /** The table of the code is that of the RFC; where the RFC has a dash, nothing happens. */
  lemma TableIsRfc1661(e: Event, s: LinkState)
    ensures var (a, next) := Transition(e, s);
            match RfcCell(s, e)
            case Cell(actions, n) => Expand(a) == actions && Number(next) == n
            case Dash => a.NoAction? && next == s
  {
    if Number(s) <= 4 {
      TableIsRfcAtRest(e, s);
    } else if Number(s) <= 7 {
      TableIsRfcInNegotiation(e, s);
    } else {
      TableIsRfcNearTheEnd(e, s);
    }
  }

  function DoAll(l: Lcp, actions: seq<Action>): Lcp
    decreases |actions|
  {
    if actions == [] then l else DoAll(Do(l, actions[0]), actions[1..])
  }

  lemma DoTwo(l: Lcp, a: Action, b: Action)
    ensures DoAll(l, [a, b]) == Do(Do(l, a), b)
  {
    assert [a, b][1..] == [b] && [b][1..] == [];
    assert DoAll(Do(l, a), [b]) == Do(Do(l, a), b);
  }

  lemma DoThree(l: Lcp, a: Action, b: Action, c: Action)
    ensures DoAll(l, [a, b, c]) == Do(Do(Do(l, a), b), c)
  {
    assert [a, b, c][1..] == [b, c];
    DoTwo(Do(l, a), b, c);
  }

  /** A compound action does what it consists of, in order. */
  lemma DoIsInOrder(l: Lcp, a: Action)
    ensures Do(l, a) == DoAll(l, Expand(a))
  {
    var parts := Expand(a);
    if |parts| == 1 {
      assert parts[1..] == [];
      assert DoAll(Do(l, a), []) == Do(l, a);
    } else if |parts| == 2 {
      DoTwo(l, parts[0], parts[1]);
    } else if |parts| == 3 {
      DoThree(l, parts[0], parts[1], parts[2]);
    }
  }

  // ---------- what an input adds to the log ----------

  function Extend(log: Log, es: seq<Entry>): Log
    decreases |es|
  {
    if es == [] then log else Extend(Then(log, es[0]), es[1..])
  }

  lemma ExtendOne(log: Log, a: Entry)
    ensures Extend(log, [a]) == Then(log, a)
  {
    assert [a][1..] == [];
  }

  lemma ExtendTwo(log: Log, a: Entry, b: Entry)
    ensures Extend(log, [a, b]) == Then(Then(log, a), b)
  {
    assert [a, b][1..] == [b];
    ExtendOne(Then(log, a), b);
  }

  lemma ExtendThree(log: Log, a: Entry, b: Entry, c: Entry)
    ensures Extend(log, [a, b, c]) == Then(Then(Then(log, a), b), c)
  {
    assert [a, b, c][1..] == [b, c];
    ExtendTwo(Then(log, a), b, c);
  }

  lemma ExtendFour(log: Log, a: Entry, b: Entry, c: Entry, d: Entry)
    ensures Extend(log, [a, b, c, d]) == Then(Then(Then(Then(log, a), b), c), d)
  {
    assert [a, b, c, d][1..] == [b, c, d];
    ExtendThree(Then(log, a), b, c, d);
  }

  /** What an input leads to: what is seen and sent, in order, and the state afterwards. */
  ghost predicate Leads(l: Lcp, m: Lcp, es: seq<Entry>, next: LinkState) {
    m.log == Extend(l.log, es) && m.state == next
  }

  /** How many requests a renewed counter allows. */
  function Tries(p: Phase): nat {
    if p.Terminate? then MAX_TERMINATE else MAX_CONFIGURE
  }

  // ---------- packets ----------

  /**
   A Terminate-Request is answered with one Terminate-Ack that carries its identifier, except before the link is up.  It
   takes an opened link down, to wait without asking, and sends any other negotiation back to its beginning.
   */
  lemma TermReqConduct(l: Lcp, id: nat)
    ensures var m := Recv(l, TermReq(id));
            match l.state
            case Initial => Leads(l, m, [Happened(Rtr)], Initial)
            case Starting => Leads(l, m, [Happened(Rtr)], Starting)
            case Opened =>
              && Leads(l, m, [Happened(Rtr), LayerDown, Sent(TermAck(id))], Stopping)
              && m.counter == 0 && m.timer && m.phase.Terminate?
            case _ => Leads(l, m, [Happened(Rtr), Sent(TermAck(id))], if Requesting(l.state) then ReqSent else l.state)
  {
    ExtendOne(l.log, Happened(Rtr));
    ExtendTwo(l.log, Happened(Rtr), Sent(TermAck(id)));
    ExtendThree(l.log, Happened(Rtr), LayerDown, Sent(TermAck(id)));
  }

  ghost predicate ConfReqAnswered(l: Lcp, m: Lcp, ok: bool) {
    var seen, reply := Happened(if ok then RcrPlus else RcrMinus), Sent(if ok then ConfAck else ConfNakOrRej);
    var asked, next := SentReq(Inc(l.ident)), if ok then AckSent else ReqSent;
    match l.state
    case Closed => Leads(l, m, [seen, reply], Closed)
    case Stopped => Leads(l, m, [seen, asked, reply], next) && m.timer && m.counter == Tries(l.phase) - 1
    case ReqSent => Leads(l, m, [seen, reply], next)
    case AckSent => Leads(l, m, [seen, reply], next)
    case AckRcvd =>
      if ok then Leads(l, m, [seen, reply, LayerUp, Told(true)], Opened) else Leads(l, m, [seen, reply], AckRcvd)
    case Opened => Leads(l, m, [seen, LayerDown, asked, reply], next) && m.timer && m.counter == l.counter - 1
    case _ => Leads(l, m, [seen], l.state)
  }

  lemma ConfReqAtRest(l: Lcp, ok: bool)
    requires !Requesting(l.state)
    ensures ConfReqAnswered(l, Recv(l, ConfReq(ok)), ok)
  {
    var seen, reply := Happened(if ok then RcrPlus else RcrMinus), Sent(if ok then ConfAck else ConfNakOrRej);
    ExtendOne(l.log, seen);
    ExtendTwo(l.log, seen, reply);
    ExtendThree(l.log, seen, SentReq(Inc(l.ident)), reply);
  }

  lemma ConfReqInNegotiation(l: Lcp, ok: bool)
    requires Requesting(l.state) && !l.state.Opened?
    ensures ConfReqAnswered(l, Recv(l, ConfReq(ok)), ok)
  {
    var seen, reply := Happened(if ok then RcrPlus else RcrMinus), Sent(if ok then ConfAck else ConfNakOrRej);
    ExtendTwo(l.log, seen, reply);
    ExtendFour(l.log, seen, reply, LayerUp, Told(true));
  }

  lemma ConfReqWhenOpened(l: Lcp, ok: bool)
    requires l.state.Opened? && l.counter > 0
    ensures ConfReqAnswered(l, Recv(l, ConfReq(ok)), ok)
  {
    var seen, reply := Happened(if ok then RcrPlus else RcrMinus), Sent(if ok then ConfAck else ConfNakOrRej);
    ExtendFour(l.log, seen, LayerDown, SentReq(Inc(l.ident)), reply);
  }

  /**
   A Configure-Request is answered once, with a Configure-Ack exactly when it is acceptable, from every state that
   negotiates; a stopped or opened link first asks on its own behalf.  A closed link answers it too, although the table
   asks for a Terminate-Ack there.
   */
  lemma ConfReqConduct(l: Lcp, ok: bool)
    requires Sound(l)
    ensures ConfReqAnswered(l, Recv(l, ConfReq(ok)), ok)
  {
    if !Requesting(l.state) {
      ConfReqAtRest(l, ok);
    } else if l.state.Opened? {
      ConfReqWhenOpened(l, ok);
    } else {
      ConfReqInNegotiation(l, ok);
    }
  }

  /** A Configure-Nak or Configure-Reject with the right identifier makes us ask again; any other is ignored. */
  lemma ConfNakConduct(l: Lcp, id: nat)
    requires Sound(l)
    ensures var m := Recv(l, ConfNakPkt(id));
            var asked := SentReq(Inc(l.ident));
            if id != l.ident then m == l
            else if l.state.ReqSent? || l.state.AckSent? then
              Leads(l, m, [Happened(Rcn), asked], l.state) && m.timer && m.counter == Tries(l.phase) - 1
            else if l.state.AckRcvd? then
              Leads(l, m, [Happened(Rcn), asked], ReqSent) && m.timer && m.counter == l.counter - 1
            else if l.state.Opened? then
              Leads(l, m, [Happened(Rcn), LayerDown, asked], ReqSent) && m.timer && m.counter == l.counter - 1
            else if l.state.Closed? || l.state.Stopped? then Leads(l, m, [Happened(Rcn), Sent(Blank)], l.state)
            else Leads(l, m, [Happened(Rcn)], l.state)
  {
    var asked := SentReq(Inc(l.ident));
    ExtendOne(l.log, Happened(Rcn));
    ExtendTwo(l.log, Happened(Rcn), asked);
    ExtendTwo(l.log, Happened(Rcn), Sent(Blank));
    ExtendThree(l.log, Happened(Rcn), LayerDown, asked);
  }

  /** A Configure-Ack with the right identifier completes our half; one that was not due makes us start again. */
  lemma ConfAckConduct(l: Lcp, id: nat)
    requires Sound(l) && Requesting(l.state)
    ensures var m := Recv(l, ConfAckPkt(id));
            var asked := SentReq(Inc(l.ident));
            if id != l.ident then m == l
            else
              match l.state
              case ReqSent => Leads(l, m, [AckTaken(id), Happened(Rca)], AckRcvd) && m.counter == Tries(l.phase)
              case AckSent => Leads(l, m, [AckTaken(id), Happened(Rca), LayerUp, Told(true)], Opened)
              case AckRcvd => Leads(l, m, [AckTaken(id), Happened(Rca), asked], ReqSent)
              case _ => Leads(l, m, [AckTaken(id), Happened(Rca), LayerDown, asked], ReqSent)
  {
    var asked := SentReq(Inc(l.ident));
    ExtendTwo(l.log, AckTaken(id), Happened(Rca));
    ExtendThree(l.log, AckTaken(id), Happened(Rca), asked);
    ExtendFour(l.log, AckTaken(id), Happened(Rca), LayerUp, Told(true));
    ExtendFour(l.log, AckTaken(id), Happened(Rca), LayerDown, asked);
  }

  /** A Terminate-Ack with the identifier looked for ends the termination, or starts a negotiation again. */
  lemma TermAckConduct(l: Lcp, id: nat)
    requires Sound(l)
    ensures var m := Recv(l, TermAckPkt(id));
            if id != l.ident then m == l
            else
              match l.state
              case Closing => Leads(l, m, [Happened(Rta)], Closed) && m.phase.Dead? && !m.timer
              case Stopping => Leads(l, m, [Happened(Rta)], Stopped) && m.phase.Dead? && !m.timer
              case AckRcvd => Leads(l, m, [Happened(Rta)], ReqSent)
              case Opened => Leads(l, m, [Happened(Rta), LayerDown, SentReq(Inc(l.ident))], ReqSent)
              case _ => Leads(l, m, [Happened(Rta)], l.state)
  {
    ExtendOne(l.log, Happened(Rta));
    ExtendThree(l.log, Happened(Rta), LayerDown, SentReq(Inc(l.ident)));
  }

  /** An Echo-Request is answered once, and only by an opened link; everywhere it advances our identifier. */
  lemma EchoConduct(l: Lcp, id: nat)
    ensures var m := Recv(l, EchoReq(id));
            && m.ident == Inc(l.ident)
            && if l.state.Opened? then Leads(l, m, [EchoAsked, Happened(Rxr), Sent(EchoReply(l.ident))], Opened)
               else Leads(l, m, [EchoAsked, Happened(Rxr)], l.state)
  {
    ExtendTwo(l.log, EchoAsked, Happened(Rxr));
    ExtendThree(l.log, EchoAsked, Happened(Rxr), Sent(EchoReply(l.ident)));
  }

  /**
   The reply to an Echo-Request carries an identifier of our own: it is the one asked with, as section 5.8 of RFC 1661
   wants it, exactly when the two happen to be equal.
   */
  lemma EchoReplyMatchesExactly(l: Lcp, id: nat)
    requires l.state.Opened?
    ensures Recv(l, EchoReq(id)).log == Then(Then(Then(l.log, EchoAsked), Happened(Rxr)), Sent(EchoReply(id))) <==>
            id == l.ident
  {
    EchoConduct(l, id);
    ExtendThree(l.log, EchoAsked, Happened(Rxr), Sent(EchoReply(l.ident)));
  }

  /** A packet with an unknown code is never answered, although the table asks for a Code-Reject. */
  lemma UnknownCodeConduct(l: Lcp)
    ensures Leads(l, Recv(l, UnknownCode), [Happened(Ruc)], l.state)
  {
    ExtendOne(l.log, Happened(Ruc));
  }

  /** A rejection of what LCP cannot do without takes an opened link down and ends any other negotiation. */
  lemma RejectConduct(l: Lcp, p: Packet)
    requires p.CodeRej? || p.ProtocolRej?
    ensures var m, fatal := Recv(l, p), if p.CodeRej? then p.known else p.lcp;
            if !fatal then Leads(l, m, [Happened(RxjPlus)], if l.state.AckRcvd? then ReqSent else l.state)
            else
              match l.state
              case Initial => Leads(l, m, [Happened(RxjMinus)], Initial)
              case Starting => Leads(l, m, [Happened(RxjMinus)], Starting)
              case Closed => Leads(l, m, [Happened(RxjMinus)], Closed) && m.phase.Dead?
              case Closing => Leads(l, m, [Happened(RxjMinus)], Closed) && m.phase.Dead?
              case Opened =>
                && Leads(l, m, [Happened(RxjMinus), LayerDown, SentTerm(l.ident)], Stopping)
                && m.counter == MAX_TERMINATE - 1 && m.timer
              case _ => Leads(l, m, [Happened(RxjMinus)], Stopped) && m.phase.Dead? && !m.timer
  {
    ExtendOne(l.log, Happened(RxjPlus));
    ExtendOne(l.log, Happened(RxjMinus));
    ExtendThree(l.log, Happened(RxjMinus), LayerDown, SentTerm(l.ident));
  }

  // ---------- the administrator and the lower layer ----------

  /** Opening starts a negotiation at once if the lower layer is up, and otherwise when it comes up. */
  lemma OpenConduct(l: Lcp)
    ensures var m := Step(l, AdminOpen);
            match l.state
            case Initial => Leads(l, m, [Happened(Open)], Starting) && m.phase.Establish?
            case Closed =>
              && Leads(l, m, [Happened(Open), SentReq(Inc(l.ident))], ReqSent)
              && m.timer && m.counter == Tries(l.phase) - 1
            case Closing => Leads(l, m, [Happened(Open)], Stopping)
            case _ => Leads(l, m, [Happened(Open)], l.state)
  {
    ExtendOne(l.log, Happened(Open));
    ExtendTwo(l.log, Happened(Open), SentReq(Inc(l.ident)));
  }

  lemma UpConduct(l: Lcp)
    ensures var m := Step(l, LowerUp);
            match l.state
            case Initial => Leads(l, m, [Happened(Up)], Closed)
            case Starting =>
              Leads(l, m, [Happened(Up), SentReq(Inc(l.ident))], ReqSent) && m.timer && m.counter == Tries(l.phase) - 1
            case _ => Leads(l, m, [Happened(Up)], l.state)
  {
    ExtendOne(l.log, Happened(Up));
    ExtendTwo(l.log, Happened(Up), SentReq(Inc(l.ident)));
  }

  /** Closing sends one Terminate-Request from every state of a negotiation, and none from any other. */
  lemma CloseConduct(l: Lcp)
    ensures var m := Step(l, AdminClose);
            match l.state
            case Opened =>
              && Leads(l, m, [Happened(Close), LayerDown, SentTerm(l.ident)], Closing)
              && m.timer && m.counter == MAX_TERMINATE - 1
            case Starting => Leads(l, m, [Happened(Close)], Initial) && m.phase.Dead?
            case Stopped => Leads(l, m, [Happened(Close)], Closed)
            case Stopping => Leads(l, m, [Happened(Close)], Closing)
            case _ =>
              if Requesting(l.state) then
                && Leads(l, m, [Happened(Close), SentTerm(l.ident)], Closing)
                && m.timer && m.counter == Tries(l.phase) - 1
              else Leads(l, m, [Happened(Close)], l.state)
  {
    ExtendOne(l.log, Happened(Close));
    ExtendTwo(l.log, Happened(Close), SentTerm(l.ident));
    ExtendThree(l.log, Happened(Close), LayerDown, SentTerm(l.ident));
  }

  /** When the lower layer goes down a link that was to be open waits for it, and any other is back at its beginning. */
  lemma DownConduct(l: Lcp)
    ensures var m := Step(l, LowerDown);
            && Leads(l, m, if l.state.Opened? then [Happened(Down), LayerDown] else [Happened(Down)],
                     if l.state.Initial? || l.state.Closed? || l.state.Closing? then Initial else Starting)
            && !m.timer
  {
    ExtendOne(l.log, Happened(Down));
    ExtendTwo(l.log, Happened(Down), LayerDown);
  }

  // ---------- the restart timer ----------

  lemma DecInc(n: nat)
    requires n < 256
    ensures Inc(Dec(n)) == n
  {
  }

  /** A timeout repeats the request that is waiting for its answer, or ends the wait if no try is left. */
  lemma TimerConduct(l: Lcp)
    requires Sound(l) && l.timer
    ensures var m := Step(l, Timer);
            if l.counter == 0 then
              && Leads(l, m, [Happened(TimeoutMinus)], if l.state.Closing? then Closed else Stopped)
              && m.phase.Dead? && !m.timer
            else
              && m.timer && m.counter == l.counter - 1
              && if Requesting(l.state) then
                   Leads(l, m, [Happened(TimeoutPlus), SentReq(l.ident)], if l.state.AckRcvd? then ReqSent else l.state)
                 else Leads(l, m, [Happened(TimeoutPlus), SentTerm(Dec(l.ident))], l.state)
  {
    DecInc(l.ident);
    ExtendOne(l.log, Happened(TimeoutMinus));
    ExtendTwo(l.log, Happened(TimeoutPlus), SentReq(l.ident));
    ExtendTwo(l.log, Happened(TimeoutPlus), SentTerm(Dec(l.ident)));
  }

  lemma DecWraps(n: nat)
    ensures Dec((n + 1) % 256) == n % 256
  {
  }

  /** While it terminates with tries left, its latest request is a Terminate-Request. */
  ghost predicate TerminatingOk(l: Lcp) {
    (l.state.Closing? || l.state.Stopping?) && l.counter > 0 ==> LastRequest(l.log).SentTerm?
  }

  lemma TableTerminates(e: Event, s: LinkState)
    ensures var (a, next) := Transition(e, s);
            next.Closing? || next.Stopping? ==>
              || (Terminates(a) && Renews(a)) || Zeroes(a)
              || ((s.Closing? || s.Stopping?) && !Asks(a) && !Renews(a) && (Terminates(a) ==> a.Str?))
  {
  }

  lemma ZeroedCounter(l: Lcp, a: Action)
    requires Zeroes(a)
    ensures Do(l, a).counter == 0
  {
  }

  lemma CounterOnlyFalls(l: Lcp, a: Action)
    requires !Renews(a)
    ensures Do(l, a).counter <= l.counter
  {
  }

  lemma HandleKeepsTerminating(l: Lcp, e: Event)
    requires TerminatingOk(l)
    ensures TerminatingOk(Handle(l, e))
  {
    var m, a := l.(log := Then(l.log, Happened(e))), Transition(e, l.state).0;
    TableTerminates(e, l.state);
    DoLastRequest(m, a);
    if Zeroes(a) {
      ZeroedCounter(m, a);
    } else if !Renews(a) {
      CounterOnlyFalls(m, a);
    }
  }

  lemma RecvKeepsTerminating(l: Lcp, p: Packet)
    requires TerminatingOk(l)
    ensures TerminatingOk(Recv(l, p))
  {
    match p
    case ConfReq(ok) =>
      HandleKeepsTerminating(l.(prepared := if ok then ConfAck else ConfNakOrRej), if ok then RcrPlus else RcrMinus);
    case ConfAckPkt(id) => HandleKeepsTerminating(l.(log := Then(l.log, AckTaken(id))), Rca);
    case ConfNakPkt(id) => HandleKeepsTerminating(l.(prepared := Blank), Rcn);
    case TermReq(id) => HandleKeepsTerminating(l.(prepared := TermAck(id)), Rtr);
    case TermAckPkt(id) => HandleKeepsTerminating(l, Rta);
    case CodeRej(known) => HandleKeepsTerminating(l, if known then RxjMinus else RxjPlus);
    case ProtocolRej(lcp) => HandleKeepsTerminating(l, if lcp then RxjMinus else RxjPlus);
    case EchoReq(_) =>
      HandleKeepsTerminating(
        l.(prepared := EchoReply(l.ident), ident := Inc(l.ident), log := Then(l.log, EchoAsked)), Rxr);
    case EchoRepOrDiscard =>
    case UnknownCode => HandleKeepsTerminating(l, Ruc);
  }

  lemma StepKeepsTerminating(l: Lcp, i: Input)
    requires TerminatingOk(l)
    ensures TerminatingOk(Step(l, i))
  {
    match i
    case LowerUp => HandleKeepsTerminating(l, Up);
    case LowerDown => HandleKeepsTerminating(l, Down);
    case AdminOpen => HandleKeepsTerminating(l, Open);
    case AdminClose => HandleKeepsTerminating(l, Close);
    case Timer =>
      HandleKeepsTerminating(
        l.(timer := false, ident := Dec(l.ident)), if l.counter != 0 then TimeoutPlus else TimeoutMinus);
    case Receive(p) => RecvKeepsTerminating(l, p);
  }

  lemma {:induction false} RunKeepsTerminating(l: Lcp, inputs: seq<Input>)
    requires TerminatingOk(l)
    ensures TerminatingOk(Run(l, inputs))
    decreases |inputs|
  {
    if inputs != [] {
      StepKeepsTerminating(l, inputs[0]);
      RunKeepsTerminating(Step(l, inputs[0]), inputs[1..]);
    }
  }

  ghost predicate RepeatsRequest(l: Lcp, m: Lcp) {
    var first, again := LastRequest(l.log), LastRequest(m.log);
    && (if Requesting(l.state) then first.SentReq? && again.SentReq? else first.SentTerm? && again.SentTerm?)
    && again.id == (first.id + Echoes(l.log)) % 256
    && (again.id == first.id <==> Echoes(l.log) % 256 == 0)
  }

  lemma TimeoutRepeats(l: Lcp)
    requires Sound(l) && TerminatingOk(l) && Waiting(l.state) && l.counter > 0
    ensures RepeatsRequest(l, Step(l, Timer))
  {
    var r := LastRequest(l.log);
    IdentCounts(l);
    TimerConduct(l);
    LastRequestIsByte(l.log);
    DecWraps(r.id + Echoes(l.log));
    AdvancedByEchoes(r.id, Echoes(l.log));
    ExtendTwo(l.log, Happened(TimeoutPlus), SentReq(l.ident));
    ExtendTwo(l.log, Happened(TimeoutPlus), SentTerm(Dec(l.ident)));
  }

  /**
   Over every run, a request that a timeout repeats carries the identifier of the one it repeats, advanced by one for
   every Echo-Request in between; so it is the same exactly when their number is a multiple of 256.
   */
  lemma RepeatKeepsIdentifier(inputs: seq<Input>)
    requires Waiting(Run(Boot(), inputs).state) && Run(Boot(), inputs).counter > 0
    ensures RepeatsRequest(Run(Boot(), inputs), Step(Run(Boot(), inputs), Timer))
  {
    ReachedIsSound(inputs);
    RunKeepsTerminating(Boot(), inputs);
    TimeoutRepeats(Run(Boot(), inputs));
  }

  // ---------- how often a silent peer is asked ----------

  /** The requests that are sent after an input if only the timer fires from then on. */
  function AskedInAll(l: Lcp, i: Input): int {
    var m := Step(l, i); Requests(Ticks(m, m.counter + 1).log) - Requests(l.log)
  }

  lemma SilenceAfter(l: Lcp, i: Input)
    requires Sound(l) && Waiting(Step(l, i).state) && Requests(Step(l, i).log) == Requests(l.log) + 1
    ensures AskedInAll(l, i) == 1 + Step(l, i).counter
  {
    StepKeepsSound(l, i);
    SilenceEndsTheWait(Step(l, i));
  }

  /**
   To close a link a silent peer is asked twice, as intended, exactly if the link was open or its phase still says that
   it terminates; otherwise it is asked ten times.
   */
  lemma TerminateTries(l: Lcp)
    requires Sound(l) && Requesting(l.state)
    ensures AskedInAll(l, AdminClose) == (if l.state.Opened? || l.phase.Terminate? then 2 else 10)
  {
    var m := Step(l, AdminClose);
    CloseConduct(l);
    ExtendTwo(l.log, Happened(Close), SentTerm(l.ident));
    ExtendThree(l.log, Happened(Close), LayerDown, SentTerm(l.ident));
    OneRequest(l.log, Happened(Close), SentTerm(l.ident));
    SilenceAfter(l, AdminClose);
  }

  lemma OneRequest(log: Log, seen: Entry, asked: Entry)
    requires seen.Happened? && (asked.SentReq? || asked.SentTerm?)
    ensures Requests(Then(Then(log, seen), asked)) == Requests(log) + 1
    ensures Requests(Then(Then(Then(log, seen), LayerDown), asked)) == Requests(log) + 1
  {
    assert Requests(Then(log, seen)) == Requests(log);
    assert Requests(Then(Then(log, seen), LayerDown)) == Requests(log);
  }

  /** To open a link it is asked ten times, as intended, exactly if the phase does not still say that it terminates. */
  lemma ConfigureTries(l: Lcp)
    requires Sound(l) && l.state.Closed?
    ensures AskedInAll(l, AdminOpen) == (if l.phase.Terminate? then 2 else 10)
  {
    OpenConduct(l);
    ExtendTwo(l.log, Happened(Open), SentReq(Inc(l.ident)));
    OneRequest(l.log, Happened(Open), SentReq(Inc(l.ident)));
    SilenceAfter(l, AdminOpen);
  }

  /** Closed while it negotiates, an instance asks ten times. */
  lemma ClosedWhileNegotiating() returns (l: Lcp)
    ensures l == Run(Boot(), [LowerUp, AdminOpen]) && l.state.ReqSent? && AskedInAll(l, AdminClose) == 10
  {
    l := Step(Step(Boot(), LowerUp), AdminOpen);
    assert [LowerUp, AdminOpen][1..] == [AdminOpen] && [AdminOpen][1..] == [];
    assert Run(Step(Boot(), LowerUp), [AdminOpen]) == Run(l, []);
    ReachedIsSound([LowerUp, AdminOpen]);
    TerminateTries(l);
  }
}
