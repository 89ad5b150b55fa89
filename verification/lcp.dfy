/**
 The Link Control Protocol automaton: section 4 of RFC 1661 as its transition table, with the restart timer, the restart
 counter and the packet identifier that its actions maintain.
 */
module Lcp {
  import opened Collections

  datatype LinkState = Initial | Starting | Closed | Stopped | Closing | Stopping | ReqSent | AckRcvd | AckSent | Opened

  datatype Phase = Dead | Establish | Network | Terminate

  datatype Event =
    | Up | Down | Open | Close | TimeoutPlus | TimeoutMinus | RcrPlus | RcrMinus
    | Rca | Rcn | Rtr | Rta | Ruc | RxjPlus | RxjMinus | Rxr

  datatype Action =
    | NoAction | Tlu | Tld | Tls | Tlf | Irc | Zrc | Scr | Sca | Scn | Str | Sta | Scj | Ser
    | TldScr | IrcTlu | IrcScr | IrcStr | ScaTlu | TldIrcStr | TldScrSca | TldScrScn | TldZrcSta | IrcScrSca | IrcScrScn

  /** The reply that was prepared when a packet arrived; of two kinds, the identifier it carries. */
  datatype Reply = ConfAck | ConfNakOrRej | TermAck(id: nat) | EchoReply(id: nat) | Blank

  /** What an instance has seen and done, oldest first. */
  datatype Log = Empty | Then(before: Log, last: Entry)

  /**
   `AckTaken` is a Configure-Ack that passed the test on its identifier, `LayerUp` and `LayerDown` are the actions of
   those names, and `Told` is what the network layers hear of the link.
   */
  datatype Entry =
    | Happened(event: Event)
    | EchoAsked
    | AckTaken(id: nat)
    | SentReq(id: nat)
    | SentTerm(id: nat)
    | Sent(reply: Reply)
    | LayerUp
    | LayerDown
    | Told(up: bool)

  datatype Lcp = Lcp(
    state: LinkState, phase: Phase, counter: nat, timer: bool, ident: nat, prepared: Reply, log: Log)

  const MAX_CONFIGURE: nat := 10
  const MAX_TERMINATE: nat := 2

  // The identifier is a byte.
  function Inc(n: nat): nat {
    if n < 255 then n + 1 else 0
  }

  function Dec(n: nat): nat {
    if n > 0 then n - 1 else 255
  }

  function Transition(e: Event, s: LinkState): (Action, LinkState) {
    match e
    case Up => (match s
                case Initial => (NoAction, Closed)
                case Starting => (IrcScr, ReqSent)
                case _ => (NoAction, s))
    case Down => (match s
                  case Initial => (NoAction, Initial)
                  case Closed => (NoAction, Initial)
                  case Stopped => (Tls, Starting)
                  case Closing => (NoAction, Initial)
                  case Opened => (Tld, Starting)
                  case _ => (NoAction, Starting))
    case Open => (match s
                  case Initial => (Tls, Starting)
                  case Closed => (IrcScr, ReqSent)
                  case Closing => (NoAction, Stopping)
                  case _ => (NoAction, s))
    case Close => (match s
                   case Initial => (NoAction, Initial)
                   case Starting => (Tlf, Initial)
                   case Closed => (NoAction, Closed)
                   case Stopped => (NoAction, Closed)
                   case Closing => (NoAction, Closing)
                   case Stopping => (NoAction, Closing)
                   case Opened => (TldIrcStr, Closing)
                   case _ => (IrcStr, Closing))
    case TimeoutPlus => (match s
                         case Closing => (Str, Closing)
                         case Stopping => (Str, Stopping)
                         case ReqSent => (Scr, ReqSent)
                         case AckRcvd => (Scr, ReqSent)
                         case AckSent => (Scr, AckSent)
                         case _ => (NoAction, s))
    case TimeoutMinus => (match s
                          case Closing => (Tlf, Closed)
                          case Stopping => (Tlf, Stopped)
                          case ReqSent => (Tlf, Stopped)
                          case AckRcvd => (Tlf, Stopped)
                          case AckSent => (Tlf, Stopped)
                          case _ => (NoAction, s))
    case RcrPlus => (match s
                     case Closed => (Sta, Closed)
                     case Stopped => (IrcScrSca, AckSent)
                     case ReqSent => (Sca, AckSent)
                     case AckRcvd => (ScaTlu, Opened)
                     case AckSent => (Sca, AckSent)
                     case Opened => (TldScrSca, AckSent)
                     case _ => (NoAction, s))
    case RcrMinus => (match s
                      case Closed => (Sta, Closed)
                      case Stopped => (IrcScrScn, ReqSent)
                      case ReqSent => (Scn, ReqSent)
                      case AckRcvd => (Scn, AckRcvd)
                      case AckSent => (Scn, ReqSent)
                      case Opened => (TldScrScn, ReqSent)
                      case _ => (NoAction, s))
    case Rca => (match s
                 case Closed => (Sta, Closed)
                 case Stopped => (Sta, Stopped)
                 case ReqSent => (Irc, AckRcvd)
                 case AckRcvd => (Scr, ReqSent)
                 case AckSent => (IrcTlu, Opened)
                 case Opened => (TldScr, ReqSent)
                 case _ => (NoAction, s))
    case Rcn => (match s
                 case Closed => (Sta, Closed)
                 case Stopped => (Sta, Stopped)
                 case ReqSent => (IrcScr, ReqSent)
                 case AckRcvd => (Scr, ReqSent)
                 case AckSent => (IrcScr, AckSent)
                 case Opened => (TldScr, ReqSent)
                 case _ => (NoAction, s))
    case Rtr => (match s
                 case Initial => (NoAction, Initial)
                 case Starting => (NoAction, Starting)
                 case Closed => (Sta, Closed)
                 case Stopped => (Sta, Stopped)
                 case Closing => (Sta, Closing)
                 case Stopping => (Sta, Stopping)
                 case Opened => (TldZrcSta, Stopping)
                 case _ => (Sta, ReqSent))
    case Rta => (match s
                 case Closing => (Tlf, Closed)
                 case Stopping => (Tlf, Stopped)
                 case AckRcvd => (NoAction, ReqSent)
                 case Opened => (TldScr, ReqSent)
                 case _ => (NoAction, s))
    case Ruc => (match s
                 case Initial => (NoAction, Initial)
                 case Starting => (NoAction, Starting)
                 case _ => (Scj, s))
    case RxjPlus => (match s
                     case AckRcvd => (NoAction, ReqSent)
                     case _ => (NoAction, s))
    case RxjMinus => (match s
                      case Initial => (NoAction, Initial)
                      case Starting => (NoAction, Starting)
                      case Closed => (Tlf, Closed)
                      case Closing => (Tlf, Closed)
                      case Opened => (TldIrcStr, Stopping)
                      case _ => (Tlf, Stopped))
    case Rxr => (match s
                 case Opened => (Ser, Opened)
                 case _ => (NoAction, s))
  }

  // ---------- actions ----------

  function InitCounter(l: Lcp): Lcp {
    l.(counter := if l.phase.Terminate? then MAX_TERMINATE else MAX_CONFIGURE)
  }

  function SendRequest(l: Lcp): Lcp {
    if l.counter == 0 then l
    else
      l.(counter := l.counter - 1, timer := true, ident := Inc(l.ident), log := Then(l.log, SentReq(Inc(l.ident))))
  }

  function SendTerminate(l: Lcp): Lcp {
    if l.counter == 0 then l
    else
      l.(counter := l.counter - 1, timer := true, ident := Inc(l.ident), log := Then(l.log, SentTerm(l.ident)))
  }

  function SendPrepared(l: Lcp): Lcp {
    l.(log := Then(l.log, Sent(l.prepared)))
  }

  function GoUp(l: Lcp): Lcp {
    l.(phase := Network, log := Then(Then(l.log, LayerUp), Told(true)))
  }

  function GoDown(l: Lcp): Lcp {
    l.(phase := Terminate, log := Then(l.log, LayerDown))
  }

  function Do(l: Lcp, a: Action): Lcp {
    match a
    case NoAction => l
    case Tlu => GoUp(l)
    case Tld => GoDown(l)
    case Tls => l.(phase := Establish)
    case Tlf => l.(phase := Dead)
    case Irc => InitCounter(l)
    case Zrc => l.(counter := 0, timer := true)
    case Scr => SendRequest(l)
    case Sca => SendPrepared(l)
    case Scn => SendPrepared(l)
    case Str => SendTerminate(l)
    case Sta => SendPrepared(l)
    case Scj => l
    case Ser => SendPrepared(l)
    case TldScr => SendRequest(GoDown(l))
    case IrcTlu => GoUp(InitCounter(l))
    case IrcScr => SendRequest(InitCounter(l))
    case IrcStr => SendTerminate(InitCounter(l))
    case ScaTlu => GoUp(SendPrepared(l))
    case TldIrcStr => SendTerminate(InitCounter(GoDown(l)))
    case TldScrSca => SendPrepared(SendRequest(GoDown(l)))
    case TldScrScn => SendPrepared(SendRequest(GoDown(l)))
    case TldZrcSta => SendPrepared(GoDown(l).(counter := 0, timer := true))
    case IrcScrSca => SendPrepared(SendRequest(InitCounter(l)))
    case IrcScrScn => SendPrepared(SendRequest(InitCounter(l)))
  }

  /** The states in which the restart timer runs. */
  predicate Waiting(s: LinkState) {
    s.Closing? || s.Stopping? || s.ReqSent? || s.AckRcvd? || s.AckSent?
  }

  function Handle(l: Lcp, e: Event): Lcp {
    var (a, next) := Transition(e, l.state);
    var m := Do(l.(log := Then(l.log, Happened(e))), a);
    m.(state := next, timer := m.timer && Waiting(next))
  }

  // ---------- what drives the automaton ----------

  datatype Packet =
    | ConfReq(acceptable: bool)
    | ConfAckPkt(id: nat)
    | ConfNakPkt(id: nat)
    | TermReq(id: nat)
    | TermAckPkt(id: nat)
    | CodeRej(known: bool)
    | ProtocolRej(lcp: bool)
    | EchoReq(id: nat)
    | EchoRepOrDiscard
    | UnknownCode

  datatype Input = LowerUp | LowerDown | AdminOpen | AdminClose | Timer | Receive(packet: Packet)

  function Recv(l: Lcp, p: Packet): Lcp {
    match p
    case ConfReq(ok) =>
      Handle(l.(prepared := if ok then ConfAck else ConfNakOrRej), if ok then RcrPlus else RcrMinus)
    case ConfAckPkt(id) => if id == l.ident then Handle(l.(log := Then(l.log, AckTaken(id))), Rca) else l
    case ConfNakPkt(id) => if id == l.ident then Handle(l.(prepared := Blank), Rcn) else l
    case TermReq(id) => Handle(l.(prepared := TermAck(id)), Rtr)
    case TermAckPkt(id) => if id == l.ident then Handle(l, Rta) else l
    case CodeRej(known) => Handle(l, if known then RxjMinus else RxjPlus)
    case ProtocolRej(lcp) => Handle(l, if lcp then RxjMinus else RxjPlus)
    case EchoReq(_) =>
      Handle(l.(prepared := EchoReply(l.ident), ident := Inc(l.ident), log := Then(l.log, EchoAsked)), Rxr)
    case EchoRepOrDiscard => l
    case UnknownCode => Handle(l, Ruc)
  }

  /** The timer has run out: it is no longer attached when its callback is made. */
  function Tick(l: Lcp): Lcp {
    Handle(l.(timer := false, ident := Dec(l.ident)), if l.counter != 0 then TimeoutPlus else TimeoutMinus)
  }

  function Step(l: Lcp, i: Input): Lcp {
    match i
    case LowerUp => Handle(l, Up)
    case LowerDown => Handle(l, Down)
    case AdminOpen => Handle(l, Open)
    case AdminClose => Handle(l, Close)
    case Timer => if l.timer then Tick(l) else l
    case Receive(p) => Recv(l, p)
  }

  function Boot(): Lcp {
    Lcp(Initial, Dead, 0, false, 0, Blank, Empty)
  }

  function Run(l: Lcp, inputs: seq<Input>): Lcp
    decreases |inputs|
  {
    if inputs == [] then l else Run(Step(l, inputs[0]), inputs[1..])
  }

  // ---------- reading the log ----------

  /** The identifier a reply to the last request would have to carry to be looked at. */
  function Expected(log: Log): int {
    match log
    case Empty => -1
    case Then(before, SentReq(id)) => id
    case Then(before, SentTerm(id)) => Inc(id)
    case Then(before, EchoAsked) => if Expected(before) < 0 then -1 else Inc(Expected(before))
    case Then(before, _) => Expected(before)
  }

  /** The latest request of either kind. */
  function LastRequest(log: Log): Entry {
    match log
    case Empty => LayerDown
    case Then(before, e) => if e.SentReq? || e.SentTerm? then e else LastRequest(before)
  }

  /** The Echo-Requests that have arrived since. */
  function Echoes(log: Log): nat {
    match log
    case Empty => 0
    case Then(before, e) =>
      if e.SentReq? || e.SentTerm? then 0 else Echoes(before) + (if e.EchoAsked? then 1 else 0)
  }

  /** A Configure-Ack that was taken, and the Echo-Requests that had arrived between our request and it. */
  datatype Ack = Ack(id: nat, echoes: nat)

  /** The latest Configure-Ack taken since the latest request. */
  function AckSeen(log: Log): Option<Ack> {
    match log
    case Empty => None
    case Then(before, e) =>
      if e.AckTaken? then Some(Ack(e.id, Echoes(before)))
      else if e.SentReq? || e.SentTerm? then None
      else AckSeen(before)
  }

  /**
   Our latest request was a Configure-Request, and a Configure-Ack has been taken since, with the identifier of the
   request advanced by one for every Echo-Request in between.
   */
  predicate PeerAcked(log: Log) {
    && LastRequest(log).SentReq? && AckSeen(log).Some?
    && AckSeen(log).value.id == (LastRequest(log).id + AckSeen(log).value.echoes) % 256
  }

  /**
   Our latest answer, other than to an Echo-Request, is a Configure-Ack, given since the link last went down, closed or
   left the opened state.
   */
  predicate WeAcked(log: Log) {
    match log
    case Empty => false
    case Then(before, Sent(r)) => r.ConfAck? || (r.EchoReply? && WeAcked(before))
    case Then(before, Happened(e)) => !(e.Down? || e.Close?) && WeAcked(before)
    case Then(before, LayerDown) => false
    case Then(before, _) => WeAcked(before)
  }

  function Ups(log: Log): nat {
    match log
    case Empty => 0
    case Then(before, e) => Ups(before) + (if e.LayerUp? then 1 else 0)
  }

  function Downs(log: Log): nat {
    match log
    case Empty => 0
    case Then(before, e) => Downs(before) + (if e.LayerDown? then 1 else 0)
  }

  /** What the network layers have been told, oldest first: true for up. */
  function Notices(log: Log): seq<bool> {
    match log
    case Empty => []
    case Then(before, e) => Notices(before) + (if e.Told? then [e.up] else [])
  }

  function Requests(log: Log): nat {
    match log
    case Empty => 0
    case Then(before, e) => Requests(before) + (if e.SentReq? || e.SentTerm? then 1 else 0)
  }

  // One entry more, for each reading.

  lemma ReadUps()
    ensures forall log, e: Entry :: Ups(Then(log, e)) == Ups(log) + (if e.LayerUp? then 1 else 0)
  {
  }

  lemma ReadAcks()
    ensures forall log, r :: WeAcked(Then(log, Sent(r))) == (r.ConfAck? || (r.EchoReply? && WeAcked(log)))
    ensures forall log, ev: Event :: WeAcked(Then(log, Happened(ev))) == (!(ev.Down? || ev.Close?) && WeAcked(log))
    ensures forall log, e: Entry :: !e.Sent? && !e.Happened? && !e.LayerDown? ==> WeAcked(Then(log, e)) == WeAcked(log)
  {
  }

  // ---------- invariants over every sequence of inputs ----------

  ghost predicate CounterOk(l: Lcp) {
    && l.counter <= MAX_CONFIGURE
    && (l.state.AckRcvd? || l.state.Opened? ==> l.counter >= MAX_TERMINATE)
  }

  ghost predicate TimerOk(l: Lcp) {
    l.timer <==> Waiting(l.state)
  }

  ghost predicate PhaseOk(l: Lcp) {
    && (l.phase.Network? <==> l.state.Opened?)
    && Ups(l.log) == Downs(l.log) + (if l.state.Opened? then 1 else 0)
  }

  /** Every identifier sent is a byte. */
  ghost predicate IdsOk(log: Log) {
    match log
    case Empty => true
    case Then(before, e) => (e.SentReq? || e.SentTerm? ==> e.id < 256) && IdsOk(before)
  }

  ghost predicate IdentOk(l: Lcp) {
    && l.ident < 256 && IdsOk(l.log)
    && (Waiting(l.state) || l.state.Opened? ==> Expected(l.log) == l.ident)
  }

  /** The states of a negotiation that has begun. */
  predicate Requesting(s: LinkState) {
    s.ReqSent? || s.AckRcvd? || s.AckSent? || s.Opened?
  }

  ghost predicate PeerOk(l: Lcp) {
    && (Requesting(l.state) ==> LastRequest(l.log).SentReq?)
    && (l.state.AckRcvd? || l.state.Opened? ==> PeerAcked(l.log))
  }

  ghost predicate AgreedOk(l: Lcp) {
    l.state.AckSent? || l.state.Opened? ==> WeAcked(l.log)
  }

  ghost predicate Sound(l: Lcp) {
    CounterOk(l) && TimerOk(l) && PhaseOk(l) && IdentOk(l) && PeerOk(l) && AgreedOk(l)
  }

  /** Events that the automaton raises itself only when they are due. */
  ghost predicate Due(l: Lcp, e: Event) {
    && (e.TimeoutPlus? ==> l.counter > 0)
    && (e.TimeoutMinus? ==> l.counter == 0)
    && (e.RcrPlus? ==> l.prepared.ConfAck?)
    && (e.Rxr? ==> l.prepared.EchoReply?)
    && (e.Rca? && Requesting(l.state) ==> PeerAcked(l.log))
  }

  // What an action does, by kind of action.

  predicate Raises(a: Action) {
    a.Tlu? || a.IrcTlu? || a.ScaTlu?
  }

  predicate Lowers(a: Action) {
    a.Tld? || a.TldScr? || a.TldIrcStr? || a.TldScrSca? || a.TldScrScn? || a.TldZrcSta?
  }

  predicate Asks(a: Action) {
    a.Scr? || a.TldScr? || a.IrcScr? || a.TldScrSca? || a.TldScrScn? || a.IrcScrSca? || a.IrcScrScn?
  }

  predicate Terminates(a: Action) {
    a.Str? || a.IrcStr? || a.TldIrcStr?
  }

  predicate Renews(a: Action) {
    a.Irc? || a.IrcTlu? || a.IrcScr? || a.IrcStr? || a.TldIrcStr? || a.IrcScrSca? || a.IrcScrScn?
  }

  predicate Zeroes(a: Action) {
    a.Zrc? || a.TldZrcSta?
  }

  predicate Replies(a: Action) {
    || a.Sca? || a.Scn? || a.Sta? || a.Ser? || a.ScaTlu? || a.TldScrSca? || a.TldScrScn? || a.TldZrcSta?
    || a.IrcScrSca? || a.IrcScrScn?
  }

  /** A request of either kind goes out. */
  predicate Transmits(l: Lcp, a: Action) {
    (Asks(a) || Terminates(a)) && (Renews(a) || l.counter > 0)
  }

  lemma DoUps(l: Lcp, a: Action)
    ensures Ups(Do(l, a).log) == Ups(l.log) + (if Raises(a) then 1 else 0)
  {
    ReadUps();
  }

  lemma PiecesDowns()
    ensures forall l :: Downs(GoDown(l).log) == Downs(l.log) + 1
    ensures forall l :: Downs(GoUp(l).log) == Downs(l.log)
    ensures forall l :: Downs(SendRequest(l).log) == Downs(l.log)
    ensures forall l :: Downs(SendTerminate(l).log) == Downs(l.log)
    ensures forall l :: Downs(SendPrepared(l).log) == Downs(l.log)
  {
  }

  lemma DoDowns(l: Lcp, a: Action)
    ensures Downs(Do(l, a).log) == Downs(l.log) + (if Lowers(a) then 1 else 0)
  {
    PiecesDowns();
  }

  lemma DoPhase(l: Lcp, a: Action)
    ensures Do(l, a).phase == (if Raises(a) then Network else if Lowers(a) then Terminate
                               else if a.Tls? then Establish else if a.Tlf? then Dead else l.phase)
  {
  }

  lemma DoCounter(l: Lcp, a: Action)
    requires l.counter <= MAX_CONFIGURE
    ensures Do(l, a).counter <= MAX_CONFIGURE
    ensures !Asks(a) && !Terminates(a) && !Zeroes(a) ==>
              (if Renews(a) then Do(l, a).counter >= MAX_TERMINATE else Do(l, a).counter == l.counter)
    ensures Do(l, a).timer == (l.timer || Zeroes(a) || Transmits(l, a))
  {
  }

  lemma RequestIdent(l: Lcp)
    requires l.ident < 256
    ensures var m := SendRequest(l);
            m.ident < 256 && if l.counter > 0 then Expected(m.log) == m.ident else m == l
  {
  }

  lemma TerminateIdent(l: Lcp)
    requires l.ident < 256
    ensures var m := SendTerminate(l);
            m.ident < 256 && if l.counter > 0 then Expected(m.log) == m.ident else m == l
  {
  }

  lemma ReadExpected()
    ensures forall log, e: Entry ::
              !e.SentReq? && !e.SentTerm? && !e.EchoAsked? ==> Expected(Then(log, e)) == Expected(log)
  {
  }

  /** What an action does to the identifier, and to the one a reply has to carry. */
  ghost predicate IdentFollows(l: Lcp, a: Action) {
    var m := Do(l, a);
    && m.ident < 256
    && if Transmits(l, a) then Expected(m.log) == m.ident else Expected(m.log) == Expected(l.log) && m.ident == l.ident
  }

  lemma AskingIdent(l: Lcp, a: Action)
    requires l.ident < 256 && Asks(a)
    ensures IdentFollows(l, a)
  {
    RequestIdent(if Lowers(a) then GoDown(l) else if Renews(a) then InitCounter(l) else l);
  }

  lemma TerminatingIdent(l: Lcp, a: Action)
    requires l.ident < 256 && Terminates(a)
    ensures IdentFollows(l, a)
  {
    var m := if Lowers(a) then GoDown(l) else l;
    TerminateIdent(if Renews(a) then InitCounter(m) else m);
  }

  lemma OtherIdent(l: Lcp, a: Action)
    requires l.ident < 256 && !Asks(a) && !Terminates(a)
    ensures IdentFollows(l, a)
  {
    ReadExpected();
  }

  lemma DoIdent(l: Lcp, a: Action)
    requires l.ident < 256
    ensures IdentFollows(l, a)
  {
    if Asks(a) {
      AskingIdent(l, a);
    } else if Terminates(a) {
      TerminatingIdent(l, a);
    } else {
      OtherIdent(l, a);
    }
  }

  lemma ReadIds()
    ensures forall log, e: Entry :: IdsOk(Then(log, e)) == ((e.SentReq? || e.SentTerm? ==> e.id < 256) && IdsOk(log))
  {
  }

  lemma DoIds(l: Lcp, a: Action)
    requires l.ident < 256 && IdsOk(l.log)
    ensures IdsOk(Do(l, a).log)
  {
    ReadIds();
  }

  lemma ReadRequests()
    ensures forall log, e: Entry ::
              Requests(Then(log, e)) == Requests(log) + (if e.SentReq? || e.SentTerm? then 1 else 0)
  {
  }

  lemma AskingCounts(l: Lcp, a: Action)
    requires Asks(a) || Terminates(a)
    ensures Requests(Do(l, a).log) == Requests(l.log) + (if Transmits(l, a) then 1 else 0)
  {
    ReadRequests();
  }

  lemma OtherCounts(l: Lcp, a: Action)
    requires !Asks(a) && !Terminates(a)
    ensures Requests(Do(l, a).log) == Requests(l.log)
  {
    ReadRequests();
  }

  lemma DoRequests(l: Lcp, a: Action)
    ensures Requests(Do(l, a).log) == Requests(l.log) + (if Transmits(l, a) then 1 else 0)
  {
    if Asks(a) || Terminates(a) {
      AskingCounts(l, a);
    } else {
      OtherCounts(l, a);
    }
  }

  lemma ReadRequest()
    ensures forall log, e: Entry ::
              LastRequest(Then(log, e)) == if e.SentReq? || e.SentTerm? then e else LastRequest(log)
  {
  }

  lemma ReadAckSeen()
    ensures forall log, e: Entry :: !e.AckTaken? ==>
              AckSeen(Then(log, e)) == if e.SentReq? || e.SentTerm? then None else AckSeen(log)
  {
  }

  lemma DoLastRequest(l: Lcp, a: Action)
    ensures var r := LastRequest(Do(l, a).log);
            if !Transmits(l, a) then r == LastRequest(l.log) else if Asks(a) then r.SentReq? else r.SentTerm?
  {
    ReadRequest();
  }

  lemma DoAckSeen(l: Lcp, a: Action)
    requires !Asks(a) && !Terminates(a)
    ensures AckSeen(Do(l, a).log) == AckSeen(l.log)
  {
    ReadAckSeen();
  }

  lemma DoWeAcked(l: Lcp, a: Action)
    ensures Replies(a) && l.prepared.ConfAck? ==> WeAcked(Do(l, a).log)
    ensures !Lowers(a) && (Replies(a) ==> l.prepared.EchoReply?) ==> WeAcked(Do(l, a).log) == WeAcked(l.log)
  {
    ReadAcks();
  }

  // What the table promises, for every event and state.

  lemma TableLayers(e: Event, s: LinkState)
    ensures var (a, next) := Transition(e, s);
            && (Raises(a) <==> !s.Opened? && next.Opened?)
            && (Lowers(a) <==> s.Opened? && !next.Opened?)
            && (a.Tls? || a.Tlf? ==> !s.Opened? && !next.Opened?)
  {
  }

  lemma TableCounter(e: Event, s: LinkState)
    ensures var (a, next) := Transition(e, s);
            next.AckRcvd? || next.Opened? ==>
              !Asks(a) && !Terminates(a) && !Zeroes(a) && (s.AckRcvd? || s.Opened? || Renews(a))
  {
  }

  lemma TableTimer(e: Event, s: LinkState)
    ensures var (a, next) := Transition(e, s);
            Waiting(next) ==> Waiting(s) || Zeroes(a) || ((Asks(a) || Terminates(a)) && (Renews(a) || s.Opened?))
    ensures var (a, next) := Transition(e, s);
            Waiting(next) && e.TimeoutPlus? ==> Asks(a) || Terminates(a)
    ensures e.TimeoutMinus? ==> !Waiting(Transition(e, s).1) && (Waiting(s) ==> !Transition(e, s).1.Opened?)
  {
  }

  lemma TableIdent(e: Event, s: LinkState)
    ensures var (a, next) := Transition(e, s);
            Waiting(next) || next.Opened? ==> Waiting(s) || s.Opened? || ((Asks(a) || Terminates(a)) && Renews(a))
    ensures var (a, next) := Transition(e, s);
            Waiting(s) && e.TimeoutPlus? ==> Asks(a) || Terminates(a)
  {
  }

  lemma TableRequests(e: Event, s: LinkState)
    ensures var (a, next) := Transition(e, s);
            Requesting(next) ==> !Terminates(a) && (Requesting(s) || (Asks(a) && Renews(a)))
  {
  }

  lemma TableAgreed(e: Event, s: LinkState)
    ensures var (a, next) := Transition(e, s);
            next.AckRcvd? || next.Opened? ==>
              !Asks(a) && !Terminates(a) && (s.AckRcvd? || s.Opened? || (e.Rca? && Requesting(s)))
    ensures var (a, next) := Transition(e, s);
            next.AckSent? || next.Opened? ==>
              || (Replies(a) && e.RcrPlus?)
              || ((s.AckSent? || s.Opened?) && !Lowers(a) && !e.Down? && !e.Close? && (Replies(a) ==> e.Rxr?))
  {
  }

  // Action and table together.

  lemma HandleKeepsCounterAndTimer(l: Lcp, e: Event)
    requires CounterOk(l) && Due(l, e)
    requires if e.TimeoutPlus? || e.TimeoutMinus? then Waiting(l.state) && !l.timer else TimerOk(l)
    ensures CounterOk(Handle(l, e)) && TimerOk(Handle(l, e))
  {
    DoCounter(l.(log := Then(l.log, Happened(e))), Transition(e, l.state).0);
    TableCounter(e, l.state);
    TableTimer(e, l.state);
  }

  lemma HandleKeepsPhase(l: Lcp, e: Event)
    requires PhaseOk(l)
    ensures PhaseOk(Handle(l, e))
  {
    var m, a := l.(log := Then(l.log, Happened(e))), Transition(e, l.state).0;
    DoUps(m, a);
    DoDowns(m, a);
    DoPhase(m, a);
    TableLayers(e, l.state);
  }

  lemma HandleKeepsAgreed(l: Lcp, e: Event)
    requires AgreedOk(l) && Due(l, e)
    ensures AgreedOk(Handle(l, e))
  {
    var m, a := l.(log := Then(l.log, Happened(e))), Transition(e, l.state).0;
    TableAgreed(e, l.state);
    DoWeAcked(m, a);
  }

  lemma HandleKeepsPeer(l: Lcp, e: Event)
    requires PeerOk(l) && Due(l, e)
    ensures PeerOk(Handle(l, e))
  {
    var m, a := l.(log := Then(l.log, Happened(e))), Transition(e, l.state).0;
    TableRequests(e, l.state);
    TableAgreed(e, l.state);
    DoLastRequest(m, a);
    if !Asks(a) && !Terminates(a) {
      DoAckSeen(m, a);
    }
  }

  lemma HandleKeepsIdent(l: Lcp, e: Event)
    requires IdentOk(l) && !e.TimeoutPlus? && !e.TimeoutMinus?
    ensures IdentOk(Handle(l, e))
  {
    DoIdent(l.(log := Then(l.log, Happened(e))), Transition(e, l.state).0);
    DoIds(l.(log := Then(l.log, Happened(e))), Transition(e, l.state).0);
    TableIdent(e, l.state);
  }

  lemma TickKeepsIdent(l: Lcp)
    requires IdentOk(l) && Waiting(l.state)
    ensures IdentOk(Tick(l))
  {
    var e := if l.counter != 0 then TimeoutPlus else TimeoutMinus;
    var m := l.(timer := false, ident := Dec(l.ident), log := Then(l.log, Happened(e)));
    DoIdent(m, Transition(e, l.state).0);
    DoIds(m, Transition(e, l.state).0);
    TableIdent(e, l.state);
    TableTimer(e, l.state);
  }

  lemma TickKeepsSound(l: Lcp)
    requires Sound(l) && l.timer
    ensures Sound(Tick(l))
  {
    var m := l.(timer := false, ident := Dec(l.ident));
    var e := if l.counter != 0 then TimeoutPlus else TimeoutMinus;
    TickKeepsIdent(l);
    HandleKeepsCounterAndTimer(m, e);
    HandleKeepsPhase(m, e);
    HandleKeepsPeer(m, e);
    HandleKeepsAgreed(m, e);
  }

  lemma HandleKeepsSound(l: Lcp, e: Event)
    requires Sound(l) && Due(l, e) && !e.TimeoutPlus? && !e.TimeoutMinus?
    ensures Sound(Handle(l, e))
  {
    HandleKeepsCounterAndTimer(l, e);
    HandleKeepsPhase(l, e);
    HandleKeepsPeer(l, e);
    HandleKeepsAgreed(l, e);
    HandleKeepsIdent(l, e);
  }

  /** An acknowledgement that passes the test on its identifier answers the latest request, give or take the echoes. */
  lemma AckKeepsSound(l: Lcp)
    requires Sound(l)
    ensures var m := l.(log := Then(l.log, AckTaken(l.ident))); Sound(m) && (Requesting(l.state) ==> PeerAcked(m.log))
  {
    ExpectedCounts(l.log);
  }

  lemma PreparedKeepsSound(l: Lcp, r: Reply)
    requires Sound(l)
    ensures Sound(l.(prepared := r))
  {
  }

  lemma EchoKeepsSound(l: Lcp, id: nat)
    requires Sound(l)
    ensures Sound(Recv(l, EchoReq(id)))
  {
    var m := l.(prepared := EchoReply(l.ident), ident := Inc(l.ident), log := Then(l.log, EchoAsked));
    assert PeerOk(m) && AgreedOk(m) && IdentOk(m) && PhaseOk(m);
    HandleKeepsSound(m, Rxr);
  }

  lemma AckedKeepsSound(l: Lcp)
    requires Sound(l)
    ensures Sound(Recv(l, ConfAckPkt(l.ident)))
  {
    AckKeepsSound(l);
    HandleKeepsSound(l.(log := Then(l.log, AckTaken(l.ident))), Rca);
  }

  lemma ReplyKeepsSound(l: Lcp, r: Reply, e: Event)
    requires Sound(l) && (e.RcrPlus? ==> r.ConfAck?) && (e.RcrPlus? || e.RcrMinus? || e.Rcn? || e.Rtr?)
    ensures Sound(Handle(l.(prepared := r), e))
  {
    PreparedKeepsSound(l, r);
    HandleKeepsSound(l.(prepared := r), e);
  }

  lemma RecvKeepsSound(l: Lcp, p: Packet)
    requires Sound(l)
    ensures Sound(Recv(l, p))
  {
    match p
    case ConfReq(ok) => ReplyKeepsSound(l, if ok then ConfAck else ConfNakOrRej, if ok then RcrPlus else RcrMinus);
    case ConfAckPkt(id) => if id == l.ident { AckedKeepsSound(l); }
    case ConfNakPkt(id) => ReplyKeepsSound(l, Blank, Rcn);
    case TermReq(id) => ReplyKeepsSound(l, TermAck(id), Rtr);
    case TermAckPkt(id) => HandleKeepsSound(l, Rta);
    case CodeRej(known) => HandleKeepsSound(l, if known then RxjMinus else RxjPlus);
    case ProtocolRej(lcp) => HandleKeepsSound(l, if lcp then RxjMinus else RxjPlus);
    case EchoReq(id) => EchoKeepsSound(l, id);
    case EchoRepOrDiscard =>
    case UnknownCode => HandleKeepsSound(l, Ruc);
  }

  lemma StepKeepsSound(l: Lcp, i: Input)
    requires Sound(l)
    ensures Sound(Step(l, i))
  {
    match i
    case LowerUp => HandleKeepsSound(l, Up);
    case LowerDown => HandleKeepsSound(l, Down);
    case AdminOpen => HandleKeepsSound(l, Open);
    case AdminClose => HandleKeepsSound(l, Close);
    case Timer => if l.timer { TickKeepsSound(l); }
    case Receive(p) => RecvKeepsSound(l, p);
  }

  lemma {:induction false} RunKeepsSound(l: Lcp, inputs: seq<Input>)
    requires Sound(l)
    ensures Sound(Run(l, inputs))
    decreases |inputs|
  {
    if inputs != [] {
      StepKeepsSound(l, inputs[0]);
      RunKeepsSound(Step(l, inputs[0]), inputs[1..]);
    }
  }

  lemma ReachedIsSound(inputs: seq<Input>)
    ensures Sound(Run(Boot(), inputs))
  {
    RunKeepsSound(Boot(), inputs);
  }

  // ---------- what follows for every run ----------

  /**
   Whatever arrives and whenever the timer fires: the restart timer is attached exactly in the five states that wait for
   the peer, and the network phase is exactly the opened state.
   */
  lemma TimerAndPhaseFollowState(inputs: seq<Input>)
    ensures var l := Run(Boot(), inputs); (l.timer <==> Waiting(l.state)) && (l.phase.Network? <==> l.state.Opened?)
  {
    ReachedIsSound(inputs);
  }

  /** The Configure-Ack that was taken carries the identifier of our latest request. */
  predicate AckIsExact(log: Log)
    requires PeerAcked(log)
  {
    AckSeen(log).value.id == LastRequest(log).id
  }

  /** The Echo-Requests that arrived between that request and the Configure-Ack. */
  function Overtaken(log: Log): nat
    requires PeerAcked(log)
  {
    AckSeen(log).value.echoes
  }

  lemma AdvancedByEchoes(id: nat, n: nat)
    requires id < 256
    ensures (id + n) % 256 == id <==> n % 256 == 0
  {
  }

  lemma ExactUnlessOvertaken(log: Log)
    requires PeerAcked(log) && IdsOk(log)
    ensures AckIsExact(log) <==> Overtaken(log) % 256 == 0
  {
    LastRequestIsByte(log);
    AdvancedByEchoes(LastRequest(log).id, Overtaken(log));
  }

  /**
   The link is opened only after both directions were answered: a Configure-Ack was taken since our latest request, and
   our latest answer to the peer was an acknowledgement, given since the link was last left.  The Configure-Ack carries
   the identifier of the request exactly when no Echo-Request, or 256 of them, and so on, arrived in between.
   */
  lemma OpenedMeansAgreed(inputs: seq<Input>)
    ensures var l := Run(Boot(), inputs);
            && (l.state.AckRcvd? || l.state.Opened? ==>
                  PeerAcked(l.log) && (AckIsExact(l.log) <==> Overtaken(l.log) % 256 == 0))
            && (l.state.Opened? ==> WeAcked(l.log))
  {
    var l := Run(Boot(), inputs);
    ReachedIsSound(inputs);
    if l.state.AckRcvd? || l.state.Opened? {
      ExactUnlessOvertaken(l.log);
    }
  }

  /** An instance that has just been opened, with its first request under way. */
  ghost predicate FirstRequest(l: Lcp) {
    && l.state.ReqSent? && l.ident == 1 && LastRequest(l.log) == SentReq(1) && Echoes(l.log) == 0
    && Requests(l.log) == 1 && Notices(l.log) == []
  }

  lemma OpenSendsFirstRequest(rest: seq<Input>) returns (l: Lcp)
    ensures Run(Boot(), [LowerUp, AdminOpen] + rest) == Run(l, rest) && FirstRequest(l)
  {
    var inputs := [LowerUp, AdminOpen] + rest;
    assert inputs[1..][1..] == rest;
    l := Step(Step(Boot(), LowerUp), AdminOpen);
  }

  lemma EchoThenAck(l: Lcp)
    requires FirstRequest(l)
    ensures var m := Recv(Recv(l, EchoReq(7)), ConfAckPkt(2));
            && m.state.AckRcvd? && Requests(m.log) == 1 && LastRequest(m.log) == SentReq(1)
            && AckSeen(m.log) == Some(Ack(2, 1))
  {
    var e := Recv(l, EchoReq(7));
    assert e.state.ReqSent? && e.ident == 2 && e.log == Then(Then(l.log, EchoAsked), Happened(Rxr));
    AckTakenAfter(Then(l.log, EchoAsked), e);
  }

  lemma AckTakenAfter(log: Log, e: Lcp)
    requires e.state.ReqSent? && e.ident == 2 && e.log == Then(log, Happened(Rxr))
    ensures var m := Recv(e, ConfAckPkt(2));
            && m.state.AckRcvd? && Requests(m.log) == Requests(log) && LastRequest(m.log) == LastRequest(log)
            && AckSeen(m.log) == Some(Ack(2, Echoes(log)))
  {
    var taken := Then(e.log, AckTaken(2));
    assert Requests(e.log) == Requests(log) && LastRequest(e.log) == LastRequest(log) && Echoes(e.log) == Echoes(log);
    assert Requests(taken) == Requests(log) && LastRequest(taken) == LastRequest(log);
    assert AckSeen(taken) == Some(Ack(2, Echoes(log)));
    assert Recv(e, ConfAckPkt(2)).log == Then(taken, Happened(Rca));
  }

  lemma RequestOpens(m: Lcp)
    requires m.state.AckRcvd?
    ensures var n := Recv(m, ConfReq(true));
            && n.state.Opened? && n.counter == m.counter && n.ident == m.ident
            && Notices(n.log) == Notices(m.log) + [true]
            && Requests(n.log) == Requests(m.log) && LastRequest(n.log) == LastRequest(m.log)
            && AckSeen(n.log) == AckSeen(m.log)
  {
  }

  lemma RunThree(l: Lcp, a: Input, b: Input, c: Input)
    ensures Run(l, [a, b, c]) == Step(Step(Step(l, a), b), c)
  {
    assert [a, b, c][1..] == [b, c] && [b, c][1..] == [c] && [c][1..] == [];
    assert Run(l, [a, b, c]) == Run(Step(l, a), [b, c]);
    assert Run(Step(l, a), [b, c]) == Run(Step(Step(l, a), b), [c]);
  }

  /** An Echo-Request in between, and the link opens on a Configure-Ack for a request that was never sent. */
  lemma OpensWithoutAnswer() returns (inputs: seq<Input>)
    ensures inputs == [LowerUp, AdminOpen] + [Receive(EchoReq(7)), Receive(ConfAckPkt(2)), Receive(ConfReq(true))]
    ensures var l := Run(Boot(), inputs);
            && l.state.Opened? && Requests(l.log) == 1 && LastRequest(l.log) == SentReq(1)
            && AckSeen(l.log) == Some(Ack(2, 1))
  {
    var a, b, c := Receive(EchoReq(7)), Receive(ConfAckPkt(2)), Receive(ConfReq(true));
    inputs := [LowerUp, AdminOpen] + [a, b, c];
    var l := OpenSendsFirstRequest([a, b, c]);
    RunThree(l, a, b, c);
    EchoThenAck(l);
    RequestOpens(Recv(Recv(l, EchoReq(7)), ConfAckPkt(2)));
  }

  /** The layer is raised and lowered alternately, and is up exactly while the link is opened. */
  lemma UpAndDownAlternate(inputs: seq<Input>)
    ensures var l := Run(Boot(), inputs); Ups(l.log) == Downs(l.log) + (if l.state.Opened? then 1 else 0)
  {
    ReachedIsSound(inputs);
  }

  // ---------- what the network layers hear ----------

  /** How often a run enters the opened state. */
  function Openings(l: Lcp, inputs: seq<Input>): nat
    decreases |inputs|
  {
    if inputs == [] then 0
    else
      var m := Step(l, inputs[0]);
      (if !l.state.Opened? && m.state.Opened? then 1 else 0) + Openings(m, inputs[1..])
  }

  lemma ReadNotices()
    ensures forall log, e: Entry :: Notices(Then(log, e)) == Notices(log) + (if e.Told? then [e.up] else [])
  {
  }

  lemma DoNotices(l: Lcp, a: Action)
    ensures Notices(Do(l, a).log) == Notices(l.log) + (if Raises(a) then [true] else [])
  {
    ReadNotices();
  }

  lemma HandleTells(l: Lcp, e: Event)
    ensures var m := Handle(l, e);
            Notices(m.log) == Notices(l.log) + (if !l.state.Opened? && m.state.Opened? then [true] else [])
  {
    DoNotices(l.(log := Then(l.log, Happened(e))), Transition(e, l.state).0);
    TableLayers(e, l.state);
  }

  lemma RecvTells(l: Lcp, p: Packet)
    ensures var m := Recv(l, p);
            Notices(m.log) == Notices(l.log) + (if !l.state.Opened? && m.state.Opened? then [true] else [])
  {
    match p
    case ConfReq(ok) =>
      HandleTells(l.(prepared := if ok then ConfAck else ConfNakOrRej), if ok then RcrPlus else RcrMinus);
    case ConfAckPkt(id) => HandleTells(l.(log := Then(l.log, AckTaken(id))), Rca);
    case ConfNakPkt(id) => HandleTells(l.(prepared := Blank), Rcn);
    case TermReq(id) => HandleTells(l.(prepared := TermAck(id)), Rtr);
    case TermAckPkt(id) => HandleTells(l, Rta);
    case CodeRej(known) => HandleTells(l, if known then RxjMinus else RxjPlus);
    case ProtocolRej(lcp) => HandleTells(l, if lcp then RxjMinus else RxjPlus);
    case EchoReq(_) =>
      HandleTells(l.(prepared := EchoReply(l.ident), ident := Inc(l.ident), log := Then(l.log, EchoAsked)), Rxr);
    case EchoRepOrDiscard =>
    case UnknownCode => HandleTells(l, Ruc);
  }

  lemma StepTells(l: Lcp, i: Input)
    ensures var m := Step(l, i);
            Notices(m.log) == Notices(l.log) + (if !l.state.Opened? && m.state.Opened? then [true] else [])
  {
    match i
    case LowerUp => HandleTells(l, Up);
    case LowerDown => HandleTells(l, Down);
    case AdminOpen => HandleTells(l, Open);
    case AdminClose => HandleTells(l, Close);
    case Timer =>
      HandleTells(l.(timer := false, ident := Dec(l.ident)), if l.counter != 0 then TimeoutPlus else TimeoutMinus);
    case Receive(p) => RecvTells(l, p);
  }

  lemma {:induction false} RunTells(l: Lcp, inputs: seq<Input>)
    requires forall i | 0 <= i < |Notices(l.log)| :: Notices(l.log)[i]
    ensures var told := Notices(Run(l, inputs).log);
            |told| == |Notices(l.log)| + Openings(l, inputs) && forall i | 0 <= i < |told| :: told[i]
    decreases |inputs|
  {
    if inputs != [] {
      StepTells(l, inputs[0]);
      RunTells(Step(l, inputs[0]), inputs[1..]);
    }
  }

  /** Every notice differs from the one before it. */
  predicate Alternates(told: seq<bool>) {
    forall i | 0 < i < |told| :: told[i] != told[i - 1]
  }

  lemma UpsAlternateExactly(told: seq<bool>)
    requires forall i | 0 <= i < |told| :: told[i]
    ensures Alternates(told) <==> |told| <= 1
  {
    if |told| > 1 {
      assert told[1] == told[0];
    }
  }

  /**
   The network layers are told that the link is up each time it opens, and never that it is down; so they hear up and
   down alternately exactly in the runs that open the link at most once.
   */
  lemma OnlyUpsAreTold(inputs: seq<Input>)
    ensures var told := Notices(Run(Boot(), inputs).log);
            && |told| == Openings(Boot(), inputs) && (forall i | 0 <= i < |told| :: told[i])
            && (Alternates(told) <==> Openings(Boot(), inputs) <= 1)
  {
    RunTells(Boot(), inputs);
    UpsAlternateExactly(Notices(Run(Boot(), inputs).log));
  }

  lemma AckThenRequest(l: Lcp)
    requires FirstRequest(l)
    ensures var m := Recv(Recv(l, ConfAckPkt(1)), ConfReq(true));
            m.state.Opened? && m.counter > 0 && m.ident == 1 && Notices(m.log) == [true]
  {
    var m := Recv(l, ConfAckPkt(1));
    RecvTells(l, ConfAckPkt(1));
    assert m.state.AckRcvd? && m.ident == 1 && m.counter > 0;
    RequestOpens(m);
  }

  lemma AskedAgain(m: Lcp)
    requires m.state.Opened? && m.counter > 0 && m.ident == 1
    ensures var n := Recv(m, ConfReq(true)); n.state.AckSent? && n.ident == 2 && Notices(n.log) == Notices(m.log)
  {
    HandleTells(m.(prepared := ConfAck), RcrPlus);
  }

  lemma RunFour(l: Lcp, a: Input, b: Input, c: Input, d: Input)
    ensures Run(l, [a, b, c, d]) == Step(Step(Step(Step(l, a), b), c), d)
  {
    assert [a, b, c, d][1..] == [b, c, d];
    RunThree(Step(l, a), b, c, d);
  }

  /** A peer that negotiates again: the layers hear up twice running. */
  lemma ToldUpTwice() returns (inputs: seq<Input>)
    ensures inputs == [LowerUp, AdminOpen]
                      + [Receive(ConfAckPkt(1)), Receive(ConfReq(true)), Receive(ConfReq(true)), Receive(ConfAckPkt(2))]
    ensures var l := Run(Boot(), inputs); l.state.Opened? && Notices(l.log) == [true, true]
  {
    var a, b, c := Receive(ConfAckPkt(1)), Receive(ConfReq(true)), Receive(ConfAckPkt(2));
    inputs := [LowerUp, AdminOpen] + [a, b, b, c];
    var l := OpenSendsFirstRequest([a, b, b, c]);
    RunFour(l, a, b, b, c);
    AckThenRequest(l);
    var m := Recv(Recv(l, ConfAckPkt(1)), ConfReq(true));
    AskedAgain(m);
    RecvTells(Recv(m, ConfReq(true)), ConfAckPkt(2));
  }

  // ---------- asking again, and giving up ----------

  lemma LeavingOpenedAsks(l: Lcp, e: Event)
    requires Sound(l) && l.state.Opened?
    ensures var m := Handle(l, e);
            m.state.ReqSent? || m.state.AckSent? ==> m.timer && Requests(m.log) == Requests(l.log) + 1
  {
    var m, a := l.(log := Then(l.log, Happened(e))), Transition(e, l.state).0;
    DoRequests(m, a);
    DoCounter(m, a);
  }

  lemma RecvInOpenedAsks(l: Lcp, p: Packet)
    requires Sound(l) && l.state.Opened?
    ensures var m := Recv(l, p);
            m.state.ReqSent? || m.state.AckSent? ==> m.timer && Requests(m.log) == Requests(l.log) + 1
  {
    match p
    case ConfReq(ok) =>
      LeavingOpenedAsks(l.(prepared := if ok then ConfAck else ConfNakOrRej), if ok then RcrPlus else RcrMinus);
    case ConfAckPkt(id) =>
      if id == l.ident {
        AckKeepsSound(l);
        LeavingOpenedAsks(l.(log := Then(l.log, AckTaken(id))), Rca);
      }
    case ConfNakPkt(id) => LeavingOpenedAsks(l.(prepared := Blank), Rcn);
    case TermAckPkt(id) => LeavingOpenedAsks(l, Rta);
    case _ =>
  }

  /** Leaving the opened state to negotiate again always sends a request and starts the timer. */
  lemma RenegotiationAsks(inputs: seq<Input>, p: Packet)
    requires Run(Boot(), inputs).state.Opened?
    ensures var l := Run(Boot(), inputs);
            var m := Recv(l, p);
            m.state.ReqSent? || m.state.AckSent? ==> m.timer && Requests(m.log) == Requests(l.log) + 1
  {
    ReachedIsSound(inputs);
    RecvInOpenedAsks(Run(Boot(), inputs), p);
  }

  function Ticks(l: Lcp, n: nat): Lcp {
    if n == 0 then l else Step(Ticks(l, n - 1), Timer)
  }

  lemma TickAsksAgain(l: Lcp)
    requires Sound(l) && Waiting(l.state) && l.counter > 0
    ensures var m := Tick(l);
            && Waiting(m.state) && m.counter == l.counter - 1 && Requests(m.log) == Requests(l.log) + 1
            && (m.state.Closing? <==> l.state.Closing?)
  {
    var m := l.(timer := false, ident := Dec(l.ident), log := Then(l.log, Happened(TimeoutPlus)));
    DoRequests(m, Transition(TimeoutPlus, l.state).0);
  }

  lemma LastTickEnds(l: Lcp)
    requires Sound(l) && Waiting(l.state) && l.counter == 0
    ensures var m := Tick(l);
            m.state == (if l.state.Closing? then Closed else Stopped) && !m.timer && Requests(m.log) == Requests(l.log)
  {
    var m := l.(timer := false, ident := Dec(l.ident), log := Then(l.log, Happened(TimeoutMinus)));
    DoRequests(m, Transition(TimeoutMinus, l.state).0);
  }

  lemma {:induction false} EachTickAsksAgain(l: Lcp, n: nat)
    requires Sound(l) && Waiting(l.state) && n <= l.counter
    ensures var m := Ticks(l, n);
            && Sound(m) && Waiting(m.state) && m.counter == l.counter - n && Requests(m.log) == Requests(l.log) + n
            && (m.state.Closing? <==> l.state.Closing?)
  {
    if n > 0 {
      EachTickAsksAgain(l, n - 1);
      TickAsksAgain(Ticks(l, n - 1));
      TickKeepsSound(Ticks(l, n - 1));
    }
  }

  /** After as many timeouts as the counter allows, and no earlier, the next one ends the wait. */
  ghost predicate GivesUp(l: Lcp) {
    var m := Ticks(l, l.counter + 1);
    && m.state == (if l.state.Closing? then Closed else Stopped) && !m.timer
    && Requests(m.log) == Requests(l.log) + l.counter
    && forall n: nat | n <= l.counter :: Waiting(Ticks(l, n).state)
  }

  lemma SilenceEndsTheWait(l: Lcp)
    requires Sound(l) && Waiting(l.state)
    ensures GivesUp(l)
  {
    forall n: nat | n <= l.counter ensures Waiting(Ticks(l, n).state) {
      EachTickAsksAgain(l, n);
    }
    EachTickAsksAgain(l, l.counter);
    LastTickEnds(Ticks(l, l.counter));
  }

  /**
   A silent peer: with the restart counter at n the instance asks exactly n more times, and the next timeout, at most
   the eleventh, ends the wait.
   */
  lemma SilentPeerGivesUp(inputs: seq<Input>)
    requires Waiting(Run(Boot(), inputs).state)
    ensures var l := Run(Boot(), inputs); l.counter + 1 <= 11 && GivesUp(l)
  {
    ReachedIsSound(inputs);
    SilenceEndsTheWait(Run(Boot(), inputs));
  }

  lemma IncWraps(n: nat)
    ensures Inc(n % 256) == (n + 1) % 256
  {
  }

  lemma {:induction false} ExpectedCounts(log: Log)
    requires IdsOk(log)
    ensures LastRequest(log).SentReq? ==> Expected(log) == (LastRequest(log).id + Echoes(log)) % 256
    ensures LastRequest(log).SentTerm? ==> Expected(log) == (LastRequest(log).id + 1 + Echoes(log)) % 256
  {
    match log
    case Empty =>
    case Then(before, e) =>
      if e.SentTerm? {
        IncWraps(e.id);
      } else if !e.SentReq? {
        ExpectedCounts(before);
        if e.EchoAsked? && (LastRequest(before).SentReq? || LastRequest(before).SentTerm?) {
          var r := LastRequest(before);
          IncWraps(r.id + (if r.SentTerm? then 1 else 0) + Echoes(before));
        }
      }
  }

  lemma ConfigureAckIsTaken(l: Lcp, ack: nat)
    requires l.state.ReqSent? || l.state.AckSent?
    ensures Recv(l, ConfAckPkt(ack)).state != l.state <==> ack == l.ident
  {
  }

  lemma TerminateAckIsTaken(l: Lcp, ack: nat)
    requires l.state.Closing? || l.state.Stopping?
    ensures Recv(l, TermAckPkt(ack)).state != l.state <==> ack == l.ident
  {
  }

  lemma IdentCounts(l: Lcp)
    requires Sound(l) && Waiting(l.state)
    ensures LastRequest(l.log).SentReq? ==> l.ident == (LastRequest(l.log).id + Echoes(l.log)) % 256
    ensures LastRequest(l.log).SentTerm? ==> l.ident == (LastRequest(l.log).id + 1 + Echoes(l.log)) % 256
  {
    ExpectedCounts(l.log);
  }

  /**
   A Configure-Ack is recognised exactly when it carries the identifier of the last request, advanced by one for every
   Echo-Request that arrived in between.
   */
  lemma ConfigureAckIsRecognised(inputs: seq<Input>, l: Lcp, id: nat, ack: nat)
    requires l == Run(Boot(), inputs) && (l.state.ReqSent? || l.state.AckSent?) && LastRequest(l.log) == SentReq(id)
    ensures Recv(l, ConfAckPkt(ack)).state != l.state <==> ack == (id + Echoes(l.log)) % 256
  {
    ReachedIsSound(inputs);
    ConfigureAckCounts(l, id, ack);
  }

  lemma ConfigureAckCounts(l: Lcp, id: nat, ack: nat)
    requires Sound(l) && (l.state.ReqSent? || l.state.AckSent?) && LastRequest(l.log) == SentReq(id)
    ensures Recv(l, ConfAckPkt(ack)).state != l.state <==> ack == (id + Echoes(l.log)) % 256
  {
    IdentCounts(l);
    ConfigureAckIsTaken(l, ack);
  }

  lemma OneBehindAtLast(id: nat, n: nat)
    requires id < 256
    ensures id == (id + 1 + n) % 256 <==> n % 256 == 255
  {
  }

  /**
   A Terminate-Request is stamped before the identifier is advanced, so a Terminate-Ack is one behind: the answer to our
   request is taken exactly when 255 Echo-Requests, or 256 more, and so on, have arrived since.
   */
  lemma TerminateAckIsRecognised(inputs: seq<Input>, l: Lcp, id: nat, ack: nat)
    requires l == Run(Boot(), inputs) && (l.state.Closing? || l.state.Stopping?) && LastRequest(l.log) == SentTerm(id)
    ensures Recv(l, TermAckPkt(ack)).state != l.state <==> ack == (id + 1 + Echoes(l.log)) % 256
    ensures Recv(l, TermAckPkt(id)).state != l.state <==> Echoes(l.log) % 256 == 255
  {
    ReachedIsSound(inputs);
    TerminateAckCounts(l, id, ack);
    OwnAckCounts(l, id);
  }

  lemma OwnAckCounts(l: Lcp, id: nat)
    requires Sound(l) && (l.state.Closing? || l.state.Stopping?) && LastRequest(l.log) == SentTerm(id)
    ensures Recv(l, TermAckPkt(id)).state != l.state <==> Echoes(l.log) % 256 == 255
  {
    TerminateAckCounts(l, id, id);
    LastRequestIsByte(l.log);
    OneBehindAtLast(id, Echoes(l.log));
  }

  /** Opening and closing at once: the answer to the Terminate-Request changes nothing. */
  lemma TerminateAckIsIgnored() returns (inputs: seq<Input>)
    ensures inputs == [LowerUp, AdminOpen] + [AdminClose]
    ensures var l := Run(Boot(), inputs);
            && l.state.Closing? && LastRequest(l.log) == SentTerm(1) && Echoes(l.log) == 0
            && Recv(l, TermAckPkt(1)) == l
  {
    inputs := [LowerUp, AdminOpen] + [AdminClose];
    var l := OpenSendsFirstRequest([AdminClose]);
    CloseTerminates(l);
    assert [AdminClose][1..] == [];
    assert Run(l, [AdminClose]) == Run(Step(l, AdminClose), []) == Step(l, AdminClose);
  }

  lemma CloseTerminates(l: Lcp)
    requires FirstRequest(l)
    ensures var m := Step(l, AdminClose);
            m.state.Closing? && LastRequest(m.log) == SentTerm(1) && Echoes(m.log) == 0 && m.ident == 2
  {
  }

  lemma TerminateAckCounts(l: Lcp, id: nat, ack: nat)
    requires Sound(l) && (l.state.Closing? || l.state.Stopping?) && LastRequest(l.log) == SentTerm(id)
    ensures Recv(l, TermAckPkt(ack)).state != l.state <==> ack == (id + 1 + Echoes(l.log)) % 256
  {
    IdentCounts(l);
    TerminateAckIsTaken(l, ack);
  }

  lemma {:induction false} LastRequestIsByte(log: Log)
    requires IdsOk(log)
    ensures LastRequest(log).SentTerm? || LastRequest(log).SentReq? ==> LastRequest(log).id < 256
  {
    match log
    case Empty =>
    case Then(before, e) =>
      if !(e.SentReq? || e.SentTerm?) {
        LastRequestIsByte(before);
      }
  }

  // ---------- the instance in place ----------

  /** How deeply an action is built from simpler ones. */
  function Parts(a: Action): nat {
    match a
    case TldScr => 1
    case IrcTlu => 1
    case IrcScr => 1
    case IrcStr => 1
    case ScaTlu => 1
    case TldIrcStr => 2
    case TldScrSca => 2
    case TldScrScn => 2
    case TldZrcSta => 2
    case IrcScrSca => 2
    case IrcScrScn => 2
    case _ => 0
  }

  class PppInstance {
    var state: LinkState
    var phase: Phase
    var restartCounter: nat
    var timerAttached: bool
    var ident: nat
    var prepared: Reply
    var log: Log

    ghost function View(): Lcp
      reads this
    {
      Lcp(state, phase, restartCounter, timerAttached, ident, prepared, log)
    }

    constructor ()
      ensures View() == Handle(Handle(Boot(), Up), Open)
    {
      state, phase, restartCounter, timerAttached, ident, prepared, log := Initial, Dead, 0, false, 0, Blank, Empty;
      new;
      HandleEvent(Up);
      HandleEvent(Open);
    }

    method SendConfigureRequest()
      modifies this
      ensures View() == SendRequest(old(View()))
    {
      if restartCounter > 0 {
        restartCounter := restartCounter - 1;
        ident := Inc(ident);
        timerAttached := true;
        log := Then(log, SentReq(ident));
      }
    }

    method SendTerminateRequest()
      modifies this
      ensures View() == SendTerminate(old(View()))
    {
      if restartCounter > 0 {
        restartCounter := restartCounter - 1;
        log := Then(log, SentTerm(ident));
        ident := Inc(ident);
        timerAttached := true;
      }
    }

    method HandleSimple(a: Action)
      requires Parts(a) == 0
      modifies this
      ensures View() == Do(old(View()), a)
    {
      match a
      case NoAction =>
      case Tlu => phase, log := Network, Then(Then(log, LayerUp), Told(true));
      case Tld => phase, log := Terminate, Then(log, LayerDown);
      case Tls => phase := Establish;
      case Tlf => phase := Dead;
      case Irc => restartCounter := if phase.Terminate? then MAX_TERMINATE else MAX_CONFIGURE;
      case Zrc => restartCounter, timerAttached := 0, true;
      case Scr => SendConfigureRequest();
      case Str => SendTerminateRequest();
      case Sca => log := Then(log, Sent(prepared));
      case Scn => log := Then(log, Sent(prepared));
      case Sta => log := Then(log, Sent(prepared));
      case Ser => log := Then(log, Sent(prepared));
      case Scj =>
    }

    method HandlePair(a: Action)
      requires Parts(a) <= 1
      modifies this
      ensures View() == Do(old(View()), a)
    {
      if Parts(a) == 0 {
        HandleSimple(a);
      } else {
        match a
        case TldScr => HandleSimple(Tld); HandleSimple(Scr);
        case IrcTlu => HandleSimple(Irc); HandleSimple(Tlu);
        case IrcScr => HandleSimple(Irc); HandleSimple(Scr);
        case IrcStr => HandleSimple(Irc); HandleSimple(Str);
        case ScaTlu => HandleSimple(Sca); HandleSimple(Tlu);
      }
    }

    method HandleAction(a: Action)
      modifies this
      ensures View() == Do(old(View()), a)
    {
      match a
      case TldIrcStr => HandlePair(Tld); HandlePair(IrcStr);
      case TldScrSca => HandlePair(TldScr); HandlePair(Sca);
      case TldScrScn => HandlePair(TldScr); HandlePair(Scn);
      case TldZrcSta => HandlePair(Tld); HandlePair(Zrc); HandlePair(Sta);
      case IrcScrSca => HandlePair(IrcScr); HandlePair(Sca);
      case IrcScrScn => HandlePair(IrcScr); HandlePair(Scn);
      case _ => HandlePair(a);
    }

    method HandleEvent(e: Event)
      modifies this
      ensures View() == Handle(old(View()), e)
    {
      var (a, next) := Transition(e, state);
      log := Then(log, Happened(e));
      HandleAction(a);
      if next.Initial? || next.Starting? || next.Closed? || next.Stopped? || next.Opened? {
        timerAttached := false;
      }
      state := next;
    }

    method TickTimeout()
      modifies this
      ensures View() == Tick(old(View()))
    {
      timerAttached := false;
      ident := Dec(ident);
      HandleEvent(if restartCounter != 0 then TimeoutPlus else TimeoutMinus);
    }

    method RecvPacket(p: Packet)
      modifies this
      ensures View() == Recv(old(View()), p)
    {
      match p
      case ConfReq(ok) =>
        prepared := if ok then ConfAck else ConfNakOrRej;
        HandleEvent(if ok then RcrPlus else RcrMinus);
      case ConfAckPkt(id) =>
        if id == ident {
          log := Then(log, AckTaken(id));
          HandleEvent(Rca);
        }
      case ConfNakPkt(id) =>
        if id == ident {
          prepared := Blank;
          HandleEvent(Rcn);
        }
      case TermReq(id) =>
        prepared := TermAck(id);
        HandleEvent(Rtr);
      case TermAckPkt(id) =>
        if id == ident { HandleEvent(Rta); }
      case CodeRej(known) => HandleEvent(if known then RxjMinus else RxjPlus);
      case ProtocolRej(lcp) => HandleEvent(if lcp then RxjMinus else RxjPlus);
      case EchoReq(_) =>
        prepared := EchoReply(ident);
        log := Then(log, EchoAsked);
        ident := Inc(ident);
        HandleEvent(Rxr);
      case EchoRepOrDiscard =>
      case UnknownCode => HandleEvent(Ruc);
    }

    /** Whatever arrives, one step of the instance keeps what holds of every link. */
    method Accept(i: Input)
      requires Sound(View())
      modifies this
      ensures View() == Step(old(View()), i) && Sound(View())
    {
      StepKeepsSound(View(), i);
      match i
      case LowerUp => HandleEvent(Up);
      case LowerDown => HandleEvent(Down);
      case AdminOpen => HandleEvent(Open);
      case AdminClose => HandleEvent(Close);
      case Timer => if timerAttached { TickTimeout(); }
      case Receive(p) => RecvPacket(p);
    }
  }
}
