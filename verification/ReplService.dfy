/**
 * The REPL service over ZeroMQ: one transaction as the adapter performs it, and the
 * protocol formed by concurrent callers, the adapter's lock, a network that may
 * delay or drop, and the master. Requests and replies carry no identifier, only the
 * socket they travel on.
 */
module ReplService {
  import opened Wrappers
  import opened Pdos

  datatype CommandType = CtrlCmd | EcatMasterCmd | FoeMaster | OtherCommand(code: int)

  /** A REPL command. `initialized` is false while a required Protobuf field is missing. */
  datatype Request = Request(cmd: CommandType, initialized: bool, header: Option<Header>, body: int)

  datatype ReplyType = Ack | Nack | OtherReply

  datatype Reply = Reply(rtype: ReplyType, cmd: CommandType, msg: string, header: Option<Header>)

  /** Bytes received from the master, as the Protobuf parser sees them. */
  datatype Wire = Parsed(reply: Reply) | Garbage

  datatype ServiceResult = ServiceResult(success: bool, outcomeUnknown: bool, message: string, reply: Reply)

  /** A reply nobody filled in: neither ACK nor NACK. */
  const NO_REPLY := Reply(OtherReply, OtherCommand(0), "", None)

  const UNINITIALIZED: string := "Uninitialized REPL command"
  const SEND_FAILED: string := "ZeroMQ send failed"
  const NO_REPLY_IN_TIME: string := "Master reply timeout; command outcome unknown; no automatic retry"
  const UNEXPECTED_REPLY: string := "Malformed or unexpected master reply; command outcome unknown"
  const NOT_STARTED: string := "REPL service is not started"

  /** How one exchange with the transport goes. */
  datatype Exchange =
    | SetupThrows(what: string)    // context, socket options or connect
    | SendThrows(what: string)
    | SendTimesOut
    | ReceiveThrows(what: string)
    | ReceiveTimesOut
    | Received(wire: Wire)

  /** The frame the master routes on. */
  function RoutingFrame(r: Request): string {
    if r.cmd == EcatMasterCmd || r.cmd == FoeMaster then "MASTER_CMD" else "ESC_CMD"
  }

  /** The master answered this very command. */
  predicate Answers(w: Wire, r: Request, t: ReplyType) {
    w.Parsed? && w.reply.cmd == r.cmd && w.reply.rtype == t
  }

  /** What the caller is told. */
  function TextOf(request: Request, env: Exchange): string {
    if !request.initialized then UNINITIALIZED
    else
      match env
      case SetupThrows(what) => "ZeroMQ: " + what
      case SendThrows(what) => "ZeroMQ: " + what
      case ReceiveThrows(what) => "ZeroMQ: " + what
      case SendTimesOut => SEND_FAILED
      case ReceiveTimesOut => NO_REPLY_IN_TIME
      case Received(wire) =>
        if Answers(wire, request, Ack) || Answers(wire, request, Nack) then wire.reply.msg else UNEXPECTED_REPLY
  }

  /** One transaction: at most one send, never a retry. Master and firmware commands are routed to the master
      itself, all others to a slave. */
  method ExecuteZmq(request: Request, env: Exchange) returns (r: ServiceResult, handed: seq<(string, Request)>)
    ensures handed ==
            if request.initialized && (env.ReceiveThrows? || env.ReceiveTimesOut? || env.Received?) then
              [(if request.cmd == EcatMasterCmd || request.cmd == FoeMaster then "MASTER_CMD" else "ESC_CMD", request)]
            else []
    ensures r.success <==>
            handed != [] && env.Received? && env.wire.Parsed?
            && env.wire.reply.cmd == request.cmd && env.wire.reply.rtype == Ack
    ensures !r.success && !r.outcomeUnknown <==>
            handed == [] || (env.Received? && env.wire.Parsed?
                             && env.wire.reply.cmd == request.cmd && env.wire.reply.rtype == Nack)
    ensures !(r.success && r.outcomeUnknown)
    ensures r.reply.rtype != OtherReply <==> handed != [] && !r.outcomeUnknown
    ensures r.reply.rtype != OtherReply ==>
              && r.reply == env.wire.reply.(
                   header := if request.header.Some? then request.header else env.wire.reply.header)
              && r.message == env.wire.reply.msg
    ensures r.message == TextOf(request, env)
  {
    handed := [];
    if !request.initialized {
      return ServiceResult(false, false, UNINITIALIZED, NO_REPLY), handed;
    }
    var sent := false;
    match env {
      case SetupThrows(what) =>
        return ServiceResult(false, sent, "ZeroMQ: " + what, NO_REPLY), handed;
      case SendThrows(what) =>
        return ServiceResult(false, sent, "ZeroMQ: " + what, NO_REPLY), handed;
      case SendTimesOut =>
        return ServiceResult(false, false, SEND_FAILED, NO_REPLY), handed;
      case _ =>
    }
    handed := [(RoutingFrame(request), request)];
    sent := true;
    if env.ReceiveThrows? {
      return ServiceResult(false, sent, "ZeroMQ: " + env.what, NO_REPLY), handed;
    }
    if env.ReceiveTimesOut? {
      return ServiceResult(false, true,
        NO_REPLY_IN_TIME, NO_REPLY), handed;
    }
    if env.wire.Garbage? || env.wire.reply.cmd != request.cmd
       || (env.wire.reply.rtype != Ack && env.wire.reply.rtype != Nack)
    {
      return ServiceResult(false, true,
        UNEXPECTED_REPLY, NO_REPLY), handed;
    }
    var reply := env.wire.reply;
    if request.header.Some? {
      reply := reply.(header := request.header);
    }
    return ServiceResult(reply.rtype == Ack, false, reply.msg, reply), handed;
  }

  datatype Transport = Shm | Zmq

  datatype ServiceConfig = ServiceConfig(transport: Transport, commandUri: string, timeoutMs: UInt32)

  datatype ConfigError = ShmUnsupported | BadUriOrTimeout

  class AdapterServiceServer {
    const config: ServiceConfig
    var started: bool

    constructor (config: ServiceConfig)
      ensures this.config == config && !started
    {
      this.config, started := config, false;
    }

    /** The configuration check that guards construction. */
    static method Create(config: ServiceConfig) returns (r: Result<AdapterServiceServer, ConfigError>)
      ensures r.Ok? <==> config.transport == Zmq && config.commandUri != "" && 1 <= config.timeoutMs <= 60000
      ensures r.Ok? ==> fresh(r.value) && r.value.config == config && !r.value.started
      ensures config.transport != Zmq ==> r == Err(ShmUnsupported)
    {
      if config.transport != Zmq {
        return Err(ShmUnsupported);
      }
      if config.commandUri == "" || config.timeoutMs == 0 || config.timeoutMs > 60000 {
        return Err(BadUriOrTimeout);
      }
      var server := new AdapterServiceServer(config);
      return Ok(server);
    }

    predicate Ready()
      reads this
    {
      started && config.transport == Zmq
    }

    method Start() returns (ok: bool)
      modifies this
      ensures ok == started == (config.transport == Zmq)
    {
      started := config.transport == Zmq;
      ok := started;
    }

    method Close()
      modifies this
      ensures !started
    {
      started := false;
    }

    method ProcessRequestResult(request: Request, env: Exchange)
      returns (r: ServiceResult, handed: seq<(string, Request)>)
      ensures handed ==
              if started && config.transport == Zmq && request.initialized
                 && (env.ReceiveThrows? || env.ReceiveTimesOut? || env.Received?) then
                [(if request.cmd == EcatMasterCmd || request.cmd == FoeMaster then "MASTER_CMD" else "ESC_CMD",
                  request)]
              else []
      ensures r.success <==>
              handed != [] && env.Received? && env.wire.Parsed?
              && env.wire.reply.cmd == request.cmd && env.wire.reply.rtype == Ack
      ensures !r.success && !r.outcomeUnknown <==>
              handed == [] || (env.Received? && env.wire.Parsed?
                               && env.wire.reply.cmd == request.cmd && env.wire.reply.rtype == Nack)
      ensures !(started && config.transport == Zmq) ==> r.message == NOT_STARTED
      ensures started && config.transport == Zmq ==> r.message == TextOf(request, env)
      ensures r.reply.rtype != OtherReply ==> r.message == r.reply.msg
      ensures r.reply.rtype == Ack <==> r.success
      ensures r.reply.rtype == Nack ==> handed != [] && !r.success && !r.outcomeUnknown
      ensures r.reply.rtype != OtherReply ==> r.reply.cmd == request.cmd
      ensures r.reply.rtype != OtherReply && request.header.Some? ==> r.reply.header == request.header
    {
      if !Ready() {
        return ServiceResult(false, false, NOT_STARTED, NO_REPLY), [];
      }
      r, handed := ExecuteZmq(request, env);
    }

    /** Callers of this form always get an ACK or a NACK for their own command, with their own header;
        an ACK only if the master acknowledged it. */
    method ProcessRequest(request: Request, env: Exchange) returns (reply: Reply)
      ensures reply.rtype == Ack <==>
              started && config.transport == Zmq && request.initialized && env.Received? && env.wire.Parsed?
              && env.wire.reply.cmd == request.cmd && env.wire.reply.rtype == Ack
      ensures reply.rtype == Ack || reply.rtype == Nack
      ensures reply.cmd == request.cmd
      ensures request.header.Some? ==> reply.header == request.header
      ensures !(started && config.transport == Zmq) ==> reply.msg == NOT_STARTED
      ensures started && config.transport == Zmq ==> reply.msg == TextOf(request, env)
    {
      var r, _ := ProcessRequestResult(request, env);
      if r.reply.rtype == Ack || r.reply.rtype == Nack {
        return r.reply;
      }
      reply := MakeNack(request, r.message);
    }
  }

  function MakeNack(request: Request, message: string): Reply {
    Reply(Nack, request.cmd, message, request.header)
  }

  // ---- the protocol ----------------------------------------------------------------------------

  datatype Verdict = Verdict(success: bool, outcomeUnknown: bool)

  /** A caller's progress: waiting for the lock, holding it with an open socket, waiting for a reply
      on that socket, finished. */
  datatype Phase = Waiting | Holding | Sent | Finished(verdict: Verdict)

  datatype Txn = Txn(request: Request, phase: Phase, socket: Option<nat>)

  /** A request under way to the master, with the socket it left by and the frame it is routed on. */
  datatype Letter = Letter(socket: nat, txn: nat, frame: string)

  /** What the master answered to which transaction's request. */
  datatype Answer = Answer(txn: nat, wire: Wire)

  /** An answer under way back: all there is to it is a socket and bytes. */
  datatype InFlight = InFlight(socket: nat, wire: Wire)

  datatype State = State(
    started: bool,
    txns: seq<Txn>,
    lock: Option<nat>,
    sockets: nat,                // how many sockets have been opened
    handed: seq<nat>,            // every hand-over of a request to the transport
    requests: set<Letter>,
    answered: seq<Answer>,       // everything the master ever answered
    replies: set<InFlight>)

  const INIT := State(false, [], None, 0, [], {}, [], {})

  datatype Action =
    | StartService | CloseService
    | CallService(request: Request)
    | Acquire(t: nat)
    | FailBeforeSend(t: nat)
    | Send(t: nat)
    | LoseRequest(l: Letter)
    | MasterAnswers(l: Letter, wire: Wire)
    | LoseReply(m: InFlight)
    | Receive(t: nat, m: InFlight)
    | FailAfterSend(t: nat)

  predicate InPhase(s: State, t: nat, p: Phase) {
    t < |s.txns| && s.txns[t].phase == p
  }

  /** A transaction reads whatever arrives on the socket it has open. */
  predicate Enabled(s: State, a: Action) {
    match a
    case StartService => s.lock.None?
    case CloseService => s.lock.None?
    case CallService(_) => true
    case Acquire(t) => s.lock.None? && InPhase(s, t, Waiting)
    case FailBeforeSend(t) => InPhase(s, t, Holding)
    case Send(t) => InPhase(s, t, Holding) && s.txns[t].socket.Some?
    case LoseRequest(l) => l in s.requests
    case MasterAnswers(l, _) => l in s.requests
    case LoseReply(m) => m in s.replies
    case Receive(t, m) => InPhase(s, t, Sent) && m in s.replies && s.txns[t].socket == Some(m.socket)
    case FailAfterSend(t) => InPhase(s, t, Sent)
  }

  function SetPhase(s: State, t: nat, p: Phase): State
    requires t < |s.txns|
  {
    s.(txns := s.txns[t := s.txns[t].(phase := p)])
  }

  function Finish(s: State, t: nat, v: Verdict): State
    requires t < |s.txns|
  {
    SetPhase(s, t, Finished(v)).(lock := None)
  }

  /** How the adapter classifies what it read for a request. */
  function VerdictOn(r: Request, w: Wire): Verdict {
    if Answers(w, r, Ack) then Verdict(true, false)
    else if Answers(w, r, Nack) then Verdict(false, false)
    else Verdict(false, true)
  }

  /** `freshSockets`: each transaction opens a socket of its own, as the source does. Otherwise all use
      socket 0, opened once. */
  function Next(freshSockets: bool, s: State, a: Action): State
    requires Enabled(s, a)
  {
    match a
    case StartService => s.(started := true)
    case CloseService => s.(started := false)
    case CallService(r) => s.(txns := s.txns + [Txn(r, Waiting, None)])
    case Acquire(t) =>
      if !s.started || !s.txns[t].request.initialized then Finish(s, t, Verdict(false, false))
      else
        var socket := if freshSockets then s.sockets else 0;
        s.(txns := s.txns[t := s.txns[t].(phase := Holding, socket := Some(socket))],
           lock := Some(t), sockets := if freshSockets then s.sockets + 1 else 1)
    case FailBeforeSend(t) => Finish(s, t, Verdict(false, false))
    case Send(t) =>
      SetPhase(s, t, Sent).(
        handed := s.handed + [t],
        requests := s.requests + {Letter(s.txns[t].socket.value, t, RoutingFrame(s.txns[t].request))})
    case LoseRequest(l) => s.(requests := s.requests - {l})
    case MasterAnswers(l, w) =>
      s.(requests := s.requests - {l}, answered := s.answered + [Answer(l.txn, w)],
         replies := s.replies + {InFlight(l.socket, w)})
    case LoseReply(m) => s.(replies := s.replies - {m})
    case Receive(t, m) =>
      Finish(s, t, VerdictOn(s.txns[t].request, m.wire)).(replies := s.replies - {m})
    case FailAfterSend(t) => Finish(s, t, Verdict(false, true))
  }

  /** The verdict is what `ExecuteZmq` returns for the corresponding exchange. */
  method VerdictOfExchange(request: Request, env: Exchange) returns (v: Verdict)
    requires request.initialized
    ensures env.Received? ==> v == VerdictOn(request, env.wire)
    ensures env.ReceiveThrows? || env.ReceiveTimesOut? ==> v == Verdict(false, true)
    ensures env.SetupThrows? || env.SendThrows? || env.SendTimesOut? ==> v == Verdict(false, false)
  {
    var r, _ := ExecuteZmq(request, env);
    v := Verdict(r.success, r.outcomeUnknown);
  }

  /** A run: each action is enabled where it is taken. */
  predicate IsRun(freshSockets: bool, s: State, actions: seq<Action>)
    decreases |actions|
  {
    actions == [] ||
    (Enabled(s, actions[0]) && IsRun(freshSockets, Next(freshSockets, s, actions[0]), actions[1..]))
  }

  function After(freshSockets: bool, s: State, actions: seq<Action>): State
    requires IsRun(freshSockets, s, actions)
    decreases |actions|
  {
    if actions == [] then s else After(freshSockets, Next(freshSockets, s, actions[0]), actions[1..])
  }

  // ---- sockets -----------------------------------------------------------------------------------

  /** The master's answer `w` to transaction `t` is among those it gave. */
  predicate Answered(s: State, t: nat, w: Wire) {
    exists i :: 0 <= i < |s.answered| && s.answered[i] == Answer(t, w)
  }

  /** The answer under way is one the master gave to a request that left by the same socket. */
  predicate Accounted(s: State, m: InFlight) {
    exists i :: 0 <= i < |s.answered| && s.answered[i].wire == m.wire
                && s.answered[i].txn < |s.txns| && s.txns[s.answered[i].txn].socket == Some(m.socket)
  }

  /** No two transactions ever have the same socket; requests and answers stay on theirs. */
  ghost predicate SocketsApart(s: State) {
    && (forall t :: 0 <= t < |s.txns| && s.txns[t].socket.Some? ==> s.txns[t].socket.value < s.sockets)
    && (forall t, u :: 0 <= t < u < |s.txns| && s.txns[t].socket.Some? ==> s.txns[t].socket != s.txns[u].socket)
    && (forall l :: l in s.requests ==> l.txn < |s.txns| && s.txns[l.txn].socket == Some(l.socket))
    && (forall m :: m in s.replies ==> Accounted(s, m))
  }

  /** Every request under way was complete, and is on its transaction's frame. */
  predicate Routed(s: State) {
    forall l :: l in s.requests ==>
      && l.txn < |s.txns| && s.txns[l.txn].request.initialized
      && l.frame == if s.txns[l.txn].request.cmd == EcatMasterCmd || s.txns[l.txn].request.cmd == FoeMaster
                    then "MASTER_CMD" else "ESC_CMD"
  }

  lemma AccountsStay(s: State, n: State, m: InFlight)
    requires Accounted(s, m) && s.answered <= n.answered && |s.txns| <= |n.txns|
    requires forall t :: 0 <= t < |s.txns| && s.txns[t].socket.Some? ==> n.txns[t].socket == s.txns[t].socket
    ensures Accounted(n, m)
  {
    var i :| 0 <= i < |s.answered| && s.answered[i].wire == m.wire
             && s.answered[i].txn < |s.txns| && s.txns[s.answered[i].txn].socket == Some(m.socket);
    assert n.answered[i] == s.answered[i];
  }

  /** A socket is opened for a transaction that had none; nothing else touches sockets. */
  lemma SocketsKept(s: State, a: Action)
    requires Enabled(s, a) && (a.Acquire? ==> s.txns[a.t].socket.None?)
    ensures var n := Next(true, s, a);
            && |s.txns| <= |n.txns| && s.answered <= n.answered && s.sockets <= n.sockets
            && forall t :: 0 <= t < |s.txns| && s.txns[t].socket.Some? ==> n.txns[t].socket == s.txns[t].socket
  {
  }

  lemma SocketsStayApart(s: State, a: Action)
    requires SocketsApart(s) && Enabled(s, a) && (a.Acquire? ==> s.txns[a.t].socket.None?)
    ensures SocketsApart(Next(true, s, a))
  {
    var n := Next(true, s, a);
    SocketsKept(s, a);
    forall m | m in n.replies ensures Accounted(n, m) {
      if m in s.replies {
        AccountsStay(s, n, m);
      } else {
        assert n.answered[|s.answered|] == Answer(a.l.txn, m.wire);
      }
    }
  }

  // ---- verdicts ------------------------------------------------------------------------------------

  /** The master answered transaction `t` with an ACK (or NACK) for its command. */
  ghost predicate MasterSaid(s: State, t: nat, rt: ReplyType)
    requires t < |s.txns|
  {
    exists w :: Answered(s, t, w) && Answers(w, s.txns[t].request, rt)
  }

  /** What a verdict promises about the transaction it was given to. */
  ghost predicate VerdictTrue(s: State, t: nat, v: Verdict)
    requires t < |s.txns|
  {
    && (v.success ==> !v.outcomeUnknown && MasterSaid(s, t, Ack))
    && (!v.success && !v.outcomeUnknown ==> t !in s.handed || MasterSaid(s, t, Nack))
    && (v.outcomeUnknown ==> t in s.handed)
  }

  ghost predicate TxnSound(s: State, t: nat)
    requires t < |s.txns|
  {
    match s.txns[t].phase
    case Waiting => t !in s.handed && s.txns[t].socket.None?
    case Holding => t !in s.handed && s.lock == Some(t) && s.txns[t].request.initialized
    case Sent => t in s.handed && s.lock == Some(t) && s.txns[t].request.initialized
    case Finished(v) => VerdictTrue(s, t, v)
  }

  ghost predicate Invariant(s: State) {
    && SocketsApart(s) && Routed(s)
    && NoDuplicates(s.handed)
    && (forall t :: t in s.handed ==> t < |s.txns| && s.txns[t].request.initialized)
    && (forall t :: 0 <= t < |s.txns| ==> TxnSound(s, t))
    && (s.lock.Some? ==>
          s.started && s.lock.value < |s.txns| && s.txns[s.lock.value].phase in {Holding, Sent})
    && (forall l :: l in s.requests ==> l.txn in s.handed)
    && (forall i :: 0 <= i < |s.answered| ==> s.answered[i].txn in s.handed)
    && (forall i, l :: 0 <= i < |s.answered| && l in s.requests ==> s.answered[i].txn != l.txn)
    && (forall i, j :: 0 <= i < j < |s.answered| ==> s.answered[i].txn != s.answered[j].txn)
  }

  /** A step that leaves a transaction and its hand-over alone leaves what is known of it true. */
  lemma SoundnessKept(s: State, n: State, t: nat)
    requires t < |s.txns| <= |n.txns| && TxnSound(s, t)
    requires n.txns[t] == s.txns[t] && s.answered <= n.answered && (t in n.handed <==> t in s.handed)
    requires s.txns[t].phase in {Holding, Sent} ==> n.lock == s.lock
    ensures TxnSound(n, t)
  {
    forall rt: ReplyType | MasterSaid(s, t, rt) ensures MasterSaid(n, t, rt) {
      var w :| Answered(s, t, w) && Answers(w, s.txns[t].request, rt);
      var i :| 0 <= i < |s.answered| && s.answered[i] == Answer(t, w);
      assert n.answered[i] == Answer(t, w);
      assert Answered(n, t, w);
    }
  }

  /** What arrives on a transaction's socket is the master's answer to that very transaction. */
  lemma OwnReply(s: State, t: nat, m: InFlight)
    requires SocketsApart(s) && Enabled(s, Receive(t, m))
    ensures Answered(s, t, m.wire)
  {
    assert Accounted(s, m);
    var i :| 0 <= i < |s.answered| && s.answered[i].wire == m.wire
             && s.answered[i].txn < |s.txns| && s.txns[s.answered[i].txn].socket == Some(m.socket);
    var u := s.answered[i].txn;
    assert u == t;
    assert s.answered[i] == Answer(t, m.wire);
  }

  lemma ReceivedVerdict(s: State, t: nat, m: InFlight)
    requires Invariant(s) && Enabled(s, Receive(t, m))
    ensures TxnSound(Next(true, s, Receive(t, m)), t)
  {
    var n := Next(true, s, Receive(t, m));
    assert TxnSound(s, t);
    OwnReply(s, t, m);
    assert Answered(n, t, m.wire) && n.txns[t].request == s.txns[t].request;
    if Answers(m.wire, s.txns[t].request, Ack) {
      assert MasterSaid(n, t, Ack);
    } else if Answers(m.wire, s.txns[t].request, Nack) {
      assert MasterSaid(n, t, Nack);
    }
  }

  /** The transaction an action belongs to, if it moves one. */
  function Mover(a: Action): Option<nat> {
    match a
    case Acquire(t) => Some(t)
    case FailBeforeSend(t) => Some(t)
    case Send(t) => Some(t)
    case Receive(t, _) => Some(t)
    case FailAfterSend(t) => Some(t)
    case _ => None
  }

  lemma TxnsStaySound(s: State, a: Action, t: nat)
    requires Invariant(s) && Enabled(s, a) && t < |Next(true, s, a).txns|
    ensures TxnSound(Next(true, s, a), t)
  {
    var n := Next(true, s, a);
    if t < |s.txns| {
      assert TxnSound(s, t);
      if Mover(a) != Some(t) {
        if Mover(a).Some? { assert TxnSound(s, Mover(a).value); }
        SoundnessKept(s, n, t);
      } else if a.Receive? {
        ReceivedVerdict(s, t, a.m);
      }
    }
  }

  lemma StaysRouted(s: State, a: Action)
    requires Invariant(s) && Enabled(s, a)
    ensures Routed(Next(true, s, a))
  {
    if a.Send? {
      assert TxnSound(s, a.t);
    }
  }

  /** A request the master is about to answer is the only one of its transaction under way. */
  lemma OneLetterEach(s: State, l: Letter, k: Letter)
    requires SocketsApart(s) && Routed(s) && l in s.requests && k in s.requests && l.txn == k.txn
    ensures l == k
  {
  }

  lemma AnsweredAreGone(s: State, a: Action)
    requires Invariant(s) && Enabled(s, a)
    ensures var n := Next(true, s, a);
            forall i, l :: 0 <= i < |n.answered| && l in n.requests ==> n.answered[i].txn != l.txn
  {
    var n := Next(true, s, a);
    forall i, l | 0 <= i < |n.answered| && l in n.requests ensures n.answered[i].txn != l.txn {
      if a.MasterAnswers? && i == |s.answered| {
        if l.txn == a.l.txn { OneLetterEach(s, l, a.l); }
      } else if a.Send? && l !in s.requests {
        assert TxnSound(s, a.t);
        assert s.answered[i].txn in s.handed;
      }
    }
  }

  lemma AnsweredOnce(s: State, a: Action)
    requires Invariant(s) && Enabled(s, a)
    ensures var n := Next(true, s, a);
            && (forall i :: 0 <= i < |n.answered| ==> n.answered[i].txn in n.handed)
            && (forall i, j :: 0 <= i < j < |n.answered| ==> n.answered[i].txn != n.answered[j].txn)
  {
  }

  lemma HandedOnce(s: State, a: Action)
    requires Invariant(s) && Enabled(s, a)
    ensures var n := Next(true, s, a);
            && NoDuplicates(n.handed)
            && (forall t :: t in n.handed ==> t < |n.txns| && n.txns[t].request.initialized)
            && (forall l :: l in n.requests ==> l.txn in n.handed)
  {
    if a.Send? {
      assert TxnSound(s, a.t);
    }
  }

  lemma LockedByOne(s: State, a: Action)
    requires Invariant(s) && Enabled(s, a)
    ensures var n := Next(true, s, a);
            n.lock.Some? ==>
              n.started && n.lock.value < |n.txns| && n.txns[n.lock.value].phase in {Holding, Sent}
  {
    if Mover(a).Some? {
      assert TxnSound(s, Mover(a).value);
    }
  }

  lemma InvariantStep(s: State, a: Action)
    requires Invariant(s) && Enabled(s, a)
    ensures Invariant(Next(true, s, a))
  {
    if a.Acquire? {
      assert TxnSound(s, a.t);
    }
    SocketsStayApart(s, a);
    StaysRouted(s, a);
    AnsweredAreGone(s, a);
    AnsweredOnce(s, a);
    HandedOnce(s, a);
    LockedByOne(s, a);
    forall t | 0 <= t < |Next(true, s, a).txns| ensures TxnSound(Next(true, s, a), t) {
      TxnsStaySound(s, a, t);
    }
  }

  lemma {:induction false} InvariantRun(s: State, actions: seq<Action>)
    requires Invariant(s) && IsRun(true, s, actions)
    ensures Invariant(After(true, s, actions))
    decreases |actions|
  {
    if actions != [] {
      InvariantStep(s, actions[0]);
      InvariantRun(Next(true, s, actions[0]), actions[1..]);
    }
  }

  /** The master's `i`-th answer was to transaction `t`, for its own command, and of this type. */
  predicate AnswerIs(s: State, i: nat, t: nat, rt: ReplyType) {
    && i < |s.answered| && t < |s.txns| && s.answered[i].txn == t && s.answered[i].wire.Parsed?
    && s.answered[i].wire.reply.cmd == s.txns[t].request.cmd && s.answered[i].wire.reply.rtype == rt
  }

  lemma WhatWasSaid(s: State, t: nat, rt: ReplyType)
    requires t < |s.txns| && MasterSaid(s, t, rt)
    ensures exists i :: AnswerIs(s, i, t, rt)
  {
    var w :| Answered(s, t, w) && Answers(w, s.txns[t].request, rt);
    var i :| 0 <= i < |s.answered| && s.answered[i] == Answer(t, w);
    assert AnswerIs(s, i, t, rt);
  }

  /** In every interleaving: a finished transaction's verdict is true of that transaction, a request is
      handed to the transport at most once, and the master answers it at most once. */
  lemma VerdictsAreTrue(actions: seq<Action>, t: nat, v: Verdict)
    requires IsRun(true, INIT, actions) && InPhase(After(true, INIT, actions), t, Finished(v))
    ensures var s := After(true, INIT, actions);
            && (v.success ==> !v.outcomeUnknown && exists i :: AnswerIs(s, i, t, Ack))
            && (!v.success && !v.outcomeUnknown ==> t !in s.handed || exists i :: AnswerIs(s, i, t, Nack))
            && (v.outcomeUnknown ==> t in s.handed)
            && (t in s.handed ==> s.txns[t].request.initialized)
    ensures NoDuplicates(After(true, INIT, actions).handed)
    ensures var answered := After(true, INIT, actions).answered;
            forall i, j :: 0 <= i < j < |answered| ==> answered[i].txn != answered[j].txn
  {
    InvariantRun(INIT, actions);
    var s := After(true, INIT, actions);
    assert TxnSound(s, t);
    if v.success {
      WhatWasSaid(s, t, Ack);
    } else if MasterSaid(s, t, Nack) {
      WhatWasSaid(s, t, Nack);
    }
  }

  /** In every interleaving a request on its way is complete, and on the frame its command is routed by. */
  lemma RequestsAreRouted(actions: seq<Action>, l: Letter)
    requires IsRun(true, INIT, actions) && l in After(true, INIT, actions).requests
    ensures var s := After(true, INIT, actions);
            && l.txn < |s.txns| && s.txns[l.txn].request.initialized
            && (l.frame == "MASTER_CMD" <==>
                  s.txns[l.txn].request.cmd == EcatMasterCmd || s.txns[l.txn].request.cmd == FoeMaster)
            && (l.frame == "MASTER_CMD" || l.frame == "ESC_CMD")
  {
    InvariantRun(INIT, actions);
  }

  /** Nothing is open, and nothing was ever handed over. */
  predicate Untouched(s: State) {
    && !s.started && s.handed == []
    && forall t :: 0 <= t < |s.txns| ==> s.txns[t].phase.Waiting? || s.txns[t].phase.Finished?
  }

  lemma {:induction false} StaysUntouched(s: State, actions: seq<Action>)
    requires Untouched(s) && IsRun(true, s, actions) && StartService !in actions
    ensures Untouched(After(true, s, actions))
    decreases |actions|
  {
    if actions != [] {
      assert actions[0] in actions;
      StaysUntouched(Next(true, s, actions[0]), actions[1..]);
    }
  }

  /** Before the service is started nothing is handed over, whoever calls. */
  lemma NothingUnlessStarted(actions: seq<Action>)
    requires IsRun(true, INIT, actions) && StartService !in actions
    ensures After(true, INIT, actions).handed == []
  {
    StaysUntouched(INIT, actions);
  }

  lemma AnsweredInTime(request: Request, reply: Reply) returns (run: seq<Action>, end: State)
    requires request.initialized
    ensures IsRun(true, INIT, run) && After(true, INIT, run) == end
    ensures InPhase(end, 0, Finished(VerdictOn(request, Parsed(reply)))) && end.handed == [0]
  {
    var started := Next(true, INIT, StartService);
    var called := Next(true, started, CallService(request));
    var held := Next(true, called, Acquire(0));
    var sent := Next(true, held, Send(0));
    var letter := Letter(0, 0, RoutingFrame(request));
    var answered := Next(true, sent, MasterAnswers(letter, Parsed(reply)));
    var back := InFlight(0, Parsed(reply));
    end := Next(true, answered, Receive(0, back));
    run := RunCons(true, answered, Receive(0, back), [], end);
    run := RunCons(true, sent, MasterAnswers(letter, Parsed(reply)), run, end);
    run := RunCons(true, held, Send(0), run, end);
    run := RunCons(true, called, Acquire(0), run, end);
    run := RunCons(true, started, CallService(request), run, end);
    run := RunCons(true, INIT, StartService, run, end);
  }

  /** And it can succeed: for every complete request there is a run in which the master's ACK comes in time and the
      request, handed over once, is reported as acknowledged. */
  lemma AckedRequestSucceeds(request: Request)
    requires request.initialized
    ensures exists run :: IsRun(true, INIT, run)
              && InPhase(After(true, INIT, run), 0, Finished(Verdict(true, false)))
              && After(true, INIT, run).handed == [0]
  {
    var run, end := AnsweredInTime(request, Reply(Ack, request.cmd, "", None));
    assert InPhase(end, 0, Finished(Verdict(true, false)));
  }

  /** In every interleaving, whatever a transaction can read is the master's answer to that transaction and
      to no other: a late reply has nobody to be credited to. */
  lemma LateRepliesFindNobody(actions: seq<Action>, t: nat, m: InFlight)
    requires IsRun(true, INIT, actions) && Enabled(After(true, INIT, actions), Receive(t, m))
    ensures var s := After(true, INIT, actions);
            && Answered(s, t, m.wire)
            && forall u :: 0 <= u < |s.txns| && u != t ==> s.txns[u].socket != Some(m.socket)
  {
    InvariantRun(INIT, actions);
    OwnReply(After(true, INIT, actions), t, m);
  }

  /** At most one transaction is open at any time, and the service is not closed under it. */
  lemma OneOpenTransaction(actions: seq<Action>, t: nat, u: nat)
    requires IsRun(true, INIT, actions)
    requires t < |After(true, INIT, actions).txns| && u < |After(true, INIT, actions).txns|
    requires After(true, INIT, actions).txns[t].phase in {Holding, Sent}
    requires After(true, INIT, actions).txns[u].phase in {Holding, Sent}
    ensures t == u && After(true, INIT, actions).started
  {
    InvariantRun(INIT, actions);
    assert TxnSound(After(true, INIT, actions), t) && TxnSound(After(true, INIT, actions), u);
  }

  /** A verdict, once given, stays: whatever arrives or is lost later. */
  lemma {:induction false} VerdictsAreFinal(s: State, actions: seq<Action>, t: nat, v: Verdict)
    requires IsRun(true, s, actions) && InPhase(s, t, Finished(v))
    ensures InPhase(After(true, s, actions), t, Finished(v))
    decreases |actions|
  {
    if actions != [] {
      VerdictsAreFinal(Next(true, s, actions[0]), actions[1..], t, v);
    }
  }

  // ---- a shared socket -----------------------------------------------------------------------------

  const START_CMD := Request(CtrlCmd, true, None, 11)
  const STOP_CMD := Request(CtrlCmd, true, None, 12)
  const ACK := Parsed(Reply(Ack, CtrlCmd, "", None))
  const LATE_ACK := InFlight(0, ACK)

  const TIMED_OUT := Txn(START_CMD, Finished(Verdict(false, true)), Some(0))

  /** The start command has timed out, and the master's ACK for it is still on its way. */
  const LATE := State(true, [TIMED_OUT], None, 1, [0], {}, [Answer(0, ACK)], {LATE_ACK})

  /** The stop command was sent, and has read that ACK. */
  const CREDITED := State(true,
    [TIMED_OUT, Txn(STOP_CMD, Finished(Verdict(true, false)), Some(0))],
    None, 1, [0, 1], {Letter(0, 1, "ESC_CMD")}, [Answer(0, ACK)], {})

  lemma LateReplyIsCredited() returns (run: seq<Action>)
    ensures IsRun(false, LATE, run) && After(false, LATE, run) == CREDITED
  {
    var called := Next(false, LATE, CallService(STOP_CMD));
    var held := Next(false, called, Acquire(1));
    var sent := Next(false, held, Send(1));
    assert Next(false, sent, Receive(1, LATE_ACK)) == CREDITED;
    run := RunCons(false, sent, Receive(1, LATE_ACK), [], CREDITED);
    run := RunCons(false, held, Send(1), run, CREDITED);
    run := RunCons(false, called, Acquire(1), run, CREDITED);
    run := RunCons(false, LATE, CallService(STOP_CMD), run, CREDITED);
  }

  /** The first transaction is started, and holds the adapter. */
  const HELD: State :=
    Next(false, Next(false, Next(false, INIT, StartService), CallService(START_CMD)), Acquire(0))

  lemma TimeoutThenLateReply() returns (run: seq<Action>)
    ensures IsRun(false, HELD, run) && After(false, HELD, run) == CREDITED
  {
    run := LateReplyIsCredited();
    var sent := Next(false, HELD, Send(0));
    var failed := Next(false, sent, FailAfterSend(0));
    var letter := Letter(0, 0, "ESC_CMD");
    assert Next(false, failed, MasterAnswers(letter, ACK)) == LATE;
    run := RunCons(false, failed, MasterAnswers(letter, ACK), run, CREDITED);
    run := RunCons(false, sent, FailAfterSend(0), run, CREDITED);
    run := RunCons(false, HELD, Send(0), run, CREDITED);
  }

  /** Why every transaction opens its own socket: in the same system with one shared socket there is a run in
      which a start command times out, its late ACK is read by the stop command that follows, and the
      stop is reported as acknowledged although the master never answered it. */
  lemma SharedSocketMisattributes()
    ensures exists actions, t, v ::
              && IsRun(false, INIT, actions) && InPhase(After(false, INIT, actions), t, Finished(v))
              && v.success && !MasterSaid(After(false, INIT, actions), t, Ack)
  {
    var run := TimeoutThenLateReply();
    var started := Next(false, INIT, StartService);
    var called := Next(false, started, CallService(START_CMD));
    run := RunCons(false, called, Acquire(0), run, CREDITED);
    run := RunCons(false, started, CallService(START_CMD), run, CREDITED);
    run := RunCons(false, INIT, StartService, run, CREDITED);
    assert InPhase(CREDITED, 1, Finished(Verdict(true, false))) && !MasterSaid(CREDITED, 1, Ack);
  }

  lemma RunCons(freshSockets: bool, s: State, a: Action, rest: seq<Action>, end: State) returns (run: seq<Action>)
    requires Enabled(s, a) && IsRun(freshSockets, Next(freshSockets, s, a), rest)
    requires After(freshSockets, Next(freshSockets, s, a), rest) == end
    ensures IsRun(freshSockets, s, run) && After(freshSockets, s, run) == end
  {
    run := [a] + rest;
    assert run[1..] == rest;
  }
}
