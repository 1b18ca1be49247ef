/** One FTP session as an event-step system: every handler that asio runs is one step.

    The functions follow the members of Session, SessionContext and BasicOp one by one;
    the values a handler gets from the operating system come with the event. */
module Engine {
  import opened Text
  import opened Requests
  import opened Replies
  import opened Commands
  import SendFile
  import RecvFile

  // ---------------------------------------------------------------- state

  type OpId = nat

  datatype Deadline = Never | At(time: int)

  /** check_idle_timer_: its expiry, the waits pending on it and the completions queued for
      them. `armed`/`fired` count the waits of start_idle_timer, `keep`/`released` the wait
      that keeps a closed session alive. `since` is the time of the last restart. */
  datatype Timer = Timer(now: int, expiry: Deadline, armed: nat, fired: nat, keep: nat, released: nat, since: int)

  /** What runs when a message has been delivered: nothing, the first wait of the operation
      that the token captures, or any other function, which captures no operation. */
  datatype Token = NoToken | Start(op: OpId) | Call

  datatype Message = Message(reply: Reply, token: Token)

  datatype Phase = Starting | Started | Dead

  /** The control channel. `writes` lists the buffers of the outstanding async_write calls;
      `pushed` bytes of the first one have left. */
  datatype Control = Control(
    phase: Phase,
    queue: seq<Message>,
    writes: seq<string>,
    pushed: nat,
    buf: string,
    reading: bool,
    stopped: bool)

  /** A handler that is waiting outside the queue; each holds a reference to its operation.
      An accept on a socket that is not listening is not `viable`: it can only fail. */
  datatype Cont =
    | Accept(op: OpId, viable: bool)
    | Writable(op: OpId)
    | Limiter(op: OpId, expiry: int)
    | Readable(op: OpId)
    | DataWrite(op: OpId)

  /** The shared_ptr-managed operations: `refs` holds each one as often as it is referenced. */
  datatype Heap = Heap(ops: map<OpId, Kind>, refs: multiset<OpId>, active: int, next: OpId, conts: seq<Cont>)

  datatype DataSocket = NoSocket | Socket(open: bool)

  /** What has happened so far; no step depends on it. `ran` lists the tokens that have been
      called, `stalled` is set by a failed write with no live operation and reset by a line. */
  datatype History = History(
    logged: seq<Message>,
    delivered: seq<Message>,
    ran: seq<Token>,
    wire: string,
    received: string,
    consumed: string,
    executed: seq<Kind>,
    transfers: seq<Request>,
    dataOut: string,
    writeFailed: bool,
    stalled: bool)

  /** `sends` and `recvs` keep the last state of every SendFileOp and RecvFileOp, also after
      its destruction. */
  datatype State = State(
    ctl: Control,
    tmr: Timer,
    heap: Heap,
    props: Props,
    data: DataSocket,
    sends: map<OpId, SendFile.Transfer>,
    recvs: map<OpId, RecvFile.Receiver>,
    hist: History)

  function Banner(cfg: Config): string {
    CodeInfo(WELCOME, if cfg.banner == "" then "Welcome to ftpd." else cfg.banner).text
  }

  // Session::start: the welcome reply is being written, nothing else has begun
  function Init(cfg: Config, now: int): State {
    State(Control(Starting, [], [Banner(cfg)], 0, "", false, false),
          Timer(now, Never, 0, 0, 0, 0, now),
          Heap(map[], multiset{}, 0, 0, []),
          Fresh(cfg),
          NoSocket,
          map[],
          map[],
          History([], [], [], "", "", "", [], [], "", false, false))
  }

  // ---------------------------------------------------------------- idle timer

  // steady_timer::cancel: every pending wait completes
  function Cancel(t: Timer): Timer {
    t.(armed := 0, fired := t.fired + t.armed, keep := 0, released := t.released + t.keep)
  }

  // steady_timer::expires_at
  function ExpiresAt(t: Timer, d: Deadline): Timer { Cancel(t).(expiry := d) }

  // Session::update_idle_timer with max_idle_timeout
  function Restart(cfg: Config, s: State): State {
    s.(tmr := ExpiresAt(s.tmr, At(s.tmr.now + cfg.maxIdleTimeout * SendFile.SECOND)).(since := s.tmr.now))
  }

  // SessionContext::exists_pending_operator
  predicate Pending(s: State) { !(s.heap.active == 0 && s.ctl.queue == []) }

  // the common tail of ~BasicOp and of do_write_message on an empty queue
  function Settle(cfg: Config, s: State): State {
    if Pending(s) then s
    else if !s.ctl.stopped then Restart(cfg, s)
    else s.(tmr := Cancel(s.tmr))
  }

  // Session::close
  function Close(s: State): State {
    s.(ctl := s.ctl.(stopped := true), tmr := Cancel(s.tmr))
  }

  // ---------------------------------------------------------------- reply queue

  function TokenRefs(token: Token): multiset<OpId> {
    if token.Start? then multiset{token.op} else multiset{}
  }

  // SessionContext::do_write_message
  function DoWrite(cfg: Config, s: State): State {
    if s.ctl.queue == [] then Settle(cfg, s)
    else s.(ctl := s.ctl.(writes := s.ctl.writes + [s.ctl.queue[0].reply.text], pushed := 0))
  }

  // SessionContext::write_message
  function Write(cfg: Config, s: State, reply: Reply, token: Token): State {
    var isWriting := s.ctl.queue != [];
    var m := Message(reply, token);
    var t := s.(ctl := s.ctl.(queue := s.ctl.queue + [m]),
                heap := s.heap.(refs := s.heap.refs + TokenRefs(token)),
                hist := s.hist.(logged := s.hist.logged + [m]));
    if isWriting then t else DoWrite(cfg, t)
  }

  // ---------------------------------------------------------------- operations

  // make_shared of an operation: BasicOp::BasicOp, held by its creator
  function Construct(s: State, kind: Kind): State {
    var id := s.heap.next;
    s.(heap := s.heap.(ops := s.heap.ops[id := kind], refs := s.heap.refs + multiset{id},
                       active := s.heap.active + 1, next := id + 1),
       hist := s.hist.(executed := s.hist.executed + [kind]))
  }

  // the destructor: a transfer closes the data socket, then ~BasicOp
  function Destroy(cfg: Config, s: State, op: OpId): State {
    var cuts := op in s.heap.ops && IsTransfer(s.heap.ops[op]) && s.data == Socket(true);
    var data := if cuts then Socket(false) else s.data;
    Settle(cfg, s.(data := data, heap := s.heap.(ops := s.heap.ops - {op}, active := s.heap.active - 1)))
  }

  function Retain(s: State, op: OpId): State {
    s.(heap := s.heap.(refs := s.heap.refs + multiset{op}))
  }

  function Release(cfg: Config, s: State, op: OpId): State {
    var t := s.(heap := s.heap.(refs := s.heap.refs - multiset{op}));
    if op in t.heap.refs then t else Destroy(cfg, t, op)
  }

  function ReleaseToken(cfg: Config, s: State, token: Token): State {
    if token.Start? then Release(cfg, s, token.op) else s
  }

  function AddCont(s: State, c: Cont): State {
    Retain(s.(heap := s.heap.(conts := s.heap.conts + [c])), c.op)
  }

  // asio moves a handler out before it runs; the reference it holds lives until the handler returns
  function TakeCont(s: State, i: nat): State
    requires i < |s.heap.conts|
  {
    s.(heap := s.heap.(conts := s.heap.conts[..i] + s.heap.conts[i + 1..]))
  }

  // an operation that answers at once: created, run, dropped
  function RunSimple(cfg: Config, s: State, kind: Kind, req: Request): State
    requires !IsTransfer(kind)
  {
    var id := s.heap.next;
    var t := Construct(s, kind);
    var (props, reply) := Answer(cfg, t.props, kind, req);
    Release(cfg, Write(cfg, t.(props := props), reply, NoToken), id)
  }

  // BasicOp::fetch_passive_connection
  function FetchPassiveConnection(cfg: Config, s: State, op: OpId): State {
    if s.props.acceptor.Closed? then Write(cfg, s, Code(INVALID_SEQ), NoToken)
    else AddCont(s, Accept(op, s.props.acceptor.Listening?))
  }

  // the constructor of a transfer operation after BasicOp's, and do_operation up to the accept
  function StartTransfer(cfg: Config, s: State, kind: Kind, req: Request, op: OpId): State
    requires IsTransfer(kind)
  {
    match OpenTransfer(cfg, s.props, kind, req.body)
    case Refused(reply) => Write(cfg, s, reply, NoToken)
    case Ready(content) =>
      FetchPassiveConnection(cfg, OpenFile(s, kind, content, op), op)
  }

  // what the operation has to do
  function OpenFile(s: State, kind: Kind, content: string, op: OpId): State {
    match kind
    case Send => s.(sends := s.sends[op := SendFile.Open(content)])
    case Recv => s.(recvs := s.recvs[op := RecvFile.Start()])
    case _ => s
  }

  // a transfer operation: created, run, dropped by its creator
  function RunTransfer(cfg: Config, s: State, kind: Kind, req: Request): State
    requires IsTransfer(kind)
  {
    var t := Construct(s, kind);
    var u := t.(hist := t.hist.(transfers := t.hist.transfers + [req]));
    Release(cfg, StartTransfer(cfg, u, kind, req, s.heap.next), s.heap.next)
  }

  // ---------------------------------------------------------------- reading commands

  // Session::dispatch_task, and the check on its result in handle_read
  function Dispatch(cfg: Config, s: State, req: Request): State {
    match RouteOf(s.props, req)
    case Run(kind) => if IsTransfer(kind) then RunTransfer(cfg, s, kind, req) else RunSimple(cfg, s, kind, req)
    case Reject(reply) =>
      var t := Write(cfg, s, reply, NoToken);
      if Pending(t) then t else Restart(cfg, t)
  }

  // the first complete line leaves the buffer
  function TakeLine(s: State): State {
    var n := LineEnd(s.ctl.buf);
    s.(ctl := s.ctl.(buf := s.ctl.buf[n..]), hist := s.hist.(consumed := s.hist.consumed + s.ctl.buf[..n]))
  }

  function FirstLine(s: State): string { s.ctl.buf[..LineEnd(s.ctl.buf)] }

  // the read handler of do_read, with handle_read
  function OnLine(cfg: Config, s: State): State {
    var t := TakeLine(s.(tmr := ExpiresAt(s.tmr, Never), hist := s.hist.(stalled := false)));
    match ParseLine(FirstLine(s))
    case None => if Pending(t) then t else Restart(cfg, t)
    case Some(req) => Dispatch(cfg, t, req)
  }

  // the read handler at end of file
  function OnEof(s: State): State {
    var t := Close(s.(ctl := s.ctl.(reading := false)));
    if t.heap.active == 0 then t
    else
      var tmr := ExpiresAt(t.tmr, Never);
      t.(tmr := tmr.(keep := tmr.keep + 1))
  }

  // the handler of start_idle_timer
  function OnIdle(s: State): State
    requires s.tmr.fired > 0
  {
    var t := s.(tmr := s.tmr.(fired := s.tmr.fired - 1));
    if t.ctl.stopped then t
    else if t.tmr.expiry.Never? || t.tmr.expiry.time > t.tmr.now then t.(tmr := t.tmr.(armed := t.tmr.armed + 1))
    else Close(t)
  }

  // ---------------------------------------------------------------- writing replies

  // the handler of start
  function OnBanner(cfg: Config, s: State): State {
    var t := Restart(cfg, s.(ctl := s.ctl.(phase := Started, writes := [], reading := true)));
    t.(tmr := t.tmr.(armed := t.tmr.armed + 1))
  }

  // what the token of a 150 reply waits for
  function FirstWait(kind: Kind, op: OpId): Cont {
    match kind
    case Send => Writable(op)
    case Recv => Readable(op)
    case _ => DataWrite(op)
  }

  // a call of a completion token: it starts its transfer, if it has one, and may itself call
  // write_message for any messages, here `calls`
  function RunToken(cfg: Config, s: State, token: Token, calls: seq<Message>): (t: State)
    ensures s.ctl.queue != [] ==> t.ctl.queue != []
  {
    if token.NoToken? then s
    else
      var t := s.(hist := s.hist.(ran := s.hist.ran + [token]));
      WriteAll(cfg, if token.Start? && token.op in s.heap.ops
                    then AddCont(t, FirstWait(s.heap.ops[token.op], token.op)) else t, calls)
  }

  function WriteAll(cfg: Config, s: State, ms: seq<Message>): (t: State)
    ensures s.ctl.queue != [] ==> t.ctl.queue != []
    decreases |ms|
  {
    if ms == [] then s else WriteAll(cfg, Write(cfg, s, ms[0].reply, ms[0].token), ms[1..])
  }

  // the write handler of do_write_message up to the pop: the front message is out, its token runs
  function Deliver(cfg: Config, s: State, calls: seq<Message>): (t: State)
    requires s.ctl.queue != [] && s.ctl.writes != []
    ensures t.ctl.queue != []
  {
    var m := s.ctl.queue[0];
    RunToken(cfg, s.(ctl := s.ctl.(writes := s.ctl.writes[1..]),
                     hist := s.hist.(delivered := s.hist.delivered + [m])), m.token, calls)
  }

  // the pop: the token is destroyed while its message still counts as queued
  function Pop(cfg: Config, s: State): State
    requires s.ctl.queue != []
  {
    var t := ReleaseToken(cfg, s, s.ctl.queue[0].token);
    t.(ctl := t.ctl.(queue := s.ctl.queue[1..]))
  }

  // the write handler of do_write_message, when the token calls write_message for `calls`
  function OnReentered(cfg: Config, s: State, calls: seq<Message>): State
    requires s.ctl.queue != [] && s.ctl.writes != []
  {
    DoWrite(cfg, Pop(cfg, Deliver(cfg, s, calls)))
  }

  // ... and for the daemon's own tokens, which call it for nothing
  function OnWritten(cfg: Config, s: State): State
    requires s.ctl.queue != [] && s.ctl.writes != []
  {
    OnReentered(cfg, s, [])
  }

  function ReleaseAll(cfg: Config, s: State, ms: seq<Message>): State
    decreases |ms|
  {
    if ms == [] then s else ReleaseAll(cfg, ReleaseToken(cfg, s, ms[0].token), ms[1..])
  }

  // the write handler on an error: the queue is swapped away and destroyed
  function OnWriteFailed(cfg: Config, s: State): State
    requires s.ctl.writes != []
  {
    var t := s.(ctl := s.ctl.(writes := s.ctl.writes[1..], queue := []),
                hist := s.hist.(writeFailed := true, stalled := s.heap.active == 0));
    ReleaseAll(cfg, t, s.ctl.queue)
  }

  // ---------------------------------------------------------------- transfers

  // the handler of async_accept without an error
  function OnAccepted(cfg: Config, s: State, i: nat): State
    requires i < |s.heap.conts|
  {
    var op := s.heap.conts[i].op;
    var t := TakeCont(s, i).(props := s.props.(acceptor := Closed), data := Socket(true));
    Release(cfg, Write(cfg, t, Code(DATA_CONN), Start(op)), op)
  }

  // the handler of async_accept with an error; an aborted accept leaves the acceptor alone
  function OnAcceptFailed(cfg: Config, s: State, i: nat, aborted: bool): State
    requires i < |s.heap.conts|
  {
    var t := TakeCont(s, i);
    Release(cfg, if aborted then t else t.(props := t.props.(acceptor := Closed)), s.heap.conts[i].op)
  }

  // the completion of a transfer: 226, then clear_data_socket
  function Complete(cfg: Config, s: State): State {
    Write(cfg, s, Code(TRANSFER_COMPLETE), NoToken).(data := NoSocket)
  }

  // SendFileOp::deal_event
  function OnSend(cfg: Config, s: State, i: nat, ec: bool, ret: SendFile.Ret): State
    requires i < |s.heap.conts| && s.heap.conts[i].op in s.sends
  {
    var op := s.heap.conts[i].op;
    var before := s.sends[op];
    var (after, next) := SendFile.Deal(before, SendFile.Slice(cfg.downloadLimit), ec, ret, s.tmr.now);
    var bytes := if |before.sent| <= |after.sent| then after.sent[|before.sent|..] else "";
    var t := TakeCont(s, i).(sends := s.sends[op := after], hist := s.hist.(dataOut := s.hist.dataOut + bytes));
    Release(cfg, AfterSend(cfg, t, op, next), op)
  }

  function AfterSend(cfg: Config, s: State, op: OpId, next: SendFile.Next): State {
    match next
    case AwaitWritable => AddCont(s, Writable(op))
    case AwaitTimer(expiry) => AddCont(s, Limiter(op, expiry))
    case Completed => Complete(cfg, s)
    case Dropped => s
  }

  // RecvFileOp::deal_event
  function OnReceive(cfg: Config, s: State, i: nat, ec: bool, script: seq<RecvFile.Splice>): State
    requires i < |s.heap.conts| && s.heap.conts[i].op in s.recvs
  {
    var op := s.heap.conts[i].op;
    if ec then Release(cfg, TakeCont(s, i), op)
    else
      var (r, status) := RecvFile.Deal(s.recvs[op], script, None);
      var t := TakeCont(s, i).(recvs := s.recvs[op := r]);
      Release(cfg, AfterReceive(cfg, t, op, status), op)
  }

  function AfterReceive(cfg: Config, s: State, op: OpId, status: RecvFile.Status): State {
    match status
    case Finished => Complete(cfg, s)
    case UnexpectedTerminate => s
    case _ => AddCont(s, Readable(op))
  }

  // the data write of ListOp::handle_data_connection; its error code is not looked at
  function OnListed(cfg: Config, s: State, i: nat, bytes: string): State
    requires i < |s.heap.conts|
  {
    var op := s.heap.conts[i].op;
    var t := TakeCont(s, i).(hist := s.hist.(dataOut := s.hist.dataOut + bytes));
    Release(cfg, Complete(cfg, t), op)
  }

  // ---------------------------------------------------------------- steps and runs

  datatype Event =
    | Tick(d: nat)                                        // time passes
    | Push(k: nat)                                        // bytes of the outstanding write leave
    | Written                                             // the outstanding write completes
    | Reenters(calls: seq<Message>)                       // ... and its token calls write_message
    | WriteFailed                                         // the outstanding write fails
    | Arrive(bytes: string)                               // bytes are added to the read buffer
    | Line                                                // the read completes with a line
    | Eof                                                 // the read completes with end of file
    | ReadError                                           // the read fails otherwise
    | IdleExpires                                         // the idle timer reaches its expiry
    | IdleHandler                                         // a queued idle completion runs
    | AcceptOk(i: nat)
    | AcceptFailed(i: nat, aborted: bool)
    | Sendable(i: nat, ec: bool, ret: SendFile.Ret)
    | Incoming(op: OpId, bytes: string)                   // bytes reach the data socket of an upload
    | Receivable(i: nat, ec: bool, script: seq<RecvFile.Splice>)
    | Listed(i: nat, bytes: string)

  /** Messages that a token may write: not empty, and without a claim to an operation. */
  predicate Callable(ms: seq<Message>) { forall m :: m in ms ==> !m.token.Start? && m.reply.text != "" }

  /** When the environment can produce an event. A failed control write is final, and so is
      the closing of the control socket: nothing leaves after it. Data move only on an open
      data socket; a timer does not complete before its expiry, and not with an error. */
  predicate Offered(s: State, e: Event) {
    match e
    case Tick(_) => true
    case Push(k) =>
      s.ctl.writes != [] && !s.hist.writeFailed && !s.ctl.stopped && s.ctl.pushed + k <= |s.ctl.writes[0]|
    case Written =>
      && s.ctl.writes != [] && !s.hist.writeFailed && s.ctl.pushed == |s.ctl.writes[0]|
      && (s.ctl.phase.Starting? || s.ctl.queue != [])
    case Reenters(calls) =>
      && s.ctl.writes != [] && !s.hist.writeFailed && s.ctl.pushed == |s.ctl.writes[0]|
      && s.ctl.phase.Started? && s.ctl.queue != [] && !s.ctl.queue[0].token.NoToken? && Callable(calls)
    case WriteFailed => s.ctl.writes != []
    case Arrive(_) => s.ctl.reading
    case Line => s.ctl.reading && LineEnd(s.ctl.buf) > 0
    case Eof => s.ctl.reading
    case ReadError => s.ctl.reading
    case IdleExpires => s.tmr.expiry.At? && s.tmr.expiry.time <= s.tmr.now
    case IdleHandler => s.tmr.fired > 0
    case AcceptOk(i) => i < |s.heap.conts| && s.heap.conts[i].Accept? && s.heap.conts[i].viable
    case AcceptFailed(i, _) => i < |s.heap.conts| && s.heap.conts[i].Accept?
    case Sendable(i, ec, _) =>
      && i < |s.heap.conts| && s.heap.conts[i].op in s.sends
      && (s.heap.conts[i].Writable? || (!ec && s.heap.conts[i].Limiter? && s.heap.conts[i].expiry <= s.tmr.now))
    case Incoming(op, _) => op in s.recvs && op in s.heap.ops && s.data == Socket(true)
    case Receivable(i, _, _) => i < |s.heap.conts| && s.heap.conts[i].Readable? && s.heap.conts[i].op in s.recvs
    case Listed(i, bytes) =>
      && i < |s.heap.conts| && s.heap.conts[i].DataWrite?
      && (bytes == "" || s.data == Socket(true))
  }

  /** When the handler of an event throws or has no object to work on: in the file-system
      library; for an aborted accept, which asks a closed acceptor for its endpoint; for a data
      handler without an open data socket; and for the token of a 150 without any. Nothing in
      the daemon catches an exception, so a run ends there. */
  predicate Crashes(cfg: Config, s: State, e: Event)
    requires Offered(s, e)
  {
    match e
    case Line => ParseLine(FirstLine(s)).Some? && Throws(cfg, s.props, ParseLine(FirstLine(s)).value)
    case AcceptFailed(_, aborted) => aborted && s.props.acceptor.Closed?
    case Sendable(_, ec, _) => !ec && s.data != Socket(true)
    case Receivable(_, ec, _) => !ec && s.data != Socket(true)
    case Written => !s.ctl.phase.Starting? && NoDataFor(s, s.ctl.queue[0].token)
    case Reenters(_) => NoDataFor(s, s.ctl.queue[0].token)
    case _ => false
  }

  // the token's first wait would be on a data socket that has been cleared
  predicate NoDataFor(s: State, token: Token) { token.Start? && token.op in s.heap.ops && s.data.NoSocket? }

  /** The event can take place, and the daemon survives it. */
  predicate Enabled(cfg: Config, s: State, e: Event) { Offered(s, e) && !Crashes(cfg, s, e) }

  function Do(cfg: Config, s: State, e: Event): State
    requires Enabled(cfg, s, e)
  {
    match e
    case Tick(d) => s.(tmr := s.tmr.(now := s.tmr.now + d))
    case Push(k) =>
      s.(ctl := s.ctl.(pushed := s.ctl.pushed + k),
         hist := s.hist.(wire := s.hist.wire + s.ctl.writes[0][s.ctl.pushed..s.ctl.pushed + k]))
    case Written => if s.ctl.phase.Starting? then OnBanner(cfg, s) else OnWritten(cfg, s)
    case Reenters(calls) => OnReentered(cfg, s, calls)
    case WriteFailed =>
      if s.ctl.phase.Starting? then
        s.(ctl := s.ctl.(phase := Dead, writes := []), hist := s.hist.(writeFailed := true))
      else OnWriteFailed(cfg, s)
    case Arrive(bytes) =>
      s.(ctl := s.ctl.(buf := s.ctl.buf + bytes), hist := s.hist.(received := s.hist.received + bytes))
    case Line => OnLine(cfg, s)
    case Eof => OnEof(s)
    case ReadError => s.(ctl := s.ctl.(reading := false))
    case IdleExpires => s.(tmr := Cancel(s.tmr))
    case IdleHandler => OnIdle(s)
    case AcceptOk(i) => OnAccepted(cfg, s, i)
    case AcceptFailed(i, aborted) => OnAcceptFailed(cfg, s, i, aborted)
    case Sendable(i, ec, ret) => OnSend(cfg, s, i, ec, ret)
    case Incoming(op, bytes) =>
      s.(recvs := s.recvs[op := s.recvs[op].(incoming := s.recvs[op].incoming + bytes)])
    case Receivable(i, ec, script) => OnReceive(cfg, s, i, ec, script)
    case Listed(i, bytes) => OnListed(cfg, s, i, bytes)
  }

  /** Events that cannot happen are ignored, so every sequence of events is a run. */
  function Step(cfg: Config, s: State, e: Event): State {
    if Enabled(cfg, s, e) then Do(cfg, s, e) else s
  }

  function Exec(cfg: Config, s: State, es: seq<Event>): State {
    if es == [] then s else Step(cfg, Exec(cfg, s, es[..|es| - 1]), es[|es| - 1])
  }
}
