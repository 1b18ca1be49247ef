/** The session object: the fields Session and SessionContext update and the handlers that
    update them, each proved against the step function it implements. */
module FtpSession {
  import opened Text
  import opened Requests
  import opened Replies
  import opened Commands
  import opened Engine
  import Paths
  import SendFile
  import RecvFile

  class Session {
    const cfg: Config

    // the fields of Session
    var phase: Phase
    var buf: string
    var stopped: bool
    var timer: Timer

    // the fields of SessionContext
    var user: string
    var password: string
    var verified: bool
    var isAnonymous: bool
    var transferType: TransportType
    var currentPath: string
    var messageQueue: seq<Message>
    var activeOpNum: int
    var acceptor: Acceptor
    var dataSocket: DataSocket

    // what asio and the operating system hold for the session
    var writes: seq<string>
    var pushed: nat
    var reading: bool
    var ops: map<OpId, Kind>
    var refs: multiset<OpId>
    var nextOp: OpId
    var conts: seq<Cont>
    var files: map<string, Node>
    var pasv: seq<PasvOutcome>
    var sends: map<OpId, SendFile.Transfer>
    var recvs: map<OpId, RecvFile.Receiver>

    ghost var hist: History

    ghost function PropsView(): Props
      reads this
    {
      Props(user, password, verified, isAnonymous, transferType, currentPath, files, acceptor, pasv)
    }

    ghost function ControlView(): Control
      reads this
    {
      Control(phase, messageQueue, writes, pushed, buf, reading, stopped)
    }

    ghost function HeapView(): Heap
      reads this
    {
      Heap(ops, refs, activeOpNum, nextOp, conts)
    }

    ghost function View(): State
      reads this
    {
      State(ControlView(),
            timer,
            HeapView(),
            PropsView(),
            dataSocket,
            sends,
            recvs,
            hist)
    }

    // start, up to the write of the welcome reply
    constructor (config: Config, now: int)
      ensures cfg == config && View() == Init(config, now)
    {
      cfg := config;
      phase, buf, stopped := Starting, "", false;
      timer := Timer(now, Never, 0, 0, 0, 0, now);
      user, password, verified, isAnonymous := "", "", false, false;
      transferType, currentPath := Binary, config.home;
      messageQueue, activeOpNum := [], 0;
      acceptor, dataSocket := Closed, NoSocket;
      var banner := if config.banner == "" then "Welcome to ftpd." else config.banner;
      writes, pushed, reading := [CodeInfo(WELCOME, banner).text], 0, false;
      ops, refs, nextOp, conts := map[], multiset{}, 0, [];
      files, pasv, sends, recvs := config.files, config.pasv, map[], map[];
      hist := History([], [], [], "", "", "", [], [], "", false, false);
    }

    // ---------------------------------------------------------------- small steps

    ghost method Note(h: History)
      modifies this`hist
      ensures View() == old(View()).(hist := h)
    {
      hist := h;
    }

    // a shared_ptr to the operation is kept somewhere
    method RetainOp(op: OpId)
      modifies this`refs
      ensures View() == Retain(old(View()), op)
    {
      refs := refs + multiset{op};
    }

    method AddWait(c: Cont)
      modifies this`conts, this`refs
      ensures View() == AddCont(old(View()), c)
    {
      conts := conts + [c];
      RetainOp(c.op);
    }

    method TakeWait(i: nat) returns (op: OpId)
      requires i < |conts|
      modifies this`conts
      ensures View() == TakeCont(old(View()), i) && op == old(conts[i].op)
    {
      op := conts[i].op;
      conts := conts[..i] + conts[i + 1..];
    }

    method SetAcceptor(a: Acceptor)
      modifies this`acceptor
      ensures View() == old(View()).(props := old(PropsView()).(acceptor := a))
    {
      acceptor := a;
    }

    // ---------------------------------------------------------------- idle timer

    // exists_pending_operator
    method ExistsPendingOperator() returns (pending: bool)
      ensures pending == Pending(View())
    {
      if activeOpNum == 0 && messageQueue == [] {
        return false;
      }
      return true;
    }

    // check_idle_timer_.cancel
    method CancelIdleTimer()
      modifies this`timer
      ensures timer == Cancel(old(timer))
    {
      var waiting, keeping := timer.armed, timer.keep;
      timer := timer.(armed := 0, keep := 0);
      timer := timer.(fired := timer.fired + waiting, released := timer.released + keeping);
    }

    // check_idle_timer_.expires_at
    method SetExpiry(deadline: Deadline)
      modifies this`timer
      ensures timer == ExpiresAt(old(timer), deadline)
    {
      CancelIdleTimer();
      timer := timer.(expiry := deadline);
    }

    // update_idle_timer
    method UpdateIdleTimer()
      modifies this`timer
      ensures View() == Restart(cfg, old(View()))
    {
      SetExpiry(At(timer.now + cfg.maxIdleTimeout * SendFile.SECOND));
      timer := timer.(since := timer.now);
    }

    // start_idle_timer
    method StartIdleTimer()
      modifies this`timer
      ensures timer == old(timer).(armed := old(timer.armed) + 1)
    {
      timer := timer.(armed := timer.armed + 1);
    }

    // the restart or release shared by ~BasicOp and do_write_message
    method SettleIdleTimer()
      modifies this`timer
      ensures View() == Settle(cfg, old(View()))
    {
      var pending := ExistsPendingOperator();
      if !pending {
        if !stopped {
          UpdateIdleTimer();
        } else {
          CancelIdleTimer();
        }
      }
    }

    // close; the control socket is closed exactly when `stopped` is set
    method CloseSession()
      modifies this`stopped, this`timer
      ensures View() == Close(old(View()))
    {
      stopped := true;
      CancelIdleTimer();
    }

    // the handler of start_idle_timer
    method IdleHandled()
      requires timer.fired > 0
      modifies this`stopped, this`timer
      ensures View() == OnIdle(old(View()))
    {
      timer := timer.(fired := timer.fired - 1);
      if stopped {
        return;
      }
      if timer.expiry.Never? || timer.expiry.time > timer.now {
        StartIdleTimer();
        return;
      }
      CloseSession();
    }

    // ---------------------------------------------------------------- replies

    // do_write_message
    method DoWriteMessage()
      modifies this`timer, this`writes, this`pushed
      ensures View() == DoWrite(cfg, old(View()))
    {
      if messageQueue == [] {
        SettleIdleTimer();
        return;
      }
      var buffer := messageQueue[0].reply.text;
      writes, pushed := writes + [buffer], 0;
    }

    // write_message
    method WriteMessage(reply: Reply, token: Token)
      modifies this
      ensures View() == Write(cfg, old(View()), reply, token)
    {
      var isWriting := messageQueue != [];
      PushMessage(Message(reply, token));
      if !isWriting {
        DoWriteMessage();
      }
    }

    // mutable_message_queue()->push: the message holds its token
    method PushMessage(m: Message)
      modifies this
      ensures View() == old(View()).(ctl := old(ControlView()).(queue := old(messageQueue) + [m]),
                                     heap := old(HeapView()).(refs := old(refs) + TokenRefs(m.token)),
                                     hist := old(hist).(logged := old(hist).logged + [m]))
    {
      messageQueue := messageQueue + [m];
      refs := refs + TokenRefs(m.token);
      Note(hist.(logged := hist.logged + [m]));
    }

    // the write handler of start
    method BannerWritten(ec: bool)
      requires phase.Starting?
      modifies this
      ensures var before := old(View());
              View() == if ec then before.(ctl := before.ctl.(phase := Dead, writes := []),
                                           hist := before.hist.(writeFailed := true))
                        else OnBanner(cfg, before)
    {
      phase, writes := if ec then Dead else Started, [];
      if ec {
        Note(hist.(writeFailed := true));
      } else {
        Begin();
      }
    }

    // the first deadline, the first read, the first wait
    method Begin()
      modifies this
      ensures var before := Restart(cfg, old(View()).(ctl := old(ControlView()).(reading := true)));
              View() == before.(tmr := before.tmr.(armed := before.tmr.armed + 1))
    {
      UpdateIdleTimer();
      reading := true;
      StartIdleTimer();
    }

    // the write handler of do_write_message; `calls` is what the token writes when it runs.
    // A token that is to wait on a data socket that has been cleared has none.
    method MessageWritten(calls: seq<Message>) returns (crashed: bool)
      requires messageQueue != [] && writes != []
      modifies this
      ensures crashed == NoDataFor(old(View()), old(messageQueue)[0].token)
      ensures !crashed ==> View() == OnReentered(cfg, old(View()), calls)
    {
      var token := messageQueue[0].token;
      if token.Start? && token.op in ops && dataSocket.NoSocket? {
        return true;
      }
      crashed := false;
      RunFront(calls);
      PopFront();
      DoWriteMessage();
    }

    // message_queue().front().second()
    method RunFront(calls: seq<Message>)
      requires messageQueue != [] && writes != []
      modifies this
      ensures View() == Deliver(cfg, old(View()), calls)
    {
      var m := messageQueue[0];
      writes := writes[1..];
      Note(hist.(delivered := hist.delivered + [m]));
      if !m.token.NoToken? {
        RunCompletionToken(m.token, calls);
      }
    }

    // f(): the transfer's first wait, and any calls of write_message
    method RunCompletionToken(token: Token, calls: seq<Message>)
      requires !token.NoToken?
      modifies this
      ensures View() == RunToken(cfg, old(View()), token, calls)
    {
      Note(hist.(ran := hist.ran + [token]));
      if token.Start? && token.op in ops {
        AddWait(FirstWait(ops[token.op], token.op));
      }
      ghost var started := View();
      var rest := calls;
      while rest != []
        invariant WriteAll(cfg, View(), rest) == WriteAll(cfg, started, calls)
        decreases |rest|
      {
        WriteMessage(rest[0].reply, rest[0].token);
        rest := rest[1..];
      }
    }

    // message_queue().pop(): the token dies first
    method PopFront()
      requires messageQueue != []
      modifies this
      ensures View() == Pop(cfg, old(View()))
    {
      var rest := messageQueue[1..];
      DropToken(messageQueue[0].token);
      messageQueue := rest;
    }

    // the write handler of do_write_message on an error: the swapped-out queue dies with all its tokens
    method MessageFailed()
      requires writes != []
      modifies this
      ensures View() == OnWriteFailed(cfg, old(View()))
    {
      var emptyQueue: seq<Message> := [];
      var dropped := messageQueue;
      writes, messageQueue := writes[1..], emptyQueue;
      Note(hist.(writeFailed := true, stalled := activeOpNum == 0));
      ghost var swapped := View();
      ghost var all := dropped;
      while dropped != []
        invariant ReleaseAll(cfg, View(), dropped) == ReleaseAll(cfg, swapped, all)
        decreases |dropped|
      {
        DropToken(dropped[0].token);
        dropped := dropped[1..];
      }
    }

    // ---------------------------------------------------------------- lifetime of operations

    // BasicOp::BasicOp
    method ConstructOp(kind: Kind) returns (op: OpId)
      modifies this
      ensures op == old(nextOp) && View() == Construct(old(View()), kind)
    {
      op := nextOp;
      activeOpNum, nextOp := activeOpNum + 1, op + 1;
      Allocate(op, kind);
      Note(hist.(executed := hist.executed + [kind]));
    }

    method Allocate(op: OpId, kind: Kind)
      modifies this
      ensures View() == old(View()).(heap := old(HeapView()).(ops := old(ops)[op := kind],
                                                              refs := old(refs) + multiset{op}))
    {
      ops, refs := ops[op := kind], refs + multiset{op};
    }

    // the destructor of an operation; a transfer closes the data socket
    method DestroyOp(op: OpId)
      modifies this
      ensures View() == Destroy(cfg, old(View()), op)
    {
      if op in ops && IsTransfer(ops[op]) && dataSocket == Socket(true) {
        dataSocket := Socket(false);
      }
      Forget(op);
      SettleIdleTimer();
    }

    // ~BasicOp, up to the timer
    method Forget(op: OpId)
      modifies this
      ensures View() == old(View()).(heap := old(HeapView()).(ops := old(ops) - {op}, active := old(activeOpNum) - 1))
    {
      ops, activeOpNum := ops - {op}, activeOpNum - 1;
    }

    // a shared_ptr to the operation goes away
    method ReleaseOp(op: OpId)
      modifies this
      ensures View() == Release(cfg, old(View()), op)
    {
      refs := refs - multiset{op};
      if op !in refs {
        DestroyOp(op);
      }
    }

    method DropToken(token: Token)
      modifies this
      ensures View() == ReleaseToken(cfg, old(View()), token)
    {
      if token.Start? {
        ReleaseOp(token.op);
      }
    }

    // ---------------------------------------------------------------- commands that answer at once

    // AuthOp::validate
    method Validate() returns (valid: bool)
      modifies this
      ensures valid == (old(user) != "")
      ensures var before := old(View());
              View() == if valid then before.(props := before.props.(verified := true,
                                     isAnonymous := cfg.anonymousEnable && IsAnonymousName(before.props.user)))
                        else Write(cfg, before.(props := before.props.(password := "")),
                                   CodeInfo(INVALID_SEQ, "Login with USER first."), NoToken)
    {
      if user == "" {
        WriteMessage(CodeInfo(INVALID_SEQ, "Login with USER first."), NoToken);
        password := "";
        return false;
      }
      if cfg.anonymousEnable {
        var lower := FoldName(user);
        FoldedNameIff(user);
        if lower == "anonymous" {
          isAnonymous := true;
          verified := true;
          return true;
        }
      }
      isAnonymous := false;
      verified := true;
      return true;
    }

    // std::transform with std::tolower
    method FoldName(name: string) returns (lower: string)
      ensures lower == Lower(name)
    {
      lower := name;
      for i := 0 to |name|
        invariant |lower| == |name|
        invariant forall k :: 0 <= k < |name| ==> lower[k] == if k < i then ToLower(name[k]) else name[k]
      {
        lower := lower[i := ToLower(lower[i])];
      }
    }

    // AuthOp::do_operation
    method AuthOperation(req: Request)
      modifies this
      ensures var (props, reply) := AuthAnswer(cfg, old(PropsView()), req);
              View() == Write(cfg, old(View()).(props := props), reply, NoToken)
    {
      if req.command == "USER" {
        user := req.body;
        WriteMessage(Code(PASSWORD_REQUIRED), NoToken);
      } else if req.command == "PASS" {
        FoldedNameIff(user);
        password := req.body;
        var valid := Validate();
        if valid {
          WriteMessage(Code(LOGGED_ON), NoToken);
        }
      } else {
        WriteMessage(CodeInfo(NOT_ALLOWED, "Please login with USER and PASS."), NoToken);
      }
    }

    // PropertyOp::do_operation
    method PropertyOperation(req: Request)
      modifies this
      ensures var (props, reply) := PropertyAnswer(old(PropsView()), req);
              View() == Write(cfg, old(View()).(props := props), reply, NoToken)
    {
      var body := req.body;
      for i := 0 to |body|
        invariant |body| == |req.body| && View() == old(View())
        invariant forall k :: 0 <= k < |body| ==> body[k] == if k < i then ToUpper(req.body[k]) else req.body[k]
      {
        body := body[i := ToUpper(body[i])];
      }
      assert body == Upper(req.body);
      if req.command == "TYPE" {
        if body == "I" || body == "L8" || body == "L 8" {
          transferType := Binary;
          WriteMessage(CodeInfo(OK, "Switching to Binary mode."), NoToken);
          return;
        }
        if body == "A" || body == "A N" {
          transferType := Ascii;
          WriteMessage(CodeInfo(OK, "Switching to ASCII mode."), NoToken);
          return;
        }
        WriteMessage(CodeInfo(SYNTAX_ERROR, "Unrecognised TYPE command."), NoToken);
      } else {
        if body == "UTF8 ON" {
          WriteMessage(CodeInfo(OK, "Always in UTF8 mode."), NoToken);
          return;
        }
        WriteMessage(CodeInfo(BAD_OPTS, "Option not understood."), NoToken);
      }
    }

    // PassiveModeOp::do_operation
    method PassiveModeOperation()
      modifies this
      ensures var (props, reply) := PassiveAnswer(cfg, old(PropsView()));
              View() == Write(cfg, old(View()).(props := props), reply, NoToken)
    {
      if !acceptor.Closed? {
        SetAcceptor(Closed);
      }
      var outcome := NextOutcome();
      if outcome.OpenFailed? {
        WriteMessage(CodeInfo(NOPERM_FILEFATAL, "Permission denied."), NoToken);
        return;
      }
      SetAcceptor(Unbound);
      if outcome.BindFailed? {
        WriteMessage(CodeInfo(NOPERM_FILEFATAL, "Permission denied."), NoToken);
        return;
      }
      SetAcceptor(Listening(outcome.port));
      var response := PasvResponse(cfg.address, outcome.port);
      WriteMessage(response, NoToken);
    }

    method NextOutcome() returns (outcome: PasvOutcome)
      modifies this`pasv
      ensures outcome == if old(pasv) == [] then OpenFailed else old(pasv)[0]
      ensures View() == old(View()).(props := old(PropsView()).(pasv := if old(pasv) == [] then [] else old(pasv)[1..]))
    {
      if pasv == [] {
        return OpenFailed;
      }
      outcome := pasv[0];
      pasv := pasv[1..];
    }

    // the common part of ChangeWorkingDirOp and CdToParentOp
    method EnterDir(target: string)
      modifies this
      ensures var (props, reply) := ChangeDir(old(PropsView()), target);
              View() == Write(cfg, old(View()).(props := props), reply, NoToken)
      ensures currentPath == if target in old(files) && old(files)[target].Dir? then old(files)[target].canonical
                             else old(currentPath)
    {
      if target in files && files[target].Dir? {
        currentPath := files[target].canonical;
        WriteMessage(Cwd(Some(currentPath)), NoToken);
      } else {
        WriteMessage(Cwd(None), NoToken);
      }
    }

    // SessionContext::get_target_path
    method GetTargetPath(path: string) returns (target: string)
      ensures target == TargetPath(PropsView(), path) && Paths.Resolves(currentPath, path, target)
    {
      TargetIff(PropsView(), path, TargetPath(PropsView(), path));
      if path != "" && path[0] == '/' {
        return path;
      }
      if currentPath == "" || currentPath[|currentPath| - 1] == '/' {
        return currentPath + path;
      }
      return currentPath + "/" + path;
    }

    // ChangeWorkingDirOp::do_operation
    method ChangeWorkingDirOperation(req: Request)
      modifies this
      ensures var (props, reply) := Answer(cfg, old(PropsView()), ChangeWorkingDir, req);
              View() == Write(cfg, old(View()).(props := props), reply, NoToken)
    {
      if req.body == "" {
        WriteMessage(Cwd(Some(currentPath)), NoToken);
        return;
      }
      var target := GetTargetPath(req.body);
      EnterDir(target);
    }

    // CreateDirOp::do_operation; `thrown` when create_directory throws
    method CreateDirOperation(req: Request) returns (thrown: bool)
      modifies this
      ensures thrown == MkdirThrows(cfg, old(PropsView()), req.body)
      ensures thrown ==> View() == old(View())
      ensures !thrown ==>
                var (props, reply) := CreateDirAnswer(cfg, old(PropsView()), req.body);
                View() == Write(cfg, old(View()).(props := props), reply, NoToken)
    {
      if !cfg.writeEnable {
        WriteMessage(CodeInfo(NOPERM_FILEFATAL, "Permission denied."), NoToken);
        return false;
      }
      var target := GetTargetPath(req.body);
      if req.body == "" || target in files {
        WriteMessage(CodeInfo(NOPERM_FILEFATAL, "Create directory operation failed."), NoToken);
        return false;
      }
      if target !in cfg.creatable {
        return true;
      }
      files := files[target := Dir(target)];
      WriteMessage(CodeInfo(PWD_OR_MKDIR_OK, "\"" + target + "\" created."), NoToken);
      return false;
    }

    // the operations that only read the session
    method QueryOperation(kind: Kind, req: Request)
      requires kind.Ack? || kind.Stat? || kind.Syst? || kind.PrintWorkingDir? || kind.Size?
      modifies this
      ensures View() == Write(cfg, old(View()), Answer(cfg, old(PropsView()), kind, req).1, NoToken)
    {
      var p := Props(user, password, verified, isAnonymous, transferType, currentPath, files, acceptor, pasv);
      WriteMessage(Answer(cfg, p, kind, req).1, NoToken);
    }

    /** do_operation of every operation that writes one reply and dies. */
    method DoOperation(kind: Kind, req: Request) returns (thrown: bool)
      requires !IsTransfer(kind)
      modifies this
      ensures thrown == (kind.CreateDir? && MkdirThrows(cfg, old(PropsView()), req.body))
      ensures !thrown ==>
                var (props, reply) := Answer(cfg, old(PropsView()), kind, req);
                View() == Write(cfg, old(View()).(props := props), reply, NoToken)
    {
      thrown := false;
      if kind.Auth? {
        AuthOperation(req);
      } else if kind.Property? {
        PropertyOperation(req);
      } else if kind.PassiveMode? {
        PassiveModeOperation();
      } else if kind.CreateDir? {
        thrown := CreateDirOperation(req);
      } else if kind.ChangeWorkingDir? {
        ChangeWorkingDirOperation(req);
      } else if kind.CdToParent? {
        var target := GetTargetPath("..");
        EnterDir(target);
      } else {
        QueryOperation(kind, req);
      }
    }

    // ---------------------------------------------------------------- transfers

    // BasicOp::fetch_passive_connection and check_data_port
    method FetchConnection(op: OpId)
      modifies this
      ensures View() == FetchPassiveConnection(cfg, old(View()), op)
    {
      if acceptor.Closed? {
        WriteMessage(Code(INVALID_SEQ), NoToken);
        return;
      }
      AddWait(Cont.Accept(op, acceptor.Listening?));
    }

    // the constructor of a transfer operation and its do_operation; `thrown` when file_size
    // throws at a directory
    method TransferOperation(kind: Kind, req: Request, op: OpId) returns (thrown: bool)
      requires IsTransfer(kind)
      modifies this
      ensures thrown == (kind.Send? && RetrThrows(old(PropsView()), req.body))
      ensures !thrown ==> View() == StartTransfer(cfg, old(View()), kind, req, op)
    {
      var target := GetTargetPath(req.body);
      if kind.Send? && req.body != "" && target in files && files[target].Dir? {
        return true;
      }
      thrown := false;
      var p := Props(user, password, verified, isAnonymous, transferType, currentPath, files, acceptor, pasv);
      match OpenTransfer(cfg, p, kind, req.body) {
        case Refused(reply) => WriteMessage(reply, NoToken);
        case Ready(content) =>
          KeepFile(kind, content, op);
          FetchConnection(op);
      }
    }

    // the constructor has opened its file
    method KeepFile(kind: Kind, content: string, op: OpId)
      modifies this
      ensures View() == OpenFile(old(View()), kind, content, op)
    {
      if kind.Send? {
        sends := sends[op := SendFile.Open(content)];
      } else if kind.Recv? {
        recvs := recvs[op := RecvFile.Start()];
      }
    }

    // the handler of async_accept; `thrown` when an aborted one asks a closed acceptor for its endpoint
    method AcceptHandled(i: nat, ec: bool, aborted: bool) returns (thrown: bool)
      requires i < |conts|
      modifies this
      ensures thrown == (ec && aborted && old(acceptor).Closed?)
      ensures View() == if ec then OnAcceptFailed(cfg, old(View()), i, aborted) else OnAccepted(cfg, old(View()), i)
    {
      thrown := ec && aborted && acceptor.Closed?;
      var op := TakeWait(i);
      if ec {
        if !aborted {
          SetAcceptor(Closed);
        }
      } else {
        SetAcceptor(Closed);
        dataSocket := Socket(true);
        WriteMessage(Code(DATA_CONN), Token.Start(op));
      }
      ReleaseOp(op);
    }

    // the completion token: 226, then clear_data_socket
    method CompleteTransfer()
      modifies this
      ensures View() == Complete(cfg, old(View()))
    {
      WriteMessage(Code(TRANSFER_COMPLETE), NoToken);
      dataSocket := NoSocket;
    }

    // a wait of a SendFileOp is over: deal_event
    // throws without an open data socket, at native_non_blocking
    method SendHandled(i: nat, ec: bool, ret: SendFile.Ret) returns (thrown: bool)
      requires i < |conts| && conts[i].op in sends
      modifies this
      ensures thrown == (!ec && old(dataSocket) != Socket(true))
      ensures !thrown ==> View() == OnSend(cfg, old(View()), i, ec, ret)
    {
      if !ec && dataSocket != Socket(true) {
        return true;
      }
      thrown := false;
      var transfer := sends[conts[i].op];
      var (after, next) := SendFile.Deal(transfer, SendFile.Slice(cfg.downloadLimit), ec, ret, timer.now);
      var op := TakeWait(i);
      sends := sends[op := after];
      ghost var bytes := if |transfer.sent| <= |after.sent| then after.sent[|transfer.sent|..] else "";
      Note(hist.(dataOut := hist.dataOut + bytes));
      GoOn(op, next);
      ReleaseOp(op);
    }

    // what deal_event ends with
    method GoOn(op: OpId, next: SendFile.Next)
      modifies this
      ensures View() == AfterSend(cfg, old(View()), op, next)
    {
      match next {
        case AwaitWritable => AddWait(Writable(op));
        case AwaitTimer(expiry) => AddWait(Limiter(op, expiry));
        case Completed => CompleteTransfer();
        case Dropped =>
      }
    }

    // a wait of a RecvFileOp is over: deal_event
    // likewise, at native_non_blocking or available
    method ReceiveHandled(i: nat, ec: bool, script: seq<RecvFile.Splice>) returns (thrown: bool)
      requires i < |conts| && conts[i].op in recvs
      modifies this
      ensures thrown == (!ec && old(dataSocket) != Socket(true))
      ensures !thrown ==> View() == OnReceive(cfg, old(View()), i, ec, script)
    {
      thrown := false;
      if ec {
        var dropped := TakeWait(i);
        ReleaseOp(dropped);
        return;
      }
      if dataSocket != Socket(true) {
        return true;
      }
      var (r, status) := RecvFile.Deal(recvs[conts[i].op], script, None);
      var op := TakeWait(i);
      recvs := recvs[op := r];
      ReceiveOn(op, status);
      ReleaseOp(op);
    }

    // what deal_event ends with
    method ReceiveOn(op: OpId, status: RecvFile.Status)
      modifies this
      ensures View() == AfterReceive(cfg, old(View()), op, status)
    {
      if status.Finished? {
        CompleteTransfer();
      } else if !status.UnexpectedTerminate? {
        AddWait(Cont.Readable(op));
      }
    }

    // the data write of a ListOp is over
    method ListHandled(i: nat, ghost bytes: string)
      requires i < |conts|
      modifies this
      ensures View() == OnListed(cfg, old(View()), i, bytes)
    {
      var op := TakeWait(i);
      Note(hist.(dataOut := hist.dataOut + bytes));
      CompleteTransfer();
      ReleaseOp(op);
    }

    // ---------------------------------------------------------------- commands

    // dispatch_task
    method DispatchTask(req: Request) returns (handled: bool, thrown: bool)
      modifies this
      ensures thrown == Throws(cfg, old(PropsView()), req)
      ensures handled == RouteOf(old(PropsView()), req).Run?
      ensures var before := old(View());
              !thrown ==>
                View() == if handled then Dispatch(cfg, before, req)
                          else Write(cfg, before, RouteOf(before.props, req).reply, NoToken)
    {
      thrown := false;
      if !verified {
        thrown := RunOperation(Auth, req);
        return true, thrown;
      }
      if req.command == "USER" {
        NoFileCommand(req);
        WriteMessage(CodeInfo(NOT_ALLOWED, "Can't change to another user."), NoToken);
        return false, false;
      }
      if req.command == "PASS" {
        NoFileCommand(req);
        WriteMessage(CodeInfo(LOGGED_ON, "Already logged in."), NoToken);
        return false, false;
      }
      match Registered(req.command) {
        case None =>
          WriteMessage(Code(SYNTAX_ERROR), NoToken);
          return false, false;
        case Some(kind) =>
          thrown := RunOperation(kind, req);
          return true, thrown;
      }
    }

    // USER and PASS are not registered
    lemma NoFileCommand(req: Request)
      requires req.command == "USER" || req.command == "PASS"
      ensures Registered(req.command).None?
    {
    }

    // an operation is created, executed and dropped by its creator
    method RunOperation(kind: Kind, req: Request) returns (thrown: bool)
      modifies this
      ensures thrown == KindThrows(cfg, old(PropsView()), kind, req.body)
      ensures !thrown ==>
                View() == if IsTransfer(kind) then RunTransfer(cfg, old(View()), kind, req)
                          else RunSimple(cfg, old(View()), kind, req)
    {
      var op := ConstructOp(kind);
      if IsTransfer(kind) {
        Note(hist.(transfers := hist.transfers + [req]));
        thrown := TransferOperation(kind, req, op);
      } else {
        thrown := DoOperation(kind, req);
      }
      if !thrown {
        ReleaseOp(op);
      }
    }

    // handle_read
    method HandleRead(n: nat) returns (thrown: bool)
      requires n == LineEnd(buf) > 0
      modifies this
      ensures var before := old(View());
              var taken, parsed := TakeLine(before), ParseLine(FirstLine(before));
              && thrown == (parsed.Some? && Throws(cfg, before.props, parsed.value))
              && (!thrown ==>
                    View() == match parsed
                              case None => if Pending(taken) then taken else Restart(cfg, taken)
                              case Some(req) => Dispatch(cfg, taken, req))
    {
      var words := ExtractTokens(buf[..n]);
      Consume(n);
      var request := BuildRequest(words);
      var handled := false;
      thrown := false;
      if request.Some? {
        handled, thrown := DispatchTask(request.value);
      }
      if !handled {
        var pending := ExistsPendingOperator();
        if !pending {
          UpdateIdleTimer();
        }
      }
    }

    // buf.consume
    method Consume(n: nat)
      requires n <= |buf|
      modifies this
      ensures View() == old(View()).(ctl := old(ControlView()).(buf := old(buf)[n..]),
                                     hist := old(hist).(consumed := old(hist).consumed + old(buf)[..n]))
    {
      hist := hist.(consumed := hist.consumed + buf[..n]);
      buf := buf[n..];
    }

    // the read handler of do_read
    method LineRead() returns (thrown: bool)
      requires LineEnd(buf) > 0
      modifies this
      ensures var parsed := ParseLine(FirstLine(old(View())));
              thrown == (parsed.Some? && Throws(cfg, old(PropsView()), parsed.value))
      ensures !thrown ==> View() == OnLine(cfg, old(View()))
    {
      Note(hist.(stalled := false));
      SetExpiry(Never);
      thrown := HandleRead(LineEnd(buf));
    }

    // the read handler of do_read at end of file
    method EofRead()
      modifies this
      ensures View() == OnEof(old(View()))
    {
      reading := false;
      CloseSession();
      if activeOpNum != 0 {
        SetExpiry(Never);
        timer := timer.(keep := timer.keep + 1);
      }
    }

    // ---------------------------------------------------------------- every event

    // bytes of the outstanding write leave
    method Transmit(k: nat)
      requires Enabled(cfg, View(), Push(k))
      modifies this
      ensures View() == Do(cfg, old(View()), Push(k))
    {
      hist := hist.(wire := hist.wire + writes[0][pushed..pushed + k]);
      pushed := pushed + k;
    }

    // bytes reach the data socket of an upload
    method DataArrives(op: OpId, bytes: string)
      requires Enabled(cfg, View(), Incoming(op, bytes))
      modifies this
      ensures View() == Do(cfg, old(View()), Incoming(op, bytes))
    {
      recvs := recvs[op := recvs[op].(incoming := recvs[op].incoming + bytes)];
    }

    // bytes are appended to buf
    method BytesRead(bytes: string)
      requires Enabled(cfg, View(), Arrive(bytes))
      modifies this
      ensures View() == Do(cfg, old(View()), Arrive(bytes))
    {
      buf := buf + bytes;
      Note(hist.(received := hist.received + bytes));
    }

    /** The object takes exactly the steps of the session model, and throws or crashes exactly
        where the model says that a run ends. */
    method Handle(e: Event) returns (crashed: bool)
      requires Offered(View(), e)
      modifies this
      ensures crashed == Crashes(cfg, old(View()), e)
      ensures !crashed ==> View() == Step(cfg, old(View()), e)
    {
      crashed := false;
      match e {
        case Written => if phase.Starting? { BannerWritten(false); } else { crashed := MessageWritten([]); }
        case Reenters(calls) => crashed := MessageWritten(calls);
        case WriteFailed => if phase.Starting? { BannerWritten(true); } else { MessageFailed(); }
        case Line => crashed := LineRead();
        case AcceptOk(i) => crashed := AcceptHandled(i, false, false);
        case AcceptFailed(i, aborted) => crashed := AcceptHandled(i, true, aborted);
        case Sendable(i, ec, ret) => crashed := SendHandled(i, ec, ret);
        case Receivable(i, ec, script) => crashed := ReceiveHandled(i, ec, script);
        case _ => HandleQuietly(e);
      }
    }

    // the events whose handlers cannot fail
    method HandleQuietly(e: Event)
      requires Offered(View(), e)
      requires e.Eof? || e.IdleHandler? || e.Incoming? || e.Listed? || e.Tick? || e.Push? || e.Arrive?
            || e.ReadError? || e.IdleExpires?
      modifies this
      ensures View() == Do(cfg, old(View()), e)
    {
      match e {
        case Eof => EofRead();
        case IdleHandler => IdleHandled();
        case Incoming(op, bytes) => DataArrives(op, bytes);
        case Listed(i, bytes) => ListHandled(i, bytes);
        case Tick(d) => timer := timer.(now := timer.now + d);
        case Push(k) => Transmit(k);
        case Arrive(bytes) => BytesRead(bytes);
        case ReadError => reading := false;
        case IdleExpires => CancelIdleTimer();
      }
    }
  }
}
