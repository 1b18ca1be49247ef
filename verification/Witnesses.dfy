/** Runs in which the code falls short, for every configuration that allows them. */
module Witnesses {
  import opened Text
  import opened Requests
  import opened Commands
  import opened Engine
  import opened SessionEffects
  import opened SessionInvariants
  import opened SessionRuns
  import opened SessionFailures
  import opened SessionSends
  import opened SessionAnswers
  import opened Sequential
  import opened Script
  import opened Download
  import opened Delivery
  import SendFile

  // ---------------------------------------------------------------- runs of the session alone

  /** The session is idle and has executed the first `k` lines of the script. */
  ghost predicate Served(s: State, file: string, k: nat) {
    && k <= 4 && Awake(s) && s.ctl.queue == [] && s.hist.transfers == []
    && Lines(s.hist.consumed) == Prints(file)[..k]
  }

  lemma RunBanner(cfg: Config, now: int, file: string) returns (es: seq<Event>)
    ensures Served(Reach(cfg, now, es), file, 0)
  {
    var k := |Banner(cfg)|;
    BannerGoes(cfg, now, k);
    es := [];
    ReachSnoc(cfg, now, es, Push(k));
    es := es + [Push(k)];
    ReachSnoc(cfg, now, es, Written);
    es := es + [Written];
    NothingConsumed(Reach(cfg, now, es), file);
  }

  lemma NothingConsumed(s: State, file: string)
    requires s.hist.consumed == ""
    ensures Lines(s.hist.consumed) == Prints(file)[..0]
  {
  }

  // the next line arrives and is answered
  lemma RunLine(cfg: Config, now: int, file: string, es: seq<Event>, k: nat) returns (more: seq<Event>)
    requires NoBreak(file) && k < 4 && Served(Reach(cfg, now, es), file, k)
    ensures var t := Reach(cfg, now, more);
            && Awake(t) && t.ctl.queue == [Message(FirstReplies(cfg, file)[k], NoToken)] && t.hist.transfers == []
            && Lines(t.hist.consumed) == Prints(file)[..k + 1]
  {
    var line := Prints(file)[k];
    ReachSnoc(cfg, now, es, Arrive(line));
    Arrives(cfg, Reach(cfg, now, es), line);
    more := es + [Arrive(line)];
    FollowsThroughout(cfg, now, more);
    InputThroughout(cfg, now, more);
    more := RunArrived(cfg, now, file, more, k);
  }

  lemma RunArrived(cfg: Config, now: int, file: string, es: seq<Event>, k: nat) returns (more: seq<Event>)
    requires var s := Reach(cfg, now, es);
             && NoBreak(file) && k < 4 && Follows(cfg, s) && InputOk(s) && s.hist.transfers == []
             && s.ctl.phase.Started? && s.ctl.reading && !s.ctl.stopped && !s.hist.writeFailed && s.ctl.queue == []
             && s.ctl.buf == Prints(file)[k] && Lines(s.hist.consumed) == Prints(file)[..k]
    ensures var t := Reach(cfg, now, more);
            && Awake(t) && t.ctl.queue == [Message(FirstReplies(cfg, file)[k], NoToken)] && t.hist.transfers == []
            && Lines(t.hist.consumed) == Prints(file)[..k + 1]
  {
    LineAnswers(cfg, Reach(cfg, now, es), file, k);
    ReachSnoc(cfg, now, es, Line);
    more := es + [Line];
  }

  // its reply is delivered
  lemma RunReply(cfg: Config, now: int, file: string, es: seq<Event>, k: nat) returns (more: seq<Event>)
    requires k < 4 && Lines(Reach(cfg, now, es).hist.consumed) == Prints(file)[..k + 1]
    requires var s := Reach(cfg, now, es);
             && Awake(s) && s.ctl.queue == [Message(FirstReplies(cfg, file)[k], NoToken)] && s.hist.transfers == []
    ensures Served(Reach(cfg, now, more), file, k + 1)
  {
    var s, m := Reach(cfg, now, es), Message(FirstReplies(cfg, file)[k], NoToken);
    AlwaysInv(cfg, now, es);
    var n := PushRest(cfg, s, m);
    PushedEnabled(cfg, s, m, n);
    ReachSnoc(cfg, now, es, Push(n));
    more := es + [Push(n)];
    WrittenDelivers(cfg, s, Reach(cfg, now, more), m);
    ReachSnoc(cfg, now, more, Written);
    more := more + [Written];
  }

  lemma {:induction false} RunScript(cfg: Config, now: int, file: string, k: nat) returns (es: seq<Event>)
    requires NoBreak(file) && k <= 4
    ensures Served(Reach(cfg, now, es), file, k)
  {
    if k == 0 {
      es := RunBanner(cfg, now, file);
    } else {
      es := RunScript(cfg, now, file, k - 1);
      es := RunLine(cfg, now, file, es, k - 1);
      es := RunReply(cfg, now, file, es, k - 1);
    }
  }

  // ---------------------------------------------------------------- stalling

  /** A run that stalls its session: one command, and the write of its reply fails. */
  lemma SomeSessionStalls(cfg: Config, now: int) returns (es: seq<Event>)
    ensures var s := Reach(cfg, now, es);
            s.ctl.phase.Started? && !s.ctl.stopped && s.hist.stalled && s.tmr.expiry.Never?
  {
    var file := "";
    es := RunScript(cfg, now, file, 0);
    es := RunLine(cfg, now, file, es, 0);
    FollowsThroughout(cfg, now, es);
    AlwaysInv(cfg, now, es);
    var s := Reach(cfg, now, es);
    ReachSnoc(cfg, now, es, WriteFailed);
    StalledStep(cfg, s, WriteFailed);
    StepEffect(cfg, s, WriteFailed);
    es := es + [WriteFailed];
    AlwaysInv(cfg, now, es);
  }

  // ---------------------------------------------------------------- leaking

  // between handlers, the one operation is held by its one handler
  lemma OnlyOperation(s: State, op: OpId)
    requires HeapOk(s, multiset{}) && s.ctl.queue == [] && |s.heap.conts| == 1 && s.heap.conts[0].op == op
    ensures s.heap.refs == multiset{op} && op in s.heap.ops && s.heap.active > 0
  {
    assert s.heap.conts[1..] == [];
    assert ContRefs(s.heap.conts) == multiset{op} + ContRefs(s.heap.conts[1..]);
    assert Holders(s) + multiset{} == multiset{op};
    assert op in s.heap.refs;
    LiveIsActive(s.heap, Holders(s) + multiset{}, op);
  }

  // the peer closes the control connection
  lemma RunEof(cfg: Config, now: int, es: seq<Event>)
    requires var s := Reach(cfg, now, es);
             s.ctl.phase.Started? && s.ctl.reading && !s.ctl.stopped && s.heap.active > 0
    ensures var s, t := Reach(cfg, now, es), Reach(cfg, now, es + [Eof]);
            && t == s.(ctl := s.ctl.(reading := false, stopped := true), tmr := t.tmr)
            && t.tmr.keep > 0 && t.tmr.now == s.tmr.now
  {
    ReachSnoc(cfg, now, es, Eof);
  }

  // without a limit one sendfile can send all that is left
  lemma SendsRest(t: SendFile.Transfer, now: int)
    requires SendFile.Valid(t, 0)
    ensures SendFile.Deal(t, 0, false, SendFile.Sent(|t.file| - t.offset), now).1.Completed?
  {
    SendFile.LeftIsExact(t, 0);
  }

  lemma LastSend(cfg: Config, s: State, op: OpId) returns (e: Event)
    requires cfg.downloadLimit == 0 && SendsOk(cfg, s) && s.heap.refs == multiset{op} && HeapOk(s, multiset{})
    requires |s.heap.conts| == 1 && s.heap.conts[0].op == op && op in s.sends && s.data == Socket(true)
    requires s.heap.conts[0].Writable? || (s.heap.conts[0].Limiter? && s.heap.conts[0].expiry <= s.tmr.now)
    ensures Enabled(cfg, s, e) && e.Sendable?
    ensures |Step(cfg, s, e).hist.logged| > |s.hist.logged| && Step(cfg, s, e).heap.refs == multiset{}
  {
    var ret := SendFile.Sent(|s.sends[op].file| - s.sends[op].offset);
    e := Sendable(0, false, ret);
    SendsRest(s.sends[op], s.tmr.now);
    LastEffect(cfg, s, op, ret);
  }

  lemma LastEffect(cfg: Config, s: State, op: OpId, ret: SendFile.Ret)
    requires |s.heap.conts| == 1 && s.heap.conts[0].op == op && s.heap.refs == multiset{op} && op in s.sends
    requires SendNext(cfg, s, 0, false, ret).Completed?
    ensures var t := OnSend(cfg, s, 0, false, ret);
            |t.hist.logged| > |s.hist.logged| && t.heap.refs == multiset{}
  {
    SendEffect(cfg, s, 0, false, ret);
    LastEnded(s, OnSend(cfg, s, 0, false, ret), op);
  }

  lemma LastEnded(s: State, t: State, op: OpId)
    requires |s.heap.conts| == 1 && s.heap.conts[0].op == op && s.heap.refs == multiset{op}
    requires exists sends, dataOut :: DataEnded(s, t, 0, Completes, sends, s.recvs, dataOut)
    ensures |t.hist.logged| > |s.hist.logged| && t.heap.refs == multiset{}
  {
    assert multiset{op} - multiset{op} == multiset{};
  }

  /** A run that leaks its session, for every file that can be downloaded at full speed: the
      peer closes the control connection during the download, and the download completes. */
  lemma SomeSessionLeaks(cfg: Config, now: int, file: string) returns (es: seq<Event>, e: Event)
    requires Fits(cfg, file) && Deliverable(cfg, file) && cfg.downloadLimit == 0
    ensures Enabled(cfg, Reach(cfg, now, es), e)
    ensures forall later :: Leaks(Exec(cfg, Step(cfg, Reach(cfg, now, es), e), later))
  {
    var moves, op := DriveToData(cfg, now, file);
    moves := DriveWait(cfg, now, file, moves, op);
    var trace := Play(cfg, now, file, moves).trace;
    AlwaysInv(cfg, now, trace);
    OnlyOperation(Reach(cfg, now, trace), op);
    RunEof(cfg, now, trace);
    es := trace + [Eof];
    e := ClosingSend(cfg, now, es, op);
    forall later ensures Leaks(Exec(cfg, Step(cfg, Reach(cfg, now, es), e), later)) {
      LateCompletionLeaksSession(cfg, now, es, e, later);
    }
  }

  predicate Leaks(s: State) { s.ctl.stopped && s.tmr.keep == 1 && s.tmr.released == 0 }

  lemma ClosingSend(cfg: Config, now: int, es: seq<Event>, op: OpId) returns (e: Event)
    requires FilesFit(cfg.files) && cfg.downloadLimit == 0
    requires var s := Reach(cfg, now, es);
             && s.heap.refs == multiset{op} && |s.heap.conts| == 1 && s.heap.conts[0].op == op && op in s.sends
             && (s.heap.conts[0].Writable? || (s.heap.conts[0].Limiter? && s.heap.conts[0].expiry <= s.tmr.now))
             && s.data == Socket(true) && s.ctl.phase.Started?
    ensures Enabled(cfg, Reach(cfg, now, es), e) && e.Sendable?
    ensures var s := Reach(cfg, now, es);
            |Step(cfg, s, e).hist.logged| > |s.hist.logged| && Step(cfg, s, e).heap.ops == map[]
  {
    var s := Reach(cfg, now, es);
    AlwaysInv(cfg, now, es);
    SendsThroughout(cfg, now, es);
    e := LastSend(cfg, s, op);
    StepKeepsInv(cfg, s, e);
    StepEffect(cfg, s, e);
    NoRefsNoOps(Step(cfg, s, e));
  }

  // ---------------------------------------------------------------- silence

  // the script's RETR, before it is read
  lemma RetrNext(cfg: Config, s: State, file: string, p: Props) returns (req: Request)
    requires NoBreak(file) && s.ctl.reading && s.ctl.buf == Prints(file)[4] && s.props == p && p.verified
    requires OpenTransfer(cfg, p, Send, Normal(file)).Ready?
    ensures TransferNext(cfg, s, Send, req) && GotFile(cfg, s, Send, req).Ready?
  {
    req := RetrParsed(file, p);
    assert FirstLine(s) == s.ctl.buf;
    NoDirectory(cfg, p, req);
  }

  lemma RetrParsed(file: string, p: Props) returns (req: Request)
    requires NoBreak(file) && p.verified
    ensures OneLine(Prints(file)[4]) && ParseLine(Prints(file)[4]) == Some(req)
    ensures req.body == Normal(file) && RouteOf(p, req) == Run(Send)
  {
    PrintedLines(file, 4);
    req := ParseLine(Prints(file)[4]).value;
    RouteSeen(p, req, file, 4);
  }

  lemma NoDirectory(cfg: Config, p: Props, req: Request)
    requires RouteOf(p, req) == Run(Send) && p.verified && OpenTransfer(cfg, p, Send, req.body).Ready?
    ensures !Throws(cfg, p, req)
  {
  }

  lemma AfterFails(cfg: Config, file: string)
    requires cfg.pasv != [] && cfg.pasv[0].BindFailed? && Opens(cfg, file)
    ensures After(cfg, file, 4).acceptor.Unbound? && After(cfg, file, 4).verified
    ensures OpenTransfer(cfg, After(cfg, file, 4), Send, Normal(file)).Ready?
  {
    OpensTarget(cfg, file);
  }

  /** A run in which a transfer command is never answered: USER, PASS, SIZE, PASV whose bind fails, RETR. */
  lemma SomeTransferIsSilent(cfg: Config, now: int, file: string) returns (es: seq<Event>, req: Request)
    requires NoBreak(file) && Opens(cfg, file) && cfg.pasv != [] && cfg.pasv[0].BindFailed?
    ensures TransferNext(cfg, Reach(cfg, now, es), Send, req) && GotFile(cfg, Reach(cfg, now, es), Send, req).Ready?
    ensures !CanBeAnswered(cfg, Reach(cfg, now, es))
  {
    var line := Prints(file)[4];
    es := RunScript(cfg, now, file, 4);
    ReachSnoc(cfg, now, es, Arrive(line));
    Arrives(cfg, Reach(cfg, now, es), line);
    es := es + [Arrive(line)];
    FollowsThroughout(cfg, now, es);
    FollowsProps(cfg, Reach(cfg, now, es), file, 4);
    AfterFails(cfg, file);
    req := RetrNext(cfg, Reach(cfg, now, es), file, After(cfg, file, 4));
    AnswerableIff(cfg, now, es, Send, req);
  }

  // ---------------------------------------------------------------- a download cut off

  lemma StillOpens(cfg: Config, file: string, p: Props)
    requires Deliverable(cfg, file) && p == After(cfg, file, 4).(acceptor := Closed)
    ensures p.verified && OpenTransfer(cfg, p, Send, Normal(file)).Ready?
  {
    OpensTarget(cfg, file);
    AfterFour(cfg, file);
  }

  /** A run in which a second RETR, refused for want of a PASV, cuts off the first. */
  lemma SomeDownloadIsCut(cfg: Config, now: int, file: string) returns (es: seq<Event>, req: Request, op: OpId)
    requires Fits(cfg, file) && Deliverable(cfg, file)
    ensures IsRefused(cfg, Reach(cfg, now, es), Send, req)
    ensures var s := Reach(cfg, now, es);
            op in s.sends && op in s.heap.ops && s.data == Socket(true) && Step(cfg, s, Line).data == Socket(false)
  {
    var moves: seq<Move>;
    moves, op := DriveToAccepted(cfg, now, file);
    var trace, line := Play(cfg, now, file, moves).trace, Prints(file)[4];
    AlwaysInv(cfg, now, trace);
    OnlyOperation(Reach(cfg, now, trace), op);
    ReachSnoc(cfg, now, trace, Arrive(line));
    Arrives(cfg, Reach(cfg, now, trace), line);
    es := trace + [Arrive(line)];
    var p := Reach(cfg, now, es).props;
    StillOpens(cfg, file, p);
    req := RetrNext(cfg, Reach(cfg, now, es), file, p);
    RefusalSparesDataIff(cfg, now, es, Send, req);
    CutNow(cfg, now, es, req);
  }

  lemma CutNow(cfg: Config, now: int, es: seq<Event>, req: Request)
    requires IsRefused(cfg, Reach(cfg, now, es), Send, req) && Reach(cfg, now, es).data == Socket(true)
    ensures Step(cfg, Reach(cfg, now, es), Line).data == Socket(false)
  {
    RefusalSparesDataIff(cfg, now, es, Send, req);
    TransferLine(cfg, Reach(cfg, now, es), Send, req);
  }

  // ---------------------------------------------------------------- orphans

  /** A run in which a read error leaves an operation without its session. */
  lemma SomeOperationIsOrphaned(cfg: Config, now: int, file: string) returns (es: seq<Event>)
    requires Fits(cfg, file) && Deliverable(cfg, file)
    ensures Reach(cfg, now, es).heap.ops != map[] && !Held(Reach(cfg, now, es))
  {
    var moves, op := DriveToData(cfg, now, file);
    var trace := Play(cfg, now, file, moves).trace;
    AlwaysInv(cfg, now, trace);
    OnlyOperation(Reach(cfg, now, trace), op);
    ReadErrorOrphansOperations(cfg, now, trace);
    ReachSnoc(cfg, now, trace, ReadError);
    es := trace + [ReadError];
  }
}
