/** From when the idle deadline is counted, and what the idle handler does, over whole runs. */
module SessionIdle {
  import opened Text
  import opened Requests
  import opened Replies
  import opened Commands
  import opened Engine
  import opened SessionInvariants
  import opened SessionEffects
  import opened SessionRuns
  import SendFile
  import RecvFile

  function Timeout(cfg: Config): int { cfg.maxIdleTimeout * 1_000_000_000 }

  /** From `a` to `b` no time passes, and the deadline is kept, taken off, or counted from now. */
  ghost predicate Moves(cfg: Config, a: Timer, b: Timer) {
    && b.now == a.now
    && (|| (b.since == a.since && (b.expiry == a.expiry || b.expiry.Never?))
        || (b.since == a.now && (b.expiry == At(a.now + Timeout(cfg)) || b.expiry.Never?)))
  }

  // ---------------------------------------------------------------- primitives

  lemma SettleMoves(cfg: Config, s: State)
    ensures Moves(cfg, s.tmr, Settle(cfg, s).tmr)
  {
  }

  lemma WriteMoves(cfg: Config, s: State, reply: Reply, token: Token)
    ensures Moves(cfg, s.tmr, Write(cfg, s, reply, token).tmr)
  {
    WriteEffect(cfg, s, reply, token);
  }

  lemma ReleaseMoves(cfg: Config, s: State, op: OpId)
    ensures Moves(cfg, s.tmr, Release(cfg, s, op).tmr)
  {
  }

  lemma {:induction false} ReleaseAllMoves(cfg: Config, s: State, ms: seq<Message>)
    ensures Moves(cfg, s.tmr, ReleaseAll(cfg, s, ms).tmr)
    decreases |ms|
  {
    if ms != [] {
      if ms[0].token.Start? {
        ReleaseMoves(cfg, s, ms[0].token.op);
      }
      ReleaseAllMoves(cfg, ReleaseToken(cfg, s, ms[0].token), ms[1..]);
    }
  }

  lemma {:induction false} WriteAllMoves(cfg: Config, s: State, ms: seq<Message>)
    ensures Moves(cfg, s.tmr, WriteAll(cfg, s, ms).tmr)
    decreases |ms|
  {
    if ms != [] {
      WriteMoves(cfg, s, ms[0].reply, ms[0].token);
      WriteAllMoves(cfg, Write(cfg, s, ms[0].reply, ms[0].token), ms[1..]);
    }
  }

  // ---------------------------------------------------------------- handlers

  lemma SimpleMoves(cfg: Config, s: State, kind: Kind, req: Request)
    requires !IsTransfer(kind)
    ensures Moves(cfg, s.tmr, RunSimple(cfg, s, kind, req).tmr)
  {
    var t := Construct(s, kind);
    var (props, reply) := Answer(cfg, t.props, kind, req);
    var u := t.(props := props);
    WriteMoves(cfg, u, reply, NoToken);
    ReleaseMoves(cfg, Write(cfg, u, reply, NoToken), s.heap.next);
  }

  lemma TransferMoves(cfg: Config, s: State, kind: Kind, req: Request)
    requires IsTransfer(kind)
    ensures Moves(cfg, s.tmr, RunTransfer(cfg, s, kind, req).tmr)
  {
    var op, t := s.heap.next, Begun(s, kind, req);
    StartMoves(cfg, t, kind, req, op);
    ReleaseMoves(cfg, StartTransfer(cfg, t, kind, req, op), op);
  }

  lemma StartMoves(cfg: Config, s: State, kind: Kind, req: Request, op: OpId)
    requires IsTransfer(kind)
    ensures Moves(cfg, s.tmr, StartTransfer(cfg, s, kind, req, op).tmr)
  {
    match OpenTransfer(cfg, s.props, kind, req.body)
    case Refused(reply) => WriteMoves(cfg, s, reply, NoToken);
    case Ready(content) => WriteMoves(cfg, OpenFile(s, kind, content, op), Code(INVALID_SEQ), NoToken);
  }

  /** A line takes the deadline off before anything else. */
  lemma LineMoves(cfg: Config, s: State)
    ensures Moves(cfg, AtLine(s).tmr, OnLine(cfg, s).tmr)
    ensures AtLine(s).tmr.expiry.Never? && AtLine(s).tmr.now == s.tmr.now
  {
    var parsed := ParseLine(FirstLine(s));
    if parsed.Some? {
      DispatchMoves(cfg, AtLine(s), parsed.value);
    }
  }

  lemma DispatchMoves(cfg: Config, s: State, req: Request)
    ensures Moves(cfg, s.tmr, Dispatch(cfg, s, req).tmr)
  {
    match RouteOf(s.props, req)
    case Run(kind) =>
      if IsTransfer(kind) { TransferMoves(cfg, s, kind, req); } else { SimpleMoves(cfg, s, kind, req); }
    case Reject(reply) => WriteMoves(cfg, s, reply, NoToken);
  }

  lemma ReenteredMoves(cfg: Config, s: State, calls: seq<Message>)
    requires s.ctl.queue != [] && s.ctl.writes != []
    ensures Moves(cfg, s.tmr, OnReentered(cfg, s, calls).tmr)
  {
    DeliverMoves(cfg, s, calls);
    PopMoves(cfg, Deliver(cfg, s, calls));
    SettleMoves(cfg, Pop(cfg, Deliver(cfg, s, calls)));
  }

  lemma DeliverMoves(cfg: Config, s: State, calls: seq<Message>)
    requires s.ctl.queue != [] && s.ctl.writes != []
    ensures Moves(cfg, s.tmr, Deliver(cfg, s, calls).tmr)
  {
    var m := s.ctl.queue[0];
    var t := s.(ctl := s.ctl.(writes := s.ctl.writes[1..]), hist := s.hist.(delivered := s.hist.delivered + [m]));
    TokenMoves(cfg, t, m.token, calls);
  }

  lemma TokenMoves(cfg: Config, s: State, token: Token, calls: seq<Message>)
    ensures Moves(cfg, s.tmr, RunToken(cfg, s, token, calls).tmr)
  {
    if !token.NoToken? {
      var t := s.(hist := s.hist.(ran := s.hist.ran + [token]));
      WriteAllMoves(cfg, if token.Start? && token.op in s.heap.ops
                         then AddCont(t, FirstWait(s.heap.ops[token.op], token.op)) else t, calls);
    }
  }

  lemma PopMoves(cfg: Config, s: State)
    requires s.ctl.queue != []
    ensures Moves(cfg, s.tmr, Pop(cfg, s).tmr)
  {
    if s.ctl.queue[0].token.Start? {
      ReleaseMoves(cfg, s, s.ctl.queue[0].token.op);
    }
  }

  lemma WriteFailedMoves(cfg: Config, s: State)
    requires s.ctl.writes != []
    ensures Moves(cfg, s.tmr, OnWriteFailed(cfg, s).tmr)
  {
    var t := s.(ctl := s.ctl.(writes := s.ctl.writes[1..], queue := []),
                hist := s.hist.(writeFailed := true, stalled := s.heap.active == 0));
    ReleaseAllMoves(cfg, t, s.ctl.queue);
  }

  lemma AcceptMoves(cfg: Config, s: State, i: nat, aborted: bool)
    requires i < |s.heap.conts|
    ensures Moves(cfg, s.tmr, OnAccepted(cfg, s, i).tmr)
    ensures Moves(cfg, s.tmr, OnAcceptFailed(cfg, s, i, aborted).tmr)
  {
    var op := s.heap.conts[i].op;
    var t := TakeCont(s, i);
    var u := t.(props := s.props.(acceptor := Closed), data := Socket(true));
    WriteMoves(cfg, u, Code(DATA_CONN), Start(op));
    ReleaseMoves(cfg, Write(cfg, u, Code(DATA_CONN), Start(op)), op);
    ReleaseMoves(cfg, if aborted then t else t.(props := t.props.(acceptor := Closed)), op);
  }

  // a data handler has run and ends
  lemma EndMoves(cfg: Config, s: State, outcome: Outcome, op: OpId)
    ensures Moves(cfg, s.tmr, Release(cfg, Ended(cfg, s, outcome), op).tmr)
  {
    WriteMoves(cfg, s, Code(TRANSFER_COMPLETE), NoToken);
    ReleaseMoves(cfg, Ended(cfg, s, outcome), op);
  }

  lemma SendMoves(cfg: Config, s: State, i: nat, ec: bool, ret: SendFile.Ret)
    requires i < |s.heap.conts| && s.heap.conts[i].op in s.sends
    ensures Moves(cfg, s.tmr, OnSend(cfg, s, i, ec, ret).tmr)
  {
    var op := s.heap.conts[i].op;
    var before := s.sends[op];
    var (after, next) := SendFile.Deal(before, SendFile.Slice(cfg.downloadLimit), ec, ret, s.tmr.now);
    var bytes := if |before.sent| <= |after.sent| then after.sent[|before.sent|..] else "";
    var t := TakeCont(s, i).(sends := s.sends[op := after], hist := s.hist.(dataOut := s.hist.dataOut + bytes));
    AfterSendMoves(cfg, t, op, next);
  }

  lemma AfterSendMoves(cfg: Config, s: State, op: OpId, next: SendFile.Next)
    ensures Moves(cfg, s.tmr, Release(cfg, AfterSend(cfg, s, op, next), op).tmr)
  {
    EndMoves(cfg, s, SendOutcome(next, op), op);
  }

  lemma ReceiveMoves(cfg: Config, s: State, i: nat, ec: bool, script: seq<RecvFile.Splice>)
    requires i < |s.heap.conts| && s.heap.conts[i].op in s.recvs
    ensures Moves(cfg, s.tmr, OnReceive(cfg, s, i, ec, script).tmr)
  {
    var op := s.heap.conts[i].op;
    if ec {
      ReleaseMoves(cfg, TakeCont(s, i), op);
    } else {
      var (r, status) := RecvFile.Deal(s.recvs[op], script, None);
      EndMoves(cfg, TakeCont(s, i).(recvs := s.recvs[op := r]), ReceiveOutcome(ec, status, op), op);
    }
  }

  lemma ListedMoves(cfg: Config, s: State, i: nat, bytes: string)
    requires i < |s.heap.conts|
    ensures Moves(cfg, s.tmr, OnListed(cfg, s, i, bytes).tmr)
  {
    EndMoves(cfg, TakeCont(s, i).(hist := s.hist.(dataOut := s.hist.dataOut + bytes)), Completes, s.heap.conts[i].op);
  }

  lemma StepMoves(cfg: Config, s: State, e: Event)
    requires Enabled(cfg, s, e) && !e.Line? && !e.Tick?
    ensures Moves(cfg, s.tmr, Step(cfg, s, e).tmr)
  {
    match e
    case Reenters(calls) => ReenteredMoves(cfg, s, calls);
    case Written => if !s.ctl.phase.Starting? { ReenteredMoves(cfg, s, []); }
    case WriteFailed => if !s.ctl.phase.Starting? { WriteFailedMoves(cfg, s); }
    case AcceptOk(i) => AcceptMoves(cfg, s, i, false);
    case AcceptFailed(i, aborted) => AcceptMoves(cfg, s, i, aborted);
    case Sendable(i, ec, ret) => SendMoves(cfg, s, i, ec, ret);
    case Receivable(i, ec, script) => ReceiveMoves(cfg, s, i, ec, script);
    case Listed(i, bytes) => ListedMoves(cfg, s, i, bytes);
    case _ =>
  }

  // ---------------------------------------------------------------- the deadline

  // nothing can happen to a session at rest but input and the passing of time
  lemma RestIsQuiet(cfg: Config, s: State, e: Event)
    requires Inv(cfg, s) && s.ctl.phase.Started? && AtRest(s) && Enabled(cfg, s, e) && !e.Line?
    ensures IsQuiet(e)
  {
    NoOpsIsInactive(s);
    NoOpsNoConts(s);
  }

  lemma QuietKeepsDeadline(cfg: Config, s: State, e: Event)
    requires Enabled(cfg, s, e) && IsQuiet(e) && !e.Eof? && s.ctl.phase.Started?
    ensures Step(cfg, s, e).tmr.expiry == s.tmr.expiry && Step(cfg, s, e).tmr.since == s.tmr.since
  {
  }

  /** What one step does to the deadline of an open session. */
  ghost predicate Counted(cfg: Config, s: State, e: Event, t: State) {
    t.tmr.expiry.At? ==>
      t.tmr.expiry == if s.tmr.expiry.At? && !e.Line? then s.tmr.expiry else At(s.tmr.now + Timeout(cfg))
  }

  /** On every run, while the session is open: a deadline that stands is counted from the moment
      at which the session came to rest, that is from the last line it read or from the step
      that left it without operations and replies, and nothing but these moves it. */
  lemma DeadlineIsCounted(cfg: Config, now: int, es: seq<Event>, e: Event)
    requires var s := Reach(cfg, now, es);
             s.ctl.phase.Started? && Enabled(cfg, s, e) && !Step(cfg, s, e).ctl.stopped
    ensures Counted(cfg, Reach(cfg, now, es), e, Step(cfg, Reach(cfg, now, es), e))
  {
    AlwaysInv(cfg, now, es);
    var s := Reach(cfg, now, es);
    StepEffect(cfg, s, e);
    if e.Line? {
      LineCounted(cfg, s);
    } else if s.tmr.expiry.At? {
      RestCounted(cfg, s, e);
    } else {
      OtherCounted(cfg, s, e);
    }
  }

  lemma LineCounted(cfg: Config, s: State)
    requires Enabled(cfg, s, Line)
    ensures Counted(cfg, s, Line, Step(cfg, s, Line))
  {
    LineMoves(cfg, s);
  }

  lemma RestCounted(cfg: Config, s: State, e: Event)
    requires Inv(cfg, s) && s.ctl.phase.Started? && !s.ctl.stopped && s.tmr.expiry.At?
    requires Enabled(cfg, s, e) && !e.Line? && !Step(cfg, s, e).ctl.stopped
    ensures Counted(cfg, s, e, Step(cfg, s, e))
  {
    RestIsQuiet(cfg, s, e);
    if !e.Eof? {
      QuietKeepsDeadline(cfg, s, e);
    }
  }

  lemma OtherCounted(cfg: Config, s: State, e: Event)
    requires Enabled(cfg, s, e) && !e.Line? && s.tmr.expiry.Never?
    ensures Counted(cfg, s, e, Step(cfg, s, e))
  {
    if !e.Tick? {
      StepMoves(cfg, s, e);
    }
  }

  /** The first deadline is counted from the delivery of the welcome reply. */
  lemma FirstDeadline(cfg: Config, now: int, es: seq<Event>)
    requires var s := Reach(cfg, now, es); s.ctl.phase.Starting? && Enabled(cfg, s, Written)
    ensures var s := Reach(cfg, now, es);
            var t := Step(cfg, s, Written);
            t.tmr.expiry == At(s.tmr.now + Timeout(cfg)) && t.tmr.armed == 1 && t.ctl.phase.Started?
  {
    AlwaysInv(cfg, now, es);
  }

  /** What the handler of an idle wait does: an open session is closed if and only if its
      deadline stands and has come; otherwise exactly one wait is outstanding again. */
  lemma IdleClosesIff(cfg: Config, now: int, es: seq<Event>)
    requires var s := Reach(cfg, now, es);
             s.ctl.phase.Started? && !s.ctl.stopped && Enabled(cfg, s, IdleHandler)
    ensures var s := Reach(cfg, now, es);
            var t := Step(cfg, s, IdleHandler);
            && (t.ctl.stopped <==> s.tmr.expiry.At? && s.tmr.expiry.time <= s.tmr.now)
            && (!t.ctl.stopped ==> t.tmr.armed == 1 && t.tmr.fired == 0)
  {
    IdleDeadlineIsExact(cfg, now, es);
    IdleCloses(cfg, Reach(cfg, now, es));
  }

  lemma IdleCloses(cfg: Config, s: State)
    requires !s.ctl.stopped && s.tmr.armed + s.tmr.fired == 1 && s.tmr.fired > 0
    ensures var t := Step(cfg, s, IdleHandler);
            && (t.ctl.stopped <==> s.tmr.expiry.At? && s.tmr.expiry.time <= s.tmr.now)
            && (!t.ctl.stopped ==> t.tmr.armed == 1 && t.tmr.fired == 0)
  {
  }
}
