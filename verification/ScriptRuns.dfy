/** Every run of a session whose peer sends the benchmark client's requests, or a part of them. */
module ScriptRuns {
  import opened Text
  import opened Requests
  import opened Replies
  import opened Commands
  import opened Engine
  import opened SessionEffects
  import opened SessionInvariants
  import opened SessionRuns
  import opened SessionSends
  import opened SessionTransfers
  import opened Sequential
  import opened Script
  import SendFile

  /** The lines executed so far are the first ones of the client's script. */
  ghost predicate OnScript(s: State, file: string) { Lines(s.hist.consumed) <= Prints(file) }

  /** No transfer yet. */
  ghost predicate Before(s: State) {
    s.hist.transfers == [] && s.sends == map[] && s.hist.dataOut == ""
  }

  /** After the RETR: operation `op` is the only one there ever is. */
  ghost predicate Phase(cfg: Config, s: State, file: string, op: OpId) {
    && |Lines(s.hist.consumed)| == 5
    && LogPhase(cfg, s.hist.logged, file)
    && HeapPhase(s, op)
    && OneSend(cfg, s, file, op)
    && (HasCompletion(s.hist.logged) ==> Whole(s, op))
  }

  // the replies: four known ones, then well-formed ones
  ghost predicate LogPhase(cfg: Config, logged: seq<Message>, file: string) {
    && |logged| >= 4 && RepliesOf(logged)[..4] == FirstReplies(cfg, file)
    && forall i :: 4 <= i < |logged| ==> Printed(logged[i].reply)
  }

  // a 226 is among the replies to the RETR
  ghost predicate HasCompletion(logged: seq<Message>) {
    exists i :: 4 <= i < |logged| && logged[i].reply.code == TRANSFER_COMPLETE
  }

  lemma LogPhaseSnoc(cfg: Config, logged: seq<Message>, file: string, m: Message)
    requires LogPhase(cfg, logged, file) && Printed(m.reply)
    ensures LogPhase(cfg, logged + [m], file)
    ensures HasCompletion(logged + [m]) <==> HasCompletion(logged) || m.reply.code == TRANSFER_COMPLETE
  {
    RepliesSnoc(logged, m);
    assert (RepliesOf(logged) + [m.reply])[..4] == RepliesOf(logged)[..4];
    if HasCompletion(logged) {
      var i :| 4 <= i < |logged| && logged[i].reply.code == TRANSFER_COMPLETE;
      assert (logged + [m])[i].reply.code == TRANSFER_COMPLETE;
    }
    if m.reply.code == TRANSFER_COMPLETE {
      assert (logged + [m])[|logged|].reply.code == TRANSFER_COMPLETE;
    }
  }

  ghost predicate HeapPhase(s: State, op: OpId) {
    && (forall c :: c in s.heap.conts ==> c.op == op && !c.Readable? && !c.DataWrite?)
    && (forall m :: m in s.ctl.queue && m.token.Start? ==> m.token.op == op)
    && (forall id :: id in s.heap.ops ==> id == op && s.heap.ops[id] == Send)
  }

  /** The data connections have carried what this one operation sent. */
  ghost predicate OneSend(cfg: Config, s: State, file: string, op: OpId) {
    if op in s.sends then
      && s.sends.Keys == {op} && Exists(cfg, file) && Opens(cfg, file)
      && s.sends[op].file == Content(cfg, file) && s.hist.dataOut == s.sends[op].sent
    else s.sends == map[] && s.hist.dataOut == "" && s.heap.ops == map[]
  }

  ghost predicate Whole(s: State, op: OpId) {
    op in s.sends && s.sends[op].sent == s.sends[op].file && s.heap.ops == map[]
  }

  // ---------------------------------------------------------------- steps without a line

  lemma NoHoldersNoOps(s: State)
    requires HeapOk(s, multiset{}) && s.heap.conts == [] && forall m :: m in s.ctl.queue ==> !m.token.Start?
    ensures s.heap.ops == map[]
  {
    QueueRefsNone(s.ctl.queue);
    assert s.heap.refs == multiset{};
    NoRefsNoOps(s);
  }

  /** What an event other than a line, an accept or a send leaves alone. */
  ghost predicate SameTransfer(s: State, t: State) {
    && t.hist.consumed == s.hist.consumed && t.hist.logged == s.hist.logged && t.hist.dataOut == s.hist.dataOut
    && t.hist.transfers == s.hist.transfers
    && t.sends == s.sends
    && t.heap.ops.Keys <= s.heap.ops.Keys && (forall id :: id in t.heap.ops ==> t.heap.ops[id] == s.heap.ops[id])
    && (forall m :: m in t.ctl.queue ==> m in s.ctl.queue)
  }

  lemma PhaseFrame(cfg: Config, s: State, t: State, file: string, op: OpId)
    requires Phase(cfg, s, file, op) && SameTransfer(s, t)
    requires forall c :: c in t.heap.conts ==> c in s.heap.conts || c == Writable(op)
    ensures Phase(cfg, t, file, op)
  {
    if s.heap.ops == map[] {
      assert t.heap.ops.Keys == {};
    }
  }

  lemma PhaseWritten(cfg: Config, s: State, file: string, op: OpId)
    requires Phase(cfg, s, file, op) && s.ctl.queue != [] && s.ctl.writes != []
    ensures Phase(cfg, OnWritten(cfg, s), file, op)
  {
    WrittenEffect(cfg, s);
    assert s.ctl.queue[0] in s.ctl.queue;
    PhaseFrame(cfg, s, OnWritten(cfg, s), file, op);
  }

  lemma PhaseAccepted(cfg: Config, s: State, file: string, op: OpId, i: nat)
    requires Phase(cfg, s, file, op) && HeapOk(s, multiset{}) && i < |s.heap.conts|
    ensures Phase(cfg, OnAccepted(cfg, s, i), file, op)
  {
    AcceptedEffect(cfg, s, i);
    CodePrinted(DATA_CONN);
    LogPhaseSnoc(cfg, s.hist.logged, file, Message(Code(DATA_CONN), Start(op)));
    NotYetWhole(s, i, op);
    AcceptedHeap(cfg, s, op, i);
  }

  lemma AcceptedHeap(cfg: Config, s: State, op: OpId, i: nat)
    requires HeapPhase(s, op) && HeapOk(s, multiset{}) && i < |s.heap.conts|
    ensures HeapPhase(OnAccepted(cfg, s, i), op) && OnAccepted(cfg, s, i).heap.ops == s.heap.ops
  {
    assert s.heap.conts[i] in s.heap.conts;
    ContHeld(s.heap.conts, s.heap.conts[i]);
    assert op in s.heap.refs;
    AcceptedEffect(cfg, s, i);
    QueuedStart(s, OnAccepted(cfg, s, i), op, i);
  }

  lemma QueuedStart(s: State, t: State, op: OpId, i: nat)
    requires HeapPhase(s, op) && i < |s.heap.conts|
    requires t.ctl.queue == s.ctl.queue + [Message(Code(DATA_CONN), Start(op))]
    requires t.heap.conts == s.heap.conts[..i] + s.heap.conts[i + 1..] && t.heap.ops == s.heap.ops
    ensures HeapPhase(t, op)
  {
  }

  lemma PhaseAcceptFailed(cfg: Config, s: State, file: string, op: OpId, i: nat, aborted: bool)
    requires Phase(cfg, s, file, op) && i < |s.heap.conts|
    ensures Phase(cfg, OnAcceptFailed(cfg, s, i, aborted), file, op)
  {
    AcceptFailedEffect(cfg, s, i, aborted);
    PhaseFrame(cfg, s, OnAcceptFailed(cfg, s, i, aborted), file, op);
  }

  lemma PhaseSend(cfg: Config, s: State, file: string, op: OpId, i: nat, ec: bool, ret: SendFile.Ret)
    requires Phase(cfg, s, file, op) && HeapOk(s, multiset{}) && Unshared(s.heap.refs) && SendsOk(cfg, s)
    requires i < |s.heap.conts| && s.heap.conts[i].op == op && op in s.sends
    requires HeapOk(OnSend(cfg, s, i, ec, ret), multiset{})
    requires s.heap.conts[i].Writable? || (s.heap.conts[i].Limiter? && s.heap.conts[i].expiry <= s.tmr.now)
    ensures Phase(cfg, OnSend(cfg, s, i, ec, ret), file, op)
  {
    var (after, next) := SendFile.Deal(s.sends[op], SendFile.Slice(cfg.downloadLimit), ec, ret, s.tmr.now);
    SendAppends(cfg, s, i, ec, ret);
    NotYetWhole(s, i, op);
    SoleHolder(s, i);
    SendEnds(cfg, s, OnSend(cfg, s, i, ec, ret), file, op, i, after, SendOutcome(next, op));
  }

  ghost predicate SendEnded(s: State, t: State, op: OpId, i: nat, after: SendFile.Transfer, outcome: Outcome)
    requires i < |s.heap.conts| && op in s.sends && s.sends[op].sent <= after.sent
  {
    && after.file == s.sends[op].file
    && (outcome.Completes? ==> after.sent == after.file)
    && (outcome.Again? ==> outcome.c.op == op && !outcome.c.Readable? && !outcome.c.DataWrite?)
    && DataEnded(s, t, i, outcome, s.sends[op := after], s.recvs, s.hist.dataOut + after.sent[|s.sends[op].sent|..])
  }

  lemma SendEnds(cfg: Config, s: State, t: State, file: string, op: OpId, i: nat, after: SendFile.Transfer,
                 outcome: Outcome)
    requires Phase(cfg, s, file, op) && i < |s.heap.conts| && op in s.sends && !Whole(s, op)
    requires s.sends[op].sent <= after.sent && SendEnded(s, t, op, i, after, outcome)
    requires HeapOk(t, multiset{})
    requires forall c :: c in s.heap.conts[..i] + s.heap.conts[i + 1..] ==> c.op != op
    requires forall m :: m in s.ctl.queue && m.token.Start? ==> m.token.op != op
    ensures Phase(cfg, t, file, op)
  {
    SendEndsHeap(s, t, op, i, after, outcome);
    SendEndsOne(cfg, s, t, file, op, i, after, outcome);
    if outcome.Completes? {
      CodePrinted(TRANSFER_COMPLETE);
      LogPhaseSnoc(cfg, s.hist.logged, file, Message(Code(TRANSFER_COMPLETE), NoToken));
      AllTaken(s.heap.conts, i, op);
      EndsQueue(s, t, op, i, after, outcome);
      NoHoldersNoOps(t);
    }
  }

  lemma EndsQueue(s: State, t: State, op: OpId, i: nat, after: SendFile.Transfer, outcome: Outcome)
    requires HeapPhase(s, op) && i < |s.heap.conts| && op in s.sends && outcome.Completes?
    requires s.sends[op].sent <= after.sent && SendEnded(s, t, op, i, after, outcome)
    requires forall m :: m in s.ctl.queue && m.token.Start? ==> m.token.op != op
    ensures forall m :: m in t.ctl.queue ==> !m.token.Start?
    ensures t.heap.conts == s.heap.conts[..i] + s.heap.conts[i + 1..]
  {
  }

  lemma SendEndsHeap(s: State, t: State, op: OpId, i: nat, after: SendFile.Transfer, outcome: Outcome)
    requires HeapPhase(s, op) && i < |s.heap.conts| && op in s.sends
    requires s.sends[op].sent <= after.sent && SendEnded(s, t, op, i, after, outcome)
    ensures HeapPhase(t, op)
  {
  }

  lemma SendEndsOne(cfg: Config, s: State, t: State, file: string, op: OpId, i: nat, after: SendFile.Transfer,
                    outcome: Outcome)
    requires OneSend(cfg, s, file, op) && i < |s.heap.conts| && op in s.sends
    requires s.sends[op].sent <= after.sent && SendEnded(s, t, op, i, after, outcome)
    ensures OneSend(cfg, t, file, op)
  {
    assert t.sends.Keys == {op};
    assert s.sends[op].sent + after.sent[|s.sends[op].sent|..] == after.sent;
  }

  lemma AllTaken(cs: seq<Cont>, i: nat, op: OpId)
    requires i < |cs| && forall c :: c in cs ==> c.op == op
    requires forall c :: c in cs[..i] + cs[i + 1..] ==> c.op != op
    ensures cs[..i] + cs[i + 1..] == []
  {
    var rest := cs[..i] + cs[i + 1..];
    assert forall c :: c in rest ==> c in cs;
    assert forall c :: c !in rest;
    FirstIsMember(rest);
  }

  lemma FirstIsMember(cs: seq<Cont>)
    ensures cs == [] || cs[0] in cs
  {
  }

  lemma NotYetWhole(s: State, i: nat, op: OpId)
    requires HeapOk(s, multiset{}) && i < |s.heap.conts|
    ensures !Whole(s, op)
  {
    ContHeld(s.heap.conts, s.heap.conts[i]);
    assert s.heap.conts[i].op in s.heap.refs;
  }

  // the bytes recorded for the data socket are the bytes recorded for the operation
  lemma SendAppends(cfg: Config, s: State, i: nat, ec: bool, ret: SendFile.Ret)
    requires SendsOk(cfg, s) && i < |s.heap.conts| && s.heap.conts[i].op in s.sends
    requires s.heap.conts[i].Writable? || (s.heap.conts[i].Limiter? && s.heap.conts[i].expiry <= s.tmr.now)
    ensures var op := s.heap.conts[i].op;
            var (after, next) := SendFile.Deal(s.sends[op], SendFile.Slice(cfg.downloadLimit), ec, ret, s.tmr.now);
            && s.sends[op].sent <= after.sent
            && s.sends[op].sent + after.sent[|s.sends[op].sent|..] == after.sent
            && SendEnded(s, OnSend(cfg, s, i, ec, ret), op, i, after, SendOutcome(next, op))
  {
    var limit := cfg.downloadLimit;
    var cont := s.heap.conts[i];
    assert ContOk(s, cont, limit);
    if cont.Limiter? {
      ReadyLater(s.sends[cont.op], limit, cont.expiry, s.tmr.now);
    }
    SendFile.DealKeeps(s.sends[cont.op], limit, ec, ret, s.tmr.now);
    SendEffect(cfg, s, i, ec, ret);
  }

  lemma PhaseQuiet(cfg: Config, s: State, file: string, op: OpId, e: Event)
    requires Phase(cfg, s, file, op) && Enabled(cfg, s, e) && IsQuiet(e)
    ensures Phase(cfg, Step(cfg, s, e), file, op)
  {
    QuietSame(cfg, s, e);
    PhaseFrame(cfg, s, Step(cfg, s, e), file, op);
  }

  lemma QuietSame(cfg: Config, s: State, e: Event)
    requires Enabled(cfg, s, e) && IsQuiet(e)
    ensures SameTransfer(s, Step(cfg, s, e)) && Step(cfg, s, e).heap == s.heap
  {
    QuietStepped(cfg, s, e);
  }

  lemma PhaseWriteFailed(cfg: Config, s: State, file: string, op: OpId)
    requires Phase(cfg, s, file, op) && s.ctl.writes != []
    ensures Phase(cfg, OnWriteFailed(cfg, s), file, op)
  {
    WriteFailedEffect(cfg, s);
    PhaseFrame(cfg, s, OnWriteFailed(cfg, s), file, op);
  }

  lemma PhaseSendStep(cfg: Config, s: State, file: string, op: OpId, i: nat, ec: bool, ret: SendFile.Ret)
    requires Phase(cfg, s, file, op) && Done(cfg, s, multiset{}) && Unshared(s.heap.refs) && SendsOk(cfg, s)
    requires i < |s.heap.conts| && s.heap.conts[i].op in s.sends
    requires s.heap.conts[i].Writable? || (s.heap.conts[i].Limiter? && s.heap.conts[i].expiry <= s.tmr.now)
    ensures Phase(cfg, OnSend(cfg, s, i, ec, ret), file, op)
  {
    assert s.heap.conts[i] in s.heap.conts;
    SendDone(cfg, s, i, ec, ret);
    PhaseSend(cfg, s, file, op, i, ec, ret);
  }

  // which data handlers there can be
  lemma NoOtherData(s: State, op: OpId, i: nat)
    requires HeapPhase(s, op) && i < |s.heap.conts|
    ensures !s.heap.conts[i].Readable? && !s.heap.conts[i].DataWrite?
  {
    assert s.heap.conts[i] in s.heap.conts;
  }

  lemma PhaseAcceptStep(cfg: Config, s: State, file: string, op: OpId, e: Event)
    requires Phase(cfg, s, file, op) && HeapOk(s, multiset{})
    requires Enabled(cfg, s, e) && (e.AcceptOk? || e.AcceptFailed?)
    ensures Phase(cfg, Step(cfg, s, e), file, op)
  {
    match e
    case AcceptOk(i) => PhaseAccepted(cfg, s, file, op, i);
    case AcceptFailed(i, aborted) => PhaseAcceptFailed(cfg, s, file, op, i, aborted);
  }

  /** Every event that is not a further line preserves the phase. */
  lemma PhaseStep(cfg: Config, s: State, file: string, op: OpId, e: Event)
    requires Phase(cfg, s, file, op) && Done(cfg, s, multiset{}) && Unshared(s.heap.refs) && SendsOk(cfg, s)
    requires !e.Line? && !e.Reenters?
    ensures Phase(cfg, Step(cfg, s, e), file, op)
  {
    if Enabled(cfg, s, e) {
      if e.AcceptOk? || e.AcceptFailed? {
        PhaseAcceptStep(cfg, s, file, op, e);
      } else if e.Sendable? {
        PhaseSendStep(cfg, s, file, op, e.i, e.ec, e.ret);
      } else if e.Receivable? || e.Listed? {
        NoOtherData(s, op, e.i);
      } else if e.Written? {
        PhaseWritten(cfg, s, file, op);
      } else if e.WriteFailed? {
        PhaseWriteFailed(cfg, s, file, op);
      } else {
        PhaseQuiet(cfg, s, file, op, e);
      }
    }
  }

  // ---------------------------------------------------------------- the RETR

  lemma RefusalPrinted(cfg: Config, p: Props, body: string)
    requires OpenTransfer(cfg, p, Send, body).Refused?
    ensures Printed(OpenTransfer(cfg, p, Send, body).reply)
    ensures OpenTransfer(cfg, p, Send, body).reply.code == NOPERM_FILEFATAL
  {
    CodeInfoPrinted(NOPERM_FILEFATAL, "File not found");
    CodeInfoPrinted(NOPERM_FILEFATAL, "Failed to open file.");
  }

  // what is left of the session when its only operation is `op`, or when there is none
  lemma HeapStarts(u: State, queue: seq<Message>, op: OpId)
    requires HeapOk(u, multiset{})
    requires || u.heap.refs == multiset{}
             || (u.heap.refs == multiset{op} && op in u.heap.ops && u.heap.ops[op] == Send)
    requires forall c :: c in u.heap.conts ==> c.Accept?
    ensures HeapPhase(u, op)
    ensures u.heap.refs == multiset{} ==> u.heap.ops == map[]
  {
    forall c | c in u.heap.conts ensures c.op == op {
      ContHeld(u.heap.conts, c);
      assert c.op in u.heap.refs;
    }
    forall m | m in u.ctl.queue && m.token.Start? ensures m.token.op == op {
      TokenHeld(u.ctl.queue, m);
      assert m.token.op in u.heap.refs;
    }
    assert forall id :: id in u.heap.ops ==> id in u.heap.refs;
    if u.heap.refs == multiset{} {
      NoRefsNoOps(u);
    }
  }

  lemma LogStarts(cfg: Config, logged: seq<Message>, file: string)
    requires RepliesOf(logged) == FirstReplies(cfg, file)
    ensures |logged| == 4 && LogPhase(cfg, logged, file)
  {
    assert RepliesOf(logged)[..4] == RepliesOf(logged);
  }

  // the file is open, or there is nothing to send
  lemma SendStarts(cfg: Config, s: State, u: State, file: string, got: Opened)
    requires Before(s) && FilesOpened(s, u, Send, got, s.heap.next) && u.hist.dataOut == s.hist.dataOut
    requires got.Ready? ==> Opens(cfg, file) && Exists(cfg, file) && got.content == Content(cfg, file)
    requires got.Refused? ==> u.heap.ops == map[]
    ensures OneSend(cfg, u, file, s.heap.next)
  {
    if got.Ready? {
      assert u.sends.Keys == {s.heap.next};
    }
  }

  // the RETR finds its file and a listening socket
  lemma RetrWaits(cfg: Config, s: State, u: State, file: string, req: Request)
    requires Before(s) && s.heap.refs == multiset{} && s.heap.conts == [] && HeapOk(u, multiset{})
    requires RepliesOf(s.hist.logged) == FirstReplies(cfg, file)
    requires u == RunTransfer(cfg, AtLine(s), Send, req) && |Lines(u.hist.consumed)| == 5
    requires OpenTransfer(cfg, s.props, Send, req.body).Ready? && !s.props.acceptor.Closed?
    requires Opens(cfg, file) && Exists(cfg, file)
    requires OpenTransfer(cfg, s.props, Send, req.body).content == Content(cfg, file)
    ensures Phase(cfg, u, file, s.heap.next)
  {
    TransferEffect(cfg, AtLine(s), Send, req);
    LogStarts(cfg, s.hist.logged, file);
    HeapStarts(u, s.ctl.queue, s.heap.next);
    SendStarts(cfg, s, u, file, OpenTransfer(cfg, s.props, Send, req.body));
    NotCompleted(s.hist.logged);
  }

  lemma NotCompleted(logged: seq<Message>)
    requires |logged| <= 4
    ensures !HasCompletion(logged)
  {
  }

  // the RETR is answered at once
  lemma RetrAnswered(cfg: Config, s: State, u: State, file: string, req: Request)
    requires Before(s) && s.heap.refs == multiset{} && s.heap.conts == [] && HeapOk(u, multiset{})
    requires RepliesOf(s.hist.logged) == FirstReplies(cfg, file)
    requires u == RunTransfer(cfg, AtLine(s), Send, req) && |Lines(u.hist.consumed)| == 5
    requires OpenTransfer(cfg, s.props, Send, req.body).Ready? ==>
               && s.props.acceptor.Closed? && Opens(cfg, file) && Exists(cfg, file)
               && OpenTransfer(cfg, s.props, Send, req.body).content == Content(cfg, file)
    ensures Phase(cfg, u, file, s.heap.next)
  {
    TransferEffect(cfg, AtLine(s), Send, req);
    var got := OpenTransfer(cfg, s.props, Send, req.body);
    var reply := RetrReply(cfg, s.props, req.body, got);
    RefusedLog(cfg, s, u, file, reply);
    HeapStarts(u, s.ctl.queue, s.heap.next);
    SendStarts(cfg, s, u, file, got);
  }

  lemma RetrReply(cfg: Config, p: Props, body: string, got: Opened) returns (reply: Reply)
    requires got == OpenTransfer(cfg, p, Send, body)
    ensures reply == if got.Ready? then Code(INVALID_SEQ) else got.reply
    ensures Printed(reply) && reply.code != TRANSFER_COMPLETE
  {
    if got.Ready? {
      CodePrinted(INVALID_SEQ);
      reply := Code(INVALID_SEQ);
    } else {
      RefusalPrinted(cfg, p, body);
      reply := got.reply;
    }
  }

  lemma RefusedLog(cfg: Config, s: State, u: State, file: string, reply: Reply)
    requires RepliesOf(s.hist.logged) == FirstReplies(cfg, file) && Printed(reply) && reply.code != TRANSFER_COMPLETE
    requires u.hist.logged == s.hist.logged + [Message(reply, NoToken)]
    ensures LogPhase(cfg, u.hist.logged, file) && !HasCompletion(u.hist.logged)
  {
    LogStarts(cfg, s.hist.logged, file);
    LogPhaseSnoc(cfg, s.hist.logged, file, Message(reply, NoToken));
    NotCompleted(s.hist.logged);
  }

  lemma OnLineRuns(cfg: Config, s: State, kind: Kind, req: Request)
    requires ParseLine(FirstLine(s)) == Some(req) && RouteOf(s.props, req) == Run(kind) && IsTransfer(kind)
    ensures OnLine(cfg, s) == RunTransfer(cfg, AtLine(s), kind, req)
  {
  }

  lemma RetrParses(cfg: Config, s: State, file: string)
    requires NoBreak(file) && InputOk(s) && s.props == After(cfg, file, 4)
    requires Lines(s.hist.consumed) == Prints(file)[..4] && LineEnd(s.ctl.buf) > 0 && FirstLine(s) == Prints(file)[4]
    ensures var parsed := ParseLine(FirstLine(s));
            && parsed.Some? && parsed.value.body == Normal(file) && RouteOf(s.props, parsed.value) == Run(Send)
    ensures |Lines(AtLine(s).hist.consumed)| == 5
  {
    PrintedLines(file, 4);
    RouteSeen(s.props, ParseLine(Prints(file)[4]).value, file, 4);
    ConsumedLines(s);
  }

  lemma RetrRuns(cfg: Config, s: State, u: State, file: string, req: Request)
    requires Before(s) && HeapOk(s, multiset{}) && s.heap.ops == map[] && s.heap.conts == [] && HeapOk(u, multiset{})
    requires RepliesOf(s.hist.logged) == FirstReplies(cfg, file) && s.props == After(cfg, file, 4)
    requires req.body == Normal(file)
    requires u == RunTransfer(cfg, AtLine(s), Send, req) && |Lines(u.hist.consumed)| == 5
    ensures Phase(cfg, u, file, s.heap.next)
  {
    OpensTarget(cfg, file);
    assert s.heap.refs == multiset{};
    if OpenTransfer(cfg, s.props, Send, req.body).Ready? && !s.props.acceptor.Closed? {
      RetrWaits(cfg, s, u, file, req);
    } else {
      RetrAnswered(cfg, s, u, file, req);
    }
  }

  lemma FollowsFour(cfg: Config, s: State, file: string)
    requires NoBreak(file) && Follows(cfg, s) && Lines(s.hist.consumed) == Prints(file)[..4]
    ensures RepliesOf(s.hist.logged) == FirstReplies(cfg, file) && s.props == After(cfg, file, 4) && s.heap.conts == []
  {
    ServesScript(cfg, file, 4);
    assert FirstReplies(cfg, file)[..4] == FirstReplies(cfg, file);
  }

  /** The RETR of the script starts the phase. */
  lemma RetrStarts(cfg: Config, s: State, file: string)
    requires NoBreak(file) && InputOk(s) && HeapOk(s, multiset{}) && Before(s) && Follows(cfg, s) && s.heap.ops == map[]
    requires Lines(s.hist.consumed) == Prints(file)[..4] && LineEnd(s.ctl.buf) > 0 && FirstLine(s) == Prints(file)[4]
    requires HeapOk(OnLine(cfg, s), multiset{})
    ensures Phase(cfg, OnLine(cfg, s), file, s.heap.next)
  {
    FollowsFour(cfg, s, file);
    RetrParses(cfg, s, file);
    var req := ParseLine(FirstLine(s)).value;
    OnLineRuns(cfg, s, Send, req);
    TransferEffect(cfg, AtLine(s), Send, req);
    RetrRuns(cfg, s, OnLine(cfg, s), file, req);
  }

  // ---------------------------------------------------------------- the first four lines

  lemma OnLineAnswers(cfg: Config, s: State, kind: Kind, req: Request)
    requires ParseLine(FirstLine(s)) == Some(req) && RouteOf(s.props, req) == Run(kind) && !IsTransfer(kind)
    ensures OnLine(cfg, s) == RunSimple(cfg, AtLine(s), kind, req)
  {
  }

  lemma EarlyLine(cfg: Config, s: State, file: string, k: nat)
    requires NoBreak(file) && k < 4 && Before(s) && Follows(cfg, s)
    requires Lines(s.hist.consumed) == Prints(file)[..k] && LineEnd(s.ctl.buf) > 0 && FirstLine(s) == Prints(file)[k]
    ensures Before(OnLine(cfg, s)) && OnLine(cfg, s).hist.consumed == AtLine(s).hist.consumed
  {
    ServesScript(cfg, file, k);
    PrintedLines(file, k);
    var req := ParseLine(Prints(file)[k]).value;
    RouteSeen(s.props, req, file, k);
    OnLineAnswers(cfg, s, KindOf(k), req);
    SimpleEffect(cfg, AtLine(s), KindOf(k), req);
  }

  lemma EarlyStep(cfg: Config, s: State, e: Event)
    requires Before(s) && s.heap.conts == [] && !e.Line?
    ensures Before(Step(cfg, s, e))
  {
    if Enabled(cfg, s, e) {
      if e.Written? || e.Reenters? || e.WriteFailed? {
        EarlyWrite(cfg, s, e);
      } else {
        assert IsQuiet(e);
        QuietStepped(cfg, s, e);
      }
    }
  }

  lemma EarlyWrite(cfg: Config, s: State, e: Event)
    requires Before(s) && Enabled(cfg, s, e) && (e.Written? || e.Reenters? || e.WriteFailed?)
    ensures Before(Step(cfg, s, e))
  {
    if e.Reenters? {
      ReenteredEffect(cfg, s, e.calls);
    } else if !s.ctl.phase.Starting? {
      if e.Written? { WrittenEffect(cfg, s); } else { WriteFailedEffect(cfg, s); }
    }
  }

  // ---------------------------------------------------------------- whole runs

  /** Only a line event consumes input. */
  lemma Consumes(cfg: Config, s: State, e: Event)
    ensures Step(cfg, s, e).hist.consumed ==
              if e.Line? && Enabled(cfg, s, e) then AtLine(s).hist.consumed else s.hist.consumed
  {
    if Enabled(cfg, s, e) {
      StepEffect(cfg, s, e);
    }
  }

  /** What the lines executed so far say about the session. */
  ghost predicate ScriptOk(cfg: Config, s: State, file: string) {
    if |Lines(s.hist.consumed)| < 5 then Before(s) else exists op :: Phase(cfg, s, file, op)
  }

  // the script so far, before and after a step
  lemma OnScriptBack(cfg: Config, s: State, e: Event, file: string)
    requires InputOk(s) && OnScript(Step(cfg, s, e), file)
    ensures OnScript(s, file)
    ensures var n := |Lines(s.hist.consumed)|;
            if e.Line? && Enabled(cfg, s, e) then
              && n < 5 && Lines(s.hist.consumed) == Prints(file)[..n] && FirstLine(s) == Prints(file)[n]
              && |Lines(Step(cfg, s, e).hist.consumed)| == n + 1
            else Lines(Step(cfg, s, e).hist.consumed) == Lines(s.hist.consumed)
  {
    Consumes(cfg, s, e);
    if e.Line? && Enabled(cfg, s, e) {
      ConsumedLines(s);
      var done, line := Lines(s.hist.consumed), FirstLine(s);
      PrefixSnoc(done, line, Prints(file));
    }
  }

  lemma PrefixSnoc(done: seq<string>, line: string, all: seq<string>)
    requires done + [line] <= all
    ensures |done| < |all| && done == all[..|done|] && line == all[|done|] && done <= all
  {
    assert (done + [line])[|done|] == line;
    assert forall i :: 0 <= i < |done| ==> (done + [line])[i] == done[i];
  }

  lemma ScriptLine(cfg: Config, s: State, file: string, n: nat)
    requires NoBreak(file) && Enabled(cfg, s, Line) && Inv(cfg, s) && Inv(cfg, OnLine(cfg, s)) && s.ctl.phase.Started?
    requires n < 5 && Before(s) && Follows(cfg, s) && s.heap.ops == map[]
    requires Lines(s.hist.consumed) == Prints(file)[..n] && FirstLine(s) == Prints(file)[n]
    requires |Lines(OnLine(cfg, s).hist.consumed)| == n + 1
    ensures ScriptOk(cfg, OnLine(cfg, s), file)
  {
    if n < 4 {
      EarlyLine(cfg, s, file, n);
    } else {
      LineStepped(cfg, s);
      RetrStarts(cfg, s, file);
    }
  }

  lemma PhaseGoesOn(cfg: Config, s: State, file: string, e: Event)
    requires (exists op :: Phase(cfg, s, file, op)) && Done(cfg, s, multiset{})
    requires Unshared(s.heap.refs) && SendsOk(cfg, s)
    requires !e.Line? && !e.Reenters?
    ensures exists op :: Phase(cfg, Step(cfg, s, e), file, op)
  {
    var op :| Phase(cfg, s, file, op);
    PhaseStep(cfg, s, file, op, e);
  }

  /** However the input arrives: as long as the session has only executed lines of the
      script, there is no transfer before the RETR, and afterwards only that one. */
  lemma {:induction false} ScriptThroughout(cfg: Config, now: int, es: seq<Event>, file: string)
    requires FilesFit(cfg.files) && NoBreak(file) && OwnTokens(es) && OnScript(Reach(cfg, now, es), file)
    ensures ScriptOk(cfg, Reach(cfg, now, es), file)
  {
    if es == [] {
      assert Lines(Reach(cfg, now, es).hist.consumed) == [];
    } else {
      var init, e := es[..|es| - 1], es[|es| - 1];
      assert e in es && forall x :: x in init ==> x in es;
      InputThroughout(cfg, now, init);
      OnScriptBack(cfg, Reach(cfg, now, init), e, file);
      ScriptThroughout(cfg, now, init, file);
      ScriptStep(cfg, now, init, e, file);
    }
  }

  lemma ScriptStep(cfg: Config, now: int, es: seq<Event>, e: Event, file: string)
    requires var s := Reach(cfg, now, es); InputOk(s) && ScriptOk(cfg, s, file) && OnScript(Step(cfg, s, e), file)
    requires FilesFit(cfg.files) && NoBreak(file) && !e.Reenters?
    ensures ScriptOk(cfg, Step(cfg, Reach(cfg, now, es), e), file)
  {
    var s := Reach(cfg, now, es);
    OnScriptBack(cfg, s, e, file);
    AlwaysInv(cfg, now, es);
    StepKeepsInv(cfg, s, e);
    if |Lines(s.hist.consumed)| < 5 {
      FollowsThroughout(cfg, now, es);
      if !e.Line? {
        EarlyStep(cfg, s, e);
      } else if Enabled(cfg, s, e) {
        LinesMeanStarted(cfg, s);
        ScriptLine(cfg, s, file, |Lines(s.hist.consumed)|);
      }
    } else if !e.Line? {
      LinesMeanStarted(cfg, s);
      AccountingIsExact(cfg, now, es);
      SendsThroughout(cfg, now, es);
      PhaseGoesOn(cfg, s, file, e);
    }
  }

  // ---------------------------------------------------------------- what the peer can rely on

  /** The replies so far: the reference server's for the first four lines, and readable ones. */
  ghost predicate RepliesOk(cfg: Config, s: State, file: string) {
    && (forall i :: 0 <= i < |s.hist.logged| && i < 4 ==> s.hist.logged[i].reply == FirstReplies(cfg, file)[i])
    && (forall i :: 0 <= i < |s.hist.logged| ==> Printed(s.hist.logged[i].reply))
  }

  lemma PhaseReplies(cfg: Config, s: State, file: string)
    requires LogPhase(cfg, s.hist.logged, file) && '\r' !in cfg.address
    ensures RepliesOk(cfg, s, file)
  {
    FirstRepliesPrinted(cfg, file);
    var logged := s.hist.logged;
    forall i | 0 <= i < 4 ensures logged[i].reply == FirstReplies(cfg, file)[i] && Printed(logged[i].reply) {
      assert RepliesOf(logged)[..4][i] == logged[i].reply;
    }
  }

  lemma EarlyReplies(cfg: Config, s: State, file: string, n: nat)
    requires NoBreak(file) && '\r' !in cfg.address
    requires n <= 4 && Follows(cfg, s) && Lines(s.hist.consumed) == Prints(file)[..n]
    ensures RepliesOk(cfg, s, file) && |s.hist.logged| == n && s.props == After(cfg, file, n)
  {
    ServesScript(cfg, file, n);
    FirstRepliesPrinted(cfg, file);
    var logged := s.hist.logged;
    assert |RepliesOf(logged)| == n;
    forall i | 0 <= i < n ensures logged[i].reply == FirstReplies(cfg, file)[i] && Printed(logged[i].reply) {
      assert RepliesOf(logged)[i] == logged[i].reply;
    }
  }

  lemma ScriptReplies(cfg: Config, now: int, es: seq<Event>, file: string)
    requires FilesFit(cfg.files) && NoBreak(file) && '\r' !in cfg.address && OwnTokens(es)
    requires OnScript(Reach(cfg, now, es), file)
    ensures var s := Reach(cfg, now, es);
            var n := |Lines(s.hist.consumed)|;
            && RepliesOk(cfg, s, file)
            && (n < 5 ==> |s.hist.logged| == n && s.props == After(cfg, file, n) && Before(s))
  {
    var s := Reach(cfg, now, es);
    ScriptThroughout(cfg, now, es, file);
    var n := |Lines(s.hist.consumed)|;
    if n < 5 {
      FollowsThroughout(cfg, now, es);
      assert Lines(s.hist.consumed) == Prints(file)[..n];
      EarlyReplies(cfg, s, file, n);
    } else {
      PhaseReplies(cfg, s, file);
    }
  }

  lemma SentIsPrefix(cfg: Config, s: State, file: string, op: OpId)
    requires OneSend(cfg, s, file, op) && SendsOk(cfg, s)
    ensures s.hist.dataOut != "" ==> Exists(cfg, file) && s.hist.dataOut <= Content(cfg, file)
    ensures Whole(s, op) ==> Opens(cfg, file) && Exists(cfg, file) && s.hist.dataOut == Content(cfg, file)
  {
  }

  /** All that the data connection carries are bytes of the file, from its start; and after a
      226, which is at best the sixth line, it has carried the whole file. */
  lemma ScriptData(cfg: Config, now: int, es: seq<Event>, file: string)
    requires FilesFit(cfg.files) && NoBreak(file) && '\r' !in cfg.address && OwnTokens(es)
    requires OnScript(Reach(cfg, now, es), file)
    ensures var s := Reach(cfg, now, es);
            && (s.hist.dataOut != "" ==> Exists(cfg, file) && s.hist.dataOut <= Content(cfg, file))
            && (HasCompletion(s.hist.logged) ==>
                  Opens(cfg, file) && Exists(cfg, file) && s.hist.dataOut == Content(cfg, file))
  {
    var s := Reach(cfg, now, es);
    ScriptThroughout(cfg, now, es, file);
    if |Lines(s.hist.consumed)| < 5 {
      ScriptReplies(cfg, now, es, file);
    } else {
      SendsThroughout(cfg, now, es);
      var op :| Phase(cfg, s, file, op);
      SentIsPrefix(cfg, s, file, op);
    }
  }
}
