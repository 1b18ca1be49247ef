/** Which handlers wait for which operations, over whole runs. */
module SessionHandlers {
  import opened Text
  import opened Requests
  import opened Commands
  import opened Engine
  import opened SessionEffects
  import opened SessionRuns
  import opened SessionSends
  import SendFile
  import RecvFile

  /** A download waits to write or for its limiter, an upload to read, a listing for its one write. */
  predicate Suits(kind: Kind, c: Cont) {
    match c
    case Accept(_, _) => kind.Send? || kind.Recv? || kind.List?
    case Writable(_) => kind.Send?
    case Limiter(_, _) => kind.Send?
    case Readable(_) => kind.Recv?
    case DataWrite(_) => kind.List?
  }

  ghost predicate Fit(s: State) {
    && (forall c :: c in s.heap.conts ==> ContFits(s.heap, c))
    && (forall m :: m in s.ctl.queue && m.token.Start? ==> OpFits(s.heap, m.token.op))
  }

  ghost predicate ContFits(h: Heap, c: Cont) { c.op < h.next && (c.op in h.ops ==> Suits(h.ops[c.op], c)) }

  ghost predicate OpFits(h: Heap, op: OpId) { op < h.next && (op in h.ops ==> IsTransfer(h.ops[op])) }

  // the operations left are old ones, or the next one
  ghost predicate OldOrNext(s: Heap, t: Heap) {
    s.next <= t.next && forall id :: id in t.ops ==> id == s.next || (id in s.ops && t.ops[id] == s.ops[id])
  }

  lemma FitFrame(s: State, t: State)
    requires Fit(s) && OldOrNext(s.heap, t.heap)
    requires forall c :: c in t.heap.conts ==> c in s.heap.conts || ContFits(t.heap, c)
    requires forall m :: m in t.ctl.queue && m.token.Start? ==> m in s.ctl.queue || OpFits(t.heap, m.token.op)
    ensures Fit(t)
  {
  }

  lemma LineFit(cfg: Config, s: State)
    requires Fit(s)
    ensures Fit(OnLine(cfg, s))
  {
    LineEffect(cfg, s);
    var t := OnLine(cfg, s);
    if ParseLine(FirstLine(s)).Some? {
      var req := ParseLine(FirstLine(s)).value;
      match RouteOf(s.props, req)
      case Reject(_) => FitFrame(s, t);
      case Run(kind) =>
        if IsTransfer(kind) {
          TransferFit(s, t, kind, req, OpenTransfer(cfg, s.props, kind, req.body));
        } else {
          FitFrame(s, t);
        }
    } else {
      FitFrame(s, t);
    }
  }

  lemma TransferFit(s: State, t: State, kind: Kind, req: Request, got: Opened)
    requires Fit(s) && IsTransfer(kind) && TransferOutcome(AtLine(s), t, kind, req, got)
    ensures Fit(t)
  {
    FitFrame(s, t);
  }

  lemma ReenteredFit(cfg: Config, s: State, calls: seq<Message>)
    requires Fit(s) && s.ctl.queue != [] && s.ctl.writes != []
    requires Callable(calls) && (s.ctl.queue[0].token.NoToken? ==> calls == [])
    ensures Fit(OnReentered(cfg, s, calls))
  {
    ReenteredEffect(cfg, s, calls);
    assert s.ctl.queue[0] in s.ctl.queue;
    FitFrame(s, OnReentered(cfg, s, calls));
  }

  lemma WriteFit(cfg: Config, s: State, e: Event)
    requires Fit(s) && Enabled(cfg, s, e) && (e.Written? || e.Reenters? || e.WriteFailed?)
    ensures Fit(Step(cfg, s, e))
  {
    if e.Reenters? {
      ReenteredFit(cfg, s, e.calls);
    } else if s.ctl.phase.Starting? {
      FitFrame(s, Step(cfg, s, e));
    } else if e.Written? {
      ReenteredFit(cfg, s, []);
    } else {
      WriteFailedEffect(cfg, s);
      FitFrame(s, Step(cfg, s, e));
    }
  }

  lemma AcceptFit(cfg: Config, s: State, e: Event)
    requires Fit(s) && (e.AcceptOk? || e.AcceptFailed?) && e.i < |s.heap.conts| && s.heap.conts[e.i].Accept?
    ensures Fit(if e.AcceptOk? then OnAccepted(cfg, s, e.i) else OnAcceptFailed(cfg, s, e.i, e.aborted))
  {
    assert ContFits(s.heap, s.heap.conts[e.i]);
    if e.AcceptOk? {
      AcceptedEffect(cfg, s, e.i);
      FitFrame(s, OnAccepted(cfg, s, e.i));
    } else {
      AcceptFailedEffect(cfg, s, e.i, e.aborted);
      FitFrame(s, OnAcceptFailed(cfg, s, e.i, e.aborted));
    }
  }

  // the handler's operation goes on as what it was
  ghost predicate SameWait(c: Cont, outcome: Outcome) {
    outcome.Again? ==>
      && outcome.c.op == c.op
      && (if c.Readable? then outcome.c.Readable?
          else (c.Writable? || c.Limiter?) && (outcome.c.Writable? || outcome.c.Limiter?))
  }

  lemma DataFit(s: State, t: State, i: nat, outcome: Outcome, sends: map<OpId, SendFile.Transfer>,
                recvs: map<OpId, RecvFile.Receiver>, dataOut: string)
    requires Fit(s) && i < |s.heap.conts| && DataEnded(s, t, i, outcome, sends, recvs, dataOut)
    requires SameWait(s.heap.conts[i], outcome)
    ensures Fit(t)
  {
    assert ContFits(s.heap, s.heap.conts[i]);
    FitFrame(s, t);
  }

  lemma SendFit(cfg: Config, s: State, i: nat, ec: bool, ret: SendFile.Ret)
    requires Fit(s) && i < |s.heap.conts| && s.heap.conts[i].op in s.sends
    requires s.heap.conts[i].Writable? || s.heap.conts[i].Limiter?
    ensures Fit(OnSend(cfg, s, i, ec, ret))
  {
    SendEffect(cfg, s, i, ec, ret);
    var op, t := s.heap.conts[i].op, OnSend(cfg, s, i, ec, ret);
    var next := SendFile.Deal(s.sends[op], SendFile.Slice(cfg.downloadLimit), ec, ret, s.tmr.now).1;
    DataFit(s, t, i, SendOutcome(next, op), t.sends, s.recvs, t.hist.dataOut);
  }

  lemma ReceiveFit(cfg: Config, s: State, i: nat, ec: bool, script: seq<RecvFile.Splice>)
    requires Fit(s) && i < |s.heap.conts| && s.heap.conts[i].op in s.recvs && s.heap.conts[i].Readable?
    ensures Fit(OnReceive(cfg, s, i, ec, script))
  {
    ReceiveEffect(cfg, s, i, ec, script);
    var op, t := s.heap.conts[i].op, OnReceive(cfg, s, i, ec, script);
    var status := RecvFile.Deal(s.recvs[op], script, None).1;
    DataFit(s, t, i, ReceiveOutcome(ec, status, op), s.sends, t.recvs, s.hist.dataOut);
  }

  lemma ListedFit(cfg: Config, s: State, i: nat, bytes: string)
    requires Fit(s) && i < |s.heap.conts|
    ensures Fit(OnListed(cfg, s, i, bytes))
  {
    ListedEffect(cfg, s, i, bytes);
    DataFit(s, OnListed(cfg, s, i, bytes), i, Completes, s.sends, s.recvs, s.hist.dataOut + bytes);
  }

  lemma StepFit(cfg: Config, s: State, e: Event)
    requires Fit(s) && Enabled(cfg, s, e)
    ensures Fit(Step(cfg, s, e))
  {
    if e.Line? {
      LineFit(cfg, s);
    } else if e.Written? || e.Reenters? || e.WriteFailed? {
      WriteFit(cfg, s, e);
    } else if e.AcceptOk? || e.AcceptFailed? {
      AcceptFit(cfg, s, e);
    } else if e.Sendable? || e.Receivable? || e.Listed? {
      DataHandlersFit(cfg, s, e);
    } else {
      QuietStepped(cfg, s, e);
      FitFrame(s, Step(cfg, s, e));
    }
  }

  lemma DataHandlersFit(cfg: Config, s: State, e: Event)
    requires Fit(s) && Enabled(cfg, s, e) && (e.Sendable? || e.Receivable? || e.Listed?)
    ensures Fit(Step(cfg, s, e))
  {
    match e
    case Sendable(i, ec, ret) => SendFit(cfg, s, i, ec, ret);
    case Receivable(i, ec, script) => ReceiveFit(cfg, s, i, ec, script);
    case Listed(i, bytes) => ListedFit(cfg, s, i, bytes);
  }

  lemma {:induction false} FitThroughout(cfg: Config, now: int, es: seq<Event>)
    ensures Fit(Reach(cfg, now, es))
  {
    if es != [] {
      FitThroughout(cfg, now, es[..|es| - 1]);
      if Enabled(cfg, Reach(cfg, now, es[..|es| - 1]), es[|es| - 1]) {
        StepFit(cfg, Reach(cfg, now, es[..|es| - 1]), es[|es| - 1]);
      }
    }
  }

  /** On every run every handler waits for a live operation of its own kind: only downloads wait to
      write or for the limiter, only uploads to read, only listings for their write. So what
      completes an upload is a read, and what completes a download is a send. */
  lemma HandlersFit(cfg: Config, now: int, es: seq<Event>, c: Cont)
    requires c in Reach(cfg, now, es).heap.conts
    ensures var ops := Reach(cfg, now, es).heap.ops; c.op in ops && Suits(ops[c.op], c)
  {
    FitThroughout(cfg, now, es);
    AccountingIsExact(cfg, now, es);
    ContHeld(Reach(cfg, now, es).heap.conts, c);
  }

  /** The delivery of a 150 starts its operation's wait: to write, to read, or for its one write. */
  lemma DeliveryStarts(cfg: Config, s: State, op: OpId)
    requires s.ctl.queue != [] && s.ctl.writes != [] && s.ctl.queue[0].token == Start(op)
    requires op in s.heap.ops && IsTransfer(s.heap.ops[op])
    ensures exists c: Cont :: OnWritten(cfg, s).heap.conts == s.heap.conts + [c] && c.op == op
                              && !c.Accept? && !c.Limiter? && Suits(s.heap.ops[op], c)
  {
    WrittenEffect(cfg, s);
    assert FirstWait(s.heap.ops[op], op).op == op;
  }
}
