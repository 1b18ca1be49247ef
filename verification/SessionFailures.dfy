/** What failed writes and read errors do to the life of a session. */
module SessionFailures {
  import opened Requests
  import opened Replies
  import opened Commands
  import opened Engine
  import opened SessionEffects
  import opened SessionInvariants
  import opened SessionRuns

  // ---------------------------------------------------------------- stalling

  /** The i-th event of the run took place. */
  predicate Happened(cfg: Config, now: int, es: seq<Event>, i: nat)
    requires i < |es|
  {
    Enabled(cfg, Reach(cfg, now, es[..i]), es[i])
  }

  /** A kind of step, by the state it starts from and its event. */
  type Mark = (State, Event) -> bool

  /** The i-th event took place as one of `good`, and none of `sets` has taken place since. */
  ghost predicate SetAt(cfg: Config, now: int, es: seq<Event>, sets: Mark, good: Mark, i: nat) {
    && i < |es| && Happened(cfg, now, es, i) && good(Reach(cfg, now, es[..i]), es[i])
    && forall j :: i < j < |es| && Happened(cfg, now, es, j) ==> !sets(Reach(cfg, now, es[..j]), es[j])
  }

  /** The last step of the run that is one of `sets` is one of `good`. */
  ghost predicate LastSet(cfg: Config, now: int, es: seq<Event>, sets: Mark, good: Mark) {
    exists i :: SetAt(cfg, now, es, sets, good, i)
  }

  lemma HappenedEarlier(cfg: Config, now: int, es: seq<Event>, e: Event, i: nat)
    requires i < |es|
    ensures (es + [e])[..i] == es[..i] && (es + [e])[i] == es[i]
    ensures Happened(cfg, now, es + [e], i) == Happened(cfg, now, es, i)
  {
    assert (es + [e])[..i] == es[..i];
  }

  lemma HappensNow(cfg: Config, now: int, es: seq<Event>, e: Event)
    ensures (es + [e])[..|es|] == es && (es + [e])[|es|] == e
    ensures Happened(cfg, now, es + [e], |es|) == Enabled(cfg, Reach(cfg, now, es), e)
  {
    assert (es + [e])[..|es|] == es;
  }

  // an earlier step stays the last one unless the new one replaces it
  lemma SetEarlier(cfg: Config, now: int, es: seq<Event>, e: Event, sets: Mark, good: Mark, i: nat)
    requires i < |es|
    ensures SetAt(cfg, now, es + [e], sets, good, i) <==>
              && SetAt(cfg, now, es, sets, good, i)
              && !(Enabled(cfg, Reach(cfg, now, es), e) && sets(Reach(cfg, now, es), e))
  {
    HappenedEarlier(cfg, now, es, e, i);
    HappensNow(cfg, now, es, e);
    forall j | i < j < |es|
      ensures Happened(cfg, now, es + [e], j) == Happened(cfg, now, es, j)
      ensures (es + [e])[j] == es[j] && (es + [e])[..j] == es[..j]
    {
      HappenedEarlier(cfg, now, es, e, j);
    }
  }

  lemma LastSetSnoc(cfg: Config, now: int, es: seq<Event>, e: Event, sets: Mark, good: Mark)
    requires good(Reach(cfg, now, es), e) ==> sets(Reach(cfg, now, es), e)
    ensures LastSet(cfg, now, es + [e], sets, good) <==>
              if Enabled(cfg, Reach(cfg, now, es), e) && sets(Reach(cfg, now, es), e)
              then good(Reach(cfg, now, es), e) else LastSet(cfg, now, es, sets, good)
  {
    HappensNow(cfg, now, es, e);
    forall i: nat | i < |es|
      ensures SetAt(cfg, now, es + [e], sets, good, i) <==>
                && SetAt(cfg, now, es, sets, good, i)
                && !(Enabled(cfg, Reach(cfg, now, es), e) && sets(Reach(cfg, now, es), e))
    {
      SetEarlier(cfg, now, es, e, sets, good, i);
    }
    assert SetAt(cfg, now, es + [e], sets, good, |es|) <==>
             Enabled(cfg, Reach(cfg, now, es), e) && good(Reach(cfg, now, es), e);
  }

  // what ends or begins a stall
  predicate SettlesStall(s: State, e: Event) { e.Line? || e.WriteFailed? }

  // a failed write with no operation alive
  predicate Stalls(s: State, e: Event) { e.WriteFailed? && s.ctl.phase.Started? && s.heap.ops == map[] }

  lemma StalledStep(cfg: Config, s: State, e: Event)
    requires Inv(cfg, s) && Enabled(cfg, s, e)
    ensures Step(cfg, s, e).hist.stalled ==
              if e.Line? then false
              else if e.WriteFailed? then s.ctl.phase.Started? && s.heap.ops == map[]
              else s.hist.stalled
  {
    NoOpsIsInactive(s);
    if e.Line? {
      LineUnstalls(cfg, s);
    } else if e.WriteFailed? {
      if s.ctl.phase.Started? { WriteFailedEffect(cfg, s); }
    } else {
      StepEffect(cfg, s, e);
    }
  }

  lemma LineUnstalls(cfg: Config, s: State)
    ensures !OnLine(cfg, s).hist.stalled
  {
    LineEffect(cfg, s);
  }

  /** When a session is stalled, in terms of its run: if and only if the last line or failed
      write was a failed write with no operation alive. */
  lemma {:induction false} StalledIff(cfg: Config, now: int, es: seq<Event>)
    ensures Reach(cfg, now, es).hist.stalled <==> LastSet(cfg, now, es, SettlesStall, Stalls)
  {
    if es != [] {
      var init, e := es[..|es| - 1], es[|es| - 1];
      assert es == init + [e];
      StalledIff(cfg, now, init);
      AlwaysInv(cfg, now, init);
      ReachSnoc(cfg, now, init, e);
      LastSetSnoc(cfg, now, init, e, SettlesStall, Stalls);
      if Enabled(cfg, Reach(cfg, now, init), e) {
        StalledStep(cfg, Reach(cfg, now, init), e);
      }
    }
  }

  /** What stalls a session. After a failed write that leaves nothing pending, the idle
      timer is running again if and only if an operation was alive before it: the queue is
      dropped without a restart, and only a dying operation restarts the timer. */
  lemma WriteErrorRestartsIff(cfg: Config, now: int, es: seq<Event>)
    requires var s := Reach(cfg, now, es);
             && s.ctl.phase.Started? && !s.ctl.stopped && Enabled(cfg, s, WriteFailed)
             && !Pending(Step(cfg, s, WriteFailed))
    ensures var s := Reach(cfg, now, es);
            Step(cfg, s, WriteFailed).tmr.expiry.At? <==> s.heap.ops != map[]
  {
    AlwaysInv(cfg, now, es);
    var s := Reach(cfg, now, es);
    StepKeepsInv(cfg, s, WriteFailed);
    StalledStep(cfg, s, WriteFailed);
    StepEffect(cfg, s, WriteFailed);
  }

  /** ... and likewise, after the end of file, the keep-alive wait is released by it. */
  lemma WriteErrorReleasesIff(cfg: Config, now: int, es: seq<Event>)
    requires var s := Reach(cfg, now, es);
             && s.ctl.phase.Started? && s.ctl.stopped && s.tmr.keep > 0 && Enabled(cfg, s, WriteFailed)
             && !Pending(Step(cfg, s, WriteFailed))
    ensures var s := Reach(cfg, now, es);
            Step(cfg, s, WriteFailed).tmr.released > 0 <==> s.heap.ops != map[]
  {
    AlwaysInv(cfg, now, es);
    var s := Reach(cfg, now, es);
    StepKeepsInv(cfg, s, WriteFailed);
    StalledStep(cfg, s, WriteFailed);
    StepEffect(cfg, s, WriteFailed);
  }

  lemma StalledStays(cfg: Config, s: State, e: Event)
    requires Done(cfg, s, multiset{}) && s.hist.stalled && !s.ctl.stopped && !e.Line? && !e.Eof?
    ensures Step(cfg, s, e).hist.stalled && !Step(cfg, s, e).ctl.stopped && Step(cfg, s, e).ctl.phase.Started?
  {
    if Enabled(cfg, s, e) {
      StepEffect(cfg, s, e);
      StalledStep(cfg, s, e);
    }
  }

  /** A stalled session stays open, without an idle deadline, until its peer sends a line or closes. */
  lemma {:induction false} StalledUntilPeerActs(cfg: Config, now: int, es: seq<Event>, later: seq<Event>)
    requires var s := Reach(cfg, now, es); s.ctl.phase.Started? && !s.ctl.stopped && s.hist.stalled
    requires forall e :: e in later ==> !e.Line? && !e.Eof?
    ensures var t := Reach(cfg, now, es + later);
            t.ctl.phase.Started? && !t.ctl.stopped && t.hist.stalled && t.tmr.expiry.Never?
  {
    if later == [] {
      assert es + later == es;
    } else {
      var init, e := later[..|later| - 1], later[|later| - 1];
      assert e in later && forall x :: x in init ==> x in later;
      StalledUntilPeerActs(cfg, now, es, init);
      assert es + later == es + init + [e];
      StalledMore(cfg, now, es + init, e);
    }
    AlwaysInv(cfg, now, es + later);
  }

  lemma StalledMore(cfg: Config, now: int, es: seq<Event>, e: Event)
    requires var s := Reach(cfg, now, es); s.ctl.phase.Started? && !s.ctl.stopped && s.hist.stalled
    requires !e.Line? && !e.Eof?
    ensures var t := Reach(cfg, now, es + [e]); t.ctl.phase.Started? && !t.ctl.stopped && t.hist.stalled
  {
    AlwaysInv(cfg, now, es);
    ReachSnoc(cfg, now, es, e);
    StalledStays(cfg, Reach(cfg, now, es), e);
  }

  // ---------------------------------------------------------------- replies after the end of file

  /** Replies are never empty. */
  ghost predicate Filled(ms: seq<Message>) { forall m :: m in ms ==> m.reply.text != "" }

  lemma CodeFilled(code: nat, info: string)
    ensures Code(code).text != "" && CodeInfo(code, info).text != ""
  {
  }

  lemma AnswerFilled(cfg: Config, p: Props, kind: Kind, req: Request)
    requires !IsTransfer(kind)
    ensures Answer(cfg, p, kind, req).1.text != ""
  {
  }

  lemma RejectFilled(p: Props, req: Request)
    requires RouteOf(p, req).Reject?
    ensures RouteOf(p, req).reply.text != ""
  {
    CodeFilled(SYNTAX_ERROR, "");
  }

  lemma RefusalFilled(cfg: Config, p: Props, kind: Kind, body: string)
    requires IsTransfer(kind) && OpenTransfer(cfg, p, kind, body).Refused?
    ensures OpenTransfer(cfg, p, kind, body).reply.text != ""
  {
  }

  ghost predicate AllFilled(s: State) { Filled(s.hist.logged) && Filled(s.ctl.queue) }

  // one more reply
  lemma OneFilled(s: State, t: State, m: Message)
    requires AllFilled(s) && m.reply.text != ""
    requires t.hist.logged == s.hist.logged + [m] && t.ctl.queue == s.ctl.queue + [m]
    ensures AllFilled(t)
  {
  }

  lemma TransferFilled(cfg: Config, s: State, t: State, kind: Kind, req: Request)
    requires AllFilled(s) && IsTransfer(kind)
    requires TransferOutcome(s, t, kind, req, OpenTransfer(cfg, s.props, kind, req.body))
    ensures AllFilled(t)
  {
    var got := OpenTransfer(cfg, s.props, kind, req.body);
    if !(got.Ready? && !s.props.acceptor.Closed?) {
      var reply := if got.Ready? then Code(INVALID_SEQ) else got.reply;
      CodeFilled(INVALID_SEQ, req.body);
      if got.Refused? { RefusalFilled(cfg, s.props, kind, req.body); }
      OneFilled(s, t, Message(reply, NoToken));
    }
  }

  lemma LineFilled(cfg: Config, s: State)
    requires AllFilled(s)
    ensures AllFilled(OnLine(cfg, s))
  {
    LineEffect(cfg, s);
    var t := OnLine(cfg, s);
    var parsed := ParseLine(FirstLine(s));
    if parsed.Some? {
      var req := parsed.value;
      match RouteOf(s.props, req)
      case Reject(reply) =>
        RejectFilled(s.props, req);
        OneFilled(AtLine(s), t, Message(reply, NoToken));
      case Run(kind) =>
        if IsTransfer(kind) {
          TransferFilled(cfg, AtLine(s), t, kind, req);
        } else {
          AnswerFilled(cfg, s.props, kind, req);
          OneFilled(AtLine(s), t, Message(Answer(cfg, s.props, kind, req).1, NoToken));
        }
    }
  }

  lemma DataFilled(s: State, t: State, i: nat)
    requires AllFilled(s) && DataStep(s, t, i)
    ensures AllFilled(t)
  {
    CodeFilled(TRANSFER_COMPLETE, "");
  }

  lemma AcceptFilled(cfg: Config, s: State, e: Event)
    requires AllFilled(s) && Enabled(cfg, s, e) && (e.AcceptOk? || e.AcceptFailed?)
    ensures AllFilled(Step(cfg, s, e))
  {
    if e.AcceptOk? {
      AcceptedEffect(cfg, s, e.i);
      CodeFilled(DATA_CONN, "");
    } else {
      AcceptFailedEffect(cfg, s, e.i, e.aborted);
    }
  }

  lemma WriteFilled(cfg: Config, s: State, e: Event)
    requires AllFilled(s) && Enabled(cfg, s, e) && (e.Written? || e.Reenters? || e.WriteFailed?)
    ensures AllFilled(Step(cfg, s, e))
  {
    if e.Reenters? {
      ReenteredEffect(cfg, s, e.calls);
    } else if !s.ctl.phase.Starting? {
      if e.Written? { WrittenEffect(cfg, s); } else { WriteFailedEffect(cfg, s); }
    }
  }

  lemma {:induction false} FilledThroughout(cfg: Config, now: int, es: seq<Event>)
    ensures AllFilled(Reach(cfg, now, es))
  {
    if es != [] {
      var s, e := Reach(cfg, now, es[..|es| - 1]), es[|es| - 1];
      FilledThroughout(cfg, now, es[..|es| - 1]);
      if Enabled(cfg, s, e) {
        if e.Line? {
          LineFilled(cfg, s);
        } else if IsQuiet(e) {
          QuietStepped(cfg, s, e);
        } else if e.Written? || e.Reenters? || e.WriteFailed? {
          WriteFilled(cfg, s, e);
        } else if e.AcceptOk? || e.AcceptFailed? {
          AcceptFilled(cfg, s, e);
        } else {
          IsDataStep(cfg, s, e);
          DataFilled(s, Step(cfg, s, e), e.i);
        }
      }
    }
  }

  /** A closed session that only waits for its keep-alive, with nothing left that could be written. */
  ghost predicate Doomed(s: State) {
    && s.ctl.phase.Started? && s.ctl.stopped && !s.ctl.reading && s.heap.conts == [] && s.heap.ops == map[]
    && s.tmr.keep == 1 && s.tmr.released == 0 && s.tmr.expiry.Never?
    && SingleWriter(s) && Filled(s.ctl.queue) && (forall m :: m in s.ctl.queue ==> !m.token.Start?)
    && !CanDrain(s)
  }

  /** The last queued reply has already left, and only its completion is missing. */
  predicate CanDrain(s: State) {
    |s.ctl.queue| == 1 && s.ctl.pushed == |s.ctl.queue[0].reply.text| && !s.hist.writeFailed
  }

  lemma {:induction false} NoTokens(cfg: Config, s: State, ms: seq<Message>)
    requires forall m :: m in ms ==> !m.token.Start?
    ensures ReleaseAll(cfg, s, ms) == s
    decreases |ms|
  {
    if ms != [] {
      assert ms[0] in ms;
      NoTokens(cfg, s, ms[1..]);
    }
  }

  // a reply is out, and others follow
  lemma NextReply(cfg: Config, s: State, calls: seq<Message>)
    requires |s.ctl.queue| >= 2 && SingleWriter(s) && !s.ctl.queue[0].token.Start? && Callable(calls)
    requires s.ctl.queue[0].token.NoToken? ==> calls == []
    ensures var t := OnReentered(cfg, s, calls);
            var rest := s.ctl.queue[1..] + calls;
            && t.ctl == s.ctl.(queue := rest, writes := [rest[0].reply.text], pushed := 0)
            && t.heap == s.heap && t.tmr == s.tmr && t.hist.writeFailed == s.hist.writeFailed
  {
    var m := s.ctl.queue[0];
    var t := s.(ctl := s.ctl.(writes := s.ctl.writes[1..]), hist := s.hist.(delivered := s.hist.delivered + [m]));
    assert (s.ctl.queue + calls)[1..] == s.ctl.queue[1..] + calls;
    if m.token.NoToken? {
      assert s.ctl.queue + calls == s.ctl.queue;
    } else {
      RunTokenIs(cfg, t, m.token, calls);
    }
  }

  lemma DoomedWritten(cfg: Config, s: State, calls: seq<Message>)
    requires Doomed(s) && s.ctl.writes != [] && !s.hist.writeFailed && s.ctl.pushed == |s.ctl.writes[0]|
    requires Callable(calls) && s.ctl.queue != [] && (s.ctl.queue[0].token.NoToken? ==> calls == [])
    ensures Doomed(OnReentered(cfg, s, calls))
  {
    assert s.ctl.queue[0] in s.ctl.queue;
    NextReply(cfg, s, calls);
    var rest := s.ctl.queue[1..] + calls;
    assert rest[0] in rest;
    forall m | m in rest ensures m.reply.text != "" && !m.token.Start? {
      assert m in s.ctl.queue || m in calls;
    }
  }

  lemma DoomedFailed(cfg: Config, s: State)
    requires Doomed(s) && s.ctl.writes != []
    ensures Doomed(OnWriteFailed(cfg, s))
  {
    NoTokens(cfg, s.(ctl := s.ctl.(writes := s.ctl.writes[1..], queue := []),
                     hist := s.hist.(writeFailed := true, stalled := s.heap.active == 0)), s.ctl.queue);
  }

  lemma DoomedStep(cfg: Config, s: State, e: Event)
    requires Doomed(s)
    ensures Doomed(Step(cfg, s, e))
  {
    if Enabled(cfg, s, e) {
      if e.Written? {
        DoomedWritten(cfg, s, []);
      } else if e.Reenters? {
        DoomedWritten(cfg, s, e.calls);
      } else if e.WriteFailed? {
        DoomedFailed(cfg, s);
      } else {
        assert e.Tick? || e.Push? || e.IdleExpires? || e.IdleHandler?;
      }
    }
  }

  lemma {:induction false} DoomedForever(cfg: Config, s: State, es: seq<Event>)
    requires Doomed(s)
    ensures Doomed(Exec(cfg, s, es))
  {
    if es != [] {
      DoomedForever(cfg, s, es[..|es| - 1]);
      DoomedStep(cfg, Exec(cfg, s, es[..|es| - 1]), es[|es| - 1]);
    }
  }

  lemma {:induction false} NoRefsNoStarts(ms: seq<Message>)
    requires QueueRefs(ms) == multiset{}
    ensures forall m :: m in ms ==> !m.token.Start?
  {
    if ms != [] {
      HeadsAreHeld(ms, []);
      NoRefsNoStarts(ms[1..]);
    }
  }

  // a kept-alive session without operations
  lemma LateSession(cfg: Config, now: int, es: seq<Event>)
    requires var s := Reach(cfg, now, es);
             s.ctl.phase.Started? && s.ctl.stopped && s.tmr.keep > 0 && s.heap.ops == map[]
    ensures CanDrain(Reach(cfg, now, es)) || Doomed(Reach(cfg, now, es))
  {
    var s := Reach(cfg, now, es);
    AlwaysInv(cfg, now, es);
    FilledThroughout(cfg, now, es);
    NoOpsNoConts(s);
    assert s.heap.refs == multiset{};
    NoRefsNoStarts(s.ctl.queue);
  }

  // the reply of the last operation comes too late
  lemma LateReply(cfg: Config, s: State, e: Event)
    requires Enabled(cfg, s, e) && (e.Sendable? || e.Receivable? || e.Listed?) && SingleWriter(s)
    requires |Step(cfg, s, e).hist.logged| > |s.hist.logged|
    ensures !CanDrain(Step(cfg, s, e))
  {
    IsDataStep(cfg, s, e);
    CodeFilled(TRANSFER_COMPLETE, "");
  }

  /** Where the code falls short. When the peer has closed the control connection during a
      transfer and the last operation then completes, its 226 can no longer be written, the
      keep-alive wait is never released, and the session is never destroyed. */
  lemma LateCompletionLeaksSession(cfg: Config, now: int, es: seq<Event>, e: Event, later: seq<Event>)
    requires var s := Reach(cfg, now, es);
             && s.ctl.phase.Started? && s.ctl.stopped && s.tmr.keep > 0
             && Enabled(cfg, s, e) && (e.Sendable? || e.Receivable? || e.Listed?)
             && |Step(cfg, s, e).hist.logged| > |s.hist.logged| && Step(cfg, s, e).heap.ops == map[]
    ensures var t := Exec(cfg, Step(cfg, Reach(cfg, now, es), e), later);
            t.ctl.stopped && t.tmr.keep == 1 && t.tmr.released == 0
  {
    var s := Reach(cfg, now, es);
    var t := Step(cfg, s, e);
    AlwaysInv(cfg, now, es);
    StepKeepsInv(cfg, s, e);
    StepEffect(cfg, s, e);
    LateReply(cfg, s, e);
    LateQueue(cfg, s, e);
    LateKeep(cfg, s, e, t);
    ReachSnoc(cfg, now, es, e);
    LateSession(cfg, now, es + [e]);
    DoomedForever(cfg, t, later);
  }

  lemma LateQueue(cfg: Config, s: State, e: Event)
    requires Enabled(cfg, s, e) && (e.Sendable? || e.Receivable? || e.Listed?)
    requires |Step(cfg, s, e).hist.logged| > |s.hist.logged|
    ensures Step(cfg, s, e).ctl.queue != []
  {
    IsDataStep(cfg, s, e);
  }

  lemma LateKeep(cfg: Config, s: State, e: Event, t: State)
    requires s.ctl.phase.Started? && s.ctl.stopped && s.tmr.keep > 0
    requires TimerOk(cfg, t) && FlagsStepped(s, e, t) && !e.Eof? && t.ctl.queue != []
    ensures t.tmr.keep > 0 && t.ctl.stopped && t.ctl.phase.Started?
  {
  }

  /** Closing a session closes its control connection: nothing leaves on it afterwards. */
  lemma {:induction false} ClosedIsSilent(cfg: Config, s: State, later: seq<Event>)
    requires s.ctl.stopped
    ensures Exec(cfg, s, later).ctl.stopped && Exec(cfg, s, later).hist.wire == s.hist.wire
  {
    if later != [] {
      var t, e := Exec(cfg, s, later[..|later| - 1]), later[|later| - 1];
      ClosedIsSilent(cfg, s, later[..|later| - 1]);
      if Enabled(cfg, t, e) {
        StepEffect(cfg, t, e);
      }
    }
  }

  // ---------------------------------------------------------------- the acceptor

  // the line is a PASV that is executed
  predicate IsPasv(s: State, e: Event) {
    && e.Line? && ParseLine(FirstLine(s)).Some?
    && RouteOf(s.props, ParseLine(FirstLine(s)).value) == Run(PassiveMode)
  }

  // what sets the acceptor
  predicate SetsAcceptor(s: State, e: Event) { e.AcceptOk? || (e.AcceptFailed? && !e.aborted) || IsPasv(s, e) }

  // a PASV whose bind fails
  predicate FailsToBind(s: State, e: Event) { IsPasv(s, e) && s.props.pasv != [] && s.props.pasv[0].BindFailed? }

  lemma AnswerAcceptor(cfg: Config, p: Props, kind: Kind, req: Request)
    requires !IsTransfer(kind)
    ensures var q := Answer(cfg, p, kind, req).0;
            if kind.PassiveMode? then q.acceptor.Unbound? <==> p.pasv != [] && p.pasv[0].BindFailed?
            else q.acceptor == p.acceptor
  {
  }

  lemma LineAcceptor(cfg: Config, s: State)
    ensures OnLine(cfg, s).props.acceptor.Unbound? ==
              if IsPasv(s, Line) then FailsToBind(s, Line) else s.props.acceptor.Unbound?
  {
    LineEffect(cfg, s);
    var parsed := ParseLine(FirstLine(s));
    if parsed.Some? && RouteOf(s.props, parsed.value).Run? && !IsTransfer(RouteOf(s.props, parsed.value).kind) {
      AnswerAcceptor(cfg, s.props, RouteOf(s.props, parsed.value).kind, parsed.value);
    }
  }

  lemma StepAcceptor(cfg: Config, s: State, e: Event)
    requires Enabled(cfg, s, e)
    ensures Step(cfg, s, e).props.acceptor.Unbound? ==
              if SetsAcceptor(s, e) then FailsToBind(s, e) else s.props.acceptor.Unbound?
  {
    if e.Line? {
      LineAcceptor(cfg, s);
    } else if e.AcceptOk? {
      AcceptedEffect(cfg, s, e.i);
    } else if e.AcceptFailed? {
      AcceptFailedEffect(cfg, s, e.i, e.aborted);
    } else {
      StepEffect(cfg, s, e);
    }
  }

  /** When the acceptor is open without listening: if and only if the last step of the run that
      set it was a PASV whose bind failed. */
  lemma {:induction false} UnboundIff(cfg: Config, now: int, es: seq<Event>)
    ensures Reach(cfg, now, es).props.acceptor.Unbound? <==> LastSet(cfg, now, es, SetsAcceptor, FailsToBind)
  {
    if es != [] {
      var init, e := es[..|es| - 1], es[|es| - 1];
      assert es == init + [e];
      UnboundIff(cfg, now, init);
      ReachSnoc(cfg, now, init, e);
      LastSetSnoc(cfg, now, init, e, SetsAcceptor, FailsToBind);
      if Enabled(cfg, Reach(cfg, now, init), e) {
        StepAcceptor(cfg, Reach(cfg, now, init), e);
      }
    }
  }

  // ---------------------------------------------------------------- sessions and their operations

  /** Something outside still refers to the session: the write of the welcome reply, the
      read, or the keep-alive wait. */
  predicate Held(s: State) { s.ctl.phase.Starting? || s.ctl.reading || Kept(s.tmr) > 0 }

  /** Operations keep no reference to the session they use; it must outlive them. */
  ghost predicate Outlives(s: State) { s.heap.ops != map[] ==> Held(s) }

  lemma OutlivesStep(cfg: Config, s: State, e: Event)
    requires Inv(cfg, s) && Outlives(s) && !e.ReadError?
    ensures Outlives(Step(cfg, s, e))
  {
    if Enabled(cfg, s, e) {
      var t := Step(cfg, s, e);
      StepEffect(cfg, s, e);
      if e.Eof? {
        if t.heap.ops != map[] { LinesMeanStarted(cfg, s); NoOpsIsInactive(s); }
      } else if t.heap.ops != map[] && !e.Line? {
        assert s.heap.ops.Keys != {};
      } else if e.Line? {
        assert t.ctl.reading;
      }
    }
  }

  /** The i-th event of the run is a read error that takes the session away under an operation. */
  ghost predicate OrphansAt(cfg: Config, now: int, es: seq<Event>, i: nat) {
    i < |es| && es[i].ReadError? && Happened(cfg, now, es, i) && Reach(cfg, now, es[..i]).heap.ops != map[]
  }

  lemma OutlivesNext(cfg: Config, now: int, es: seq<Event>, k: nat)
    requires k < |es| && Outlives(Reach(cfg, now, es[..k])) && !OrphansAt(cfg, now, es, k)
    ensures Outlives(Reach(cfg, now, es[..k + 1]))
  {
    var s, e := Reach(cfg, now, es[..k]), es[k];
    assert es[..k + 1] == es[..k] + [e];
    ReachSnoc(cfg, now, es[..k], e);
    AlwaysInv(cfg, now, es[..k]);
    if !e.ReadError? {
      OutlivesStep(cfg, s, e);
    }
  }

  lemma OrphansNow(cfg: Config, now: int, es: seq<Event>, i: nat)
    requires OrphansAt(cfg, now, es, i)
    ensures !Outlives(Reach(cfg, now, es[..i + 1]))
  {
    assert es[..i + 1] == es[..i] + [es[i]];
    ReachSnoc(cfg, now, es[..i], es[i]);
    ReadErrorOrphansOperations(cfg, now, es[..i]);
  }

  lemma {:induction false} OutlivesUpTo(cfg: Config, now: int, es: seq<Event>, k: nat)
    requires k <= |es| && forall i :: !OrphansAt(cfg, now, es, i)
    ensures Outlives(Reach(cfg, now, es[..k]))
  {
    if k > 0 {
      OutlivesUpTo(cfg, now, es, k - 1);
      OutlivesNext(cfg, now, es, k - 1);
    }
  }

  /** Exactly when a session outlives its operations. It does so throughout a run if and only
      if no read error of the run comes while an operation is alive. (An idle close ends the
      pending read with an error, too, which is harmless when no operation is alive.) */
  lemma SessionOutlivesIff(cfg: Config, now: int, es: seq<Event>)
    ensures (forall k :: 0 <= k <= |es| ==> Outlives(Reach(cfg, now, es[..k])))
            <==> forall i :: !OrphansAt(cfg, now, es, i)
  {
    if forall i :: !OrphansAt(cfg, now, es, i) {
      forall k | 0 <= k <= |es| ensures Outlives(Reach(cfg, now, es[..k])) {
        OutlivesUpTo(cfg, now, es, k);
      }
    } else {
      var i :| OrphansAt(cfg, now, es, i);
      OrphansNow(cfg, now, es, i);
    }
  }

  /** Where the code falls short. A read error other than end of file arms no keep-alive: if
      an operation is alive then, the session goes away under it. */
  lemma ReadErrorOrphansOperations(cfg: Config, now: int, es: seq<Event>)
    requires Enabled(cfg, Reach(cfg, now, es), ReadError)
    ensures var t := Step(cfg, Reach(cfg, now, es), ReadError);
            !Held(t) && t.heap == Reach(cfg, now, es).heap
  {
    AlwaysInv(cfg, now, es);
    LinesMeanStarted(cfg, Reach(cfg, now, es));
  }
}
