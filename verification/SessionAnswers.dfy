/** Which transfer commands are answered, and what a refused one does to another transfer. */
module SessionAnswers {
  import opened Text
  import opened Requests
  import opened Replies
  import opened Commands
  import opened Engine
  import opened SessionEffects
  import opened SessionInvariants
  import opened SessionRuns
  import opened SessionSends
  import opened SessionTransfers

  /** A transfer command is next, and this is what becomes of its file. */
  ghost predicate TransferNext(cfg: Config, s: State, kind: Kind, req: Request) {
    && Enabled(cfg, s, Line) && ParseLine(FirstLine(s)) == Some(req)
    && RouteOf(s.props, req) == Run(kind) && IsTransfer(kind)
  }

  function GotFile(cfg: Config, s: State, kind: Kind, req: Request): Opened
    requires IsTransfer(kind)
  {
    OpenTransfer(cfg, s.props, kind, req.body)
  }

  lemma TransferLine(cfg: Config, s: State, kind: Kind, req: Request)
    requires TransferNext(cfg, s, kind, req)
    ensures TransferOutcome(AtLine(s), Step(cfg, s, Line), kind, req, GotFile(cfg, s, kind, req))
  {
    LineEffect(cfg, s);
  }

  // ---------------------------------------------------------------- answers

  /** Nothing has been written for `op`, and its handlers, if it has any, wait in vain. */
  ghost predicate Silent(s: State, op: OpId) {
    && op < s.heap.next
    && (forall m :: m in s.hist.logged || m in s.ctl.queue ==> m.token != Start(op))
    && (forall c :: c in s.heap.conts && c.op == op ==> c.Accept? && !c.viable)
  }

  lemma SilentFrame(s: State, t: State, op: OpId)
    requires Silent(s, op) && s.heap.next <= t.heap.next
    requires forall m :: m in t.hist.logged || m in t.ctl.queue ==>
               m in s.hist.logged || m in s.ctl.queue || m.token != Start(op)
    requires forall c :: c in t.heap.conts ==> c in s.heap.conts || c.op != op
    ensures Silent(t, op)
  {
  }

  lemma LineSilent(cfg: Config, s: State, op: OpId)
    requires Silent(s, op)
    ensures Silent(OnLine(cfg, s), op)
  {
    LineEffect(cfg, s);
    var t := OnLine(cfg, s);
    if ParseLine(FirstLine(s)).Some? {
      var req := ParseLine(FirstLine(s)).value;
      match RouteOf(s.props, req)
      case Reject(reply) => SilentFrame(s, t, op);
      case Run(kind) =>
        if IsTransfer(kind) {
          TransferSilent(s, t, kind, req, OpenTransfer(cfg, s.props, kind, req.body), op);
        } else {
          SilentFrame(s, t, op);
        }
    } else {
      SilentFrame(s, t, op);
    }
  }

  lemma TransferSilent(s: State, t: State, kind: Kind, req: Request, got: Opened, op: OpId)
    requires Silent(s, op) && TransferOutcome(AtLine(s), t, kind, req, got)
    ensures Silent(t, op)
  {
    SilentFrame(s, t, op);
  }

  lemma ReenteredSilent(cfg: Config, s: State, calls: seq<Message>, op: OpId)
    requires Silent(s, op) && s.ctl.queue != [] && s.ctl.writes != []
    requires Callable(calls) && (s.ctl.queue[0].token.NoToken? ==> calls == [])
    ensures Silent(OnReentered(cfg, s, calls), op)
  {
    ReenteredEffect(cfg, s, calls);
    assert s.ctl.queue[0] in s.ctl.queue;
    SilentFrame(s, OnReentered(cfg, s, calls), op);
  }

  lemma WriteSilent(cfg: Config, s: State, e: Event, op: OpId)
    requires Silent(s, op) && Enabled(cfg, s, e) && (e.Written? || e.Reenters? || e.WriteFailed?)
    ensures Silent(Step(cfg, s, e), op)
  {
    if e.Reenters? {
      ReenteredSilent(cfg, s, e.calls, op);
    } else if s.ctl.phase.Starting? {
      SilentFrame(s, Step(cfg, s, e), op);
    } else if e.Written? {
      ReenteredSilent(cfg, s, [], op);
    } else {
      WriteFailedEffect(cfg, s);
      SilentFrame(s, Step(cfg, s, e), op);
    }
  }

  lemma AcceptedSilent(cfg: Config, s: State, i: nat, op: OpId)
    requires Silent(s, op) && Enabled(cfg, s, AcceptOk(i))
    ensures Silent(OnAccepted(cfg, s, i), op)
  {
    assert s.heap.conts[i] in s.heap.conts;
    AcceptedEffect(cfg, s, i);
    SilentFrame(s, OnAccepted(cfg, s, i), op);
  }

  lemma AcceptFailedSilent(cfg: Config, s: State, i: nat, aborted: bool, op: OpId)
    requires Silent(s, op) && i < |s.heap.conts|
    ensures Silent(OnAcceptFailed(cfg, s, i, aborted), op)
  {
    AcceptFailedEffect(cfg, s, i, aborted);
    SilentFrame(s, OnAcceptFailed(cfg, s, i, aborted), op);
  }

  lemma DataSilent(s: State, t: State, i: nat, op: OpId)
    requires Silent(s, op) && DataStep(s, t, i)
    ensures Silent(t, op)
  {
    assert s.heap.conts[i] in s.heap.conts;
    SilentFrame(s, t, op);
  }

  lemma StepSilent(cfg: Config, s: State, e: Event, op: OpId)
    requires Silent(s, op)
    ensures Silent(Step(cfg, s, e), op)
  {
    if Enabled(cfg, s, e) {
      if e.Line? {
        LineSilent(cfg, s, op);
      } else if IsQuiet(e) {
        QuietStepped(cfg, s, e);
        SilentFrame(s, Step(cfg, s, e), op);
      } else if e.Written? || e.Reenters? || e.WriteFailed? {
        WriteSilent(cfg, s, e, op);
      } else if e.AcceptOk? {
        AcceptedSilent(cfg, s, e.i, op);
      } else if e.AcceptFailed? {
        AcceptFailedSilent(cfg, s, e.i, e.aborted, op);
      } else {
        IsDataStep(cfg, s, e);
        DataSilent(s, Step(cfg, s, e), e.i, op);
      }
    }
  }

  lemma {:induction false} SilentForever(cfg: Config, s: State, later: seq<Event>, op: OpId)
    requires Silent(s, op)
    ensures Silent(Exec(cfg, s, later), op)
  {
    if later != [] {
      SilentForever(cfg, s, later[..|later| - 1], op);
      StepSilent(cfg, Exec(cfg, s, later[..|later| - 1]), later[|later| - 1], op);
    }
  }

  /** Tokens belong to operations that have been created. */
  ghost predicate TokensOld(s: State) {
    forall m :: (m in s.hist.logged || m in s.ctl.queue) && m.token.Start? ==> m.token.op < s.heap.next
  }

  lemma NextIsSilent(s: State)
    requires TokensOld(s) && HeapOk(s, multiset{})
    ensures Silent(s.(heap := s.heap.(next := s.heap.next + 1)), s.heap.next)
  {
    HeldIsOld(s);
  }

  // tokens come only from accepts, whose operations are old
  lemma TokensFrame(s: State, t: State)
    requires TokensOld(s) && s.heap.next <= t.heap.next
    requires forall m :: (m in t.hist.logged || m in t.ctl.queue) && m.token.Start? ==>
               m in s.hist.logged || m in s.ctl.queue || m.token.op < s.heap.next
    ensures TokensOld(t)
  {
  }

  lemma StepTokens(cfg: Config, s: State, e: Event)
    requires TokensOld(s) && Enabled(cfg, s, e) && HeapOk(s, multiset{})
    ensures TokensOld(Step(cfg, s, e))
  {
    if e.Line? {
      LineTokens(cfg, s);
    } else if IsQuiet(e) {
      QuietStepped(cfg, s, e);
      TokensFrame(s, Step(cfg, s, e));
    } else if e.Written? || e.Reenters? || e.WriteFailed? {
      WriteTokens(cfg, s, e);
    } else if e.AcceptOk? || e.AcceptFailed? {
      HeldIsOld(s);
      AcceptTokens(cfg, s, e);
    } else {
      IsDataStep(cfg, s, e);
      DataTokens(s, Step(cfg, s, e), e.i);
    }
  }

  lemma DataTokens(s: State, t: State, i: nat)
    requires TokensOld(s) && DataStep(s, t, i)
    ensures TokensOld(t)
  {
    TokensFrame(s, t);
  }

  lemma AcceptTokens(cfg: Config, s: State, e: Event)
    requires TokensOld(s) && Enabled(cfg, s, e) && (e.AcceptOk? || e.AcceptFailed?)
    requires forall c :: c in s.heap.conts ==> c.op < s.heap.next
    ensures TokensOld(Step(cfg, s, e))
  {
    assert s.heap.conts[e.i] in s.heap.conts;
    if e.AcceptOk? { AcceptedEffect(cfg, s, e.i); } else { AcceptFailedEffect(cfg, s, e.i, e.aborted); }
    TokensFrame(s, Step(cfg, s, e));
  }

  lemma LineTokens(cfg: Config, s: State)
    requires TokensOld(s)
    ensures TokensOld(OnLine(cfg, s))
  {
    LineReplies(cfg, s);
    LineStepped(cfg, s);
  }

  lemma WriteTokens(cfg: Config, s: State, e: Event)
    requires TokensOld(s) && Enabled(cfg, s, e) && (e.Written? || e.Reenters? || e.WriteFailed?)
    ensures TokensOld(Step(cfg, s, e))
  {
    if e.Reenters? {
      ReenteredEffect(cfg, s, e.calls);
    } else if !s.ctl.phase.Starting? {
      if e.Written? { WrittenEffect(cfg, s); } else { WriteFailedEffect(cfg, s); }
    }
  }

  lemma {:induction false} TokensThroughout(cfg: Config, now: int, es: seq<Event>)
    ensures TokensOld(Reach(cfg, now, es))
  {
    if es != [] {
      TokensThroughout(cfg, now, es[..|es| - 1]);
      AlwaysInv(cfg, now, es[..|es| - 1]);
      var s := Reach(cfg, now, es[..|es| - 1]);
      if Enabled(cfg, s, es[|es| - 1]) {
        StepTokens(cfg, s, es[|es| - 1]);
      }
    }
  }

  /** The command read from `s` to `t` has been answered in `u`: at once, as the missing PASV
      is, or with the 150 of its operation. */
  ghost predicate IsAnswered(s: State, t: State, u: State) {
    t.hist.logged != s.hist.logged || HasStart(u.hist.logged, s.heap.next)
  }

  ghost predicate CanBeAnswered(cfg: Config, s: State)
    requires Enabled(cfg, s, Line)
  {
    exists later :: IsAnswered(s, Step(cfg, s, Line), Exec(cfg, Step(cfg, s, Line), later))
  }

  // the acceptor is open but does not listen
  lemma UnboundIsSilent(cfg: Config, now: int, es: seq<Event>, kind: Kind, req: Request)
    requires var s := Reach(cfg, now, es);
             TransferNext(cfg, s, kind, req) && GotFile(cfg, s, kind, req).Ready? && s.props.acceptor.Unbound?
    ensures var s := Reach(cfg, now, es);
            Silent(Step(cfg, s, Line), s.heap.next) && Step(cfg, s, Line).hist.logged == s.hist.logged
  {
    var s := Reach(cfg, now, es);
    AlwaysInv(cfg, now, es);
    LinesMeanStarted(cfg, s);
    TokensThroughout(cfg, now, es);
    NextIsSilent(s);
    TransferLine(cfg, s, kind, req);
    WaitsInVain(s, Step(cfg, s, Line), kind, req);
  }

  lemma WaitsInVain(s: State, t: State, kind: Kind, req: Request)
    requires Silent(s.(heap := s.heap.(next := s.heap.next + 1)), s.heap.next) && s.props.acceptor.Unbound?
    requires WaitsOutcome(AtLine(s), t, kind, req) && t.heap.next == s.heap.next + 1
    ensures Silent(t, s.heap.next) && t.hist.logged == s.hist.logged
  {
  }

  lemma AcceptAnswers(cfg: Config, t: State, i: nat, op: OpId)
    requires i < |t.heap.conts| && t.heap.conts[i] == Accept(op, true)
    ensures HasStart(Step(cfg, t, AcceptOk(i)).hist.logged, op)
  {
    AcceptedEffect(cfg, t, i);
    var reply := Code(DATA_CONN);
    OneStart(t.hist.logged, Message(reply, Start(op)), op);
  }

  lemma OneStart(ms: seq<Message>, m: Message, op: OpId)
    requires m.token == Start(op) && m.reply.code == DATA_CONN
    ensures HasStart(ms + [m], op)
  {
    assert m in ms + [m];
  }

  // the acceptor listens
  lemma ListeningIsAnswered(cfg: Config, s: State, kind: Kind, req: Request)
    requires TransferNext(cfg, s, kind, req) && GotFile(cfg, s, kind, req).Ready? && s.props.acceptor.Listening?
    ensures CanBeAnswered(cfg, s)
  {
    TransferLine(cfg, s, kind, req);
    var t, i := Step(cfg, s, Line), |s.heap.conts|;
    assert t.heap.conts[i] == Accept(s.heap.next, true);
    AcceptAnswers(cfg, t, i, s.heap.next);
    var later := [AcceptOk(i)];
    ExecOne(cfg, t, AcceptOk(i));
    assert IsAnswered(s, t, Exec(cfg, t, later));
  }

  lemma ExecOne(cfg: Config, s: State, e: Event)
    ensures Exec(cfg, s, [e]) == Step(cfg, s, e)
  {
    assert [e][..0] == [];
    assert Exec(cfg, s, []) == s;
  }

  // there is no acceptor
  lemma ClosedIsAnswered(cfg: Config, s: State, kind: Kind, req: Request)
    requires TransferNext(cfg, s, kind, req) && GotFile(cfg, s, kind, req).Ready? && s.props.acceptor.Closed?
    ensures CanBeAnswered(cfg, s)
  {
    var none: seq<Event> := [];
    TransferLine(cfg, s, kind, req);
    RefusedLonger(s, Step(cfg, s, Line), kind, req, Code(INVALID_SEQ));
    assert IsAnswered(s, Step(cfg, s, Line), Exec(cfg, Step(cfg, s, Line), none));
  }

  lemma RefusedLonger(s: State, t: State, kind: Kind, req: Request, reply: Reply)
    requires RefusedOutcome(AtLine(s), t, kind, req, reply)
    ensures t.hist.logged != s.hist.logged
  {
    assert |t.hist.logged| == |s.hist.logged| + 1;
  }

  lemma SilentIsUnanswered(cfg: Config, s: State)
    requires Enabled(cfg, s, Line)
    requires Silent(Step(cfg, s, Line), s.heap.next) && Step(cfg, s, Line).hist.logged == s.hist.logged
    ensures !CanBeAnswered(cfg, s)
  {
    var t := Step(cfg, s, Line);
    forall later ensures !IsAnswered(s, t, Exec(cfg, t, later)) {
      SilentForever(cfg, t, later, s.heap.next);
    }
  }

  /** A transfer command that has its file can be answered, with a 150 or with a 503, if and
      only if the acceptor is not open without listening, as a PASV leaves it whose bind failed. */
  lemma AnswerableIff(cfg: Config, now: int, es: seq<Event>, kind: Kind, req: Request)
    requires var s := Reach(cfg, now, es);
             TransferNext(cfg, s, kind, req) && GotFile(cfg, s, kind, req).Ready?
    ensures CanBeAnswered(cfg, Reach(cfg, now, es)) <==> !Reach(cfg, now, es).props.acceptor.Unbound?
  {
    var s := Reach(cfg, now, es);
    if s.props.acceptor.Unbound? {
      UnboundIsSilent(cfg, now, es, kind, req);
      SilentIsUnanswered(cfg, s);
    } else if s.props.acceptor.Listening? {
      ListeningIsAnswered(cfg, s, kind, req);
    } else {
      ClosedIsAnswered(cfg, s, kind, req);
    }
  }

  /** Where an acceptor that does not listen comes from. */
  lemma FailedBindUnbinds(cfg: Config, p: Props)
    ensures PassiveAnswer(cfg, p).0.acceptor.Unbound? <==> p.pasv != [] && p.pasv[0].BindFailed?
    ensures PassiveAnswer(cfg, p).0.acceptor.Unbound? ==> PassiveAnswer(cfg, p).1.code == NOPERM_FILEFATAL
  {
  }

  // ---------------------------------------------------------------- refusals

  /** The command gets a refusal at once: no file, or no PASV before it. */
  ghost predicate IsRefused(cfg: Config, s: State, kind: Kind, req: Request) {
    TransferNext(cfg, s, kind, req) && (GotFile(cfg, s, kind, req).Refused? || s.props.acceptor.Closed?)
  }

  /** A refused transfer command leaves the data connection alone if and only if there is no
      open one: the destructor of its operation closes whatever data socket the session has. */
  lemma RefusalSparesDataIff(cfg: Config, now: int, es: seq<Event>, kind: Kind, req: Request)
    requires IsRefused(cfg, Reach(cfg, now, es), kind, req)
    ensures var s := Reach(cfg, now, es);
            && (Step(cfg, s, Line).data == s.data <==> s.data != Socket(true))
            && Step(cfg, s, Line).data != Socket(true)
  {
    var s := Reach(cfg, now, es);
    AlwaysInv(cfg, now, es);
    LinesMeanStarted(cfg, s);
    TransferLine(cfg, s, kind, req);
    NextIsUnheld(s);
    RefusedCuts(cfg, s, Step(cfg, s, Line), kind, req, GotFile(cfg, s, kind, req));
  }

  lemma NextIsUnheld(s: State)
    requires HeapOk(s, multiset{})
    ensures s.heap.next !in s.heap.refs
  {
  }

  lemma RefusedCuts(cfg: Config, s: State, t: State, kind: Kind, req: Request, got: Opened)
    requires TransferOutcome(AtLine(s), t, kind, req, got) && (got.Refused? || s.props.acceptor.Closed?)
    requires s.heap.next !in s.heap.refs
    ensures t.data == Cut(s.data)
  {
  }

  /** No data connection, and the transfers have got no further than in `s`. */
  ghost predicate Frozen(s: State, t: State) {
    && t.data != Socket(true) && t.hist.dataOut == s.hist.dataOut
    && (forall id :: id in s.sends ==> id in t.sends && t.sends[id] == s.sends[id] && id < t.heap.next)
  }

  lemma FrozenLine(cfg: Config, s: State, t: State)
    requires Frozen(s, t)
    ensures Frozen(s, OnLine(cfg, t))
  {
    LineStepped(cfg, t);
    LineEffect(cfg, t);
  }

  lemma FrozenSend(cfg: Config, s: State, t: State, e: Event)
    requires Frozen(s, t) && Enabled(cfg, t, e) && e.Sendable?
    ensures Frozen(s, Step(cfg, t, e))
  {
    DataStepped(cfg, t, e);
    UnsentBytes(t, cfg.downloadLimit, e.i, e.ec, e.ret);
    SendEffect(cfg, t, e.i, e.ec, e.ret);
  }

  lemma FrozenStep(cfg: Config, s: State, t: State, e: Event)
    requires Frozen(s, t) && !e.AcceptOk?
    ensures Frozen(s, Step(cfg, t, e))
  {
    if Enabled(cfg, t, e) {
      if e.Line? {
        FrozenLine(cfg, s, t);
      } else if e.Sendable? {
        FrozenSend(cfg, s, t, e);
      } else {
        StepEffect(cfg, t, e);
      }
    }
  }

  lemma {:induction false} FrozenLater(cfg: Config, s: State, t: State, later: seq<Event>)
    requires Frozen(s, t) && forall e :: e in later ==> !e.AcceptOk?
    ensures Frozen(s, Exec(cfg, t, later))
  {
    if later != [] {
      var init := later[..|later| - 1];
      assert later[|later| - 1] in later && forall e :: e in init ==> e in later;
      FrozenLater(cfg, s, t, init);
      FrozenStep(cfg, s, Exec(cfg, t, init), later[|later| - 1]);
    }
  }

  /** Where the code falls short. A transfer command that is refused during a download cuts
      that download off: as long as no new data connection is accepted, nothing more is sent,
      by whatever operation, so that a download that has not sent its last byte gets no 226. */
  lemma RefusalCutsDownload(cfg: Config, now: int, es: seq<Event>, kind: Kind, req: Request, later: seq<Event>,
                            op: OpId)
    requires FilesFit(cfg.files) && IsRefused(cfg, Reach(cfg, now, es), kind, req) && op in Reach(cfg, now, es).sends
    requires forall e :: e in later ==> !e.AcceptOk?
    ensures var s := Reach(cfg, now, es);
            var u := Exec(cfg, Step(cfg, s, Line), later);
            && op in u.sends && u.sends[op] == s.sends[op] && u.hist.dataOut == s.hist.dataOut
            && u.data != Socket(true)
  {
    var s := Reach(cfg, now, es);
    RefusalSparesDataIff(cfg, now, es, kind, req);
    SendsThroughout(cfg, now, es);
    TransferLine(cfg, s, kind, req);
    FrozenLater(cfg, s, Step(cfg, s, Line), later);
  }
}
