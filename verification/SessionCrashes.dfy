/** Runs in which no handler is left without its data connection. */
module SessionCrashes {
  import opened Requests
  import opened Replies
  import opened Commands
  import opened Engine
  import opened SessionEffects
  import opened SessionInvariants
  import opened SessionRuns
  import opened SessionSends
  import opened SessionFailures

  /** The next line starts a transfer. */
  predicate TransferLine(s: State) {
    ParseLine(FirstLine(s)).Some? && StartsTransfer(s.props, ParseLine(FirstLine(s)).value)
  }

  /** Transfer commands are only executed while no operation is alive. */
  ghost predicate OneAtATime(cfg: Config, now: int, es: seq<Event>) {
    forall i :: 0 <= i < |es| && es[i].Line? && Happened(cfg, now, es, i) && TransferLine(Reach(cfg, now, es[..i])) ==>
      Reach(cfg, now, es[..i]).heap.ops == map[]
  }

  /** There is at most one operation, and if it is past its accept it has an open data socket. */
  ghost predicate DataReady(s: State) {
    && |s.heap.refs| <= 1
    && (forall c :: c in s.heap.conts && !c.Accept? ==> s.data == Socket(true))
    && (forall m :: m in s.ctl.queue && m.token.Start? ==> s.data == Socket(true))
  }

  // without operations nothing needs a data socket
  lemma NobodyNeedsData(s: State)
    requires HeapOk(s, multiset{}) && s.heap.refs == multiset{}
    ensures DataReady(s)
  {
    forall c | c in s.heap.conts ensures false {
      ContHeld(s.heap.conts, c);
    }
    forall m | m in s.ctl.queue && m.token.Start? ensures false {
      TokenHeld(s.ctl.queue, m);
    }
  }

  // the one operation goes away
  lemma LastRef(refs: multiset<OpId>, op: OpId)
    requires |refs| <= 1 && op in refs
    ensures refs - multiset{op} == multiset{}
  {
    assert refs == multiset{op} + (refs - multiset{op});
  }

  lemma FewerRefs(a: multiset<OpId>, b: multiset<OpId>)
    requires a <= b
    ensures |a| <= |b|
  {
    assert b == a + (b - a);
  }

  lemma HolderIsRef(s: State, i: nat)
    requires HeapOk(s, multiset{}) && i < |s.heap.conts|
    ensures s.heap.conts[i].op in s.heap.refs && s.heap.conts[i].op in s.heap.ops
  {
    ContHeld(s.heap.conts, s.heap.conts[i]);
  }

  // what waits for data was waiting before, and the data socket is still there
  lemma ReadyFrame(s: State, t: State)
    requires DataReady(s) && t.heap.refs <= s.heap.refs && t.data == s.data
    requires forall c :: c in t.heap.conts && !c.Accept? ==> c in s.heap.conts || s.data == Socket(true)
    requires forall m :: m in t.ctl.queue && m.token.Start? ==> m in s.ctl.queue
    ensures DataReady(t)
  {
    FewerRefs(t.heap.refs, s.heap.refs);
  }

  lemma ReenteredReady(cfg: Config, s: State, calls: seq<Message>)
    requires DataReady(s) && HeapOk(s, multiset{}) && s.ctl.queue != [] && s.ctl.writes != []
    requires Callable(calls) && (s.ctl.queue[0].token.NoToken? ==> calls == [])
    ensures DataReady(OnReentered(cfg, s, calls))
  {
    ReenteredEffect(cfg, s, calls);
    var m := s.ctl.queue[0];
    assert m in s.ctl.queue;
    if m.token.Start? {
      TokenHeld(s.ctl.queue, m);
      assert m.token.op in s.heap.refs;
    }
    ReadyFrame(s, OnReentered(cfg, s, calls));
  }

  lemma FailedReady(cfg: Config, s: State)
    requires DataReady(s) && HeapOk(s, multiset{}) && s.ctl.writes != []
    requires HeapOk(OnWriteFailed(cfg, s), multiset{})
    ensures DataReady(OnWriteFailed(cfg, s))
  {
    WriteFailedEffect(cfg, s);
    var t := OnWriteFailed(cfg, s);
    if forall m :: m in s.ctl.queue ==> !m.token.Start? {
      NoTokens(cfg, s.(ctl := s.ctl.(writes := s.ctl.writes[1..], queue := []),
                       hist := s.hist.(writeFailed := true, stalled := s.heap.active == 0)), s.ctl.queue);
      ReadyFrame(s, t);
    } else {
      OnlyToken(s);
      assert t.heap.refs == multiset{} by { QueueGone(s, t); }
      NobodyNeedsData(t);
    }
  }

  // a token holds the one operation, so no handler does
  lemma OnlyToken(s: State)
    requires HeapOk(s, multiset{}) && |s.heap.refs| <= 1 && exists m :: m in s.ctl.queue && m.token.Start?
    ensures s.heap.conts == []
  {
    var m :| m in s.ctl.queue && m.token.Start?;
    if s.heap.conts != [] {
      TwoHolders(s.ctl.queue, m, s.heap.conts);
    }
  }

  lemma TwoHolders(ms: seq<Message>, m: Message, cs: seq<Cont>)
    requires m in ms && m.token.Start? && cs != []
    ensures |QueueRefs(ms) + ContRefs(cs)| >= 2
  {
    TokenHeld(ms, m);
    var a, rest := QueueRefs(ms), ContRefs(cs[1..]);
    assert a == multiset{m.token.op} + (a - multiset{m.token.op});
    assert ContRefs(cs) == multiset{cs[0].op} + rest;
  }

  lemma QueueGone(s: State, t: State)
    requires HeapOk(t, multiset{}) && s.heap.conts == [] && t.heap.conts == s.heap.conts && t.ctl.queue == []
    ensures t.heap.refs == multiset{}
  {
    assert Holders(t) + multiset{} == multiset{};
  }

  lemma LineReady(cfg: Config, s: State)
    requires DataReady(s) && HeapOk(s, multiset{}) && HeapOk(OnLine(cfg, s), multiset{})
    requires TransferLine(s) ==> s.heap.ops == map[]
    ensures DataReady(OnLine(cfg, s))
  {
    LineEffect(cfg, s);
    var t := OnLine(cfg, s);
    if ParseLine(FirstLine(s)).None? {
      ReadyFrame(s, t);
    } else {
      var req := ParseLine(FirstLine(s)).value;
      match RouteOf(s.props, req)
      case Reject(_) => ReadyFrame(s, t);
      case Run(kind) =>
        if IsTransfer(kind) {
          NoOpsNoRefs(s);
          TransferReady(s, t, kind, req, OpenTransfer(cfg, s.props, kind, req.body));
        } else {
          var (props, reply) := Answer(cfg, s.props, kind, req);
          SimpleReady(s, t, kind, props, reply);
        }
    }
  }

  lemma NoOpsNoRefs(s: State)
    requires HeapOk(s, multiset{}) && s.heap.ops == map[]
    ensures s.heap.refs == multiset{}
  {
  }

  lemma SimpleReady(s: State, t: State, kind: Kind, props: Props, reply: Reply)
    requires DataReady(s) && SimpleOutcome(AtLine(s), t, kind, props, reply)
    ensures DataReady(t)
  {
    ReadyFrame(s, t);
  }

  lemma TransferReady(s: State, t: State, kind: Kind, req: Request, got: Opened)
    requires TransferOutcome(AtLine(s), t, kind, req, got) && HeapOk(s, multiset{}) && HeapOk(t, multiset{})
    requires s.heap.refs == multiset{}
    ensures DataReady(t)
  {
    NoHolderAtAll(s);
    if got.Ready? && !s.props.acceptor.Closed? {
      assert t.heap.refs == multiset{s.heap.next};
    } else {
      NobodyNeedsData(t);
    }
  }

  lemma NoHolderAtAll(s: State)
    requires HeapOk(s, multiset{}) && s.heap.refs == multiset{}
    ensures s.heap.conts == [] && forall m :: m in s.ctl.queue ==> !m.token.Start?
  {
    HeadsAreHeld(s.ctl.queue, s.heap.conts);
    NoRefsNoStarts(s.ctl.queue);
  }

  lemma EndedReady(s: State, t: State, i: nat)
    requires DataReady(s) && HeapOk(s, multiset{}) && HeapOk(t, multiset{}) && DataStep(s, t, i)
    ensures DataReady(t)
  {
    HolderIsRef(s, i);
    assert s.heap.conts[i] in s.heap.conts;
    if t.heap.refs == s.heap.refs - multiset{s.heap.conts[i].op} {
      LastRef(s.heap.refs, s.heap.conts[i].op);
      NobodyNeedsData(t);
    } else {
      ReadyFrame(s, t);
    }
  }

  lemma AcceptReady(cfg: Config, s: State, e: Event)
    requires DataReady(s) && HeapOk(s, multiset{}) && Enabled(cfg, s, e) && (e.AcceptOk? || e.AcceptFailed?)
    requires HeapOk(Step(cfg, s, e), multiset{})
    ensures DataReady(Step(cfg, s, e))
  {
    HolderIsRef(s, e.i);
    if e.AcceptOk? {
      AcceptedEffect(cfg, s, e.i);
    } else {
      AcceptFailedEffect(cfg, s, e.i, e.aborted);
      LastRef(s.heap.refs, s.heap.conts[e.i].op);
      NobodyNeedsData(Step(cfg, s, e));
    }
  }

  lemma StepReady(cfg: Config, s: State, e: Event)
    requires DataReady(s) && HeapOk(s, multiset{}) && Enabled(cfg, s, e) && HeapOk(Step(cfg, s, e), multiset{})
    requires e.Line? && TransferLine(s) ==> s.heap.ops == map[]
    ensures DataReady(Step(cfg, s, e))
  {
    if e.Line? {
      LineReady(cfg, s);
    } else if IsQuiet(e) {
      QuietStepped(cfg, s, e);
      QuietData(cfg, s, e);
      ReadyFrame(s, Step(cfg, s, e));
    } else if e.Written? || e.Reenters? || e.WriteFailed? {
      WriteReady(cfg, s, e);
    } else if e.AcceptOk? || e.AcceptFailed? {
      AcceptReady(cfg, s, e);
    } else {
      IsDataStep(cfg, s, e);
      EndedReady(s, Step(cfg, s, e), e.i);
    }
  }

  lemma QuietData(cfg: Config, s: State, e: Event)
    requires Enabled(cfg, s, e) && IsQuiet(e)
    ensures Step(cfg, s, e).data == s.data
  {
  }

  lemma WriteReady(cfg: Config, s: State, e: Event)
    requires DataReady(s) && HeapOk(s, multiset{}) && Enabled(cfg, s, e) && HeapOk(Step(cfg, s, e), multiset{})
    requires e.Written? || e.Reenters? || e.WriteFailed?
    ensures DataReady(Step(cfg, s, e))
  {
    if e.Reenters? {
      ReenteredReady(cfg, s, e.calls);
    } else if s.ctl.phase.Starting? {
      ReadyFrame(s, Step(cfg, s, e));
    } else if e.Written? {
      ReenteredReady(cfg, s, []);
    } else {
      FailedReady(cfg, s);
    }
  }

  lemma HeapOfInv(cfg: Config, s: State)
    requires Inv(cfg, s)
    ensures HeapOk(s, multiset{})
  {
  }

  lemma {:induction false} ReadyThroughout(cfg: Config, now: int, es: seq<Event>)
    requires OneAtATime(cfg, now, es)
    ensures DataReady(Reach(cfg, now, es))
  {
    if es != [] {
      var init, e := es[..|es| - 1], es[|es| - 1];
      assert es == init + [e];
      EarlierOneAtATime(cfg, now, init, e);
      ReadyThroughout(cfg, now, init);
      AlwaysInv(cfg, now, init);
      AlwaysInv(cfg, now, es);
      HeapOfInv(cfg, Reach(cfg, now, init));
      HeapOfInv(cfg, Reach(cfg, now, es));
      if Enabled(cfg, Reach(cfg, now, init), e) {
        StepReady(cfg, Reach(cfg, now, init), e);
      }
    }
  }

  lemma EarlierOneAtATime(cfg: Config, now: int, es: seq<Event>, e: Event)
    requires OneAtATime(cfg, now, es + [e])
    ensures OneAtATime(cfg, now, es)
    ensures e.Line? && Enabled(cfg, Reach(cfg, now, es), e) && TransferLine(Reach(cfg, now, es)) ==>
              Reach(cfg, now, es).heap.ops == map[]
  {
    HappensNow(cfg, now, es, e);
    forall i | 0 <= i < |es| ensures Happened(cfg, now, es + [e], i) == Happened(cfg, now, es, i) {
      HappenedEarlier(cfg, now, es, e, i);
    }
    forall i | 0 <= i < |es| && es[i].Line? && Happened(cfg, now, es, i) && TransferLine(Reach(cfg, now, es[..i]))
      ensures Reach(cfg, now, es[..i]).heap.ops == map[]
    {
      HappenedEarlier(cfg, now, es, e, i);
    }
  }

  /** On every run whose transfers come one at a time no handler of a transfer, and no token,
      ever finds its data connection closed or gone. */
  lemma DataNeverMissing(cfg: Config, now: int, es: seq<Event>, e: Event)
    requires OneAtATime(cfg, now, es) && Offered(Reach(cfg, now, es), e)
    requires e.Sendable? || e.Receivable? || e.Written? || e.Reenters?
    ensures !Crashes(cfg, Reach(cfg, now, es), e)
  {
    ReadyThroughout(cfg, now, es);
    var s := Reach(cfg, now, es);
    if e.Sendable? || e.Receivable? {
      assert s.heap.conts[e.i] in s.heap.conts;
    } else if s.ctl.queue != [] {
      assert s.ctl.queue[0] in s.ctl.queue;
    }
  }
}
