/** When a session that is kept alive after the end of file can still be destroyed. */
module SessionEndings {
  import opened Requests
  import opened Replies
  import opened Commands
  import opened Engine
  import opened SessionEffects
  import opened SessionInvariants
  import opened SessionRuns
  import opened SessionSends
  import opened SessionFailures
  import SendFile
  import RecvFile

  /** The keep-alive wait is pending. */
  ghost predicate Lingers(s: State) { s.ctl.phase.Started? && s.ctl.stopped && s.tmr.keep > 0 }

  /** Some operation is held by something other than the data write of a listing. */
  predicate HeldQuietly(s: State) {
    (exists c :: c in s.heap.conts && !c.DataWrite?) || (exists m :: m in s.ctl.queue && m.token.Start?)
  }

  predicate HasLimiter(s: State) { exists c :: c in s.heap.conts && c.Limiter? }

  /** The timer of a rate-limited download needs an open data socket: this one, or a new one. */
  predicate CanResume(s: State) {
    s.data == Socket(true) || exists c :: c in s.heap.conts && c.Accept? && c.viable
  }

  /** Without operations the last reply must already have left. With operations one of them
      must be able to end without a reply, which a listing cannot, and none may be stuck. */
  predicate CanEnd(s: State) {
    if s.heap.ops == map[] then CanDrain(s) else HeldQuietly(s) && (HasLimiter(s) ==> CanResume(s))
  }

  // ---------------------------------------------------------------- operations have their files

  /** Live transfers have opened their files, and their handlers know them. */
  ghost predicate FilesOk(s: State) {
    && (forall id :: id in s.heap.ops && s.heap.ops[id].Send? ==> id in s.sends)
    && (forall id :: id in s.heap.ops && s.heap.ops[id].Recv? ==> id in s.recvs)
    && (forall c :: c in s.heap.conts && (c.Writable? || c.Limiter?) ==> c.op in s.sends)
    && (forall c :: c in s.heap.conts && c.Readable? ==> c.op in s.recvs)
  }

  // nothing new but what is covered
  lemma FilesFrame(s: State, t: State, more: seq<Cont>)
    requires FilesOk(s) && forall id :: id in t.heap.ops ==> id in s.heap.ops && t.heap.ops[id] == s.heap.ops[id]
    requires s.sends.Keys <= t.sends.Keys && s.recvs.Keys <= t.recvs.Keys
    requires forall c :: c in t.heap.conts ==> c in s.heap.conts || c in more
    requires forall c :: c in more && (c.Writable? || c.Limiter?) ==> c.op in t.sends
    requires forall c :: c in more && c.Readable? ==> c.op in t.recvs
    ensures FilesOk(t)
  {
  }

  lemma LineFiles(cfg: Config, s: State)
    requires FilesOk(s) && HeapOk(s, multiset{}) && HeapOk(OnLine(cfg, s), multiset{})
    ensures FilesOk(OnLine(cfg, s))
  {
    LineEffect(cfg, s);
    var t := OnLine(cfg, s);
    if ParseLine(FirstLine(s)).None? {
      FilesFrame(s, t, []);
    } else {
      var req := ParseLine(FirstLine(s)).value;
      match RouteOf(s.props, req)
      case Reject(_) => FilesFrame(s, t, []);
      case Run(kind) =>
        if IsTransfer(kind) {
          TransferFiles(s, t, kind, req, OpenTransfer(cfg, s.props, kind, req.body));
        } else {
          var (props, reply) := Answer(cfg, s.props, kind, req);
          SimpleFiles(s, t, kind, props, reply);
        }
    }
  }

  lemma SimpleFiles(s: State, t: State, kind: Kind, props: Props, reply: Reply)
    requires FilesOk(s) && SimpleOutcome(AtLine(s), t, kind, props, reply) && !IsTransfer(kind)
    ensures FilesOk(t)
  {
  }

  lemma TransferFiles(s: State, t: State, kind: Kind, req: Request, got: Opened)
    requires FilesOk(s) && TransferOutcome(AtLine(s), t, kind, req, got)
    requires HeapOk(s, multiset{}) && HeapOk(t, multiset{})
    ensures FilesOk(t)
  {
    if got.Ready? && !s.props.acceptor.Closed? {
      WaitingFiles(s, t, kind, req, got);
    } else {
      NextGone(s, t);
      FilesFrame(s, t, []);
    }
  }

  lemma NextGone(s: State, t: State)
    requires HeapOk(s, multiset{}) && HeapOk(t, multiset{}) && t.heap.refs == s.heap.refs
    ensures s.heap.next !in t.heap.ops
  {
    assert s.heap.next !in s.heap.refs;
  }

  lemma WaitingFiles(s: State, t: State, kind: Kind, req: Request, got: Opened)
    requires FilesOk(s) && got.Ready? && FilesOpened(s, t, kind, got, s.heap.next) && KindsKept(s.heap, t.heap, kind)
    requires WaitsOutcome(AtLine(s), t, kind, req)
    ensures FilesOk(t)
  {
    assert s.sends.Keys <= t.sends.Keys && s.recvs.Keys <= t.recvs.Keys;
  }

  lemma ReenteredFiles(cfg: Config, s: State, calls: seq<Message>)
    requires FilesOk(s) && s.ctl.queue != [] && s.ctl.writes != []
    requires Callable(calls) && (s.ctl.queue[0].token.NoToken? ==> calls == [])
    ensures FilesOk(OnReentered(cfg, s, calls))
  {
    ReenteredEffect(cfg, s, calls);
    WaitFiles(s, s.ctl.queue[0]);
    FilesFrame(s, OnReentered(cfg, s, calls), WaitOf(s, s.ctl.queue[0]));
  }

  lemma WaitFiles(s: State, m: Message)
    requires FilesOk(s)
    ensures forall c :: c in WaitOf(s, m) && (c.Writable? || c.Limiter?) ==> c.op in s.sends
    ensures forall c :: c in WaitOf(s, m) && c.Readable? ==> c.op in s.recvs
  {
  }

  lemma WriteFiles(cfg: Config, s: State, e: Event)
    requires FilesOk(s) && Enabled(cfg, s, e) && (e.Written? || e.Reenters? || e.WriteFailed?)
    ensures FilesOk(Step(cfg, s, e))
  {
    if e.Reenters? {
      ReenteredFiles(cfg, s, e.calls);
    } else if s.ctl.phase.Starting? {
      FilesFrame(s, Step(cfg, s, e), []);
    } else if e.Written? {
      ReenteredFiles(cfg, s, []);
    } else {
      WriteFailedEffect(cfg, s);
      FilesFrame(s, Step(cfg, s, e), []);
    }
  }

  lemma AcceptedFiles(cfg: Config, s: State, i: nat)
    requires FilesOk(s) && i < |s.heap.conts|
    ensures FilesOk(OnAccepted(cfg, s, i))
  {
    AcceptedEffect(cfg, s, i);
    FilesFrame(s, OnAccepted(cfg, s, i), []);
  }

  lemma AcceptFailedFiles(cfg: Config, s: State, i: nat, aborted: bool)
    requires FilesOk(s) && i < |s.heap.conts|
    ensures FilesOk(OnAcceptFailed(cfg, s, i, aborted))
  {
    AcceptFailedEffect(cfg, s, i, aborted);
    FilesFrame(s, OnAcceptFailed(cfg, s, i, aborted), []);
  }

  lemma SendFiles(cfg: Config, s: State, i: nat, ec: bool, ret: SendFile.Ret)
    requires FilesOk(s) && i < |s.heap.conts| && s.heap.conts[i].op in s.sends
    ensures FilesOk(OnSend(cfg, s, i, ec, ret))
  {
    SendEffect(cfg, s, i, ec, ret);
    var op := s.heap.conts[i].op;
    var next := SendFile.Deal(s.sends[op], SendFile.Slice(cfg.downloadLimit), ec, ret, s.tmr.now).1;
    var outcome := SendOutcome(next, op);
    FilesFrame(s, OnSend(cfg, s, i, ec, ret), if outcome.Again? then [outcome.c] else []);
  }

  lemma ReceiveFiles(cfg: Config, s: State, i: nat, ec: bool, script: seq<RecvFile.Splice>)
    requires FilesOk(s) && i < |s.heap.conts| && s.heap.conts[i].op in s.recvs
    ensures FilesOk(OnReceive(cfg, s, i, ec, script))
  {
    ReceiveEffect(cfg, s, i, ec, script);
    var op := s.heap.conts[i].op;
    FilesFrame(s, OnReceive(cfg, s, i, ec, script), [Readable(op)]);
  }

  lemma ListFiles(cfg: Config, s: State, i: nat, bytes: string)
    requires FilesOk(s) && i < |s.heap.conts|
    ensures FilesOk(OnListed(cfg, s, i, bytes))
  {
    ListedEffect(cfg, s, i, bytes);
    FilesFrame(s, OnListed(cfg, s, i, bytes), []);
  }

  lemma StepFiles(cfg: Config, s: State, e: Event)
    requires FilesOk(s) && Inv(cfg, s) && Enabled(cfg, s, e)
    ensures FilesOk(Step(cfg, s, e))
  {
    if e.Line? {
      LineStepFiles(cfg, s);
    } else if IsQuiet(e) {
      QuietFiles(cfg, s, e);
    } else if e.Written? || e.Reenters? || e.WriteFailed? {
      WriteFiles(cfg, s, e);
    } else if e.AcceptOk? {
      AcceptedFiles(cfg, s, e.i);
    } else if e.AcceptFailed? {
      AcceptFailedFiles(cfg, s, e.i, e.aborted);
    } else {
      DataFilesOk(cfg, s, e);
    }
  }

  lemma DataFilesOk(cfg: Config, s: State, e: Event)
    requires FilesOk(s) && Enabled(cfg, s, e) && (e.Sendable? || e.Receivable? || e.Listed?)
    ensures FilesOk(Step(cfg, s, e))
  {
    match e
    case Sendable(i, ec, ret) => SendFiles(cfg, s, i, ec, ret);
    case Receivable(i, ec, script) => ReceiveFiles(cfg, s, i, ec, script);
    case Listed(i, bytes) => ListFiles(cfg, s, i, bytes);
  }

  lemma QuietFiles(cfg: Config, s: State, e: Event)
    requires FilesOk(s) && Enabled(cfg, s, e) && IsQuiet(e)
    ensures FilesOk(Step(cfg, s, e))
  {
    StepEffect(cfg, s, e);
    QuietStepped(cfg, s, e);
    QuietRecvs(cfg, s, e);
    FilesFrame(s, Step(cfg, s, e), []);
  }

  lemma QuietRecvs(cfg: Config, s: State, e: Event)
    requires Enabled(cfg, s, e) && IsQuiet(e)
    ensures s.recvs.Keys <= Step(cfg, s, e).recvs.Keys
  {
  }

  lemma LineStepFiles(cfg: Config, s: State)
    requires FilesOk(s) && Inv(cfg, s) && Enabled(cfg, s, Line)
    ensures FilesOk(OnLine(cfg, s))
  {
    LineHeaps(cfg, s);
    LineFiles(cfg, s);
  }

  lemma LineHeaps(cfg: Config, s: State)
    requires Inv(cfg, s) && Enabled(cfg, s, Line)
    ensures HeapOk(s, multiset{}) && HeapOk(OnLine(cfg, s), multiset{})
  {
    LinesMeanStarted(cfg, s);
    LineDone(cfg, s);
  }

  lemma {:induction false} FilesThroughout(cfg: Config, now: int, es: seq<Event>)
    ensures FilesOk(Reach(cfg, now, es))
  {
    if es != [] {
      var s, e := Reach(cfg, now, es[..|es| - 1]), es[|es| - 1];
      FilesThroughout(cfg, now, es[..|es| - 1]);
      AlwaysInv(cfg, now, es[..|es| - 1]);
      if Enabled(cfg, s, e) {
        StepFiles(cfg, s, e);
      }
    }
  }

  // ---------------------------------------------------------------- a way to the end

  /** On the way: closed, kept alive, not stalled, and some operation may still end quietly. */
  ghost predicate Ending(s: State) {
    s.ctl.phase.Started? && s.ctl.stopped && Kept(s.tmr) > 0 && !s.hist.stalled
  }

  lemma StaysEnding(cfg: Config, s: State, e: Event)
    requires Ending(s) && Enabled(cfg, s, e) && !e.Eof? && !e.Line? && !e.WriteFailed?
    ensures Ending(Step(cfg, s, e))
  {
    StepEffect(cfg, s, e);
  }

  function CountLimiters(cs: seq<Cont>): nat {
    if cs == [] then 0 else (if cs[0].Limiter? then 1 else 0) + CountLimiters(cs[1..])
  }

  lemma {:induction false} LimitersAppend(a: seq<Cont>, b: seq<Cont>)
    ensures CountLimiters(a + b) == CountLimiters(a) + CountLimiters(b)
  {
    if a == [] {
      assert a + b == b;
    } else {
      assert (a + b)[1..] == a[1..] + b;
      LimitersAppend(a[1..], b);
    }
  }

  // a limiter is replaced by a wait for writability
  lemma LimiterGoes(cs: seq<Cont>, i: nat, c: Cont)
    requires i < |cs| && cs[i].Limiter? && !c.Limiter?
    ensures CountLimiters(cs[..i] + cs[i + 1..] + [c]) < CountLimiters(cs)
  {
    var a, b := cs[..i], cs[i + 1..];
    assert cs == a + ([cs[i]] + b);
    LimitersAppend(a, [cs[i]] + b);
    assert ([cs[i]] + b)[1..] == b;
    LimitersAppend(a + b, [c]);
    LimitersAppend(a, b);
    assert [c][1..] == [];
  }

  lemma {:induction false} NoLimiters(cs: seq<Cont>)
    requires forall c :: c in cs ==> !c.Limiter?
    ensures CountLimiters(cs) == 0
  {
    if cs != [] {
      assert cs[0] in cs;
      NoLimiters(cs[1..]);
    }
  }

  /** An expired limiter whose sendfile would block waits for writability again. */
  lemma LimiterWaits(cfg: Config, s: State, i: nat)
    requires i < |s.heap.conts| && s.heap.conts[i].Limiter? && s.heap.conts[i].expiry <= s.tmr.now
    requires s.heap.conts[i].op in s.sends && s.data == Socket(true) && HeapOk(s, multiset{})
    ensures Enabled(cfg, s, Sendable(i, false, SendFile.WouldBlock))
    ensures var t := Step(cfg, s, Sendable(i, false, SendFile.WouldBlock));
            && t.heap.conts == s.heap.conts[..i] + s.heap.conts[i + 1..] + [Writable(s.heap.conts[i].op)]
            && t.data == Socket(true)
  {
    SendEffect(cfg, s, i, false, SendFile.WouldBlock);
    ContHeld(s.heap.conts, s.heap.conts[i]);
    assert s.heap.conts[i].op in s.heap.refs;
  }

  lemma FindLimiter(cs: seq<Cont>) returns (i: nat)
    requires exists c :: c in cs && c.Limiter?
    ensures i < |cs| && cs[i].Limiter?
  {
    var c :| c in cs && c.Limiter?;
    i :| i < |cs| && cs[i] == c;
  }

  // time passes until the limiter has expired
  lemma RunClock(cfg: Config, now: int, es: seq<Event>, until: int) returns (more: seq<Event>)
    requires Ending(Reach(cfg, now, es))
    ensures es <= more
    ensures var s, t := Reach(cfg, now, es), Reach(cfg, now, more);
            Ending(t) && t == s.(tmr := t.tmr) && until <= t.tmr.now
  {
    var s := Reach(cfg, now, es);
    var d := if s.tmr.now < until then until - s.tmr.now else 0;
    ReachSnoc(cfg, now, es, Tick(d));
    more := es + [Tick(d)];
  }

  // all limiters become waits for writability
  lemma {:induction false} RunLimiters(cfg: Config, now: int, es: seq<Event>) returns (more: seq<Event>)
    requires Ending(Reach(cfg, now, es)) && HeldQuietly(Reach(cfg, now, es))
    requires HasLimiter(Reach(cfg, now, es)) ==> Reach(cfg, now, es).data == Socket(true)
    ensures es <= more
    ensures var t := Reach(cfg, now, more); Ending(t) && HeldQuietly(t) && !HasLimiter(t)
    decreases CountLimiters(Reach(cfg, now, es).heap.conts)
  {
    var s := Reach(cfg, now, es);
    if HasLimiter(s) {
      var i := FindLimiter(s.heap.conts);
      more := RunClock(cfg, now, es, s.heap.conts[i].expiry);
      more := RunLimiter(cfg, now, more, i);
      more := RunLimiters(cfg, now, more);
    } else {
      more := es;
    }
  }

  lemma RunLimiter(cfg: Config, now: int, es: seq<Event>, i: nat) returns (more: seq<Event>)
    requires var s := Reach(cfg, now, es);
             && Ending(s) && i < |s.heap.conts| && s.heap.conts[i].Limiter? && s.heap.conts[i].expiry <= s.tmr.now
             && s.data == Socket(true)
    ensures es <= more
    ensures var s, t := Reach(cfg, now, es), Reach(cfg, now, more);
            && Ending(t) && HeldQuietly(t) && t.data == Socket(true)
            && CountLimiters(t.heap.conts) < CountLimiters(s.heap.conts)
  {
    var s, e := Reach(cfg, now, es), Sendable(i, false, SendFile.WouldBlock);
    AlwaysInv(cfg, now, es);
    FilesThroughout(cfg, now, es);
    assert s.heap.conts[i] in s.heap.conts;
    LimiterWaits(cfg, s, i);
    LimiterGoes(s.heap.conts, i, Writable(s.heap.conts[i].op));
    StaysEnding(cfg, s, e);
    ReachSnoc(cfg, now, es, e);
    more := es + [e];
    var t := Reach(cfg, now, more);
    assert t.heap.conts[|t.heap.conts| - 1] == Writable(s.heap.conts[i].op);
    QuietlyBy(t, |t.heap.conts| - 1);
  }

  lemma QuietlyBy(s: State, i: nat)
    requires i < |s.heap.conts| && !s.heap.conts[i].DataWrite?
    ensures HeldQuietly(s)
  {
    assert s.heap.conts[i] in s.heap.conts;
  }

  // a new data connection is accepted
  lemma RunAccept(cfg: Config, now: int, es: seq<Event>) returns (more: seq<Event>)
    requires Ending(Reach(cfg, now, es))
    requires exists c :: c in Reach(cfg, now, es).heap.conts && c.Accept? && c.viable
    ensures es <= more
    ensures var t := Reach(cfg, now, more); Ending(t) && HeldQuietly(t) && t.data == Socket(true)
  {
    var s := Reach(cfg, now, es);
    var c :| c in s.heap.conts && c.Accept? && c.viable;
    var i :| 0 <= i < |s.heap.conts| && s.heap.conts[i] == c;
    AlwaysInv(cfg, now, es);
    ContHeld(s.heap.conts, c);
    assert c.op in s.heap.refs;
    AcceptedEffect(cfg, s, i);
    StaysEnding(cfg, s, AcceptOk(i));
    ReachSnoc(cfg, now, es, AcceptOk(i));
    more := es + [AcceptOk(i)];
    LastStarts(s.ctl.queue, Reach(cfg, now, more), c.op);
  }

  lemma LastStarts(queue: seq<Message>, t: State, op: OpId)
    requires exists reply :: t.ctl.queue == queue + [Message(reply, Start(op))]
    ensures HeldQuietly(t)
  {
    assert t.ctl.queue[|queue|] in t.ctl.queue;
  }

  /** The data write of a listing ends, and leaves a reply. */
  lemma ListingEnds(cfg: Config, s: State, i: nat)
    requires Ending(s) && HeldQuietly(s) && !HasLimiter(s) && i < |s.heap.conts| && s.heap.conts[i].DataWrite?
    ensures Enabled(cfg, s, Listed(i, ""))
    ensures var t := Step(cfg, s, Listed(i, ""));
            HeldQuietly(t) && !HasLimiter(t) && |t.heap.conts| < |s.heap.conts|
  {
    ListedEffect(cfg, s, i, "");
    var t := Step(cfg, s, Listed(i, ""));
    OthersStay(s, t, i);
  }

  lemma OthersStay(s: State, t: State, i: nat)
    requires HeldQuietly(s) && !HasLimiter(s) && i < |s.heap.conts| && s.heap.conts[i].DataWrite?
    requires t.heap.conts == s.heap.conts[..i] + s.heap.conts[i + 1..] + []
    requires exists m :: t.ctl.queue == s.ctl.queue + [m]
    ensures HeldQuietly(t) && !HasLimiter(t) && |t.heap.conts| < |s.heap.conts|
  {
    if c :| c in s.heap.conts && !c.DataWrite? {
      assert c in t.heap.conts;
    } else {
      var m :| m in s.ctl.queue && m.token.Start?;
      assert m in t.ctl.queue;
    }
  }

  // all listings end
  lemma {:induction false} RunListings(cfg: Config, now: int, es: seq<Event>) returns (more: seq<Event>)
    requires var s := Reach(cfg, now, es); Ending(s) && HeldQuietly(s) && !HasLimiter(s)
    ensures es <= more
    ensures var t := Reach(cfg, now, more);
            Ending(t) && HeldQuietly(t) && !HasLimiter(t) && forall c :: c in t.heap.conts ==> !c.DataWrite?
    decreases |Reach(cfg, now, es).heap.conts|
  {
    var s := Reach(cfg, now, es);
    if i: nat :| i < |s.heap.conts| && s.heap.conts[i].DataWrite? {
      ListingEnds(cfg, s, i);
      StaysEnding(cfg, s, Listed(i, ""));
      ReachSnoc(cfg, now, es, Listed(i, ""));
      more := RunListings(cfg, now, es + [Listed(i, "")]);
    } else {
      more := es;
    }
  }

  lemma QuietlyLives(s: State)
    requires HeapOk(s, multiset{}) && HeldQuietly(s)
    ensures s.heap.active > 0
  {
    if c :| c in s.heap.conts && !c.DataWrite? {
      ContHeld(s.heap.conts, c);
      LiveIsActive(s.heap, Holders(s) + multiset{}, c.op);
    } else {
      var m :| m in s.ctl.queue && m.token.Start?;
      TokenHeld(s.ctl.queue, m);
      LiveIsActive(s.heap, Holders(s) + multiset{}, m.token.op);
    }
  }

  /** What a handler that can end without a reply waits for. */
  predicate EndsQuietly(c: Cont) { c.Accept? || c.Writable? || c.Readable? }

  // the queued replies are lost, with the operations only they hold
  lemma RunFailure(cfg: Config, now: int, es: seq<Event>) returns (more: seq<Event>)
    requires var s := Reach(cfg, now, es);
             Ending(s) && HeldQuietly(s) && forall c :: c in s.heap.conts ==> EndsQuietly(c)
    ensures es <= more
    ensures var t := Reach(cfg, now, more);
            Ending(t) && t.ctl.queue == [] && forall c :: c in t.heap.conts ==> EndsQuietly(c)
  {
    var s := Reach(cfg, now, es);
    if s.ctl.queue == [] {
      more := es;
    } else {
      AlwaysInv(cfg, now, es);
      QuietlyLives(s);
      FailureEmpties(cfg, s);
      ReachSnoc(cfg, now, es, WriteFailed);
      more := es + [WriteFailed];
    }
  }

  lemma FailureEmpties(cfg: Config, s: State)
    requires Ending(s) && s.heap.active > 0 && s.ctl.queue != [] && SingleWriter(s)
    ensures Enabled(cfg, s, WriteFailed)
    ensures var t := Step(cfg, s, WriteFailed);
            Ending(t) && t.ctl.queue == [] && t.heap.conts == s.heap.conts
  {
    WriteFailedEffect(cfg, s);
  }

  function DropOf(c: Cont): Event {
    if c.Accept? then AcceptFailed(0, false)
    else if c.Readable? then Receivable(0, true, [])
    else Sendable(0, true, SendFile.Failed)
  }

  /** The first handler ends with an error, quietly. */
  lemma DropFirst(cfg: Config, s: State)
    requires s.heap.conts != [] && EndsQuietly(s.heap.conts[0]) && FilesOk(s)
    ensures Enabled(cfg, s, DropOf(s.heap.conts[0]))
    ensures var t := Step(cfg, s, DropOf(s.heap.conts[0]));
            t.heap.conts == s.heap.conts[1..] && t.ctl.queue == s.ctl.queue
  {
    var c := s.heap.conts[0];
    assert c in s.heap.conts;
    if c.Accept? {
      AcceptFailedEffect(cfg, s, 0, false);
      assert s.heap.conts[..0] + s.heap.conts[1..] == s.heap.conts[1..];
    } else if c.Readable? {
      DropRead(cfg, s);
    } else {
      DropWrite(cfg, s);
    }
  }

  lemma DropRead(cfg: Config, s: State)
    requires s.heap.conts != [] && s.heap.conts[0].op in s.recvs
    ensures var t := OnReceive(cfg, s, 0, true, []); t.heap.conts == s.heap.conts[1..] && t.ctl.queue == s.ctl.queue
  {
    ReceiveEffect(cfg, s, 0, true, []);
    assert s.heap.conts[..0] + s.heap.conts[1..] + [] == s.heap.conts[1..];
  }

  lemma DropWrite(cfg: Config, s: State)
    requires s.heap.conts != [] && s.heap.conts[0].op in s.sends
    ensures var t := OnSend(cfg, s, 0, true, SendFile.Failed);
            t.heap.conts == s.heap.conts[1..] && t.ctl.queue == s.ctl.queue
  {
    SendEffect(cfg, s, 0, true, SendFile.Failed);
    assert s.heap.conts[..0] + s.heap.conts[1..] + [] == s.heap.conts[1..];
  }

  // all operations end
  lemma {:induction false} RunDrops(cfg: Config, now: int, es: seq<Event>) returns (more: seq<Event>)
    requires var s := Reach(cfg, now, es);
             Ending(s) && s.ctl.queue == [] && forall c :: c in s.heap.conts ==> EndsQuietly(c)
    ensures es <= more
    ensures var t := Reach(cfg, now, more); Ending(t) && t.ctl.queue == [] && t.heap.conts == []
    decreases |Reach(cfg, now, es).heap.conts|
  {
    var s := Reach(cfg, now, es);
    if s.heap.conts == [] {
      more := es;
    } else {
      var e := DropOf(s.heap.conts[0]);
      FilesThroughout(cfg, now, es);
      DropFirst(cfg, s);
      StaysEnding(cfg, s, e);
      ReachSnoc(cfg, now, es, e);
      more := RunDrops(cfg, now, es + [e]);
    }
  }

  lemma AtLastReleased(cfg: Config, now: int, es: seq<Event>)
    requires var s := Reach(cfg, now, es); Ending(s) && s.ctl.queue == [] && s.heap.conts == []
    ensures Reach(cfg, now, es).tmr.released > 0
  {
    var s := Reach(cfg, now, es);
    AlwaysInv(cfg, now, es);
    assert Holders(s) + multiset{} == multiset{};
    assert s.heap.ops.Keys == {};
  }

  /** If it can end, there is a run in which it does. */
  lemma RunToEnd(cfg: Config, now: int, es: seq<Event>) returns (more: seq<Event>)
    requires var s := Reach(cfg, now, es); Lingers(s) && CanEnd(s) && s.heap.ops != map[]
    ensures es <= more && Reach(cfg, now, more).tmr.released > 0
  {
    var s := Reach(cfg, now, es);
    AlwaysInv(cfg, now, es);
    NoOpsIsInactive(s);
    more := es;
    if HasLimiter(s) && s.data != Socket(true) {
      more := RunAccept(cfg, now, more);
    }
    more := RunLimiters(cfg, now, more);
    more := RunListings(cfg, now, more);
    more := RunFailure(cfg, now, more);
    more := RunDrops(cfg, now, more);
    AtLastReleased(cfg, now, more);
  }

  // ---------------------------------------------------------------- no way to the end

  /** Only listings are left. */
  ghost predicate OnlyListings(s: State) {
    && s.ctl.phase.Started? && s.ctl.stopped && !s.ctl.reading && s.heap.conts != []
    && (forall c :: c in s.heap.conts ==> c.DataWrite?)
    && (forall m :: m in s.ctl.queue ==> !m.token.Start?)
  }

  lemma ReenteredListings(cfg: Config, s: State, calls: seq<Message>)
    requires OnlyListings(s) && s.ctl.queue != [] && s.ctl.writes != []
    requires Callable(calls) && (s.ctl.queue[0].token.NoToken? ==> calls == [])
    ensures OnlyListings(OnReentered(cfg, s, calls))
  {
    ReenteredEffect(cfg, s, calls);
    assert s.ctl.queue[0] in s.ctl.queue;
    assert s.heap.conts + [] == s.heap.conts;
  }

  lemma ListedListings(cfg: Config, s: State, i: nat, bytes: string)
    requires OnlyListings(s) && i < |s.heap.conts|
    ensures var t := OnListed(cfg, s, i, bytes);
            OnlyListings(t) || (t.heap.conts == [] && forall m :: m in t.ctl.queue ==> !m.token.Start?)
  {
    ListedEffect(cfg, s, i, bytes);
  }

  // every step but the end of the last listing
  lemma ListingStep(cfg: Config, s: State, e: Event)
    requires OnlyListings(s) && Enabled(cfg, s, e)
    ensures var t := Step(cfg, s, e);
            || OnlyListings(t)
            || (e.Listed? && t.heap.conts == [] && forall m :: m in t.ctl.queue ==> !m.token.Start?)
  {
    if e.Written? {
      ReenteredListings(cfg, s, []);
    } else if e.Reenters? {
      ReenteredListings(cfg, s, e.calls);
    } else if e.WriteFailed? {
      WriteFailedEffect(cfg, s);
    } else if IsQuiet(e) {
      StepEffect(cfg, s, e);
      QuietStepped(cfg, s, e);
    } else {
      ListingOnly(s, e);
      ListedListings(cfg, s, e.i, e.bytes);
    }
  }

  lemma ListingOnly(s: State, e: Event)
    requires OnlyListings(s) && Offered(s, e)
    requires !e.Written? && !e.Reenters? && !e.WriteFailed? && !IsQuiet(e)
    ensures e.Listed?
  {
    if !e.Line? {
      assert s.heap.conts[e.i] in s.heap.conts;
    }
  }

  lemma StaysAlive(cfg: Config, s: State, e: Event)
    requires Done(cfg, s, multiset{}) && Lingers(s) && Enabled(cfg, s, e)
    requires Done(cfg, Step(cfg, s, e), multiset{}) && Pending(Step(cfg, s, e))
    ensures Lingers(Step(cfg, s, e))
  {
    StepEffect(cfg, s, e);
  }

  lemma ContsMeanPending(s: State)
    requires HeapOk(s, multiset{}) && s.heap.conts != []
    ensures Pending(s)
  {
    assert s.heap.conts[0] in s.heap.conts;
    ContHeld(s.heap.conts, s.heap.conts[0]);
    LiveIsActive(s.heap, Holders(s) + multiset{}, s.heap.conts[0].op);
  }

  lemma NoHolders(s: State)
    requires HeapOk(s, multiset{}) && s.heap.conts == [] && forall m :: m in s.ctl.queue ==> !m.token.Start?
    ensures s.heap.ops == map[]
  {
    QueueRefsNone(s.ctl.queue);
    assert Holders(s) + multiset{} == multiset{};
    assert s.heap.ops.Keys == {};
  }

  lemma ListingsGoOn(cfg: Config, now: int, es: seq<Event>, e: Event)
    requires OnlyListings(Reach(cfg, now, es)) && Lingers(Reach(cfg, now, es))
    ensures var t := Reach(cfg, now, es + [e]); (OnlyListings(t) && Lingers(t)) || Doomed(t)
  {
    var s := Reach(cfg, now, es);
    ReachSnoc(cfg, now, es, e);
    if Enabled(cfg, s, e) {
      AlwaysInv(cfg, now, es);
      AlwaysInv(cfg, now, es + [e]);
      ListingStep(cfg, s, e);
      StepEffect(cfg, s, e);
      var t := Step(cfg, s, e);
      if OnlyListings(t) {
        ContsMeanPending(t);
        StaysAlive(cfg, s, e);
      } else {
        LastListing(cfg, now, es, e);
      }
    }
  }

  // the last listing ends with a reply that comes too late
  lemma LastListing(cfg: Config, now: int, es: seq<Event>, e: Event)
    requires Lingers(Reach(cfg, now, es)) && Enabled(cfg, Reach(cfg, now, es), e) && e.Listed?
    requires var t := Reach(cfg, now, es + [e]);
             t.heap.conts == [] && forall m :: m in t.ctl.queue ==> !m.token.Start?
    ensures Doomed(Reach(cfg, now, es + [e]))
  {
    var s := Reach(cfg, now, es);
    ReachSnoc(cfg, now, es, e);
    AlwaysInv(cfg, now, es);
    AlwaysInv(cfg, now, es + [e]);
    ListedEffect(cfg, s, e.i, e.bytes);
    LateReply(cfg, s, e);
    NoHolders(Reach(cfg, now, es + [e]));
    StaysAlive(cfg, s, e);
    LateSession(cfg, now, es + [e]);
  }

  lemma {:induction false} ListingsForever(cfg: Config, now: int, es: seq<Event>, later: seq<Event>)
    requires OnlyListings(Reach(cfg, now, es)) && Lingers(Reach(cfg, now, es))
    ensures var t := Reach(cfg, now, es + later); (OnlyListings(t) && Lingers(t)) || Doomed(t)
  {
    if later == [] {
      assert es + later == es;
    } else {
      var init, e := later[..|later| - 1], later[|later| - 1];
      ListingsForever(cfg, now, es, init);
      assert es + later == es + init + [e];
      ReachSnoc(cfg, now, es + init, e);
      if Doomed(Reach(cfg, now, es + init)) {
        DoomedStep(cfg, Reach(cfg, now, es + init), e);
      } else {
        ListingsGoOn(cfg, now, es + init, e);
      }
    }
  }

  /** A rate-limited download whose timer will find no data socket. */
  ghost predicate Stuck(s: State) {
    && ClosedForGood(s) && HasLimiter(s)
    && forall c :: c in s.heap.conts && c.Accept? ==> !c.viable
  }

  // the flags and the data socket of a stuck session
  predicate ClosedForGood(s: State) {
    s.ctl.phase.Started? && s.ctl.stopped && !s.ctl.reading && s.data != Socket(true)
  }

  // the limiter stays, and no viable accept comes
  lemma StuckFrame(s: State, t: State, gone: Cont)
    requires Stuck(s) && !gone.Limiter? && ClosedForGood(t)
    requires forall c :: c in s.heap.conts ==> c in t.heap.conts || c == gone
    requires forall c :: c in t.heap.conts ==> c in s.heap.conts || !c.Accept?
    ensures Stuck(t)
  {
    var c :| c in s.heap.conts && c.Limiter?;
    assert c in t.heap.conts;
  }

  lemma StuckStep(cfg: Config, s: State, e: Event)
    requires Stuck(s) && Enabled(cfg, s, e)
    ensures Stuck(Step(cfg, s, e))
  {
    var t := Step(cfg, s, e);
    var c :| c in s.heap.conts && c.Limiter?;
    StuckFlags(cfg, s, e);
    if IsQuiet(e) {
      QuietStepped(cfg, s, e);
      StuckFrame(s, t, Writable(0));
    } else if e.Written? || e.Reenters? || e.WriteFailed? {
      StuckWrite(cfg, s, e);
    } else {
      assert s.heap.conts[e.i] in s.heap.conts;
      if e.AcceptFailed? {
        AcceptFailedEffect(cfg, s, e.i, e.aborted);
      } else {
        IsDataStep(cfg, s, e);
        StuckData(s, t, e.i);
      }
      StuckFrame(s, t, s.heap.conts[e.i]);
    }
  }

  lemma StuckFlags(cfg: Config, s: State, e: Event)
    requires Stuck(s) && Enabled(cfg, s, e)
    ensures !e.Line? && !e.AcceptOk? && !e.Eof?
    ensures ClosedForGood(Step(cfg, s, e))
    ensures e.Sendable? ==> !s.heap.conts[e.i].Limiter?
  {
    if e.AcceptOk? {
      NotViable(s, e.i);
    }
    StepEffect(cfg, s, e);
  }

  lemma NotViable(s: State, i: nat)
    requires Stuck(s) && i < |s.heap.conts|
    ensures s.heap.conts[i].Accept? ==> !s.heap.conts[i].viable
  {
    assert s.heap.conts[i] in s.heap.conts;
  }

  lemma StuckData(s: State, t: State, i: nat)
    requires Stuck(s) && DataStep(s, t, i)
    ensures forall c :: c in s.heap.conts ==> c in t.heap.conts || c == s.heap.conts[i]
    ensures forall c :: c in t.heap.conts ==> c in s.heap.conts || !c.Accept?
  {
  }

  lemma StuckWrite(cfg: Config, s: State, e: Event)
    requires Stuck(s) && Enabled(cfg, s, e) && (e.Written? || e.Reenters? || e.WriteFailed?)
    requires ClosedForGood(Step(cfg, s, e))
    ensures Stuck(Step(cfg, s, e))
  {
    if e.WriteFailed? {
      WriteFailedEffect(cfg, s);
    } else {
      var calls := if e.Reenters? then e.calls else [];
      ReenteredEffect(cfg, s, calls);
    }
    StuckFrame(s, Step(cfg, s, e), Writable(0));
  }

  lemma {:induction false} StuckForever(cfg: Config, now: int, es: seq<Event>, later: seq<Event>)
    requires Stuck(Reach(cfg, now, es))
    ensures Stuck(Reach(cfg, now, es + later))
  {
    if later == [] {
      assert es + later == es;
    } else {
      var init, e := later[..|later| - 1], later[|later| - 1];
      StuckForever(cfg, now, es, init);
      assert es + later == es + init + [e];
      ReachSnoc(cfg, now, es + init, e);
      if Enabled(cfg, Reach(cfg, now, es + init), e) {
        StuckStep(cfg, Reach(cfg, now, es + init), e);
      }
    }
  }

  lemma ContsMeanUnreleased(cfg: Config, now: int, es: seq<Event>)
    requires Reach(cfg, now, es).ctl.stopped && Reach(cfg, now, es).heap.conts != []
    requires Reach(cfg, now, es).ctl.phase.Started?
    ensures Reach(cfg, now, es).tmr.released == 0
  {
    AlwaysInv(cfg, now, es);
    ContsMeanPending(Reach(cfg, now, es));
  }

  // ---------------------------------------------------------------- the exact condition

  lemma DrainStep(cfg: Config, s: State)
    requires Done(cfg, s, multiset{}) && s.ctl.stopped && s.tmr.keep > 0 && s.heap.ops == map[] && CanDrain(s)
    ensures Enabled(cfg, s, Written) && Step(cfg, s, Written).tmr.released > 0
  {
    WrittenDone(cfg, s);
    WrittenEffect(cfg, s);
    var t := OnWritten(cfg, s);
    assert t.heap.ops.Keys == {};
    NoOpsIsInactive(t);
    LateNotStalled(s);
  }

  lemma LateNotStalled(s: State)
    requires s.ctl.queue != [] && (s.hist.stalled ==> !Pending(s))
    ensures !s.hist.stalled
  {
  }

  // what stands in the way
  lemma CannotEnd(cfg: Config, now: int, es: seq<Event>)
    requires Lingers(Reach(cfg, now, es)) && !CanEnd(Reach(cfg, now, es))
    ensures var s := Reach(cfg, now, es); Doomed(s) || OnlyListings(s) || Stuck(s)
  {
    var s := Reach(cfg, now, es);
    AlwaysInv(cfg, now, es);
    if s.heap.ops == map[] {
      LateSession(cfg, now, es);
    } else if !HeldQuietly(s) && s.heap.conts == [] {
      NoHolders(s);
    }
  }

  lemma NeverReleased(cfg: Config, now: int, es: seq<Event>, later: seq<Event>)
    requires Lingers(Reach(cfg, now, es)) && !CanEnd(Reach(cfg, now, es))
    ensures Reach(cfg, now, es + later).tmr.released == 0
  {
    CannotEnd(cfg, now, es);
    var s := Reach(cfg, now, es);
    ReachAppend(cfg, now, es, later);
    if Doomed(s) {
      DoomedForever(cfg, s, later);
    } else if OnlyListings(s) {
      ListingsForever(cfg, now, es, later);
      if !Doomed(Reach(cfg, now, es + later)) {
        ContsMeanUnreleased(cfg, now, es + later);
      }
    } else {
      StuckForever(cfg, now, es, later);
      ContsMeanUnreleased(cfg, now, es + later);
    }
  }

  lemma SomeRelease(cfg: Config, now: int, es: seq<Event>) returns (later: seq<Event>)
    requires Lingers(Reach(cfg, now, es)) && CanEnd(Reach(cfg, now, es))
    ensures Reach(cfg, now, es + later).tmr.released > 0
  {
    var s := Reach(cfg, now, es);
    if s.heap.ops == map[] {
      AlwaysInv(cfg, now, es);
      DrainStep(cfg, s);
      ReachSnoc(cfg, now, es, Written);
      later := [Written];
    } else {
      var more := RunToEnd(cfg, now, es);
      later := more[|es|..];
      assert es + later == more;
    }
  }

  /** When a session that is kept alive after the end of file can still be destroyed, for every
      such state: without operations, if and only if its last reply has already left; with
      operations, if and only if one of them is held by something other than the data write of
      a listing, and no rate-limited download is stuck without a data connection. */
  lemma KeptAliveEndsIff(cfg: Config, now: int, es: seq<Event>)
    requires Lingers(Reach(cfg, now, es))
    ensures (exists later :: Reach(cfg, now, es + later).tmr.released > 0) <==> CanEnd(Reach(cfg, now, es))
  {
    if CanEnd(Reach(cfg, now, es)) {
      var later := SomeRelease(cfg, now, es);
    } else {
      forall later ensures !(Reach(cfg, now, es + later).tmr.released > 0) {
        NeverReleased(cfg, now, es, later);
      }
    }
  }
}
