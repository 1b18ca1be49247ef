/** Every SendFileOp of every run: exact contents, bounded rate. */
module SessionSends {
  import opened Requests
  import opened Replies
  import opened Commands
  import opened Engine
  import opened SessionEffects
  import opened SessionInvariants
  import opened SessionRuns
  import SendFile
  import RecvFile

  ghost predicate FilesFit(files: map<string, Node>) {
    forall path :: path in files && files[path].File? ==> |files[path].content| < SendFile.SIZE_T
  }

  ghost predicate ContOk(s: State, c: Cont, limit: nat) {
    c.op in s.sends ==>
      var t := s.sends[c.op];
      match c
      case Writable(_) => SendFile.Ready(t, limit, s.tmr.now)
      case Limiter(_, expiry) => SendFile.Ready(t, limit, expiry)
      case _ => t.sends == []
  }

  /** Every SendFileOp is valid, and no continuation of one can run before the limiter allows it. */
  ghost predicate SendsOk(cfg: Config, s: State) {
    && FilesFit(s.props.files)
    && (forall id :: id in s.sends ==> id < s.heap.next && SendFile.Valid(s.sends[id], cfg.downloadLimit))
    && (forall c :: c in s.heap.conts ==> ContOk(s, c, cfg.downloadLimit))
    && (forall m :: m in s.ctl.queue && m.token.Start? && m.token.op in s.sends ==> s.sends[m.token.op].sends == [])
  }

  lemma {:induction false} ContHeld(cs: seq<Cont>, c: Cont)
    requires c in cs
    ensures ContRefs(cs)[c.op] >= 1
  {
    if c != cs[0] {
      ContHeld(cs[1..], c);
    }
  }

  lemma {:induction false} TokenHeld(ms: seq<Message>, m: Message)
    requires m in ms && m.token.Start?
    ensures QueueRefs(ms)[m.token.op] >= 1
  {
    if m != ms[0] {
      TokenHeld(ms[1..], m);
    }
  }

  /** An operation with a waiting handler has nothing else. */
  lemma SoleHolder(s: State, i: nat)
    requires HeapOk(s, multiset{}) && Unshared(s.heap.refs) && i < |s.heap.conts|
    ensures forall c :: c in s.heap.conts[..i] + s.heap.conts[i + 1..] ==> c.op != s.heap.conts[i].op
    ensures forall m :: m in s.ctl.queue && m.token.Start? ==> m.token.op != s.heap.conts[i].op
  {
    var op := s.heap.conts[i].op;
    var rest := s.heap.conts[..i] + s.heap.conts[i + 1..];
    ContRefsTake(s.heap.conts, i);
    assert s.heap.refs[op] == QueueRefs(s.ctl.queue)[op] + ContRefs(rest)[op] + 1;
    forall c | c in rest ensures c.op != op {
      ContHeld(rest, c);
    }
    forall m | m in s.ctl.queue && m.token.Start? ensures m.token.op != op {
      TokenHeld(s.ctl.queue, m);
    }
  }

  lemma ReadyLater(t: SendFile.Transfer, limit: nat, a: int, b: int)
    requires SendFile.Ready(t, limit, a) && a <= b
    ensures SendFile.Ready(t, limit, b)
  {
  }

  lemma AnswerFiles(cfg: Config, p: Props, kind: Kind, req: Request)
    requires !IsTransfer(kind) && FilesFit(p.files)
    ensures FilesFit(Answer(cfg, p, kind, req).0.files)
  {
  }

  lemma HeldIsOld(s: State)
    requires HeapOk(s, multiset{})
    ensures forall c :: c in s.heap.conts ==> c.op < s.heap.next
    ensures forall m :: m in s.ctl.queue && m.token.Start? ==> m.token.op < s.heap.next
  {
    forall c | c in s.heap.conts ensures c.op < s.heap.next {
      ContHeld(s.heap.conts, c);
      assert c.op in s.heap.refs;
    }
    forall m | m in s.ctl.queue && m.token.Start? ensures m.token.op < s.heap.next {
      TokenHeld(s.ctl.queue, m);
      assert m.token.op in s.heap.refs;
    }
  }

  lemma OpenIsValid(cfg: Config, p: Props, body: string)
    requires FilesFit(p.files) && OpenTransfer(cfg, p, Send, body).Ready?
    ensures SendFile.Valid(SendFile.Open(OpenTransfer(cfg, p, Send, body).content), cfg.downloadLimit)
  {
  }

  /** What is enough to keep SendsOk when no transfer itself changes. */
  lemma SendsFrame(cfg: Config, s: State, t: State)
    requires SendsOk(cfg, s)
    requires t.sends == s.sends && t.tmr.now == s.tmr.now && s.heap.next <= t.heap.next && FilesFit(t.props.files)
    requires forall c :: c in t.heap.conts ==> c in s.heap.conts || ContOk(t, c, cfg.downloadLimit)
    requires forall m :: m in t.ctl.queue && m.token.Start? && m.token.op in s.sends ==>
               m in s.ctl.queue || s.sends[m.token.op].sends == []
    ensures SendsOk(cfg, t)
  {
    forall c | c in t.heap.conts ensures ContOk(t, c, cfg.downloadLimit) {
      if c in s.heap.conts {
        assert ContOk(s, c, cfg.downloadLimit);
      }
    }
  }

  lemma LineSends(cfg: Config, s: State)
    requires SendsOk(cfg, s) && HeapOk(s, multiset{})
    ensures SendsOk(cfg, OnLine(cfg, s))
  {
    LineEffect(cfg, s);
    var t := OnLine(cfg, s);
    if ParseLine(FirstLine(s)).None? {
      SendsFrame(cfg, s, t);
    } else {
      var req := ParseLine(FirstLine(s)).value;
      match RouteOf(s.props, req)
      case Reject(reply) => SendsFrame(cfg, s, t);
      case Run(kind) =>
        if IsTransfer(kind) {
          TransferSends(cfg, s, t, kind, req);
        } else {
          var (props, reply) := Answer(cfg, s.props, kind, req);
          AnswerFiles(cfg, s.props, kind, req);
          SimpleSends(cfg, s, t, kind, props, reply);
        }
    }
  }

  lemma SimpleSends(cfg: Config, s: State, t: State, kind: Kind, props: Props, reply: Reply)
    requires SendsOk(cfg, s) && SimpleOutcome(AtLine(s), t, kind, props, reply) && FilesFit(props.files)
    ensures SendsOk(cfg, t)
  {
    SendsFrame(cfg, s, t);
  }

  lemma TransferSends(cfg: Config, s: State, t: State, kind: Kind, req: Request)
    requires SendsOk(cfg, s) && HeapOk(s, multiset{}) && IsTransfer(kind)
    requires TransferOutcome(AtLine(s), t, kind, req, OpenTransfer(cfg, s.props, kind, req.body))
    ensures SendsOk(cfg, t)
  {
    HeldIsOld(s);
    if kind.Send? && OpenTransfer(cfg, s.props, kind, req.body).Ready? {
      OpenIsValid(cfg, s.props, req.body);
    }
    TransferLineSends(cfg, s, AtLine(s), t);
  }

  // a new transfer operation, which has sent nothing
  lemma TransferLineSends(cfg: Config, s: State, t: State, u: State)
    requires SendsOk(cfg, s) && t == AtLine(s) && u.props == t.props && u.heap.next == s.heap.next + 1
    requires forall c :: c in s.heap.conts ==> c.op < s.heap.next
    requires forall m :: m in s.ctl.queue && m.token.Start? ==> m.token.op < s.heap.next
    requires u.tmr.now == s.tmr.now
    requires u.sends == s.sends
          || (exists content :: u.sends == s.sends[s.heap.next := SendFile.Open(content)]
                && SendFile.Valid(SendFile.Open(content), cfg.downloadLimit))
    requires u.heap.conts == s.heap.conts ||
             exists viable :: u.heap.conts == s.heap.conts + [Accept(s.heap.next, viable)]
    requires u.ctl.queue == s.ctl.queue || exists reply :: u.ctl.queue == s.ctl.queue + [Message(reply, NoToken)]
    ensures SendsOk(cfg, u)
  {
    forall c | c in u.heap.conts ensures ContOk(u, c, cfg.downloadLimit) {
      if c in s.heap.conts {
        assert ContOk(s, c, cfg.downloadLimit);
      }
    }
  }

  lemma ReenteredSends(cfg: Config, s: State, calls: seq<Message>)
    requires SendsOk(cfg, s) && s.ctl.queue != [] && s.ctl.writes != []
    requires Callable(calls) && (s.ctl.queue[0].token.NoToken? ==> calls == [])
    ensures SendsOk(cfg, OnReentered(cfg, s, calls))
  {
    ReenteredEffect(cfg, s, calls);
    var t := OnReentered(cfg, s, calls);
    assert s.ctl.queue[0] in s.ctl.queue;
    WaitReady(cfg, s, t, s.ctl.queue[0]);
    SendsFrame(cfg, s, t);
  }

  lemma WaitReady(cfg: Config, s: State, t: State, m: Message)
    requires SendsOk(cfg, s) && m in s.ctl.queue && t.sends == s.sends
    ensures forall c :: c in WaitOf(s, m) ==> ContOk(t, c, cfg.downloadLimit)
  {
  }

  lemma AcceptOkSends(cfg: Config, s: State, i: nat)
    requires SendsOk(cfg, s) && i < |s.heap.conts| && s.heap.conts[i].Accept?
    ensures SendsOk(cfg, OnAccepted(cfg, s, i))
  {
    assert ContOk(s, s.heap.conts[i], cfg.downloadLimit);
    AcceptedEffect(cfg, s, i);
    SendsFrame(cfg, s, OnAccepted(cfg, s, i));
  }

  lemma AcceptFailedSends(cfg: Config, s: State, i: nat, aborted: bool)
    requires SendsOk(cfg, s) && i < |s.heap.conts|
    ensures SendsOk(cfg, OnAcceptFailed(cfg, s, i, aborted))
  {
    AcceptFailedEffect(cfg, s, i, aborted);
    SendsFrame(cfg, s, OnAcceptFailed(cfg, s, i, aborted));
  }

  // one transfer moves on, nobody else refers to its operation
  lemma SendsUpdate(cfg: Config, s: State, t: State, i: nat, after: SendFile.Transfer)
    requires SendsOk(cfg, s) && i < |s.heap.conts| && s.heap.conts[i].op in s.sends
    requires SendFile.Valid(after, cfg.downloadLimit)
    requires t.sends == s.sends[s.heap.conts[i].op := after]
    requires t.tmr.now == s.tmr.now && s.heap.next <= t.heap.next && FilesFit(t.props.files)
    requires forall c :: c in t.heap.conts ==>
               (c in s.heap.conts && c.op != s.heap.conts[i].op) || ContOk(t, c, cfg.downloadLimit)
    requires forall m :: m in t.ctl.queue && m.token.Start? ==> m in s.ctl.queue && m.token.op != s.heap.conts[i].op
    ensures SendsOk(cfg, t)
  {
    forall c | c in t.heap.conts ensures ContOk(t, c, cfg.downloadLimit) {
      if c in s.heap.conts && c.op != s.heap.conts[i].op {
        assert ContOk(s, c, cfg.downloadLimit);
      }
    }
  }

  lemma DealFor(cfg: Config, s: State, i: nat, ec: bool, ret: SendFile.Ret)
    requires SendsOk(cfg, s) && i < |s.heap.conts| && s.heap.conts[i].op in s.sends
    requires s.heap.conts[i].Writable? || (s.heap.conts[i].Limiter? && s.heap.conts[i].expiry <= s.tmr.now)
    ensures var limit := cfg.downloadLimit;
            var (after, next) := SendFile.Deal(s.sends[s.heap.conts[i].op], SendFile.Slice(limit), ec, ret, s.tmr.now);
            && SendFile.Valid(after, limit)
            && (next.AwaitWritable? ==> SendFile.Ready(after, limit, s.tmr.now))
            && (next.AwaitTimer? ==> SendFile.Ready(after, limit, next.expiry))
  {
    var limit := cfg.downloadLimit;
    var cont := s.heap.conts[i];
    assert ContOk(s, cont, limit);
    if cont.Limiter? {
      ReadyLater(s.sends[cont.op], limit, cont.expiry, s.tmr.now);
    }
    SendFile.DealKeeps(s.sends[cont.op], limit, ec, ret, s.tmr.now);
  }

  lemma SendableSends(cfg: Config, s: State, i: nat, ec: bool, ret: SendFile.Ret)
    requires SendsOk(cfg, s) && HeapOk(s, multiset{}) && Unshared(s.heap.refs)
    requires i < |s.heap.conts| && s.heap.conts[i].op in s.sends
    requires s.heap.conts[i].Writable? || (s.heap.conts[i].Limiter? && s.heap.conts[i].expiry <= s.tmr.now)
    ensures SendsOk(cfg, OnSend(cfg, s, i, ec, ret))
  {
    var op := s.heap.conts[i].op;
    var (after, next) := SendFile.Deal(s.sends[op], SendFile.Slice(cfg.downloadLimit), ec, ret, s.tmr.now);
    DealFor(cfg, s, i, ec, ret);
    SendEffect(cfg, s, i, ec, ret);
    SoleHolder(s, i);
    var dataOut := OnSend(cfg, s, i, ec, ret).hist.dataOut;
    SentSends(cfg, s, OnSend(cfg, s, i, ec, ret), i, after, SendOutcome(next, op), dataOut);
  }

  lemma SentSends(cfg: Config, s: State, t: State, i: nat, after: SendFile.Transfer, outcome: Outcome, dataOut: string)
    requires SendsOk(cfg, s) && i < |s.heap.conts| && s.heap.conts[i].op in s.sends
    requires SendFile.Valid(after, cfg.downloadLimit)
    requires DataEnded(s, t, i, outcome, s.sends[s.heap.conts[i].op := after], s.recvs, dataOut)
    requires forall c :: c in s.heap.conts[..i] + s.heap.conts[i + 1..] ==> c.op != s.heap.conts[i].op
    requires forall m :: m in s.ctl.queue && m.token.Start? ==> m.token.op != s.heap.conts[i].op
    requires outcome.Again? ==> outcome.c.op == s.heap.conts[i].op
    requires outcome.Again? && outcome.c.Writable? ==> SendFile.Ready(after, cfg.downloadLimit, s.tmr.now)
    requires outcome.Again? && outcome.c.Limiter? ==> SendFile.Ready(after, cfg.downloadLimit, outcome.c.expiry)
    requires outcome.Again? ==> outcome.c.Writable? || outcome.c.Limiter?
    ensures SendsOk(cfg, t)
  {
    SendsUpdate(cfg, s, t, i, after);
  }

  lemma ReceiveSends(cfg: Config, s: State, i: nat, ec: bool, script: seq<RecvFile.Splice>)
    requires SendsOk(cfg, s) && i < |s.heap.conts| && s.heap.conts[i].Readable? && s.heap.conts[i].op in s.recvs
    ensures SendsOk(cfg, OnReceive(cfg, s, i, ec, script))
  {
    assert ContOk(s, s.heap.conts[i], cfg.downloadLimit);
    ReceiveEffect(cfg, s, i, ec, script);
    SendsFrame(cfg, s, OnReceive(cfg, s, i, ec, script));
  }

  lemma ListedSends(cfg: Config, s: State, i: nat, bytes: string)
    requires SendsOk(cfg, s) && i < |s.heap.conts|
    ensures SendsOk(cfg, OnListed(cfg, s, i, bytes))
  {
    ListedEffect(cfg, s, i, bytes);
    SendsFrame(cfg, s, OnListed(cfg, s, i, bytes));
  }

  // time may pass
  lemma QuietSends(cfg: Config, s: State, e: Event)
    requires SendsOk(cfg, s) && Enabled(cfg, s, e) && IsQuiet(e)
    ensures SendsOk(cfg, Step(cfg, s, e))
  {
    var t := Step(cfg, s, e);
    QuietStepped(cfg, s, e);
    QuietClock(cfg, s, e);
    forall c | c in t.heap.conts ensures ContOk(t, c, cfg.downloadLimit) {
      assert ContOk(s, c, cfg.downloadLimit);
    }
  }

  lemma QuietClock(cfg: Config, s: State, e: Event)
    requires Enabled(cfg, s, e) && IsQuiet(e)
    ensures s.tmr.now <= Step(cfg, s, e).tmr.now
  {
  }

  lemma WriteSends(cfg: Config, s: State, e: Event)
    requires SendsOk(cfg, s) && Enabled(cfg, s, e) && (e.Written? || e.Reenters? || e.WriteFailed?)
    ensures SendsOk(cfg, Step(cfg, s, e))
  {
    if e.Reenters? {
      ReenteredSends(cfg, s, e.calls);
    } else if s.ctl.phase.Starting? {
      StartingSends(cfg, s, e);
    } else if e.Written? {
      ReenteredSends(cfg, s, []);
    } else {
      WriteFailedEffect(cfg, s);
      SendsFrame(cfg, s, Step(cfg, s, e));
    }
  }

  lemma StartingSends(cfg: Config, s: State, e: Event)
    requires SendsOk(cfg, s) && Enabled(cfg, s, e) && (e.Written? || e.WriteFailed?) && s.ctl.phase.Starting?
    ensures SendsOk(cfg, Step(cfg, s, e))
  {
    SendsFrame(cfg, s, Step(cfg, s, e));
  }

  lemma StepKeepsSends(cfg: Config, s: State, e: Event)
    requires SendsOk(cfg, s) && Inv(cfg, s) && Unshared(s.heap.refs) && Enabled(cfg, s, e)
    ensures SendsOk(cfg, Step(cfg, s, e))
  {
    if IsQuiet(e) {
      QuietSends(cfg, s, e);
    } else if e.Written? || e.Reenters? || e.WriteFailed? {
      WriteSends(cfg, s, e);
    } else if e.Sendable? {
      HasHeap(cfg, s, e.i);
      SendableSends(cfg, s, e.i, e.ec, e.ret);
    } else if e.Line? {
      LinesMeanStarted(cfg, s);
      LineSends(cfg, s);
    } else {
      OtherSends(cfg, s, e);
    }
  }

  lemma OtherSends(cfg: Config, s: State, e: Event)
    requires SendsOk(cfg, s) && Enabled(cfg, s, e)
    requires e.AcceptOk? || e.AcceptFailed? || e.Receivable? || e.Listed?
    ensures SendsOk(cfg, Step(cfg, s, e))
  {
    match e
    case AcceptOk(i) => AcceptOkSends(cfg, s, i);
    case AcceptFailed(i, aborted) => AcceptFailedSends(cfg, s, i, aborted);
    case Receivable(i, ec, script) => ReceiveSends(cfg, s, i, ec, script);
    case Listed(i, bytes) => ListedSends(cfg, s, i, bytes);
  }

  lemma HasHeap(cfg: Config, s: State, i: nat)
    requires Inv(cfg, s) && i < |s.heap.conts|
    ensures HeapOk(s, multiset{})
  {
  }

  lemma {:induction false} SendsThroughout(cfg: Config, now: int, es: seq<Event>)
    requires FilesFit(cfg.files)
    ensures SendsOk(cfg, Reach(cfg, now, es))
  {
    if es != [] {
      SendsThroughout(cfg, now, es[..|es| - 1]);
      AlwaysInv(cfg, now, es[..|es| - 1]);
      AccountingIsExact(cfg, now, es[..|es| - 1]);
      if Enabled(cfg, Reach(cfg, now, es[..|es| - 1]), es[|es| - 1]) {
        StepKeepsSends(cfg, Reach(cfg, now, es[..|es| - 1]), es[|es| - 1]);
      }
    }
  }

  /** In every run every SendFileOp has sent exactly the first `offset` bytes of its file,
      and under a limit of L KiB/s at most L KiB in any second. */
  lemma SendsAreExactAndBounded(cfg: Config, now: int, es: seq<Event>, op: OpId, from: int)
    requires FilesFit(cfg.files) && op in Reach(cfg, now, es).sends
    ensures var t := Reach(cfg, now, es).sends[op];
            && t.offset <= |t.file| && t.sent == t.file[..t.offset]
            && (cfg.downloadLimit > 0 ==>
               SendFile.SentWithin(t.sends, from, from + SendFile.SECOND) <= 1024 * cfg.downloadLimit)
  {
    SendsThroughout(cfg, now, es);
    if cfg.downloadLimit > 0 {
      SendFile.RateBound(Reach(cfg, now, es).sends[op], cfg.downloadLimit, from);
    }
  }

  /** The handlers after one has run: the others, and those it leaves. */
  function OthersAnd(s: State, i: nat, more: seq<Cont>): seq<Cont>
    requires i < |s.heap.conts|
  {
    s.heap.conts[..i] + s.heap.conts[i + 1..] + more
  }

  /** What an event of a SendFileOp leads to. */
  ghost predicate SendGoes(cfg: Config, s: State, t: State, i: nat, ec: bool, ret: SendFile.Ret) {
    && i < |s.heap.conts|
    && var op := s.heap.conts[i].op;
    && op in s.sends && op in t.sends && t.sends[op].file == s.sends[op].file
    && var (before, after) := (s.sends[op], t.sends[op]);
    && before.offset <= |before.file|
    && if ec || ret.Failed? then
         after == before && t.heap.conts == OthersAnd(s, i, []) && op !in t.heap.refs && t.hist.logged == s.hist.logged
       else if ret.WouldBlock? then
         after == before && t.heap.conts == OthersAnd(s, i, [Writable(op)]) && t.hist.logged == s.hist.logged
       else
         && after.offset == before.offset
                            + SendFile.Min(ret.n, SendFile.Portion(cfg.downloadLimit, |before.file| - before.offset))
         && if after.offset == |after.file| then t.heap.conts == OthersAnd(s, i, []) && op !in t.heap.refs
            else t.heap.conts == OthersAnd(s, i, [if cfg.downloadLimit == 0 then Writable(op)
                                                  else Limiter(op, s.tmr.now + SendFile.SECOND / 10)])
  }

  /** In every run an event of a SendFileOp sends exactly what the socket takes, up to a tenth of
      the limit; the operation is given up for an error only, and waits otherwise until its last
      byte is sent: for the socket, or under a limit for a tenth of a second. */
  lemma SendGoesOn(cfg: Config, now: int, es: seq<Event>, i: nat, ec: bool, ret: SendFile.Ret)
    requires FilesFit(cfg.files)
    requires Enabled(cfg, Reach(cfg, now, es), Sendable(i, ec, ret))
    ensures SendGoes(cfg, Reach(cfg, now, es), Step(cfg, Reach(cfg, now, es), Sendable(i, ec, ret)), i, ec, ret)
  {
    SendsThroughout(cfg, now, es);
    AccountingIsExact(cfg, now, es);
    SendLeads(cfg, Reach(cfg, now, es), i, ec, ret);
  }

  lemma SendLeads(cfg: Config, s: State, i: nat, ec: bool, ret: SendFile.Ret)
    requires SendsOk(cfg, s) && Unshared(s.heap.refs) && i < |s.heap.conts| && s.heap.conts[i].op in s.sends
    ensures SendGoes(cfg, s, OnSend(cfg, s, i, ec, ret), i, ec, ret)
  {
    var before, limit := s.sends[s.heap.conts[i].op], cfg.downloadLimit;
    var (after, next) := SendFile.Deal(before, SendFile.Slice(limit), ec, ret, s.tmr.now);
    SendEffect(cfg, s, i, ec, ret);
    DealLeads(before, limit, ec, ret, s.tmr.now);
    SendLed(cfg, s, OnSend(cfg, s, i, ec, ret), i, ec, ret, after, next);
  }

  ghost predicate DealtSo(before: SendFile.Transfer, limit: nat, ec: bool, ret: SendFile.Ret, now: int,
                          after: SendFile.Transfer, next: SendFile.Next)
  {
    && before.offset <= |before.file| && after.file == before.file && after.offset <= |after.file|
    && (ec || !ret.Sent? ==> after == before)
    && (!ec && ret.Sent? ==>
          after.offset == before.offset + SendFile.Min(ret.n, SendFile.Portion(limit, |before.file| - before.offset)))
    && next == if ec || ret.Failed? then SendFile.Dropped
               else if ret.WouldBlock? then SendFile.AwaitWritable
               else if after.offset == |after.file| then SendFile.Completed
               else if limit == 0 then SendFile.AwaitWritable
               else SendFile.AwaitTimer(now + SendFile.SECOND / 10)
  }

  lemma DealLeads(before: SendFile.Transfer, limit: nat, ec: bool, ret: SendFile.Ret, now: int)
    requires SendFile.Valid(before, limit)
    ensures var (after, next) := SendFile.Deal(before, SendFile.Slice(limit), ec, ret, now);
            DealtSo(before, limit, ec, ret, now, after, next)
  {
    SendFile.DealEndsIff(before, limit, ec, ret, now);
    if !ec && ret.Sent? {
      SendFile.DealSends(before, limit, ret.n, now);
    }
  }

  lemma SendLed(cfg: Config, s: State, t: State, i: nat, ec: bool, ret: SendFile.Ret, after: SendFile.Transfer,
                next: SendFile.Next)
    requires Unshared(s.heap.refs) && i < |s.heap.conts| && s.heap.conts[i].op in s.sends
    requires DataEnded(s, t, i, SendOutcome(next, s.heap.conts[i].op), s.sends[s.heap.conts[i].op := after],
                       s.recvs, t.hist.dataOut)
    requires DealtSo(s.sends[s.heap.conts[i].op], cfg.downloadLimit, ec, ret, s.tmr.now, after, next)
    ensures SendGoes(cfg, s, t, i, ec, ret)
  {
  }

  /** From `s` to `t`, a 226 is written if and only if the operation of handler `i` has now sent its whole file. */
  ghost predicate CompletesExactly(s: State, t: State, i: nat, ec: bool, ret: SendFile.Ret) {
    && i < |s.heap.conts|
    && var op := s.heap.conts[i].op;
    && op in s.sends && op in t.sends && t.sends[op].file == s.sends[op].file
    && (t.hist.logged == s.hist.logged + [Message(Code(TRANSFER_COMPLETE), NoToken)]
        <==> !ec && ret.Sent? && t.sends[op].sent == t.sends[op].file)
  }

  /** In every run the 226 of a SendFileOp is written exactly when its last byte is sent. */
  lemma CompletesWithLastByte(cfg: Config, now: int, es: seq<Event>, i: nat, ec: bool, ret: SendFile.Ret)
    requires FilesFit(cfg.files)
    requires Enabled(cfg, Reach(cfg, now, es), Sendable(i, ec, ret))
    ensures CompletesExactly(Reach(cfg, now, es), Step(cfg, Reach(cfg, now, es), Sendable(i, ec, ret)), i, ec, ret)
  {
    SendsThroughout(cfg, now, es);
    SendCompletes(cfg, Reach(cfg, now, es), i, ec, ret);
  }

  lemma SendCompletes(cfg: Config, s: State, i: nat, ec: bool, ret: SendFile.Ret)
    requires SendsOk(cfg, s) && i < |s.heap.conts| && s.heap.conts[i].op in s.sends
    ensures CompletesExactly(s, OnSend(cfg, s, i, ec, ret), i, ec, ret)
  {
    var op := s.heap.conts[i].op;
    SendEffect(cfg, s, i, ec, ret);
    DealCompletes(s.sends[op], cfg.downloadLimit, ec, ret, s.tmr.now);
    assert s.hist.logged != s.hist.logged + [Message(Code(TRANSFER_COMPLETE), NoToken)];
  }

  lemma DealCompletes(t: SendFile.Transfer, limit: nat, ec: bool, ret: SendFile.Ret, now: int)
    requires SendFile.Valid(t, limit)
    ensures var (u, next) := SendFile.Deal(t, SendFile.Slice(limit), ec, ret, now);
            && u.file == t.file
            && (next.Completed? <==> !ec && ret.Sent? && u.sent == u.file)
  {
    if !ec && ret.Sent? {
      var bytes := SendFile.Moved(t, SendFile.Slice(limit), ret.n);
      var u := SendFile.Advance(t, now, bytes);
      assert u.sent == t.file[..u.offset];
      SendFile.LeftIsExact(t, limit);
      assert SendFile.Left(u) == |u.file| - u.offset;
    }
  }

  // ---------------------------------------------------------------- once only

  /** A destroyed operation never comes back. */
  lemma {:induction false} GoneForGood(cfg: Config, s: State, later: seq<Event>, op: OpId)
    requires op < s.heap.next && op !in s.heap.refs
    ensures var t := Exec(cfg, s, later); op < t.heap.next && op !in t.heap.refs
  {
    if later != [] {
      GoneForGood(cfg, s, later[..|later| - 1], op);
      var t := Exec(cfg, s, later[..|later| - 1]);
      if Enabled(cfg, t, later[|later| - 1]) { StepEffect(cfg, t, later[|later| - 1]); }
    }
  }

  // how an event of a SendFileOp ends
  function SendNext(cfg: Config, s: State, i: nat, ec: bool, ret: SendFile.Ret): SendFile.Next
    requires i < |s.heap.conts| && s.heap.conts[i].op in s.sends
  {
    SendFile.Deal(s.sends[s.heap.conts[i].op], SendFile.Slice(cfg.downloadLimit), ec, ret, s.tmr.now).1
  }

  lemma CompletionReleases(cfg: Config, s: State, i: nat, ec: bool, ret: SendFile.Ret)
    requires i < |s.heap.conts| && s.heap.conts[i].op in s.sends
    requires SendNext(cfg, s, i, ec, ret).Completed?
    ensures OnSend(cfg, s, i, ec, ret).heap.refs == s.heap.refs - multiset{s.heap.conts[i].op}
  {
    SendEffect(cfg, s, i, ec, ret);
  }

  /** A SendFileOp completes at most once: the 226 is its last act, in every run it is gone
      afterwards, and no handler of it is left to write another. */
  lemma CompletesOnce(cfg: Config, now: int, es: seq<Event>, i: nat, ec: bool, ret: SendFile.Ret, later: seq<Event>)
    requires var s := Reach(cfg, now, es);
             && i < |s.heap.conts| && s.heap.conts[i].op in s.sends && Enabled(cfg, s, Sendable(i, ec, ret))
             && SendNext(cfg, s, i, ec, ret).Completed?
    ensures var op := Reach(cfg, now, es).heap.conts[i].op;
            var t := Reach(cfg, now, es + [Sendable(i, ec, ret)] + later);
            op !in t.heap.ops && forall c :: c in t.heap.conts ==> c.op != op
  {
    CompletionReleases(cfg, Reach(cfg, now, es), i, ec, ret);
    ReleasedForGood(cfg, now, es, i, Sendable(i, ec, ret), later);
  }

  // a handler that has dropped its reference was its operation's last
  lemma ReleasedForGood(cfg: Config, now: int, es: seq<Event>, i: nat, e: Event, later: seq<Event>)
    requires var s := Reach(cfg, now, es);
             i < |s.heap.conts| && Step(cfg, s, e).heap.refs == s.heap.refs - multiset{s.heap.conts[i].op}
    ensures var op := Reach(cfg, now, es).heap.conts[i].op;
            var t := Reach(cfg, now, es + [e] + later);
            op !in t.heap.ops && forall c :: c in t.heap.conts ==> c.op != op
  {
    var s := Reach(cfg, now, es);
    var op := s.heap.conts[i].op;
    AccountingIsExact(cfg, now, es);
    ContHeld(s.heap.conts, s.heap.conts[i]);
    AlwaysInv(cfg, now, es);
    assert op < s.heap.next by { HeldIsOld(s); }
    if Enabled(cfg, s, e) { StepEffect(cfg, s, e); }
    GoneForGood(cfg, Step(cfg, s, e), later, op);
    ReachAppend(cfg, now, es + [e], later);
    assert (es + [e])[..|es + [e]| - 1] == es;
    NoHandlers(cfg, now, es + [e] + later, op);
  }

  lemma NoHandlers(cfg: Config, now: int, es: seq<Event>, op: OpId)
    requires op !in Reach(cfg, now, es).heap.refs
    ensures var t := Reach(cfg, now, es); op !in t.heap.ops && forall c :: c in t.heap.conts ==> c.op != op
  {
    var t := Reach(cfg, now, es);
    AccountingIsExact(cfg, now, es);
    forall c | c in t.heap.conts ensures c.op != op {
      ContHeld(t.heap.conts, c);
    }
  }
}
