/** Transfer replies over whole runs: 227, 150 and 226 bracket each other. */
module SessionTransfers {
  import opened Requests
  import opened Replies
  import opened Commands
  import opened Engine
  import opened SessionEffects
  import opened SessionRuns
  import SendFile
  import RecvFile

  // ---------------------------------------------------------------- counting

  function Count(code: nat, ms: seq<Message>): nat {
    if ms == [] then 0
    else Count(code, ms[..|ms| - 1]) + (if ms[|ms| - 1].reply.code == code then 1 else 0)
  }

  lemma CountSnoc(code: nat, ms: seq<Message>, m: Message)
    ensures Count(code, ms + [m]) == Count(code, ms) + (if m.reply.code == code then 1 else 0)
  {
    assert (ms + [m])[..|ms|] == ms;
  }

  lemma {:induction false} CountPrefix(code: nat, a: seq<Message>, b: seq<Message>)
    requires a <= b
    ensures Count(code, a) <= Count(code, b)
  {
    if |a| < |b| {
      CountPrefix(code, a, b[..|b| - 1]);
    } else {
      assert a == b;
    }
  }

  /** Handlers waiting for a connection, and handlers in the middle of a transfer. */
  function Accepting(cs: seq<Cont>): (n: nat)
    ensures n <= |cs|
  {
    if cs == [] then 0 else Accepting(cs[..|cs| - 1]) + (if cs[|cs| - 1].Accept? then 1 else 0)
  }

  function Transferring(cs: seq<Cont>): nat { |cs| - Accepting(cs) }

  lemma {:induction false} AcceptingAppend(a: seq<Cont>, b: seq<Cont>)
    ensures Accepting(a + b) == Accepting(a) + Accepting(b)
  {
    if b == [] {
      assert a + b == a;
    } else {
      assert (a + b)[..|a + b| - 1] == a + b[..|b| - 1];
      AcceptingAppend(a, b[..|b| - 1]);
    }
  }

  lemma AcceptingOne(c: Cont)
    ensures Accepting([c]) == if c.Accept? then 1 else 0
  {
    assert [c][..0] == [];
  }

  lemma AcceptingMiddle(a: seq<Cont>, c: Cont, b: seq<Cont>)
    ensures Accepting(a + [c] + b) == Accepting(a + b) + (if c.Accept? then 1 else 0)
  {
    AcceptingAppend(a, b);
    AcceptingAppend(a + [c], b);
    AcceptingAppend(a, [c]);
    AcceptingOne(c);
  }

  lemma AcceptingTake(cs: seq<Cont>, i: nat, more: seq<Cont>)
    requires i < |cs|
    ensures Accepting(cs[..i] + cs[i + 1..] + more) + (if cs[i].Accept? then 1 else 0) ==
            Accepting(cs) + Accepting(more)
  {
    var a, b, c := cs[..i], cs[i + 1..], cs[i];
    assert a + [c] + b == cs;
    AcceptingSplit(a, c, b, more);
  }

  lemma AcceptingSplit(a: seq<Cont>, c: Cont, b: seq<Cont>, more: seq<Cont>)
    ensures Accepting(a + b + more) + (if c.Accept? then 1 else 0) == Accepting(a + [c] + b) + Accepting(more)
  {
    AcceptingAppend(a + b, more);
    AcceptingMiddle(a, c, b);
  }

  lemma {:induction false} NoneAccepting(cs: seq<Cont>)
    requires Accepting(cs) == 0
    ensures forall c :: c in cs ==> !c.Accept?
  {
    if cs != [] {
      NoneAccepting(cs[..|cs| - 1]);
    }
  }

  // ---------------------------------------------------------------- reply codes

  /** Commands that answer at once never announce or complete a transfer, and they leave the
      acceptor listening only with a 227, or as they found it. */
  lemma AnswerCode(cfg: Config, p: Props, kind: Kind, req: Request)
    requires !IsTransfer(kind)
    ensures var (q, reply) := Answer(cfg, p, kind, req);
            && reply.code != DATA_CONN && reply.code != TRANSFER_COMPLETE
            && (q.acceptor.Listening? ==> reply.code == PASV_OK || q.acceptor == p.acceptor)
  {
  }

  lemma RefusalCode(cfg: Config, p: Props, kind: Kind, body: string)
    requires IsTransfer(kind) && OpenTransfer(cfg, p, kind, body).Refused?
    ensures OpenTransfer(cfg, p, kind, body).reply.code in {NOPERM_FILEFATAL, UPLOAD_FAIL}
  {
  }

  lemma RejectCode(p: Props, req: Request)
    requires RouteOf(p, req).Reject?
    ensures RouteOf(p, req).reply.code in {NOT_ALLOWED, LOGGED_ON, SYNTAX_ERROR}
  {
  }

  /** What one command writes and starts. */
  ghost predicate LineReply(s: State, t: State) {
    && t.hist.delivered == s.hist.delivered && (forall m :: m in t.ctl.queue && m.token.Start? ==> m in s.ctl.queue)
    && (|| (t.hist.logged == s.hist.logged && t.heap.conts == s.heap.conts && t.props == s.props)
        || (&& t.hist.logged == s.hist.logged && t.props == s.props && !s.props.acceptor.Closed?
            && t.heap.conts == s.heap.conts + [Accept(s.heap.next, s.props.acceptor.Listening?)])
        || (exists m: Message :: Replied(s, t, m)))
  }

  // one reply, which neither announces nor completes a transfer
  ghost predicate Replied(s: State, t: State, m: Message) {
    && t.hist.logged == s.hist.logged + [m] && m.token.NoToken? && t.heap.conts == s.heap.conts
    && m.reply.code != DATA_CONN && m.reply.code != TRANSFER_COMPLETE
    && (t.props.acceptor.Listening? ==> m.reply.code == PASV_OK || t.props.acceptor == s.props.acceptor)
  }

  lemma LineReplies(cfg: Config, s: State)
    ensures LineReply(s, OnLine(cfg, s))
  {
    LineEffect(cfg, s);
    var u := OnLine(cfg, s);
    var parsed := ParseLine(FirstLine(s));
    if parsed.Some? {
      var req := parsed.value;
      match RouteOf(s.props, req)
      case Reject(reply) =>
        RejectCode(s.props, req);
        assert Replied(s, u, Message(reply, NoToken));
      case Run(kind) =>
        if IsTransfer(kind) {
          TransferReplies(cfg, s, u, kind, req);
        } else {
          AnswerCode(cfg, s.props, kind, req);
          assert Replied(s, u, Message(Answer(cfg, s.props, kind, req).1, NoToken));
        }
    }
  }

  lemma TransferReplies(cfg: Config, s: State, u: State, kind: Kind, req: Request)
    requires IsTransfer(kind)
    requires TransferOutcome(AtLine(s), u, kind, req, OpenTransfer(cfg, s.props, kind, req.body))
    ensures LineReply(s, u)
  {
    var got := OpenTransfer(cfg, s.props, kind, req.body);
    if !(got.Ready? && !s.props.acceptor.Closed?) {
      if got.Refused? { RefusalCode(cfg, s.props, kind, req.body); }
      assert Replied(s, u, Message(if got.Ready? then Code(INVALID_SEQ) else got.reply, NoToken));
    }
  }

  /** A run in which only the daemon's own tokens run; none of them writes a reply. */
  predicate OwnTokens(es: seq<Event>) { forall e :: e in es ==> !e.Reenters? }

  // ---------------------------------------------------------------- each operation's own 150

  /** Operation `op` has its 150 among the messages. */
  ghost predicate HasStart(ms: seq<Message>, op: OpId) {
    exists m :: m in ms && m.token == Start(op) && m.reply.code == DATA_CONN
  }

  /** Only a 150 carries the start of a transfer, and a handler of a transfer under way means
      that its operation's own 150 has been delivered. */
  ghost predicate Announced(s: State) {
    && (forall m :: m in s.ctl.queue && m.token.Start? ==> m.reply.code == DATA_CONN)
    && (forall c :: c in s.heap.conts && !c.Accept? ==> HasStart(s.hist.delivered, c.op))
  }

  lemma StartKept(a: seq<Message>, b: seq<Message>, op: OpId)
    requires HasStart(a, op) && a <= b
    ensures HasStart(b, op)
  {
  }

  // nothing is announced or started
  lemma AnnouncedFrame(s: State, t: State)
    requires Announced(s) && s.hist.delivered <= t.hist.delivered
    requires forall m :: m in t.ctl.queue && m.token.Start? ==> m in s.ctl.queue || m.reply.code == DATA_CONN
    requires forall c :: c in t.heap.conts && !c.Accept? ==> c in s.heap.conts || HasStart(t.hist.delivered, c.op)
    ensures Announced(t)
  {
    forall c | c in t.heap.conts && !c.Accept? ensures HasStart(t.hist.delivered, c.op) {
      if c in s.heap.conts {
        StartKept(s.hist.delivered, t.hist.delivered, c.op);
      }
    }
  }

  lemma ReenteredAnnounced(cfg: Config, s: State, calls: seq<Message>)
    requires Announced(s) && s.ctl.queue != [] && s.ctl.writes != []
    requires Callable(calls) && (s.ctl.queue[0].token.NoToken? ==> calls == [])
    ensures Announced(OnReentered(cfg, s, calls))
  {
    ReenteredEffect(cfg, s, calls);
    var m := s.ctl.queue[0];
    assert m in s.ctl.queue && m in s.hist.delivered + [m];
    AnnouncedFrame(s, OnReentered(cfg, s, calls));
  }

  lemma EndedAnnounced(s: State, t: State, i: nat)
    requires Announced(s) && DataStep(s, t, i)
    ensures Announced(t)
  {
    var outcome: Outcome, sends, recvs, dataOut :|
      && DataEnded(s, t, i, outcome, sends, recvs, dataOut)
      && (outcome.Again? ==> !outcome.c.Accept? && outcome.c.op == s.heap.conts[i].op);
    assert s.heap.conts[i] in s.heap.conts;
    AnnouncedFrame(s, t);
  }

  lemma StepAnnounced(cfg: Config, s: State, e: Event)
    requires Announced(s) && Enabled(cfg, s, e)
    ensures Announced(Step(cfg, s, e))
  {
    var t := Step(cfg, s, e);
    if e.Sendable? || e.Receivable? || e.Listed? {
      IsDataStep(cfg, s, e);
      EndedAnnounced(s, t, e.i);
    } else if IsQuiet(e) {
      QuietStepped(cfg, s, e);
      AnnouncedFrame(s, t);
    } else if e.Line? {
      LineReplies(cfg, s);
      AnnouncedFrame(s, t);
    } else if e.AcceptOk? {
      AcceptedAnnounced(cfg, s, e.i);
    } else if e.AcceptFailed? {
      AcceptFailedAnnounced(cfg, s, e.i, e.aborted);
    } else {
      WriteAnnounced(cfg, s, e);
    }
  }

  lemma AcceptedAnnounced(cfg: Config, s: State, i: nat)
    requires Announced(s) && i < |s.heap.conts|
    ensures Announced(OnAccepted(cfg, s, i))
  {
    AcceptedEffect(cfg, s, i);
    OneAnnounced(s, OnAccepted(cfg, s, i), i, [Message(Code(DATA_CONN), Start(s.heap.conts[i].op))]);
  }

  lemma AcceptFailedAnnounced(cfg: Config, s: State, i: nat, aborted: bool)
    requires Announced(s) && i < |s.heap.conts|
    ensures Announced(OnAcceptFailed(cfg, s, i, aborted))
  {
    AcceptFailedEffect(cfg, s, i, aborted);
    assert s.ctl.queue + [] == s.ctl.queue;
    OneAnnounced(s, OnAcceptFailed(cfg, s, i, aborted), i, []);
  }

  lemma OneAnnounced(s: State, t: State, i: nat, more: seq<Message>)
    requires Announced(s) && i < |s.heap.conts| && forall m :: m in more ==> m.reply.code == DATA_CONN
    requires t.heap.conts == s.heap.conts[..i] + s.heap.conts[i + 1..]
    requires t.ctl.queue == s.ctl.queue + more && t.hist.delivered == s.hist.delivered
    ensures Announced(t)
  {
    AnnouncedFrame(s, t);
  }

  lemma WriteAnnounced(cfg: Config, s: State, e: Event)
    requires Announced(s) && Enabled(cfg, s, e) && (e.Written? || e.Reenters? || e.WriteFailed?)
    ensures Announced(Step(cfg, s, e))
  {
    if e.Reenters? {
      ReenteredAnnounced(cfg, s, e.calls);
    } else if !s.ctl.phase.Starting? {
      if e.Written? {
        ReenteredAnnounced(cfg, s, []);
      } else {
        WriteFailedEffect(cfg, s);
        AnnouncedFrame(s, Step(cfg, s, e));
      }
    }
  }

  lemma {:induction false} AnnouncedThroughout(cfg: Config, now: int, es: seq<Event>)
    ensures Announced(Reach(cfg, now, es))
  {
    if es != [] {
      var s, e := Reach(cfg, now, es[..|es| - 1]), es[|es| - 1];
      AnnouncedThroughout(cfg, now, es[..|es| - 1]);
      if Enabled(cfg, s, e) {
        StepAnnounced(cfg, s, e);
      }
    }
  }

  /** Which event writes a 226. */
  ghost predicate Completes(s: State, t: State) {
    exists k :: |s.hist.logged| <= k < |t.hist.logged| && t.hist.logged[k].reply.code == TRANSFER_COMPLETE
  }

  lemma OnlyDataCompletes(cfg: Config, s: State, e: Event)
    requires Enabled(cfg, s, e) && !e.Reenters? && Completes(s, Step(cfg, s, e))
    ensures e.Sendable? || e.Receivable? || e.Listed?
  {
    if e.Line? {
      LineReplies(cfg, s);
    } else if IsQuiet(e) {
      QuietStepped(cfg, s, e);
    } else if e.AcceptOk? {
      AcceptedEffect(cfg, s, e.i);
    } else if e.AcceptFailed? {
      AcceptFailedEffect(cfg, s, e.i, e.aborted);
    } else if e.Written? || e.WriteFailed? {
      WriteCompletesNothing(cfg, s, e);
    }
  }

  lemma WriteCompletesNothing(cfg: Config, s: State, e: Event)
    requires Enabled(cfg, s, e) && (e.Written? || e.WriteFailed?)
    ensures Step(cfg, s, e).hist.logged == s.hist.logged
  {
    if !s.ctl.phase.Starting? {
      if e.Written? { WrittenEffect(cfg, s); } else { WriteFailedEffect(cfg, s); }
    }
  }

  /** On every run: whatever writes a 226, other than a foreign token, is an event of a data
      handler, and the 150 of that very operation has been delivered before. */
  lemma OwnStartFirst(cfg: Config, now: int, es: seq<Event>, e: Event)
    requires var s := Reach(cfg, now, es); Enabled(cfg, s, e) && !e.Reenters? && Completes(s, Step(cfg, s, e))
    ensures e.Sendable? || e.Receivable? || e.Listed?
    ensures var s := Reach(cfg, now, es);
            e.i < |s.heap.conts| && HasStart(s.hist.delivered, s.heap.conts[e.i].op)
  {
    var s := Reach(cfg, now, es);
    OnlyDataCompletes(cfg, s, e);
    AnnouncedThroughout(cfg, now, es);
    IsDataStep(cfg, s, e);
    assert s.heap.conts[e.i] in s.heap.conts;
  }

  // ---------------------------------------------------------------- who writes a 150

  /** No reply announces a data connection. */
  ghost predicate Unannounced(ms: seq<Message>) { forall m :: m in ms ==> m.reply.code != DATA_CONN }

  /** A 150 is only written when a data connection has been accepted. */
  lemma OnlyAcceptAnnounces(cfg: Config, s: State, e: Event)
    requires Unannounced(s.hist.logged) && !e.AcceptOk? && !e.Reenters?
    ensures Unannounced(Step(cfg, s, e).hist.logged)
  {
    if Enabled(cfg, s, e) {
      if e.Sendable? || e.Receivable? || e.Listed? {
        IsDataStep(cfg, s, e);
        DataAnnounces(s, Step(cfg, s, e), e.i);
      } else if e.Line? {
        LineReplies(cfg, s);
        LineAnnounces(s, OnLine(cfg, s));
      } else if e.AcceptFailed? {
        AcceptFailedEffect(cfg, s, e.i, e.aborted);
      } else if IsQuiet(e) {
        QuietStepped(cfg, s, e);
      } else {
        WriteCompletesNothing(cfg, s, e);
      }
    }
  }

  lemma DataAnnounces(s: State, t: State, i: nat)
    requires Unannounced(s.hist.logged) && DataStep(s, t, i)
    ensures Unannounced(t.hist.logged)
  {
  }

  lemma LineAnnounces(s: State, t: State)
    requires Unannounced(s.hist.logged) && LineReply(s, t)
    ensures Unannounced(t.hist.logged)
  {
  }

  // ---------------------------------------------------------------- 226 after 150

  /** Only a 150 carries a token; completions and transfers under way are covered by delivered 150s. */
  ghost predicate StartsCover(s: State) {
    && (forall m :: m in s.ctl.queue && m.token.Start? ==> m.reply.code == DATA_CONN)
    && Count(TRANSFER_COMPLETE, s.hist.logged) + Transferring(s.heap.conts) <= Count(DATA_CONN, s.hist.delivered)
  }

  lemma DataEndCovers(s: State, t: State, i: nat)
    requires StartsCover(s) && DataStep(s, t, i)
    ensures StartsCover(t)
  {
    var outcome: Outcome, sends, recvs, dataOut :|
      DataEnded(s, t, i, outcome, sends, recvs, dataOut) && (outcome.Again? ==> !outcome.c.Accept?);
    OutcomeCovers(s, t, i, outcome, sends, recvs, dataOut);
  }

  lemma OutcomeCovers(s: State, t: State, i: nat, outcome: Outcome, sends: map<OpId, SendFile.Transfer>,
                      recvs: map<OpId, RecvFile.Receiver>, dataOut: string)
    requires StartsCover(s) && i < |s.heap.conts| && !s.heap.conts[i].Accept?
    requires DataEnded(s, t, i, outcome, sends, recvs, dataOut) && (outcome.Again? ==> !outcome.c.Accept?)
    ensures StartsCover(t)
  {
    var more := if outcome.Again? then [outcome.c] else [];
    TransferringTake(s.heap.conts, i, more);
    var m := Message(Code(TRANSFER_COMPLETE), NoToken);
    CountSnoc(TRANSFER_COMPLETE, s.hist.logged, m);
    CompletionCode();
    assert t.heap.conts == s.heap.conts[..i] + s.heap.conts[i + 1..] + more;
    assert forall x :: x in t.ctl.queue ==> x in s.ctl.queue || x == m;
  }

  lemma CompletionCode()
    ensures Code(TRANSFER_COMPLETE).code == TRANSFER_COMPLETE
  {
  }

  // a handler that is not waiting for a connection ends, and at most one like it follows
  lemma TransferringTake(cs: seq<Cont>, i: nat, more: seq<Cont>)
    requires i < |cs| && !cs[i].Accept? && |more| <= 1 && forall c :: c in more ==> !c.Accept?
    ensures Transferring(cs[..i] + cs[i + 1..] + more) == Transferring(cs) - 1 + |more|
  {
    AcceptingTake(cs, i, more);
    if more != [] {
      assert more == [more[0]];
      AcceptingOne(more[0]);
    }
  }

  lemma LineCovers(cfg: Config, s: State)
    requires StartsCover(s)
    ensures StartsCover(OnLine(cfg, s))
  {
    LineReplies(cfg, s);
    var t := OnLine(cfg, s);
    AcceptingAppend(s.heap.conts, [Accept(s.heap.next, s.props.acceptor.Listening?)]);
    AcceptingOne(Accept(s.heap.next, s.props.acceptor.Listening?));
    if t.hist.logged != s.hist.logged {
      var m: Message :| Replied(s, t, m);
      CountSnoc(TRANSFER_COMPLETE, s.hist.logged, m);
    }
  }

  lemma WrittenCovers(cfg: Config, s: State)
    requires StartsCover(s) && s.ctl.queue != [] && s.ctl.writes != []
    ensures StartsCover(OnWritten(cfg, s))
  {
    WrittenEffect(cfg, s);
    var m := s.ctl.queue[0];
    assert m in s.ctl.queue;
    WaitAccepts(s, m);
    CountSnoc(DATA_CONN, s.hist.delivered, m);
  }

  lemma AcceptedCovers(cfg: Config, s: State, i: nat)
    requires StartsCover(s) && i < |s.heap.conts| && s.heap.conts[i].Accept?
    ensures StartsCover(OnAccepted(cfg, s, i))
  {
    AcceptedEffect(cfg, s, i);
    AcceptingTake(s.heap.conts, i, []);
    assert s.heap.conts[..i] + s.heap.conts[i + 1..] + [] == s.heap.conts[..i] + s.heap.conts[i + 1..];
    CountSnoc(TRANSFER_COMPLETE, s.hist.logged, Message(Code(DATA_CONN), Start(s.heap.conts[i].op)));
  }

  lemma AcceptFailedCovers(cfg: Config, s: State, i: nat, aborted: bool)
    requires StartsCover(s) && i < |s.heap.conts| && s.heap.conts[i].Accept?
    ensures StartsCover(OnAcceptFailed(cfg, s, i, aborted))
  {
    AcceptFailedEffect(cfg, s, i, aborted);
    AcceptingTake(s.heap.conts, i, []);
    assert s.heap.conts[..i] + s.heap.conts[i + 1..] + [] == s.heap.conts[..i] + s.heap.conts[i + 1..];
  }

  lemma StepCovers(cfg: Config, s: State, e: Event)
    requires StartsCover(s) && !e.Reenters?
    ensures StartsCover(Step(cfg, s, e))
  {
    if Enabled(cfg, s, e) {
      if e.Sendable? || e.Receivable? || e.Listed? {
        IsDataStep(cfg, s, e);
        DataEndCovers(s, Step(cfg, s, e), e.i);
      } else {
        match e
        case Written => if !s.ctl.phase.Starting? { WrittenCovers(cfg, s); }
        case WriteFailed => if !s.ctl.phase.Starting? { WriteFailedEffect(cfg, s); }
        case Line => LineCovers(cfg, s);
        case AcceptOk(i) => AcceptedCovers(cfg, s, i);
        case AcceptFailed(i, aborted) => AcceptFailedCovers(cfg, s, i, aborted);
        case _ =>
      }
    }
  }

  /** On every run of the daemon's own tokens there are never more 226 replies written than 150 replies delivered. */
  lemma {:induction false} CompletionsFollowStarts(cfg: Config, now: int, es: seq<Event>)
    requires OwnTokens(es)
    ensures var s := Reach(cfg, now, es);
            StartsCover(s) && Count(226, s.hist.logged) <= Count(150, s.hist.delivered)
  {
    if es != [] {
      assert es[|es| - 1] in es && forall e :: e in es[..|es| - 1] ==> e in es;
      CompletionsFollowStarts(cfg, now, es[..|es| - 1]);
      StepCovers(cfg, Reach(cfg, now, es[..|es| - 1]), es[|es| - 1]);
    }
  }

  // ---------------------------------------------------------------- 150 after 227

  /** At no time in the run do two transfer commands wait for their connections. */
  ghost predicate Serial(cfg: Config, now: int, es: seq<Event>) {
    && Accepting(Reach(cfg, now, es).heap.conts) <= 1
    && (es != [] ==> Serial(cfg, now, es[..|es| - 1]))
  }

  /** A listening socket, or the handler that waits on it, stands for a 227 without a 150. */
  ghost predicate PassiveCovers(s: State) {
    && Accepting(s.heap.conts) <= 1
    && Count(DATA_CONN, s.hist.logged)
       + (if s.props.acceptor.Listening? || (exists c :: c in s.heap.conts && c.Accept? && c.viable) then 1 else 0)
       <= Count(PASV_OK, s.hist.logged)
  }

  lemma LinePassive(cfg: Config, s: State)
    requires PassiveCovers(s)
    requires Accepting(OnLine(cfg, s).heap.conts) <= 1
    ensures PassiveCovers(OnLine(cfg, s))
  {
    LineReplies(cfg, s);
    var t := OnLine(cfg, s);
    var c := Accept(s.heap.next, s.props.acceptor.Listening?);
    AcceptingAppend(s.heap.conts, [c]);
    AcceptingOne(c);
    if t.hist.logged != s.hist.logged {
      var m: Message :| Replied(s, t, m);
      CountSnoc(DATA_CONN, s.hist.logged, m);
      CountSnoc(PASV_OK, s.hist.logged, m);
    } else if t.heap.conts == s.heap.conts + [c] {
      NoneAccepting(s.heap.conts);
    }
  }

  lemma TakeMembers(cs: seq<Cont>, i: nat, more: seq<Cont>)
    requires i < |cs|
    ensures forall c :: c in cs[..i] + cs[i + 1..] + more ==> c in cs || c in more
  {
  }

  lemma AcceptedPassive(cfg: Config, s: State, i: nat)
    requires PassiveCovers(s) && Enabled(cfg, s, AcceptOk(i))
    ensures PassiveCovers(OnAccepted(cfg, s, i))
  {
    AcceptedEffect(cfg, s, i);
    AcceptingTake(s.heap.conts, i, []);
    var t := OnAccepted(cfg, s, i);
    assert s.heap.conts[..i] + s.heap.conts[i + 1..] + [] == t.heap.conts;
    assert s.heap.conts[i] in s.heap.conts;
    NoneAccepting(t.heap.conts);
    CountSnoc(DATA_CONN, s.hist.logged, Message(Code(DATA_CONN), Start(s.heap.conts[i].op)));
    CountSnoc(PASV_OK, s.hist.logged, Message(Code(DATA_CONN), Start(s.heap.conts[i].op)));
  }

  lemma AcceptFailedPassive(cfg: Config, s: State, i: nat, aborted: bool)
    requires PassiveCovers(s) && Enabled(cfg, s, AcceptFailed(i, aborted))
    ensures PassiveCovers(OnAcceptFailed(cfg, s, i, aborted))
  {
    AcceptFailedEffect(cfg, s, i, aborted);
    AcceptingTake(s.heap.conts, i, []);
    var t := OnAcceptFailed(cfg, s, i, aborted);
    assert s.heap.conts[..i] + s.heap.conts[i + 1..] + [] == t.heap.conts;
    NoneAccepting(t.heap.conts);
  }

  lemma DataEndPassive(s: State, t: State, i: nat)
    requires PassiveCovers(s) && DataStep(s, t, i)
    ensures PassiveCovers(t)
  {
    var outcome: Outcome, sends, recvs, dataOut :|
      DataEnded(s, t, i, outcome, sends, recvs, dataOut) && (outcome.Again? ==> !outcome.c.Accept?);
    var more := if outcome.Again? then [outcome.c] else [];
    AcceptingTake(s.heap.conts, i, more);
    TakeMembers(s.heap.conts, i, more);
    if outcome.Again? {
      AcceptingOne(outcome.c);
    }
    CountSnoc(DATA_CONN, s.hist.logged, Message(Code(TRANSFER_COMPLETE), NoToken));
    CountSnoc(PASV_OK, s.hist.logged, Message(Code(TRANSFER_COMPLETE), NoToken));
  }

  lemma WrittenPassive(cfg: Config, s: State)
    requires PassiveCovers(s) && s.ctl.queue != [] && s.ctl.writes != []
    ensures PassiveCovers(OnWritten(cfg, s))
  {
    WrittenEffect(cfg, s);
    WaitAccepts(s, s.ctl.queue[0]);
    SamePassive(s, OnWritten(cfg, s), WaitOf(s, s.ctl.queue[0]));
  }

  // the wait of a delivered 150 is not one for a connection
  lemma WaitAccepts(s: State, m: Message)
    ensures Accepting(s.heap.conts + WaitOf(s, m)) == Accepting(s.heap.conts)
    ensures forall c :: c in WaitOf(s, m) ==> !c.Accept?
  {
    AcceptingAppend(s.heap.conts, WaitOf(s, m));
    if WaitOf(s, m) != [] {
      AcceptingOne(WaitOf(s, m)[0]);
    }
  }

  lemma SamePassive(s: State, t: State, more: seq<Cont>)
    requires PassiveCovers(s) && t.props == s.props && t.hist.logged == s.hist.logged
    requires t.heap.conts == s.heap.conts + more && Accepting(t.heap.conts) == Accepting(s.heap.conts)
    requires forall c :: c in more ==> !c.Accept?
    ensures PassiveCovers(t)
  {
  }

  lemma TransferPassive(cfg: Config, s: State, e: Event)
    requires PassiveCovers(s) && Enabled(cfg, s, e)
    requires e.AcceptOk? || e.AcceptFailed? || e.Sendable? || e.Receivable? || e.Listed?
    ensures PassiveCovers(Step(cfg, s, e))
  {
    if e.AcceptOk? {
      AcceptedPassive(cfg, s, e.i);
    } else if e.AcceptFailed? {
      AcceptFailedPassive(cfg, s, e.i, e.aborted);
    } else {
      IsDataStep(cfg, s, e);
      DataEndPassive(s, Step(cfg, s, e), e.i);
    }
  }

  lemma StepPassive(cfg: Config, s: State, e: Event)
    requires PassiveCovers(s) && !e.Reenters?
    requires Accepting(Step(cfg, s, e).heap.conts) <= 1
    ensures PassiveCovers(Step(cfg, s, e))
  {
    if Enabled(cfg, s, e) {
      if e.AcceptOk? || e.AcceptFailed? || e.Sendable? || e.Receivable? || e.Listed? {
        TransferPassive(cfg, s, e);
      } else {
        match e
        case Written => if !s.ctl.phase.Starting? { WrittenPassive(cfg, s); }
        case WriteFailed => if !s.ctl.phase.Starting? { WriteFailedEffect(cfg, s); }
        case Line => LinePassive(cfg, s);
        case _ =>
      }
    }
  }

  /** On every run with serial transfers: 226 <= 150 <= 227 among the replies. */
  lemma {:induction false} TransfersAreBracketed(cfg: Config, now: int, es: seq<Event>)
    requires Serial(cfg, now, es) && OwnTokens(es)
    ensures var s := Reach(cfg, now, es);
            && PassiveCovers(s)
            && Count(226, s.hist.logged) <= Count(150, s.hist.logged)
            && Count(150, s.hist.logged) <= Count(227, s.hist.logged)
  {
    var t := Reach(cfg, now, es);
    CompletionsFollowStarts(cfg, now, es);
    AlwaysInv(cfg, now, es);
    assert t.hist.delivered <= t.hist.logged;
    CountPrefix(DATA_CONN, t.hist.delivered, t.hist.logged);
    if es != [] {
      assert es[|es| - 1] in es && forall e :: e in es[..|es| - 1] ==> e in es;
      TransfersAreBracketed(cfg, now, es[..|es| - 1]);
      StepPassive(cfg, Reach(cfg, now, es[..|es| - 1]), es[|es| - 1]);
    }
  }

  /** ... and the same in every prefix of the replies, so the client sees them bracketed at any moment. */
  lemma {:induction false} BracketedThroughout(cfg: Config, now: int, es: seq<Event>, k: nat)
    requires Serial(cfg, now, es) && OwnTokens(es) && k <= |Reach(cfg, now, es).hist.logged|
    ensures var log := Reach(cfg, now, es).hist.logged[..k];
            Count(226, log) <= Count(150, log) <= Count(227, log)
  {
    var t := Reach(cfg, now, es);
    TransfersAreBracketed(cfg, now, es);
    if k == |t.hist.logged| {
      assert t.hist.logged[..k] == t.hist.logged;
    } else if es != [] {
      var s := Reach(cfg, now, es[..|es| - 1]);
      assert es[|es| - 1] in es && forall e :: e in es[..|es| - 1] ==> e in es;
      if Enabled(cfg, s, es[|es| - 1]) { StepEffect(cfg, s, es[|es| - 1]); }
      BracketedThroughout(cfg, now, es[..|es| - 1], k);
      assert t.hist.logged[..k] == s.hist.logged[..k];
    }
  }
}
