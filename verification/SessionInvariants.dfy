/** What every reachable state of a session satisfies. */
module SessionInvariants {
  import opened Text
  import opened Requests
  import opened Replies
  import opened Commands
  import opened Engine
  import SendFile
  import RecvFile

  // ---------------------------------------------------------------- reference accounting

  function QueueRefs(ms: seq<Message>): multiset<OpId> {
    if ms == [] then multiset{} else TokenRefs(ms[0].token) + QueueRefs(ms[1..])
  }

  function ContRefs(cs: seq<Cont>): multiset<OpId> {
    if cs == [] then multiset{} else multiset{cs[0].op} + ContRefs(cs[1..])
  }

  lemma {:induction false} QueueRefsSnoc(ms: seq<Message>, m: Message)
    ensures QueueRefs(ms + [m]) == QueueRefs(ms) + TokenRefs(m.token)
  {
    if ms != [] {
      assert (ms + [m])[1..] == ms[1..] + [m];
      QueueRefsSnoc(ms[1..], m);
    }
  }

  lemma {:induction false} ContRefsAppend(a: seq<Cont>, b: seq<Cont>)
    ensures ContRefs(a + b) == ContRefs(a) + ContRefs(b)
  {
    if a == [] {
      assert a + b == b;
    } else {
      assert (a + b)[1..] == a[1..] + b;
      ContRefsAppend(a[1..], b);
    }
  }

  lemma ContRefsTake(cs: seq<Cont>, i: nat)
    requires i < |cs|
    ensures ContRefs(cs) == ContRefs(cs[..i] + cs[i + 1..]) + multiset{cs[i].op}
  {
    assert cs == cs[..i] + cs[i..];
    ContRefsAppend(cs[..i], cs[i..]);
    ContRefsAppend(cs[..i], cs[i + 1..]);
  }

  lemma ContRefsAdd(cs: seq<Cont>, c: Cont)
    ensures ContRefs(cs + [c]) == ContRefs(cs) + multiset{c.op}
  {
    ContRefsAppend(cs, [c]);
    assert [c][1..] == [];
  }

  /** The reference counts are exactly the references held; the live operations are the
      referenced ones, and active_op_num is their number. */
  ghost predicate Counted(h: Heap, held: multiset<OpId>) {
    && h.refs == held
    && (forall id :: id in h.refs <==> id in h.ops)
    && h.active == |h.ops|
    && (forall id :: id in h.ops ==> id < h.next)
  }

  /** The references that exist between handlers: queued tokens and waiting handlers. */
  function Holders(s: State): multiset<OpId> { QueueRefs(s.ctl.queue) + ContRefs(s.heap.conts) }

  /** Reference accounting; `frame` is what the running handler holds. */
  ghost predicate HeapOk(s: State, frame: multiset<OpId>) {
    Counted(s.heap, Holders(s) + frame)
  }

  // what Release and Destroy do to the heap
  function DropRef(h: Heap, op: OpId): Heap {
    var refs := h.refs - multiset{op};
    if op in refs then h.(refs := refs) else h.(refs := refs, ops := h.ops - {op}, active := h.active - 1)
  }

  lemma DropRefCounted(h: Heap, op: OpId, held: multiset<OpId>)
    requires Counted(h, held + multiset{op})
    ensures Counted(DropRef(h, op), held)
  {
    var refs := h.refs - multiset{op};
    assert refs == held;
    assert op in h.refs;
    if op !in refs {
      assert (h.ops - {op}).Keys == h.ops.Keys - {op};
    }
  }

  lemma AddRefCounted(h: Heap, more: multiset<OpId>, held: multiset<OpId>)
    requires Counted(h, held) && forall id :: id in more ==> id in held
    ensures Counted(h.(refs := h.refs + more), held + more)
  {
  }

  lemma LiveIsActive(h: Heap, held: multiset<OpId>, op: OpId)
    requires Counted(h, held) && op in held
    ensures h.active > 0
  {
    assert op in h.ops;
  }

  // ---------------------------------------------------------------- idle timer

  /** Nothing is going on, and the last thing that happened was not a failed write that dropped
      the replies of operations already gone. */
  ghost predicate AtRest(s: State) { !Pending(s) && !s.hist.stalled }

  /** The idle timer's whole contract. While the session is open one idle wait is pending
      or queued, and the deadline is finite exactly when the session is at rest. After an
      end of file with live operations the keep-alive wait is released exactly then. */
  ghost predicate TimerOk(cfg: Config, s: State) {
    && (s.hist.stalled ==> !Pending(s))
    && (!s.ctl.stopped ==>
          && s.tmr.armed + s.tmr.fired == 1 && s.tmr.keep + s.tmr.released == 0
          && (s.tmr.expiry.At? <==> AtRest(s))
          && (s.tmr.expiry.At? ==> s.tmr.expiry.time == s.tmr.since + cfg.maxIdleTimeout * SendFile.SECOND))
    && (s.ctl.stopped && s.tmr.keep + s.tmr.released > 0 ==>
          && !s.ctl.reading && s.tmr.keep + s.tmr.released == 1
          && (s.tmr.keep > 0 ==> s.tmr.expiry.Never?)
          && (s.tmr.released == 1 <==> AtRest(s)))
  }

  /** Inside a handler: the deadline is off, and somebody still has to settle it. */
  ghost predicate TimerOwed(s: State) {
    && !s.hist.stalled
    && (!s.ctl.stopped ==>
          s.tmr.armed + s.tmr.fired == 1 && s.tmr.keep + s.tmr.released == 0 && s.tmr.expiry.Never?)
    && (s.ctl.stopped && s.tmr.keep + s.tmr.released > 0 ==>
          !s.ctl.reading && s.tmr.keep == 1 && s.tmr.released == 0 && s.tmr.expiry.Never?)
  }

  lemma OwedIsOk(cfg: Config, s: State)
    requires Pending(s)
    ensures TimerOwed(s) <==> TimerOk(cfg, s)
  {
  }

  lemma SettleOk(cfg: Config, s: State)
    requires TimerOwed(s)
    ensures TimerOk(cfg, Settle(cfg, s))
  {
  }

  // ---------------------------------------------------------------- control channel

  function Texts(ms: seq<Message>): string {
    if ms == [] then "" else Texts(ms[..|ms| - 1]) + ms[|ms| - 1].reply.text
  }

  lemma TextsSnoc(ms: seq<Message>, m: Message)
    ensures Texts(ms + [m]) == Texts(ms) + m.reply.text
  {
    assert (ms + [m])[..|ms|] == ms;
  }

  /** A write is outstanding exactly when the queue is not empty, there is only one, and it
      carries the front message. */
  ghost predicate SingleWriter(s: State) {
    s.ctl.writes == if s.ctl.queue == [] then [] else [s.ctl.queue[0].reply.text]
  }

  /** The call of a token, if there is one. */
  function Called(token: Token): seq<Token> { if token.NoToken? then [] else [token] }

  function TokensOf(ms: seq<Message>): seq<Token> {
    if ms == [] then [] else TokensOf(ms[..|ms| - 1]) + Called(ms[|ms| - 1].token)
  }

  /** Until a write fails, what was delivered and what is queued is together what was
      written; the tokens of exactly the delivered messages have run, once and in order. */
  ghost predicate QueueOk(s: State) { LogOk(s.hist, s.ctl.queue) }

  ghost predicate LogOk(h: History, queue: seq<Message>) {
    && (!h.writeFailed ==> h.logged == h.delivered + queue)
    && h.delivered <= h.logged
    && h.ran == TokensOf(h.delivered)
  }

  // the front message is delivered, and its token writes `calls`
  lemma LogPop(h: History, queue: seq<Message>, calls: seq<Message>)
    requires LogOk(h, queue) && queue != [] && !h.writeFailed
    ensures LogOk(h.(delivered := h.delivered + [queue[0]], ran := h.ran + Called(queue[0].token),
                     logged := h.logged + calls), queue[1..] + calls)
  {
    assert (h.delivered + [queue[0]])[..|h.delivered|] == h.delivered;
    assert h.delivered + queue + calls == h.delivered + [queue[0]] + (queue[1..] + calls);
  }

  /** The wire carries the welcome line, the delivered replies and the part of the front reply that has left. */
  ghost predicate WireOk(cfg: Config, s: State) {
    if s.hist.writeFailed then s.hist.wire <= Banner(cfg) + Texts(s.hist.logged)
    else if s.ctl.writes == [] then s.hist.wire == Banner(cfg) + Texts(s.hist.delivered)
    else
      && s.ctl.pushed <= |s.ctl.writes[0]|
      && s.hist.wire == Banner(cfg) + Texts(s.hist.delivered) + s.ctl.writes[0][..s.ctl.pushed]
  }

  /** No byte of the input is lost: whole lines have been consumed, the rest is in the buffer. */
  ghost predicate InputOk(s: State) {
    && s.hist.received == s.hist.consumed + s.ctl.buf
    && Remainder(s.hist.consumed) == ""
  }

  // ---------------------------------------------------------------- the invariant

  /** Before the welcome line is out, or if it never gets out: nothing has happened. */
  ghost predicate Quiet(cfg: Config, s: State) {
    && s.ctl.queue == [] && s.ctl.buf == "" && !s.ctl.reading && !s.ctl.stopped
    && s.tmr.expiry.Never? && s.tmr.armed + s.tmr.fired + s.tmr.keep + s.tmr.released == 0
    && HeapOk(s, multiset{}) && s.heap.ops == map[]
    && s.hist.logged == [] && s.hist.delivered == [] && s.hist.ran == []
    && s.hist.received == "" && s.hist.consumed == "" && !s.hist.stalled
    && s.ctl.pushed <= |Banner(cfg)| && s.hist.wire == Banner(cfg)[..s.ctl.pushed]
    && s.ctl.writes == (if s.ctl.phase.Starting? then [Banner(cfg)] else [])
    && s.hist.writeFailed == s.ctl.phase.Dead?
  }

  ghost predicate Common(cfg: Config, s: State) {
    && s.ctl.phase.Started? && SingleWriter(s) && QueueOk(s) && WireOk(cfg, s) && InputOk(s)
    && s.tmr.since <= s.tmr.now
  }

  ghost predicate Done(cfg: Config, s: State, frame: multiset<OpId>) {
    Common(cfg, s) && HeapOk(s, frame) && TimerOk(cfg, s)
  }

  ghost predicate Mid(cfg: Config, s: State, frame: multiset<OpId>) {
    Common(cfg, s) && HeapOk(s, frame) && TimerOwed(s)
  }

  ghost predicate Inv(cfg: Config, s: State) {
    if s.ctl.phase.Started? then Done(cfg, s, multiset{}) else Quiet(cfg, s)
  }

  // ---------------------------------------------------------------- primitives

  lemma LiveIsPending(s: State, frame: multiset<OpId>, op: OpId)
    requires HeapOk(s, frame) && op in Holders(s) + frame
    ensures Pending(s)
  {
    LiveIsActive(s.heap, Holders(s) + frame, op);
  }

  lemma WriteHeap(cfg: Config, s: State, reply: Reply, token: Token, frame: multiset<OpId>)
    requires HeapOk(s, frame) && TokenRefs(token) <= frame
    ensures HeapOk(Write(cfg, s, reply, token), frame)
    ensures Write(cfg, s, reply, token).ctl.queue == s.ctl.queue + [Message(reply, token)]
  {
    QueueRefsSnoc(s.ctl.queue, Message(reply, token));
    AddRefCounted(s.heap, TokenRefs(token), Holders(s) + frame);
    var t := Write(cfg, s, reply, token);
    assert Holders(t) + frame == Holders(s) + frame + TokenRefs(token);
  }

  lemma WriteHistory(s: State, m: Message)
    requires QueueOk(s)
    ensures QueueOk(s.(ctl := s.ctl.(queue := s.ctl.queue + [m]), hist := s.hist.(logged := s.hist.logged + [m])))
  {
    assert s.hist.delivered + (s.ctl.queue + [m]) == s.hist.delivered + s.ctl.queue + [m];
  }

  lemma WireTail(cfg: Config, s: State, m: Message)
    ensures s.hist.wire <= Banner(cfg) + Texts(s.hist.logged) ==>
            s.hist.wire <= Banner(cfg) + Texts(s.hist.logged + [m])
    ensures s.hist.wire == Banner(cfg) + Texts(s.hist.delivered) ==>
              s.hist.wire == Banner(cfg) + Texts(s.hist.delivered) + m.reply.text[..0]
  {
    TextsSnoc(s.hist.logged, m);
    assert Banner(cfg) + Texts(s.hist.logged + [m]) == Banner(cfg) + Texts(s.hist.logged) + m.reply.text;
  }

  lemma WriteCommon(cfg: Config, s: State, reply: Reply, token: Token)
    requires Common(cfg, s)
    ensures Common(cfg, Write(cfg, s, reply, token))
  {
    WriteHistory(s, Message(reply, token));
    WireTail(cfg, s, Message(reply, token));
  }

  lemma WriteMid(cfg: Config, s: State, reply: Reply, token: Token, frame: multiset<OpId>)
    requires Mid(cfg, s, frame) && TokenRefs(token) <= frame
    ensures Mid(cfg, Write(cfg, s, reply, token), frame)
    ensures Pending(Write(cfg, s, reply, token))
  {
    WriteHeap(cfg, s, reply, token, frame);
    WriteCommon(cfg, s, reply, token);
  }

  /** Dropping a reference changes the heap, and the timer if that was the last thing going on. */
  lemma ReleaseEffect(cfg: Config, s: State, op: OpId)
    ensures var t := Release(cfg, s, op);
            && t.ctl == s.ctl && t.props == s.props && t.sends == s.sends && t.hist == s.hist
            && t.heap == DropRef(s.heap, op)
            && (t.tmr == s.tmr || t == Settle(cfg, t.(tmr := s.tmr)))
            && (op !in t.heap.refs ==> t == Settle(cfg, t.(tmr := s.tmr)))
  {
  }

  lemma ReleaseTimer(cfg: Config, s: State, op: OpId, frame: multiset<OpId>)
    requires HeapOk(s, frame + multiset{op}) && TimerOwed(s)
    ensures HeapOk(Release(cfg, s, op), frame)
    ensures TimerOk(cfg, Release(cfg, s, op))
  {
    ReleaseEffect(cfg, s, op);
    var t := Release(cfg, s, op);
    assert Holders(s) + (frame + multiset{op}) == Holders(s) + frame + multiset{op};
    DropRefCounted(s.heap, op, Holders(s) + frame);
    if op in t.heap.refs {
      LiveIsPending(t, frame, op);
    }
    SettleOk(cfg, t.(tmr := s.tmr));
  }

  lemma ReleaseMid(cfg: Config, s: State, op: OpId, frame: multiset<OpId>)
    requires Mid(cfg, s, frame + multiset{op})
    ensures Done(cfg, Release(cfg, s, op), frame)
  {
    ReleaseTimer(cfg, s, op, frame);
    ReleaseEffect(cfg, s, op);
  }

  // what Construct does to the heap
  function NewOp(h: Heap, kind: Kind): Heap {
    h.(ops := h.ops[h.next := kind], refs := h.refs + multiset{h.next}, active := h.active + 1, next := h.next + 1)
  }

  lemma NewOpCounted(h: Heap, kind: Kind, held: multiset<OpId>)
    requires Counted(h, held)
    ensures Counted(NewOp(h, kind), held + multiset{h.next})
  {
    assert h.next !in h.ops;
    assert h.ops[h.next := kind].Keys == h.ops.Keys + {h.next};
    assert |h.ops[h.next := kind].Keys| == |h.ops.Keys| + 1;
  }

  lemma ConstructMid(cfg: Config, s: State, kind: Kind, frame: multiset<OpId>)
    requires Mid(cfg, s, frame)
    ensures Mid(cfg, Construct(s, kind), frame + multiset{s.heap.next})
  {
    ConstructHeap(s, kind, frame);
    ConstructCommon(cfg, s, kind);
  }

  lemma ConstructHeap(s: State, kind: Kind, frame: multiset<OpId>)
    requires HeapOk(s, frame)
    ensures HeapOk(Construct(s, kind), frame + multiset{s.heap.next})
  {
    var t := Construct(s, kind);
    NewOpCounted(s.heap, kind, Holders(s) + frame);
    assert t.heap == NewOp(s.heap, kind) && Holders(t) == Holders(s);
    assert Holders(s) + frame + multiset{s.heap.next} == Holders(s) + (frame + multiset{s.heap.next});
  }

  lemma ConstructCommon(cfg: Config, s: State, kind: Kind)
    requires Common(cfg, s)
    ensures Common(cfg, Construct(s, kind))
  {
  }

  lemma AddContHeap(s: State, c: Cont, frame: multiset<OpId>)
    requires HeapOk(s, frame) && c.op in s.heap.ops
    ensures HeapOk(AddCont(s, c), frame)
  {
    ContRefsAdd(s.heap.conts, c);
    AddRefCounted(s.heap, multiset{c.op}, Holders(s) + frame);
    assert Holders(AddCont(s, c)) + frame == Holders(s) + frame + multiset{c.op};
  }

  lemma AddContMid(cfg: Config, s: State, c: Cont, frame: multiset<OpId>)
    requires Mid(cfg, s, frame) && c.op in frame
    ensures Mid(cfg, AddCont(s, c), frame)
  {
    assert c.op in s.heap.refs;
    AddContHeap(s, c, frame);
  }

  lemma TakeContMid(cfg: Config, s: State, i: nat)
    requires Done(cfg, s, multiset{}) && i < |s.heap.conts|
    ensures Mid(cfg, TakeCont(s, i), multiset{s.heap.conts[i].op})
  {
    ContRefsTake(s.heap.conts, i);
    assert s.heap.conts[i].op in Holders(s);
    LiveIsPending(s, multiset{}, s.heap.conts[i].op);
    OwedIsOk(cfg, s);
  }

  lemma {:induction false} TextsAppend(a: seq<Message>, b: seq<Message>)
    ensures Texts(a + b) == Texts(a) + Texts(b)
  {
    if b == [] {
      assert a + b == a;
    } else {
      var init, last := b[..|b| - 1], b[|b| - 1];
      TextsAppend(a, init);
      TextsSnoc(a + init, last);
      assert a + b == a + init + [last];
      Assoc(Texts(a), Texts(init), last.reply.text);
    }
  }

  lemma Assoc(a: string, b: string, c: string)
    ensures a + b + c == a + (b + c)
  {
  }

  lemma RestartOk(cfg: Config, s: State)
    requires TimerOwed(s) && !Pending(s) && (s.ctl.stopped ==> s.tmr.keep + s.tmr.released == 0)
    ensures TimerOk(cfg, Restart(cfg, s))
  {
  }

  // ---------------------------------------------------------------- reading

  lemma TakeLineInput(s: State)
    requires InputOk(s) && LineEnd(s.ctl.buf) > 0
    ensures InputOk(TakeLine(s))
  {
    var n := LineEnd(s.ctl.buf);
    FirstLineIsOneLine(s.ctl.buf);
    LinesSnoc(s.hist.consumed, s.ctl.buf[..n]);
    assert s.ctl.buf == s.ctl.buf[..n] + s.ctl.buf[n..];
    Assoc(s.hist.consumed, s.ctl.buf[..n], s.ctl.buf[n..]);
  }

  lemma SimpleDone(cfg: Config, s: State, kind: Kind, req: Request)
    requires Mid(cfg, s, multiset{}) && !IsTransfer(kind)
    ensures Done(cfg, RunSimple(cfg, s, kind, req), multiset{})
  {
    var id := s.heap.next;
    var none: multiset<OpId> := multiset{};
    ConstructMid(cfg, s, kind, none);
    var t := Construct(s, kind);
    var (props, reply) := Answer(cfg, t.props, kind, req);
    var u := t.(props := props);
    assert Mid(cfg, u, none + multiset{id});
    WriteMid(cfg, u, reply, NoToken, none + multiset{id});
    ReleaseMid(cfg, Write(cfg, u, reply, NoToken), id, none);
  }

  lemma FetchMid(cfg: Config, s: State, op: OpId, frame: multiset<OpId>)
    requires Mid(cfg, s, frame) && op in frame
    ensures Mid(cfg, FetchPassiveConnection(cfg, s, op), frame)
  {
    if s.props.acceptor.Closed? {
      WriteMid(cfg, s, Code(INVALID_SEQ), NoToken, frame);
    } else {
      AddContMid(cfg, s, Accept(op, s.props.acceptor.Listening?), frame);
    }
  }

  lemma StartTransferMid(cfg: Config, s: State, kind: Kind, req: Request, op: OpId, frame: multiset<OpId>)
    requires Mid(cfg, s, frame) && op in frame && IsTransfer(kind)
    ensures Mid(cfg, StartTransfer(cfg, s, kind, req, op), frame)
  {
    match OpenTransfer(cfg, s.props, kind, req.body)
    case Refused(reply) => WriteMid(cfg, s, reply, NoToken, frame);
    case Ready(content) => FetchMid(cfg, OpenFile(s, kind, content, op), op, frame);
  }

  lemma TransferDone(cfg: Config, s: State, kind: Kind, req: Request)
    requires Mid(cfg, s, multiset{}) && IsTransfer(kind)
    ensures Done(cfg, RunTransfer(cfg, s, kind, req), multiset{})
  {
    var id := s.heap.next;
    var none: multiset<OpId> := multiset{};
    ConstructMid(cfg, s, kind, none);
    var t := Construct(s, kind);
    var u := t.(hist := t.hist.(transfers := t.hist.transfers + [req]));
    StartTransferMid(cfg, u, kind, req, id, none + multiset{id});
    ReleaseMid(cfg, StartTransfer(cfg, u, kind, req, id), id, none);
  }

  lemma DispatchDone(cfg: Config, s: State, req: Request)
    requires Mid(cfg, s, multiset{})
    ensures Done(cfg, Dispatch(cfg, s, req), multiset{})
  {
    match RouteOf(s.props, req)
    case Run(kind) =>
      if IsTransfer(kind) {
        TransferDone(cfg, s, kind, req);
      } else {
        SimpleDone(cfg, s, kind, req);
      }
    case Reject(reply) =>
      WriteMid(cfg, s, reply, NoToken, multiset{});
      OwedIsOk(cfg, Write(cfg, s, reply, NoToken));
  }

  lemma LineDone(cfg: Config, s: State)
    requires Done(cfg, s, multiset{}) && s.ctl.reading && LineEnd(s.ctl.buf) > 0
    ensures Done(cfg, OnLine(cfg, s), multiset{})
  {
    var u := s.(tmr := ExpiresAt(s.tmr, Never), hist := s.hist.(stalled := false));
    TakeLineInput(u);
    var t := TakeLine(u);
    assert TimerOwed(t);
    assert Mid(cfg, t, multiset{});
    match ParseLine(FirstLine(s))
    case None =>
      if Pending(t) {
        OwedIsOk(cfg, t);
      } else {
        RestartOk(cfg, t);
      }
    case Some(req) => DispatchDone(cfg, t, req);
  }

  lemma EofDone(cfg: Config, s: State)
    requires Done(cfg, s, multiset{}) && s.ctl.reading
    ensures Done(cfg, OnEof(s), multiset{})
  {
  }

  lemma IdleDone(cfg: Config, s: State)
    requires Done(cfg, s, multiset{}) && s.tmr.fired > 0
    ensures Done(cfg, OnIdle(s), multiset{})
  {
    IdleCommon(cfg, s);
    IdleTimer(cfg, s);
  }

  lemma IdleCommon(cfg: Config, s: State)
    requires Common(cfg, s) && s.tmr.fired > 0
    ensures Common(cfg, OnIdle(s)) && OnIdle(s).heap == s.heap && OnIdle(s).ctl.queue == s.ctl.queue
  {
    var t := OnIdle(s);
    assert t.ctl == s.ctl.(stopped := t.ctl.stopped) && t.hist == s.hist;
    assert t.tmr.now == s.tmr.now && t.tmr.since == s.tmr.since;
  }

  lemma IdleTimer(cfg: Config, s: State)
    requires TimerOk(cfg, s) && s.tmr.fired > 0
    ensures TimerOk(cfg, OnIdle(s))
  {
  }

  // ---------------------------------------------------------------- writing

  lemma BannerDone(cfg: Config, s: State)
    requires Quiet(cfg, s) && s.ctl.phase.Starting? && s.ctl.pushed == |Banner(cfg)|
    ensures Done(cfg, OnBanner(cfg, s), multiset{})
  {
    assert Banner(cfg)[..s.ctl.pushed] == Banner(cfg) + Texts([]);
    assert Remainder(s.hist.consumed) == s.hist.consumed;
  }

  lemma {:induction false} QueueRefsNone(ms: seq<Message>)
    requires forall m :: m in ms ==> !m.token.Start?
    ensures QueueRefs(ms) == multiset{}
  {
    if ms != [] {
      assert ms[0] in ms;
      QueueRefsNone(ms[1..]);
    }
  }

  lemma {:induction false} QueueRefsAppend(a: seq<Message>, b: seq<Message>)
    ensures QueueRefs(a + b) == QueueRefs(a) + QueueRefs(b)
  {
    if a == [] {
      assert a + b == b;
    } else {
      assert (a + b)[1..] == a[1..] + b;
      QueueRefsAppend(a[1..], b);
    }
  }

  /** Messages written while others are queued only join the queue. */
  lemma {:induction false} WriteAllQueues(cfg: Config, s: State, ms: seq<Message>)
    requires s.ctl.queue != [] && forall m :: m in ms ==> !m.token.Start?
    ensures WriteAll(cfg, s, ms) == s.(ctl := s.ctl.(queue := s.ctl.queue + ms),
                                       hist := s.hist.(logged := s.hist.logged + ms))
    decreases |ms|
  {
    if ms == [] {
      assert s.ctl.queue + ms == s.ctl.queue && s.hist.logged + ms == s.hist.logged;
    } else {
      var m, rest := ms[0], ms[1..];
      assert m in ms;
      assert s.heap.refs + TokenRefs(m.token) == s.heap.refs;
      WriteAllQueues(cfg, Write(cfg, s, m.reply, m.token), rest);
      assert ms == [m] + rest;
      assert s.ctl.queue + [m] + rest == s.ctl.queue + ms && s.hist.logged + [m] + rest == s.hist.logged + ms;
    }
  }

  // the operation behind the token goes on
  function Started(s: State, token: Token): State {
    if token.Start? && token.op in s.heap.ops
    then AddCont(s, FirstWait(s.heap.ops[token.op], token.op)) else s
  }

  lemma StartedOk(s: State, token: Token)
    requires HeapOk(s, multiset{}) && TimerOwed(s)
    ensures HeapOk(Started(s, token), multiset{}) && TimerOwed(Started(s, token))
  {
    if token.Start? && token.op in s.heap.ops {
      AddContHeap(s, FirstWait(s.heap.ops[token.op], token.op), multiset{});
    }
  }

  // what a token that runs has done
  function AfterCall(s: State, token: Token, calls: seq<Message>): State {
    var t := Started(s, token);
    t.(ctl := t.ctl.(queue := t.ctl.queue + calls),
       hist := t.hist.(ran := t.hist.ran + [token], logged := t.hist.logged + calls))
  }

  lemma RunTokenIs(cfg: Config, s: State, token: Token, calls: seq<Message>)
    requires s.ctl.queue != [] && Callable(calls) && !token.NoToken?
    ensures RunToken(cfg, s, token, calls) == AfterCall(s, token, calls)
  {
    var t := s.(hist := s.hist.(ran := s.hist.ran + [token]));
    WriteAllQueues(cfg, Started(t, token), calls);
  }

  /** A token that runs may write any further messages: they join the queue behind its own. */
  lemma RunTokenOk(cfg: Config, s: State, token: Token, calls: seq<Message>)
    requires HeapOk(s, multiset{}) && TimerOwed(s) && s.ctl.queue != []
    requires Callable(calls) && (token.NoToken? ==> calls == [])
    ensures var t := RunToken(cfg, s, token, calls);
            && HeapOk(t, multiset{}) && TimerOwed(t) && t.tmr == s.tmr
            && t.ctl == s.ctl.(queue := s.ctl.queue + calls)
            && t.hist == s.hist.(ran := s.hist.ran + Called(token), logged := s.hist.logged + calls)
  {
    if token.NoToken? {
      assert s.ctl.queue + calls == s.ctl.queue && s.hist.logged + calls == s.hist.logged;
      assert s.hist.ran + [] == s.hist.ran;
    } else {
      RunTokenIs(cfg, s, token, calls);
      StartedOk(s, token);
      CalledHeap(cfg, Started(s, token), calls);
      CalledOk(s, token, calls);
    }
  }

  lemma CalledOk(s: State, token: Token, calls: seq<Message>)
    requires var t := Started(s, token);
             var u := t.(ctl := t.ctl.(queue := t.ctl.queue + calls), hist := t.hist.(logged := t.hist.logged + calls));
             HeapOk(u, multiset{}) && TimerOwed(u)
    ensures HeapOk(AfterCall(s, token, calls), multiset{}) && TimerOwed(AfterCall(s, token, calls))
  {
  }

  lemma CalledHeap(cfg: Config, s: State, calls: seq<Message>)
    requires HeapOk(s, multiset{}) && TimerOwed(s) && Callable(calls)
    ensures var t := s.(ctl := s.ctl.(queue := s.ctl.queue + calls), hist := s.hist.(logged := s.hist.logged + calls));
            HeapOk(t, multiset{}) && TimerOwed(t)
  {
    QueueRefsNone(calls);
    QueueRefsAppend(s.ctl.queue, calls);
  }

  /** The front token is released and its message popped. */
  lemma PopOk(cfg: Config, s: State)
    requires HeapOk(s, multiset{}) && TimerOwed(s) && s.ctl.queue != []
    ensures var t := Pop(cfg, s);
            && HeapOk(t, multiset{}) && TimerOwed(t)
            && t.ctl == s.ctl.(queue := s.ctl.queue[1..]) && t.hist == s.hist && t.tmr == s.tmr
  {
    var rest := QueueRefs(s.ctl.queue[1..]) + ContRefs(s.heap.conts);
    var none: multiset<OpId> := multiset{};
    var token := s.ctl.queue[0].token;
    assert Holders(s) + none == rest + TokenRefs(token);
    if token.Start? {
      DropRefCounted(s.heap, token.op, rest);
      ReleaseEffect(cfg, s, token.op);
    }
    assert rest + none == rest;
  }

  lemma WrittenHistory(cfg: Config, s: State)
    requires QueueOk(s) && WireOk(cfg, s) && SingleWriter(s) && s.ctl.queue != [] && !s.hist.writeFailed
    requires s.ctl.pushed == |s.ctl.writes[0]|
    ensures s.hist.wire == Banner(cfg) + Texts(s.hist.delivered + [s.ctl.queue[0]])
  {
    var m := s.ctl.queue[0];
    TextsSnoc(s.hist.delivered, m);
    Assoc(Banner(cfg), Texts(s.hist.delivered), m.reply.text);
    assert m.reply.text[..s.ctl.pushed] == m.reply.text;
  }

  lemma DoWriteDone(cfg: Config, s: State)
    requires HeapOk(s, multiset{}) && TimerOwed(s)
    requires s.ctl.phase.Started? && s.ctl.writes == [] && QueueOk(s) && InputOk(s) && s.tmr.since <= s.tmr.now
    requires !s.hist.writeFailed && s.hist.wire == Banner(cfg) + Texts(s.hist.delivered)
    ensures Done(cfg, DoWrite(cfg, s), multiset{})
  {
    SettleOk(cfg, s);
    if s.ctl.queue != [] {
      WireTail(cfg, s, s.ctl.queue[0]);
      OwedIsOk(cfg, DoWrite(cfg, s));
    }
  }

  lemma DeliverOk(cfg: Config, s: State, calls: seq<Message>)
    requires Done(cfg, s, multiset{}) && s.ctl.queue != []
    requires Callable(calls) && (s.ctl.queue[0].token.NoToken? ==> calls == [])
    ensures var t := Deliver(cfg, s, calls);
            && HeapOk(t, multiset{}) && TimerOwed(t) && t.tmr == s.tmr
            && t.ctl == s.ctl.(writes := [], queue := s.ctl.queue + calls)
            && t.hist == s.hist.(delivered := s.hist.delivered + [s.ctl.queue[0]],
                                 ran := s.hist.ran + Called(s.ctl.queue[0].token), logged := s.hist.logged + calls)
  {
    var m := s.ctl.queue[0];
    OwedIsOk(cfg, s);
    var t := s.(ctl := s.ctl.(writes := s.ctl.writes[1..]),
                hist := s.hist.(delivered := s.hist.delivered + [m]));
    assert HeapOk(t, multiset{});
    RunTokenOk(cfg, t, m.token, calls);
  }

  /** A completed write, whatever further messages its token writes when it runs. */
  lemma ReenteredDone(cfg: Config, s: State, calls: seq<Message>)
    requires Done(cfg, s, multiset{}) && s.ctl.queue != [] && !s.hist.writeFailed
    requires s.ctl.pushed == |s.ctl.writes[0]|
    requires Callable(calls) && (s.ctl.queue[0].token.NoToken? ==> calls == [])
    ensures Done(cfg, OnReentered(cfg, s, calls), multiset{})
  {
    PoppedOk(cfg, s, calls);
    LogPop(s.hist, s.ctl.queue, calls);
    WrittenHistory(cfg, s);
    DoWriteDone(cfg, Pop(cfg, Deliver(cfg, s, calls)));
  }

  lemma PoppedOk(cfg: Config, s: State, calls: seq<Message>)
    requires Done(cfg, s, multiset{}) && s.ctl.queue != []
    requires Callable(calls) && (s.ctl.queue[0].token.NoToken? ==> calls == [])
    ensures var t := Pop(cfg, Deliver(cfg, s, calls));
            && HeapOk(t, multiset{}) && TimerOwed(t) && t.tmr == s.tmr
            && t.ctl == s.ctl.(writes := [], queue := s.ctl.queue[1..] + calls)
            && t.hist == s.hist.(delivered := s.hist.delivered + [s.ctl.queue[0]],
                                 ran := s.hist.ran + Called(s.ctl.queue[0].token), logged := s.hist.logged + calls)
  {
    DeliverOk(cfg, s, calls);
    PopOk(cfg, Deliver(cfg, s, calls));
    assert (s.ctl.queue + calls)[1..] == s.ctl.queue[1..] + calls;
  }

  lemma WrittenDone(cfg: Config, s: State)
    requires Done(cfg, s, multiset{}) && Enabled(cfg, s, Written) && s.ctl.queue != []
    ensures Done(cfg, OnWritten(cfg, s), multiset{})
  {
    ReenteredDone(cfg, s, []);
  }

  lemma {:induction false} ReleaseAllOk(cfg: Config, s: State, ms: seq<Message>)
    requires HeapOk(s, QueueRefs(ms)) && TimerOk(cfg, s)
    ensures var t := ReleaseAll(cfg, s, ms);
            && HeapOk(t, multiset{}) && TimerOk(cfg, t)
            && t.ctl == s.ctl && t.hist == s.hist && (s.tmr.since <= s.tmr.now ==> t.tmr.since <= t.tmr.now)
    decreases |ms|
  {
    if ms != [] {
      var token := ms[0].token;
      if token.Start? {
        assert QueueRefs(ms) == QueueRefs(ms[1..]) + multiset{token.op};
        LiveIsPending(s, QueueRefs(ms), token.op);
        OwedIsOk(cfg, s);
        ReleaseTimer(cfg, s, token.op, QueueRefs(ms[1..]));
        ReleaseEffect(cfg, s, token.op);
        ReleaseAllOk(cfg, Release(cfg, s, token.op), ms[1..]);
      } else {
        assert QueueRefs(ms) == QueueRefs(ms[1..]);
        ReleaseAllOk(cfg, s, ms[1..]);
      }
    }
  }

  lemma FailedWire(cfg: Config, s: State)
    requires QueueOk(s) && WireOk(cfg, s) && SingleWriter(s)
    ensures s.hist.wire <= Banner(cfg) + Texts(s.hist.logged)
  {
    if !s.hist.writeFailed {
      TextsAppend(s.hist.delivered, s.ctl.queue);
      if s.ctl.queue == [] {
        assert Texts(s.ctl.queue) == "";
      } else {
        var m, rest := s.ctl.queue[0], s.ctl.queue[1..];
        assert s.ctl.queue == [m] + rest;
        TextsAppend([m], rest);
        TextsSnoc([], m);
        assert [] + [m] == [m];
        FrontPrefix(s.hist.wire, Banner(cfg), Texts(s.hist.delivered), m.reply.text, s.ctl.pushed, Texts(rest));
      }
    }
  }

  lemma FrontPrefix(wire: string, banner: string, sent: string, front: string, pushed: nat, rest: string)
    requires pushed <= |front| && wire == banner + sent + front[..pushed]
    ensures wire <= banner + (sent + (front + rest))
  {
    assert banner + (sent + (front + rest)) == wire + (front[pushed..] + rest);
  }

  lemma WriteFailedHeap(cfg: Config, s: State)
    requires HeapOk(s, multiset{}) && TimerOk(cfg, s) && s.ctl.queue != []
    ensures var t := s.(ctl := s.ctl.(writes := [], queue := []),
                        hist := s.hist.(writeFailed := true, stalled := s.heap.active == 0));
            HeapOk(t, QueueRefs(s.ctl.queue)) && TimerOk(cfg, t)
  {
    assert Holders(s) + multiset{} == QueueRefs(s.ctl.queue) + ContRefs(s.heap.conts);
  }

  lemma WriteFailedDone(cfg: Config, s: State)
    requires Done(cfg, s, multiset{}) && s.ctl.writes != []
    ensures Done(cfg, OnWriteFailed(cfg, s), multiset{})
  {
    FailedWire(cfg, s);
    WriteFailedHeap(cfg, s);
    var t := s.(ctl := s.ctl.(writes := [], queue := []),
                hist := s.hist.(writeFailed := true, stalled := s.heap.active == 0));
    assert s.ctl.writes[1..] == [];
    ReleaseAllOk(cfg, t, s.ctl.queue);
  }

  // ---------------------------------------------------------------- transfers

  lemma AcceptedDone(cfg: Config, s: State, i: nat)
    requires Done(cfg, s, multiset{}) && i < |s.heap.conts|
    ensures Done(cfg, OnAccepted(cfg, s, i), multiset{})
  {
    var op := s.heap.conts[i].op;
    var none: multiset<OpId> := multiset{};
    TakeContMid(cfg, s, i);
    var t := TakeCont(s, i).(props := s.props.(acceptor := Closed), data := Socket(true));
    assert none + multiset{op} == multiset{op};
    assert Mid(cfg, t, multiset{op});
    WriteMid(cfg, t, Code(DATA_CONN), Start(op), multiset{op});
    ReleaseMid(cfg, Write(cfg, t, Code(DATA_CONN), Start(op)), op, none);
  }

  lemma AcceptFailedDone(cfg: Config, s: State, i: nat, aborted: bool)
    requires Done(cfg, s, multiset{}) && i < |s.heap.conts|
    ensures Done(cfg, OnAcceptFailed(cfg, s, i, aborted), multiset{})
  {
    var op := s.heap.conts[i].op;
    var none: multiset<OpId> := multiset{};
    TakeContMid(cfg, s, i);
    var t := TakeCont(s, i);
    var u := if aborted then t else t.(props := t.props.(acceptor := Closed));
    assert none + multiset{op} == multiset{op};
    assert Mid(cfg, u, multiset{op});
    ReleaseMid(cfg, u, op, none);
  }

  lemma CompleteMid(cfg: Config, s: State, frame: multiset<OpId>)
    requires Mid(cfg, s, frame)
    ensures Mid(cfg, Complete(cfg, s), frame)
  {
    WriteMid(cfg, s, Code(TRANSFER_COMPLETE), NoToken, frame);
  }

  lemma AfterSendMid(cfg: Config, s: State, op: OpId, next: SendFile.Next)
    requires Mid(cfg, s, multiset{op})
    ensures Mid(cfg, AfterSend(cfg, s, op, next), multiset{op})
  {
    match next
    case AwaitWritable => AddContMid(cfg, s, Writable(op), multiset{op});
    case AwaitTimer(expiry) => AddContMid(cfg, s, Limiter(op, expiry), multiset{op});
    case Completed => CompleteMid(cfg, s, multiset{op});
    case Dropped =>
  }

  lemma SendDone(cfg: Config, s: State, i: nat, ec: bool, ret: SendFile.Ret)
    requires Done(cfg, s, multiset{}) && i < |s.heap.conts| && s.heap.conts[i].op in s.sends
    ensures Done(cfg, OnSend(cfg, s, i, ec, ret), multiset{})
  {
    var op := s.heap.conts[i].op;
    var none: multiset<OpId> := multiset{};
    TakeContMid(cfg, s, i);
    var before := s.sends[op];
    var (after, next) := SendFile.Deal(before, SendFile.Slice(cfg.downloadLimit), ec, ret, s.tmr.now);
    var bytes := if |before.sent| <= |after.sent| then after.sent[|before.sent|..] else "";
    var t := TakeCont(s, i).(sends := s.sends[op := after], hist := s.hist.(dataOut := s.hist.dataOut + bytes));
    assert Mid(cfg, t, multiset{op});
    AfterSendMid(cfg, t, op, next);
    assert none + multiset{op} == multiset{op};
    ReleaseMid(cfg, AfterSend(cfg, t, op, next), op, none);
  }

  lemma AfterReceiveMid(cfg: Config, s: State, op: OpId, status: RecvFile.Status)
    requires Mid(cfg, s, multiset{op})
    ensures Mid(cfg, AfterReceive(cfg, s, op, status), multiset{op})
  {
    match status
    case Finished => CompleteMid(cfg, s, multiset{op});
    case UnexpectedTerminate =>
    case _ => AddContMid(cfg, s, Readable(op), multiset{op});
  }

  lemma ReceiveDone(cfg: Config, s: State, i: nat, ec: bool, script: seq<RecvFile.Splice>)
    requires Done(cfg, s, multiset{}) && i < |s.heap.conts| && s.heap.conts[i].op in s.recvs
    ensures Done(cfg, OnReceive(cfg, s, i, ec, script), multiset{})
  {
    var op := s.heap.conts[i].op;
    var none: multiset<OpId> := multiset{};
    TakeContMid(cfg, s, i);
    assert none + multiset{op} == multiset{op};
    if ec {
      ReleaseMid(cfg, TakeCont(s, i), op, none);
    } else {
      var (r, status) := RecvFile.Deal(s.recvs[op], script, None);
      var t := TakeCont(s, i).(recvs := s.recvs[op := r]);
      assert Mid(cfg, t, multiset{op});
      AfterReceiveMid(cfg, t, op, status);
      ReleaseMid(cfg, AfterReceive(cfg, t, op, status), op, none);
    }
  }

  lemma ListedDone(cfg: Config, s: State, i: nat, bytes: string)
    requires Done(cfg, s, multiset{}) && i < |s.heap.conts|
    ensures Done(cfg, OnListed(cfg, s, i, bytes), multiset{})
  {
    var op := s.heap.conts[i].op;
    var none: multiset<OpId> := multiset{};
    TakeContMid(cfg, s, i);
    var t := TakeCont(s, i).(hist := s.hist.(dataOut := s.hist.dataOut + bytes));
    assert Mid(cfg, t, multiset{op});
    CompleteMid(cfg, t, multiset{op});
    assert none + multiset{op} == multiset{op};
    ReleaseMid(cfg, Complete(cfg, t), op, none);
  }
}
