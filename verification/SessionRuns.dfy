/** The session's guarantees over whole runs: idle timer, reply queue, reference counts. */
module SessionRuns {
  import opened Commands
  import opened Engine
  import opened SessionEffects
  import opened SessionInvariants
  import SendFile

  /** The state after a run from the start of the session. */
  function Reach(cfg: Config, now: int, es: seq<Event>): State {
    Exec(cfg, Init(cfg, now), es)
  }

  lemma ReachSnoc(cfg: Config, now: int, es: seq<Event>, e: Event)
    ensures Reach(cfg, now, es + [e]) == Step(cfg, Reach(cfg, now, es), e)
  {
    assert (es + [e])[..|es + [e]| - 1] == es;
  }

  lemma {:induction false} ReachAppend(cfg: Config, now: int, es: seq<Event>, later: seq<Event>)
    ensures Reach(cfg, now, es + later) == Exec(cfg, Reach(cfg, now, es), later)
  {
    if later == [] {
      assert es + later == es;
    } else {
      ReachAppend(cfg, now, es, later[..|later| - 1]);
      assert (es + later)[..|es + later| - 1] == es + later[..|later| - 1];
    }
  }

  // ---------------------------------------------------------------- the invariant holds throughout

  lemma QuietStep(cfg: Config, s: State, e: Event)
    requires Quiet(cfg, s) && !s.ctl.phase.Started?
    ensures Inv(cfg, Step(cfg, s, e))
  {
    if Enabled(cfg, s, e) {
      match e
      case Written => BannerDone(cfg, s);
      case Push(k) => QuietPush(cfg, s, k);
      case _ =>
    }
  }

  lemma QuietPush(cfg: Config, s: State, k: nat)
    requires Quiet(cfg, s) && !s.ctl.phase.Started? && Enabled(cfg, s, Push(k))
    ensures Quiet(cfg, Step(cfg, s, Push(k))) && !Step(cfg, s, Push(k)).ctl.phase.Started?
  {
    var b := Banner(cfg);
    assert b[..s.ctl.pushed] + b[s.ctl.pushed..s.ctl.pushed + k] == b[..s.ctl.pushed + k];
  }

  lemma PushDone(cfg: Config, s: State, k: nat)
    requires Done(cfg, s, multiset{}) && Enabled(cfg, s, Push(k))
    ensures Done(cfg, Step(cfg, s, Push(k)), multiset{})
  {
    PushWire(cfg, s, k);
    PushOthers(cfg, s, k);
  }

  lemma PushWire(cfg: Config, s: State, k: nat)
    requires WireOk(cfg, s) && Enabled(cfg, s, Push(k))
    ensures WireOk(cfg, Step(cfg, s, Push(k)))
  {
    var w, p := s.ctl.writes[0], s.ctl.pushed;
    assert w[..p] + w[p..p + k] == w[..p + k];
    Assoc(Banner(cfg) + Texts(s.hist.delivered), w[..p], w[p..p + k]);
  }

  lemma PushOthers(cfg: Config, s: State, k: nat)
    requires Done(cfg, s, multiset{}) && Enabled(cfg, s, Push(k)) && WireOk(cfg, Step(cfg, s, Push(k)))
    ensures Done(cfg, Step(cfg, s, Push(k)), multiset{})
  {
    var t := Step(cfg, s, Push(k));
    assert t == s.(ctl := s.ctl.(pushed := t.ctl.pushed), hist := s.hist.(wire := t.hist.wire));
  }

  lemma ArriveDone(cfg: Config, s: State, bytes: string)
    requires Done(cfg, s, multiset{}) && Enabled(cfg, s, Arrive(bytes))
    ensures Done(cfg, Step(cfg, s, Arrive(bytes)), multiset{})
  {
    Assoc(s.hist.consumed, s.ctl.buf, bytes);
  }

  lemma ClockDone(cfg: Config, s: State, e: Event)
    requires Done(cfg, s, multiset{}) && (e.Tick? || e.IdleExpires? || e.ReadError? || e.Incoming?)
    ensures Done(cfg, Step(cfg, s, e), multiset{})
  {
    if Enabled(cfg, s, e) {
      OutsideStepped(cfg, s, e);
      ClockTimer(cfg, s, e);
      ClockCommon(cfg, s, e);
    }
  }

  lemma ClockTimer(cfg: Config, s: State, e: Event)
    requires TimerOk(cfg, s) && Enabled(cfg, s, e) && (e.Tick? || e.IdleExpires? || e.ReadError? || e.Incoming?)
    ensures TimerOk(cfg, Step(cfg, s, e))
  {
  }

  lemma ClockCommon(cfg: Config, s: State, e: Event)
    requires Common(cfg, s) && Enabled(cfg, s, e) && (e.Tick? || e.IdleExpires? || e.ReadError? || e.Incoming?)
    ensures Common(cfg, Step(cfg, s, e))
  {
    var t := Step(cfg, s, e);
    assert t.ctl == s.ctl.(reading := t.ctl.reading) && t.hist == s.hist;
    assert t.tmr.since == s.tmr.since && t.tmr.now >= s.tmr.now;
  }

  lemma ControlStep(cfg: Config, s: State, e: Event)
    requires Done(cfg, s, multiset{}) && Enabled(cfg, s, e)
    requires !e.AcceptOk? && !e.AcceptFailed? && !e.Sendable? && !e.Receivable? && !e.Listed?
    ensures Done(cfg, Step(cfg, s, e), multiset{})
  {
    match e
    case Push(k) => PushDone(cfg, s, k);
    case Written => WrittenDone(cfg, s);
    case Reenters(calls) => ReenteredDone(cfg, s, calls);
    case WriteFailed => WriteFailedDone(cfg, s);
    case Arrive(bytes) => ArriveDone(cfg, s, bytes);
    case Line => LineDone(cfg, s);
    case Eof => EofDone(cfg, s);
    case IdleHandler => IdleDone(cfg, s);
    case _ => ClockDone(cfg, s, e);
  }

  lemma TransferStep(cfg: Config, s: State, e: Event)
    requires Done(cfg, s, multiset{}) && Enabled(cfg, s, e)
    requires e.AcceptOk? || e.AcceptFailed? || e.Sendable? || e.Receivable? || e.Listed?
    ensures Done(cfg, Step(cfg, s, e), multiset{})
  {
    if e.AcceptOk? || e.AcceptFailed? {
      AcceptStep(cfg, s, e);
    } else if e.Sendable? {
      SendDone(cfg, s, e.i, e.ec, e.ret);
    } else {
      SinkStep(cfg, s, e);
    }
  }

  lemma SinkStep(cfg: Config, s: State, e: Event)
    requires Done(cfg, s, multiset{}) && Enabled(cfg, s, e) && (e.Receivable? || e.Listed?)
    ensures Done(cfg, Step(cfg, s, e), multiset{})
  {
    match e
    case Receivable(i, ec, script) => ReceiveDone(cfg, s, i, ec, script);
    case Listed(i, bytes) => ListedDone(cfg, s, i, bytes);
  }

  lemma AcceptStep(cfg: Config, s: State, e: Event)
    requires Done(cfg, s, multiset{}) && Enabled(cfg, s, e) && (e.AcceptOk? || e.AcceptFailed?)
    ensures Done(cfg, Step(cfg, s, e), multiset{})
  {
    match e
    case AcceptOk(i) => AcceptedDone(cfg, s, i);
    case AcceptFailed(i, aborted) => AcceptFailedDone(cfg, s, i, aborted);
  }

  /** Every event preserves the invariant. */
  lemma StepKeepsInv(cfg: Config, s: State, e: Event)
    requires Inv(cfg, s)
    ensures Inv(cfg, Step(cfg, s, e))
  {
    if !s.ctl.phase.Started? {
      QuietStep(cfg, s, e);
    } else if Enabled(cfg, s, e) {
      if e.AcceptOk? || e.AcceptFailed? || e.Sendable? || e.Receivable? || e.Listed? {
        TransferStep(cfg, s, e);
      } else {
        ControlStep(cfg, s, e);
      }
    }
  }

  lemma InitInv(cfg: Config, now: int)
    ensures Inv(cfg, Init(cfg, now))
  {
    var s := Init(cfg, now);
    assert Holders(s) + multiset{} == multiset{};
  }

  /** The invariant holds in every reachable state. */
  lemma {:induction false} AlwaysInv(cfg: Config, now: int, es: seq<Event>)
    ensures Inv(cfg, Reach(cfg, now, es))
  {
    if es == [] {
      InitInv(cfg, now);
    } else {
      AlwaysInv(cfg, now, es[..|es| - 1]);
      StepKeepsInv(cfg, Reach(cfg, now, es[..|es| - 1]), es[|es| - 1]);
    }
  }

  // a state in which lines are read, or have been
  lemma LinesMeanStarted(cfg: Config, s: State)
    requires Inv(cfg, s) && (s.hist.consumed != "" || s.ctl.reading)
    ensures s.ctl.phase.Started?
  {
  }

  // ---------------------------------------------------------------- idle timer

  /** Idle safety and liveness at once, on every run, with or without write errors: while
      the session is open the deadline is finite exactly when no operation is alive, the
      reply queue is empty and the session is not stalled; it is then max_idle_timeout after
      the last restart, and exactly one idle wait is pending or queued. */
  lemma IdleDeadlineIsExact(cfg: Config, now: int, es: seq<Event>)
    requires var s := Reach(cfg, now, es); s.ctl.phase.Started? && !s.ctl.stopped
    ensures var s := Reach(cfg, now, es);
            && (s.tmr.expiry.At? <==> s.heap.ops == map[] && s.ctl.queue == [] && !s.hist.stalled)
            && (s.tmr.expiry.At? ==> s.tmr.expiry.time == s.tmr.since + cfg.maxIdleTimeout * SendFile.SECOND)
            && s.tmr.armed + s.tmr.fired == 1
  {
    AlwaysInv(cfg, now, es);
    NoOpsIsInactive(Reach(cfg, now, es));
  }

  lemma NoOpsIsInactive(s: State)
    requires HeapOk(s, multiset{})
    ensures s.heap.active == 0 <==> s.heap.ops == map[]
  {
    if s.heap.active == 0 {
      assert s.heap.ops.Keys == {};
    }
  }

  /** An idle close interrupts no operation, loses no reply, and comes no earlier than
      max_idle_timeout after the last restart. */
  lemma IdleCloseIsSafe(cfg: Config, now: int, es: seq<Event>, e: Event)
    requires var s := Reach(cfg, now, es); !s.ctl.stopped && Step(cfg, s, e).ctl.stopped && !e.Eof?
    ensures var s := Reach(cfg, now, es);
            && e == IdleHandler
            && s.heap.ops == map[] && s.ctl.queue == []
            && s.tmr.since + cfg.maxIdleTimeout * SendFile.SECOND <= s.tmr.now
  {
    AlwaysInv(cfg, now, es);
    var s := Reach(cfg, now, es);
    OnlyTwoEventsStop(cfg, s, e);
    NoOpsIsInactive(s);
  }

  lemma OnlyTwoEventsStop(cfg: Config, s: State, e: Event)
    requires !s.ctl.stopped && Step(cfg, s, e).ctl.stopped
    ensures e == Eof || e == IdleHandler
  {
    StepEffect(cfg, s, e);
  }

  /** The keep-alive wait of a session closed by end of file while operations were alive is
      released exactly when no operation is alive, the queue is empty, and the last reply
      was not lost to a failed write. */
  lemma KeepAliveIsExact(cfg: Config, now: int, es: seq<Event>)
    requires var s := Reach(cfg, now, es); s.ctl.stopped && s.tmr.keep + s.tmr.released > 0
    ensures var s := Reach(cfg, now, es);
            && (s.tmr.released > 0 <==> s.heap.ops == map[] && s.ctl.queue == [] && !s.hist.stalled)
            && s.tmr.keep + s.tmr.released == 1
  {
    AlwaysInv(cfg, now, es);
    assert Inv(cfg, Reach(cfg, now, es));
    NoOpsIsInactive(Reach(cfg, now, es));
  }

  lemma NoOpsNoConts(s: State)
    requires HeapOk(s, multiset{}) && s.heap.ops == map[]
    ensures s.heap.conts == []
  {
    assert s.heap.refs == multiset{};
    HeadsAreHeld(s.ctl.queue, s.heap.conts);
  }

  lemma HeadsAreHeld(ms: seq<Message>, cs: seq<Cont>)
    ensures cs != [] ==> cs[0].op in ContRefs(cs)
    ensures ms != [] && ms[0].token.Start? ==> ms[0].token.op in QueueRefs(ms)
  {
  }

  // ---------------------------------------------------------------- reply queue

  /** On every run, whatever further replies the tokens write when they run: one control
      write is outstanding exactly when replies are queued, and it carries the front one;
      until a write fails the delivered replies followed by the queue are all replies ever
      written, in order; and the calls of tokens so far are those of exactly the delivered
      replies, once each and in that order. */
  lemma QueueIsFaithful(cfg: Config, now: int, es: seq<Event>)
    requires Reach(cfg, now, es).ctl.phase.Started?
    ensures var s := Reach(cfg, now, es);
            && s.ctl.writes == (if s.ctl.queue == [] then [] else [s.ctl.queue[0].reply.text])
            && (if s.hist.writeFailed then s.hist.delivered <= s.hist.logged
                else s.hist.logged == s.hist.delivered + s.ctl.queue)
            && s.hist.ran == TokensOf(s.hist.delivered)
  {
    AlwaysInv(cfg, now, es);
  }

  /** On every run the wire carries a prefix of the welcome line and all replies written. */
  lemma WireIsPrefix(cfg: Config, now: int, es: seq<Event>)
    ensures var s := Reach(cfg, now, es); s.hist.wire <= Banner(cfg) + Texts(s.hist.logged)
  {
    AlwaysInv(cfg, now, es);
    var s := Reach(cfg, now, es);
    if s.ctl.phase.Started? {
      FailedWire(cfg, s);
    } else {
      assert Banner(cfg) + Texts(s.hist.logged) == Banner(cfg);
    }
  }

  // ---------------------------------------------------------------- reference accounting

  /** Operations are handed on, never shared: a handler passes its reference to at most one
      successor, and only a command brings in a new one. */
  lemma RefsStep(cfg: Config, s: State, e: Event)
    ensures var t := Step(cfg, s, e);
            t.heap.refs <= s.heap.refs || (e.Line? && t.heap.refs <= s.heap.refs + multiset{s.heap.next})
  {
    if Enabled(cfg, s, e) {
      StepEffect(cfg, s, e);
    }
  }

  ghost predicate Unshared(refs: multiset<OpId>) { forall id :: refs[id] <= 1 }

  /** Reference accounting between handlers: active_op_num is the number of live
      operations, these are the operations some queued token or waiting handler refers to,
      and each is referred to exactly once, so it has at most one continuation. */
  lemma {:induction false} AccountingIsExact(cfg: Config, now: int, es: seq<Event>)
    ensures var s := Reach(cfg, now, es);
            && s.heap.active == |s.heap.ops|
            && s.heap.refs == QueueRefs(s.ctl.queue) + ContRefs(s.heap.conts)
            && Unshared(s.heap.refs)
            && (forall id :: id in s.heap.ops <==> s.heap.refs[id] == 1)
  {
    AlwaysInv(cfg, now, es);
    var t := Reach(cfg, now, es);
    assert HeapOk(t, multiset{});
    if es != [] {
      AccountingIsExact(cfg, now, es[..|es| - 1]);
      AlwaysInv(cfg, now, es[..|es| - 1]);
      var s := Reach(cfg, now, es[..|es| - 1]);
      RefsStep(cfg, s, es[|es| - 1]);
      NextIsFresh(s);
    }
    UnsharedMembers(t.heap);
  }

  lemma NextIsFresh(s: State)
    requires HeapOk(s, multiset{}) && Unshared(s.heap.refs)
    ensures Unshared(s.heap.refs + multiset{s.heap.next})
  {
    assert s.heap.next !in s.heap.refs;
  }

  lemma UnsharedMembers(h: Heap)
    requires Unshared(h.refs) && forall id :: id in h.refs <==> id in h.ops
    ensures forall id :: id in h.ops <==> h.refs[id] == 1
  {
  }
}
