/** What each handler changes besides the idle timer, stated once for the arguments over runs. */
module SessionEffects {
  import opened Text
  import opened Requests
  import opened Replies
  import opened Commands
  import opened Engine
  import opened SessionInvariants
  import SendFile
  import RecvFile

  /** The waits that keep a closed session alive. */
  function Kept(t: Timer): nat { t.keep + t.released }

  ghost predicate SameClock(s: Timer, t: Timer) { t.now == s.now && Kept(t) == Kept(s) }

  ghost predicate SameFlags(s: State, t: State) {
    && t.ctl.phase == s.ctl.phase && t.ctl.stopped == s.ctl.stopped
    && t.ctl.reading == s.ctl.reading && t.ctl.buf == s.ctl.buf
    && SameClock(s.tmr, t.tmr)
  }

  /** The operations left are old ones, and so are the references to them. */
  ghost predicate Fewer(s: Heap, t: Heap) {
    && t.next == s.next && t.refs <= s.refs && t.ops.Keys <= s.ops.Keys
    && forall id :: id in t.ops ==> t.ops[id] == s.ops[id]
  }

  ghost predicate SameFiles(s: State, t: State) { t.sends == s.sends && t.recvs == s.recvs }

  // a data socket, closed if it was open
  function Cut(data: DataSocket): DataSocket { if data == Socket(true) then Socket(false) else data }

  // ---------------------------------------------------------------- primitives

  lemma WriteEffect(cfg: Config, s: State, reply: Reply, token: Token)
    ensures var t := Write(cfg, s, reply, token);
            && SameFlags(s, t) && SameFiles(s, t) && t.ctl.queue == s.ctl.queue + [Message(reply, token)]
            && t.heap == s.heap.(refs := s.heap.refs + TokenRefs(token))
            && t.props == s.props && t.data == s.data && t.tmr == s.tmr
            && (s.ctl.queue == [] ==> t.ctl.pushed == 0)
            && t.hist == s.hist.(logged := s.hist.logged + [Message(reply, token)])
  {
  }

  lemma ReleaseChanges(cfg: Config, s: State, op: OpId)
    ensures var t := Release(cfg, s, op);
            && t.ctl == s.ctl && SameClock(s.tmr, t.tmr)
            && t.props == s.props && SameFiles(s, t) && t.hist == s.hist
            && t.heap.conts == s.heap.conts && t.heap.next == s.heap.next
            && t.heap.refs == s.heap.refs - multiset{op}
            && t.heap.ops == (if op in t.heap.refs then s.heap.ops else s.heap.ops - {op})
            && t.data == (if op !in t.heap.refs && op in s.heap.ops && IsTransfer(s.heap.ops[op])
                          then Cut(s.data) else s.data)
  {
  }

  lemma {:induction false} ReleaseAllEffect(cfg: Config, s: State, ms: seq<Message>)
    ensures var t := ReleaseAll(cfg, s, ms);
            && t.ctl == s.ctl && SameClock(s.tmr, t.tmr)
            && t.props == s.props && SameFiles(s, t) && t.hist == s.hist
            && t.heap.conts == s.heap.conts && Fewer(s.heap, t.heap)
            && (t.data == s.data || t.data == Socket(false))
    decreases |ms|
  {
    if ms != [] {
      if ms[0].token.Start? {
        ReleaseChanges(cfg, s, ms[0].token.op);
      }
      ReleaseAllEffect(cfg, ReleaseToken(cfg, s, ms[0].token), ms[1..]);
    }
  }

  lemma DoWriteEffect(cfg: Config, s: State)
    ensures var t := DoWrite(cfg, s);
            && SameFlags(s, t) && SameFiles(s, t) && t.ctl.queue == s.ctl.queue
            && t.heap == s.heap && t.props == s.props && t.data == s.data && t.hist == s.hist
  {
  }

  // ---------------------------------------------------------------- commands

  ghost predicate RejectOutcome(s: State, t: State, reply: Reply) {
    var m := Message(reply, NoToken);
    && SameFlags(s, t) && SameFiles(s, t) && t.ctl.queue == s.ctl.queue + [m]
    && t.props == s.props && t.data == s.data && t.heap == s.heap
    && t.hist == s.hist.(logged := s.hist.logged + [m])
  }

  lemma RejectEffect(cfg: Config, s: State, req: Request)
    requires RouteOf(s.props, req).Reject?
    ensures RejectOutcome(s, Dispatch(cfg, s, req), RouteOf(s.props, req).reply)
  {
    WriteEffect(cfg, s, RouteOf(s.props, req).reply, NoToken);
  }

  /** The operations left are old ones and, at most, the new one. */
  ghost predicate KindsKept(s: Heap, t: Heap, kind: Kind) {
    forall id :: id in t.ops ==> (id == s.next && t.ops[id] == kind) || (id in s.ops && t.ops[id] == s.ops[id])
  }

  ghost predicate SimpleOutcome(s: State, t: State, kind: Kind, props: Props, reply: Reply) {
    var m := Message(reply, NoToken);
    && SameFlags(s, t) && SameFiles(s, t) && t.ctl.queue == s.ctl.queue + [m]
    && t.props == props && t.data == s.data
    && t.heap.conts == s.heap.conts && t.heap.refs == s.heap.refs && t.heap.next == s.heap.next + 1
    && KindsKept(s.heap, t.heap, kind)
    && t.hist == s.hist.(executed := s.hist.executed + [kind], logged := s.hist.logged + [m])
  }

  lemma SimpleEffect(cfg: Config, s: State, kind: Kind, req: Request)
    requires !IsTransfer(kind)
    ensures var (props, reply) := Answer(cfg, s.props, kind, req);
            SimpleOutcome(s, RunSimple(cfg, s, kind, req), kind, props, reply)
  {
    var id := s.heap.next;
    var t := Construct(s, kind);
    var (props, reply) := Answer(cfg, t.props, kind, req);
    var u := t.(props := props);
    WriteEffect(cfg, u, reply, NoToken);
    ReleaseChanges(cfg, Write(cfg, u, reply, NoToken), id);
    assert s.heap.refs + multiset{id} - multiset{id} == s.heap.refs;
  }

  // the files the operation has opened
  ghost predicate FilesOpened(s: State, t: State, kind: Kind, got: Opened, op: OpId) {
    && t.sends == (if got.Ready? && kind.Send? then s.sends[op := SendFile.Open(got.content)] else s.sends)
    && t.recvs == (if got.Ready? && kind.Recv? then s.recvs[op := RecvFile.Start()] else s.recvs)
  }

  lemma StartTransferEffect(cfg: Config, s: State, kind: Kind, req: Request, op: OpId)
    requires IsTransfer(kind)
    ensures var t := StartTransfer(cfg, s, kind, req, op);
            var got := OpenTransfer(cfg, s.props, kind, req.body);
            && SameFlags(s, t) && t.props == s.props && t.data == s.data
            && t.heap.next == s.heap.next && t.heap.ops == s.heap.ops && FilesOpened(s, t, kind, got, op)
            && (if got.Ready? && !s.props.acceptor.Closed? then
                  && t.heap.conts == s.heap.conts + [Accept(op, s.props.acceptor.Listening?)]
                  && t.heap.refs == s.heap.refs + multiset{op}
                  && t.hist == s.hist && t.ctl.queue == s.ctl.queue
                else
                  var m := Message(if got.Ready? then Code(INVALID_SEQ) else got.reply, NoToken);
                  && t.heap.conts == s.heap.conts && t.heap.refs == s.heap.refs
                  && t.hist == s.hist.(logged := s.hist.logged + [m])
                  && t.ctl.queue == s.ctl.queue + [m])
  {
    match OpenTransfer(cfg, s.props, kind, req.body)
    case Refused(reply) => WriteEffect(cfg, s, reply, NoToken);
    case Ready(content) => WriteEffect(cfg, OpenFile(s, kind, content, op), Code(INVALID_SEQ), NoToken);
  }

  /** A transfer command that has its file and finds an acceptor waits for a connection and writes nothing. */
  ghost predicate WaitsOutcome(s: State, t: State, kind: Kind, req: Request) {
    var op := s.heap.next;
    && t.heap.conts == s.heap.conts + [Accept(op, s.props.acceptor.Listening?)]
    && t.heap.refs == s.heap.refs + multiset{op}
    && op in t.heap.ops && t.heap.ops[op] == kind
    && t.ctl.queue == s.ctl.queue && t.data == s.data
    && t.hist == s.hist.(executed := s.hist.executed + [kind], transfers := s.hist.transfers + [req])
  }

  /** Any other one writes one reply and is gone; its destructor closes the data socket, whoever uses it. */
  ghost predicate RefusedOutcome(s: State, t: State, kind: Kind, req: Request, reply: Reply) {
    var m := Message(reply, NoToken);
    && t.heap.conts == s.heap.conts && t.heap.refs == s.heap.refs
    && t.ctl.queue == s.ctl.queue + [m]
    && (s.heap.next !in s.heap.refs ==> t.data == Cut(s.data))
    && t.hist == s.hist.(executed := s.hist.executed + [kind], transfers := s.hist.transfers + [req],
                         logged := s.hist.logged + [m])
  }

  ghost predicate TransferOutcome(s: State, t: State, kind: Kind, req: Request, got: Opened) {
    && SameFlags(s, t) && t.props == s.props && t.heap.next == s.heap.next + 1
    && FilesOpened(s, t, kind, got, s.heap.next) && KindsKept(s.heap, t.heap, kind)
    && (t.data == s.data || t.data == Socket(false))
    && if got.Ready? && !s.props.acceptor.Closed? then WaitsOutcome(s, t, kind, req)
       else RefusedOutcome(s, t, kind, req, if got.Ready? then Code(INVALID_SEQ) else got.reply)
  }

  lemma TransferEffect(cfg: Config, s: State, kind: Kind, req: Request)
    requires IsTransfer(kind)
    ensures TransferOutcome(s, RunTransfer(cfg, s, kind, req), kind, req, OpenTransfer(cfg, s.props, kind, req.body))
  {
    var op := s.heap.next;
    var t := Begun(s, kind, req);
    StartTransferEffect(cfg, t, kind, req, op);
    var u := StartTransfer(cfg, t, kind, req, op);
    ReleaseChanges(cfg, u, op);
    var got := OpenTransfer(cfg, s.props, kind, req.body);
    if got.Ready? && !s.props.acceptor.Closed? {
      CreatorWaits(s, u, Release(cfg, u, op), kind, req, s.props.acceptor.Listening?);
    } else {
      CreatorLeaves(s, u, Release(cfg, u, op), kind, req, if got.Ready? then Code(INVALID_SEQ) else got.reply);
    }
  }

  // a transfer operation has been created
  function Begun(s: State, kind: Kind, req: Request): State {
    var made := Construct(s, kind);
    made.(hist := made.hist.(transfers := made.hist.transfers + [req]))
  }

  // its creator drops it, but an accept holds it
  lemma CreatorWaits(s: State, u: State, t: State, kind: Kind, req: Request, viable: bool)
    requires var op := s.heap.next;
             var v := Begun(s, kind, req);
             && u.heap.conts == v.heap.conts + [Accept(op, viable)] && u.heap.refs == v.heap.refs + multiset{op}
             && u.heap.ops == v.heap.ops && u.heap.next == v.heap.next
             && u.hist == v.hist && u.ctl.queue == v.ctl.queue && u.data == v.data
             && t.heap.conts == u.heap.conts && t.heap.refs == u.heap.refs - multiset{op} && t.ctl == u.ctl
             && t.hist == u.hist
             && (op in t.heap.refs ==> t.heap.ops == u.heap.ops && t.data == u.data)
    requires viable == s.props.acceptor.Listening?
    ensures WaitsOutcome(s, t, kind, req)
  {
    var op := s.heap.next;
    assert s.heap.refs + multiset{op} + multiset{op} - multiset{op} == s.heap.refs + multiset{op};
  }

  // its creator drops it, and that was all
  lemma CreatorLeaves(s: State, u: State, t: State, kind: Kind, req: Request, reply: Reply)
    requires IsTransfer(kind)
    requires var op := s.heap.next;
             var v := Begun(s, kind, req);
             var m := Message(reply, NoToken);
             && u.heap.conts == v.heap.conts && u.heap.refs == v.heap.refs && u.heap.ops == v.heap.ops
             && u.hist == v.hist.(logged := v.hist.logged + [m]) && u.ctl.queue == v.ctl.queue + [m]
             && u.data == v.data
             && t.heap.conts == u.heap.conts && t.heap.refs == u.heap.refs - multiset{op} && t.ctl == u.ctl
             && t.hist == u.hist
             && t.data == (if op !in t.heap.refs && op in u.heap.ops && IsTransfer(u.heap.ops[op])
                           then Cut(u.data) else u.data)
    ensures RefusedOutcome(s, t, kind, req, reply)
  {
    var op := s.heap.next;
    assert s.heap.refs + multiset{op} - multiset{op} == s.heap.refs;
  }

  /** The state in which a line is dispatched. */
  function AtLine(s: State): State {
    TakeLine(s.(tmr := ExpiresAt(s.tmr, Never), hist := s.hist.(stalled := false)))
  }

  /** What a line does, case by case. */
  ghost predicate LineOutcome(cfg: Config, s: State, t: State) {
    match ParseLine(FirstLine(s))
    case None => t == AtLine(s).(tmr := t.tmr) && SameClock(s.tmr, t.tmr)
    case Some(req) =>
      match RouteOf(s.props, req)
      case Reject(reply) => RejectOutcome(AtLine(s), t, reply)
      case Run(kind) =>
        if IsTransfer(kind) then TransferOutcome(AtLine(s), t, kind, req, OpenTransfer(cfg, s.props, kind, req.body))
        else
          var (props, reply) := Answer(cfg, s.props, kind, req);
          SimpleOutcome(AtLine(s), t, kind, props, reply)
  }

  lemma LineEffect(cfg: Config, s: State)
    ensures LineOutcome(cfg, s, OnLine(cfg, s))
  {
    var parsed := ParseLine(FirstLine(s));
    if parsed.Some? {
      var t, req := AtLine(s), parsed.value;
      match RouteOf(s.props, req)
      case Reject(_) => RejectEffect(cfg, t, req);
      case Run(kind) =>
        if IsTransfer(kind) { TransferEffect(cfg, t, kind, req); } else { SimpleEffect(cfg, t, kind, req); }
    }
  }

  // ---------------------------------------------------------------- control writes

  // the write handler on an error
  lemma WriteFailedEffect(cfg: Config, s: State)
    requires s.ctl.writes != []
    ensures var t := OnWriteFailed(cfg, s);
            && SameFlags(s, t) && SameFiles(s, t) && t.ctl.queue == []
            && t.props == s.props && t.heap.conts == s.heap.conts && Fewer(s.heap, t.heap)
            && t.hist == s.hist.(writeFailed := true, stalled := s.heap.active == 0)
            && (t.data == s.data || t.data == Socket(false))
  {
    ReleaseAllEffect(cfg, s.(ctl := s.ctl.(writes := s.ctl.writes[1..], queue := []),
                             hist := s.hist.(writeFailed := true, stalled := s.heap.active == 0)), s.ctl.queue);
  }

  // the wait that the delivery of `m` starts
  function WaitOf(s: State, m: Message): seq<Cont> {
    if m.token.Start? && m.token.op in s.heap.ops then [FirstWait(s.heap.ops[m.token.op], m.token.op)] else []
  }

  ghost predicate DeliverOutcome(s: State, t: State, calls: seq<Message>)
    requires s.ctl.queue != []
  {
    var m := s.ctl.queue[0];
    && SameFlags(s, t) && SameFiles(s, t) && t.ctl.queue == s.ctl.queue + calls
    && t.props == s.props && t.data == s.data
    && t.heap.next == s.heap.next && t.heap.ops == s.heap.ops
    && t.hist == s.hist.(delivered := s.hist.delivered + [m], ran := s.hist.ran + Called(m.token),
                         logged := s.hist.logged + calls)
    && t.heap.conts == s.heap.conts + WaitOf(s, m)
    && t.heap.refs == s.heap.refs + (if WaitOf(s, m) == [] then multiset{} else multiset{m.token.op})
  }

  // the write handler up to and including the token
  lemma DeliverEffect(cfg: Config, s: State, calls: seq<Message>)
    requires s.ctl.queue != [] && s.ctl.writes != []
    requires Callable(calls) && (s.ctl.queue[0].token.NoToken? ==> calls == [])
    ensures DeliverOutcome(s, Deliver(cfg, s, calls), calls)
  {
    var m := s.ctl.queue[0];
    var t := s.(ctl := s.ctl.(writes := s.ctl.writes[1..]), hist := s.hist.(delivered := s.hist.delivered + [m]));
    AddNothing(s.heap.conts, s.heap.refs, s.hist.ran, s.ctl.queue, s.hist.logged);
    if !m.token.NoToken? {
      RunTokenIs(cfg, t, m.token, calls);
      AfterCallDelivers(s, t, calls);
    }
  }

  lemma AfterCallDelivers(s: State, t: State, calls: seq<Message>)
    requires s.ctl.queue != [] && s.ctl.writes != [] && !s.ctl.queue[0].token.NoToken?
    requires t == s.(ctl := s.ctl.(writes := s.ctl.writes[1..]),
                     hist := s.hist.(delivered := s.hist.delivered + [s.ctl.queue[0]]))
    ensures DeliverOutcome(s, AfterCall(t, s.ctl.queue[0].token, calls), calls)
  {
    AddNothing(s.heap.conts, s.heap.refs, s.hist.ran, s.ctl.queue, s.hist.logged);
  }

  lemma AddNothing(cs: seq<Cont>, refs: multiset<OpId>, ran: seq<Token>, queue: seq<Message>, logged: seq<Message>)
    ensures cs + [] == cs && refs + multiset{} == refs
    ensures ran + [] == ran && queue + [] == queue && logged + [] == logged
  {
  }

  ghost predicate ReenteredOutcome(s: State, t: State, calls: seq<Message>)
    requires s.ctl.queue != []
  {
    var m := s.ctl.queue[0];
    && SameFlags(s, t) && SameFiles(s, t) && t.ctl.queue == s.ctl.queue[1..] + calls
    && t.props == s.props && Fewer(s.heap, t.heap)
    && t.hist == s.hist.(delivered := s.hist.delivered + [m], ran := s.hist.ran + Called(m.token),
                         logged := s.hist.logged + calls)
    && t.heap.conts == s.heap.conts + WaitOf(s, m)
    && (t.data == s.data || t.data == Socket(false))
    && (m.token.Start? && m.token.op in s.heap.ops && m.token.op in s.heap.refs ==>
          t.data == s.data && t.heap.ops == s.heap.ops)
    && (!m.token.Start? ==> t.data == s.data && t.heap.ops == s.heap.ops)
  }

  lemma ReleaseTokenEffect(cfg: Config, s: State, token: Token)
    ensures var t := ReleaseToken(cfg, s, token);
            && t.ctl == s.ctl && SameClock(s.tmr, t.tmr)
            && t.props == s.props && SameFiles(s, t) && t.hist == s.hist
            && t.heap.conts == s.heap.conts && Fewer(s.heap, t.heap)
            && t.heap.refs == s.heap.refs - TokenRefs(token)
            && (t.data == s.data || t.data == Socket(false))
            && (!token.Start? || token.op in t.heap.refs ==> t.data == s.data && t.heap.ops == s.heap.ops)
  {
    if token.Start? {
      ReleaseChanges(cfg, s, token.op);
    } else {
      assert s.heap.refs - multiset{} == s.heap.refs;
    }
  }

  // what the wait of the front token adds is what its message gives up
  lemma HandedOn(refs: multiset<OpId>, token: Token, added: multiset<OpId>)
    requires added == multiset{} || added == TokenRefs(token)
    ensures refs + added - TokenRefs(token) <= refs
    ensures token.Start? && added != multiset{} && token.op in refs ==> token.op in refs + added - TokenRefs(token)
  {
  }

  lemma ReenteredEffect(cfg: Config, s: State, calls: seq<Message>)
    requires s.ctl.queue != [] && s.ctl.writes != []
    requires Callable(calls) && (s.ctl.queue[0].token.NoToken? ==> calls == [])
    ensures ReenteredOutcome(s, OnReentered(cfg, s, calls), calls)
  {
    var m := s.ctl.queue[0];
    DeliverEffect(cfg, s, calls);
    var t := Deliver(cfg, s, calls);
    var added := if WaitOf(s, m) == [] then multiset{} else multiset{m.token.op};
    HandedOn(s.heap.refs, m.token, added);
    ReleaseTokenEffect(cfg, t, m.token);
    PoppedEffect(cfg, s, t, calls);
  }

  lemma PoppedEffect(cfg: Config, s: State, t: State, calls: seq<Message>)
    requires s.ctl.queue != [] && s.ctl.writes != [] && t == Deliver(cfg, s, calls)
    requires t.ctl.queue == s.ctl.queue + calls
    requires ReenteredHalf(s, t, ReleaseToken(cfg, t, s.ctl.queue[0].token), calls)
    ensures ReenteredOutcome(s, OnReentered(cfg, s, calls), calls)
  {
    assert t.ctl.queue[0] == s.ctl.queue[0] && t.ctl.queue[1..] == s.ctl.queue[1..] + calls;
    DoWriteEffect(cfg, Pop(cfg, t));
  }

  // from `s` over the token's run to its release
  ghost predicate ReenteredHalf(s: State, t: State, u: State, calls: seq<Message>)
    requires s.ctl.queue != []
  {
    var m := s.ctl.queue[0];
    && SameFlags(s, t) && u.ctl == t.ctl && SameClock(s.tmr, u.tmr) && SameFiles(s, u)
    && u.props == s.props && Fewer(s.heap, u.heap)
    && u.hist == s.hist.(delivered := s.hist.delivered + [m], ran := s.hist.ran + Called(m.token),
                         logged := s.hist.logged + calls)
    && u.heap.conts == s.heap.conts + WaitOf(s, m)
    && (u.data == s.data || u.data == Socket(false))
    && (m.token.Start? && m.token.op in s.heap.ops && m.token.op in s.heap.refs ==>
          u.data == s.data && u.heap.ops == s.heap.ops)
    && (!m.token.Start? ==> u.data == s.data && u.heap.ops == s.heap.ops)
  }

  // the write handler, for a token of the daemon
  lemma WrittenEffect(cfg: Config, s: State)
    requires s.ctl.queue != [] && s.ctl.writes != []
    ensures var t := OnWritten(cfg, s);
            && ReenteredOutcome(s, t, [])
            && t.ctl.queue == s.ctl.queue[1..] && t.hist.logged == s.hist.logged
  {
    ReenteredEffect(cfg, s, []);
    assert s.ctl.queue[1..] + [] == s.ctl.queue[1..] && s.hist.logged + [] == s.hist.logged;
  }

  // ---------------------------------------------------------------- data connections

  // the accept handler
  lemma AcceptedEffect(cfg: Config, s: State, i: nat)
    requires i < |s.heap.conts|
    ensures var t := OnAccepted(cfg, s, i);
            var op := s.heap.conts[i].op;
            var m := Message(Code(DATA_CONN), Start(op));
            && SameFlags(s, t) && SameFiles(s, t) && t.ctl.queue == s.ctl.queue + [m]
            && t.props == s.props.(acceptor := Closed) && Fewer(s.heap, t.heap)
            && t.heap.conts == s.heap.conts[..i] + s.heap.conts[i + 1..] && t.heap.refs == s.heap.refs
            && t.hist == s.hist.(logged := s.hist.logged + [m])
            && (op in s.heap.refs ==> t.heap.ops == s.heap.ops && t.data == Socket(true))
  {
    var op := s.heap.conts[i].op;
    var t := TakeCont(s, i).(props := s.props.(acceptor := Closed), data := Socket(true));
    WriteEffect(cfg, t, Code(DATA_CONN), Start(op));
    ReleaseChanges(cfg, Write(cfg, t, Code(DATA_CONN), Start(op)), op);
    assert s.heap.refs + multiset{op} - multiset{op} == s.heap.refs;
  }

  lemma AcceptFailedEffect(cfg: Config, s: State, i: nat, aborted: bool)
    requires i < |s.heap.conts|
    ensures var t := OnAcceptFailed(cfg, s, i, aborted);
            && SameFlags(s, t) && SameFiles(s, t) && t.ctl.queue == s.ctl.queue
            && t.props == (if aborted then s.props else s.props.(acceptor := Closed))
            && t.hist == s.hist && Fewer(s.heap, t.heap)
            && t.heap.conts == s.heap.conts[..i] + s.heap.conts[i + 1..]
            && t.heap.refs == s.heap.refs - multiset{s.heap.conts[i].op}
            && (t.data == s.data || t.data == Socket(false))
  {
    var t := TakeCont(s, i);
    ReleaseChanges(cfg, if aborted then t else t.(props := t.props.(acceptor := Closed)), s.heap.conts[i].op);
  }

  // how a data handler ends: waiting again, with a 226, or given up
  datatype Outcome = Again(c: Cont) | Completes | GivesUp

  /** From `s`, the data handler `i` has run, ended as `outcome`, and left this in `sends` and
      `recvs` and on the data socket. */
  ghost predicate DataEnded(s: State, u: State, i: nat, outcome: Outcome, sends: map<OpId, SendFile.Transfer>,
                            recvs: map<OpId, RecvFile.Receiver>, dataOut: string)
    requires i < |s.heap.conts|
  {
    && SameFlags(s, u) && u.props == s.props && u.sends == sends && u.recvs == recvs && Fewer(s.heap, u.heap)
    && u.heap.conts == s.heap.conts[..i] + s.heap.conts[i + 1..] + (if outcome.Again? then [outcome.c] else [])
    && (if outcome.Again? then
          && u.heap.refs == s.heap.refs
          && (s.heap.conts[i].op in s.heap.refs ==> u.data == s.data && u.heap.ops == s.heap.ops)
        else u.heap.refs == s.heap.refs - multiset{s.heap.conts[i].op})
    && (if outcome.Completes? then
          var m := Message(Code(TRANSFER_COMPLETE), NoToken);
          && u.data == NoSocket && u.ctl.queue == s.ctl.queue + [m] && (s.ctl.queue == [] ==> u.ctl.pushed == 0)
          && u.hist == s.hist.(dataOut := dataOut, logged := s.hist.logged + [m])
        else
          && (u.data == s.data || u.data == Socket(false)) && u.ctl.queue == s.ctl.queue
          && u.hist == s.hist.(dataOut := dataOut))
  }

  // what a data handler has left when it has run
  function Ended(cfg: Config, s: State, outcome: Outcome): State {
    match outcome
    case Again(c) => AddCont(s, c)
    case Completes => Complete(cfg, s)
    case GivesUp => s
  }

  lemma DataEnd(cfg: Config, s: State, t: State, i: nat, outcome: Outcome, sends: map<OpId, SendFile.Transfer>,
                recvs: map<OpId, RecvFile.Receiver>, dataOut: string)
    requires i < |s.heap.conts|
    requires outcome.Again? ==> outcome.c.op == s.heap.conts[i].op
    requires t == TakeCont(s, i).(sends := sends, recvs := recvs, hist := s.hist.(dataOut := dataOut))
    ensures DataEnded(s, Release(cfg, Ended(cfg, t, outcome), s.heap.conts[i].op), i, outcome, sends, recvs, dataOut)
  {
    var op := s.heap.conts[i].op;
    ReleaseChanges(cfg, Ended(cfg, t, outcome), op);
    match outcome
    case Again(c) => assert s.heap.refs + multiset{op} - multiset{op} == s.heap.refs;
    case Completes =>
      WriteEffect(cfg, t, Code(TRANSFER_COMPLETE), NoToken);
      assert s.heap.refs + multiset{} == s.heap.refs;
    case GivesUp =>
  }

  function SendOutcome(next: SendFile.Next, op: OpId): Outcome {
    match next
    case AwaitWritable => Again(Writable(op))
    case AwaitTimer(expiry) => Again(Limiter(op, expiry))
    case Completed => Completes
    case Dropped => GivesUp
  }

  function ReceiveOutcome(ec: bool, status: RecvFile.Status, op: OpId): Outcome {
    if ec || status.UnexpectedTerminate? then GivesUp
    else if status.Finished? then Completes
    else Again(Readable(op))
  }

  lemma SendEffect(cfg: Config, s: State, i: nat, ec: bool, ret: SendFile.Ret)
    requires i < |s.heap.conts| && s.heap.conts[i].op in s.sends
    ensures var op := s.heap.conts[i].op;
            var before := s.sends[op];
            var (after, next) := SendFile.Deal(before, SendFile.Slice(cfg.downloadLimit), ec, ret, s.tmr.now);
            var bytes := if |before.sent| <= |after.sent| then after.sent[|before.sent|..] else "";
            DataEnded(s, OnSend(cfg, s, i, ec, ret), i, SendOutcome(next, op),
                      s.sends[op := after], s.recvs, s.hist.dataOut + bytes)
  {
    var op := s.heap.conts[i].op;
    var before := s.sends[op];
    var (after, next) := SendFile.Deal(before, SendFile.Slice(cfg.downloadLimit), ec, ret, s.tmr.now);
    var bytes := if |before.sent| <= |after.sent| then after.sent[|before.sent|..] else "";
    var t := TakeCont(s, i).(sends := s.sends[op := after], hist := s.hist.(dataOut := s.hist.dataOut + bytes));
    DataEnd(cfg, s, t, i, SendOutcome(next, op), s.sends[op := after], s.recvs, s.hist.dataOut + bytes);
  }

  lemma ReceiveEffect(cfg: Config, s: State, i: nat, ec: bool, script: seq<RecvFile.Splice>)
    requires i < |s.heap.conts| && s.heap.conts[i].op in s.recvs
    ensures var op := s.heap.conts[i].op;
            var (r, status) := RecvFile.Deal(s.recvs[op], script, None);
            DataEnded(s, OnReceive(cfg, s, i, ec, script), i, ReceiveOutcome(ec, status, op),
                      s.sends, if ec then s.recvs else s.recvs[op := r], s.hist.dataOut)
  {
    var op := s.heap.conts[i].op;
    var (r, status) := RecvFile.Deal(s.recvs[op], script, None);
    if ec {
      DataEnd(cfg, s, TakeCont(s, i), i, GivesUp, s.sends, s.recvs, s.hist.dataOut);
    } else {
      var t := TakeCont(s, i).(recvs := s.recvs[op := r]);
      DataEnd(cfg, s, t, i, ReceiveOutcome(ec, status, op), s.sends, s.recvs[op := r], s.hist.dataOut);
    }
  }

  lemma ListedEffect(cfg: Config, s: State, i: nat, bytes: string)
    requires i < |s.heap.conts|
    ensures DataEnded(s, OnListed(cfg, s, i, bytes), i, Completes, s.sends, s.recvs, s.hist.dataOut + bytes)
  {
    var t := TakeCont(s, i).(hist := s.hist.(dataOut := s.hist.dataOut + bytes));
    DataEnd(cfg, s, t, i, Completes, s.sends, s.recvs, s.hist.dataOut + bytes);
  }

  /** The three data handlers: each ends as DataEnded says. */
  ghost predicate DataStep(s: State, t: State, i: nat) {
    && i < |s.heap.conts| && !s.heap.conts[i].Accept?
    && exists outcome: Outcome, sends, recvs, dataOut ::
         && DataEnded(s, t, i, outcome, sends, recvs, dataOut)
         && s.hist.dataOut <= dataOut && (s.data != Socket(true) ==> dataOut == s.hist.dataOut)
         && (outcome.Again? ==> !outcome.c.Accept? && outcome.c.op == s.heap.conts[i].op)
  }

  // without a data connection nothing is sent
  lemma UnsentBytes(s: State, limit: nat, i: nat, ec: bool, ret: SendFile.Ret)
    requires i < |s.heap.conts| && s.heap.conts[i].op in s.sends && ec
    ensures SendFile.Deal(s.sends[s.heap.conts[i].op], SendFile.Slice(limit), ec, ret, s.tmr.now)
            == (s.sends[s.heap.conts[i].op], SendFile.Dropped)
  {
  }

  lemma SendIsDataStep(cfg: Config, s: State, i: nat, ec: bool, ret: SendFile.Ret)
    requires i < |s.heap.conts| && !s.heap.conts[i].Accept? && s.heap.conts[i].op in s.sends
    requires s.data != Socket(true) ==> ec
    ensures DataStep(s, OnSend(cfg, s, i, ec, ret), i)
  {
    SendEffect(cfg, s, i, ec, ret);
    var op := s.heap.conts[i].op;
    var before := s.sends[op];
    var (after, next) := SendFile.Deal(before, SendFile.Slice(cfg.downloadLimit), ec, ret, s.tmr.now);
    var bytes := if |before.sent| <= |after.sent| then after.sent[|before.sent|..] else "";
    if ec {
      UnsentBytes(s, cfg.downloadLimit, i, ec, ret);
    }
    SomeDataStep(s, OnSend(cfg, s, i, ec, ret), i, SendOutcome(next, op), s.sends[op := after], s.recvs, bytes);
  }

  lemma SomeDataStep(s: State, t: State, i: nat, outcome: Outcome, sends: map<OpId, SendFile.Transfer>,
                     recvs: map<OpId, RecvFile.Receiver>, bytes: string)
    requires i < |s.heap.conts| && !s.heap.conts[i].Accept?
    requires DataEnded(s, t, i, outcome, sends, recvs, s.hist.dataOut + bytes)
    requires s.data != Socket(true) ==> bytes == ""
    requires outcome.Again? ==> !outcome.c.Accept? && outcome.c.op == s.heap.conts[i].op
    ensures DataStep(s, t, i)
  {
    assert bytes == "" ==> s.hist.dataOut + bytes == s.hist.dataOut;
  }

  lemma IsDataStep(cfg: Config, s: State, e: Event)
    requires Enabled(cfg, s, e) && (e.Sendable? || e.Receivable? || e.Listed?)
    ensures DataStep(s, Step(cfg, s, e), e.i)
  {
    match e
    case Sendable(i, ec, ret) => SendIsDataStep(cfg, s, i, ec, ret);
    case Receivable(i, ec, script) => ReceiveIsDataStep(cfg, s, i, ec, script);
    case Listed(i, bytes) => ListIsDataStep(cfg, s, i, bytes);
  }

  lemma ReceiveIsDataStep(cfg: Config, s: State, i: nat, ec: bool, script: seq<RecvFile.Splice>)
    requires i < |s.heap.conts| && s.heap.conts[i].Readable? && s.heap.conts[i].op in s.recvs
    ensures DataStep(s, OnReceive(cfg, s, i, ec, script), i)
  {
    ReceiveEffect(cfg, s, i, ec, script);
  }

  lemma ListIsDataStep(cfg: Config, s: State, i: nat, bytes: string)
    requires i < |s.heap.conts| && s.heap.conts[i].DataWrite? && (bytes == "" || s.data == Socket(true))
    ensures DataStep(s, OnListed(cfg, s, i, bytes), i)
  {
    ListedEffect(cfg, s, i, bytes);
    SomeDataStep(s, OnListed(cfg, s, i, bytes), i, Completes, s.sends, s.recvs, bytes);
  }

  // ---------------------------------------------------------------- every event

  /** What holds of every step. Operations: only a line brings in a new one, and no reference
      is duplicated. Properties: only a line changes any but the acceptor. History: everything
      only grows. Streams: a data connection that is not open carries nothing. */
  ghost predicate Stepped(s: State, e: Event, t: State) {
    && FlagsStepped(s, e, t) && HeapStepped(s.heap, e, t.heap) && HistoryStepped(s, e, t)
    && (!e.Line? ==> t.props == s.props.(acceptor := t.props.acceptor))
    && (!e.Line? && !e.AcceptOk? && !e.AcceptFailed? ==> t.props == s.props)
    && (!e.Line? && !e.Sendable? ==> t.sends == s.sends)
    && (!e.Line? && !e.Incoming? && !e.Receivable? ==> t.recvs == s.recvs)
    && (s.data != Socket(true) && !e.AcceptOk? ==> t.data != Socket(true) && t.hist.dataOut == s.hist.dataOut)
  }

  ghost predicate FlagsStepped(s: State, e: Event, t: State) {
    && (t.ctl.stopped != s.ctl.stopped ==> t.ctl.stopped && (e.Eof? || e.IdleHandler?))
    && (t.ctl.phase != s.ctl.phase ==> s.ctl.phase.Starting? && !t.ctl.phase.Starting?)
    && (t.ctl.reading && !s.ctl.reading ==> s.ctl.phase.Starting?)
    && (s.ctl.reading && !t.ctl.reading ==> e.Eof? || e.ReadError?)
    && (!e.Eof? ==> Kept(t.tmr) == Kept(s.tmr))
  }

  ghost predicate HeapStepped(s: Heap, e: Event, t: Heap) {
    if e.Line? then
      s.next <= t.next && t.refs <= s.refs + multiset{s.next}
    else Fewer(s, t)
  }

  ghost predicate HistoryStepped(s: State, e: Event, t: State) {
    && s.hist.logged <= t.hist.logged && s.hist.delivered <= t.hist.delivered
    && s.hist.transfers <= t.hist.transfers
    && (!e.Line? ==> t.hist.transfers == s.hist.transfers && t.hist.executed == s.hist.executed)
    && (!e.Reenters? ==> |t.hist.logged| <= |s.hist.logged| + 1)
    && (!e.Line? && !e.WriteFailed? ==> t.hist.stalled == s.hist.stalled)
    && t.hist.consumed == (if e.Line? then AtLine(s).hist.consumed else s.hist.consumed)
    && t.hist.received == (if e.Arrive? then s.hist.received + e.bytes else s.hist.received)
    && s.hist.wire <= t.hist.wire && s.hist.dataOut <= t.hist.dataOut
    && (!e.Push? ==> t.hist.wire == s.hist.wire)
    && t.hist.writeFailed == (s.hist.writeFailed || e.WriteFailed?)
  }

  ghost predicate IsQuiet(e: Event) {
    e.Tick? || e.Push? || e.Arrive? || e.Eof? || e.ReadError? || e.IdleExpires? || e.IdleHandler? || e.Incoming?
  }

  lemma QuietStepped(cfg: Config, s: State, e: Event)
    requires Enabled(cfg, s, e) && IsQuiet(e)
    ensures Stepped(s, e, Step(cfg, s, e)) && Step(cfg, s, e).heap == s.heap
    ensures Step(cfg, s, e).ctl.queue == s.ctl.queue && Step(cfg, s, e).hist.logged == s.hist.logged
  {
    if e.Eof? || e.IdleHandler? {
      ClosingStepped(cfg, s, e);
    } else {
      OutsideStepped(cfg, s, e);
    }
  }

  lemma ClosingStepped(cfg: Config, s: State, e: Event)
    requires Enabled(cfg, s, e) && (e.Eof? || e.IdleHandler?)
    ensures var t := Step(cfg, s, e);
            t == s.(ctl := t.ctl, tmr := t.tmr) && t.ctl.queue == s.ctl.queue && Stepped(s, e, t)
  {
  }

  lemma OutsideStepped(cfg: Config, s: State, e: Event)
    requires Enabled(cfg, s, e) && IsQuiet(e) && !e.Eof? && !e.IdleHandler?
    ensures var t := Step(cfg, s, e);
            && t == s.(ctl := t.ctl, tmr := t.tmr, hist := t.hist, recvs := t.recvs)
            && t.ctl.queue == s.ctl.queue && t.hist.logged == s.hist.logged && Stepped(s, e, t)
  {
  }

  lemma LineStepped(cfg: Config, s: State)
    ensures Stepped(s, Line, OnLine(cfg, s))
  {
    LineEffect(cfg, s);
    var t := OnLine(cfg, s);
    if ParseLine(FirstLine(s)).None? {
      BlankStepped(s, t);
    } else {
      var req := ParseLine(FirstLine(s)).value;
      match RouteOf(s.props, req)
      case Reject(reply) => RejectStepped(s, t, reply);
      case Run(kind) =>
        if IsTransfer(kind) {
          TransferStepped(s, t, kind, req, OpenTransfer(cfg, s.props, kind, req.body));
        } else {
          var (props, reply) := Answer(cfg, s.props, kind, req);
          SimpleStepped(s, t, kind, props, reply);
        }
    }
  }

  lemma BlankStepped(s: State, t: State)
    requires t == AtLine(s).(tmr := t.tmr) && SameClock(s.tmr, t.tmr)
    ensures Stepped(s, Line, t)
  {
  }

  lemma RejectStepped(s: State, t: State, reply: Reply)
    requires RejectOutcome(AtLine(s), t, reply)
    ensures Stepped(s, Line, t)
  {
  }

  lemma SimpleStepped(s: State, t: State, kind: Kind, props: Props, reply: Reply)
    requires SimpleOutcome(AtLine(s), t, kind, props, reply)
    ensures Stepped(s, Line, t)
  {
  }

  lemma TransferStepped(s: State, t: State, kind: Kind, req: Request, got: Opened)
    requires TransferOutcome(AtLine(s), t, kind, req, got)
    ensures Stepped(s, Line, t)
  {
  }

  lemma WriteStepped(cfg: Config, s: State, e: Event)
    requires Enabled(cfg, s, e) && (e.Written? || e.Reenters? || e.WriteFailed?)
    ensures Stepped(s, e, Step(cfg, s, e))
  {
    if e.Reenters? {
      ReenteredStepped(cfg, s, e.calls);
    } else if !s.ctl.phase.Starting? {
      if e.Written? { WrittenEffect(cfg, s); } else { WriteFailedEffect(cfg, s); }
    }
  }

  lemma ReenteredStepped(cfg: Config, s: State, calls: seq<Message>)
    requires s.ctl.queue != [] && s.ctl.writes != []
    requires Callable(calls) && (s.ctl.queue[0].token.NoToken? ==> calls == [])
    ensures Stepped(s, Reenters(calls), OnReentered(cfg, s, calls))
  {
    ReenteredEffect(cfg, s, calls);
  }

  lemma AcceptStepped(cfg: Config, s: State, e: Event)
    requires Enabled(cfg, s, e) && (e.AcceptOk? || e.AcceptFailed?)
    ensures Stepped(s, e, Step(cfg, s, e))
  {
    if e.AcceptOk? { AcceptedEffect(cfg, s, e.i); } else { AcceptFailedEffect(cfg, s, e.i, e.aborted); }
  }

  lemma DataStepped(cfg: Config, s: State, e: Event)
    requires Enabled(cfg, s, e) && (e.Sendable? || e.Receivable? || e.Listed?)
    ensures Stepped(s, e, Step(cfg, s, e))
  {
    IsDataStep(cfg, s, e);
    DataFiles(cfg, s, e);
    var t := Step(cfg, s, e);
    var outcome: Outcome, sends, recvs, dataOut :|
      && DataEnded(s, t, e.i, outcome, sends, recvs, dataOut)
      && s.hist.dataOut <= dataOut && (s.data != Socket(true) ==> dataOut == s.hist.dataOut);
    EndedStepped(s, e, t, outcome, sends, recvs, dataOut);
  }

  lemma DataFiles(cfg: Config, s: State, e: Event)
    requires Enabled(cfg, s, e) && (e.Sendable? || e.Receivable? || e.Listed?)
    ensures !e.Sendable? ==> Step(cfg, s, e).sends == s.sends
    ensures !e.Receivable? ==> Step(cfg, s, e).recvs == s.recvs
  {
    match e
    case Sendable(i, ec, ret) => SendEffect(cfg, s, i, ec, ret);
    case Receivable(i, ec, script) => ReceiveEffect(cfg, s, i, ec, script);
    case Listed(i, bytes) => ListedEffect(cfg, s, i, bytes);
  }

  lemma EndedStepped(s: State, e: Event, t: State, outcome: Outcome, sends: map<OpId, SendFile.Transfer>,
                     recvs: map<OpId, RecvFile.Receiver>, dataOut: string)
    requires (e.Sendable? || e.Receivable? || e.Listed?) && e.i < |s.heap.conts|
    requires DataEnded(s, t, e.i, outcome, sends, recvs, dataOut)
    requires s.hist.dataOut <= dataOut && (s.data != Socket(true) ==> dataOut == s.hist.dataOut)
    requires (!e.Sendable? ==> t.sends == s.sends) && (!e.Receivable? ==> t.recvs == s.recvs)
    ensures Stepped(s, e, t)
  {
  }

  lemma StepEffect(cfg: Config, s: State, e: Event)
    requires Enabled(cfg, s, e)
    ensures Stepped(s, e, Step(cfg, s, e))
  {
    if e.Line? {
      LineStepped(cfg, s);
    } else if IsQuiet(e) {
      QuietStepped(cfg, s, e);
    } else if e.Written? || e.Reenters? || e.WriteFailed? {
      WriteStepped(cfg, s, e);
    } else if e.AcceptOk? || e.AcceptFailed? {
      AcceptStepped(cfg, s, e);
    } else {
      DataStepped(cfg, s, e);
    }
  }
}
