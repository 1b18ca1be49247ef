/** When a download can succeed at all: a run that completes, for every file that can be delivered. */
module Delivery {
  import opened Text
  import opened Requests
  import opened Replies
  import opened Commands
  import opened Engine
  import opened SessionEffects
  import opened SessionInvariants
  import opened SessionRuns
  import opened SessionSends
  import opened Sequential
  import opened Script
  import opened ScriptRuns
  import opened Client
  import opened Download
  import Paths
  import SendFile
  import RecvFile

  /** The server can open the file and listen for a connection, and std::stol can read the size. */
  ghost predicate Deliverable(cfg: Config, file: string) {
    && Opens(cfg, file) && Exists(cfg, file) && |Content(cfg, file)| < LONG_BOUND && Listens(cfg)
  }

  // ---------------------------------------------------------------- one more move

  lemma Extend(cfg: Config, now: int, file: string, moves: seq<Move>, m: Move)
    requires Possible(cfg, now, Play(cfg, now, file, moves), m)
    ensures Play(cfg, now, file, moves + [m]) == Apply(cfg, now, file, Play(cfg, now, file, moves), m)
  {
    assert (moves + [m])[..|moves + [m]| - 1] == moves;
  }

  lemma ServerMove(cfg: Config, now: int, file: string, moves: seq<Move>, e: Event) returns (ms: seq<Move>)
    requires !e.Arrive? && !e.AcceptOk? && !e.Reenters?
    ensures var w, v := Play(cfg, now, file, moves), Play(cfg, now, file, ms);
            && Session(cfg, now, v) == Step(cfg, Session(cfg, now, w), e)
            && v == w.(trace := w.trace + [e])
  {
    ms := moves + [Server(e)];
    Extend(cfg, now, file, moves, Server(e));
    ReachSnoc(cfg, now, Play(cfg, now, file, moves).trace, e);
  }

  lemma LineMove(cfg: Config, now: int, file: string, moves: seq<Move>) returns (ms: seq<Move>)
    requires Enabled(cfg, Session(cfg, now, Play(cfg, now, file, moves)), Line)
    ensures var w, v := Play(cfg, now, file, moves), Play(cfg, now, file, ms);
            && Session(cfg, now, v) == OnLine(cfg, Session(cfg, now, w))
            && v == w.(trace := w.trace + [Line])
  {
    ms := ServerMove(cfg, now, file, moves, Line);
  }

  // ---------------------------------------------------------------- a reply gets through

  /** The session can go on: nothing has failed, and all its input is executed. */
  ghost predicate Awake(s: State) {
    s.ctl.phase.Started? && s.ctl.reading && !s.ctl.stopped && !s.hist.writeFailed && s.ctl.buf == ""
  }

  /** The client has read everything that has been delivered. */
  ghost predicate Even(cfg: Config, s: State, c: Client) {
    c.buf == "" && Concat(c.heard) == Banner(cfg) + Texts(s.hist.delivered)
  }

  /** From `s` to `u` nothing but the delivery of `m` has happened. */
  ghost predicate Delivered(s: State, u: State, m: Message) {
    && Awake(u) && u.ctl.queue == [] && u.tmr.now == s.tmr.now
    && u.props == s.props && u.sends == s.sends && u.hist.transfers == s.hist.transfers
    && u.hist.delivered == s.hist.delivered + [m] && u.hist.received == s.hist.received
    && u.hist.dataOut == s.hist.dataOut && u.hist.logged == s.hist.logged && u.hist.consumed == s.hist.consumed
    && u.heap.conts == s.heap.conts + WaitOf(s, m)
    && (m.token.Start? && m.token.op in s.heap.ops ==> u.data == s.data)
  }

  // the outstanding write leaves
  lemma PushRest(cfg: Config, s: State, m: Message) returns (k: nat)
    requires Done(cfg, s, multiset{}) && Awake(s) && s.ctl.queue == [m]
    ensures Enabled(cfg, s, Push(k)) && s.ctl.writes == [m.reply.text] && s.ctl.pushed + k == |m.reply.text|
  {
    k := |m.reply.text| - s.ctl.pushed;
  }

  lemma PushedEnabled(cfg: Config, s: State, m: Message, k: nat)
    requires Enabled(cfg, s, Push(k)) && Awake(s) && s.ctl.queue == [m] && !NoDataFor(s, m.token)
    requires s.ctl.writes == [m.reply.text] && s.ctl.pushed + k == |m.reply.text|
    ensures var t := Step(cfg, s, Push(k));
            && Enabled(cfg, t, Written) && Awake(t) && t.ctl.queue == [m] && t.ctl.writes == s.ctl.writes
            && Step(cfg, t, Written) == OnWritten(cfg, t)
            && t.heap == s.heap && t.props == s.props && t.sends == s.sends && t.tmr == s.tmr && t.data == s.data
            && t.hist == s.hist.(wire := t.hist.wire)
  {
  }

  lemma WrittenDelivers(cfg: Config, s: State, t: State, m: Message)
    requires m.token.Start? && m.token.op in s.heap.ops ==> m.token.op in s.heap.refs
    requires Awake(t) && t.ctl.queue == [m] && t.ctl.writes != []
    requires t.heap == s.heap && t.props == s.props && t.sends == s.sends && t.tmr == s.tmr && t.data == s.data
    requires t.hist == s.hist.(wire := t.hist.wire)
    ensures Delivered(s, OnWritten(cfg, t), m)
  {
    WrittenEffect(cfg, t);
  }

  lemma EvenWire(cfg: Config, s: State)
    requires Done(cfg, s, multiset{}) && Awake(s) && s.ctl.queue == []
    ensures s.hist.wire == Banner(cfg) + Texts(s.hist.delivered)
  {
  }

  /** Both sides after the client has read the reply `m`. */
  ghost predicate Heard(cfg: Config, now: int, w: World, v: World, file: string, m: Message) {
    && Delivered(Session(cfg, now, w), Session(cfg, now, v), m)
    && Even(cfg, Session(cfg, now, v), v.client)
    && v.client == OnReply(w.client, file, m.reply.text, true)
    && v.connected == w.connected && v.accepted == w.accepted
  }

  lemma DriveReply(cfg: Config, now: int, file: string, moves: seq<Move>, m: Message) returns (ms: seq<Move>)
    requires var w := Play(cfg, now, file, moves);
             var s := Session(cfg, now, w);
             && Awake(s) && s.ctl.queue == [m] && Even(cfg, s, w.client) && w.client.stage.Awaiting? && Printed(m.reply)
             && !NoDataFor(s, m.token)
    ensures Heard(cfg, now, Play(cfg, now, file, moves), Play(cfg, now, file, ms), file, m)
  {
    var w := Play(cfg, now, file, moves);
    var s := Session(cfg, now, w);
    AlwaysInv(cfg, now, w.trace);
    var k := PushRest(cfg, s, m);
    PushedEnabled(cfg, s, m, k);
    ms := ServerMove(cfg, now, file, moves, Push(k));
    var t := Session(cfg, now, Play(cfg, now, file, ms));
    WrittenDelivers(cfg, s, t, m);
    ms := ServerMove(cfg, now, file, ms, Written);
    var v := Play(cfg, now, file, ms);
    AlwaysInv(cfg, now, v.trace);
    EvenWire(cfg, Session(cfg, now, v));
    ms := ReadReply(cfg, now, file, ms, s.hist.delivered, m);
  }

  // the client gets and reads the one reply it has not got
  lemma ReadReply(cfg: Config, now: int, file: string, moves: seq<Move>, delivered: seq<Message>, m: Message)
    returns (ms: seq<Move>)
    requires var w := Play(cfg, now, file, moves);
             var s := Session(cfg, now, w);
             && s.hist.delivered == delivered + [m] && s.hist.wire == Banner(cfg) + Texts(s.hist.delivered)
             && w.client.buf == "" && Concat(w.client.heard) == Banner(cfg) + Texts(delivered)
             && w.client.stage.Awaiting? && Printed(m.reply)
    ensures var w, v := Play(cfg, now, file, moves), Play(cfg, now, file, ms);
            && v == w.(client := OnReply(w.client, file, m.reply.text, true))
            && Even(cfg, Session(cfg, now, v), v.client)
  {
    var c := Play(cfg, now, file, moves).client;
    TextsSnoc(delivered, m);
    Assoc3(Banner(cfg), Texts(delivered), m.reply.text);
    ms := ReadLine(cfg, now, file, moves, m.reply);
    ConcatSnoc(c.heard, m.reply.text);
  }

  lemma ReadLine(cfg: Config, now: int, file: string, moves: seq<Move>, reply: Reply) returns (ms: seq<Move>)
    requires var w := Play(cfg, now, file, moves);
             && w.client.buf == "" && Session(cfg, now, w).hist.wire == Concat(w.client.heard) + reply.text
             && w.client.stage.Awaiting? && Printed(reply)
    ensures var w, v := Play(cfg, now, file, moves), Play(cfg, now, file, ms);
            && v == w.(client := OnReply(w.client, file, reply.text, true))
            && v.client.buf == "" && v.client.heard == w.client.heard + [reply.text]
  {
    var c := Play(cfg, now, file, moves).client;
    PrintedLine(reply);
    ms := FetchReply(cfg, now, file, moves, reply.text);
    HeardText(c, Play(cfg, now, file, ms).client, file, reply.text);
    Extend(cfg, now, file, ms, Hear(true));
    ms := ms + [Hear(true)];
  }

  lemma Assoc3(a: string, b: string, c: string)
    ensures a + (b + c) == a + b + c
  {
  }

  lemma FetchReply(cfg: Config, now: int, file: string, moves: seq<Move>, text: string) returns (ms: seq<Move>)
    requires var w := Play(cfg, now, file, moves);
             w.client.buf == "" && Session(cfg, now, w).hist.wire == Concat(w.client.heard) + text
    ensures Play(cfg, now, file, ms) ==
            Play(cfg, now, file, moves).(client := Play(cfg, now, file, moves).client.(buf := text))
  {
    Brings(cfg, now, file, Play(cfg, now, file, moves), text);
    ms := moves + [ToClient(|text|)];
    Extend(cfg, now, file, moves, ToClient(|text|));
  }

  lemma Brings(cfg: Config, now: int, file: string, w: World, text: string)
    requires w.client.buf == "" && Session(cfg, now, w).hist.wire == Concat(w.client.heard) + text
    ensures Possible(cfg, now, w, ToClient(|text|))
    ensures Apply(cfg, now, file, w, ToClient(|text|)) == w.(client := w.client.(buf := text))
  {
    Tail(Concat(w.client.heard), text);
    assert w.client.buf + text == text;
  }

  lemma HeardText(c: Client, b: Client, file: string, text: string)
    requires c.buf == "" && b == c.(buf := text) && OneLine(text)
    ensures LineEnd(b.buf) > 0
    ensures OnLineRead(b, file, true) == OnReply(c, file, text, true)
    ensures OnReply(c, file, text, true).buf == "" && OnReply(c, file, text, true).heard == c.heard + [text]
  {
    assert LineEnd(text) == |text|;
    assert text[..|text|] == text && text[|text|..] == c.buf;
    assert b.(buf := text[|text|..]) == c;
    ReplyHeard(c, file, text, true);
    ReplyBuf(c, file, text);
  }

  lemma ReplyBuf(c: Client, file: string, line: string)
    ensures OnReply(c, file, line, true).buf == c.buf
  {
  }

  // ---------------------------------------------------------------- the welcome line

  lemma BannerGoes(cfg: Config, now: int, k: nat)
    requires k == |Banner(cfg)|
    ensures var s := Init(cfg, now);
            var t := Step(cfg, s, Push(k));
            var u := Step(cfg, t, Written);
            && Awake(u) && u.ctl.queue == [] && u.hist == s.hist.(wire := Banner(cfg))
  {
    var b := Banner(cfg);
    assert "" + b[0..k] == b;
  }

  /** After `k` exchanges the session is idle, and the client has sent its next request, or knows where to connect. */
  ghost predicate At(cfg: Config, now: int, w: World, file: string, k: nat) {
    var s, c := Session(cfg, now, w), w.client;
    && k <= 4 && Awake(s) && s.ctl.queue == [] && s.hist.transfers == [] && Lines(s.hist.consumed) == Prints(file)[..k]
    && !w.accepted && Even(cfg, s, c) && |c.heard| == k + 1 && c.recv == RecvFile.Start()
    && (if k < 4 then c.stage.Awaiting? && c.sent == s.hist.received + Prints(file)[k]
        else c.stage.Connecting? && c.sent == s.hist.received)
  }

  lemma DriveBanner(cfg: Config, now: int, file: string) returns (ms: seq<Move>)
    requires Fits(cfg, file)
    ensures At(cfg, now, Play(cfg, now, file, ms), file, 0)
  {
    var k := |Banner(cfg)|;
    BannerGoes(cfg, now, k);
    var none: seq<Message> := [];
    WelcomePrinted(cfg, none);
    ms := [];
    ms := ServerMove(cfg, now, file, ms, Push(k));
    ms := ServerMove(cfg, now, file, ms, Written);
    var welcome := Said(cfg, none, 0);
    assert Play(cfg, now, file, ms).client == Begin();
    assert Concat(Begin().heard) + welcome.text == Banner(cfg);
    ms := ReadLine(cfg, now, file, ms, welcome);
    WelcomeMoves(file, welcome, Begin());
    Starts(cfg, now, file, Play(cfg, now, file, ms));
  }

  lemma Starts(cfg: Config, now: int, file: string, w: World)
    requires var s, c := Session(cfg, now, w), w.client;
             && Awake(s) && s.ctl.queue == [] && s.hist == Init(cfg, now).hist.(wire := Banner(cfg))
             && !w.accepted && c.buf == "" && |c.heard| == 1 && Concat(c.heard) == Banner(cfg)
             && c.stage.Awaiting? && c.sent == Prints(file)[0] && c.recv == RecvFile.Start()
    ensures At(cfg, now, w, file, 0)
  {
    var s := Session(cfg, now, w);
    var none := s.hist.consumed;
    assert none == "" && Lines(none) == [] && Prints(file)[..0] == [];
    assert s.hist.received == "" && "" + Prints(file)[0] == Prints(file)[0];
    assert Banner(cfg) + Texts(s.hist.delivered) == Banner(cfg);
  }

  lemma WelcomeMoves(file: string, welcome: Reply, c: Client)
    requires Printed(welcome) && welcome.code == WELCOME && c == Begin()
    ensures var d := OnReply(c, file, welcome.text, true);
            && d.stage.Awaiting? && d.sent == Prints(file)[0] && d.recv == RecvFile.Start() && |d.heard| == 1
            && d.heard == [welcome.text] && Concat(d.heard) == welcome.text
  {
    ReadsBack(welcome, welcome.text);
    ConcatSnoc([], welcome.text);
    assert [] + [welcome.text] == [welcome.text];
  }

  // ---------------------------------------------------------------- the first four exchanges

  lemma NeverThrows(cfg: Config, p: Props, req: Request, file: string, k: nat)
    requires k < 4 && p.verified == (k >= 2) && Seen(req, file, k)
    ensures !Throws(cfg, p, req)
  {
    Registrations();
  }

  // what the k-th line is to the session
  lemma LineReady(cfg: Config, s: State, file: string, k: nat) returns (req: Request)
    requires NoBreak(file) && k < 4 && Follows(cfg, s)
    requires s.ctl.reading && s.ctl.buf == Prints(file)[k] && Lines(s.hist.consumed) == Prints(file)[..k]
    ensures Enabled(cfg, s, Line) && LineEnd(s.ctl.buf) == |s.ctl.buf| > 0
    ensures ParseLine(FirstLine(s)) == Some(req) && RouteOf(s.props, req) == Run(KindOf(k)) && !IsTransfer(KindOf(k))
    ensures Answer(cfg, s.props, KindOf(k), req).1 == FirstReplies(cfg, file)[k]
  {
    FollowsProps(cfg, s, file, k);
    PrintedLines(file, k);
    assert FirstLine(s) == s.ctl.buf;
    req := ParseLine(Prints(file)[k]).value;
    SeenRuns(cfg, s.props, req, file, k);
  }

  lemma FollowsProps(cfg: Config, s: State, file: string, k: nat)
    requires NoBreak(file) && k <= 4 && Follows(cfg, s) && Lines(s.hist.consumed) == Prints(file)[..k]
    ensures s.props == After(cfg, file, k)
  {
    ServesScript(cfg, file, k);
  }

  lemma SeenRuns(cfg: Config, p: Props, req: Request, file: string, k: nat)
    requires k < 4 && p == After(cfg, file, k) && Seen(req, file, k)
    ensures RouteOf(p, req) == Run(KindOf(k)) && !IsTransfer(KindOf(k)) && !Throws(cfg, p, req)
    ensures Answer(cfg, p, KindOf(k), req).1 == FirstReplies(cfg, file)[k]
  {
    RouteSeen(p, req, file, k);
    NeverThrows(cfg, p, req, file, k);
    AnswersSeen(cfg, req, file, k);
  }

  /** The session with the k-th line in its buffer answers it. */
  lemma LineAnswers(cfg: Config, s: State, file: string, k: nat)
    requires NoBreak(file) && k < 4 && Follows(cfg, s) && InputOk(s) && s.hist.transfers == []
    requires s.ctl.phase.Started? && s.ctl.reading && !s.ctl.stopped && !s.hist.writeFailed && s.ctl.queue == []
    requires s.ctl.buf == Prints(file)[k] && Lines(s.hist.consumed) == Prints(file)[..k]
    ensures Enabled(cfg, s, Line) && Answered(s, OnLine(cfg, s), FirstReplies(cfg, file)[k])
    ensures Lines(OnLine(cfg, s).hist.consumed) == Prints(file)[..k + 1]
  {
    var req := LineReady(cfg, s, file, k);
    OnLineAnswers(cfg, s, KindOf(k), req);
    SimpleAnswered(cfg, s, KindOf(k), req);
    OnLineConsumes(cfg, s);
    LinesGrow(s, Prints(file), k);
  }

  lemma OnLineConsumes(cfg: Config, s: State)
    ensures OnLine(cfg, s).hist.consumed == AtLine(s).hist.consumed
  {
    LineStepped(cfg, s);
  }

  lemma LinesGrow(s: State, script: seq<string>, k: nat)
    requires k < |script| && InputOk(s) && LineEnd(s.ctl.buf) == |s.ctl.buf| > 0
    requires s.ctl.buf == script[k] && Lines(s.hist.consumed) == script[..k]
    ensures Lines(AtLine(s).hist.consumed) == script[..k + 1]
  {
    assert FirstLine(s) == s.ctl.buf;
    ConsumedLines(s);
    TakeOne(script, k + 1);
  }

  // one more reply, nothing else of interest
  ghost predicate Answered(s: State, t: State, reply: Reply) {
    && Awake(t) && t.ctl.queue == [Message(reply, NoToken)] && t.hist.transfers == s.hist.transfers
    && t.hist.received == s.hist.received && t.hist.delivered == s.hist.delivered
  }

  lemma SimpleAnswered(cfg: Config, s: State, kind: Kind, req: Request)
    requires !IsTransfer(kind) && LineEnd(s.ctl.buf) == |s.ctl.buf| && s.ctl.queue == []
    requires s.ctl.phase.Started? && s.ctl.reading && !s.ctl.stopped && !s.hist.writeFailed
    ensures Answered(s, RunSimple(cfg, AtLine(s), kind, req), Answer(cfg, s.props, kind, req).1)
  {
    SimpleEffect(cfg, AtLine(s), kind, req);
  }

  // the next request arrives whole
  lemma DriveInput(cfg: Config, now: int, file: string, moves: seq<Move>, line: string) returns (ms: seq<Move>)
    requires var w := Play(cfg, now, file, moves);
             var s := Session(cfg, now, w);
             s.ctl.reading && s.ctl.buf == "" && w.client.sent == s.hist.received + line
    ensures var w, v := Play(cfg, now, file, moves), Play(cfg, now, file, ms);
            var s, t := Session(cfg, now, w), Session(cfg, now, v);
            && t == s.(ctl := s.ctl.(buf := line), hist := s.hist.(received := s.hist.received + line))
            && v == w.(trace := w.trace + [Arrive(line)])
  {
    var w := Play(cfg, now, file, moves);
    Sends(cfg, now, file, w, line);
    ms := moves + [ToServer(|line|)];
    Extend(cfg, now, file, moves, ToServer(|line|));
    ReachSnoc(cfg, now, w.trace, Arrive(line));
    Arrives(cfg, Session(cfg, now, w), line);
  }

  lemma Sends(cfg: Config, now: int, file: string, w: World, line: string)
    requires Session(cfg, now, w).ctl.reading && w.client.sent == Session(cfg, now, w).hist.received + line
    ensures Possible(cfg, now, w, ToServer(|line|))
    ensures Apply(cfg, now, file, w, ToServer(|line|)) == w.(trace := w.trace + [Arrive(line)])
  {
    Tail(Session(cfg, now, w).hist.received, line);
  }

  lemma Tail(a: string, b: string)
    ensures (a + b)[|a|..|a| + |b|] == b
  {
  }

  lemma Arrives(cfg: Config, s: State, line: string)
    requires s.ctl.reading && s.ctl.buf == ""
    ensures Step(cfg, s, Arrive(line)) ==
              s.(ctl := s.ctl.(buf := line), hist := s.hist.(received := s.hist.received + line))
  {
    assert s.ctl.buf + line == line;
  }

  // a request has been answered, the reply is on its way
  ghost predicate Asking(cfg: Config, now: int, w: World, file: string, k: nat) {
    var s, c := Session(cfg, now, w), w.client;
    && k < 4 && Awake(s) && s.ctl.queue == [Message(FirstReplies(cfg, file)[k], NoToken)]
    && s.hist.transfers == [] && Lines(s.hist.consumed) == Prints(file)[..k + 1]
    && !w.accepted && Even(cfg, s, c) && |c.heard| == k + 1 && c.recv == RecvFile.Start()
    && c.stage.Awaiting? && c.sent == s.hist.received
  }

  lemma DriveRequest(cfg: Config, now: int, file: string, moves: seq<Move>, k: nat) returns (ms: seq<Move>)
    requires NoBreak(file) && k < 4 && At(cfg, now, Play(cfg, now, file, moves), file, k)
    ensures Asking(cfg, now, Play(cfg, now, file, ms), file, k)
  {
    ms := DriveInput(cfg, now, file, moves, Prints(file)[k]);
    var v := Play(cfg, now, file, ms);
    var s := Session(cfg, now, v);
    FollowsThroughout(cfg, now, v.trace);
    InputThroughout(cfg, now, v.trace);
    LineAnswers(cfg, s, file, k);
    ms := LineMove(cfg, now, file, ms);
  }

  // ---------------------------------------------------------------- the client's side of them

  lemma ExpectedReplies(cfg: Config, file: string, k: nat)
    requires k < 4 && (k >= 2 ==> Deliverable(cfg, file))
    ensures FirstReplies(cfg, file)[k].code == Expected(k + 1)
  {
  }

  lemma ClientGoes(cfg: Config, c: Client, file: string, k: nat)
    requires Fits(cfg, file) && k < 4 && (k >= 2 ==> Deliverable(cfg, file))
    requires |c.heard| == k + 1 && c.stage.Awaiting?
    ensures var d := OnReply(c, file, FirstReplies(cfg, file)[k].text, true);
            && d.recv == c.recv && |d.heard| == k + 2
            && (if k < 3 then d.stage.Awaiting? && d.sent == c.sent + Prints(file)[k + 1]
                else d.stage.Connecting? && d.stage.port > 0 && d.sent == c.sent)
  {
    var r := FirstReplies(cfg, file)[k];
    PlainAddress(cfg, file);
    FirstRepliesPrinted(cfg, file);
    assert r in FirstReplies(cfg, file);
    ReadsBack(r, r.text);
    ExpectedReplies(cfg, file, k);
    if k == 2 {
      SizeGoes(cfg, c, file, r.text);
    } else if k == 3 {
      PassiveGoes(cfg, c, file, r.text);
    }
  }

  lemma SizeGoes(cfg: Config, c: Client, file: string, line: string)
    requires Deliverable(cfg, file) && |c.heard| == 3
    requires line == SizeReply(AfterPass(cfg), Normal(file)).text && Matches(line, 3)
    ensures var d := OnReply(c, file, line, true);
            d.recv == c.recv && |d.heard| == 4 && d.stage.Awaiting? && d.sent == c.sent + Prints(file)[3]
  {
    SizeHeard(cfg, file, line);
  }

  lemma PassiveGoes(cfg: Config, c: Client, file: string, line: string)
    requires Fits(cfg, file) && Deliverable(cfg, file) && |c.heard| == 4
    requires line == PassiveAnswer(cfg, AfterPass(cfg)).1.text && Matches(line, 4)
    ensures var d := OnReply(c, file, line, true);
            d.recv == c.recv && |d.heard| == 5 && d.stage.Connecting? && d.stage.port > 0 && d.sent == c.sent
  {
    PassiveHeard(cfg, file, line);
  }

  lemma DriveExchange(cfg: Config, now: int, file: string, moves: seq<Move>, k: nat) returns (ms: seq<Move>)
    requires Fits(cfg, file) && k < 4 && (k >= 2 ==> Deliverable(cfg, file))
    requires At(cfg, now, Play(cfg, now, file, moves), file, k)
    ensures At(cfg, now, Play(cfg, now, file, ms), file, k + 1)
    ensures k == 3 ==> Play(cfg, now, file, ms).client.stage.port > 0
  {
    ms := DriveRequest(cfg, now, file, moves, k);
    var w := Play(cfg, now, file, ms);
    PlainAddress(cfg, file);
    FirstRepliesPrinted(cfg, file);
    assert FirstReplies(cfg, file)[k] in FirstReplies(cfg, file);
    ClientGoes(cfg, w.client, file, k);
    ms := DriveReply(cfg, now, file, ms, Message(FirstReplies(cfg, file)[k], NoToken));
  }

  // ---------------------------------------------------------------- the data connection

  // the client is connected and has sent its RETR
  ghost predicate Connected(cfg: Config, now: int, w: World, file: string) {
    var s, c := Session(cfg, now, w), w.client;
    && Awake(s) && s.ctl.queue == [] && s.hist.transfers == [] && Lines(s.hist.consumed) == Prints(file)[..4]
    && w.connected && !w.accepted && Even(cfg, s, c) && |c.heard| == 5 && c.recv == RecvFile.Start()
    && c.stage.Awaiting? && c.sent == s.hist.received + Prints(file)[4]
  }

  lemma DriveConnect(cfg: Config, now: int, file: string, moves: seq<Move>) returns (ms: seq<Move>)
    requires Fits(cfg, file) && At(cfg, now, Play(cfg, now, file, moves), file, 4)
    requires Play(cfg, now, file, moves).client.stage.port > 0
    ensures Connected(cfg, now, Play(cfg, now, file, ms), file)
  {
    ConnectsToSession(cfg, now, file, moves);
    ms := moves + [Connect];
    Extend(cfg, now, file, moves, Connect);
  }

  // the RETR's operation waits for the connection
  ghost predicate Opened(cfg: Config, now: int, w: World, file: string, op: OpId) {
    var s, c := Session(cfg, now, w), w.client;
    && Awake(s) && s.ctl.queue == [] && s.heap.conts == [Cont.Accept(op, true)] && Exists(cfg, file)
    && op in s.heap.ops && s.heap.ops[op] == Send && op in s.sends && s.sends[op].file == Content(cfg, file)
    && s.props == After(cfg, file, 4)
    && w.connected && !w.accepted && Even(cfg, s, c) && |c.heard| == 5 && c.recv == RecvFile.Start()
    && c.stage.Awaiting?
  }

  lemma RetrReady(cfg: Config, p: Props, req: Request, file: string)
    requires Deliverable(cfg, file) && p == After(cfg, file, 4)
    requires req.body == Normal(file) && RouteOf(p, req) == Run(Send)
    ensures OpenTransfer(cfg, p, Send, req.body) == Ready(Content(cfg, file)) && p.acceptor.Listening?
    ensures !Throws(cfg, p, req)
  {
  }

  lemma RetrLine(cfg: Config, s: State, file: string) returns (op: OpId)
    requires Fits(cfg, file) && Deliverable(cfg, file) && Follows(cfg, s) && InputOk(s)
    requires s.ctl.phase.Started? && s.ctl.reading && !s.ctl.stopped && !s.hist.writeFailed && s.ctl.queue == []
    requires s.ctl.buf == Prints(file)[4] && Lines(s.hist.consumed) == Prints(file)[..4]
    ensures Enabled(cfg, s, Line)
    ensures var t := OnLine(cfg, s);
            && Awake(t) && t.ctl.queue == [] && t.heap.conts == [Cont.Accept(op, true)]
            && op in t.heap.ops && t.heap.ops[op] == Send && op in t.sends && t.sends[op].file == Content(cfg, file)
            && t.hist.delivered == s.hist.delivered && t.props == After(cfg, file, 4)
  {
    op := s.heap.next;
    FollowsFour(cfg, s, file);
    PrintedLines(file, 4);
    assert FirstLine(s) == s.ctl.buf;
    RetrParses(cfg, s, file);
    var req := ParseLine(FirstLine(s)).value;
    RetrReady(cfg, s.props, req, file);
    OnLineRuns(cfg, s, Send, req);
    RetrOpens(cfg, s, req, Content(cfg, file));
  }

  lemma RetrOpens(cfg: Config, s: State, req: Request, content: string)
    requires OpenTransfer(cfg, s.props, Send, req.body) == Ready(content) && s.props.acceptor.Listening?
    requires s.ctl.phase.Started? && s.ctl.reading && !s.ctl.stopped && !s.hist.writeFailed && s.ctl.queue == []
    requires LineEnd(s.ctl.buf) == |s.ctl.buf| && s.heap.conts == []
    ensures var t := RunTransfer(cfg, AtLine(s), Send, req);
            var op := s.heap.next;
            && Awake(t) && t.ctl.queue == [] && t.heap.conts == [Cont.Accept(op, true)]
            && op in t.heap.ops && t.heap.ops[op] == Send && op in t.sends && t.sends[op].file == content
            && t.hist.delivered == s.hist.delivered && t.props == s.props
  {
    TransferEffect(cfg, AtLine(s), Send, req);
  }

  lemma DriveRetr(cfg: Config, now: int, file: string, moves: seq<Move>) returns (ms: seq<Move>, op: OpId)
    requires Fits(cfg, file) && Deliverable(cfg, file) && Connected(cfg, now, Play(cfg, now, file, moves), file)
    ensures Opened(cfg, now, Play(cfg, now, file, ms), file, op)
  {
    ms := DriveInput(cfg, now, file, moves, Prints(file)[4]);
    var v := Play(cfg, now, file, ms);
    FollowsThroughout(cfg, now, v.trace);
    InputThroughout(cfg, now, v.trace);
    op := RetrLine(cfg, Session(cfg, now, v), file);
    ms := LineMove(cfg, now, file, ms);
  }

  // the connection is accepted, and the client knows it
  ghost predicate Sending(cfg: Config, now: int, w: World, file: string, op: OpId) {
    var s, c := Session(cfg, now, w), w.client;
    && CanSend(s, op) && Exists(cfg, file) && s.sends[op].file == Content(cfg, file)
    && w.accepted && Even(cfg, s, c) && |c.heard| == 6 && c.recv == RecvFile.Start() && c.stage.Receiving?
  }

  ghost predicate CanSend(s: State, op: OpId) {
    && Awake(s) && s.ctl.queue == [] && s.data == Socket(true) && op in s.sends
    && |s.heap.conts| == 1 && s.heap.conts[0].op == op && (s.heap.conts[0].Writable? || s.heap.conts[0].Limiter?)
  }

  ghost predicate Accepted(s: State, t: State, op: OpId, reply: Reply) {
    && Awake(t) && t.ctl.queue == [Message(reply, Start(op))] && t.data == Socket(true)
    && t.heap.conts == [] && t.heap.ops == s.heap.ops && t.sends == s.sends && t.hist.delivered == s.hist.delivered
    && t.props == s.props.(acceptor := Closed)
  }

  lemma AcceptsFirst(cfg: Config, s: State, op: OpId, reply: Reply)
    requires reply == Code(DATA_CONN)
    requires Awake(s) && s.ctl.queue == [] && s.heap.conts == [Cont.Accept(op, true)] && HeapOk(s, multiset{})
    ensures Enabled(cfg, s, AcceptOk(0)) && Accepted(s, Step(cfg, s, AcceptOk(0)), op, reply)
  {
    ContHeld(s.heap.conts, s.heap.conts[0]);
    assert op in s.heap.refs;
    AcceptedEffect(cfg, s, 0);
  }

  lemma DriveAccept(cfg: Config, now: int, file: string, moves: seq<Move>, op: OpId, reply: Reply)
    returns (ms: seq<Move>)
    requires reply == Code(DATA_CONN)
    requires Exists(cfg, file) && Opened(cfg, now, Play(cfg, now, file, moves), file, op)
    ensures var w, v := Play(cfg, now, file, moves), Play(cfg, now, file, ms);
            && Accepted(Session(cfg, now, w), Session(cfg, now, v), op, reply)
            && v.client == w.client && v.accepted && Even(cfg, Session(cfg, now, v), v.client)
  {
    var w := Play(cfg, now, file, moves);
    AlwaysInv(cfg, now, w.trace);
    AcceptsFirst(cfg, Session(cfg, now, w), op, reply);
    ReachSnoc(cfg, now, w.trace, AcceptOk(0));
    ms := moves + [Move.Accept(0)];
    Extend(cfg, now, file, moves, Move.Accept(0));
  }

  lemma DriveStart(cfg: Config, now: int, file: string, moves: seq<Move>, op: OpId) returns (ms: seq<Move>)
    requires Exists(cfg, file) && Opened(cfg, now, Play(cfg, now, file, moves), file, op)
    ensures Sending(cfg, now, Play(cfg, now, file, ms), file, op)
    ensures Session(cfg, now, Play(cfg, now, file, ms)).props == After(cfg, file, 4).(acceptor := Closed)
  {
    var reply := ReadableCode(DATA_CONN);
    ms := DriveAccept(cfg, now, file, moves, op, reply);
    ms := DriveAnnounced(cfg, now, file, ms, op, reply);
  }

  lemma DriveAnnounced(cfg: Config, now: int, file: string, moves: seq<Move>, op: OpId, reply: Reply)
    returns (ms: seq<Move>)
    requires Exists(cfg, file)
    requires var w := Play(cfg, now, file, moves);
             var s, c := Session(cfg, now, w), w.client;
             && Awake(s) && s.ctl.queue == [Message(reply, Start(op))] && s.data == Socket(true) && s.heap.conts == []
             && op in s.heap.ops && s.heap.ops[op] == Send && op in s.sends && s.sends[op].file == Content(cfg, file)
             && w.accepted && Even(cfg, s, c) && Printed(reply)
             && c.stage.Awaiting? && |c.heard| == 5 && c.recv == RecvFile.Start() && Matches(reply.text, 5)
    ensures Sending(cfg, now, Play(cfg, now, file, ms), file, op)
    ensures Session(cfg, now, Play(cfg, now, file, ms)).props == Session(cfg, now, Play(cfg, now, file, moves)).props
  {
    StartsReceiving(Play(cfg, now, file, moves).client, file, reply.text);
    ms := DriveReply(cfg, now, file, moves, Message(reply, Start(op)));
  }

  lemma StartsReceiving(c: Client, file: string, line: string)
    requires |c.heard| == 5 && Matches(line, 5)
    ensures OnReply(c, file, line, true) == c.(heard := c.heard + [line], stage := Receiving)
  {
  }

  // ---------------------------------------------------------------- sending the file

  // the 226 is written, the data connection closed
  ghost predicate AllSent(s: State, done: Reply) {
    Awake(s) && s.ctl.queue == [Message(done, NoToken)] && s.data == NoSocket
  }

  ghost predicate IsCompletion(done: Reply) { done == Code(TRANSFER_COMPLETE) }

  /** From `s` to `t` the operation has sent more, or all. */
  ghost predicate SentOn(s: State, t: State, op: OpId, done: Reply)
    requires op in s.sends
  {
    && t.hist.delivered == s.hist.delivered
    && (|| AllSent(t, done)
        || (&& CanSend(t, op) && t.sends[op].file == s.sends[op].file && LeftToSend(t, op) < LeftToSend(s, op)))
  }

  // one sendfile over all that is left
  lemma SendsMore(cfg: Config, s: State, op: OpId, left: nat, done: Reply)
    requires IsCompletion(done) && CanSend(s, op) && HeapOk(s, multiset{})
    requires SendFile.Valid(s.sends[op], cfg.downloadLimit) && left == LeftToSend(s, op)
    ensures SentOn(s, OnSend(cfg, s, 0, false, SendFile.Sent(left)), op, done)
  {
    var ret := SendFile.Sent(left);
    var (after, next) := SendFile.Deal(s.sends[op], SendFile.Slice(cfg.downloadLimit), false, ret, s.tmr.now);
    OpIsHeld(s, op);
    LeftDecides(s.sends[op], cfg.downloadLimit, left, s.tmr.now);
    SentDecides(cfg, s, op, ret, after, next, done);
  }

  lemma OpIsHeld(s: State, op: OpId)
    requires CanSend(s, op) && HeapOk(s, multiset{})
    ensures op in s.heap.refs
  {
    ContHeld(s.heap.conts, s.heap.conts[0]);
  }

  lemma SentDecides(cfg: Config, s: State, op: OpId, ret: SendFile.Ret, after: SendFile.Transfer,
                    next: SendFile.Next, done: Reply)
    requires IsCompletion(done) && CanSend(s, op) && op in s.heap.refs && !next.Dropped?
    requires (after, next) ==
             SendFile.Deal(s.sends[op], SendFile.Slice(cfg.downloadLimit), false, ret, s.tmr.now)
    requires after.file == s.sends[op].file
    requires !next.Completed? ==> |after.file| - after.offset < LeftToSend(s, op)
    ensures SentOn(s, OnSend(cfg, s, 0, false, ret), op, done)
  {
    SendEffect(cfg, s, 0, false, ret);
    var t := OnSend(cfg, s, 0, false, ret);
    SentOne(s, t, SendOutcome(next, op), op, after, t.hist.dataOut, done);
  }

  lemma SentOne(s: State, t: State, outcome: Outcome, op: OpId, after: SendFile.Transfer, dataOut: string, done: Reply)
    requires IsCompletion(done) && CanSend(s, op) && DataEnded(s, t, 0, outcome, s.sends[op := after], s.recvs, dataOut)
    requires || outcome.Completes?
             || (&& outcome.Again? && outcome.c.op == op && (outcome.c.Writable? || outcome.c.Limiter?)
                 && t.data == Socket(true))
    ensures t.hist.delivered == s.hist.delivered
    ensures if outcome.Completes? then AllSent(t, done) else CanSend(t, op) && t.sends[op] == after
  {
    if outcome.Completes? {
      SentAll(s, t, outcome, op, after, dataOut, done);
    } else {
      SentSome(s, t, outcome, op, after, dataOut);
    }
  }

  lemma LeftDecides(t: SendFile.Transfer, limit: nat, left: nat, time: int)
    requires SendFile.Valid(t, limit) && left == |t.file| - t.offset
    ensures var (u, next) := SendFile.Deal(t, SendFile.Slice(limit), false, SendFile.Sent(left), time);
            && u.file == t.file
            && (next.Completed? || ((next.AwaitWritable? || next.AwaitTimer?) && |u.file| - u.offset < left))
  {
    SendFile.LeftIsExact(t, limit);
    if left > 0 {
      SendFile.DealProgress(t, limit, left, time);
    }
  }

  lemma SentAll(s: State, t: State, outcome: Outcome, op: OpId, after: SendFile.Transfer, dataOut: string, done: Reply)
    requires IsCompletion(done)
    requires CanSend(s, op) && outcome.Completes? && DataEnded(s, t, 0, outcome, s.sends[op := after], s.recvs, dataOut)
    ensures AllSent(t, done) && t.hist.delivered == s.hist.delivered
  {
  }

  lemma SentSome(s: State, t: State, outcome: Outcome, op: OpId, after: SendFile.Transfer, dataOut: string)
    requires CanSend(s, op) && outcome.Again? && outcome.c.op == op && (outcome.c.Writable? || outcome.c.Limiter?)
    requires DataEnded(s, t, 0, outcome, s.sends[op := after], s.recvs, dataOut) && t.data == Socket(true)
    ensures CanSend(t, op) && t.sends[op] == after && t.hist.delivered == s.hist.delivered
  {
  }

  lemma DriveWait(cfg: Config, now: int, file: string, moves: seq<Move>, op: OpId) returns (ms: seq<Move>)
    requires Sending(cfg, now, Play(cfg, now, file, moves), file, op)
    ensures var v := Play(cfg, now, file, ms);
            var t := Session(cfg, now, v);
            && Sending(cfg, now, v, file, op)
            && t.sends == Session(cfg, now, Play(cfg, now, file, moves)).sends
            && (t.heap.conts[0].Limiter? ==> t.heap.conts[0].expiry <= t.tmr.now)
  {
    var s := Session(cfg, now, Play(cfg, now, file, moves));
    var c := s.heap.conts[0];
    ms := moves;
    if c.Limiter? && c.expiry > s.tmr.now {
      ms := ServerMove(cfg, now, file, moves, Tick(c.expiry - s.tmr.now));
    }
  }

  ghost function LeftToSend(s: State, op: OpId): int
    requires op in s.sends
  {
    |s.sends[op].file| - s.sends[op].offset
  }

  // the file is on its way, the client is receiving
  ghost predicate Closing(cfg: Config, now: int, w: World, done: Reply) {
    var s, c := Session(cfg, now, w), w.client;
    && AllSent(s, done) && w.accepted && Even(cfg, s, c) && |c.heard| == 6 && c.stage.Receiving?
    && c.recv == RecvFile.Start()
  }

  lemma DriveSend(cfg: Config, now: int, file: string, moves: seq<Move>, op: OpId, done: Reply) returns (ms: seq<Move>)
    requires IsCompletion(done)
    requires FilesFit(cfg.files) && Sending(cfg, now, Play(cfg, now, file, moves), file, op)
    ensures var s := Session(cfg, now, Play(cfg, now, file, moves));
            var v := Play(cfg, now, file, ms);
            || Closing(cfg, now, v, done)
            || (Sending(cfg, now, v, file, op) && 0 <= LeftToSend(Session(cfg, now, v), op) < LeftToSend(s, op))
  {
    ms := DriveWait(cfg, now, file, moves, op);
    var w := Play(cfg, now, file, ms);
    AlwaysInv(cfg, now, w.trace);
    SendsThroughout(cfg, now, w.trace);
    var e := MoreToSend(cfg, Session(cfg, now, w), op, done);
    ms := ServerMove(cfg, now, file, ms, e);
    SendsThroughout(cfg, now, Play(cfg, now, file, ms).trace);
  }

  lemma MoreToSend(cfg: Config, s: State, op: OpId, done: Reply) returns (e: Event)
    requires IsCompletion(done)
    requires CanSend(s, op) && HeapOk(s, multiset{}) && SendsOk(cfg, s)
    requires s.heap.conts[0].Limiter? ==> s.heap.conts[0].expiry <= s.tmr.now
    ensures e.Sendable?
    ensures SentOn(s, Step(cfg, s, e), op, done)
  {
    var left: nat := LeftNow(s, op, cfg.downloadLimit);
    e := Sendable(0, false, SendFile.Sent(left));
    SendsMore(cfg, s, op, left, done);
    SendSteps(cfg, s, op, SendFile.Sent(left));
  }

  lemma LeftNow(s: State, op: OpId, limit: nat) returns (left: nat)
    requires op in s.sends && SendFile.Valid(s.sends[op], limit)
    ensures left == LeftToSend(s, op)
  {
    left := |s.sends[op].file| - s.sends[op].offset;
  }

  lemma SendSteps(cfg: Config, s: State, op: OpId, ret: SendFile.Ret)
    requires CanSend(s, op) && (s.heap.conts[0].Limiter? ==> s.heap.conts[0].expiry <= s.tmr.now)
    ensures Enabled(cfg, s, Sendable(0, false, ret))
    ensures Step(cfg, s, Sendable(0, false, ret)) == OnSend(cfg, s, 0, false, ret)
  {
  }

  lemma {:induction false} DriveSends(cfg: Config, now: int, file: string, moves: seq<Move>, op: OpId, done: Reply)
    returns (ms: seq<Move>)
    requires IsCompletion(done)
    requires FilesFit(cfg.files) && Sending(cfg, now, Play(cfg, now, file, moves), file, op)
    ensures Closing(cfg, now, Play(cfg, now, file, ms), done)
    decreases LeftToSend(Session(cfg, now, Play(cfg, now, file, moves)), op)
  {
    ms := DriveSend(cfg, now, file, moves, op, done);
    if !Closing(cfg, now, Play(cfg, now, file, ms), done) {
      ms := DriveSends(cfg, now, file, ms, op, done);
    }
  }

  // ---------------------------------------------------------------- receiving the file

  lemma DriveFetch(cfg: Config, now: int, file: string, moves: seq<Move>) returns (ms: seq<Move>)
    requires var w := Play(cfg, now, file, moves); w.accepted && w.client.recv == RecvFile.Start()
    ensures var w := Play(cfg, now, file, moves);
            Play(cfg, now, file, ms) ==
              w.(client := w.client.(recv := RecvFile.Start().(incoming := Session(cfg, now, w).hist.dataOut)))
  {
    var w := Play(cfg, now, file, moves);
    var dataOut := Session(cfg, now, w).hist.dataOut;
    assert RecvFile.Stream(RecvFile.Start()) == "";
    assert "" + dataOut[0..|dataOut|] == dataOut;
    ms := moves + [Fetch(|dataOut|)];
    Extend(cfg, now, file, moves, Fetch(|dataOut|));
  }

  /** There is a way to read everything, byte by byte: the bar gets the percentage of every offset. */
  lemma {:induction false} ReadsAll(r: RecvFile.Receiver, size: nat) returns (script: seq<RecvFile.Splice>)
    requires size > 0 && RecvFile.Settled(r)
    ensures var (q, status) := RecvFile.Drain(r, script, Some(size));
            && q.incoming == "" && status.WaitingForReadable? && r.progress <= q.progress
            && forall k: nat :: r.offset < k <= r.offset + |r.incoming| ==> RecvFile.Percent(k, size) in q.progress
    decreases |r.incoming|
  {
    if r.incoming == "" {
      script := [];
    } else {
      var next := ReadsOne(r, size);
      var more := ReadsAll(next, size);
      script := [RecvFile.Splice.Moved(1, [])] + more;
      assert script[1..] == more;
      assert RecvFile.Percent(r.offset + 1, size) in next.progress;
    }
  }

  lemma ReadsOne(r: RecvFile.Receiver, size: nat) returns (next: RecvFile.Receiver)
    requires size > 0 && RecvFile.Settled(r) && r.incoming != ""
    ensures next == RecvFile.Flush(RecvFile.ToPipe(r, 1), [], Some(size)) && RecvFile.Settled(next)
    ensures next.incoming == r.incoming[1..] && next.offset == r.offset + 1
    ensures next.progress == r.progress + [RecvFile.Percent(r.offset + 1, size)]
  {
    next := RecvFile.Flush(RecvFile.ToPipe(r, 1), [], Some(size));
    RecvFile.FlushKeeps(RecvFile.ToPipe(r, 1), [], Some(size));
  }

  // everything has arrived at the client
  ghost predicate Arrived(cfg: Config, now: int, w: World, done: Reply) {
    var s, c := Session(cfg, now, w), w.client;
    && AllSent(s, done) && w.accepted && Even(cfg, s, c) && |c.heard| == 6 && c.stage.Receiving?
    && c.recv.incoming == "" && RecvFile.Stream(c.recv) == s.hist.dataOut
    && forall k: nat :: 0 < k <= |s.hist.dataOut| ==>
         c.fileSize > 0 && RecvFile.Percent(k, c.fileSize) in c.recv.progress
  }

  lemma DriveRead(cfg: Config, now: int, file: string, moves: seq<Move>, done: Reply) returns (ms: seq<Move>)
    requires Fits(cfg, file) && Closing(cfg, now, Play(cfg, now, file, moves), done)
    ensures Arrived(cfg, now, Play(cfg, now, file, ms), done)
  {
    ms := DriveFetch(cfg, now, file, moves);
    var w := Play(cfg, now, file, ms);
    AlwaysLinked(cfg, now, file, ms);
    IncomingFits(cfg, now, w, file);
    if w.client.recv.incoming != "" {
      var script := ReadsAll(w.client.recv, w.client.fileSize);
      RecvFile.DrainKeeps(w.client.recv, script, Some(w.client.fileSize));
      Extend(cfg, now, file, ms, Move.Readable(script));
      ms := ms + [Move.Readable(script)];
    }
  }

  // the client sees that its peer has closed
  lemma DriveClose(cfg: Config, now: int, file: string, moves: seq<Move>, done: Reply) returns (ms: seq<Move>)
    requires Arrived(cfg, now, Play(cfg, now, file, moves), done)
    ensures var w, v := Play(cfg, now, file, moves), Play(cfg, now, file, ms);
            v == w.(client := w.client.(stage := Awaiting))
  {
    ms := moves + [Move.Readable([])];
    Extend(cfg, now, file, moves, Move.Readable([]));
  }

  lemma DriveCompletion(cfg: Config, now: int, file: string, moves: seq<Move>, done: Reply) returns (ms: seq<Move>)
    requires Arrived(cfg, now, Play(cfg, now, file, moves), done) && Printed(done) && Matches(done.text, 6)
    ensures Play(cfg, now, file, ms).client.stage == Finished(true)
  {
    ms := DriveClose(cfg, now, file, moves, done);
    ms := DriveLast(cfg, now, file, ms, done);
  }

  lemma DriveLast(cfg: Config, now: int, file: string, moves: seq<Move>, reply: Reply) returns (ms: seq<Move>)
    requires var w := Play(cfg, now, file, moves);
             var s := Session(cfg, now, w);
             && Awake(s) && s.ctl.queue == [Message(reply, NoToken)] && Even(cfg, s, w.client) && Printed(reply)
             && w.client.stage.Awaiting? && |w.client.heard| == 6 && Matches(reply.text, 6)
    ensures Play(cfg, now, file, ms).client.stage == Finished(true)
  {
    EndsWell(Play(cfg, now, file, moves).client, file, reply.text);
    ms := DriveReply(cfg, now, file, moves, Message(reply, NoToken));
  }

  lemma ReadableCode(code: nat) returns (r: Reply)
    requires code == DATA_CONN || code == TRANSFER_COMPLETE
    ensures r == Code(code) && Printed(r) && ParseReply(r.text).Some? && ParseReply(r.text).value.0 == code
  {
    r := Code(code);
    CodePrinted(code);
    ReadsBack(r, r.text);
  }

  lemma EndsWell(c: Client, file: string, line: string)
    requires |c.heard| == 6 && Matches(line, 6)
    ensures OnReply(c, file, line, true).stage == Finished(true)
  {
  }

  // ---------------------------------------------------------------- main results

  /** Every deliverable file can be downloaded: there is a run in which the client's pipeline ends in `true`. */
  lemma DownloadCanComplete(cfg: Config, now: int, file: string) returns (moves: seq<Move>)
    requires Fits(cfg, file) && Deliverable(cfg, file)
    ensures Play(cfg, now, file, moves).client.stage == Finished(true)
  {
    var op: OpId;
    moves, op := DriveToData(cfg, now, file);
    var done := ReadableCode(TRANSFER_COMPLETE);
    moves := DriveFromData(cfg, now, file, moves, op, done);
  }

  // up to the start of the transfer
  lemma DriveToData(cfg: Config, now: int, file: string) returns (moves: seq<Move>, op: OpId)
    requires Fits(cfg, file) && Deliverable(cfg, file)
    ensures Sending(cfg, now, Play(cfg, now, file, moves), file, op)
  {
    moves, op := DriveToAccepted(cfg, now, file);
  }

  lemma DriveToAccepted(cfg: Config, now: int, file: string) returns (moves: seq<Move>, op: OpId)
    requires Fits(cfg, file) && Deliverable(cfg, file)
    ensures Sending(cfg, now, Play(cfg, now, file, moves), file, op)
    ensures Session(cfg, now, Play(cfg, now, file, moves)).props == After(cfg, file, 4).(acceptor := Closed)
  {
    moves := DriveBanner(cfg, now, file);
    moves := DriveExchange(cfg, now, file, moves, 0);
    moves := DriveExchange(cfg, now, file, moves, 1);
    moves := DriveExchange(cfg, now, file, moves, 2);
    moves := DriveExchange(cfg, now, file, moves, 3);
    moves := DriveConnect(cfg, now, file, moves);
    moves, op := DriveRetr(cfg, now, file, moves);
    moves := DriveStart(cfg, now, file, moves, op);
  }

  // the transfer itself
  lemma DriveFromData(cfg: Config, now: int, file: string, moves: seq<Move>, op: OpId, done: Reply)
    returns (ms: seq<Move>)
    requires Fits(cfg, file) && Sending(cfg, now, Play(cfg, now, file, moves), file, op)
    requires IsCompletion(done) && Printed(done) && Matches(done.text, 6)
    ensures Play(cfg, now, file, ms).client.stage == Finished(true)
  {
    ms := DriveSends(cfg, now, file, moves, op, done);
    ms := DriveRead(cfg, now, file, ms, done);
    ms := DriveCompletion(cfg, now, file, ms, done);
  }

  // the announced size is too large for std::stol
  lemma SizeCrashes(cfg: Config, c: Client, file: string, line: string)
    requires Exists(cfg, file) && |Content(cfg, file)| >= LONG_BOUND
    requires |c.heard| == 3 && line == SizeReply(AfterPass(cfg), Normal(file)).text && Matches(line, 3)
    ensures OnReply(c, file, line, true).stage.Crashed?
  {
    SizeHeard(cfg, file, line);
  }

  lemma SizeIsOk(cfg: Config, file: string)
    requires Exists(cfg, file)
    ensures FirstReplies(cfg, file)[2].code == SIZE_OK
    ensures FirstReplies(cfg, file)[2] == SizeReply(AfterPass(cfg), Normal(file))
  {
  }

  lemma DriveToCrash(cfg: Config, now: int, file: string) returns (moves: seq<Move>)
    requires Fits(cfg, file) && Exists(cfg, file) && |Content(cfg, file)| >= LONG_BOUND
    ensures Play(cfg, now, file, moves).client.stage.Crashed?
  {
    moves := DriveBanner(cfg, now, file);
    moves := DriveExchange(cfg, now, file, moves, 0);
    moves := DriveExchange(cfg, now, file, moves, 1);
    moves := DriveRequest(cfg, now, file, moves, 2);
    var r := ReadableSize(cfg, file);
    SizeCrashes(cfg, Play(cfg, now, file, moves).client, file, r.text);
    moves := DriveReply(cfg, now, file, moves, Message(r, NoToken));
  }

  lemma ReadableSize(cfg: Config, file: string) returns (r: Reply)
    requires Fits(cfg, file) && Exists(cfg, file)
    ensures r == FirstReplies(cfg, file)[2] == SizeReply(AfterPass(cfg), Normal(file))
    ensures Printed(r) && Matches(r.text, 3)
  {
    r := FirstReplies(cfg, file)[2];
    SizeIsOk(cfg, file);
    PlainAddress(cfg, file);
    FirstRepliesPrinted(cfg, file);
    assert r in FirstReplies(cfg, file);
    ReadsBack(r, r.text);
  }

  /** Exactly when a stage of the client crashes: in some run, if and only if the file exists
      and its size does not fit into std::stol. No other parser throws, and no division is by zero. */
  lemma StageCrashesIff(cfg: Config, now: int, file: string)
    requires Fits(cfg, file)
    ensures (exists moves :: Play(cfg, now, file, moves).client.stage.Crashed?)
            <==> exists content :: Stands(cfg, file, content) && |content| >= LONG_BOUND
  {
    forall content ensures Stands(cfg, file, content) <==> Exists(cfg, file) && Content(cfg, file) == content {
      StandsIff(cfg, file, content);
    }
    assert Exists(cfg, file) ==> Stands(cfg, file, Content(cfg, file));
    if Exists(cfg, file) && |Content(cfg, file)| >= LONG_BOUND {
      var moves := DriveToCrash(cfg, now, file);
    } else {
      forall moves ensures !Play(cfg, now, file, moves).client.stage.Crashed? {
        NoStageCrashes(cfg, now, file, moves);
      }
    }
  }

  /** Exactly when the progress bar can be trusted. For a deliverable file every run gives it
      values between 0 and 100 only, if and only if the size times 100 fits into off64_t. */
  lemma ProgressHonestIff(cfg: Config, now: int, file: string, content: string)
    requires Fits(cfg, file) && Deliverable(cfg, file) && Stands(cfg, file, content)
    ensures (forall moves :: BarTrue(Play(cfg, now, file, moves).client)) <==> RecvFile.BarFits(|content|)
  {
    StandsIff(cfg, file, content);
    var total := |content|;
    if RecvFile.BarFits(total) {
      forall moves ensures BarTrue(Play(cfg, now, file, moves).client) {
        ProgressIsHonest(cfg, now, file, moves);
      }
    } else {
      var moves := DriveToEnd(cfg, now, file);
      RecvFile.NegativePercent(total);
      assert RecvFile.Percent(RecvFile.BadOffset(total), total) in Play(cfg, now, file, moves).client.recv.progress;
      assert !BarTrue(Play(cfg, now, file, moves).client);
    }
  }

  ghost predicate BarTrue(c: Client) { forall p :: p in c.recv.progress ==> 0 <= p <= 100 }

  // a run in which the client has stored the whole file, byte by byte
  lemma DriveToEnd(cfg: Config, now: int, file: string) returns (moves: seq<Move>)
    requires Fits(cfg, file) && Deliverable(cfg, file)
    ensures var recv := Play(cfg, now, file, moves).client.recv;
            var total := |Content(cfg, file)|;
            forall k: nat :: 0 < k <= total ==> RecvFile.Percent(k, total) in recv.progress
  {
    var op: OpId;
    moves, op := DriveToData(cfg, now, file);
    var done := ReadableCode(TRANSFER_COMPLETE);
    moves := DriveSends(cfg, now, file, moves, op, done);
    moves := DriveRead(cfg, now, file, moves, done);
    EndSizes(cfg, now, file, moves, done);
  }

  lemma EndSizes(cfg: Config, now: int, file: string, moves: seq<Move>, done: Reply)
    requires Fits(cfg, file) && Deliverable(cfg, file)
    requires Arrived(cfg, now, Play(cfg, now, file, moves), done) && IsCompletion(done)
    ensures var w := Play(cfg, now, file, moves);
            w.client.fileSize == |Content(cfg, file)| == |Session(cfg, now, w).hist.dataOut|
  {
    AlwaysLinked(cfg, now, file, moves);
    var w := Play(cfg, now, file, moves);
    Knowledge(cfg, now, w, file, w.client);
    ScriptData(cfg, now, w.trace, file);
    AlwaysInv(cfg, now, w.trace);
    QueuedCompletes(cfg, Session(cfg, now, w), file, done);
  }

  // a queued 226 has been logged, after the first four replies
  lemma QueuedCompletes(cfg: Config, s: State, file: string, done: Reply)
    requires AllSent(s, done) && IsCompletion(done) && RepliesOk(cfg, s, file) && QueueOk(s)
    ensures HasCompletion(s.hist.logged)
  {
    var n := |s.hist.logged| - 1;
    assert s.hist.logged[n] == Message(done, NoToken);
    LateCompletion(cfg, s, file, n);
  }

  lemma LateCompletion(cfg: Config, s: State, file: string, n: nat)
    requires RepliesOk(cfg, s, file) && n < |s.hist.logged| && s.hist.logged[n].reply.code == TRANSFER_COMPLETE
    ensures n >= 4
  {
    if n < 4 {
      EarlyCodes(cfg, file, n);
    }
  }

  lemma EarlyCodes(cfg: Config, file: string, n: nat)
    requires n < 4
    ensures FirstReplies(cfg, file)[n].code != TRANSFER_COMPLETE
  {
  }

  lemma CompleteIsDeliverable(cfg: Config, now: int, file: string, moves: seq<Move>)
    requires Fits(cfg, file) && Play(cfg, now, file, moves).client.stage == Finished(true)
    ensures Deliverable(cfg, file)
  {
    AlwaysLinked(cfg, now, file, moves);
    DownloadIsComplete(cfg, now, file, moves);
  }

  /** The name stands for a file in the home directory that the server can open and whose size
      std::stol can read, and there is a port to listen on. */
  ghost predicate Downloadable(cfg: Config, file: string) {
    && Normal(file) != "" && Listens(cfg)
    && exists target :: Paths.Resolves(cfg.home, Normal(file), target) && OpenNode(cfg, target)
  }

  predicate OpenNode(cfg: Config, target: string) {
    && target in cfg.files && cfg.files[target].File? && cfg.files[target].accessible
    && |cfg.files[target].content| < LONG_BOUND
  }

  lemma DownloadableIff(cfg: Config, file: string)
    ensures Downloadable(cfg, file) <==> Deliverable(cfg, file)
  {
    var name := Normal(file);
    TargetIff(Fresh(cfg), name, Target(cfg, file));
    if Downloadable(cfg, file) {
      var target :| Paths.Resolves(cfg.home, name, target) && OpenNode(cfg, target);
      TargetIff(Fresh(cfg), name, target);
    }
  }

  /** Exactly when a download can succeed: some run of client and session ends in `true` if
      and only if the server can open the file, its size can be parsed, and the session gets
      a port to listen on. */
  lemma DownloadSucceedsIff(cfg: Config, now: int, file: string)
    requires Fits(cfg, file)
    ensures (exists moves :: Play(cfg, now, file, moves).client.stage == Finished(true)) <==> Downloadable(cfg, file)
  {
    DownloadableIff(cfg, file);
    if Deliverable(cfg, file) {
      var moves := DownloadCanComplete(cfg, now, file);
    } else {
      forall moves ensures Play(cfg, now, file, moves).client.stage != Finished(true) {
        if Play(cfg, now, file, moves).client.stage == Finished(true) {
          CompleteIsDeliverable(cfg, now, file, moves);
        }
      }
    }
  }
}
