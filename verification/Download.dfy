/** Client and session over two FIFO connections: what the downloaded file is. */
module Download {
  import opened Text
  import opened Requests
  import opened Replies
  import opened Commands
  import opened Engine
  import opened SessionInvariants
  import opened SessionRuns
  import opened SessionSends
  import opened Sequential
  import opened Script
  import opened ScriptRuns
  import opened SessionEffects
  import opened SessionTransfers
  import opened Client
  import RecvFile

  // ---------------------------------------------------------------- the composed system

  /** The session is given by its run. `connected`: the client has a data connection to the
      session's acceptor; `accepted`: the session has taken it. */
  datatype World = World(trace: seq<Event>, client: Client, connected: bool, accepted: bool)

  function Session(cfg: Config, now: int, w: World): State { Reach(cfg, now, w.trace) }

  /** One step of the session, of the client, or of a connection between them. */
  datatype Move =
    | Server(e: Event)                                // anything of the daemon's own that is not input from this client
    | ToServer(k: nat)                                // k more bytes of the requests reach the session
    | ToClient(k: nat)                                // k more bytes of the replies reach the client
    | Hear(created: bool)                             // the client's read completes with a line
    | Connect                                         // the client's data connection is established
    | Accept(i: nat)                                  // the session accepts it
    | Fetch(k: nat)                                   // k more bytes of the data reach the client
    | Readable(script: seq<RecvFile.Splice>)          // the client's data socket is readable
    | Fail                                            // the client times out or meets an error

  // how many bytes of the replies have reached the client
  function Fetched(c: Client): nat { |Concat(c.heard)| + |c.buf| }

  /** Only this client connects to the acceptor; a data socket without bytes is readable when its peer is closed. */
  predicate Possible(cfg: Config, now: int, w: World, m: Move) {
    var s, c := Session(cfg, now, w), w.client;
    match m
    case Server(e) => !e.Arrive? && !e.AcceptOk? && !e.Reenters?
    case ToServer(k) => s.ctl.reading && |s.hist.received| + k <= |c.sent|
    case ToClient(k) => Fetched(c) + k <= |s.hist.wire|
    case Hear(_) => c.stage.Awaiting? && LineEnd(c.buf) > 0
    case Connect =>
      && c.stage.Connecting? && c.stage.port > 0
      && c.stage.address == cfg.address && s.props.acceptor == Listening(c.stage.port)
    case Accept(i) => w.connected && !w.accepted && Enabled(cfg, s, AcceptOk(i))
    case Fetch(k) => w.accepted && |RecvFile.Stream(c.recv)| + k <= |s.hist.dataOut|
    case Readable(_) =>
      && c.stage.Receiving?
      && (c.recv.incoming != ""
          || ((w.accepted ==> s.data != Socket(true)) && RecvFile.Stream(c.recv) == s.hist.dataOut))
    case Fail => c.stage.Awaiting? || c.stage.Connecting? || c.stage.Receiving?
  }

  function Apply(cfg: Config, now: int, file: string, w: World, m: Move): World
    requires Possible(cfg, now, w, m)
  {
    var s, c := Session(cfg, now, w), w.client;
    match m
    case Server(e) => w.(trace := w.trace + [e])
    case ToServer(k) => w.(trace := w.trace + [Arrive(c.sent[|s.hist.received|..|s.hist.received| + k])])
    case ToClient(k) => w.(client := c.(buf := c.buf + s.hist.wire[Fetched(c)..Fetched(c) + k]))
    case Hear(created) => w.(client := OnLineRead(c, file, created))
    case Connect => w.(client := OnConnected(c, file), connected := true)
    case Accept(i) => w.(trace := w.trace + [AcceptOk(i)], accepted := true)
    case Fetch(k) =>
      var n := |RecvFile.Stream(c.recv)|;
      w.(client := c.(recv := c.recv.(incoming := c.recv.incoming + s.hist.dataOut[n..n + k])))
    case Readable(script) => w.(client := OnReadable(c, script))
    case Fail => w.(client := c.(stage := Finished(false)))
  }

  /** Moves that cannot happen are ignored. */
  function Play(cfg: Config, now: int, file: string, moves: seq<Move>): World {
    if moves == [] then World([], Begin(), false, false)
    else
      var w := Play(cfg, now, file, moves[..|moves| - 1]);
      var m := moves[|moves| - 1];
      if Possible(cfg, now, w, m) then Apply(cfg, now, file, w, m) else w
  }

  /** What is assumed of a configuration and a file name: sizes fit into size_t, the session's
      address is a dotted one, and neither the welcome text nor the name hides a line break. */
  ghost predicate Fits(cfg: Config, file: string) {
    && FilesFit(cfg.files) && NoBreak(file) && NoBreak(cfg.banner)
    && exists quad :: IsQuad(quad) && cfg.address == Join(quad, '.')
  }

  // ---------------------------------------------------------------- the invariant

  /** What the client has of the control connection is a part of the wire, cut into lines. */
  ghost predicate HearsWire(c: Client, wire: string) {
    Concat(c.heard) + c.buf <= wire && forall line :: line in c.heard ==> OneLine(line)
  }

  /** The client has seen the end of the data connection. */
  predicate Drained(c: Client) { (c.stage.Awaiting? && |c.heard| == 6) || c.stage == Finished(true) }

  ghost predicate DataOk(w: World, s: State) {
    && RecvFile.Settled(w.client.recv)
    && RecvFile.Stream(w.client.recv) <= s.hist.dataOut
    && (w.accepted || Unannounced(s.hist.logged))
    && (Drained(w.client) ==> w.accepted && s.data != Socket(true) && w.client.recv.file == s.hist.dataOut)
  }

  /** The client knows the size of the file. */
  predicate Sized(c: Client) { |c.heard| >= 5 || (Going(c) && |c.heard| == 4) }

  ghost predicate SizeOk(cfg: Config, c: Client, file: string) {
    && (Sized(c) ==> Exists(cfg, file) && c.fileSize == |Content(cfg, file)| < LONG_BOUND)
    && (|c.heard| <= 5 ==> c.recv.progress == [] && c.recv.offset == 0)
    && (RecvFile.BarFits(c.fileSize) ==> RecvFile.ProgressOk(c.recv, c.fileSize))
    && (c.stage.Crashed? ==> Exists(cfg, file) && |Content(cfg, file)| >= LONG_BOUND)
  }

  /** The endpoint read from the 227 reply is the one the session listens on. */
  ghost predicate EndpointOk(cfg: Config, c: Client) {
    c.stage.Connecting? ==>
      c.stage.address == cfg.address && PassiveAnswer(cfg, AfterPass(cfg)).0.acceptor == Listening(c.stage.port)
  }

  /** The session has something to listen on. */
  predicate Listens(cfg: Config) { cfg.pasv != [] && cfg.pasv[0].Bound? && cfg.pasv[0].port > 0 }

  ghost predicate ConnectionOk(cfg: Config, w: World) {
    (w.accepted ==> w.connected) && (w.connected ==> Listens(cfg))
  }

  ghost predicate Agree(cfg: Config, s: State, w: World, file: string) {
    && StageOk(w.client) && SentOk(w.client, file) && s.hist.received <= w.client.sent
    && HearsWire(w.client, s.hist.wire) && DataOk(w, s) && SizeOk(cfg, w.client, file) && EndpointOk(cfg, w.client)
    && ConnectionOk(cfg, w)
  }

  ghost predicate Linked(cfg: Config, now: int, w: World, file: string) {
    Agree(cfg, Session(cfg, now, w), w, file) && OwnTokens(w.trace)
  }

  // ---------------------------------------------------------------- what each side knows of the other

  lemma {:induction false} PlainJoin(quad: seq<string>)
    requires forall f :: f in quad ==> IsNumber(f)
    ensures '\r' !in Join(quad, '.')
  {
    if quad != [] {
      assert quad[0] in quad;
      assert forall f :: f in quad[1..] ==> f in quad;
      PlainJoin(quad[1..]);
    }
  }

  lemma PlainAddress(cfg: Config, file: string)
    requires Fits(cfg, file)
    ensures '\r' !in cfg.address
  {
    var quad :| IsQuad(quad) && cfg.address == Join(quad, '.');
    PlainJoin(quad);
  }

  lemma {:induction false} LinesOfPrefix(a: string, b: string)
    requires a <= b
    ensures Lines(a) <= Lines(b)
  {
    LinesAppend(a, b[|a|..]);
    assert a + b[|a|..] == b;
  }

  lemma PrintsAreLines(file: string, k: nat)
    requires NoBreak(file) && k <= 5
    ensures forall p :: p in Prints(file)[..k] ==> OneLine(p)
  {
    forall i | 0 <= i < k ensures OneLine(Prints(file)[i]) {
      PrintedLines(file, i);
    }
  }

  // of a stream of lines, a part has been received and a part of that consumed
  lemma LinesConsumed(lines: seq<string>, received: string, consumed: string, rest: string)
    requires forall p :: p in lines ==> OneLine(p)
    requires received <= Concat(lines) && received == consumed + rest
    ensures Lines(consumed) <= lines
  {
    LinesOfConcat(lines);
    LinesOfPrefix(received, Concat(lines));
    LinesAppend(consumed, rest);
    assert Lines(consumed) <= Lines(received);
  }

  // the session has been given a part of the client's script
  lemma StaysOnScript(s: State, c: Client, file: string)
    requires InputOk(s) && s.hist.received <= c.sent && SentOk(c, file) && NoBreak(file)
    ensures OnScript(s, file) && |Lines(s.hist.consumed)| <= c.asked
  {
    PrintsAreLines(file, c.asked);
    LinesConsumed(Prints(file)[..c.asked], s.hist.received, s.hist.consumed, s.ctl.buf);
  }

  /** The reply the client reads as its j-th line. */
  ghost function Said(cfg: Config, logged: seq<Message>, j: nat): Reply
    requires j <= |logged|
  {
    if j == 0 then CodeInfo(WELCOME, if cfg.banner == "" then "Welcome to ftpd." else cfg.banner)
    else logged[j - 1].reply
  }

  lemma WelcomePrinted(cfg: Config, logged: seq<Message>)
    requires NoBreak(cfg.banner)
    ensures Printed(Said(cfg, logged, 0)) && Banner(cfg) == Said(cfg, logged, 0).text
  {
    var standard := "Welcome to ftpd.";
    assert '\r' !in standard;
    NoBreakText(standard);
  }

  ghost function SaidTexts(cfg: Config, logged: seq<Message>): seq<string> {
    seq(|logged| + 1, j requires 0 <= j <= |logged| => Said(cfg, logged, j).text)
  }

  lemma {:induction false} TextsSaid(cfg: Config, logged: seq<Message>)
    ensures Concat(SaidTexts(cfg, logged)) == Said(cfg, logged, 0).text + Texts(logged)
  {
    var said := SaidTexts(cfg, logged);
    if logged == [] {
      assert said == [] + [Said(cfg, logged, 0).text];
      ConcatSnoc([], Said(cfg, logged, 0).text);
    } else {
      var init := logged[..|logged| - 1];
      TextsSaid(cfg, init);
      assert said[..|logged|] == SaidTexts(cfg, init);
    }
  }

  lemma TextsAreLines(cfg: Config, logged: seq<Message>)
    requires NoBreak(cfg.banner) && forall i :: 0 <= i < |logged| ==> Printed(logged[i].reply)
    ensures Lines(Banner(cfg) + Texts(logged)) == SaidTexts(cfg, logged)
  {
    WelcomePrinted(cfg, logged);
    forall j | 0 <= j <= |logged| ensures OneLine(Said(cfg, logged, j).text) {
      PrintedLine(Said(cfg, logged, j));
    }
    TextsSaid(cfg, logged);
    LinesOfConcat(SaidTexts(cfg, logged));
  }

  // the client's lines are the session's replies
  lemma HeardReplies(cfg: Config, s: State, c: Client)
    requires NoBreak(cfg.banner) && (forall i :: 0 <= i < |s.hist.logged| ==> Printed(s.hist.logged[i].reply))
    requires HearsWire(c, s.hist.wire) && s.hist.wire <= Banner(cfg) + Texts(s.hist.logged)
    ensures |c.heard| <= |s.hist.logged| + 1
    ensures forall j :: 0 <= j < |c.heard| ==> c.heard[j] == Said(cfg, s.hist.logged, j).text
  {
    TextsAreLines(cfg, s.hist.logged);
    LinesOfPrefix(Concat(c.heard) + c.buf, Banner(cfg) + Texts(s.hist.logged));
    LinesOfConcat(c.heard);
    LinesAppend(Concat(c.heard), c.buf);
    assert c.heard <= Lines(Concat(c.heard) + c.buf);
  }

  lemma SaidPrinted(cfg: Config, logged: seq<Message>, j: nat)
    requires NoBreak(cfg.banner) && j <= |logged| && forall i :: 0 <= i < |logged| ==> Printed(logged[i].reply)
    ensures Printed(Said(cfg, logged, j))
  {
    WelcomePrinted(cfg, logged);
  }

  /** Everything the two sides know of each other in a linked world. */
  lemma Knowledge(cfg: Config, now: int, w: World, file: string, c: Client)
    requires Fits(cfg, file) && Linked(cfg, now, w, file)
    requires HearsWire(c, Session(cfg, now, w).hist.wire)
    ensures var s := Session(cfg, now, w);
            && '\r' !in cfg.address && OnScript(s, file) && RepliesOk(cfg, s, file)
            && |Lines(s.hist.consumed)| <= w.client.asked
            && (|Lines(s.hist.consumed)| < 5 ==>
                  |s.hist.logged| == |Lines(s.hist.consumed)| && s.props == After(cfg, file, |Lines(s.hist.consumed)|))
            && |c.heard| <= |s.hist.logged| + 1
            && forall j :: 0 <= j < |c.heard| ==>
                 Printed(Said(cfg, s.hist.logged, j)) && c.heard[j] == Said(cfg, s.hist.logged, j).text
  {
    var s := Session(cfg, now, w);
    PlainAddress(cfg, file);
    InputThroughout(cfg, now, w.trace);
    StaysOnScript(s, w.client, file);
    ScriptReplies(cfg, now, w.trace, file);
    WireIsPrefix(cfg, now, w.trace);
    HeardReplies(cfg, s, c);
    forall j | 0 <= j < |c.heard| ensures Printed(Said(cfg, s.hist.logged, j)) {
      SaidPrinted(cfg, s.hist.logged, j);
    }
  }

  // ---------------------------------------------------------------- steps of the session

  lemma DataGrows(cfg: Config, w: World, s: State, e: Event, t: State, accepted: bool)
    requires DataOk(w, s) && s.hist.dataOut <= t.hist.dataOut
    requires s.data != Socket(true) && !e.AcceptOk? ==> t.data != Socket(true) && t.hist.dataOut == s.hist.dataOut
    requires if e.AcceptOk? then accepted && !w.accepted else accepted == w.accepted
    requires !e.AcceptOk? && !accepted ==> Unannounced(t.hist.logged)
    ensures DataOk(w.(accepted := accepted), t)
  {
  }

  // one event of the session; input may only be what the client has sent
  lemma SessionMoves(cfg: Config, now: int, w: World, e: Event, file: string, accepted: bool)
    requires Linked(cfg, now, w, file) && Enabled(cfg, Session(cfg, now, w), e) && !e.Reenters?
    requires if e.AcceptOk? then accepted && w.connected && !w.accepted else accepted == w.accepted
    requires e.Arrive? ==> Session(cfg, now, w).hist.received + e.bytes <= w.client.sent
    ensures Linked(cfg, now, w.(trace := w.trace + [e], accepted := accepted), file)
  {
    var s := Session(cfg, now, w);
    var t := Step(cfg, s, e);
    ReachSnoc(cfg, now, w.trace, e);
    StepEffect(cfg, s, e);
    if !e.AcceptOk? && !accepted {
      OnlyAcceptAnnounces(cfg, s, e);
    }
    AgreeGrows(cfg, w, s, e, t, file, accepted, w.trace + [e]);
  }

  lemma AgreeGrows(cfg: Config, w: World, s: State, e: Event, t: State, file: string, accepted: bool,
                   trace: seq<Event>)
    requires Agree(cfg, s, w, file) && Stepped(s, e, t)
    requires if e.AcceptOk? then accepted && w.connected && !w.accepted else accepted == w.accepted
    requires e.Arrive? ==> s.hist.received + e.bytes <= w.client.sent
    requires !e.AcceptOk? && !accepted ==> Unannounced(t.hist.logged)
    ensures Agree(cfg, t, w.(trace := trace, accepted := accepted), file)
  {
    DataGrows(cfg, w, s, e, t, accepted);
    assert DataOk(w.(trace := trace, accepted := accepted), t);
  }

  // ---------------------------------------------------------------- steps of the client

  // what a printed reply means to the client
  lemma ReadsBack(r: Reply, line: string)
    requires Printed(r) && line == r.text
    ensures ParseReply(line).Some? && ParseReply(line).value.0 == r.code
  {
    PrintedLine(r);
  }

  lemma SizeHeard(cfg: Config, file: string, line: string)
    requires line == SizeReply(AfterPass(cfg), Normal(file)).text && Matches(line, 3)
    ensures Exists(cfg, file)
    ensures Stol(ParseReply(line).value.1) ==
              if |Content(cfg, file)| < LONG_BOUND then Some(|Content(cfg, file)|) else None
  {
    var refusal := "Could not get file size.";
    ReplyRoundTrip(NOPERM_FILEFATAL, refusal);
    if Exists(cfg, file) {
      var n := |Content(cfg, file)|;
      ReplyRoundTrip(SIZE_OK, ToString(n));
      ParseOfToString(n, CRLF, LONG_BOUND);
    }
  }

  lemma PassiveHeard(cfg: Config, file: string, line: string)
    requires exists quad :: IsQuad(quad) && cfg.address == Join(quad, '.')
    requires line == PassiveAnswer(cfg, AfterPass(cfg)).1.text && Matches(line, 4)
    ensures PassiveAnswer(cfg, AfterPass(cfg)).0.acceptor.Listening?
    ensures ParsePasv(ParseReply(line).value.1) ==
            Some((cfg.address, PassiveAnswer(cfg, AfterPass(cfg)).0.acceptor.port))
  {
    var refusal := "Permission denied.";
    ReplyRoundTrip(NOPERM_FILEFATAL, refusal);
    var quad :| IsQuad(quad) && cfg.address == Join(quad, '.');
    if cfg.pasv != [] && cfg.pasv[0].Bound? {
      PasvRoundTrip(quad, cfg.pasv[0].port);
    }
  }

  // the line the client reads next
  lemma HearsNext(c: Client, wire: string, line: string, rest: string)
    requires HearsWire(c, wire) && OneLine(line) && c.buf == line + rest
    ensures HearsWire(c.(heard := c.heard + [line], buf := rest), wire)
  {
    ConcatSnoc(c.heard, line);
    assert Concat(c.heard) + line + rest == Concat(c.heard) + c.buf;
  }

  // what the n-th line is known to be
  ghost predicate LineKnown(cfg: Config, file: string, line: string, n: nat) {
    && ParseReply(line).Some?
    && (n == 3 ==> line == SizeReply(AfterPass(cfg), Normal(file)).text)
    && (n == 4 ==> line == PassiveAnswer(cfg, AfterPass(cfg)).1.text)
  }

  lemma SizeStage(cfg: Config, c: Client, file: string, line: string, created: bool)
    requires |c.heard| == 3 && c.stage.Awaiting? && SizeOk(cfg, c, file) && LineKnown(cfg, file, line, 3)
    ensures SizeOk(cfg, OnReply(c, file, line, created), file) && EndpointOk(cfg, OnReply(c, file, line, created))
  {
    if Matches(line, 3) {
      SizeHeard(cfg, file, line);
    }
  }

  lemma PassiveStage(cfg: Config, c: Client, file: string, line: string, created: bool)
    requires exists quad :: IsQuad(quad) && cfg.address == Join(quad, '.')
    requires |c.heard| == 4 && c.stage.Awaiting? && SizeOk(cfg, c, file) && LineKnown(cfg, file, line, 4)
    ensures SizeOk(cfg, OnReply(c, file, line, created), file) && EndpointOk(cfg, OnReply(c, file, line, created))
  {
    if Matches(line, 4) {
      PassiveHeard(cfg, file, line);
    }
  }

  lemma OtherStage(cfg: Config, c: Client, file: string, line: string, created: bool)
    requires |c.heard| != 3 && |c.heard| != 4 && c.stage.Awaiting? && SizeOk(cfg, c, file) && ParseReply(line).Some?
    ensures SizeOk(cfg, OnReply(c, file, line, created), file) && EndpointOk(cfg, OnReply(c, file, line, created))
  {
  }

  lemma ReplyDrained(c: Client, file: string, line: string, created: bool)
    requires StageOk(c) && c.stage.Awaiting?
    ensures Drained(OnReply(c, file, line, created)) ==> Drained(c)
    ensures OnReply(c, file, line, created).recv == c.recv && OnReply(c, file, line, created).buf == c.buf
  {
  }

  // the next line is known before it is read
  lemma NextIsKnown(cfg: Config, now: int, w: World, file: string, line: string, rest: string)
    requires Fits(cfg, file) && Linked(cfg, now, w, file) && OneLine(line) && w.client.buf == line + rest
    ensures LineKnown(cfg, file, line, |w.client.heard|)
  {
    var n := |w.client.heard|;
    var c := w.client.(heard := w.client.heard + [line], buf := rest);
    HearsNext(w.client, Session(cfg, now, w).hist.wire, line, rest);
    Knowledge(cfg, now, w, file, c);
    assert c.heard[n] == line;
    ReadsBack(Said(cfg, Session(cfg, now, w).hist.logged, n), line);
  }

  lemma ReadsLine(cfg: Config, s: State, w: World, file: string, line: string, rest: string, created: bool)
    requires Fits(cfg, file) && Agree(cfg, s, w, file) && w.client.stage.Awaiting?
    requires OneLine(line) && w.client.buf == line + rest && LineKnown(cfg, file, line, |w.client.heard|)
    ensures Agree(cfg, s, w.(client := OnReply(w.client.(buf := rest), file, line, created)), file)
  {
    var c := w.client.(buf := rest);
    HearsNext(w.client, s.hist.wire, line, rest);
    HeardStage(cfg, c, file, line, created);
    ReplyStage(c, file, line, created);
    ReplySent(c, file, line, created);
    ReplyHeard(c, file, line, created);
    ReplyDrained(c, file, line, created);
    ReplyKeeps(s, c, file, line, created);
  }

  lemma ReplyKeeps(s: State, c: Client, file: string, line: string, created: bool)
    requires s.hist.received <= c.sent
    ensures s.hist.received <= OnReply(c, file, line, created).sent
  {
  }

  lemma HearMoves(cfg: Config, now: int, w: World, file: string, created: bool)
    requires Fits(cfg, file) && Linked(cfg, now, w, file) && w.client.stage.Awaiting? && LineEnd(w.client.buf) > 0
    ensures Linked(cfg, now, w.(client := OnLineRead(w.client, file, created)), file)
  {
    var k := LineEnd(w.client.buf);
    var line, rest := w.client.buf[..k], w.client.buf[k..];
    FirstLineIsOneLine(w.client.buf);
    assert w.client.buf == line + rest;
    NextIsKnown(cfg, now, w, file, line, rest);
    ReadsLine(cfg, Session(cfg, now, w), w, file, line, rest, created);
    LineReadIs(w.client, file, line, rest, created);
    StaysLinked(cfg, now, w, OnLineRead(w.client, file, created), file);
  }

  lemma LineReadIs(c: Client, file: string, line: string, rest: string, created: bool)
    requires line == c.buf[..LineEnd(c.buf)] && rest == c.buf[LineEnd(c.buf)..]
    ensures OnLineRead(c, file, created) == OnReply(c.(buf := rest), file, line, created)
  {
  }

  // the session has not moved
  lemma StaysLinked(cfg: Config, now: int, w: World, c: Client, file: string)
    requires Linked(cfg, now, w, file) && Agree(cfg, Session(cfg, now, w), w.(client := c), file)
    ensures Linked(cfg, now, w.(client := c), file)
  {
  }

  lemma HeardStage(cfg: Config, c: Client, file: string, line: string, created: bool)
    requires Fits(cfg, file) && c.stage.Awaiting? && SizeOk(cfg, c, file) && LineKnown(cfg, file, line, |c.heard|)
    ensures SizeOk(cfg, OnReply(c, file, line, created), file) && EndpointOk(cfg, OnReply(c, file, line, created))
  {
    if |c.heard| == 3 {
      SizeStage(cfg, c, file, line, created);
    } else if |c.heard| == 4 {
      PassiveStage(cfg, c, file, line, created);
    } else {
      OtherStage(cfg, c, file, line, created);
    }
  }

  // a client that is receiving has a data connection
  lemma ReceivingIsAccepted(cfg: Config, now: int, w: World, file: string)
    requires Fits(cfg, file) && Linked(cfg, now, w, file) && w.client.stage.Receiving?
    ensures w.accepted
  {
    var s := Session(cfg, now, w);
    Knowledge(cfg, now, w, file, w.client);
    assert Matches(w.client.heard[5], 5);
    ReadsBack(Said(cfg, s.hist.logged, 5), w.client.heard[5]);
    assert s.hist.logged[4] in s.hist.logged;
  }

  lemma DealMoves(c: Client, script: seq<RecvFile.Splice>, size: nat)
    requires c.recv.incoming != "" && size > 0 && |RecvFile.Stream(c.recv)| <= size && RecvFile.Settled(c.recv)
    requires RecvFile.BarFits(size) ==> RecvFile.ProgressOk(c.recv, size)
    ensures var (r, status) := RecvFile.Deal(c.recv, script, Some(size));
            && RecvFile.Settled(r) && RecvFile.Stream(r) == RecvFile.Stream(c.recv) && !status.Finished?
            && (RecvFile.BarFits(size) ==> RecvFile.ProgressOk(r, size))
  {
    RecvFile.DrainKeeps(c.recv, script, Some(size));
    RecvFile.DealAnswers(c.recv, script, Some(size));
  }

  // there is nothing to be read that is not in the file
  lemma IncomingFits(cfg: Config, now: int, w: World, file: string)
    requires Fits(cfg, file) && Linked(cfg, now, w, file) && w.client.stage.Receiving?
    ensures w.client.recv.incoming != "" ==>
              w.client.fileSize > 0 && |RecvFile.Stream(w.client.recv)| <= w.client.fileSize
  {
    Knowledge(cfg, now, w, file, w.client);
    ScriptData(cfg, now, w.trace, file);
  }

  lemma ReadsData(cfg: Config, s: State, w: World, file: string, script: seq<RecvFile.Splice>)
    requires Agree(cfg, s, w, file) && w.client.stage.Receiving? && w.accepted
    requires if w.client.recv.incoming == ""
             then s.data != Socket(true) && RecvFile.Stream(w.client.recv) == s.hist.dataOut
             else w.client.fileSize > 0 && |RecvFile.Stream(w.client.recv)| <= w.client.fileSize
    ensures Agree(cfg, s, w.(client := OnReadable(w.client, script)), file)
  {
    ReadableKeepsStage(w.client, file, script);
    if w.client.recv.incoming != "" {
      DealMoves(w.client, script, w.client.fileSize);
    }
  }

  lemma ReadableMoves(cfg: Config, now: int, w: World, file: string, script: seq<RecvFile.Splice>)
    requires Fits(cfg, file) && Linked(cfg, now, w, file) && Possible(cfg, now, w, Move.Readable(script))
    ensures Linked(cfg, now, w.(client := OnReadable(w.client, script)), file)
  {
    ReceivingIsAccepted(cfg, now, w, file);
    IncomingFits(cfg, now, w, file);
    ReadsData(cfg, Session(cfg, now, w), w, file, script);
  }

  lemma ConnectMoves(cfg: Config, now: int, w: World, file: string)
    requires Linked(cfg, now, w, file) && w.client.stage.Connecting? && w.client.stage.port > 0
    ensures Linked(cfg, now, w.(client := OnConnected(w.client, file), connected := true), file)
  {
    ConnectedKeepsStage(w.client, file);
  }

  lemma FetchMoves(cfg: Config, now: int, w: World, file: string, k: nat)
    requires Linked(cfg, now, w, file) && Possible(cfg, now, w, Fetch(k))
    ensures Linked(cfg, now, Apply(cfg, now, file, w, Fetch(k)), file)
  {
    FetchStream(w.client.recv, Session(cfg, now, w).hist.dataOut, k);
  }

  lemma FetchStream(r: RecvFile.Receiver, dataOut: string, k: nat)
    requires RecvFile.Stream(r) <= dataOut && |RecvFile.Stream(r)| + k <= |dataOut|
    ensures var n := |RecvFile.Stream(r)|;
            RecvFile.Stream(r.(incoming := r.incoming + dataOut[n..n + k])) <= dataOut
  {
    var n := |RecvFile.Stream(r)|;
    LongerPrefix(RecvFile.Stream(r), dataOut, k);
    assert RecvFile.Stream(r.(incoming := r.incoming + dataOut[n..n + k])) == RecvFile.Stream(r) + dataOut[n..n + k];
  }

  lemma BufferGrows(c: Client, wire: string, k: nat)
    requires HearsWire(c, wire) && Fetched(c) + k <= |wire|
    ensures HearsWire(c.(buf := c.buf + wire[Fetched(c)..Fetched(c) + k]), wire)
  {
    var n := Fetched(c);
    assert wire[..n] + wire[n..n + k] == wire[..n + k];
    assert Concat(c.heard) + (c.buf + wire[n..n + k]) == Concat(c.heard) + c.buf + wire[n..n + k];
  }

  lemma BufferMoves(cfg: Config, now: int, w: World, file: string, k: nat)
    requires Linked(cfg, now, w, file) && Possible(cfg, now, w, ToClient(k))
    ensures Linked(cfg, now, Apply(cfg, now, file, w, ToClient(k)), file)
  {
    BufferGrows(w.client, Session(cfg, now, w).hist.wire, k);
    BufferAgrees(cfg, Session(cfg, now, w), w, file, Apply(cfg, now, file, w, ToClient(k)).client);
  }

  lemma BufferAgrees(cfg: Config, s: State, w: World, file: string, c: Client)
    requires Agree(cfg, s, w, file) && c == w.client.(buf := c.buf) && HearsWire(c, s.hist.wire)
    ensures Agree(cfg, s, w.(client := c), file)
  {
  }

  lemma SendMoves(cfg: Config, now: int, w: World, file: string, k: nat)
    requires Linked(cfg, now, w, file) && Possible(cfg, now, w, ToServer(k))
    ensures Linked(cfg, now, Apply(cfg, now, file, w, ToServer(k)), file)
  {
    var received, sent := Session(cfg, now, w).hist.received, w.client.sent;
    LongerPrefix(received, sent, k);
    SessionMoves(cfg, now, w, Arrive(sent[|received|..|received| + k]), file, w.accepted);
  }

  lemma LongerPrefix(a: string, b: string, k: nat)
    requires a <= b && |a| + k <= |b|
    ensures a + b[|a|..|a| + k] <= b
  {
    assert b[..|a|] + b[|a|..|a| + k] == b[..|a| + k];
  }

  lemma FailMoves(cfg: Config, now: int, w: World, file: string)
    requires Linked(cfg, now, w, file)
    ensures Linked(cfg, now, w.(client := w.client.(stage := Finished(false))), file)
  {
  }

  lemma ServerMoves(cfg: Config, now: int, w: World, e: Event, file: string)
    requires Linked(cfg, now, w, file) && !e.Arrive? && !e.AcceptOk? && !e.Reenters?
    ensures Linked(cfg, now, w.(trace := w.trace + [e]), file)
  {
    if Enabled(cfg, Session(cfg, now, w), e) {
      SessionMoves(cfg, now, w, e, file, w.accepted);
      assert w.(trace := w.trace + [e], accepted := w.accepted) == w.(trace := w.trace + [e]);
    } else {
      ReachSnoc(cfg, now, w.trace, e);
    }
  }

  lemma MovesKeepLinked(cfg: Config, now: int, w: World, file: string, m: Move)
    requires Fits(cfg, file) && Linked(cfg, now, w, file) && Possible(cfg, now, w, m)
    ensures Linked(cfg, now, Apply(cfg, now, file, w, m), file)
  {
    match m
    case Server(e) => ServerMoves(cfg, now, w, e, file);
    case ToServer(k) => SendMoves(cfg, now, w, file, k);
    case ToClient(k) => BufferMoves(cfg, now, w, file, k);
    case Hear(created) => HearMoves(cfg, now, w, file, created);
    case Connect => ConnectMoves(cfg, now, w, file);
    case Accept(i) => SessionMoves(cfg, now, w, AcceptOk(i), file, true);
    case Fetch(k) => FetchMoves(cfg, now, w, file, k);
    case Readable(script) => ReadableMoves(cfg, now, w, file, script);
    case Fail => FailMoves(cfg, now, w, file);
  }

  lemma InitLinked(cfg: Config, now: int, file: string)
    ensures Linked(cfg, now, World([], Begin(), false, false), file)
  {
    assert Prints(file)[..0] == [];
  }

  lemma {:induction false} AlwaysLinked(cfg: Config, now: int, file: string, moves: seq<Move>)
    requires Fits(cfg, file)
    ensures Linked(cfg, now, Play(cfg, now, file, moves), file)
  {
    if moves == [] {
      InitLinked(cfg, now, file);
    } else {
      AlwaysLinked(cfg, now, file, moves[..|moves| - 1]);
      var w := Play(cfg, now, file, moves[..|moves| - 1]);
      if Possible(cfg, now, w, moves[|moves| - 1]) {
        MovesKeepLinked(cfg, now, w, file, moves[|moves| - 1]);
      }
    }
  }

  // ---------------------------------------------------------------- main results

  /** End-to-end download. However bytes are chunked and the steps of both sides are
      interleaved: if the client's pipeline ends in `true`, what the name stands for in the
      server's home directory is a file, and the client's file is the whole of it. */
  lemma DownloadIsComplete(cfg: Config, now: int, file: string, moves: seq<Move>)
    requires Fits(cfg, file)
    ensures var c := Play(cfg, now, file, moves).client;
            c.stage == Finished(true) ==> Opens(cfg, file) && Stands(cfg, file, c.recv.file)
  {
    AlwaysLinked(cfg, now, file, moves);
    var w := Play(cfg, now, file, moves);
    StandsIff(cfg, file, w.client.recv.file);
    if w.client.stage == Finished(true) {
      var s := Session(cfg, now, w);
      Knowledge(cfg, now, w, file, w.client);
      assert Matches(w.client.heard[6], 6);
      ReadsBack(Said(cfg, s.hist.logged, 6), w.client.heard[6]);
      assert s.hist.logged[5].reply.code == TRANSFER_COMPLETE;
      ScriptData(cfg, now, w.trace, file);
    }
  }

  /** At every moment, finished or not, the client's file is the beginning of the server's. */
  lemma DownloadIsPrefix(cfg: Config, now: int, file: string, moves: seq<Move>)
    requires Fits(cfg, file)
    ensures var c := Play(cfg, now, file, moves).client;
            c.recv.file != "" ==>
              Exists(cfg, file) && Stands(cfg, file, Content(cfg, file)) && c.recv.file <= Content(cfg, file)
  {
    if Exists(cfg, file) {
      StandsIff(cfg, file, Content(cfg, file));
    }
    AlwaysLinked(cfg, now, file, moves);
    var w := Play(cfg, now, file, moves);
    Knowledge(cfg, now, w, file, w.client);
    ScriptData(cfg, now, w.trace, file);
  }

  /** Client progress, for a file whose percentages do not overflow: the values given to the
      bar are between 0 and 100 and never fall, and 100 is among them exactly when the whole file
      is stored and is not empty. */
  lemma ProgressIsHonest(cfg: Config, now: int, file: string, moves: seq<Move>)
    requires Fits(cfg, file)
    requires Exists(cfg, file) ==> RecvFile.BarFits(|Content(cfg, file)|)
    ensures var c := Play(cfg, now, file, moves).client;
            && (forall i, j :: 0 <= i < j < |c.recv.progress| ==> c.recv.progress[i] <= c.recv.progress[j])
            && (forall p :: p in c.recv.progress ==> 0 <= p <= 100)
            && (100 in c.recv.progress <==> c.recv.file != "" && Stands(cfg, file, c.recv.file))
  {
    AlwaysLinked(cfg, now, file, moves);
    DownloadIsPrefix(cfg, now, file, moves);
    var c := Play(cfg, now, file, moves).client;
    StandsIff(cfg, file, c.recv.file);
    if 100 in c.recv.progress {
      WholeFile(cfg, c, file);
    } else if c.recv.file != "" && Stands(cfg, file, c.recv.file) {
      FullBar(cfg, c, file);
    }
  }

  lemma WholeFile(cfg: Config, c: Client, file: string)
    requires SizeOk(cfg, c, file) && RecvFile.Settled(c.recv) && 100 in c.recv.progress
    requires Exists(cfg, file) ==> RecvFile.BarFits(|Content(cfg, file)|)
    requires c.recv.file != "" ==> Exists(cfg, file) && c.recv.file <= Content(cfg, file)
    ensures Exists(cfg, file) && c.recv.file == Content(cfg, file) != ""
  {
  }

  lemma FullBar(cfg: Config, c: Client, file: string)
    requires SizeOk(cfg, c, file) && RecvFile.Settled(c.recv) && c.recv.file != ""
    requires Exists(cfg, file) && c.recv.file == Content(cfg, file) && RecvFile.BarFits(|Content(cfg, file)|)
    ensures 100 in c.recv.progress
  {
    var total := |Content(cfg, file)|;
    RecvFile.PercentIs(total, total);
    assert total * 100 / total == 100;
    assert c.recv.progress[|c.recv.progress| - 1] == RecvFile.Percent(total, total);
  }

  /** No stage crashes, neither in a parser nor by dividing by the announced size, unless the
      size does not fit into std::stol. */
  lemma NoStageCrashes(cfg: Config, now: int, file: string, moves: seq<Move>)
    requires Fits(cfg, file)
    ensures Play(cfg, now, file, moves).client.stage.Crashed? ==>
              Exists(cfg, file) && |Content(cfg, file)| >= LONG_BOUND
  {
    AlwaysLinked(cfg, now, file, moves);
  }

  // a session that has written all four replies and got no fifth line
  lemma SessionListens(cfg: Config, s: State, file: string, n: nat, asked: nat)
    requires n <= asked == 4 && |s.hist.logged| >= 4
    requires n < 5 ==> |s.hist.logged| == n && s.props == After(cfg, file, n)
    ensures s.props == PassiveAnswer(cfg, AfterPass(cfg)).0
  {
    assert n == 4;
  }

  /** A client that is about to connect has the session's own address and port, and the
      session is listening there. */
  lemma ConnectsToSession(cfg: Config, now: int, file: string, moves: seq<Move>)
    requires Fits(cfg, file)
    ensures var w := Play(cfg, now, file, moves);
            w.client.stage.Connecting? ==>
              && w.client.stage.address == cfg.address
              && Session(cfg, now, w).props.acceptor == Listening(w.client.stage.port)
  {
    AlwaysLinked(cfg, now, file, moves);
    var w := Play(cfg, now, file, moves);
    var s := Session(cfg, now, w);
    if w.client.stage.Connecting? {
      Knowledge(cfg, now, w, file, w.client);
      SessionListens(cfg, s, file, |Lines(s.hist.consumed)|, w.client.asked);
    }
  }
}
