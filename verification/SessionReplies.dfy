/** What the replies of a run tell about the session: its directory, its transfer type, its login
    and the directories it has made can be read off them, and nothing else decides them. */
module SessionReplies {
  import opened Text
  import opened Requests
  import opened Replies
  import opened Commands
  import opened Engine
  import opened SessionEffects
  import opened SessionRuns
  import opened SessionTransfers
  import Paths

  // ---------------------------------------------------------------- reading the replies

  /** What a peer knows who has read the replies. */
  datatype Told = Told(path: string, transferType: TransportType, loggedOn: bool, made: set<string>)

  const CREATED := " created.\r\n"

  /** A 200 with this text. */
  predicate Says(r: Reply, info: string) { r.code == 200 && r.text == "200 " + info + "\r\n" }

  predicate Creates(r: Reply) { r.code == 257 && Paths.EndsIn(r.text, CREATED) }

  /** 250 names the directory, 230 logs on, a 257 that ends in "created." names a new directory. */
  function Hear(t: Told, r: Reply): Told {
    Told(if r.code == 250 then Quoted(r.text) else t.path,
         if Says(r, "Switching to ASCII mode.") then Ascii
         else if Says(r, "Switching to Binary mode.") then Binary
         else t.transferType,
         t.loggedOn || r.code == 230,
         if Creates(r) then t.made + {Quoted(r.text)} else t.made)
  }

  function ToldBy(cfg: Config, log: seq<Message>): Told {
    if log == [] then Told(cfg.home, Binary, false, {})
    else Hear(ToldBy(cfg, log[..|log| - 1]), log[|log| - 1].reply)
  }

  lemma ToldSnoc(cfg: Config, log: seq<Message>, m: Message)
    ensures ToldBy(cfg, log + [m]) == Hear(ToldBy(cfg, log), m.reply)
  {
    assert (log + [m])[..|log|] == log;
  }

  /** The session is as the replies tell. */
  ghost predicate Shows(cfg: Config, p: Props, t: Told) {
    && p.currentPath == t.path && p.transferType == t.transferType && p.verified == t.loggedOn
    && FilesShown(cfg, p.files, t.made)
  }

  /** The nodes are those of the configuration and the new directories. */
  ghost predicate FilesShown(cfg: Config, files: map<string, Node>, made: set<string>) {
    && files.Keys == cfg.files.Keys + made
    && forall name :: name in files ==>
         files[name] == if name in cfg.files then cfg.files[name] else Dir(name)
  }

  // ---------------------------------------------------------------- one command

  // a reply that tells nothing
  lemma Unheard(t: Told, r: Reply)
    requires r.code != 200 && r.code != 230 && r.code != 250 && r.code != 257
    ensures Hear(t, r) == t
  {
  }

  lemma SaysIff(info: string, other: string)
    ensures Says(CodeInfo(OK, info), other) <==> info == other
  {
    ThreeDigits(OK);
    var code, text := ToString(OK) + " ", CodeInfo(OK, info).text;
    assert text[4..|text| - 2] == info;
    var said := "200 " + other + "\r\n";
    assert said[4..|said| - 2] == other;
    assert code == "200 ";
  }

  // what a 200 tells, by the length of its text
  lemma OkHeard(t: Told, info: string, ascii: string, binary: string)
    requires ascii == "Switching to ASCII mode." && binary == "Switching to Binary mode."
    ensures |ascii| == 24 && |binary| == 25
    ensures Hear(t, CodeInfo(OK, info)) ==
              t.(transferType := if info == ascii then Ascii else if info == binary then Binary else t.transferType)
  {
    SaysIff(info, ascii);
    SaysIff(info, binary);
  }

  lemma PropertyHeard(p: Props, req: Request, t: Told)
    requires p.transferType == t.transferType
    ensures var (q, reply) := PropertyAnswer(p, req);
            q == p.(transferType := q.transferType) && Hear(t, reply) == t.(transferType := q.transferType)
  {
    var ascii, binary, utf := "Switching to ASCII mode.", "Switching to Binary mode.", "Always in UTF8 mode.";
    assert |utf| == 20;
    OkHeard(t, ascii, ascii, binary);
    OkHeard(t, binary, ascii, binary);
    OkHeard(t, utf, ascii, binary);
    PropertyCases(p, req, ascii, binary, utf);
    if PropertyAnswer(p, req).1.code != OK {
      Unheard(t, PropertyAnswer(p, req).1);
    }
  }

  lemma PropertyCases(p: Props, req: Request, ascii: string, binary: string, utf: string)
    requires ascii == "Switching to ASCII mode." && binary == "Switching to Binary mode."
    requires utf == "Always in UTF8 mode."
    ensures PropertyAnswer(p, req) in {
              (p.(transferType := Binary), CodeInfo(OK, binary)), (p.(transferType := Ascii), CodeInfo(OK, ascii)),
              (p, CodeInfo(OK, utf))}
            || (PropertyAnswer(p, req).0 == p && PropertyAnswer(p, req).1.code in {SYNTAX_ERROR, BAD_OPTS})
  {
  }

  lemma PwdIsNoCreation(path: string)
    ensures !Creates(Pwd(path))
  {
    var text := Pwd(path).text;
    var info := "\"" + path + "\" is the current directory.";
    assert text[|text| - 4] == info[|info| - 2] == 'y';
  }

  lemma CreatedReply(target: string, reply: Reply)
    requires reply == CodeInfo(PWD_OR_MKDIR_OK, "\"" + target + "\" created.")
    ensures Creates(reply) && Quoted(reply.text) == target
  {
    var rest := " created.";
    NamingReply(PWD_OR_MKDIR_OK, "\"" + target + "\" created.", rest[..0], target, rest);
    assert reply.text == ToString(PWD_OR_MKDIR_OK) + " \"" + target + "\"" + CREATED;
  }

  lemma CreateDirShows(cfg: Config, p: Props, body: string, t: Told)
    requires Shows(cfg, p, t)
    ensures Shows(cfg, CreateDirAnswer(cfg, p, body).0, Hear(t, CreateDirAnswer(cfg, p, body).1))
  {
    var target := TargetPath(p, body);
    if cfg.writeEnable && body != "" && target !in p.files {
      CreatedReply(target, CreateDirAnswer(cfg, p, body).1);
    }
  }

  lemma ChangeDirShows(cfg: Config, p: Props, target: string, t: Told)
    requires Shows(cfg, p, t)
    ensures Shows(cfg, ChangeDir(p, target).0, Hear(t, ChangeDir(p, target).1))
  {
    if target in p.files && p.files[target].Dir? {
      CwdNames(p.files[target].canonical);
    }
  }

  lemma AuthShows(cfg: Config, p: Props, req: Request, t: Told)
    requires Shows(cfg, p, t) && (p.verified ==> req.command != "USER" && req.command != "PASS")
    ensures Shows(cfg, AuthAnswer(cfg, p, req).0, Hear(t, AuthAnswer(cfg, p, req).1))
  {
  }

  lemma NoopShows(cfg: Config, p: Props, t: Told)
    requires Shows(cfg, p, t)
    ensures Shows(cfg, p, Hear(t, CodeInfo(OK, "NOOP ok")))
  {
    var noop := "NOOP ok";
    assert |noop| == 7;
    OkHeard(t, noop, "Switching to ASCII mode.", "Switching to Binary mode.");
  }

  lemma CwdShows(cfg: Config, p: Props, body: string, t: Told)
    requires Shows(cfg, p, t)
    ensures var (q, reply) := if body == "" then (p, Cwd(Some(p.currentPath))) else ChangeDir(p, TargetPath(p, body));
            Shows(cfg, q, Hear(t, reply))
  {
    CwdNames(p.currentPath);
    ChangeDirShows(cfg, p, TargetPath(p, body), t);
  }

  lemma AnswerShows(cfg: Config, p: Props, req: Request, t: Told)
    requires RouteOf(p, req).Run? && !IsTransfer(RouteOf(p, req).kind) && Shows(cfg, p, t)
    ensures var (q, reply) := Answer(cfg, p, RouteOf(p, req).kind, req);
            Shows(cfg, q, Hear(t, reply))
  {
    var kind := RouteOf(p, req).kind;
    match kind
    case Ack => NoopShows(cfg, p, t);
    case Auth =>
      if p.verified { AuthCommand(req.command); }
      AuthShows(cfg, p, req, t);
    case CreateDir => CreateDirShows(cfg, p, req.body, t);
    case ChangeWorkingDir => CwdShows(cfg, p, req.body, t);
    case CdToParent => ChangeDirShows(cfg, p, TargetPath(p, ".."), t);
    case Property => PropertyHeard(p, req, t);
    case PrintWorkingDir => PwdIsNoCreation(p.currentPath);
    case _ =>
  }

  // ---------------------------------------------------------------- runs

  lemma LineShows(cfg: Config, s: State)
    requires Shows(cfg, s.props, ToldBy(cfg, s.hist.logged))
    ensures Shows(cfg, OnLine(cfg, s).props, ToldBy(cfg, OnLine(cfg, s).hist.logged))
  {
    LineEffect(cfg, s);
    var parsed, told := ParseLine(FirstLine(s)), ToldBy(cfg, s.hist.logged);
    if parsed.Some? {
      var req := parsed.value;
      match RouteOf(s.props, req)
      case Reject(reply) =>
        ToldSnoc(cfg, s.hist.logged, Message(reply, NoToken));
      case Run(kind) =>
        if IsTransfer(kind) {
          TransferShows(cfg, s, OnLine(cfg, s), kind, req);
        } else {
          AnswerShows(cfg, s.props, req, told);
          ToldSnoc(cfg, s.hist.logged, Message(Answer(cfg, s.props, kind, req).1, NoToken));
        }
    }
  }

  lemma TransferShows(cfg: Config, s: State, u: State, kind: Kind, req: Request)
    requires IsTransfer(kind) && Shows(cfg, s.props, ToldBy(cfg, s.hist.logged))
    requires TransferOutcome(AtLine(s), u, kind, req, OpenTransfer(cfg, s.props, kind, req.body))
    ensures Shows(cfg, u.props, ToldBy(cfg, u.hist.logged))
  {
    var got := OpenTransfer(cfg, s.props, kind, req.body);
    if !(got.Ready? && !s.props.acceptor.Closed?) {
      if got.Refused? { RefusalCode(cfg, s.props, kind, req.body); }
      ToldSnoc(cfg, s.hist.logged, Message(if got.Ready? then Code(INVALID_SEQ) else got.reply, NoToken));
    }
  }

  /** Other events write at most a 150 or a 226, as long as only the daemon's tokens run. */
  ghost predicate Announces(s: State, t: State) {
    || t.hist.logged == s.hist.logged
    || exists m: Message :: t.hist.logged == s.hist.logged + [m] && m.reply.code in {DATA_CONN, TRANSFER_COMPLETE}
  }

  lemma EndedAnnounces(s: State, t: State, i: nat)
    requires DataStep(s, t, i)
    ensures Announces(s, t)
  {
    var outcome, sends, recvs, dataOut :| DataEnded(s, t, i, outcome, sends, recvs, dataOut);
  }

  lemma OthersAnnounce(cfg: Config, s: State, e: Event)
    requires Enabled(cfg, s, e) && !e.Line? && !e.Reenters?
    ensures Announces(s, Step(cfg, s, e))
  {
    if IsQuiet(e) {
      QuietStepped(cfg, s, e);
    } else if e.Written? || e.WriteFailed? {
      WritesNothing(cfg, s, e);
    } else if e.AcceptOk? {
      AcceptedEffect(cfg, s, e.i);
    } else if e.AcceptFailed? {
      AcceptFailedEffect(cfg, s, e.i, e.aborted);
    } else {
      IsDataStep(cfg, s, e);
      EndedAnnounces(s, Step(cfg, s, e), e.i);
    }
  }

  lemma WritesNothing(cfg: Config, s: State, e: Event)
    requires Enabled(cfg, s, e) && (e.Written? || e.WriteFailed?)
    ensures Step(cfg, s, e).hist.logged == s.hist.logged
  {
    if !s.ctl.phase.Starting? {
      if e.Written? { WrittenEffect(cfg, s); } else { WriteFailedEffect(cfg, s); }
    }
  }

  lemma AnnouncedShows(cfg: Config, s: State, t: State)
    requires Shows(cfg, s.props, ToldBy(cfg, s.hist.logged)) && Announces(s, t)
    requires t.props == s.props.(acceptor := t.props.acceptor)
    ensures Shows(cfg, t.props, ToldBy(cfg, t.hist.logged))
  {
    if t.hist.logged != s.hist.logged {
      var m :| t.hist.logged == s.hist.logged + [m] && m.reply.code in {DATA_CONN, TRANSFER_COMPLETE};
      ToldSnoc(cfg, s.hist.logged, m);
      Unheard(ToldBy(cfg, s.hist.logged), m.reply);
    }
  }

  /** On every run, at every moment: the session's directory is the one the last 250 names, or its
      home; the transfer type is that of the last reply to TYPE; it is logged in exactly when a
      230 has been written; and its directories are the old ones and those the 257s name. */
  lemma {:induction false} RepliesTellState(cfg: Config, now: int, es: seq<Event>)
    requires OwnTokens(es)
    ensures Shows(cfg, Reach(cfg, now, es).props, ToldBy(cfg, Reach(cfg, now, es).hist.logged))
  {
    if es != [] {
      var init, e := es[..|es| - 1], es[|es| - 1];
      var s := Reach(cfg, now, init);
      assert forall x :: x in init ==> x in es;
      assert e in es;
      RepliesTellState(cfg, now, init);
      if Enabled(cfg, s, e) {
        if e.Line? {
          LineShows(cfg, s);
        } else {
          StepEffect(cfg, s, e);
          OthersAnnounce(cfg, s, e);
          AnnouncedShows(cfg, s, Step(cfg, s, e));
        }
      }
    }
  }
}
