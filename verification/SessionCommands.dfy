/** What each command does in a run, in terms of what the replies have told so far. */
module SessionCommands {
  import opened Text
  import opened Requests
  import opened Replies
  import opened Commands
  import opened Engine
  import opened SessionEffects
  import opened SessionRuns
  import opened SessionTransfers
  import opened SessionReplies
  import opened Sequential
  import Paths

  // ---------------------------------------------------------------- a command of a run

  function Known(cfg: Config, s: State): Told { ToldBy(cfg, s.hist.logged) }

  /** After the run `es` the session is logged in, and the next line is this command. */
  ghost predicate Given(cfg: Config, now: int, es: seq<Event>, command: string, body: string) {
    var s := Reach(cfg, now, es);
    && OwnTokens(es) && s.ctl.reading && LineEnd(s.ctl.buf) > 0 && Known(cfg, s).loggedOn
    && ParseLine(FirstLine(s)) == Some(Request(command, body))
  }

  function Before(cfg: Config, now: int, es: seq<Event>): State { Reach(cfg, now, es) }

  function After(cfg: Config, now: int, es: seq<Event>): State { Reach(cfg, now, es + [Line]) }

  /** The command has been answered with this reply, and the session is as the replies tell. */
  ghost predicate Answered(cfg: Config, s: State, t: State, r: Reply) {
    && t.hist.logged == s.hist.logged + [Message(r, NoToken)] && Known(cfg, t) == Hear(Known(cfg, s), r)
    && Shows(cfg, t.props, Known(cfg, t))
  }

  /** What stands at a path, as far as the peer knows. */
  function NodeAt(cfg: Config, told: Told, target: string): Option<Node> {
    if target in cfg.files then Some(cfg.files[target])
    else if target in told.made then Some(Dir(target))
    else None
  }

  lemma NodesShown(cfg: Config, p: Props, told: Told, target: string)
    requires Shows(cfg, p, told)
    ensures NodeAt(cfg, told, target) == if target in p.files then Some(p.files[target]) else None
  {
  }

  lemma GivenShows(cfg: Config, now: int, es: seq<Event>, command: string, body: string)
    requires Given(cfg, now, es, command, body)
    ensures Shows(cfg, Before(cfg, now, es).props, Known(cfg, Before(cfg, now, es)))
    ensures Before(cfg, now, es).props.verified
  {
    RepliesTellState(cfg, now, es);
  }

  // the file-system library does not throw at the command
  predicate Bears(cfg: Config, p: Props, kind: Kind, body: string) { !KindThrows(cfg, p, kind, body) }

  lemma LineRuns(cfg: Config, now: int, es: seq<Event>, kind: Kind, req: Request)
    requires Given(cfg, now, es, req.command, req.body) && RouteOf(Before(cfg, now, es).props, req) == Run(kind)
    requires Bears(cfg, Before(cfg, now, es).props, kind, req.body)
    ensures Enabled(cfg, Before(cfg, now, es), Line)
    ensures After(cfg, now, es) == OnLine(cfg, Before(cfg, now, es))
    ensures Shows(cfg, After(cfg, now, es).props, Known(cfg, After(cfg, now, es)))
  {
    GivenShows(cfg, now, es, req.command, req.body);
    ReachSnoc(cfg, now, es, Line);
    RepliesTellState(cfg, now, es + [Line]);
  }

  // a command that answers at once
  lemma RunsAnswer(cfg: Config, now: int, es: seq<Event>, kind: Kind, req: Request, r: Reply)
    requires Given(cfg, now, es, req.command, req.body) && RouteOf(Before(cfg, now, es).props, req) == Run(kind)
    requires !IsTransfer(kind) && Bears(cfg, Before(cfg, now, es).props, kind, req.body)
    requires r == Answer(cfg, Before(cfg, now, es).props, kind, req).1
    ensures Answered(cfg, Before(cfg, now, es), After(cfg, now, es), r)
    ensures After(cfg, now, es).props == Answer(cfg, Before(cfg, now, es).props, kind, req).0
  {
    LineRuns(cfg, now, es, kind, req);
    var s := Before(cfg, now, es);
    LineEffect(cfg, s);
    ToldSnoc(cfg, s.hist.logged, Message(r, NoToken));
  }

  // ---------------------------------------------------------------- directories

  lemma PwdRoute(p: Props, req: Request)
    requires p.verified && (req.command == "PWD" || req.command == "XPWD")
    ensures RouteOf(p, req) == Run(PrintWorkingDir)
  {
    var a, b := "PWD", "XPWD";
    assert Registered(a) == Some(PrintWorkingDir) && a != "USER" && a != "PASS";
    assert Registered(b) == Some(PrintWorkingDir) && b != "USER" && b != "PASS";
  }

  lemma PwdHeard(path: string, told: Told)
    ensures var r := Pwd(path); r.code == 257 && Quoted(r.text) == path && Hear(told, r) == told
  {
    PwdNames(path);
    PwdIsNoCreation(path);
  }

  lemma PwdAnswered(cfg: Config, now: int, es: seq<Event>, req: Request) returns (r: Reply)
    requires Given(cfg, now, es, req.command, req.body)
    requires RouteOf(Before(cfg, now, es).props, req) == Run(PrintWorkingDir)
    ensures Answered(cfg, Before(cfg, now, es), After(cfg, now, es), r)
    ensures r == Pwd(Before(cfg, now, es).props.currentPath)
  {
    r := Pwd(Before(cfg, now, es).props.currentPath);
    RunsAnswer(cfg, now, es, PrintWorkingDir, req, r);
  }

  /** PWD names the directory that the last 250 named, or the home directory if there was none,
      and tells nothing new. */
  lemma PwdTells(cfg: Config, now: int, es: seq<Event>, command: string, body: string) returns (r: Reply)
    requires (command == "PWD" || command == "XPWD") && Given(cfg, now, es, command, body)
    ensures var s, t := Before(cfg, now, es), After(cfg, now, es);
            && Answered(cfg, s, t, r) && Known(cfg, t) == Known(cfg, s)
            && r.code == 257 && Quoted(r.text) == Known(cfg, s).path
  {
    GivenShows(cfg, now, es, command, body);
    var s, req := Before(cfg, now, es), Request(command, body);
    PwdRoute(s.props, req);
    r := PwdAnswered(cfg, now, es, req);
    PwdHeard(s.props.currentPath, Known(cfg, s));
  }

  /** The path a change of directory is about. */
  ghost predicate GoesTo(told: Told, command: string, body: string, target: string) {
    || ((command == "CWD" || command == "XCWD") && body != "" && Paths.Resolves(told.path, body, target))
    || ((command == "CDUP" || command == "XCUP") && Paths.Resolves(told.path, "..", target))
  }

  lemma MoveRoute(p: Props, req: Request)
    requires p.verified
    ensures req.command == "CWD" || req.command == "XCWD" ==> RouteOf(p, req) == Run(ChangeWorkingDir)
    ensures req.command == "CDUP" || req.command == "XCUP" ==> RouteOf(p, req) == Run(CdToParent)
  {
    var a, b, c, d := "CWD", "XCWD", "CDUP", "XCUP";
    assert Registered(a) == Some(ChangeWorkingDir) && a != "USER" && a != "PASS";
    assert Registered(b) == Some(ChangeWorkingDir) && b != "USER" && b != "PASS";
    assert Registered(c) == Some(CdToParent) && c != "USER" && c != "PASS";
    assert Registered(d) == Some(CdToParent) && d != "USER" && d != "PASS";
  }

  lemma MoveHeard(p: Props, target: string, told: Told)
    requires p.currentPath == told.path
    ensures var r := ChangeDir(p, target).1;
            if target in p.files && p.files[target].Dir? then
              r.code == 250 && Quoted(r.text) == p.files[target].canonical
              && Hear(told, r) == told.(path := p.files[target].canonical)
            else r.code == 550 && Hear(told, r) == told
  {
    if target in p.files && p.files[target].Dir? {
      CwdNames(p.files[target].canonical);
    }
  }

  lemma CwdTarget(cfg: Config, p: Props, req: Request, target: string)
    requires req.body != "" && Paths.Resolves(p.currentPath, req.body, target)
    ensures Answer(cfg, p, ChangeWorkingDir, req) == ChangeDir(p, target)
  {
    TargetIff(p, req.body, target);
    CwdAnswer(cfg, p, req, target);
  }

  lemma CwdAnswer(cfg: Config, p: Props, req: Request, target: string)
    requires req.body != "" && target == TargetPath(p, req.body)
    ensures Answer(cfg, p, ChangeWorkingDir, req) == ChangeDir(p, target)
  {
  }

  lemma CdupTarget(cfg: Config, p: Props, req: Request, target: string)
    requires Paths.Resolves(p.currentPath, "..", target)
    ensures Answer(cfg, p, CdToParent, req) == ChangeDir(p, target)
  {
    TargetIff(p, "..", target);
  }

  // the operation the command runs changes to the target
  lemma MoveTarget(cfg: Config, p: Props, told: Told, req: Request, target: string) returns (kind: Kind)
    requires p.verified && p.currentPath == told.path && GoesTo(told, req.command, req.body, target)
    ensures !IsTransfer(kind) && RouteOf(p, req) == Run(kind) && Bears(cfg, p, kind, req.body)
    ensures Answer(cfg, p, kind, req) == ChangeDir(p, target)
  {
    MoveRoute(p, req);
    if req.command == "CWD" || req.command == "XCWD" {
      kind := ChangeWorkingDir;
      CwdTarget(cfg, p, req, target);
    } else {
      kind := CdToParent;
      CdupTarget(cfg, p, req, target);
    }
  }

  /** What CWD and CDUP do: to a directory they move, and the 250 names where the session now is;
      for anything else there is a 550 and the session stays where it is. */
  lemma CwdMoves(cfg: Config, now: int, es: seq<Event>, command: string, body: string, target: string)
    returns (r: Reply)
    requires Given(cfg, now, es, command, body) && GoesTo(Known(cfg, Before(cfg, now, es)), command, body, target)
    ensures var s, t := Before(cfg, now, es), After(cfg, now, es);
            var node := NodeAt(cfg, Known(cfg, s), target);
            && Answered(cfg, s, t, r)
            && if node.Some? && node.value.Dir? then
                 && r.code == 250 && Quoted(r.text) == node.value.canonical
                 && Known(cfg, t) == Known(cfg, s).(path := node.value.canonical)
               else r.code == 550 && Known(cfg, t) == Known(cfg, s)
  {
    GivenShows(cfg, now, es, command, body);
    var s, req := Before(cfg, now, es), Request(command, body);
    var kind := MoveTarget(cfg, s.props, Known(cfg, s), req, target);
    r := ChangeDir(s.props, target).1;
    RunsAnswer(cfg, now, es, kind, req, r);
    NodesShown(cfg, s.props, Known(cfg, s), target);
    MoveHeard(s.props, target, Known(cfg, s));
  }

  /** After a change of directory, for as long as no other 250 is written, PWD names the
      directory of its reply. */
  lemma PwdAfterCwd(cfg: Config, now: int, es: seq<Event>, command: string, body: string, log: seq<Message>,
                    moved: Message, between: seq<Message>) returns (r: Reply)
    requires (command == "PWD" || command == "XPWD") && Given(cfg, now, es, command, body)
    requires Before(cfg, now, es).hist.logged == log + [moved] + between
    requires moved.reply.code == 250 && forall m :: m in between ==> m.reply.code != 250
    ensures Answered(cfg, Before(cfg, now, es), After(cfg, now, es), r)
    ensures r.code == 257 && Quoted(r.text) == Quoted(moved.reply.text)
  {
    r := PwdTells(cfg, now, es, command, body);
    LastMove(cfg, log, moved, between);
  }

  lemma {:induction false} LastMove(cfg: Config, log: seq<Message>, moved: Message, between: seq<Message>)
    requires moved.reply.code == 250 && forall m :: m in between ==> m.reply.code != 250
    ensures ToldBy(cfg, log + [moved] + between).path == Quoted(moved.reply.text)
  {
    if between == [] {
      assert log + [moved] + between == log + [moved];
      ToldSnoc(cfg, log, moved);
    } else {
      var init, last := between[..|between| - 1], between[|between| - 1];
      assert log + [moved] + between == log + [moved] + init + [last];
      assert last in between;
      LastMove(cfg, log, moved, init);
      ToldSnoc(cfg, log + [moved] + init, last);
    }
  }

  lemma MkdirRoute(p: Props, req: Request)
    requires p.verified && (req.command == "MKD" || req.command == "XMKD")
    ensures RouteOf(p, req) == Run(CreateDir)
  {
    var a, b := "MKD", "XMKD";
    assert Registered(a) == Some(CreateDir) && a != "USER" && a != "PASS";
    assert Registered(b) == Some(CreateDir) && b != "USER" && b != "PASS";
  }

  lemma MkdirHeard(cfg: Config, p: Props, body: string, target: string, told: Told)
    requires Paths.Resolves(p.currentPath, body, target)
    ensures var r := CreateDirAnswer(cfg, p, body).1;
            if cfg.writeEnable && body != "" && target !in p.files then
              r.code == 257 && Quoted(r.text) == target && Hear(told, r) == told.(made := told.made + {target})
            else r.code == 550 && Hear(told, r) == told
  {
    TargetIff(p, body, target);
    if cfg.writeEnable && body != "" && target !in p.files {
      CreatedReply(target, CreateDirAnswer(cfg, p, body).1);
    }
  }

  lemma MkdirAnswered(cfg: Config, now: int, es: seq<Event>, req: Request) returns (r: Reply)
    requires Given(cfg, now, es, req.command, req.body)
    requires RouteOf(Before(cfg, now, es).props, req) == Run(CreateDir)
    requires !MkdirThrows(cfg, Before(cfg, now, es).props, req.body)
    ensures Answered(cfg, Before(cfg, now, es), After(cfg, now, es), r)
    ensures r == CreateDirAnswer(cfg, Before(cfg, now, es).props, req.body).1
  {
    r := CreateDirAnswer(cfg, Before(cfg, now, es).props, req.body).1;
    RunsAnswer(cfg, now, es, CreateDir, req, r);
  }

  /** There is something to make: writing is enabled, a name is given and nothing has it. */
  predicate Makes(cfg: Config, told: Told, body: string, target: string) {
    cfg.writeEnable && body != "" && NodeAt(cfg, told, target).None?
  }

  /** MKD makes what there is to make; the 257 names it, and from then on it stands there.
      Otherwise there is a 550 and nothing changes. If it cannot be made, the library throws. */
  lemma MkdirMakes(cfg: Config, now: int, es: seq<Event>, command: string, body: string, target: string)
    returns (r: Reply)
    requires (command == "MKD" || command == "XMKD") && Given(cfg, now, es, command, body)
    requires Paths.Resolves(Known(cfg, Before(cfg, now, es)).path, body, target)
    ensures var s, t := Before(cfg, now, es), After(cfg, now, es);
            if Makes(cfg, Known(cfg, s), body, target) then
              if target in cfg.creatable then
                && Answered(cfg, s, t, r) && r.code == 257 && Quoted(r.text) == target
                && NodeAt(cfg, Known(cfg, t), target) == Some(Dir(target))
                && Known(cfg, t) == Known(cfg, s).(made := Known(cfg, s).made + {target})
              else Offered(s, Line) && Crashes(cfg, s, Line)
            else Answered(cfg, s, t, r) && r.code == 550 && Known(cfg, t) == Known(cfg, s)
  {
    GivenShows(cfg, now, es, command, body);
    var s, req := Before(cfg, now, es), Request(command, body);
    MkdirRoute(s.props, req);
    NodesShown(cfg, s.props, Known(cfg, s), target);
    MkdirHeard(cfg, s.props, body, target, Known(cfg, s));
    TargetIff(s.props, body, target);
    if Makes(cfg, Known(cfg, s), body, target) && target !in cfg.creatable {
      MkdirCrashes(cfg, s, req);
      r := Code(OK);
    } else {
      r := MkdirAnswered(cfg, now, es, req);
    }
  }

  lemma MkdirCrashes(cfg: Config, s: State, req: Request)
    requires s.ctl.reading && LineEnd(s.ctl.buf) > 0 && ParseLine(FirstLine(s)) == Some(req)
    requires s.props.verified && RouteOf(s.props, req) == Run(CreateDir) && MkdirThrows(cfg, s.props, req.body)
    ensures Offered(s, Line) && Crashes(cfg, s, Line)
  {
  }

  // ---------------------------------------------------------------- sizes, types and the status

  lemma SizeRoute(p: Props, req: Request)
    requires p.verified && req.command == "SIZE"
    ensures RouteOf(p, req) == Run(Size)
  {
    var a := "SIZE";
    assert Registered(a) == Some(Size) && a != "USER" && a != "PASS";
  }

  /** The reply is a 213 with this number. */
  ghost predicate SaysSize(r: Reply, size: nat) {
    exists digits :: r.text == "213 " + digits + "\r\n" && AllDigits(digits) && Value(digits) == size
  }

  lemma SizeText(n: nat)
    ensures SaysSize(CodeInfo(SIZE_OK, ToString(n)), n)
  {
    ThreeDigits(SIZE_OK);
    ValueOfToString(n);
    var digits := ToString(n);
    assert CodeInfo(SIZE_OK, digits).text == "213 " + digits + "\r\n";
  }

  lemma SizeHeard(p: Props, body: string, target: string, told: Told)
    requires Paths.Resolves(p.currentPath, body, target)
    ensures var r := SizeReply(p, body);
            && Hear(told, r) == told
            && if target in p.files && p.files[target].File? then SaysSize(r, |p.files[target].content|)
               else r.code == 550
  {
    TargetIff(p, body, target);
    if target in p.files && p.files[target].File? {
      SizeText(|p.files[target].content|);
    }
  }

  lemma SizeIs(cfg: Config, p: Props, req: Request)
    ensures Answer(cfg, p, Size, req) == (p, SizeReply(p, req.body))
  {
  }

  lemma SizeAnswered(cfg: Config, now: int, es: seq<Event>, req: Request) returns (r: Reply)
    requires Given(cfg, now, es, req.command, req.body)
    requires RouteOf(Before(cfg, now, es).props, req) == Run(Size)
    ensures Answered(cfg, Before(cfg, now, es), After(cfg, now, es), r)
    ensures r == SizeReply(Before(cfg, now, es).props, req.body)
  {
    var p := Before(cfg, now, es).props;
    SizeIs(cfg, p, req);
    r := Answer(cfg, p, Size, req).1;
    RunsAnswer(cfg, now, es, Size, req, r);
  }

  /** SIZE tells the length of a file and refuses everything else. */
  lemma SizeTells(cfg: Config, now: int, es: seq<Event>, body: string, target: string) returns (r: Reply)
    requires Given(cfg, now, es, "SIZE", body)
    requires Paths.Resolves(Known(cfg, Before(cfg, now, es)).path, body, target)
    ensures var s, t := Before(cfg, now, es), After(cfg, now, es);
            var node := NodeAt(cfg, Known(cfg, s), target);
            && Answered(cfg, s, t, r) && Known(cfg, t) == Known(cfg, s)
            && if node.Some? && node.value.File? then SaysSize(r, |node.value.content|) else r.code == 550
  {
    GivenShows(cfg, now, es, "SIZE", body);
    var s, req := Before(cfg, now, es), Request("SIZE", body);
    SizeRoute(s.props, req);
    r := SizeAnswered(cfg, now, es, req);
    NodesShown(cfg, s.props, Known(cfg, s), target);
    SizeHeard(s.props, body, target, Known(cfg, s));
  }

  lemma PropertyRoute(p: Props, req: Request)
    requires p.verified && (req.command == "TYPE" || req.command == "OPTS")
    ensures RouteOf(p, req) == Run(Property)
  {
    var a, b := "TYPE", "OPTS";
    assert Registered(a) == Some(Property) && a != "USER" && a != "PASS";
    assert Registered(b) == Some(Property) && b != "USER" && b != "PASS";
  }

  // folding to upper case, letter by letter
  lemma UpperIff(s: string, upper: string, lower: string)
    requires |upper| == |lower| && Upper(lower) == upper && Upper(upper) == upper
    requires forall i :: 0 <= i < |upper| ==> ToLower(upper[i]) == lower[i]
    ensures Upper(s) == upper <==> AnyCase(s, lower, upper)
  {
    if Upper(s) == upper {
      forall i | 0 <= i < |s| ensures s[i] == lower[i] || s[i] == upper[i] {
        assert Upper(s)[i] == ToUpper(s[i]) == upper[i];
      }
    }
    if AnyCase(s, lower, upper) {
      forall i | 0 <= i < |s| ensures Upper(s)[i] == upper[i] {
        assert Upper(lower)[i] == ToUpper(lower[i]) && Upper(upper)[i] == ToUpper(upper[i]);
      }
      assert Upper(s) == upper;
    }
  }

  /** The argument asks for one of these types. */
  predicate AsksAscii(body: string) { AnyCase(body, "a", "A") || AnyCase(body, "a n", "A N") }

  predicate AsksBinary(body: string) {
    AnyCase(body, "i", "I") || AnyCase(body, "l8", "L8") || AnyCase(body, "l 8", "L 8")
  }

  lemma AsciiIff(body: string)
    ensures AsksAscii(body) <==> Upper(body) == "A" || Upper(body) == "A N"
  {
    var a, an := "A", "A N";
    UpperIff(body, a, "a");
    UpperIff(body, an, "a n");
  }

  lemma BinaryIff(body: string)
    ensures AsksBinary(body) <==> Upper(body) == "I" || Upper(body) == "L8" || Upper(body) == "L 8"
  {
    var i, l, lb := "I", "L8", "L 8";
    UpperIff(body, i, "i");
    UpperIff(body, l, "l8");
    UpperIff(body, lb, "l 8");
  }

  lemma TypeHeard(p: Props, req: Request, told: Told)
    requires req.command == "TYPE" && p.transferType == told.transferType
    ensures var (q, r) := PropertyAnswer(p, req);
            && Hear(told, r) == told.(transferType := q.transferType)
            && (if AsksBinary(req.body) then r.code == 200 && q.transferType.Binary?
                else if AsksAscii(req.body) then r.code == 200 && q.transferType.Ascii?
                else r.code == 500 && q.transferType == p.transferType)
  {
    AsciiIff(req.body);
    BinaryIff(req.body);
    PropertyHeard(p, req, told);
  }

  lemma PropertyIs(cfg: Config, p: Props, req: Request)
    ensures Answer(cfg, p, Property, req) == PropertyAnswer(p, req)
  {
  }

  lemma PropertyAnswered(cfg: Config, now: int, es: seq<Event>, req: Request) returns (r: Reply)
    requires Given(cfg, now, es, req.command, req.body)
    requires RouteOf(Before(cfg, now, es).props, req) == Run(Property)
    ensures Answered(cfg, Before(cfg, now, es), After(cfg, now, es), r)
    ensures r == PropertyAnswer(Before(cfg, now, es).props, req).1
  {
    var p := Before(cfg, now, es).props;
    PropertyIs(cfg, p, req);
    r := Answer(cfg, p, Property, req).1;
    RunsAnswer(cfg, now, es, Property, req, r);
  }

  /** TYPE sets the type its argument asks for, in any case, and refuses other arguments. */
  lemma TypeSets(cfg: Config, now: int, es: seq<Event>, body: string) returns (r: Reply)
    requires Given(cfg, now, es, "TYPE", body)
    ensures var s, t := Before(cfg, now, es), After(cfg, now, es);
            var kept := Known(cfg, s).transferType;
            && Answered(cfg, s, t, r)
            && r.code == (if AsksBinary(body) || AsksAscii(body) then 200 else 500)
            && Known(cfg, t) == Known(cfg, s).(transferType :=
                 if AsksBinary(body) then Binary else if AsksAscii(body) then Ascii else kept)
  {
    GivenShows(cfg, now, es, "TYPE", body);
    var s, req := Before(cfg, now, es), Request("TYPE", body);
    PropertyRoute(s.props, req);
    r := PropertyAnswered(cfg, now, es, req);
    TypeHeard(s.props, req, Known(cfg, s));
  }

  lemma OptsHeard(p: Props, req: Request, told: Told)
    requires req.command == "OPTS" && p.transferType == told.transferType
    ensures var r := PropertyAnswer(p, req).1;
            && Hear(told, r) == told
            && r.code == if AnyCase(req.body, "utf8 on", "UTF8 ON") then 200 else 501
  {
    var on := "UTF8 ON";
    UpperIff(req.body, on, "utf8 on");
    PropertyHeard(p, req, told);
  }

  /** OPTS takes note of UTF8 ON, in any case, and of nothing else. */
  lemma OptsTells(cfg: Config, now: int, es: seq<Event>, body: string) returns (r: Reply)
    requires Given(cfg, now, es, "OPTS", body)
    ensures var s, t := Before(cfg, now, es), After(cfg, now, es);
            && Answered(cfg, s, t, r) && Known(cfg, t) == Known(cfg, s)
            && r.code == if AnyCase(body, "utf8 on", "UTF8 ON") then 200 else 501
  {
    GivenShows(cfg, now, es, "OPTS", body);
    var s, req := Before(cfg, now, es), Request("OPTS", body);
    PropertyRoute(s.props, req);
    r := PropertyAnswered(cfg, now, es, req);
    OptsHeard(s.props, req, Known(cfg, s));
  }

  ghost predicate Contains(s: string, part: string) { exists pre, post :: s == pre + part + post }

  lemma StatRoute(p: Props, req: Request)
    requires p.verified && req.command == "STAT"
    ensures RouteOf(p, req) == Run(Stat)
  {
    var a := "STAT";
    assert Registered(a) == Some(Stat) && a != "USER" && a != "PASS";
  }

  // three parts of a text, however it is put together
  lemma Middle(a: string, b: string, c: string, s: string)
    requires s == a + b + c
    ensures Contains(s, b)
  {
  }

  function StatHead(cfg: Config): string {
    ToString(STAT_OK) + "-FTP server status:\n" + "  Connected to " + cfg.address + "\n"
  }

  function StatTail(cfg: Config): string {
    "  Session timeout in seconds is " + PrintInt(cfg.maxIdleTimeout) + "\n"
    + "  Total client connected num is " + PrintInt(cfg.clientNum) + "\n"
    + ToString(STAT_OK) + " End of status\r\n"
  }

  function UserLine(user: string): string { "  Logged in as " + user + "\n" }

  function TypeLine(transferType: TransportType): string {
    "  TYPE: " + (if transferType.Ascii? then "ASCII" else "BINARY") + "\n"
  }

  lemma StatContains(cfg: Config, p: Props, r: Reply)
    requires r.text == StatHead(cfg) + UserLine(p.user) + TypeLine(p.transferType) + StatTail(cfg)
    ensures Contains(r.text, TypeLine(p.transferType)) && Contains(r.text, UserLine(p.user))
  {
    Pieces(StatHead(cfg), UserLine(p.user), TypeLine(p.transferType), StatTail(cfg), r.text);
  }

  lemma Pieces(a: string, b: string, c: string, d: string, s: string)
    requires s == a + b + c + d
    ensures Contains(s, b) && Contains(s, c)
  {
    Middle(a, b, c + d, s);
    Middle(a + b, c, d, s);
  }

  lemma StatParts(cfg: Config, p: Props)
    ensures StatReply(cfg, p).text == StatHead(cfg) + UserLine(p.user) + TypeLine(p.transferType) + StatTail(cfg)
  {
  }

  lemma StatAnswered(cfg: Config, now: int, es: seq<Event>, req: Request) returns (r: Reply)
    requires Given(cfg, now, es, req.command, req.body)
    requires RouteOf(Before(cfg, now, es).props, req) == Run(Stat)
    ensures Answered(cfg, Before(cfg, now, es), After(cfg, now, es), r)
    ensures r == StatReply(cfg, Before(cfg, now, es).props)
  {
    r := StatReply(cfg, Before(cfg, now, es).props);
    RunsAnswer(cfg, now, es, Stat, req, r);
  }

  /** STAT shows the type of the last reply to TYPE and the user of the login. */
  lemma StatTells(cfg: Config, now: int, es: seq<Event>, body: string) returns (r: Reply)
    requires Given(cfg, now, es, "STAT", body)
    ensures var s, t := Before(cfg, now, es), After(cfg, now, es);
            && Answered(cfg, s, t, r) && Known(cfg, t) == Known(cfg, s) && r.code == 211
            && Contains(r.text, TypeLine(Known(cfg, s).transferType)) && Contains(r.text, UserLine(s.props.user))
  {
    GivenShows(cfg, now, es, "STAT", body);
    var s, req := Before(cfg, now, es), Request("STAT", body);
    StatRoute(s.props, req);
    r := StatAnswered(cfg, now, es, req);
    StatParts(cfg, s.props);
    StatContains(cfg, s.props, r);
    Unheard(Known(cfg, s), r);
  }

  // ---------------------------------------------------------------- other commands

  lemma PlainRoute(p: Props, req: Request)
    requires p.verified
    ensures req.command == "NOOP" ==> RouteOf(p, req) == Run(Ack)
    ensures req.command == "SYST" ==> RouteOf(p, req) == Run(Syst)
    ensures req.command == "AUTH" ==> RouteOf(p, req) == Run(Auth)
    ensures req.command == "PASV" ==> RouteOf(p, req) == Run(PassiveMode)
  {
    var a, b, c, d := "NOOP", "SYST", "AUTH", "PASV";
    assert Registered(a) == Some(Ack) && a != "USER" && a != "PASS";
    assert Registered(b) == Some(Syst) && b != "USER" && b != "PASS";
    assert Registered(c) == Some(Auth) && c != "USER" && c != "PASS";
    assert Registered(d) == Some(PassiveMode) && d != "USER" && d != "PASS";
  }

  lemma PassiveIs(cfg: Config, p: Props, req: Request)
    ensures Answer(cfg, p, PassiveMode, req) == PassiveAnswer(cfg, p)
  {
  }

  lemma PassiveAnswered(cfg: Config, now: int, es: seq<Event>, req: Request) returns (r: Reply)
    requires Given(cfg, now, es, req.command, req.body)
    requires RouteOf(Before(cfg, now, es).props, req) == Run(PassiveMode)
    ensures Answered(cfg, Before(cfg, now, es), After(cfg, now, es), r)
    ensures (After(cfg, now, es).props, r) == PassiveAnswer(cfg, Before(cfg, now, es).props)
  {
    var p := Before(cfg, now, es).props;
    PassiveIs(cfg, p, req);
    r := Answer(cfg, p, PassiveMode, req).1;
    RunsAnswer(cfg, now, es, PassiveMode, req, r);
  }

  /** The client reads this endpoint from the reply. */
  predicate TellsEndpoint(r: Reply, address: string, port: Port) {
    && ParseReply(r.text).Some? && ParseReply(r.text).value.0 == 227
    && ParsePasv(ParseReply(r.text).value.1) == Some((address, port))
  }

  lemma PassiveHeard(cfg: Config, p: Props, quad: seq<string>)
    requires IsQuad(quad) && cfg.address == Join(quad, '.')
    ensures var (q, r) := PassiveAnswer(cfg, p);
            match q.acceptor
            case Listening(port) => r.code == 227 && TellsEndpoint(r, cfg.address, port)
            case _ => r.code == 550
  {
    if PassiveAnswer(cfg, p).0.acceptor.Listening? {
      PasvRoundTrip(quad, PassiveAnswer(cfg, p).0.acceptor.port);
    }
  }

  /** PASV answers 227 exactly if the session listens afterwards, and then the client reads from
      the reply the address and the port it listens on; otherwise it answers 550. */
  lemma PasvListens(cfg: Config, now: int, es: seq<Event>, body: string, quad: seq<string>) returns (r: Reply)
    requires Given(cfg, now, es, "PASV", body) && IsQuad(quad) && cfg.address == Join(quad, '.')
    ensures var s, t := Before(cfg, now, es), After(cfg, now, es);
            && Answered(cfg, s, t, r)
            && match t.props.acceptor
               case Listening(port) => r.code == 227 && TellsEndpoint(r, cfg.address, port)
               case _ => r.code == 550
  {
    GivenShows(cfg, now, es, "PASV", body);
    var s := Before(cfg, now, es);
    PlainRoute(s.props, Request("PASV", body));
    r := PassiveAnswered(cfg, now, es, Request("PASV", body));
    PassiveHeard(cfg, s.props, quad);
  }

  lemma PlainIs(cfg: Config, p: Props, kind: Kind, req: Request, told: Told)
    requires (kind.Ack? && req.command == "NOOP") || (kind.Syst? && req.command == "SYST")
             || (kind.Auth? && req.command == "AUTH")
    ensures var r := Answer(cfg, p, kind, req).1;
            r.code == (match kind case Ack => 200 case Syst => 215 case _ => 530) && Hear(told, r) == told
  {
    var noop, ascii, binary := "NOOP ok", "Switching to ASCII mode.", "Switching to Binary mode.";
    OkHeard(told, noop, ascii, binary);
  }

  /** NOOP, SYST and AUTH are answered with 200, 215 and 530, and change nothing that is told. */
  lemma PlainTells(cfg: Config, now: int, es: seq<Event>, command: string, body: string) returns (r: Reply)
    requires (command == "NOOP" || command == "SYST" || command == "AUTH") && Given(cfg, now, es, command, body)
    ensures var s, t := Before(cfg, now, es), After(cfg, now, es);
            && Answered(cfg, s, t, r) && Known(cfg, t) == Known(cfg, s)
            && r.code == if command == "NOOP" then 200 else if command == "SYST" then 215 else 530
  {
    GivenShows(cfg, now, es, command, body);
    var s, req := Before(cfg, now, es), Request(command, body);
    PlainRoute(s.props, req);
    var kind := if command == "NOOP" then Ack else if command == "SYST" then Syst else Auth;
    PlainIs(cfg, s.props, kind, req, Known(cfg, s));
    r := Answer(cfg, s.props, kind, req).1;
    RunsAnswer(cfg, now, es, kind, req, r);
  }

  /** The words that name an operation. */
  const WORDS := ["NOOP", "AUTH", "MKD", "XMKD", "RETR", "STOR", "STAT", "SYST", "PWD", "XPWD", "CWD", "XCWD",
                  "OPTS", "TYPE", "PASV", "LIST", "SIZE", "CDUP", "XCUP"]

  lemma WordIff(command: string)
    ensures Registered(command).Some? <==> command in WORDS
  {
    assert WORDS[0] == "NOOP" && WORDS[1] == "AUTH" && WORDS[2] == "MKD" && WORDS[3] == "XMKD" && WORDS[4] == "RETR";
    assert WORDS[5] == "STOR" && WORDS[6] == "STAT" && WORDS[7] == "SYST" && WORDS[8] == "PWD" && WORDS[9] == "XPWD";
    assert WORDS[10] == "CWD" && WORDS[11] == "XCWD" && WORDS[12] == "OPTS" && WORDS[13] == "TYPE";
    assert WORDS[14] == "PASV" && WORDS[15] == "LIST" && WORDS[16] == "SIZE" && WORDS[17] == "CDUP";
    assert WORDS[18] == "XCUP";
  }

  lemma NoSecondLogin()
    ensures Registered("USER").None? && Registered("PASS").None? && "USER" != "PASS"
  {
  }

  /** Once logged in, USER is answered with 530, PASS with 230 and a word that names no operation
      with 500; nothing that is told changes. */
  lemma RejectTells(cfg: Config, now: int, es: seq<Event>, command: string, body: string) returns (r: Reply)
    requires Given(cfg, now, es, command, body) && command !in WORDS
    ensures var s, t := Before(cfg, now, es), After(cfg, now, es);
            && Answered(cfg, s, t, r) && Known(cfg, t) == Known(cfg, s)
            && r.code == if command == "USER" then 530 else if command == "PASS" then 230 else 500
  {
    GivenShows(cfg, now, es, command, body);
    var s, req := Before(cfg, now, es), Request(command, body);
    WordIff(command);
    NoSecondLogin();
    r := RouteOf(s.props, req).reply;
    RejectLogged(cfg, s, req, r);
    ReachSnoc(cfg, now, es, Line);
    RepliesTellState(cfg, now, es + [Line]);
    ToldSnoc(cfg, s.hist.logged, Message(r, NoToken));
  }

  lemma RejectLogged(cfg: Config, s: State, req: Request, r: Reply)
    requires s.ctl.reading && LineEnd(s.ctl.buf) > 0 && ParseLine(FirstLine(s)) == Some(req)
    requires Registered(req.command).None? && RouteOf(s.props, req) == Reject(r)
    ensures Enabled(cfg, s, Line) && OnLine(cfg, s).hist.logged == s.hist.logged + [Message(r, NoToken)]
  {
    assert !Throws(cfg, s.props, req);
    LineEffect(cfg, s);
  }

  // ---------------------------------------------------------------- before the login

  /** Before the login USER is answered with 331, and PASS with 230 if the last USER had a name
      and otherwise with 503; every other command with 530. */
  lemma LoginAnswers(cfg: Config, now: int, es: seq<Event>, req: Request) returns (r: Reply)
    requires var s := Before(cfg, now, es);
             && OwnTokens(es) && s.ctl.reading && LineEnd(s.ctl.buf) > 0 && !Known(cfg, s).loggedOn
             && ParseLine(FirstLine(s)) == Some(req)
    ensures var s, t := Before(cfg, now, es), After(cfg, now, es);
            && Answered(cfg, s, t, r)
            && r.code == (if req.command == "USER" then 331
                          else if req.command != "PASS" then 530
                          else if LastUser(Lines(s.hist.consumed)) != "" then 230 else 503)
  {
    RepliesTellState(cfg, now, es);
    LoginThroughout(cfg, now, es);
    var s := Before(cfg, now, es);
    r := AuthAnswer(cfg, s.props, req).1;
    AuthRuns(cfg, now, es, req, r);
  }

  lemma AuthRuns(cfg: Config, now: int, es: seq<Event>, req: Request, r: Reply)
    requires var s := Before(cfg, now, es);
             && OwnTokens(es) && s.ctl.reading && LineEnd(s.ctl.buf) > 0 && !s.props.verified
             && ParseLine(FirstLine(s)) == Some(req) && r == AuthAnswer(cfg, s.props, req).1
    ensures Answered(cfg, Before(cfg, now, es), After(cfg, now, es), r)
  {
    var s := Before(cfg, now, es);
    AuthEnabled(cfg, s, req);
    LineTaken(cfg, s);
    AuthLogged(cfg, s, req, r);
    ReachSnoc(cfg, now, es, Line);
    RepliesTellState(cfg, now, es + [Line]);
    ToldSnoc(cfg, s.hist.logged, Message(r, NoToken));
  }

  lemma AuthEnabled(cfg: Config, s: State, req: Request)
    requires s.ctl.reading && LineEnd(s.ctl.buf) > 0 && !s.props.verified && ParseLine(FirstLine(s)) == Some(req)
    ensures Enabled(cfg, s, Line)
  {
    assert !Throws(cfg, s.props, req);
  }

  lemma LineTaken(cfg: Config, s: State)
    requires Enabled(cfg, s, Line)
    ensures Step(cfg, s, Line) == OnLine(cfg, s)
  {
  }

  lemma AuthLogged(cfg: Config, s: State, req: Request, r: Reply)
    requires !s.props.verified && ParseLine(FirstLine(s)) == Some(req) && r == AuthAnswer(cfg, s.props, req).1
    ensures OnLine(cfg, s).hist.logged == s.hist.logged + [Message(r, NoToken)]
  {
    LineEffect(cfg, s);
    assert RouteOf(s.props, req) == Run(Auth);
  }

  // ---------------------------------------------------------------- transfers

  lemma TransferRoute(p: Props, req: Request)
    requires p.verified
    ensures req.command == "RETR" ==> RouteOf(p, req) == Run(Send)
    ensures req.command == "STOR" ==> RouteOf(p, req) == Run(Recv)
    ensures req.command == "LIST" ==> RouteOf(p, req) == Run(List)
  {
    var a, b, c := "RETR", "STOR", "LIST";
    assert Registered(a) == Some(Send) && a != "USER" && a != "PASS";
    assert Registered(b) == Some(Recv) && b != "USER" && b != "PASS";
    assert Registered(c) == Some(List) && c != "USER" && c != "PASS";
  }

  /** The command is refused with this code: nothing is opened, and no handler waits for it. */
  ghost predicate Refuses(cfg: Config, s: State, t: State, code: nat) {
    && (exists r: Reply :: r.code == code && t.hist.logged == s.hist.logged + [Message(r, NoToken)])
    && t.sends == s.sends && t.recvs == s.recvs && t.heap.conts == s.heap.conts
    && t.props == s.props
  }

  /** The file is open: a new operation of this kind waits for a connection, or is answered with
      a 503 if there is no acceptor. */
  ghost predicate Opens(cfg: Config, s: State, t: State, kind: Kind) {
    var op := s.heap.next;
    && t.props == s.props
    && if s.props.acceptor.Closed? then
         && (exists r: Reply :: r.code == 503 && t.hist.logged == s.hist.logged + [Message(r, NoToken)])
         && t.heap.conts == s.heap.conts
       else
         && op in t.heap.ops && t.heap.ops[op] == kind && t.hist.logged == s.hist.logged
         && t.heap.conts == s.heap.conts + [Accept(op, s.props.acceptor.Listening?)]
  }

  lemma RunsTransfer(cfg: Config, now: int, es: seq<Event>, kind: Kind, req: Request, got: Opened)
    requires Given(cfg, now, es, req.command, req.body) && RouteOf(Before(cfg, now, es).props, req) == Run(kind)
    requires IsTransfer(kind) && Bears(cfg, Before(cfg, now, es).props, kind, req.body)
    requires got == OpenTransfer(cfg, Before(cfg, now, es).props, kind, req.body)
    ensures var s, t := Before(cfg, now, es), After(cfg, now, es);
            && (got.Refused? ==> Refuses(cfg, s, t, got.reply.code))
            && (got.Ready? ==> Opens(cfg, s, t, kind) && FilesOpened(s, t, kind, got, s.heap.next))
  {
    LineRuns(cfg, now, es, kind, req);
    var s, t := Before(cfg, now, es), After(cfg, now, es);
    LineEffect(cfg, s);
    TransferSeen(cfg, s, t, kind, req, got);
  }

  lemma TransferSeen(cfg: Config, s: State, t: State, kind: Kind, req: Request, got: Opened)
    requires TransferOutcome(AtLine(s), t, kind, req, got)
    ensures got.Refused? ==> Refuses(cfg, s, t, got.reply.code)
    ensures got.Ready? ==> Opens(cfg, s, t, kind) && FilesOpened(s, t, kind, got, s.heap.next)
  {
    var r := if got.Ready? then Code(INVALID_SEQ) else got.reply;
    assert AtLine(s).hist.logged == s.hist.logged;
    if got.Refused? || s.props.acceptor.Closed? {
      assert t.hist.logged == s.hist.logged + [Message(r, NoToken)];
    }
  }

  lemma RetrOpening(cfg: Config, p: Props, told: Told, body: string, target: string)
    requires Shows(cfg, p, told) && Paths.Resolves(told.path, body, target)
    ensures var got, node := OpenTransfer(cfg, p, Send, body), NodeAt(cfg, told, target);
            && (KindThrows(cfg, p, Send, body) <==> body != "" && node.Some? && node.value.Dir?)
            && (if body != "" && node.Some? && node.value.File? && node.value.accessible
                then got == Ready(node.value.content) else got.Refused? && got.reply.code == 550)
  {
    TargetIff(p, body, target);
    NodesShown(cfg, p, told, target);
  }

  lemma RetrCrashes(cfg: Config, s: State, req: Request)
    requires s.ctl.reading && LineEnd(s.ctl.buf) > 0 && ParseLine(FirstLine(s)) == Some(req)
    requires s.props.verified && RouteOf(s.props, req) == Run(Send) && KindThrows(cfg, s.props, Send, req.body)
    ensures Offered(s, Line) && Crashes(cfg, s, Line)
  {
  }

  /** RETR opens the file that its argument stands for, to send its content; the library throws
      at a directory, and everything else is refused with a 550. */
  lemma RetrOpens(cfg: Config, now: int, es: seq<Event>, body: string, target: string)
    requires Given(cfg, now, es, "RETR", body)
    requires Paths.Resolves(Known(cfg, Before(cfg, now, es)).path, body, target)
    ensures var s, t := Before(cfg, now, es), After(cfg, now, es);
            var node, op := NodeAt(cfg, Known(cfg, s), target), s.heap.next;
            if body != "" && node.Some? && node.value.Dir? then Offered(s, Line) && Crashes(cfg, s, Line)
            else if body != "" && node.Some? && node.value.accessible then
              Opens(cfg, s, t, Send) && op in t.sends && t.sends[op].file == node.value.content
              && t.sends[op].offset == 0
            else Refuses(cfg, s, t, 550)
  {
    GivenShows(cfg, now, es, "RETR", body);
    var s, req := Before(cfg, now, es), Request("RETR", body);
    TransferRoute(s.props, req);
    RetrOpening(cfg, s.props, Known(cfg, s), body, target);
    if KindThrows(cfg, s.props, Send, body) {
      RetrCrashes(cfg, s, req);
    } else {
      RunsTransfer(cfg, now, es, Send, req, OpenTransfer(cfg, s.props, Send, body));
    }
  }

  /** Where a STOR may write: nothing is overwritten for an anonymous user. */
  predicate MayWrite(cfg: Config, anonymous: bool, node: Option<Node>, body: string, target: string) {
    && body != ""
    && if node.Some? then !anonymous && node.value.File? && node.value.accessible else target in cfg.creatable
  }

  lemma StorOpening(cfg: Config, p: Props, told: Told, body: string, target: string)
    requires Shows(cfg, p, told) && Paths.Resolves(told.path, body, target)
    ensures var got, node := OpenTransfer(cfg, p, Recv, body), NodeAt(cfg, told, target);
            if MayWrite(cfg, p.isAnonymous, node, body, target) then got.Ready?
            else got.Refused? && got.reply.code == 553
  {
    TargetIff(p, body, target);
    NodesShown(cfg, p, told, target);
  }

  /** STOR opens what it may write, to receive from the start, and refuses everything else with a 553. */
  lemma StorOpens(cfg: Config, now: int, es: seq<Event>, body: string, target: string)
    requires Given(cfg, now, es, "STOR", body)
    requires Paths.Resolves(Known(cfg, Before(cfg, now, es)).path, body, target)
    ensures var s, t := Before(cfg, now, es), After(cfg, now, es);
            var op := s.heap.next;
            if MayWrite(cfg, s.props.isAnonymous, NodeAt(cfg, Known(cfg, s), target), body, target) then
              Opens(cfg, s, t, Recv) && op in t.recvs && t.recvs[op].file == "" && t.recvs[op].incoming == ""
            else Refuses(cfg, s, t, 553)
  {
    GivenShows(cfg, now, es, "STOR", body);
    var s, req := Before(cfg, now, es), Request("STOR", body);
    TransferRoute(s.props, req);
    StorOpening(cfg, s.props, Known(cfg, s), body, target);
    RunsTransfer(cfg, now, es, Recv, req, OpenTransfer(cfg, s.props, Recv, body));
  }

  /** LIST always gets as far as waiting for its connection. */
  lemma ListOpens(cfg: Config, now: int, es: seq<Event>, body: string)
    requires Given(cfg, now, es, "LIST", body)
    ensures Opens(cfg, Before(cfg, now, es), After(cfg, now, es), List)
  {
    GivenShows(cfg, now, es, "LIST", body);
    var s, req := Before(cfg, now, es), Request("LIST", body);
    TransferRoute(s.props, req);
    RunsTransfer(cfg, now, es, List, req, OpenTransfer(cfg, s.props, List, body));
  }

  lemma OneFirstLogin(lines: seq<string>, i: int, j: int)
    requires FirstLogin(lines, i) && FirstLogin(lines, j)
    ensures i == j
  {
  }

  /** An anonymous session never opens an existing file for writing: if the first PASS that logged
      in followed a USER with the name "anonymous" in any case, a STOR onto anything that is
      there is refused. */
  lemma AnonymousSparesFiles(cfg: Config, now: int, es: seq<Event>, body: string, target: string, j: int)
    requires Given(cfg, now, es, "STOR", body) && cfg.anonymousEnable
    requires var s := Before(cfg, now, es);
             var lines := Lines(s.hist.consumed);
             && FirstLogin(lines, j) && IsAnonymousName(LastUser(lines[..j]))
             && Paths.Resolves(Known(cfg, s).path, body, target) && NodeAt(cfg, Known(cfg, s), target).Some?
    ensures Refuses(cfg, Before(cfg, now, es), After(cfg, now, es), 553)
  {
    GivenShows(cfg, now, es, "STOR", body);
    LoginIsFinal(cfg, now, es, []);
    var s := Before(cfg, now, es);
    IsAnonymous(Lines(s.hist.consumed), s.props, j);
    StorOpens(cfg, now, es, body, target);
  }

  lemma IsAnonymous(lines: seq<string>, p: Props, j: int)
    requires p.verified && LoginTold(lines, p) && FirstLogin(lines, j) && IsAnonymousName(LastUser(lines[..j]))
    ensures IsAnonymousName(p.user)
  {
    var i :| FirstLogin(lines, i) && p.user == LastUser(lines[..i]);
    OneFirstLogin(lines, i, j);
  }
}
