/** The requests of the benchmark client, and what the server makes of them. */
module Script {
  import opened Text
  import opened Requests
  import opened Replies
  import opened Commands
  import opened Sequential
  import Paths

  // async_session: the requests in the order they are sent
  function Asked(file: string): seq<Request> {
    [Request("user", "anonymous"), Request("pass", ""), Request("size", file), Request("pasv", ""),
     Request("retr", file)]
  }

  function Prints(file: string): seq<string> {
    var rs := Asked(file);
    [Print(rs[0]), Print(rs[1]), Print(rs[2]), Print(rs[3]), Print(rs[4])]
  }

  // ---------------------------------------------------------------- how the server reads them

  lemma Words()
    ensures Upper("user") == "USER" && Upper("pass") == "PASS" && Upper("size") == "SIZE"
    ensures Upper("pasv") == "PASV" && Upper("retr") == "RETR"
  {
  }

  lemma PlainBody(body: string)
    requires NoSpace(body)
    ensures Normal(body) == body
  {
    if body == "" {
      assert SkipSpace(body) == "";
    } else {
      var none := body[..0];
      TokensThen(body, none);
      assert body + none == body;
      assert Tokens(none) == [];
    }
  }

  lemma PrintedRequest(req: Request, command: string, body: string)
    requires req.command != "" && NoSpace(req.command) && Upper(req.command) == command
    requires NoBreak(req.body) && Normal(req.body) == body
    ensures OneLine(Print(req))
    ensures ParseLine(Print(req)) == Some(Request(command, body))
  {
    PrintIsOneLine(req);
    RequestRoundTrip(req);
  }

  lemma PlainBreaks(body: string)
    requires NoSpace(body)
    ensures NoBreak(body)
  {
    forall i ensures !CrlfAt(body, i) {
      assert 0 <= i < |body| ==> body[i] in body;
    }
  }

  lemma PrintedPlain(req: Request, command: string)
    requires req.command != "" && NoSpace(req.command) && Upper(req.command) == command && NoSpace(req.body)
    ensures OneLine(Print(req))
    ensures ParseLine(Print(req)) == Some(Request(command, req.body))
  {
    PlainBody(req.body);
    PlainBreaks(req.body);
    PrintedRequest(req, command, req.body);
  }

  /** What the server reads in the k-th line of the client. */
  function CommandSeen(k: nat): string {
    if k == 0 then "USER" else if k == 1 then "PASS" else if k == 2 then "SIZE" else if k == 3 then "PASV" else "RETR"
  }

  function BodySeen(file: string, k: nat): string {
    if k == 0 then "anonymous" else if k == 1 || k == 3 then "" else Normal(file)
  }

  predicate Seen(req: Request, file: string, k: nat) {
    req.command == CommandSeen(k) && req.body == BodySeen(file, k)
  }

  lemma CommandsPlain(file: string, k: nat)
    requires k < 5
    ensures var req := Asked(file)[k];
            req.command != "" && NoSpace(req.command) && Upper(req.command) == CommandSeen(k)
  {
    Words();
  }

  lemma PrintedLines(file: string, k: nat)
    requires NoBreak(file) && k < 5
    ensures OneLine(Prints(file)[k])
    ensures ParseLine(Prints(file)[k]).Some? && Seen(ParseLine(Prints(file)[k]).value, file, k)
  {
    var req := Asked(file)[k];
    CommandsPlain(file, k);
    if k == 2 || k == 4 {
      PrintedRequest(req, CommandSeen(k), Normal(file));
    } else {
      assert req.body == BodySeen(file, k) && NoSpace(req.body);
      PrintedPlain(req, CommandSeen(k));
    }
  }

  // ---------------------------------------------------------------- the server after each of the first four

  function AfterUser(cfg: Config): Props { Fresh(cfg).(user := "anonymous") }

  function AfterPass(cfg: Config): Props {
    AfterUser(cfg).(verified := true, isAnonymous := cfg.anonymousEnable && Lower("anonymous") == "anonymous")
  }

  lemma Registrations()
    ensures Registered("SIZE") == Some(Size) && Registered("PASV") == Some(PassiveMode)
    ensures Registered("RETR") == Some(Send)
    ensures "SIZE" != "USER" && "SIZE" != "PASS" && "PASV" != "USER" && "PASV" != "PASS"
    ensures "RETR" != "USER" && "RETR" != "PASS"
  {
  }

  function KindOf(k: nat): Kind {
    if k < 2 then Auth else if k == 2 then Size else if k == 3 then PassiveMode else Send
  }

  lemma RouteSeen(p: Props, req: Request, file: string, k: nat)
    requires k < 5 && p.verified == (k >= 2) && Seen(req, file, k)
    ensures RouteOf(p, req) == Run(KindOf(k))
  {
    Registrations();
  }

  function After(cfg: Config, file: string, k: nat): Props
    requires k <= 4
  {
    if k == 0 then Fresh(cfg)
    else if k == 1 then AfterUser(cfg)
    else if k < 4 then AfterPass(cfg)
    else PassiveAnswer(cfg, AfterPass(cfg)).0
  }

  function FirstReplies(cfg: Config, file: string): seq<Reply> {
    [Code(PASSWORD_REQUIRED), Code(LOGGED_ON), SizeReply(AfterPass(cfg), Normal(file)),
     PassiveAnswer(cfg, AfterPass(cfg)).1]
  }

  lemma AnswersSeen(cfg: Config, req: Request, file: string, k: nat)
    requires k < 4 && Seen(req, file, k)
    ensures Answer(cfg, After(cfg, file, k), KindOf(k), req) == (After(cfg, file, k + 1), FirstReplies(cfg, file)[k])
  {
  }

  lemma ServeOne(cfg: Config, file: string, k: nat)
    requires NoBreak(file) && k < 4
    ensures Serve(cfg, After(cfg, file, k), Prints(file)[k]) == (After(cfg, file, k + 1), [FirstReplies(cfg, file)[k]])
  {
    PrintedLines(file, k);
    var req := ParseLine(Prints(file)[k]).value;
    RouteSeen(After(cfg, file, k), req, file, k);
    AnswersSeen(cfg, req, file, k);
    ServeBy(cfg, After(cfg, file, k), Prints(file)[k], req, KindOf(k));
  }

  lemma ServeBy(cfg: Config, p: Props, line: string, req: Request, kind: Kind)
    requires ParseLine(line) == Some(req) && RouteOf(p, req) == Run(kind) && !IsTransfer(kind)
    ensures Serve(cfg, p, line) == (Answer(cfg, p, kind, req).0, [Answer(cfg, p, kind, req).1])
  {
  }

  lemma TakeOne<T>(s: seq<T>, k: nat)
    requires 0 < k <= |s|
    ensures s[..k] == s[..k - 1] + [s[k - 1]]
  {
  }

  /** The reference server after the first k lines of the client. */
  lemma {:induction false} ServesScript(cfg: Config, file: string, k: nat)
    requires NoBreak(file) && k <= 4
    ensures ServeAll(cfg, Prints(file)[..k]) == (After(cfg, file, k), FirstReplies(cfg, file)[..k])
  {
    if k > 0 {
      ServesScript(cfg, file, k - 1);
      TakeOne(Prints(file), k);
      TakeOne(FirstReplies(cfg, file), k);
      ServeAllSnoc(cfg, Prints(file)[..k - 1], Prints(file)[k - 1]);
      ServeOne(cfg, file, k - 1);
    }
  }

  /** The file the server sends, if it sends one. */
  function Target(cfg: Config, file: string): string { TargetPath(Fresh(cfg), Normal(file)) }

  predicate Exists(cfg: Config, file: string) {
    Target(cfg, file) in cfg.files && cfg.files[Target(cfg, file)].File?
  }

  function Content(cfg: Config, file: string): string
    requires Exists(cfg, file)
  {
    cfg.files[Target(cfg, file)].content
  }

  /** What the client's name stands for in the home directory is a file with this content. */
  ghost predicate Stands(cfg: Config, file: string, content: string) {
    exists target :: Paths.Resolves(cfg.home, Normal(file), target) && target in cfg.files
                     && cfg.files[target].File? && cfg.files[target].content == content
  }

  lemma StandsIff(cfg: Config, file: string, content: string)
    ensures Stands(cfg, file, content) <==> Exists(cfg, file) && Content(cfg, file) == content
  {
    TargetIff(Fresh(cfg), Normal(file), Target(cfg, file));
    if Stands(cfg, file, content) {
      var target :| Paths.Resolves(cfg.home, Normal(file), target) && target in cfg.files
                    && cfg.files[target].File? && cfg.files[target].content == content;
      TargetIff(Fresh(cfg), Normal(file), target);
    }
  }

  /** The RETR will find the file and be able to open it. */
  predicate Opens(cfg: Config, file: string) {
    OpenTransfer(cfg, Fresh(cfg), Send, Normal(file)).Ready?
  }

  lemma OpensTarget(cfg: Config, file: string)
    ensures var got := OpenTransfer(cfg, After(cfg, file, 4), Send, Normal(file));
            && (got.Ready? <==> Opens(cfg, file))
            && (got.Ready? ==> Exists(cfg, file) && got.content == Content(cfg, file))
  {
    AfterFour(cfg, file);
  }

  lemma AfterFour(cfg: Config, file: string)
    ensures After(cfg, file, 4).currentPath == cfg.home && After(cfg, file, 4).files == cfg.files
  {
  }

  // ---------------------------------------------------------------- replies the client can read

  /** A reply line as the printers make it: its code, a text without line breaks, CRLF. */
  ghost predicate Printed(r: Reply) {
    r.code < INT_BOUND && exists info :: NoBreak(info) && r == CodeInfo(r.code, info)
  }

  lemma NoBreakText(s: string)
    requires '\r' !in s
    ensures NoBreak(s)
  {
    forall i ensures !CrlfAt(s, i) {
      assert 0 <= i < |s| ==> s[i] in s;
    }
  }

  lemma CodeInfoPrinted(code: nat, info: string)
    requires code < INT_BOUND && '\r' !in info
    ensures Printed(CodeInfo(code, info))
  {
    NoBreakText(info);
  }

  lemma DefaultsPlain(code: nat)
    requires code in {DATA_CONN, TRANSFER_COMPLETE, LOGGED_ON, PASSWORD_REQUIRED, INVALID_SEQ}
    ensures Default(code).Some? && '\r' !in Default(code).value
  {
    if code == DATA_CONN {
      assert '\r' !in "Data connection accepted; transfer starting.";
    } else if code == TRANSFER_COMPLETE {
      assert '\r' !in "Transfer complete.";
    } else if code == LOGGED_ON {
      assert '\r' !in "Logged on.";
    } else if code == PASSWORD_REQUIRED {
      assert '\r' !in "Password required.";
    } else {
      assert '\r' !in "Invalid sequence of commands.";
    }
  }

  lemma CodePrinted(code: nat)
    requires code in {DATA_CONN, TRANSFER_COMPLETE, LOGGED_ON, PASSWORD_REQUIRED, INVALID_SEQ}
    ensures Printed(Code(code))
  {
    DefaultsPlain(code);
    CodeInfoPrinted(code, Default(code).value);
  }

  lemma PrintedLine(r: Reply)
    requires Printed(r)
    ensures OneLine(r.text)
    ensures exists msg :: ParseReply(r.text) == Some((r.code, msg))
  {
    var info :| NoBreak(info) && r == CodeInfo(r.code, info);
    ReplyRoundTrip(r.code, info);
    var c := ToString(r.code) + " ";
    forall i ensures !CrlfAt(c + info, i) {
      assert i >= |c| && CrlfAt(c + info, i) ==> CrlfAt(info, i - |c|);
      assert forall j :: 0 <= j < |ToString(r.code)| ==>
               c[j] == ToString(r.code)[j] && ToString(r.code)[j] in ToString(r.code);
    }
    OneLineOf(c + info);
    assert r.text == c + info + CRLF;
  }

  lemma PasvPrinted(address: string, port: Port)
    requires '\r' !in address
    ensures Printed(Pasv(address, port))
  {
    var ip := Replace(address, '.', ',');
    assert forall i :: 0 <= i < |address| ==> address[i] in address;
    CodeInfoPrinted(PASV_OK, PasvInfo(address, port));
  }

  lemma SizePrinted(p: Props, body: string)
    ensures Printed(SizeReply(p, body))
  {
    var target := TargetPath(p, body);
    CodeInfoPrinted(NOPERM_FILEFATAL, "Could not get file size.");
    if target in p.files && p.files[target].File? {
      CodeInfoPrinted(SIZE_OK, ToString(|p.files[target].content|));
    }
  }

  lemma PassivePrinted(cfg: Config, p: Props)
    requires '\r' !in cfg.address
    ensures Printed(PassiveAnswer(cfg, p).1)
  {
    CodeInfoPrinted(NOPERM_FILEFATAL, "Permission denied.");
    if p.pasv != [] && p.pasv[0].Bound? {
      PasvPrinted(cfg.address, p.pasv[0].port);
    }
  }

  lemma FirstRepliesPrinted(cfg: Config, file: string)
    requires '\r' !in cfg.address
    ensures forall r :: r in FirstReplies(cfg, file) ==> Printed(r)
  {
    CodePrinted(PASSWORD_REQUIRED);
    CodePrinted(LOGGED_ON);
    SizePrinted(AfterPass(cfg), Normal(file));
    PassivePrinted(cfg, AfterPass(cfg));
  }
}
