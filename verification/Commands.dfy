/** What each command does to the session's properties, and its reply. */
module Commands {
  import opened Text
  import opened Requests
  import opened Replies
  import Paths

  // ---------------------------------------------------------------- the outside world

  /** Looking a path up yields a file, or a directory with its canonical name. */
  datatype Node = File(content: string, accessible: bool) | Dir(canonical: string)

  /** What the operating system does with the listening socket of one PASV command. */
  datatype PasvOutcome = OpenFailed | BindFailed | Bound(port: Port)

  datatype Config = Config(
    banner: string,
    maxIdleTimeout: int,
    anonymousEnable: bool,
    writeEnable: bool,
    downloadLimit: nat,
    address: string,
    clientNum: int,
    home: string,
    files: map<string, Node>,
    creatable: set<string>,
    pasv: seq<PasvOutcome>)

  // ---------------------------------------------------------------- session properties

  datatype TransportType = Ascii | Binary

  datatype Acceptor = Closed | Unbound | Listening(port: Port)

  /** The fields of SessionContext the commands work on. `pasv` holds the outcomes still to come. */
  datatype Props = Props(
    user: string,
    password: string,
    verified: bool,
    isAnonymous: bool,
    transferType: TransportType,
    currentPath: string,
    files: map<string, Node>,
    acceptor: Acceptor,
    pasv: seq<PasvOutcome>)

  // the constructor of SessionContext
  function Fresh(cfg: Config): Props {
    Props("", "", false, false, Binary, cfg.home, cfg.files, Closed, cfg.pasv)
  }

  // SessionContext::get_target_path
  function TargetPath(p: Props, path: string): string {
    if path != "" && path[0] == '/' then path
    else if p.currentPath == "" || p.currentPath[|p.currentPath| - 1] == '/' then p.currentPath + path
    else p.currentPath + "/" + path
  }

  /** The target is what the path stands for in the current directory, and nothing else is. */
  lemma TargetIff(p: Props, path: string, target: string)
    ensures Paths.Resolves(p.currentPath, path, target) <==> target == TargetPath(p, path)
  {
    var dir, found := p.currentPath, TargetPath(p, path);
    if !Paths.IsAbsolute(path) {
      if Paths.Open(dir) {
        Paths.NamesOpened(dir, path);
      } else {
        assert found == dir + ['/'] + path;
        Paths.NamesJoined(dir, path, found);
      }
    }
    if Paths.Resolves(dir, path, target) {
      Paths.ResolvesOnce(dir, path, target, found);
    }
  }

  // ---------------------------------------------------------------- registry

  datatype Kind = Ack | Auth | CreateDir | Send | Recv | Stat | Syst | PrintWorkingDir | ChangeWorkingDir
                | Property | PassiveMode | List | Size | CdToParent

  // regist_all_operation
  function Registered(command: string): Option<Kind> {
    if command == "NOOP" then Some(Ack)
    else if command == "AUTH" then Some(Auth)
    else if command == "MKD" || command == "XMKD" then Some(CreateDir)
    else if command == "RETR" then Some(Send)
    else if command == "STOR" then Some(Recv)
    else if command == "STAT" then Some(Stat)
    else if command == "SYST" then Some(Syst)
    else if command == "PWD" || command == "XPWD" then Some(PrintWorkingDir)
    else if command == "CWD" || command == "XCWD" then Some(ChangeWorkingDir)
    else if command == "OPTS" || command == "TYPE" then Some(Property)
    else if command == "PASV" then Some(PassiveMode)
    else if command == "LIST" then Some(List)
    else if command == "SIZE" then Some(Size)
    else if command == "CDUP" || command == "XCUP" then Some(CdToParent)
    else None
  }

  predicate IsTransfer(kind: Kind) { kind.Send? || kind.Recv? || kind.List? }

  // ---------------------------------------------------------------- operations that answer at once

  // AuthOp::validate and AuthOp::do_operation
  function AuthAnswer(cfg: Config, p: Props, req: Request): (Props, Reply) {
    if req.command == "USER" then
      (p.(user := req.body), Code(PASSWORD_REQUIRED))
    else if req.command == "PASS" then
      if p.user == "" then
        (p.(password := ""), CodeInfo(INVALID_SEQ, "Login with USER first."))
      else
        (p.(password := req.body, verified := true,
            isAnonymous := cfg.anonymousEnable && Lower(p.user) == "anonymous"),
         Code(LOGGED_ON))
    else
      (p, CodeInfo(NOT_ALLOWED, "Please login with USER and PASS."))
  }

  // PropertyOp::do_operation
  function PropertyAnswer(p: Props, req: Request): (Props, Reply) {
    var body := Upper(req.body);
    if req.command == "TYPE" then
      if body == "I" || body == "L8" || body == "L 8" then
        (p.(transferType := Binary), CodeInfo(OK, "Switching to Binary mode."))
      else if body == "A" || body == "A N" then
        (p.(transferType := Ascii), CodeInfo(OK, "Switching to ASCII mode."))
      else
        (p, CodeInfo(SYNTAX_ERROR, "Unrecognised TYPE command."))
    else if body == "UTF8 ON" then
      (p, CodeInfo(OK, "Always in UTF8 mode."))
    else
      (p, CodeInfo(BAD_OPTS, "Option not understood."))
  }

  // PassiveModeOp::do_operation; an acceptor that is open is closed first
  function PassiveAnswer(cfg: Config, p: Props): (Props, Reply) {
    var outcome := if p.pasv == [] then OpenFailed else p.pasv[0];
    var q := p.(pasv := if p.pasv == [] then [] else p.pasv[1..]);
    match outcome
    case OpenFailed => (q.(acceptor := Closed), CodeInfo(NOPERM_FILEFATAL, "Permission denied."))
    case BindFailed => (q.(acceptor := Unbound), CodeInfo(NOPERM_FILEFATAL, "Permission denied."))
    case Bound(port) => (q.(acceptor := Listening(port)), Pasv(cfg.address, port))
  }

  function ChangeDir(p: Props, target: string): (Props, Reply) {
    if target in p.files && p.files[target].Dir? then
      var canonical := p.files[target].canonical;
      (p.(currentPath := canonical), Cwd(Some(canonical)))
    else (p, Cwd(None))
  }

  // CreateDirOp::do_operation, as far as create_directory does not throw
  function CreateDirAnswer(cfg: Config, p: Props, body: string): (Props, Reply) {
    if !cfg.writeEnable then (p, CodeInfo(NOPERM_FILEFATAL, "Permission denied."))
    else if body == "" || TargetPath(p, body) in p.files then
      (p, CodeInfo(NOPERM_FILEFATAL, "Create directory operation failed."))
    else
      var target := TargetPath(p, body);
      (p.(files := p.files[target := Dir(target)]), CodeInfo(PWD_OR_MKDIR_OK, "\"" + target + "\" created."))
  }

  // SizeOp::do_operation
  function SizeReply(p: Props, body: string): Reply {
    var target := TargetPath(p, body);
    if target !in p.files || !p.files[target].File? then CodeInfo(NOPERM_FILEFATAL, "Could not get file size.")
    else CodeInfo(SIZE_OK, ToString(|p.files[target].content|))
  }

  function PrintInt(n: int): string { if n < 0 then "-" + ToString(-n) else ToString(n) }

  // StatOp::do_operation
  function StatReply(cfg: Config, p: Props): Reply {
    Reply(STAT_OK,
          (ToString(STAT_OK) + "-FTP server status:\n" + "  Connected to " + cfg.address + "\n")
          + ("  Logged in as " + p.user + "\n")
          + ("  TYPE: " + (if p.transferType.Ascii? then "ASCII" else "BINARY") + "\n")
          + ("  Session timeout in seconds is " + PrintInt(cfg.maxIdleTimeout) + "\n"
             + "  Total client connected num is " + PrintInt(cfg.clientNum) + "\n"
             + ToString(STAT_OK) + " End of status\r\n"))
  }

  /** do_operation of the registered operations that write one reply and die. */
  function Answer(cfg: Config, p: Props, kind: Kind, req: Request): (Props, Reply)
    requires !IsTransfer(kind)
  {
    match kind
    case Ack => (p, CodeInfo(OK, "NOOP ok"))
    case Auth => AuthAnswer(cfg, p, req)
    case CreateDir => CreateDirAnswer(cfg, p, req.body)
    case Stat => (p, StatReply(cfg, p))
    case Syst => (p, Code(SYST_OK))
    case PrintWorkingDir => (p, Pwd(p.currentPath))
    case ChangeWorkingDir =>
      if req.body == "" then (p, Cwd(Some(p.currentPath))) else ChangeDir(p, TargetPath(p, req.body))
    case Property => PropertyAnswer(p, req)
    case PassiveMode => PassiveAnswer(cfg, p)
    case Size => (p, SizeReply(p, req.body))
    case CdToParent => ChangeDir(p, TargetPath(p, ".."))
  }

  // ---------------------------------------------------------------- transfers

  /** How the constructor of a transfer operation ends: with its file open, or with a reply. */
  datatype Opened = Ready(content: string) | Refused(reply: Reply)

  // the constructors of SendFileOp, RecvFileOp and ListOp
  function OpenTransfer(cfg: Config, p: Props, kind: Kind, body: string): Opened
    requires IsTransfer(kind)
  {
    var target := TargetPath(p, body);
    match kind
    case Send =>
      if body == "" || target !in p.files then Refused(CodeInfo(NOPERM_FILEFATAL, "File not found"))
      else if !p.files[target].File? || !p.files[target].accessible then
        Refused(CodeInfo(NOPERM_FILEFATAL, "Failed to open file."))
      else Ready(p.files[target].content)
    case Recv =>
      if body == "" || (p.isAnonymous && target in p.files)
         || !(if target in p.files then p.files[target].File? && p.files[target].accessible
              else target in cfg.creatable)
      then Refused(CodeInfo(UPLOAD_FAIL, "Could not create file."))
      else Ready("")
    case List => Ready("")
  }

  /** Requests at which the file-system library throws out of the handler: the size of a
      directory, and a directory that cannot be created. The source does not survive them. */
  predicate Throws(cfg: Config, p: Props, req: Request) {
    p.verified && Registered(req.command).Some? && KindThrows(cfg, p, Registered(req.command).value, req.body)
  }

  predicate KindThrows(cfg: Config, p: Props, kind: Kind, body: string) {
    (kind.Send? && RetrThrows(p, body)) || (kind.CreateDir? && MkdirThrows(cfg, p, body))
  }

  // file_size of a directory
  predicate RetrThrows(p: Props, body: string) {
    body != "" && TargetPath(p, body) in p.files && p.files[TargetPath(p, body)].Dir?
  }

  // create_directory below a directory that does not exist, or without the right to
  predicate MkdirThrows(cfg: Config, p: Props, body: string) {
    cfg.writeEnable && body != "" && TargetPath(p, body) !in p.files && TargetPath(p, body) !in cfg.creatable
  }

  // ---------------------------------------------------------------- one command at a time

  /** What dispatch_task is going to do with a request. */
  datatype Route = Run(kind: Kind) | Reject(reply: Reply)

  function RouteOf(p: Props, req: Request): Route {
    if !p.verified then Run(Auth)
    else if req.command == "USER" then Reject(CodeInfo(NOT_ALLOWED, "Can't change to another user."))
    else if req.command == "PASS" then Reject(CodeInfo(LOGGED_ON, "Already logged in."))
    else match Registered(req.command)
      case None => Reject(Code(SYNTAX_ERROR))
      case Some(kind) => Run(kind)
  }

  /** The request starts a transfer. */
  predicate StartsTransfer(p: Props, req: Request) {
    var route := RouteOf(p, req);
    route.Run? && IsTransfer(route.kind)
  }

  /** A whole command, for everything but transfers: new properties and the one reply. */
  function Respond(cfg: Config, p: Props, req: Request): (Props, Reply)
    requires !StartsTransfer(p, req)
  {
    match RouteOf(p, req)
    case Reject(reply) => (p, reply)
    case Run(kind) => Answer(cfg, p, kind, req)
  }

  // ---------------------------------------------------------------- login

  /** The name has the nine letters of "anonymous", each in lower or in upper case. */
  predicate IsAnonymousName(name: string) { AnyCase(name, "anonymous", "ANONYMOUS") }

  /** AuthOp compares the folded name. */
  lemma FoldedNameIff(name: string)
    ensures Lower(name) == "anonymous" <==> IsAnonymousName(name)
  {
    var lower, word, upper := Lower(name), "anonymous", "ANONYMOUS";
    if lower == word {
      forall i | 0 <= i < |name| ensures name[i] == word[i] || name[i] == upper[i] {
        assert lower[i] == ToLower(name[i]) == word[i];
      }
    }
    if AnyCase(name, word, upper) {
      forall i | 0 <= i < |name| ensures lower[i] == word[i] {
        assert lower[i] == ToLower(name[i]);
      }
    }
  }

  /** What being logged in means. */
  predicate LoginOk(cfg: Config, p: Props) {
    && (p.verified ==> p.user != "" && p.isAnonymous == (cfg.anonymousEnable && IsAnonymousName(p.user)))
    && (!p.verified ==> !p.isAnonymous)
  }

  /** Logging in is final, and after it the identity never changes. */
  predicate SameLogin(p: Props, q: Props) {
    p.verified ==> q.verified && q.user == p.user && q.isAnonymous == p.isAnonymous
  }

  lemma AuthCommand(command: string)
    requires Registered(command) == Some(Auth)
    ensures command != "USER" && command != "PASS"
  {
    assert command == "AUTH";
    assert command[0] != "USER"[0] && command[0] != "PASS"[0];
  }

  lemma RespondKeepsLogin(cfg: Config, p: Props, req: Request)
    requires !StartsTransfer(p, req) && LoginOk(cfg, p)
    ensures LoginOk(cfg, Respond(cfg, p, req).0)
    ensures SameLogin(p, Respond(cfg, p, req).0)
  {
    FoldedNameIff(p.user);
    if RouteOf(p, req) == Run(Auth) && p.verified {
      AuthCommand(req.command);
    }
  }

  // ---------------------------------------------------------------- what a reply tells about the session

  /** A command that is refused has changed nothing, except that PASS without a user forgets
      the password and PASV gives up the old listening socket. */
  lemma RefusalChangesNothing(cfg: Config, p: Props, req: Request)
    requires !StartsTransfer(p, req) && Respond(cfg, p, req).1.code >= SYNTAX_ERROR
    ensures var q := Respond(cfg, p, req).0;
            || q == p
            || (!p.verified && p.user == "" && q == p.(password := ""))
            || (&& RouteOf(p, req) == Run(PassiveMode) && !q.acceptor.Listening?
                && q == p.(acceptor := q.acceptor, pasv := q.pasv))
  {
    if p.verified && RouteOf(p, req) == Run(Auth) {
      AuthCommand(req.command);
    }
  }

  /** TYPE and OPTS do not depend on the case of their argument. */
  lemma PropertyIgnoresCase(p: Props, req: Request)
    ensures PropertyAnswer(p, req) == PropertyAnswer(p, Request(req.command, Upper(req.body)))
  {
    UpperTwice(req.body);
  }
}
