/** The benchmark client: the staged pipeline of async_session, fetching one file. */
module Client {
  import opened Text
  import opened Requests
  import opened Replies
  import opened Script
  import RecvFile

  /** What the pipeline is waiting for. `Crashed` stands for an exception or an arithmetic
      trap inside a stage. */
  datatype Stage = Awaiting | Connecting(address: string, port: Port) | Receiving | Finished(ok: bool) | Crashed

  /** `asked` requests have been sent, `heard` are the replies read; `buf` is the rest of
      what the control connection has brought. */
  datatype Client = Client(
    stage: Stage,
    asked: nat,
    sent: string,
    buf: string,
    heard: seq<string>,
    fileSize: nat,
    recv: RecvFile.Receiver)

  function Begin(): Client { Client(Awaiting, 0, "", "", [], 0, RecvFile.Start()) }

  // the code each stage insists on, counting from the welcome reply
  function Expected(n: nat): nat {
    if n == 0 then WELCOME
    else if n == 1 then PASSWORD_REQUIRED
    else if n == 2 then LOGGED_ON
    else if n == 3 then SIZE_OK
    else if n == 4 then PASV_OK
    else if n == 5 then DATA_CONN
    else TRANSFER_COMPLETE
  }

  // async_call: build_req and async_write; then a reply is awaited
  function Ask(c: Client, file: string, k: nat): Client
    requires k < 5
  {
    c.(stage := Awaiting, asked := k + 1, sent := c.sent + Print(Asked(file)[k]))
  }

  // the stage after SIZE: std::stol; a negative size, which no server announces, is not followed
  function OnSize(c: Client, file: string, msg: string): Client {
    match Stol(msg)
    case None => c.(stage := Crashed)
    case Some(size) => if size < 0 then c.(stage := Finished(false)) else Ask(c.(fileSize := size), file, 3)
  }

  // the stage after PASV: regex search, then the numbers in the match
  function OnPassive(c: Client, msg: string): Client {
    match SearchTuple(msg, 6)
    case None => c.(stage := Finished(false))
    case Some(matched) =>
      match ParseMatched(matched)
      case None => c.(stage := Crashed)
      case Some(endpoint) => c.(stage := Connecting(endpoint.0, endpoint.1))
  }

  /** A stage of async_session on its reply line; `created` tells whether the target file and the pipe could be made. */
  function OnReply(c: Client, file: string, line: string, created: bool): Client {
    var n := |c.heard|;
    var d := c.(heard := c.heard + [line]);
    match ParseReply(line)
    case None => d.(stage := if |Split(line, ' ')| < 2 then Finished(false) else Crashed)
    case Some(reply) =>
      if reply.0 != Expected(n) then d.(stage := Finished(false))
      else if n < 3 then Ask(d, file, n)
      else if n == 3 then OnSize(d, file, reply.1)
      else if n == 4 then OnPassive(d, reply.1)
      else if n == 5 then d.(stage := if created then Receiving else Finished(false))
      else d.(stage := Finished(true))
  }

  // get_read_with_timeout_op: the first line leaves the buffer
  function OnLineRead(c: Client, file: string, created: bool): Client {
    var n := LineEnd(c.buf);
    OnReply(c.(buf := c.buf[n..]), file, c.buf[..n], created)
  }

  // the stage after the data connection is established
  function OnConnected(c: Client, file: string): Client { Ask(c, file, 4) }

  /** The data socket is readable: RecvFileImpl::deal_event, with the progress hook, which
      divides by the announced size. */
  function OnReadable(c: Client, script: seq<RecvFile.Splice>): Client {
    if c.recv.incoming != "" && c.fileSize == 0 then c.(stage := Crashed)
    else
      var (r, status) := RecvFile.Deal(c.recv, script, Some(c.fileSize));
      c.(recv := r,
         stage := match status
           case Finished => Awaiting
           case UnexpectedTerminate => Finished(false)
           case _ => Receiving)
  }

  // ---------------------------------------------------------------- what a client's own state says

  /** The pipeline has not given up. */
  predicate Going(c: Client) { c.stage != Finished(false) && c.stage != Crashed }

  /** How many requests a client that has not given up has sent. */
  function AskedBy(c: Client): nat {
    if |c.heard| <= 4 then |c.heard| else if c.stage.Connecting? then 4 else 5
  }

  ghost predicate Matches(line: string, n: nat) {
    ParseReply(line).Some? && ParseReply(line).value.0 == Expected(n)
  }

  /** The stage fits the replies read so far, all of which had the right codes. */
  ghost predicate StageOk(c: Client) {
    && (Going(c) ==>
          && c.asked == AskedBy(c)
          && (forall j :: 0 <= j < |c.heard| ==> Matches(c.heard[j], j)))
    && match c.stage
       case Awaiting => |c.heard| <= 6
       case Connecting(_, _) => |c.heard| == 5
       case Receiving => |c.heard| == 6
       case Finished(ok) => ok ==> |c.heard| == 7
       case Crashed => true
  }

  /** The requests sent are the first ones of the script. */
  ghost predicate SentOk(c: Client, file: string) {
    c.asked <= 5 && c.sent == Concat(Prints(file)[..c.asked])
  }

  lemma AskOk(c: Client, file: string, k: nat)
    requires SentOk(c, file) && c.asked == k < 5
    ensures SentOk(Ask(c, file, k), file)
  {
    ConcatSnoc(Prints(file)[..k], Prints(file)[k]);
    assert Prints(file)[..k + 1] == Prints(file)[..k] + [Prints(file)[k]];
  }

  lemma SizeSent(c: Client, file: string, msg: string)
    requires SentOk(c, file) && c.asked == 3
    ensures SentOk(OnSize(c, file, msg), file)
  {
    if Stol(msg).Some? && Stol(msg).value >= 0 {
      AskOk(c.(fileSize := Stol(msg).value), file, 3);
    }
  }

  lemma ReplySent(c: Client, file: string, line: string, created: bool)
    requires StageOk(c) && SentOk(c, file) && c.stage.Awaiting?
    ensures SentOk(OnReply(c, file, line, created), file)
  {
    var d := c.(heard := c.heard + [line]);
    var n := |c.heard|;
    if n < 3 {
      AskOk(d, file, n);
    } else if n == 3 {
      var parsed := ParseReply(line);
      if parsed.Some? {
        SizeSent(d, file, parsed.value.1);
      }
    }
  }

  lemma ReplyHeard(c: Client, file: string, line: string, created: bool)
    ensures var t := OnReply(c, file, line, created);
            t.heard == c.heard + [line] && (Going(t) ==> Matches(line, |c.heard|))
  {
  }

  lemma ReplyStage(c: Client, file: string, line: string, created: bool)
    requires StageOk(c) && c.stage.Awaiting?
    ensures StageOk(OnReply(c, file, line, created))
  {
    ReplyHeard(c, file, line, created);
  }

  lemma ConnectedKeepsStage(c: Client, file: string)
    requires StageOk(c) && SentOk(c, file) && c.stage.Connecting?
    ensures StageOk(OnConnected(c, file)) && SentOk(OnConnected(c, file), file)
  {
    AskOk(c, file, 4);
  }

  lemma ReadableKeepsStage(c: Client, file: string, script: seq<RecvFile.Splice>)
    requires StageOk(c) && SentOk(c, file) && c.stage.Receiving?
    ensures StageOk(OnReadable(c, script)) && SentOk(OnReadable(c, script), file)
  {
  }

  /** How a readable event ends: the last reply is awaited exactly when the peer has closed; the
      pipeline ends in false exactly when a splice fails first, and goes on receiving otherwise;
      with nothing announced but something to read, the division traps. */
  lemma ReadableEndsIff(c: Client, script: seq<RecvFile.Splice>)
    requires c.stage.Receiving?
    ensures var unread, stage := |c.recv.incoming|, OnReadable(c, script).stage;
            && (stage.Awaiting? <==> unread == 0)
            && (stage.Crashed? <==> unread > 0 && c.fileSize == 0)
            && (stage == Finished(false) <==> unread > 0 && c.fileSize > 0 && RecvFile.FailsFirst(unread, script))
            && (stage.Receiving? <==> unread > 0 && c.fileSize > 0 && !RecvFile.FailsFirst(unread, script))
  {
    if c.recv.incoming == "" || c.fileSize > 0 {
      RecvFile.DealEndsIff(c.recv, script, Some(c.fileSize));
    }
  }
}
