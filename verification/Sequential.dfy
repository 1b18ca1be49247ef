/** The event system refines a server that reads one command at a time and answers it at once. */
module Sequential {
  import opened Text
  import opened Requests
  import opened Replies
  import opened Commands
  import opened Engine
  import opened SessionEffects
  import opened SessionInvariants
  import opened SessionRuns

  // ---------------------------------------------------------------- the reference server

  /** One line: a blank one is ignored, any other gets its reply. The reference stops at transfer commands. */
  function Serve(cfg: Config, p: Props, line: string): (Props, seq<Reply>) {
    match ParseLine(line)
    case None => (p, [])
    case Some(req) =>
      if StartsTransfer(p, req) then (p, [])
      else
        var (q, reply) := Respond(cfg, p, req);
        (q, [reply])
  }

  function ServeAll(cfg: Config, lines: seq<string>): (Props, seq<Reply>) {
    if lines == [] then (Fresh(cfg), [])
    else
      var (p, replies) := ServeAll(cfg, lines[..|lines| - 1]);
      var (q, more) := Serve(cfg, p, lines[|lines| - 1]);
      (q, replies + more)
  }

  function NonBlank(lines: seq<string>): nat {
    if lines == [] then 0
    else NonBlank(lines[..|lines| - 1]) + (if ParseLine(lines[|lines| - 1]).Some? then 1 else 0)
  }

  function RepliesOf(ms: seq<Message>): seq<Reply> {
    seq(|ms|, i requires 0 <= i < |ms| => ms[i].reply)
  }

  function ReplyTexts(rs: seq<Reply>): string {
    if rs == [] then "" else ReplyTexts(rs[..|rs| - 1]) + rs[|rs| - 1].text
  }

  lemma {:induction false} TextsOfReplies(ms: seq<Message>)
    ensures Texts(ms) == ReplyTexts(RepliesOf(ms))
  {
    if ms != [] {
      TextsOfReplies(ms[..|ms| - 1]);
      assert RepliesOf(ms)[..|ms| - 1] == RepliesOf(ms[..|ms| - 1]);
    }
  }

  lemma {:induction false} ReplyTextsPrefix(a: seq<Reply>, b: seq<Reply>)
    requires a <= b
    ensures ReplyTexts(a) <= ReplyTexts(b)
  {
    if |a| < |b| {
      ReplyTextsPrefix(a, b[..|b| - 1]);
    } else {
      assert a == b;
    }
  }

  lemma {:induction false} ServeAllPrefix(cfg: Config, lines: seq<string>, k: nat)
    requires k <= |lines|
    ensures ServeAll(cfg, lines[..k]).1 <= ServeAll(cfg, lines).1
  {
    if k < |lines| {
      var init := lines[..|lines| - 1];
      ServeAllPrefix(cfg, init, k);
      assert init[..k] == lines[..k];
    } else {
      assert lines[..k] == lines;
    }
  }

  // ---------------------------------------------------------------- refinement

  /** As long as no transfer has been started, properties and replies are those of the
      reference server for the lines consumed so far, one reply for each line that is not blank. */
  ghost predicate Follows(cfg: Config, s: State) {
    var lines := Lines(s.hist.consumed);
    && s.heap.conts == [] && (forall m :: m in s.ctl.queue ==> m.token.NoToken?)
    && (s.props, RepliesOf(s.hist.logged)) == ServeAll(cfg, lines)
    && |s.hist.logged| == NonBlank(lines)
  }

  lemma RepliesSnoc(ms: seq<Message>, m: Message)
    ensures RepliesOf(ms + [m]) == RepliesOf(ms) + [m.reply]
  {
  }

  lemma ServeAllSnoc(cfg: Config, lines: seq<string>, line: string)
    ensures ServeAll(cfg, lines + [line]) ==
              (var (p, replies) := ServeAll(cfg, lines);
               var (q, more) := Serve(cfg, p, line);
               (q, replies + more))
    ensures NonBlank(lines + [line]) == NonBlank(lines) + (if ParseLine(line).Some? then 1 else 0)
  {
    assert (lines + [line])[..|lines|] == lines;
  }

  lemma ConsumedLines(s: State)
    requires InputOk(s) && LineEnd(s.ctl.buf) > 0
    ensures Lines(AtLine(s).hist.consumed) == Lines(s.hist.consumed) + [FirstLine(s)]
  {
    FirstLineIsOneLine(s.ctl.buf);
    LinesSnoc(s.hist.consumed, FirstLine(s));
  }

  lemma LineFollows(cfg: Config, s: State)
    requires Follows(cfg, s) && InputOk(s) && LineEnd(s.ctl.buf) > 0
    ensures OnLine(cfg, s).hist.transfers == s.hist.transfers ==> Follows(cfg, OnLine(cfg, s))
  {
    LineEffect(cfg, s);
    LineStepped(cfg, s);
    ConsumedLines(s);
    var t, line := OnLine(cfg, s), FirstLine(s);
    var parsed := ParseLine(line);
    if parsed.None? {
      BlankFollows(cfg, s, t, line);
    } else {
      match RouteOf(s.props, parsed.value)
      case Reject(reply) => ReplyFollows(cfg, s, t, line, reply);
      case Run(kind) =>
        if !IsTransfer(kind) {
          ReplyFollows(cfg, s, t, line, Answer(cfg, s.props, kind, parsed.value).1);
        }
    }
  }

  lemma BlankFollows(cfg: Config, s: State, t: State, line: string)
    requires Follows(cfg, s) && Lines(t.hist.consumed) == Lines(s.hist.consumed) + [line] && ParseLine(line).None?
    requires t.props == s.props && t.heap.conts == s.heap.conts
    requires t.hist.logged == s.hist.logged && t.ctl.queue == s.ctl.queue
    ensures Follows(cfg, t)
  {
    ServeAllSnoc(cfg, Lines(s.hist.consumed), line);
    assert RepliesOf(s.hist.logged) + [] == RepliesOf(s.hist.logged);
  }

  lemma ReplyFollows(cfg: Config, s: State, t: State, line: string, reply: Reply)
    requires Follows(cfg, s) && Lines(t.hist.consumed) == Lines(s.hist.consumed) + [line] && ParseLine(line).Some?
    requires (t.props, [reply]) == Serve(cfg, s.props, line)
    requires t.heap.conts == s.heap.conts
    requires t.hist.logged == s.hist.logged + [Message(reply, NoToken)]
    requires t.ctl.queue == s.ctl.queue + [Message(reply, NoToken)]
    ensures Follows(cfg, t)
  {
    ServeAllSnoc(cfg, Lines(s.hist.consumed), line);
    RepliesSnoc(s.hist.logged, Message(reply, NoToken));
  }

  lemma TransfersGrow(cfg: Config, s: State, e: Event)
    ensures |s.hist.transfers| <= |Step(cfg, s, e).hist.transfers|
    ensures !e.Line? ==> Step(cfg, s, e).hist.transfers == s.hist.transfers
  {
    if Enabled(cfg, s, e) {
      StepEffect(cfg, s, e);
    }
  }

  lemma StepFollows(cfg: Config, s: State, e: Event)
    requires Inv(cfg, s) && Follows(cfg, s)
    requires Step(cfg, s, e).hist.transfers == s.hist.transfers
    ensures Follows(cfg, Step(cfg, s, e))
  {
    if Enabled(cfg, s, e) {
      if e.Written? || e.WriteFailed? {
        WriteFollows(cfg, s, e);
      } else if e.Line? {
        LinesMeanStarted(cfg, s);
        LineFollows(cfg, s);
      } else {
        QuietFollows(cfg, s, e);
      }
    }
  }

  lemma WriteFollows(cfg: Config, s: State, e: Event)
    requires Follows(cfg, s)
    requires Enabled(cfg, s, e) && (e.Written? || e.WriteFailed?)
    ensures Follows(cfg, Step(cfg, s, e))
  {
    if !s.ctl.phase.Starting? {
      if e.Written? {
        WrittenEffect(cfg, s);
        assert s.ctl.queue[0] in s.ctl.queue;
        assert s.heap.conts + [] == s.heap.conts;
      } else {
        WriteFailedEffect(cfg, s);
      }
    }
  }

  lemma NothingReenters(cfg: Config, s: State, e: Event)
    requires Enabled(cfg, s, e) && forall m :: m in s.ctl.queue ==> m.token.NoToken?
    ensures !e.Reenters?
  {
    if s.ctl.queue != [] {
      assert s.ctl.queue[0] in s.ctl.queue;
    }
  }

  lemma QuietFollows(cfg: Config, s: State, e: Event)
    requires Follows(cfg, s) && Enabled(cfg, s, e) && !e.Written? && !e.WriteFailed? && !e.Line?
    ensures Follows(cfg, Step(cfg, s, e))
  {
    NothingReenters(cfg, s, e);
    assert IsQuiet(e);
    QuietStepped(cfg, s, e);
  }

  // without transfers every operation dies in the handler that made it
  lemma StepNoOps(cfg: Config, s: State, e: Event)
    requires HeapOk(s, multiset{}) && s.heap.ops == map[]
    requires Step(cfg, s, e).hist.transfers == s.hist.transfers
    ensures Step(cfg, s, e).heap.refs == multiset{}
  {
    assert s.heap.refs == multiset{};
    if Enabled(cfg, s, e) {
      if e.Line? {
        LineNoOps(cfg, s);
      } else {
        StepEffect(cfg, s, e);
      }
    }
  }

  lemma LineNoOps(cfg: Config, s: State)
    requires s.heap.refs == multiset{} && OnLine(cfg, s).hist.transfers == s.hist.transfers
    ensures OnLine(cfg, s).heap.refs == multiset{}
  {
    LineEffect(cfg, s);
  }

  lemma {:induction false} FollowsThroughout(cfg: Config, now: int, es: seq<Event>)
    requires Reach(cfg, now, es).hist.transfers == []
    ensures Follows(cfg, Reach(cfg, now, es)) && Reach(cfg, now, es).heap.ops == map[]
  {
    AlwaysInv(cfg, now, es);
    if es == [] {
      var s := Reach(cfg, now, es);
      assert Lines(s.hist.consumed) == [] && RepliesOf(s.hist.logged) == [];
    } else {
      var init, e := es[..|es| - 1], es[|es| - 1];
      var s := Reach(cfg, now, init);
      TransfersGrow(cfg, s, e);
      FollowsThroughout(cfg, now, init);
      AlwaysInv(cfg, now, init);
      StepFollows(cfg, s, e);
      StepNoOps(cfg, s, e);
      NoRefsNoOps(Reach(cfg, now, es));
    }
  }

  lemma NoRefsNoOps(s: State)
    requires HeapOk(s, multiset{}) && s.heap.refs == multiset{}
    ensures s.heap.ops == map[]
  {
    assert forall id :: id in s.heap.ops ==> id in s.heap.refs;
  }

  lemma ConsumedIsPrefix(cfg: Config, s: State)
    requires InputOk(s)
    ensures Lines(s.hist.received) == Lines(s.hist.consumed) + Lines(s.ctl.buf)
  {
    LinesAppend(s.hist.consumed, s.ctl.buf);
    assert Remainder(s.hist.consumed) + s.ctl.buf == s.ctl.buf;
  }

  lemma InputThroughout(cfg: Config, now: int, es: seq<Event>)
    ensures InputOk(Reach(cfg, now, es))
  {
    AlwaysInv(cfg, now, es);
    var s := Reach(cfg, now, es);
    if !s.ctl.phase.Started? {
      assert Remainder(s.hist.consumed) == s.hist.consumed;
    }
  }

  /** Refinement. However the input was cut into chunks and however write completions were
      interleaved: on a run without transfers the wire carries a prefix of the welcome line
      and the replies the reference server gives for the received lines. */
  lemma RefinesSequentialServer(cfg: Config, now: int, es: seq<Event>)
    requires Reach(cfg, now, es).hist.transfers == []
    ensures var s := Reach(cfg, now, es);
            && s.hist.wire <= Banner(cfg) + ReplyTexts(ServeAll(cfg, Lines(s.hist.received)).1)
            && RepliesOf(s.hist.logged) <= ServeAll(cfg, Lines(s.hist.received)).1
            && |s.hist.logged| == NonBlank(Lines(s.hist.consumed))
  {
    var s := Reach(cfg, now, es);
    FollowsThroughout(cfg, now, es);
    InputThroughout(cfg, now, es);
    WireIsPrefix(cfg, now, es);
    ConsumedIsPrefix(cfg, s);
    var all, done := Lines(s.hist.received), Lines(s.hist.consumed);
    assert all[..|done|] == done;
    ServeAllPrefix(cfg, all, |done|);
    TextsOfReplies(s.hist.logged);
    ReplyTextsPrefix(RepliesOf(s.hist.logged), ServeAll(cfg, all).1);
    PrefixTrans(s.hist.wire, Banner(cfg), Texts(s.hist.logged), ReplyTexts(ServeAll(cfg, all).1));
  }

  lemma PrefixTrans(wire: string, banner: string, a: string, b: string)
    requires wire <= banner + a && a <= b
    ensures wire <= banner + b
  {
    assert banner + b == banner + a + b[|a|..];
  }

  /** ... and nothing is missing: once no complete line is left in the buffer and no write
      is outstanding, an unbroken wire carries exactly all of these replies. */
  lemma QuiescentIsComplete(cfg: Config, now: int, es: seq<Event>)
    requires var s := Reach(cfg, now, es);
             && s.hist.transfers == [] && s.ctl.phase.Started? && !s.hist.writeFailed
             && s.ctl.writes == [] && LineEnd(s.ctl.buf) == 0
    ensures var s := Reach(cfg, now, es);
            s.hist.wire == Banner(cfg) + ReplyTexts(ServeAll(cfg, Lines(s.hist.received)).1)
  {
    var s := Reach(cfg, now, es);
    FollowsThroughout(cfg, now, es);
    AlwaysInv(cfg, now, es);
    ConsumedIsPrefix(cfg, s);
    assert Lines(s.ctl.buf) == [];
    assert Lines(s.hist.received) == Lines(s.hist.consumed);
    assert s.hist.delivered == s.hist.logged;
    TextsOfReplies(s.hist.logged);
  }

  // ---------------------------------------------------------------- login

  /** Until the login only AuthOp has been executed. */
  ghost predicate LoginFirst(cfg: Config, s: State) {
    && LoginOk(cfg, s.props)
    && (!s.props.verified ==> forall kind :: kind in s.hist.executed ==> kind.Auth?)
  }

  lemma LineLogin(cfg: Config, s: State)
    requires LoginFirst(cfg, s)
    ensures LoginFirst(cfg, OnLine(cfg, s)) && SameLogin(s.props, OnLine(cfg, s).props)
  {
    LineEffect(cfg, s);
    var parsed := ParseLine(FirstLine(s));
    if parsed.Some? && RouteOf(s.props, parsed.value).Run? && !IsTransfer(RouteOf(s.props, parsed.value).kind) {
      RespondKeepsLogin(cfg, s.props, parsed.value);
    }
  }

  lemma StepLogin(cfg: Config, s: State, e: Event)
    requires LoginFirst(cfg, s)
    ensures LoginFirst(cfg, Step(cfg, s, e)) && SameLogin(s.props, Step(cfg, s, e).props)
  {
    if Enabled(cfg, s, e) {
      if e.Line? {
        LineLogin(cfg, s);
      } else {
        StepEffect(cfg, s, e);
      }
    }
  }

  lemma {:induction false} ExecLogin(cfg: Config, s: State, es: seq<Event>)
    requires LoginFirst(cfg, s)
    ensures LoginFirst(cfg, Exec(cfg, s, es)) && SameLogin(s.props, Exec(cfg, s, es).props)
  {
    if es != [] {
      ExecLogin(cfg, s, es[..|es| - 1]);
      StepLogin(cfg, Exec(cfg, s, es[..|es| - 1]), es[|es| - 1]);
    }
  }

  // ---------------------------------------------------------------- the login, told by the lines

  /** The name in the last USER command. */
  function LastUser(lines: seq<string>): string {
    if lines == [] then ""
    else
      var parsed := ParseLine(lines[|lines| - 1]);
      if parsed.Some? && parsed.value.command == "USER" then parsed.value.body else LastUser(lines[..|lines| - 1])
  }

  predicate Asks(line: string, command: string) { ParseLine(line).Some? && ParseLine(line).value.command == command }

  /** The line at `j` is a PASS after a USER with a name. */
  predicate LogsIn(lines: seq<string>, j: int) {
    0 <= j < |lines| && Asks(lines[j], "PASS") && LastUser(lines[..j]) != ""
  }

  ghost predicate FirstLogin(lines: seq<string>, j: int) {
    LogsIn(lines, j) && forall i :: i < j ==> !LogsIn(lines, i)
  }

  /** A PASS after a named USER logs in, nothing else does, and the first one decides who it is. */
  ghost predicate LoginTold(lines: seq<string>, p: Props) {
    if p.verified then exists j :: FirstLogin(lines, j) && p.user == LastUser(lines[..j])
    else p.user == LastUser(lines) && forall j :: !LogsIn(lines, j)
  }

  /** What one line does to the login. */
  ghost predicate LoginStep(p: Props, line: string, q: Props) {
    if p.verified then q.verified && q.user == p.user
    else if Asks(line, "USER") then !q.verified && q.user == ParseLine(line).value.body
    else if Asks(line, "PASS") then q.verified == (p.user != "") && q.user == p.user
    else !q.verified && q.user == p.user
  }

  lemma LineLoginStep(cfg: Config, s: State)
    ensures LoginStep(s.props, FirstLine(s), OnLine(cfg, s).props)
  {
    LineEffect(cfg, s);
    var parsed := ParseLine(FirstLine(s));
    if parsed.Some? && RouteOf(s.props, parsed.value).Run? && !IsTransfer(RouteOf(s.props, parsed.value).kind) {
      AnswerLogin(cfg, s.props, parsed.value);
    }
  }

  lemma AnswerLogin(cfg: Config, p: Props, req: Request)
    requires RouteOf(p, req).Run? && !IsTransfer(RouteOf(p, req).kind)
    ensures var q := Answer(cfg, p, RouteOf(p, req).kind, req).0;
            if p.verified then q.verified && q.user == p.user
            else if req.command == "USER" then !q.verified && q.user == req.body
            else if req.command == "PASS" then q.verified == (p.user != "") && q.user == p.user
            else !q.verified && q.user == p.user
  {
    if p.verified && RouteOf(p, req) == Run(Auth) {
      AuthCommand(req.command);
    }
  }

  lemma LogsInSnoc(lines: seq<string>, longer: seq<string>, line: string, j: int)
    requires longer == lines + [line]
    ensures LogsIn(longer, j) <==>
              LogsIn(lines, j) || (j == |lines| && Asks(line, "PASS") && LastUser(lines) != "")
    ensures 0 <= j <= |lines| ==> longer[..j] == lines[..j]
  {
    if 0 <= j <= |lines| {
      assert longer[..j] == lines[..j];
      assert lines[..|lines|] == lines;
    }
  }

  lemma LoginSnoc(lines: seq<string>, line: string, p: Props, q: Props)
    requires LoginTold(lines, p) && LoginStep(p, line, q)
    ensures LoginTold(lines + [line], q)
  {
    var longer := lines + [line];
    assert longer[..|lines|] == lines;
    forall j ensures LogsIn(longer, j) <==>
                       LogsIn(lines, j) || (j == |lines| && Asks(line, "PASS") && LastUser(lines) != "") {
      LogsInSnoc(lines, longer, line, j);
    }
    if p.verified {
      var j :| FirstLogin(lines, j) && p.user == LastUser(lines[..j]);
      LogsInSnoc(lines, longer, line, j);
      assert FirstLogin(longer, j);
    } else if q.verified {
      assert FirstLogin(longer, |lines|);
    }
  }

  lemma {:induction false} LoginThroughout(cfg: Config, now: int, es: seq<Event>)
    ensures LoginTold(Lines(Reach(cfg, now, es).hist.consumed), Reach(cfg, now, es).props)
  {
    if es == [] {
      assert Lines(Reach(cfg, now, es).hist.consumed) == [];
    } else {
      var init, e := es[..|es| - 1], es[|es| - 1];
      var s := Reach(cfg, now, init);
      LoginThroughout(cfg, now, init);
      if Enabled(cfg, s, e) {
        if e.Line? {
          InputThroughout(cfg, now, init);
          LineTold(cfg, s);
        } else {
          StepEffect(cfg, s, e);
        }
      }
    }
  }

  lemma LineTold(cfg: Config, s: State)
    requires InputOk(s) && LineEnd(s.ctl.buf) > 0 && LoginTold(Lines(s.hist.consumed), s.props)
    ensures LoginTold(Lines(OnLine(cfg, s).hist.consumed), OnLine(cfg, s).props)
  {
    LineStepped(cfg, s);
    ConsumedLines(s);
    LineLoginStep(cfg, s);
    LoginSnoc(Lines(s.hist.consumed), FirstLine(s), s.props, OnLine(cfg, s).props);
  }

  /** The login machine over whole runs: the session is logged in exactly when a PASS followed a
      USER with a name, as the user named before the first such PASS; before that only AuthOp
      executes; it is anonymous exactly when anonymous logins are enabled and the name is the
      word "anonymous" in any case; and from any such state on, whatever follows, the session
      stays logged in as the same user. */
  lemma LoginIsFinal(cfg: Config, now: int, es: seq<Event>, more: seq<Event>)
    ensures var s := Reach(cfg, now, es);
            var t := Exec(cfg, s, more);
            && LoginTold(Lines(s.hist.consumed), s.props)
            && (!s.props.verified ==> forall kind :: kind in s.hist.executed ==> kind.Auth?)
            && (s.props.verified ==>
                  && s.props.user != ""
                  && s.props.isAnonymous == (cfg.anonymousEnable && IsAnonymousName(s.props.user))
                  && t.props.verified && t.props.user == s.props.user && t.props.isAnonymous == s.props.isAnonymous)
  {
    LoginThroughout(cfg, now, es);
    ExecLogin(cfg, Init(cfg, now), es);
    ExecLogin(cfg, Reach(cfg, now, es), more);
  }
}
