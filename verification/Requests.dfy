/** FTP requests: the client's printer and the server's parser. */
module Requests {
  import opened Text

  datatype Request = Request(command: string, body: string)

  // Client::build_req
  function Print(req: Request): string {
    req.command + " " + req.body + CRLF
  }

  // build_request on the words of one line; None for a blank line
  function Build(input: seq<string>): Option<Request> {
    if input == [] then None
    else Some(Request(Upper(input[0]), Join(input[1..], ' ')))
  }

  // what handle_read makes of one line
  function ParseLine(line: string): Option<Request> {
    Build(Tokens(line))
  }

  /** The method body of build_request: the command is folded in place, the body is streamed word by word. */
  method BuildRequest(input: seq<string>) returns (request: Option<Request>)
    ensures request == Build(input)
  {
    if input == [] {
      return None;
    }
    var command := input[0];
    var i := 0;
    while i < |command|
      invariant 0 <= i <= |input[0]| == |command|
      invariant command == Upper(input[0][..i]) + input[0][i..]
    {
      command := command[i := ToUpper(command[i])];
      i := i + 1;
    }
    var body := "";
    if |input| > 1 {
      body := input[1];
      i := 2;
      assert input[1..2] == [input[1]];
      while i < |input|
        invariant 2 <= i <= |input|
        invariant body == Join(input[1..i], ' ')
      {
        JoinSnoc(input[1..i], input[i], ' ');
        assert input[1..i + 1] == input[1..i] + [input[i]];
        body := body + " " + input[i];
        i := i + 1;
      }
      assert input[1..i] == input[1..];
    }
    assert command == Upper(input[0]);
    request := Some(Request(command, body));
  }

  /** The body as the server will see it: whitespace runs collapsed, ends trimmed. */
  function Normal(body: string): string { Join(Tokens(body), ' ') }

  lemma UpperHasNoSpace(s: string)
    ensures NoSpace(Upper(s)) <==> NoSpace(s)
  {
    var u := Upper(s);
    assert forall i :: 0 <= i < |s| ==> (IsSpace(u[i]) <==> IsSpace(s[i]));
    if NoSpace(s) {
      forall c | c in u ensures !IsSpace(c) {
        var i :| 0 <= i < |u| && u[i] == c;
        assert s[i] in s;
      }
    }
    if NoSpace(u) {
      forall c | c in s ensures !IsSpace(c) {
        var i :| 0 <= i < |s| && s[i] == c;
        assert u[i] in u;
      }
    }
  }

  lemma UpperTwice(s: string)
    ensures Upper(Upper(s)) == Upper(s)
  {
  }

  /** The words of a printed request whose command is one word. */
  lemma TokensOfPrint(req: Request)
    requires req.command != "" && NoSpace(req.command)
    ensures Tokens(Print(req)) == [req.command] + Tokens(req.body)
  {
    TokensCons(req.command, req.body + CRLF);
    TokensTrailing(req.body, CRLF);
    assert Print(req) == req.command + [' '] + (req.body + CRLF);
  }

  /** Request round trip, with its exact condition: the server recovers the upper-cased
      command and the normalised body of a printed request if and only if the command is
      a single word. */
  lemma RequestRoundTrip(req: Request)
    ensures ParseLine(Print(req)) == Some(Request(Upper(req.command), Normal(req.body)))
            <==> req.command != "" && NoSpace(req.command)
  {
    if req.command != "" && NoSpace(req.command) {
      TokensOfPrint(req);
    } else {
      var ts := Tokens(Print(req));
      UpperHasNoSpace(req.command);
      if ts != [] {
        assert ts[0] in ts;
        UpperHasNoSpace(ts[0]);
        assert |Upper(ts[0])| > 0;
      }
    }
  }

  /** A printed request is one line when no CRLF is hidden in it. */
  lemma PrintIsOneLine(req: Request)
    requires NoSpace(req.command) && NoBreak(req.body)
    ensures OneLine(Print(req))
  {
    var s := req.command + " " + req.body;
    var k := |req.command|;
    forall i ensures !CrlfAt(s, i) {
      if CrlfAt(s, i) {
        assert forall j :: 0 <= j < k ==> s[j] == req.command[j] && req.command[j] in req.command;
        assert i > k ==> CrlfAt(req.body, i - k - 1);
      }
    }
    OneLineOf(s);
    assert Print(req) == s + CRLF;
  }

  /** A parsed request is in normal form: printing and parsing it again changes nothing,
      and neither part of it holds a CR or an LF, so it is always one line. */
  lemma ParsedIsNormal(line: string, req: Request)
    requires ParseLine(line) == Some(req)
    ensures ParseLine(Print(req)) == Some(req)
    ensures '\r' !in req.command && '\n' !in req.command
    ensures '\r' !in req.body && '\n' !in req.body
    ensures OneLine(Print(req))
  {
    var ts := Tokens(line);
    assert ts[0] in ts;
    UpperHasNoSpace(ts[0]);
    UpperTwice(ts[0]);
    assert forall t :: t in ts[1..] ==> t in ts;
    TokensJoin(ts[1..]);
    JoinHasNoBreak(ts[1..]);
    RequestRoundTrip(req);
    assert forall i :: 0 <= i < |req.body| ==> req.body[i] in req.body;
    PrintIsOneLine(req);
  }
}
