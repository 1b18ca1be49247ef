/** FTP replies: the server's printers and the client's parsers (RFC 959, sections 4.2 and 4.1.2). */
module Replies {
  import opened Text

  /** A reply as it is put on the wire; `code` is the number its text starts with. */
  datatype Reply = Reply(code: nat, text: string)

  const DATA_CONN := 150
  const OK := 200
  const STAT_OK := 211
  const SIZE_OK := 213
  const SYST_OK := 215
  const WELCOME := 220
  const TRANSFER_COMPLETE := 226
  const PASV_OK := 227
  const LOGGED_ON := 230
  const CWD_OK := 250
  const PWD_OR_MKDIR_OK := 257
  const PASSWORD_REQUIRED := 331
  const SYNTAX_ERROR := 500
  const BAD_OPTS := 501
  const INVALID_SEQ := 503
  const NOT_ALLOWED := 530
  const NOPERM_FILEFATAL := 550
  const UPLOAD_FAIL := 553

  // Response::code_map
  function Default(code: nat): Option<string> {
    if code == DATA_CONN then Some("Data connection accepted; transfer starting.")
    else if code == SYST_OK then Some("UNIX emulated by ftpd")
    else if code == WELCOME then Some("Welcome to ftpd.")
    else if code == LOGGED_ON then Some("Logged on.")
    else if code == TRANSFER_COMPLETE then Some("Transfer complete.")
    else if code == PASV_OK then Some("Entering Passive Mode.")
    else if code == PASSWORD_REQUIRED then Some("Password required.")
    else if code == SYNTAX_ERROR then Some("Syntax error, command unrecognized.")
    else if code == INVALID_SEQ then Some("Invalid sequence of commands.")
    else if code == NOT_ALLOWED then Some("Login or password incorrect.")
    else None
  }

  // Response::get_code_string(code, info)
  function CodeInfo(code: nat, info: string): Reply {
    Reply(code, ToString(code) + " " + info + CRLF)
  }

  // Response::get_code_string(code)
  function Code(code: nat): Reply {
    match Default(code)
    case None => Reply(code, ToString(code) + CRLF)
    case Some(info) => CodeInfo(code, info)
  }

  // Response::get_pwd_response
  function Pwd(path: string): Reply {
    CodeInfo(PWD_OR_MKDIR_OK, "\"" + path + "\" is the current directory.")
  }

  // Response::get_cwd_response
  function Cwd(path: Option<string>): Reply {
    match path
    case Some(p) => CodeInfo(CWD_OK, "CWD successful. " + "\"" + p + "\" is the current directory.")
    case None => CodeInfo(NOPERM_FILEFATAL, "Directory not found.")
  }

  type Port = p: nat | p < 0x1_0000

  // std::replace
  function Replace(s: string, a: char, b: char): (r: string)
    ensures |r| == |s|
    ensures forall i :: 0 <= i < |s| ==> r[i] == if s[i] == a then b else s[i]
  {
    seq(|s|, i requires 0 <= i < |s| => if s[i] == a then b else s[i])
  }

  const PASV_TEXT := "Entering Passive Mode. "

  // the text of Response::get_pasv_response after its code
  function PasvInfo(ip: string, port: Port): string {
    PASV_TEXT + "(" + Replace(ip, '.', ',') + "," + ToString(port / 256) + "," + ToString(port % 256) + ")"
  }

  function Pasv(ip: string, port: Port): Reply {
    CodeInfo(PASV_OK, PasvInfo(ip, port))
  }

  // the loop of std::replace
  method ReplaceAll(s: string, a: char, b: char) returns (r: string)
    ensures r == Replace(s, a, b)
  {
    r := s;
    var i := 0;
    while i < |r|
      invariant 0 <= i <= |r| == |s|
      invariant forall k :: 0 <= k < |s| ==> r[k] == if k < i && s[k] == a then b else s[k]
    {
      if r[i] == a {
        r := r[i := b];
      }
      i := i + 1;
    }
  }

  /** Response::get_pasv_response: the dots of the address become commas before the reply is streamed. */
  method PasvResponse(address: string, port: Port) returns (reply: Reply)
    ensures reply == Pasv(address, port)
  {
    var ip := ReplaceAll(address, '.', ',');
    var info := PASV_TEXT + "(" + ip + "," + ToString(port / 256) + "," + ToString(port % 256) + ")";
    reply := CodeInfo(PASV_OK, info);
  }

  // ---------------------------------------------------------------- what a reply says

  /** What stands between the first and the last quotation mark. */
  function Quoted(text: string): string {
    var i := IndexOf(text, '"');
    if i == |text| then "" else UpToLast(text[i + 1..], '"')
  }

  // what stands before the last `d`
  function UpToLast(s: string, d: char): string {
    if s == "" then "" else if s[|s| - 1] == d then s[..|s| - 1] else UpToLast(s[..|s| - 1], d)
  }

  lemma {:induction false} UpToLastIs(name: string, d: char, post: string, s: string)
    requires d !in post && s == name + [d] + post
    ensures UpToLast(s, d) == name
  {
    if post == "" {
      assert s[..|s| - 1] == name;
    } else {
      assert s[|s| - 1] == post[|post| - 1] && post[|post| - 1] in post;
      UpToLastIs(name, d, post[..|post| - 1], s[..|s| - 1]);
    }
  }

  lemma QuotedIs(pre: string, name: string, post: string, text: string)
    requires '"' !in pre && '"' !in post && text == pre + ['"'] + name + ['"'] + post
    ensures Quoted(text) == name
  {
    assert forall j :: 0 <= j < |pre| ==> text[j] == pre[j] && pre[j] in pre;
    assert text[|pre|] == '"' && IndexOf(text, '"') == |pre|;
    UpToLastIs(name, '"', post, text[|pre| + 1..]);
  }

  /** A reply whose text names something in quotation marks, after `intro` and before `rest`. */
  lemma NamingReply(code: nat, info: string, intro: string, name: string, rest: string)
    requires '"' !in intro && '"' !in rest && info == intro + ['"'] + name + ['"'] + rest
    ensures Quoted(CodeInfo(code, info).text) == name
  {
    var c := ToString(code);
    assert forall d :: d in c ==> IsDigit(d);
    QuotedIs(c + " " + intro, name, rest + CRLF, CodeInfo(code, info).text);
  }

  /** The reply to PWD names the directory. */
  lemma PwdNames(path: string)
    ensures Pwd(path).code == 257 && Quoted(Pwd(path).text) == path
  {
    var rest := " is the current directory.";
    NamingReply(PWD_OR_MKDIR_OK, "\"" + path + "\" is the current directory.", rest[..0], path, rest);
  }

  /** So does the reply to a CWD that succeeds. */
  lemma CwdNames(path: string)
    ensures Cwd(Some(path)).code == 250 && Quoted(Cwd(Some(path)).text) == path
  {
    var intro, rest := "CWD successful. ", " is the current directory.";
    NamingReply(CWD_OK, "CWD successful. " + "\"" + path + "\" is the current directory.", intro, path, rest);
  }

  lemma ThreeDigits(n: nat)
    requires 100 <= n < 1000
    ensures ToString(n) == [Digit(n / 100), Digit(n / 10 % 10), Digit(n % 10)]
  {
    assert ToString(n) == ToString(n / 10) + [Digit(n % 10)];
    assert ToString(n / 10) == ToString(n / 100) + [Digit(n / 10 % 10)];
    assert ToString(n / 100) == [Digit(n / 100)];
  }

  // ---------------------------------------------------------------- client side

  /** What build_resp makes of one reply line; None where it fails or std::stoi throws. */
  function ParseReply(msg: string): Option<(int, string)> {
    var ret := Split(msg, ' ');
    if |ret| < 2 then None
    else
      match Stoi(ret[0])
      case None => None
      case Some(code) => Some((code, Join(ret[1..], ' ')))
  }

  /** Reply round trip: code and text survive, inner and repeated spaces included. */
  lemma ReplyRoundTrip(code: nat, info: string)
    requires code < INT_BOUND
    ensures ParseReply(CodeInfo(code, info).text) == Some((code, info + CRLF))
  {
    var c, rest := ToString(code), info + CRLF;
    var msg := CodeInfo(code, info).text;
    assert msg == c + ([' '] + rest);
    SplitCons(c, rest, ' ');
    JoinSplit(rest, ' ');
    SplitNonEmpty(rest, ' ');
    var none := c[..0];
    ParseOfToString(code, none, INT_BOUND);
    assert c + none == c;
    assert Split(msg, ' ')[1..] == Split(rest, ' ');
  }

  // ---------------------------------------------------------------- PASV

  /** Length of a match of `n` comma-separated numbers and a closing parenthesis at the
      start of `s`; 0 for no match. */
  function MatchNumbers(s: string, n: nat): (len: nat)
    requires n > 0
    ensures len <= |s|
    ensures len > 0 ==> s[len - 1] == ')'
  {
    var k := |DigitsOf(s)|;
    if k == 0 || k == |s| then 0
    else if n == 1 then (if s[k] == ')' then k + 1 else 0)
    else if s[k] != ',' then 0
    else
      var m := MatchNumbers(s[k + 1..], n - 1);
      if m == 0 then 0 else k + 1 + m
  }

  // the expression \(\d+,...,\d+\) of `n` numbers, anchored at the start of `s`
  function MatchTuple(s: string, n: nat): (len: nat)
    requires n > 0
    ensures len <= |s|
    ensures len > 0 ==> len >= 2
  {
    if s == "" || s[0] != '(' then 0
    else
      var m := MatchNumbers(s[1..], n);
      if m == 0 then 0 else m + 1
  }

  // std::regex_search: the leftmost match
  function SearchTuple(s: string, n: nat): (found: Option<string>)
    requires n > 0
    ensures found.Some? ==> |found.value| >= 2
  {
    var m := MatchTuple(s, n);
    if m > 0 then Some(s[..m])
    else if s == "" then None
    else SearchTuple(s[1..], n)
  }

  // the numbers between the parentheses; the port goes through a uint16_t
  function ParseMatched(matched: string): Option<(string, Port)>
    requires |matched| >= 2
  {
    var parts := Split(matched[1..|matched| - 1], ',');
    if |parts| < 4 then None
    else
      match (Stoi(parts[|parts| - 2]), Stoi(parts[|parts| - 1]))
      case (Some(hi), Some(lo)) => Some((Join(parts[..4], '.'), (hi * 256 + lo) % 0x1_0000))
      case _ => None
  }

  /** Address and port of a PASV reply. */
  function ParsePasv(msg: string): Option<(string, Port)> {
    match SearchTuple(msg, 6)
    case None => None
    case Some(matched) => ParseMatched(matched)
  }

  predicate IsNumber(s: string) { s != "" && AllDigits(s) }

  lemma MatchLast(f: string, rest: string)
    requires IsNumber(f)
    ensures MatchNumbers(f + ")" + rest, 1) == |f| + 1
  {
    var tail := ")" + rest;
    DigitsThen(f, tail);
    assert f + ")" + rest == f + tail;
  }

  lemma MatchMore(f: string, more: string, n: nat)
    requires IsNumber(f) && n > 1 && MatchNumbers(more, n - 1) > 0
    ensures MatchNumbers(f + [','] + more, n) == |f| + 1 + MatchNumbers(more, n - 1)
  {
    var tail := [','] + more;
    DigitsThen(f, tail);
    var s := f + [','] + more;
    assert s == f + tail;
    assert s[|f| + 1..] == more;
  }

  lemma {:induction false} MatchJoined(fields: seq<string>, rest: string)
    requires fields != [] && forall f :: f in fields ==> IsNumber(f)
    ensures MatchNumbers(Join(fields, ',') + ")" + rest, |fields|) == |Join(fields, ',')| + 1
  {
    var first, more := fields[0], fields[1..];
    assert first in fields;
    if more == [] {
      MatchLast(first, rest);
    } else {
      assert forall g :: g in more ==> g in fields;
      MatchJoined(more, rest);
      MatchOneMore(first, Join(more, ','), rest, |fields|);
    }
  }

  lemma MatchOneMore(first: string, joined: string, rest: string, n: nat)
    requires IsNumber(first) && n > 1 && MatchNumbers(joined + ")" + rest, n - 1) == |joined| + 1
    ensures MatchNumbers(first + [','] + joined + ")" + rest, n) == |first + [','] + joined| + 1
  {
    Regroup(first, joined, rest);
    MatchMore(first, joined + ")" + rest, n);
  }

  lemma Regroup(f: string, more: string, rest: string)
    ensures f + [','] + more + ")" + rest == f + [','] + (more + ")" + rest)
  {
  }

  lemma {:induction false} SearchAfter(before: string, tuple: string, n: nat)
    requires '(' !in before
    requires n > 0 && MatchTuple(tuple, n) > 0
    ensures SearchTuple(before + tuple, n) == Some(tuple[..MatchTuple(tuple, n)])
  {
    if before == "" {
      assert before + tuple == tuple;
    } else {
      var s := before + tuple;
      assert s[0] == before[0] && before[0] in before;
      assert s[1..] == before[1..] + tuple;
      SearchAfter(before[1..], tuple, n);
    }
  }

  lemma {:induction false} ReplaceJoin(fields: seq<string>, a: char, b: char)
    requires forall f :: f in fields ==> a !in f
    ensures Replace(Join(fields, a), a, b) == Join(fields, b)
  {
    if |fields| == 1 {
      assert a !in fields[0];
    } else if |fields| > 1 {
      assert fields[0] in fields;
      assert forall g :: g in fields[1..] ==> g in fields;
      ReplaceJoin(fields[1..], a, b);
      ReplaceField(fields[0], Join(fields[1..], a), a, b);
    }
  }

  lemma ReplaceField(f: string, more: string, a: char, b: char)
    requires a !in f
    ensures Replace(f + [a] + more, a, b) == f + [b] + Replace(more, a, b)
  {
    assert forall i :: 0 <= i < |f| ==> f[i] in f;
  }

  /** A dotted address: four numbers joined by dots. */
  predicate IsQuad(quad: seq<string>) {
    |quad| == 4 && forall f :: f in quad ==> IsNumber(f)
  }

  // the six numbers of a 227 reply
  function Six(quad: seq<string>, port: Port): seq<string> {
    quad + [ToString(port / 256), ToString(port % 256)]
  }

  lemma PasvTextOf(quad: seq<string>, port: Port)
    requires IsQuad(quad)
    ensures PasvInfo(Join(quad, '.'), port) == PASV_TEXT + "(" + Join(Six(quad, port), ',') + ")"
  {
    forall f | f in quad ensures '.' !in f {
      assert IsNumber(f);
    }
    ReplaceJoin(quad, '.', ',');
    SixJoined(quad, ToString(port / 256), ToString(port % 256));
    TextPieces(Join(quad, ','), ToString(port / 256), ToString(port % 256));
  }

  lemma SixJoined(quad: seq<string>, hi: string, lo: string)
    requires quad != []
    ensures Join(quad + [hi, lo], ',') == Join(quad, ',') + [','] + hi + [','] + lo
  {
    JoinSnoc(quad, hi, ',');
    JoinSnoc(quad + [hi], lo, ',');
    assert quad + [hi, lo] == quad + [hi] + [lo];
  }

  lemma TextPieces(ip: string, hi: string, lo: string)
    ensures PASV_TEXT + "(" + ip + "," + hi + "," + lo + ")" == PASV_TEXT + "(" + (ip + [','] + hi + [','] + lo) + ")"
  {
  }

  lemma MatchParenthesised(joined: string, rest: string, n: nat)
    requires n > 0 && MatchNumbers(joined + ")" + rest, n) == |joined| + 1
    ensures MatchTuple("(" + joined + ")" + rest, n) == |joined| + 2
  {
    assert ("(" + joined + ")" + rest)[1..] == joined + ")" + rest;
  }

  lemma SearchOfTuple(before: string, joined: string, rest: string, n: nat)
    requires '(' !in before
    requires n > 0 && MatchNumbers(joined + ")" + rest, n) == |joined| + 1
    ensures SearchTuple(before + ("(" + joined + ")" + rest), n) == Some("(" + joined + ")")
  {
    MatchParenthesised(joined, rest, n);
    var tuple := "(" + joined + ")" + rest;
    SearchAfter(before, tuple, n);
    assert tuple[..|joined| + 2] == "(" + joined + ")";
  }

  lemma StoiOfToString(n: nat)
    requires n < INT_BOUND
    ensures Stoi(ToString(n)) == Some(n)
  {
    var none := ToString(n)[..0];
    ParseOfToString(n, none, INT_BOUND);
    assert ToString(n) + none == ToString(n);
  }

  lemma ParseOfMatched(joined: string, six: seq<string>, hi: nat, lo: nat)
    requires Split(joined, ',') == six && |six| == 6
    requires Stoi(six[4]) == Some(hi) && Stoi(six[5]) == Some(lo)
    ensures ParseMatched("(" + joined + ")") == Some((Join(six[..4], '.'), (hi * 256 + lo) % 0x1_0000))
  {
    Parenthesised(joined);
  }

  lemma Parenthesised(joined: string)
    ensures ("(" + joined + ")")[1..|"(" + joined + ")"| - 1] == joined
  {
  }

  lemma SplitNumbers(six: seq<string>)
    requires six != [] && forall f :: f in six ==> IsNumber(f)
    ensures Split(Join(six, ','), ',') == six
  {
    forall f | f in six ensures ',' !in f {
      assert IsNumber(f);
    }
    assert six[|six| - 1] in six;
    SplitJoin(six, ',');
  }

  /** Whatever surrounds the tuple, the client reads its six numbers back. */
  lemma ParseOfTuple(before: string, six: seq<string>, hi: nat, lo: nat, rest: string)
    requires '(' !in before
    requires |six| == 6 && forall f :: f in six ==> IsNumber(f)
    requires Stoi(six[4]) == Some(hi) && Stoi(six[5]) == Some(lo)
    ensures ParsePasv(before + ("(" + Join(six, ',') + ")" + rest))
         == Some((Join(six[..4], '.'), (hi * 256 + lo) % 0x1_0000))
  {
    MatchJoined(six, rest);
    SplitNumbers(six);
    ParseOfMatched(Join(six, ','), six, hi, lo);
    SearchOfTuple(before, Join(six, ','), rest, 6);
  }

  /** PASV round trip, through both of the client's parsing stages. */
  lemma PasvRoundTrip(quad: seq<string>, port: Port)
    requires IsQuad(quad)
    ensures var ip := Join(quad, '.');
            var reply := ParseReply(Pasv(ip, port).text);
            && reply.Some?
            && reply.value.0 == PASV_OK
            && ParsePasv(reply.value.1) == Some((ip, port))
  {
    ReplyRoundTrip(PASV_OK, PasvInfo(Join(quad, '.'), port));
    ParseOfInfo(quad, port);
  }

  lemma ParseOfInfo(quad: seq<string>, port: Port)
    requires IsQuad(quad)
    ensures ParsePasv(PasvInfo(Join(quad, '.'), port) + CRLF) == Some((Join(quad, '.'), port))
  {
    PasvTextOf(quad, port);
    SixNumbers(quad, port);
    NoParenthesis();
    PortBack(port);
    InfoParses(PASV_TEXT, Six(quad, port), quad, port / 256, port % 256, CRLF);
  }

  lemma PortBack(port: Port)
    ensures (port / 256 * 256 + port % 256) % 0x1_0000 == port
  {
  }

  lemma NoParenthesis()
    ensures '(' !in PASV_TEXT
  {
  }

  lemma InfoParses(before: string, six: seq<string>, quad: seq<string>, hi: nat, lo: nat, rest: string)
    requires '(' !in before
    requires |six| == 6 && forall f :: f in six ==> IsNumber(f)
    requires Stoi(six[4]) == Some(hi) && Stoi(six[5]) == Some(lo)
    requires six[..4] == quad
    ensures ParsePasv(before + "(" + Join(six, ',') + ")" + rest) == Some((Join(quad, '.'), (hi * 256 + lo) % 0x1_0000))
  {
    Regroup4(before, Join(six, ','), rest);
    ParseOfTuple(before, six, hi, lo, rest);
  }

  lemma SixNumbers(quad: seq<string>, port: Port)
    requires IsQuad(quad)
    ensures forall f :: f in Six(quad, port) ==> IsNumber(f)
    ensures Stoi(Six(quad, port)[4]) == Some(port / 256) && Stoi(Six(quad, port)[5]) == Some(port % 256)
    ensures Six(quad, port)[..4] == quad
  {
    StoiOfToString(port / 256);
    StoiOfToString(port % 256);
  }

  lemma Regroup4(before: string, joined: string, rest: string)
    ensures before + "(" + joined + ")" + rest == before + ("(" + joined + ")" + rest)
  {
  }
}
