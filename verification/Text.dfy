/** Characters, decimal numbers, words and delimiter-separated fields: the string
    library calls that both ends of the control connection are built from. */
module Text {
  datatype Option<+T> = None | Some(value: T)

  const CRLF := "\r\n"

  // std::isspace in the "C" locale
  predicate IsSpace(c: char) {
    c == ' ' || c == '\t' || c == '\n' || c == 11 as char || c == 12 as char || c == '\r'
  }

  predicate IsDigit(c: char) { '0' <= c <= '9' }

  function ToUpper(c: char): char {
    if 'a' <= c <= 'z' then (c as int - 32) as char else c
  }

  function ToLower(c: char): char {
    if 'A' <= c <= 'Z' then (c as int + 32) as char else c
  }

  function Upper(s: string): (r: string)
    ensures |r| == |s|
    ensures forall i :: 0 <= i < |s| ==> r[i] == ToUpper(s[i])
  {
    seq(|s|, i requires 0 <= i < |s| => ToUpper(s[i]))
  }

  function Lower(s: string): (r: string)
    ensures |r| == |s|
    ensures forall i :: 0 <= i < |s| ==> r[i] == ToLower(s[i])
  {
    seq(|s|, i requires 0 <= i < |s| => ToLower(s[i]))
  }

  const UPPER_CASE := "ABCDEFGHIJKLMNOPQRSTUVWXYZ"
  const LOWER_CASE := "abcdefghijklmnopqrstuvwxyz"

  /** Folding exchanges the letters of the two alphabets place by place and leaves every other
      character alone. */
  lemma FoldsLetters(c: char)
    ensures forall i :: 0 <= i < 26 ==> ToLower(UPPER_CASE[i]) == LOWER_CASE[i]
    ensures forall i :: 0 <= i < 26 ==> ToUpper(LOWER_CASE[i]) == UPPER_CASE[i]
    ensures c !in UPPER_CASE ==> ToLower(c) == c
    ensures c !in LOWER_CASE ==> ToUpper(c) == c
  {
    assert 'A' <= c <= 'Z' ==> UPPER_CASE[c as int - 'A' as int] == c;
    assert 'a' <= c <= 'z' ==> LOWER_CASE[c as int - 'a' as int] == c;
  }

  /** `s` is the word `lower` in any case: as long as it, and at each place the letter of the
      word in lower or in upper case. */
  predicate AnyCase(s: string, lower: string, upper: string) {
    && |s| == |lower| == |upper|
    && forall i :: 0 <= i < |s| ==> s[i] == lower[i] || s[i] == upper[i]
  }

  predicate NoSpace(s: string) { forall c :: c in s ==> !IsSpace(c) }

  predicate AllDigits(s: string) { forall c :: c in s ==> IsDigit(c) }

  // ---------------------------------------------------------------- lines

  predicate CrlfAt(s: string, i: int) {
    0 <= i < |s| - 1 && s[i] == '\r' && s[i + 1] == '\n'
  }

  /** Length of the first line of `s`, its CRLF included; 0 when no CRLF has arrived yet. */
  function LineEnd(s: string): (n: nat)
    ensures n == 0 || (2 <= n <= |s| && CrlfAt(s, n - 2))
    ensures forall i :: CrlfAt(s, i) ==> 2 <= n <= i + 2
  {
    if |s| < 2 then 0
    else if CrlfAt(s, 0) then 2
    else
      var k := LineEnd(s[1..]);
      assert forall i :: i != 0 && CrlfAt(s, i) ==> CrlfAt(s[1..], i - 1);
      assert k != 0 ==> CrlfAt(s, k - 1);
      if k == 0 then 0 else k + 1
  }

  /** The complete lines of `s`, in order, each with its CRLF. */
  function Lines(s: string): seq<string>
    decreases |s|
  {
    var n := LineEnd(s);
    if n == 0 then [] else [s[..n]] + Lines(s[n..])
  }

  /** What follows the last complete line of `s`. */
  function Remainder(s: string): string
    decreases |s|
  {
    var n := LineEnd(s);
    if n == 0 then s else Remainder(s[n..])
  }

  /** `s` is exactly one line: its only CRLF is at its end. */
  predicate OneLine(s: string) { s != "" && LineEnd(s) == |s| }

  lemma LineEndStable(a: string, b: string)
    requires LineEnd(a) > 0
    ensures LineEnd(a + b) == LineEnd(a)
  {
    var n, m := LineEnd(a), LineEnd(a + b);
    assert CrlfAt(a + b, n - 2);
    assert CrlfAt(a, m - 2);
  }

  lemma FirstLineIsOneLine(s: string)
    requires LineEnd(s) > 0
    ensures OneLine(s[..LineEnd(s)])
  {
    var n := LineEnd(s);
    var a := s[..n];
    assert CrlfAt(a, n - 2);
    assert forall i :: CrlfAt(a, i) ==> CrlfAt(s, i);
  }

  /** Cutting a stream into lines does not depend on how the stream was cut into chunks. */
  lemma {:induction false} LinesAppend(a: string, b: string)
    ensures Lines(a + b) == Lines(a) + Lines(Remainder(a) + b)
    ensures Remainder(a + b) == Remainder(Remainder(a) + b)
    decreases |a|
  {
    var n := LineEnd(a);
    if n > 0 {
      LineEndStable(a, b);
      assert (a + b)[..n] == a[..n];
      assert (a + b)[n..] == a[n..] + b;
      LinesAppend(a[n..], b);
    }
  }

  lemma LinesOfOneLine(s: string, rest: string)
    requires OneLine(s)
    ensures Lines(s + rest) == [s] + Lines(rest)
    ensures Remainder(s + rest) == Remainder(rest)
  {
    LineEndStable(s, rest);
    assert (s + rest)[..|s|] == s;
    assert (s + rest)[|s|..] == rest;
  }

  ghost predicate NoBreak(s: string) { forall i :: !CrlfAt(s, i) }

  lemma OneLineOf(s: string)
    requires NoBreak(s)
    ensures OneLine(s + CRLF)
  {
    var t := s + CRLF;
    assert CrlfAt(t, |s|);
    assert forall i :: i < |s| && CrlfAt(t, i) ==> CrlfAt(s, i);
  }

  // ---------------------------------------------------------------- decimal numbers

  function Digit(d: nat): (c: char)
    requires d < 10
    ensures IsDigit(c)
  {
    ('0' as int + d) as char
  }

  // std::to_string of a non-negative number
  function ToString(n: nat): (s: string)
    ensures s != "" && AllDigits(s)
  {
    if n < 10 then [Digit(n)] else ToString(n / 10) + [Digit(n % 10)]
  }

  function Value(ds: string): nat
    requires AllDigits(ds)
  {
    if ds == "" then 0
    else
      var last := ds[|ds| - 1];
      assert last in ds;
      10 * Value(ds[..|ds| - 1]) + (last as int - '0' as int)
  }

  lemma {:induction false} ValueOfToString(n: nat)
    ensures Value(ToString(n)) == n
  {
    if n >= 10 {
      ValueOfToString(n / 10);
      var s := ToString(n);
      assert s[..|s| - 1] == ToString(n / 10);
    }
  }

  /** The longest prefix of digits. */
  function DigitsOf(s: string): (ds: string)
    ensures AllDigits(ds) && ds <= s
    ensures |ds| < |s| ==> !IsDigit(s[|ds|])
  {
    if s == "" || !IsDigit(s[0]) then "" else [s[0]] + DigitsOf(s[1..])
  }

  lemma {:induction false} DigitsThen(ds: string, rest: string)
    requires AllDigits(ds)
    requires rest == "" || !IsDigit(rest[0])
    ensures DigitsOf(ds + rest) == ds
  {
    if ds == "" {
      assert ds + rest == rest;
    } else {
      assert ds[0] in ds;
      assert (ds + rest)[1..] == ds[1..] + rest;
      DigitsThen(ds[1..], rest);
    }
  }

  function SkipSpace(s: string): (r: string)
    ensures |r| <= |s|
    ensures r != "" ==> !IsSpace(r[0])
  {
    if s != "" && IsSpace(s[0]) then SkipSpace(s[1..]) else s
  }

  /** std::stoi / std::stol: leading blanks, an optional sign, then digits; whatever
      follows is ignored. None where the library throws: no digits, or a value outside
      `-bound .. bound - 1`. */
  function Parse(s: string, bound: int): Option<int> {
    var t := SkipSpace(s);
    var negative := t != "" && t[0] == '-';
    var body := if t != "" && (t[0] == '-' || t[0] == '+') then t[1..] else t;
    var ds := DigitsOf(body);
    if ds == "" then None
    else
      var v: int := Value(ds);
      var v := if negative then -v else v;
      if -bound <= v < bound then Some(v) else None
  }

  const INT_BOUND := 0x8000_0000
  const LONG_BOUND := 0x8000_0000_0000_0000

  function Stoi(s: string): Option<int> { Parse(s, INT_BOUND) }

  function Stol(s: string): Option<int> { Parse(s, LONG_BOUND) }

  /** Parsing gives back a printed number that is in range, whatever non-digit follows it. */
  lemma ParseOfToString(n: nat, rest: string, bound: int)
    requires rest == "" || !IsDigit(rest[0])
    requires bound >= 0
    ensures Parse(ToString(n) + rest, bound) == if n < bound then Some(n) else None
  {
    var ds := ToString(n);
    ValueOfToString(n);
    ParseOfDigits(ds, rest, bound);
  }

  lemma ParseOfDigits(ds: string, rest: string, bound: int)
    requires ds != "" && AllDigits(ds) && bound >= 0
    requires rest == "" || !IsDigit(rest[0])
    ensures Parse(ds + rest, bound) == if Value(ds) < bound then Some(Value(ds)) else None
  {
    var s := ds + rest;
    assert s[0] in ds;
    assert SkipSpace(s) == s;
    DigitsThen(ds, rest);
  }

  // ---------------------------------------------------------------- fields

  /** Index of the first `d` in `s`, or |s|. */
  function IndexOf(s: string, d: char): (i: nat)
    ensures i <= |s|
    ensures i < |s| ==> s[i] == d
    ensures forall j :: 0 <= j < i ==> s[j] != d
  {
    if s == "" || s[0] == d then 0 else 1 + IndexOf(s[1..], d)
  }

  /** The fields std::getline reads from a stream until it is exhausted: a trailing
      delimiter ends the last field and starts no further one. */
  function Split(s: string, d: char): seq<string>
    decreases |s|
  {
    if s == "" then []
    else
      var i := IndexOf(s, d);
      if i == |s| then [s] else [s[..i]] + Split(s[i + 1..], d)
  }

  function Join(fields: seq<string>, d: char): string {
    if fields == [] then ""
    else if |fields| == 1 then fields[0]
    else fields[0] + [d] + Join(fields[1..], d)
  }

  // where the next field starts
  function Beyond(s: string, d: char): string {
    var i := IndexOf(s, d);
    s[if i == |s| then i else i + 1..]
  }

  // one field more has been read
  lemma SplitStep(all: seq<string>, done: seq<string>, s: string, d: char)
    requires s != "" && all == done + Split(s, d)
    ensures |Beyond(s, d)| < |s| && all == done + [s[..IndexOf(s, d)]] + Split(Beyond(s, d), d)
  {
    assert s[..|s|] == s;
    assert IndexOf(s, d) == |s| ==> Beyond(s, d) == "";
  }

  /** The loop of split_string. */
  method SplitString(str: string, dim: char) returns (ret: seq<string>)
    ensures ret == Split(str, dim)
  {
    ret := [];
    var input := str;
    ghost var all := Split(str, dim);
    while input != ""
      invariant all == ret + Split(input, dim)
      decreases |input|
    {
      SplitStep(all, ret, input, dim);
      var i := IndexOf(input, dim);
      ret := ret + [input[..i]];
      input := input[if i == |input| then i else i + 1..];
    }
  }

  lemma {:induction false} JoinSnoc(fields: seq<string>, last: string, d: char)
    ensures Join(fields + [last], d) == if fields == [] then last else Join(fields, d) + [d] + last
  {
    if |fields| > 1 {
      JoinSnoc(fields[1..], last, d);
      assert (fields + [last])[1..] == fields[1..] + [last];
    } else if |fields| == 1 {
      assert (fields + [last])[1..] == [last];
    }
  }

  /** The loop of join_string. */
  method JoinString(fields: seq<string>, dim: char) returns (joined: string)
    ensures joined == Join(fields, dim)
  {
    joined := "";
    for i := 0 to |fields|
      invariant joined == Join(fields[..i], dim) + (if 0 < i < |fields| then [dim] else "")
    {
      JoinSnoc(fields[..i], fields[i], dim);
      assert fields[..i + 1] == fields[..i] + [fields[i]];
      joined := joined + fields[i];
      if i != |fields| - 1 {
        joined := joined + [dim];
      }
    }
    assert fields[..|fields|] == fields;
  }

  lemma {:induction false} SplitNonEmpty(s: string, d: char)
    requires s != ""
    ensures |Split(s, d)| > 0
  {
  }

  /** Joining undoes splitting exactly when the text does not end in the delimiter. */
  lemma {:induction false} JoinSplit(s: string, d: char)
    ensures Join(Split(s, d), d) == s <==> s == "" || s[|s| - 1] != d
    decreases |s|
  {
    if s != "" {
      var i := IndexOf(s, d);
      if i < |s| {
        var t := s[i + 1..];
        JoinSplit(t, d);
        assert s == s[..i] + [d] + t;
        var fs := Split(s, d);
        assert fs[1..] == Split(t, d);
        if t != "" {
          SplitNonEmpty(t, d);
          assert t[|t| - 1] == s[|s| - 1];
          var joined := Join(Split(t, d), d);
          assert Join(fs, d) == s[..i] + [d] + joined;
          assert Join(fs, d)[i + 1..] == joined;
        } else {
          assert |Join(fs, d)| == i;
        }
      }
    }
  }

  /** Splitting undoes joining for fields that do not contain the delimiter and whose last one is not empty. */
  lemma {:induction false} SplitJoin(fields: seq<string>, d: char)
    requires forall f :: f in fields ==> d !in f
    requires fields != [] ==> fields[|fields| - 1] != ""
    ensures Split(Join(fields, d), d) == fields
  {
    if fields != [] {
      var f := fields[0];
      assert f in fields;
      if |fields| == 1 {
        SplitOne(f, d);
      } else {
        SplitJoin(fields[1..], d);
        SplitCons(f, Join(fields[1..], d), d);
        assert f + ([d] + Join(fields[1..], d)) == Join(fields, d);
      }
    }
  }

  lemma SplitOne(f: string, d: char)
    requires f != "" && d !in f
    ensures Split(f, d) == [f]
  {
    assert forall j :: 0 <= j < |f| ==> f[j] in f;
    assert IndexOf(f, d) == |f|;
  }

  lemma SplitCons(f: string, rest: string, d: char)
    requires d !in f
    ensures Split(f + ([d] + rest), d) == [f] + Split(rest, d)
  {
    var s := f + ([d] + rest);
    assert forall j :: 0 <= j < |f| ==> s[j] == f[j] && f[j] in f;
    assert s[|f|] == d && IndexOf(s, d) == |f|;
    assert s[..|f|] == f && s[|f| + 1..] == rest;
  }

  // ---------------------------------------------------------------- words

  /** The longest prefix without whitespace. */
  function Word(s: string): (w: string)
    ensures w <= s && NoSpace(w)
    ensures |w| < |s| ==> IsSpace(s[|w|])
    ensures s != "" && !IsSpace(s[0]) ==> w != ""
  {
    if s == "" || IsSpace(s[0]) then "" else [s[0]] + Word(s[1..])
  }

  /** The words `stream >> word` extracts until the stream is exhausted. */
  function Tokens(s: string): (ts: seq<string>)
    ensures forall t :: t in ts ==> t != "" && NoSpace(t)
    decreases |s|
  {
    var r := SkipSpace(s);
    if r == "" then []
    else
      var w := Word(r);
      [w] + Tokens(r[|w|..])
  }

  /** The extraction loop of handle_read. */
  method ExtractTokens(line: string) returns (ret: seq<string>)
    ensures ret == Tokens(line)
  {
    ret := [];
    var input := SkipSpace(line);
    while input != ""
      invariant input == "" || !IsSpace(input[0])
      invariant Tokens(line) == ret + Tokens(input)
      decreases |input|
    {
      var word := Word(input);
      ret := ret + [word];
      TokensSkip(input[|word|..]);
      input := SkipSpace(input[|word|..]);
    }
  }

  lemma TokensSkip(s: string)
    ensures Tokens(s) == Tokens(SkipSpace(s))
  {
    var r := SkipSpace(s);
    assert SkipSpace(r) == r;
  }

  lemma {:induction false} WordThen(w: string, rest: string)
    requires NoSpace(w)
    requires rest == "" || IsSpace(rest[0])
    ensures Word(w + rest) == w
  {
    if w == "" {
      assert w + rest == rest;
    } else {
      assert w[0] in w;
      assert (w + rest)[1..] == w[1..] + rest;
      WordThen(w[1..], rest);
    }
  }

  lemma TokensThen(w: string, rest: string)
    requires w != "" && NoSpace(w)
    requires rest == "" || IsSpace(rest[0])
    ensures Tokens(w + rest) == [w] + Tokens(rest)
  {
    var s := w + rest;
    assert s[0] in w;
    assert SkipSpace(s) == s;
    WordThen(w, rest);
    assert s[|w|..] == rest;
  }

  lemma TokensAfterSpace(c: char, rest: string)
    requires IsSpace(c)
    ensures Tokens([c] + rest) == Tokens(rest)
  {
    assert ([c] + rest)[1..] == rest;
  }

  lemma {:induction false} SkipSpaceAppend(s: string, blank: string)
    requires forall c :: c in blank ==> IsSpace(c)
    ensures SkipSpace(s) != "" ==> SkipSpace(s + blank) == SkipSpace(s) + blank
    ensures SkipSpace(s) == "" ==> SkipSpace(s + blank) == ""
    decreases |s| + |blank|
  {
    if s == "" {
      if blank != "" {
        assert s + blank == blank;
        assert blank[0] in blank;
        SkipSpaceAppend(s, blank[1..]);
        assert s + blank[1..] == blank[1..];
      }
    } else if IsSpace(s[0]) {
      SkipSpaceAppend(s[1..], blank);
      assert (s + blank)[1..] == s[1..] + blank;
    }
  }

  /** Trailing whitespace, such as the CRLF itself, does not change the words of a line. */
  lemma {:induction false} TokensTrailing(s: string, blank: string)
    requires forall c :: c in blank ==> IsSpace(c)
    ensures Tokens(s + blank) == Tokens(s)
    decreases |s|
  {
    SkipSpaceAppend(s, blank);
    var r := SkipSpace(s);
    if r != "" {
      var w := Word(r);
      var tail := r[|w|..];
      assert r + blank == w + (tail + blank);
      if tail == "" {
        assert tail + blank == blank;
        assert blank != "" ==> blank[0] in blank;
      }
      WordThen(w, tail + blank);
      assert (r + blank)[|w|..] == tail + blank;
      TokensTrailing(tail, blank);
    }
  }

  /** Words joined by single spaces are read back as the same words. */
  lemma {:induction false} TokensJoin(ts: seq<string>)
    requires forall t :: t in ts ==> t != "" && NoSpace(t)
    ensures Tokens(Join(ts, ' ')) == ts
  {
    if |ts| == 1 {
      assert ts[0] in ts;
      TokensThen(ts[0], "");
      assert ts[0] + "" == ts[0];
    } else if |ts| > 1 {
      assert ts[0] in ts;
      assert forall t :: t in ts[1..] ==> t in ts;
      TokensJoin(ts[1..]);
      TokensCons(ts[0], Join(ts[1..], ' '));
    }
  }

  lemma TokensCons(w: string, rest: string)
    requires w != "" && NoSpace(w)
    ensures Tokens(w + [' '] + rest) == [w] + Tokens(rest)
  {
    var tail := [' '] + rest;
    TokensAfterSpace(' ', rest);
    TokensThen(w, tail);
    assert w + tail == w + [' '] + rest;
  }

  /** Joined words contain no white space other than single spaces between them. */
  lemma {:induction false} JoinHasNoBreak(ts: seq<string>)
    requires forall t :: t in ts ==> NoSpace(t)
    ensures forall c :: c in Join(ts, ' ') ==> c == ' ' || !IsSpace(c)
  {
    if |ts| == 1 {
      assert ts[0] in ts;
    } else if |ts| > 1 {
      JoinHasNoBreak(ts[1..]);
      assert ts[0] in ts;
    }
  }

  // ---------------------------------------------------------------- what the words of a text are

  // tab, line feed, vertical tab, form feed, carriage return, blank
  predicate IsWhite(c: char) { 9 <= c as int <= 13 || c as int == 32 }

  predicate AllWhite(s: string) { forall c :: c in s ==> IsWhite(c) }

  predicate NoneWhite(s: string) { forall c :: c in s ==> !IsWhite(c) }

  /** The text is made of these words, with white space between them and around them. */
  ghost predicate Spells(s: string, words: seq<string>) {
    if words == [] then AllWhite(s)
    else exists k :: StartsAt(s, words[0], k) && Spells(s[k + |words[0]|..], words[1..])
  }

  // white space, then the word, and then white space or the end
  ghost predicate StartsAt(s: string, w: string, k: int) {
    && 0 <= k && k + |w| <= |s| && AllWhite(s[..k]) && s[k..k + |w|] == w && w != "" && NoneWhite(w)
    && (k + |w| < |s| ==> IsWhite(s[k + |w|]))
  }

  lemma {:induction false} SkipSpaceSplits(s: string)
    ensures var k := |s| - |SkipSpace(s)|; s[k..] == SkipSpace(s) && AllWhite(s[..k])
  {
    if s != "" && IsSpace(s[0]) {
      SkipSpaceSplits(s[1..]);
      var k := |s| - |SkipSpace(s)|;
      assert s[1..][k - 1..] == s[k..];
      assert s[..k] == [s[0]] + s[1..][..k - 1];
    }
  }

  lemma {:induction false} SkipSpaceIs(s: string, k: nat)
    requires k <= |s| && AllWhite(s[..k]) && (k < |s| ==> !IsWhite(s[k]))
    ensures SkipSpace(s) == s[k..]
  {
    if k > 0 {
      assert s[0] in s[..k] && IsSpace(s[0]);
      assert forall c :: c in s[1..][..k - 1] ==> c in s[..k];
      SkipSpaceIs(s[1..], k - 1);
      assert s[1..][k - 1..] == s[k..];
    }
  }

  lemma NoTokensIff(s: string)
    ensures AllWhite(s) <==> Tokens(s) == []
  {
    assert s[..|s|] == s;
    if AllWhite(s) {
      SkipSpaceIs(s, |s|);
    } else {
      SkipSpaceSplits(s);
    }
  }

  /** The words of a text are exactly those that spell it. */
  lemma {:induction false} TokensIff(s: string, words: seq<string>)
    ensures Spells(s, words) <==> words == Tokens(s)
    decreases |words|
  {
    if words == [] {
      NoTokensIff(s);
    } else {
      var w := words[0];
      if Spells(s, words) {
        var k :| StartsAt(s, w, k) && Spells(s[k + |w|..], words[1..]);
        FirstToken(s, w, k);
        TokensIff(s[k + |w|..], words[1..]);
      } else if words == Tokens(s) {
        var k := FirstStarts(s, w);
        FirstToken(s, w, k);
        assert words[1..] == Tokens(s[k + |w|..]);
        TokensIff(s[k + |w|..], words[1..]);
      }
    }
  }

  lemma FirstToken(s: string, w: string, k: int)
    requires StartsAt(s, w, k)
    ensures Tokens(s) == [w] + Tokens(s[k + |w|..])
  {
    var tail := s[k + |w|..];
    assert s[k] == w[0] && w[0] in w;
    SkipSpaceIs(s, k);
    assert s[k..] == w + tail;
    assert forall c :: c in w ==> !IsSpace(c);
    WordThen(w, tail);
  }

  lemma FirstStarts(s: string, w: string) returns (k: nat)
    requires Tokens(s) != [] && Tokens(s)[0] == w
    ensures StartsAt(s, w, k)
  {
    SkipSpaceSplits(s);
    var r := SkipSpace(s);
    k := |s| - |r|;
    assert w == Word(r) && s[k..] == r;
    assert s[k..k + |w|] == r[..|w|];
    assert |w| < |r| ==> s[k + |w|] == r[|w|];
  }

  // ---------------------------------------------------------------- streams

  function Concat(parts: seq<string>): string {
    if parts == [] then "" else Concat(parts[..|parts| - 1]) + parts[|parts| - 1]
  }

  lemma ConcatSnoc(parts: seq<string>, p: string)
    ensures Concat(parts + [p]) == Concat(parts) + p
  {
    assert (parts + [p])[..|parts|] == parts;
  }

  lemma {:induction false} ConcatAppend(a: seq<string>, b: seq<string>)
    ensures Concat(a + b) == Concat(a) + Concat(b)
  {
    if b == [] {
      assert a + b == a;
    } else {
      var init := b[..|b| - 1];
      ConcatAppend(a, init);
      assert (a + b)[..|a + b| - 1] == a + init;
    }
  }

  /** Lines sent one after the other are cut back into the same lines. */
  lemma {:induction false} LinesOfConcat(parts: seq<string>)
    requires forall p :: p in parts ==> OneLine(p)
    ensures Lines(Concat(parts)) == parts
    ensures Remainder(Concat(parts)) == ""
  {
    if parts != [] {
      var init, last := parts[..|parts| - 1], parts[|parts| - 1];
      assert forall p :: p in init ==> p in parts;
      LinesOfConcat(init);
      assert last in parts;
      LinesSnoc(Concat(init), last);
      assert init + [last] == parts;
    }
  }

  lemma LinesSnoc(s: string, last: string)
    requires Remainder(s) == "" && OneLine(last)
    ensures Lines(s + last) == Lines(s) + [last]
    ensures Remainder(s + last) == ""
  {
    var none := s[..0];
    LinesAppend(s, last);
    LinesOfOneLine(last, none);
    assert last + none == last;
    assert Remainder(s) + last == last;
  }
}
