/** Paths as texts: the names in them, and what a path means in a directory (std::filesystem). */
module Paths {
  import opened Text

  predicate IsAbsolute(path: string) { path != "" && path[0] == '/' }

  /** The names of a path: what stands between its slashes. */
  function Names(path: string): seq<string>
    decreases |path|
  {
    if path == "" then []
    else
      var i := IndexOf(path, '/');
      (if i == 0 then [] else [path[..i]]) + (if i == |path| then [] else Names(path[i + 1..]))
  }

  predicate EndsIn(s: string, end: string) { |end| <= |s| && s[|s| - |end|..] == end }

  /** No '/' is needed between the directory and what is put behind it. */
  predicate Open(dir: string) { dir == "" || dir[|dir| - 1] == '/' }

  /** What `path` stands for in `dir`: itself if it is absolute. Otherwise the text starts with
      the directory and ends with the path, its names are those of the directory followed by
      those of the path, and there is one character more only where a separator is missing. */
  ghost predicate Resolves(dir: string, path: string, target: string) {
    if IsAbsolute(path) then target == path
    else
      && dir <= target && EndsIn(target, path) && Names(target) == Names(dir) + Names(path)
      && |target| == |dir| + |path| + (if Open(dir) then 0 else 1)
  }

  // ---------------------------------------------------------------- names of a composed path

  lemma OneName(a: string)
    requires '/' !in a
    ensures Names(a) == if a == "" then [] else [a]
  {
    if a != "" {
      assert forall j :: 0 <= j < |a| ==> a[j] in a;
      assert IndexOf(a, '/') == |a|;
      assert a[..|a|] == a;
    }
  }

  // the first name of a composed path
  lemma FirstSlash(a: string, b: string, s: string)
    requires s == a + ['/'] + b
    ensures IndexOf(s, '/') == IndexOf(a, '/')
    ensures s[..IndexOf(a, '/')] == a[..IndexOf(a, '/')]
  {
    assert forall j :: 0 <= j < |a| ==> s[j] == a[j];
    assert s[|a|] == '/';
    var i := IndexOf(a, '/');
    assert s[i] == '/';
    assert forall j :: 0 <= j < i ==> s[j] != '/';
  }

  lemma {:induction false} NamesJoined(a: string, b: string, s: string)
    requires s == a + ['/'] + b
    ensures Names(s) == Names(a) + Names(b)
    decreases |a|
  {
    var i := IndexOf(a, '/');
    FirstSlash(a, b, s);
    if i < |a| {
      assert s[i + 1..] == a[i + 1..] + ['/'] + b;
      NamesJoined(a[i + 1..], b, s[i + 1..]);
    } else {
      assert s[i + 1..] == b;
      OneName(a);
    }
  }

  lemma NamesOpened(dir: string, path: string)
    requires Open(dir)
    ensures Names(dir + path) == Names(dir) + Names(path)
  {
    if dir == "" {
      assert dir + path == path;
    } else {
      var a := dir[..|dir| - 1];
      assert dir == a + ['/'];
      NamesJoined(a, path, dir + path);
      NamesClosed(a, dir, dir[..0]);
    }
  }

  // a slash at the end starts no further name
  lemma NamesClosed(a: string, dir: string, none: string)
    requires dir == a + ['/'] && none == ""
    ensures Names(dir) == Names(a)
  {
    assert dir == a + ['/'] + none;
    NamesJoined(a, none, dir);
    assert Names(none) == [];
  }

  // ---------------------------------------------------------------- only one text resolves

  function Total(names: seq<string>): nat { if names == [] then 0 else |names[0]| + Total(names[1..]) }

  lemma {:induction false} TotalAppend(a: seq<string>, b: seq<string>)
    ensures Total(a + b) == Total(a) + Total(b)
  {
    if a == [] {
      assert a + b == b;
    } else {
      TotalAppend(a[1..], b);
      assert (a + b)[1..] == a[1..] + b;
    }
  }

  function Letters(s: string): nat {
    if s == "" then 0 else (if s[0] == '/' then 0 else 1) + Letters(s[1..])
  }

  lemma {:induction false} LettersAppend(a: string, b: string)
    ensures Letters(a + b) == Letters(a) + Letters(b)
  {
    if a == "" {
      assert a + b == b;
    } else {
      LettersAppend(a[1..], b);
      assert (a + b)[1..] == a[1..] + b;
    }
  }

  lemma {:induction false} AllLetters(s: string)
    requires '/' !in s
    ensures Letters(s) == |s|
  {
    if s != "" {
      assert s[0] in s;
      AllLetters(s[1..]);
    }
  }

  /** The names hold every character of a path that is not a slash. */
  lemma {:induction false} NamesHoldLetters(s: string)
    ensures Total(Names(s)) == Letters(s)
    decreases |s|
  {
    if s != "" {
      var i := IndexOf(s, '/');
      var head, tail := s[..i], s[i..];
      assert s == head + tail;
      AllLetters(head);
      LettersAppend(head, tail);
      var first := if i == 0 then [] else [head];
      assert Total(first) == i;
      if i < |s| {
        NamesHoldLetters(s[i + 1..]);
        assert tail[1..] == s[i + 1..];
        TotalAppend(first, Names(s[i + 1..]));
      } else {
        assert first + [] == first;
      }
    }
  }

  /** A character that is no slash cannot separate. */
  lemma OnlySlashSeparates(dir: string, c: char, path: string)
    requires Names(dir + [c] + path) == Names(dir) + Names(path)
    ensures c == '/'
  {
    NamesHoldLetters(dir + [c] + path);
    NamesHoldLetters(dir);
    NamesHoldLetters(path);
    TotalAppend(Names(dir), Names(path));
    LettersAppend(dir + [c], path);
    LettersAppend(dir, [c]);
  }

  /** Exactly one text is what a path stands for. */
  lemma ResolvesOnce(dir: string, path: string, a: string, b: string)
    requires Resolves(dir, path, a) && Resolves(dir, path, b)
    ensures a == b
  {
    if !IsAbsolute(path) {
      Parts(dir, path, a);
      Parts(dir, path, b);
    }
  }

  lemma Parts(dir: string, path: string, target: string)
    requires !IsAbsolute(path) && Resolves(dir, path, target)
    ensures target == dir + (if Open(dir) then "" else "/") + path
  {
    if Open(dir) {
      assert target == dir + path;
    } else {
      var c := target[|dir|];
      assert target == dir + [c] + path;
      OnlySlashSeparates(dir, c, path);
    }
  }
}
