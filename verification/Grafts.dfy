/** The grafts and excluded files handed to mkisofs (burn-mkisofs-base.c): what is written, and how it reads back.
    Strings are C strings without their terminating NUL. */
module Grafts {

  // ----- escaping -----

  const GRAFT_SPECIALS: set<char> := {'\\', '='}
  const GLOB_SPECIALS: set<char> := {'[', ']', '?', '\\'}

  function EscapeChar(c: char, specials: set<char>): (r: string)
    ensures 1 <= |r| <= 2
  {
    if c in specials then ['\\', c] else [c]
  }

  function Escape(s: string, specials: set<char>): string {
    if s == [] then [] else Escape(s[..|s| - 1], specials) + EscapeChar(s[|s| - 1], specials)
  }

  /** A backslash stands for the character after it. */
  function Unescape(s: string): string {
    if s == [] then []
    else if s[0] == '\\' && |s| > 1 then [s[1]] + Unescape(s[2..])
    else [s[0]] + Unescape(s[1..])
  }

  lemma {:induction false} EscapeFromFront(s: string, specials: set<char>)
    requires s != []
    ensures Escape(s, specials) == EscapeChar(s[0], specials) + Escape(s[1..], specials)
  {
    if |s| == 1 {
      assert s[1..] == [] && s[..0] == [];
    } else {
      var init := s[..|s| - 1];
      EscapeFromFront(init, specials);
      assert init[1..] == s[1..][..|s| - 2];
    }
  }

  /** Whatever else is escaped, as long as the backslash is, the text comes back. */
  lemma {:induction false} EscapeRoundTrip(s: string, specials: set<char>)
    requires '\\' in specials
    ensures Unescape(Escape(s, specials)) == s
  {
    if s != [] {
      EscapeFromFront(s, specials);
      EscapeRoundTrip(s[1..], specials);
      var e := Escape(s, specials);
      if s[0] in specials {
        assert e[2..] == Escape(s[1..], specials);
      } else {
        assert e[1..] == Escape(s[1..], specials);
      }
    }
  }

  // ----- excluded paths as patterns -----

  /** Where a class that begins behind an opening bracket ends. */
  function ClassEnd(pattern: string, from: nat): (end: nat)
    requires from <= |pattern|
    ensures from <= end <= |pattern|
    decreases |pattern| - from
  {
    if from == |pattern| || pattern[from] == ']' then from else ClassEnd(pattern, from + 1)
  }

  /** The pattern matches the whole text; `inClass` tells which characters a class in brackets stands for. */
  predicate GlobMatches(pattern: string, text: string, inClass: (string, char) -> bool)
    decreases |pattern| + |text|
  {
    if pattern == [] then text == []
    else if pattern[0] == '\\' && |pattern| > 1 then
      text != [] && text[0] == pattern[1] && GlobMatches(pattern[2..], text[1..], inClass)
    else if pattern[0] == '*' then
      || GlobMatches(pattern[1..], text, inClass)
      || (text != [] && GlobMatches(pattern, text[1..], inClass))
    else if pattern[0] == '?' then text != [] && GlobMatches(pattern[1..], text[1..], inClass)
    else if pattern[0] == '[' && ClassEnd(pattern, 1) < |pattern| then
      var end := ClassEnd(pattern, 1);
      text != [] && inClass(pattern[1..end], text[0]) && GlobMatches(pattern[end + 1..], text[1..], inClass)
    else text != [] && text[0] == pattern[0] && GlobMatches(pattern[1..], text[1..], inClass)
  }

  /** One character of an excluded path. */
  lemma {:induction false} GlobStep(path: string, text: string, inClass: (string, char) -> bool)
    requires path != [] && path[0] != '*'
    ensures GlobMatches(Escape(path, GLOB_SPECIALS), text, inClass) <==>
              text != [] && text[0] == path[0] && GlobMatches(Escape(path[1..], GLOB_SPECIALS), text[1..], inClass)
  {
    EscapeFromFront(path, GLOB_SPECIALS);
    var pattern, rest := Escape(path, GLOB_SPECIALS), Escape(path[1..], GLOB_SPECIALS);
    if path[0] in GLOB_SPECIALS {
      assert pattern[2..] == rest;
    } else {
      assert pattern[1..] == rest;
    }
  }

  lemma {:induction false} GlobStar(path: string, text: string, inClass: (string, char) -> bool)
    requires path != [] && path[0] == '*'
    ensures GlobMatches(Escape(path, GLOB_SPECIALS), text, inClass) <==>
              || GlobMatches(Escape(path[1..], GLOB_SPECIALS), text, inClass)
              || (text != [] && GlobMatches(Escape(path, GLOB_SPECIALS), text[1..], inClass))
  {
    EscapeFromFront(path, GLOB_SPECIALS);
    assert Escape(path, GLOB_SPECIALS)[1..] == Escape(path[1..], GLOB_SPECIALS);
  }

  lemma {:induction false} ExcludesItself(path: string, inClass: (string, char) -> bool)
    ensures GlobMatches(Escape(path, GLOB_SPECIALS), path, inClass)
  {
    if path != [] {
      ExcludesItself(path[1..], inClass);
      if path[0] == '*' {
        GlobStar(path, path, inClass);
        GlobStar(path, path[1..], inClass);
      } else {
        GlobStep(path, path, inClass);
      }
    }
  }

  lemma {:induction false} ExcludesNoOther(path: string, text: string, inClass: (string, char) -> bool)
    requires '*' !in path && GlobMatches(Escape(path, GLOB_SPECIALS), text, inClass)
    ensures text == path
  {
    if path != [] {
      GlobStep(path, text, inClass);
      ExcludesNoOther(path[1..], text[1..], inClass);
      assert path == [path[0]] + path[1..] && text == [text[0]] + text[1..];
    }
  }

  /** With an asterisk, the path without it is excluded as well. */
  lemma {:induction false} ExcludesAnother(path: string, inClass: (string, char) -> bool) returns (text: string)
    requires '*' in path
    ensures text != path && GlobMatches(Escape(path, GLOB_SPECIALS), text, inClass)
  {
    if path[0] == '*' {
      text := path[1..];
      ExcludesItself(text, inClass);
      GlobStar(path, text, inClass);
    } else {
      text := ExcludesAnother(path[1..], inClass);
      text := [path[0]] + text;
      GlobStep(path, text, inClass);
    }
  }

  /** Nothing but this matches the pattern. */
  ghost predicate ExcludesOnly(pattern: string, path: string, inClass: (string, char) -> bool) {
    forall text :: GlobMatches(pattern, text, inClass) ==> text == path
  }

  /** A line of the file of excluded paths is a pattern. It excludes the path it was written for, and nothing but that
      exactly if there is no asterisk in it, which is the one wildcard that is not escaped. */
  lemma {:induction false} ExcludesExactlyIff(path: string, inClass: (string, char) -> bool)
    ensures GlobMatches(Escape(path, GLOB_SPECIALS), path, inClass)
    ensures ExcludesOnly(Escape(path, GLOB_SPECIALS), path, inClass) <==> '*' !in path
  {
    ExcludesItself(path, inClass);
    if '*' in path {
      var text := ExcludesAnother(path, inClass);
      assert GlobMatches(Escape(path, GLOB_SPECIALS), text, inClass) && text != path;
    } else {
      forall text | GlobMatches(Escape(path, GLOB_SPECIALS), text, inClass) ensures text == path {
        ExcludesNoOther(path, text, inClass);
      }
    }
  }

  lemma {:induction false} EscapeLength(s: string, i: nat, specials: set<char>)
    requires i <= |s|
    ensures i <= |Escape(s[..i], specials)| <= |Escape(s, specials)| - (|s| - i)
    decreases |s| - i
  {
    if i < |s| {
      assert s[..i + 1][..i] == s[..i];
      EscapeLength(s, i + 1, specials);
      EscapeLengthUp(s[..i], specials);
    } else {
      assert s[..i] == s;
      EscapeLengthUp(s, specials);
    }
  }

  lemma {:induction false} EscapeLengthUp(s: string, specials: set<char>)
    ensures |s| <= |Escape(s, specials)|
  {
    if s != [] {
      EscapeLengthUp(s[..|s| - 1], specials);
    }
  }

  /** _escape_path: the buffer is measured first, then filled to its last place. */
  method EscapePath(str: string) returns (escaped: array<char>)
    ensures fresh(escaped)
    ensures escaped[..] == Escape(str, GRAFT_SPECIALS) + ['\0']
  {
    var len, s := 1, 0;
    while s < |str|
      invariant s <= |str| && len == |Escape(str[..s], GRAFT_SPECIALS)| + 1
    {
      assert str[..s + 1][..s] == str[..s];
      if str[s] in GRAFT_SPECIALS {
        len := len + 1;
      }
      len := len + 1;
      s := s + 1;
    }
    assert str[..s] == str;
    escaped := FillPath(str, len);
  }

  method FillPath(str: string, len: nat) returns (escaped: array<char>)
    requires len == |Escape(str, GRAFT_SPECIALS)| + 1
    ensures fresh(escaped)
    ensures escaped[..] == Escape(str, GRAFT_SPECIALS) + ['\0']
  {
    escaped := new char[len];
    var s, d := 0, 0;
    EscapeLength(str, 0, GRAFT_SPECIALS);
    while s < |str|
      invariant s <= |str| && d == |Escape(str[..s], GRAFT_SPECIALS)| <= len - 1 - (|str| - s)
      invariant escaped[..d] == Escape(str[..s], GRAFT_SPECIALS)
    {
      assert str[..s + 1][..s] == str[..s];
      EscapeLength(str, s + 1, GRAFT_SPECIALS);
      ghost var was := escaped[..d];
      if str[s] in GRAFT_SPECIALS {
        escaped[d] := '\\';
        d := d + 1;
      }
      escaped[d] := str[s];
      d := d + 1;
      s := s + 1;
      assert escaped[..d] == was + EscapeChar(str[s - 1], GRAFT_SPECIALS);
    }
    assert str[..s] == str;
    escaped[d] := '\0';
  }

  function Specials(s: string, specials: set<char>): (n: nat) {
    if s == [] then 0
    else Specials(s[..|s| - 1], specials) + if s[|s| - 1] in specials then 1 else 0
  }

  lemma {:induction false} SpecialsIs(s: string, specials: set<char>)
    ensures |Escape(s, specials)| == |s| + Specials(s, specials)
    ensures Specials(s, specials) == 0 ==> Escape(s, specials) == s
  {
    if s != [] {
      var init, last := s[..|s| - 1], s[|s| - 1];
      SpecialsIs(init, specials);
      assert |Escape(s, specials)| == |Escape(init, specials)| + |EscapeChar(last, specials)|;
      if Specials(s, specials) == 0 {
        assert Escape(s, specials) == init + [last] == s;
      }
    }
  }

  /** The escaping of rejilla_mkisofs_base_write_excluded, which only makes a new buffer if it must. */
  method EscapeExcluded(localpath: string) returns (r: string)
    ensures r == Escape(localpath, GLOB_SPECIALS)
  {
    var num, forbidden := 0, 0;
    while num < |localpath|
      invariant num <= |localpath| && forbidden == Specials(localpath[..num], GLOB_SPECIALS)
    {
      assert localpath[..num + 1][..num] == localpath[..num];
      if localpath[num] in GLOB_SPECIALS {
        forbidden := forbidden + 1;
      }
      num := num + 1;
    }
    assert localpath[..num] == localpath;
    SpecialsIs(localpath, GLOB_SPECIALS);
    if forbidden == 0 {
      return localpath;
    }
    r := FillExcluded(localpath, num, forbidden);
  }

  /** The writing position runs ahead of the reading position by the number of backslashes so far. */
  method FillExcluded(localpath: string, num: nat, forbidden: nat) returns (r: string)
    requires num == |localpath| && num + forbidden == |Escape(localpath, GLOB_SPECIALS)|
    ensures r == Escape(localpath, GLOB_SPECIALS)
  {
    var tmp := new char[num + forbidden + 1](_ => '\0');
    var character, i := 0, 0;
    EscapeLength(localpath, 0, GLOB_SPECIALS);
    while i < num
      invariant i <= num && character >= 0
      invariant character + i == |Escape(localpath[..i], GLOB_SPECIALS)| <= num + forbidden - (num - i)
      invariant tmp[..character + i] == Escape(localpath[..i], GLOB_SPECIALS)
    {
      assert localpath[..i + 1][..i] == localpath[..i];
      EscapeLength(localpath, i + 1, GLOB_SPECIALS);
      ghost var was := tmp[..character + i];
      if localpath[i] in GLOB_SPECIALS {
        tmp[character + i] := '\\';
        character := character + 1;
      }
      tmp[character + i] := localpath[i];
      i := i + 1;
      assert tmp[..character + i] == was + EscapeChar(localpath[i - 1], GLOB_SPECIALS);
    }
    assert localpath[..i] == localpath;
    r := tmp[..character + i];
  }

  // ----- one line -----

  datatype Entry = Entry(discPath: string, localPath: string)

  function GraftLine(e: Entry): (r: string)
    ensures r != []
  {
    Escape(e.discPath, GRAFT_SPECIALS) + "=" + Escape(e.localPath, GRAFT_SPECIALS)
  }

  /** Cuts at the first '=' that is not escaped. */
  function Cut(line: string): Entry {
    if line == [] then Entry([], [])
    else if line[0] == '=' then Entry([], line[1..])
    else if line[0] == '\\' && |line| > 1 then
      var rest := Cut(line[2..]);
      rest.(discPath := line[..2] + rest.discPath)
    else
      var rest := Cut(line[1..]);
      rest.(discPath := line[..1] + rest.discPath)
  }

  function ReadLine(line: string): Entry {
    Entry(Unescape(Cut(line).discPath), Unescape(Cut(line).localPath))
  }

  lemma {:induction false} NothingEscaped(specials: set<char>)
    ensures Escape([], specials) == []
  {
  }

  lemma {:induction false} CutFindsTheMiddle(path: string, after: string)
    ensures Cut(Escape(path, GRAFT_SPECIALS) + "=" + after) == Entry(Escape(path, GRAFT_SPECIALS), after)
  {
    hide Escape;
    var line := Escape(path, GRAFT_SPECIALS) + "=" + after;
    if path == [] {
      NothingEscaped(GRAFT_SPECIALS);
      assert line[1..] == after;
    } else {
      EscapeFromFront(path, GRAFT_SPECIALS);
      CutFindsTheMiddle(path[1..], after);
      var rest := Escape(path[1..], GRAFT_SPECIALS) + "=" + after;
      if path[0] in GRAFT_SPECIALS {
        assert line[2..] == rest && line[..2] == EscapeChar(path[0], GRAFT_SPECIALS);
      } else {
        assert line[1..] == rest && line[..1] == EscapeChar(path[0], GRAFT_SPECIALS);
      }
    }
  }

  /** Both paths come back from their line, whatever characters they hold. */
  lemma {:induction false} LineRoundTrip(e: Entry)
    ensures ReadLine(GraftLine(e)) == e
  {
    CutFindsTheMiddle(e.discPath, Escape(e.localPath, GRAFT_SPECIALS));
    EscapeRoundTrip(e.discPath, GRAFT_SPECIALS);
    EscapeRoundTrip(e.localPath, GRAFT_SPECIALS);
  }

  // ----- lines in a file -----

  /** One more character in front. */
  function InFront(c: char, lines: seq<string>): (r: seq<string>)
    requires lines != []
    ensures r != []
  {
    if c == '\n' then [[]] + lines else [[c] + lines[0]] + lines[1..]
  }

  function Lines(s: string): (r: seq<string>)
    ensures r != []
  {
    if s == [] then [[]] else InFront(s[0], Lines(s[1..]))
  }

  /** An empty file has no line at all. */
  function FileLines(s: string): seq<string> {
    if s == [] then [] else Lines(s)
  }

  lemma {:induction false} InFrontOfBoth(c: char, a: seq<string>, b: seq<string>)
    requires a != []
    ensures InFront(c, a + b) == InFront(c, a) + b
  {
    assert (a + b)[1..] == a[1..] + b;
  }

  lemma {:induction false} LinesOfTwo(a: string, b: string)
    ensures Lines(a + ['\n'] + b) == Lines(a) + Lines(b)
  {
    var s := a + ['\n'] + b;
    if a == [] {
      assert s[1..] == b;
    } else {
      LinesOfTwo(a[1..], b);
      assert s[1..] == a[1..] + ['\n'] + b;
      assert s[0] == a[0];
      InFrontOfBoth(a[0], Lines(a[1..]), Lines(b));
    }
  }

  lemma {:induction false} OneLineIff(s: string)
    ensures |Lines(s)| == 1 <==> '\n' !in s
    ensures '\n' !in s ==> Lines(s) == [s]
  {
    if s != [] {
      OneLineIff(s[1..]);
      assert s == [s[0]] + s[1..];
    }
  }

  /** _write_line: a newline first, unless the file is still empty. */
  function WriteLine(file: string, line: string): string {
    (if file == [] then [] else file + ['\n']) + line
  }

  function WriteAll(file: string, lines: seq<string>): string {
    if lines == [] then file else WriteLine(WriteAll(file, lines[..|lines| - 1]), lines[|lines| - 1])
  }

  predicate NoNewline(lines: seq<string>) {
    forall k :: 0 <= k < |lines| ==> '\n' !in lines[k]
  }

  lemma {:induction false} NotEmpty(lines: seq<string>)
    requires forall k :: 0 <= k < |lines| ==> lines[k] != []
    ensures WriteAll([], lines) == [] <==> lines == []
  {
  }

  /** Lines read back as they were written exactly when none holds a newline; if one does, there are more lines
      than were written. */
  lemma {:induction false} FileLinesAre(lines: seq<string>)
    requires forall k :: 0 <= k < |lines| ==> lines[k] != []
    ensures |FileLines(WriteAll([], lines))| >= |lines|
    ensures |FileLines(WriteAll([], lines))| == |lines| <==> NoNewline(lines)
    ensures NoNewline(lines) ==> FileLines(WriteAll([], lines)) == lines
  {
    if lines != [] {
      var init, last := lines[..|lines| - 1], lines[|lines| - 1];
      FileLinesAre(init);
      OneLineIff(last);
      LinesOfTwo(WriteAll([], init), last);
      NotEmpty(init);
      var before := WriteAll([], init);
      assert WriteAll([], lines) == if init == [] then last else before + ['\n'] + last;
      if init == [] {
        assert before == [] && FileLines(last) == Lines(last);
      }
      assert FileLines(WriteAll([], lines)) == FileLines(WriteAll([], init)) + Lines(last);
      assert NoNewline(lines) <==> NoNewline(init) && '\n' !in last by {
        assert forall k :: 0 <= k < |init| ==> init[k] == lines[k];
      }
      assert lines == init + [last];
    }
  }

  lemma {:induction false} EscapeKeepsNewlines(s: string, specials: set<char>)
    requires '\n' !in specials && '\\' != '\n'
    ensures '\n' in Escape(s, specials) <==> '\n' in s
  {
    if s != [] {
      EscapeKeepsNewlines(s[..|s| - 1], specials);
      assert s == s[..|s| - 1] + [s[|s| - 1]];
    }
  }

  predicate Plain(e: Entry) {
    '\n' !in e.discPath && '\n' !in e.localPath
  }

  function GraftLines(entries: seq<Entry>): (r: seq<string>)
    ensures |r| == |entries|
    ensures forall k :: 0 <= k < |r| ==> r[k] == GraftLine(entries[k])
  {
    seq(|entries|, k requires 0 <= k < |entries| => GraftLine(entries[k]))
  }

  /** Reading a grafts file. */
  function ReadGrafts(file: string): seq<Entry> {
    var lines := FileLines(file);
    seq(|lines|, k requires 0 <= k < |lines| => ReadLine(lines[k]))
  }

  /** A grafts file reads back as what was written, in order, exactly when no path holds a newline. */
  lemma {:induction false} GraftsReadBackIff(entries: seq<Entry>)
    ensures |ReadGrafts(WriteAll([], GraftLines(entries)))| == |entries|
            <==> forall k :: 0 <= k < |entries| ==> Plain(entries[k])
    ensures (forall k :: 0 <= k < |entries| ==> Plain(entries[k])) ==>
              ReadGrafts(WriteAll([], GraftLines(entries))) == entries
  {
    var lines := GraftLines(entries);
    FileLinesAre(lines);
    forall k | 0 <= k < |entries| ensures '\n' in lines[k] <==> !Plain(entries[k]) {
      EscapeKeepsNewlines(entries[k].discPath, GRAFT_SPECIALS);
      EscapeKeepsNewlines(entries[k].localPath, GRAFT_SPECIALS);
    }
    forall k | 0 <= k < |entries| ensures ReadLine(lines[k]) == entries[k] {
      LineRoundTrip(entries[k]);
    }
    assert NoNewline(lines) <==> forall k :: 0 <= k < |entries| ==> Plain(entries[k]);
  }
}
