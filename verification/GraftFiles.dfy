/** Writing the grafts file and the list of excluded files, without a video directory (burn-mkisofs-base.c). */
module GraftFiles {
  import opened Flags
  import opened Grafts

  /** A file to appear on the disc; without a URI it is an empty directory. */
  datatype GraftPt = GraftPt(uri: Option<string>, path: Option<string>)

  /** The directory that stands in for empty ones, and how glib turns file:// URIs into paths. */
  datatype Setup = Setup(emptydir: Option<string>, fromUri: string -> Option<string>,
                         fromExcluded: string -> Option<string>)

  datatype Outcome = Written | Refused | Crashed

  predicate Absolute(uri: string) {
    uri != [] && uri[0] == '/'
  }

  predicate IsFileUri(uri: string) {
    "file://" <= uri
  }

  function LocalPath(setup: Setup, uri: string): Option<string> {
    if Absolute(uri) then Some(uri) else setup.fromUri(uri)
  }

  function SourceOf(setup: Setup, g: GraftPt): Option<string> {
    if g.uri.Some? then g.uri else setup.emptydir
  }

  predicate IsLocal(g: GraftPt) {
    g.uri.Some? ==> Absolute(g.uri.value) || IsFileUri(g.uri.value)
  }

  /** A graft that can be written. */
  predicate Good(setup: Setup, g: GraftPt) {
    && IsLocal(g) && g.path.Some?
    && SourceOf(setup, g).Some? && LocalPath(setup, SourceOf(setup, g).value).Some?
  }

  function EntryOf(setup: Setup, g: GraftPt): Entry
    requires Good(setup, g)
  {
    Entry(g.path.value, LocalPath(setup, SourceOf(setup, g).value).value)
  }

  predicate AllGood(setup: Setup, gs: seq<GraftPt>) {
    forall k :: 0 <= k < |gs| ==> Good(setup, gs[k])
  }

  function EntriesOf(setup: Setup, gs: seq<GraftPt>): (r: seq<Entry>)
    requires AllGood(setup, gs)
    ensures |r| == |gs| && forall k :: 0 <= k < |r| ==> r[k] == EntryOf(setup, gs[k])
  {
    seq(|gs|, k requires 0 <= k < |gs| => EntryOf(setup, gs[k]))
  }

  /** The same grafts in another order make the same entries in another order. */
  lemma {:induction false} EntriesReordered(setup: Setup, a: seq<GraftPt>, b: seq<GraftPt>)
    requires multiset(a) == multiset(b) && AllGood(setup, a) && AllGood(setup, b)
    ensures multiset(EntriesOf(setup, a)) == multiset(EntriesOf(setup, b))
    decreases |a|
  {
    if a == [] {
      assert |b| == |multiset(b)| == 0;
    } else {
      assert a[0] in multiset(b);
      var k :| 0 <= k < |b| && b[k] == a[0];
      var rest := Without(b, k);
      TakenOutOfBoth(a, 0, b, k);
      EntriesReordered(setup, Without(a, 0), rest);
      var ea, eb := EntriesOf(setup, a), EntriesOf(setup, b);
      TakenOutOfBoth(ea, 0, eb, k);
      assert EntriesOf(setup, Without(a, 0)) == Without(ea, 0);
      assert EntriesOf(setup, rest) == Without(eb, k);
    }
  }

  function Without<T>(s: seq<T>, k: nat): (r: seq<T>)
    requires k < |s|
    ensures |r| == |s| - 1 && forall i :: 0 <= i < |r| ==> r[i] == s[if i < k then i else i + 1]
  {
    s[..k] + s[k + 1..]
  }

  lemma {:induction false} TakeOut<T>(s: seq<T>, k: nat)
    requires k < |s|
    ensures multiset(s) == multiset(Without(s, k)) + multiset{s[k]}
  {
    assert s == s[..k] + [s[k]] + s[k + 1..];
  }

  lemma {:induction false} TakenOutOfBoth<T>(a: seq<T>, i: nat, b: seq<T>, k: nat)
    requires i < |a| && k < |b| && a[i] == b[k]
    ensures multiset(a) == multiset(b) <==> multiset(Without(a, i)) == multiset(Without(b, k))
  {
    TakeOut(a, i);
    TakeOut(b, k);
    assert multiset(Without(a, i)) == multiset(a) - multiset{a[i]};
    assert multiset(Without(b, k)) == multiset(b) - multiset{a[i]};
  }

  /** One more graft, one more line. */
  lemma {:induction false} OneMore(setup: Setup, gs: seq<GraftPt>, g: GraftPt)
    requires AllGood(setup, gs) && Good(setup, g)
    ensures AllGood(setup, gs + [g])
    ensures WriteAll([], GraftLines(EntriesOf(setup, gs + [g])))
            == WriteLine(WriteAll([], GraftLines(EntriesOf(setup, gs))), GraftLine(EntryOf(setup, g)))
  {
    var lines := GraftLines(EntriesOf(setup, gs + [g]));
    assert lines[..|lines| - 1] == GraftLines(EntriesOf(setup, gs));
  }

  /** The table holds the grafts of `added`, each under its URI. */
  ghost predicate TableOf(table: map<string, seq<GraftPt>>, added: seq<GraftPt>) {
    && (forall g :: g in added ==> g.uri.Some? && g.uri.value in table)
    && (forall uri, g {:trigger multiset(table[uri])[g]} :: uri in table ==>
          multiset(table[uri])[g] == if g.uri == Some(uri) then multiset(added)[g] else 0)
  }

  lemma {:induction false} ListedAreAdded(table: map<string, seq<GraftPt>>, added: seq<GraftPt>, uri: string)
    requires TableOf(table, added) && uri in table
    ensures forall k :: 0 <= k < |table[uri]| ==> table[uri][k] in added && table[uri][k].uri == Some(uri)
  {
    forall k | 0 <= k < |table[uri]| ensures table[uri][k] in added && table[uri][k].uri == Some(uri) {
      var g := table[uri][k];
      assert g in table[uri] && multiset(table[uri])[g] > 0;
      assert g in multiset(added);
    }
  }

  lemma {:induction false} OneFurther<T>(before: seq<T>, list: seq<T>, i: nat)
    requires i < |list|
    ensures before + list[..i] + [list[i]] == before + list[..i + 1]
  {
    assert list[..i + 1] == list[..i] + [list[i]];
  }

  /** How often a graft has been written once the lists of these URIs are. */
  ghost predicate WrittenFrom(done: seq<GraftPt>, before: seq<GraftPt>, added: seq<GraftPt>, uris: set<string>) {
    forall g {:trigger multiset(done)[g]} ::
      multiset(done)[g] == multiset(before)[g]
                           + if g.uri.Some? && g.uri.value in uris then multiset(added)[g] else 0
  }

  lemma {:induction false} OneListMore(table: map<string, seq<GraftPt>>, added: seq<GraftPt>, before: seq<GraftPt>,
                                       was: seq<GraftPt>, done: seq<GraftPt>, uris: set<string>, uri: string)
    requires TableOf(table, added) && uri in table && uri !in uris
    requires WrittenFrom(was, before, added, uris) && done == was + table[uri]
    ensures WrittenFrom(done, before, added, uris + {uri})
  {
    forall g ensures multiset(done)[g] == multiset(before)[g]
                       + if g.uri.Some? && g.uri.value in uris + {uri} then multiset(added)[g] else 0 {
      assert multiset(done)[g] == multiset(was)[g] + multiset(table[uri])[g];
    }
  }

  lemma {:induction false} AllListsWritten(table: map<string, seq<GraftPt>>, added: seq<GraftPt>, before: seq<GraftPt>,
                                           done: seq<GraftPt>)
    requires TableOf(table, added) && WrittenFrom(done, before, added, table.Keys)
    ensures multiset(done) == multiset(before) + multiset(added)
  {
    forall g ensures multiset(done)[g] == (multiset(before) + multiset(added))[g] {
      if g in added {
        assert g.uri.value in table;
      } else {
        assert multiset(added)[g] == 0;
      }
    }
  }

  /** Every graft is either written or waiting; those waiting are files. */
  ghost predicate Shared(done: seq<GraftPt>, added: seq<GraftPt>, gs: seq<GraftPt>) {
    multiset(done) + multiset(added) == multiset(gs) && forall g :: g in added ==> IsLocal(g)
  }

  lemma {:induction false} OneMoreShared(done: seq<GraftPt>, added: seq<GraftPt>, gs: seq<GraftPt>, g: GraftPt)
    requires Shared(done, added, gs)
    ensures Shared(done + [g], added, gs + [g])
    ensures IsLocal(g) ==> Shared(done, added + [g], gs + [g])
  {
  }

  lemma {:induction false} SharedAreGrafts(setup: Setup, done: seq<GraftPt>, added: seq<GraftPt>, gs: seq<GraftPt>)
    requires Shared(done, added, gs) && exists g :: g in added && !Good(setup, g)
    ensures !AllGood(setup, gs)
  {
    var g :| g in added && !Good(setup, g);
    assert g in multiset(gs);
  }

  /** _build_graft_point, once the local path is known. */
  method BuildGraftPoint(path: string, discpath: string) returns (point: string)
    ensures point == GraftLine(Entry(discpath, path))
  {
    var escapedPath := EscapePath(path);
    var escapedDiscpath := EscapePath(discpath);
    point := escapedDiscpath[..escapedDiscpath.Length - 1] + "=" + escapedPath[..escapedPath.Length - 1];
  }

  class MkisofsBase {
    const setup: Setup
    var graftsFile: string
    var excludedFile: string
    var grafts: map<string, seq<GraftPt>>
    ghost var added: seq<GraftPt>
    ghost var done: seq<GraftPt>

    /** The grafts file holds the entries of `done`. */
    ghost predicate FileValid()
      reads this`graftsFile, this`done
    {
      AllGood(setup, done) && graftsFile == WriteAll([], GraftLines(EntriesOf(setup, done)))
    }

    /** The table waits with the grafts of `added`. */
    ghost predicate Valid()
      reads this
    {
      FileValid() && TableOf(grafts, added)
    }

    constructor (setup: Setup)
      ensures Valid() && this.setup == setup && added == [] && done == [] && excludedFile == []
    {
      this.setup := setup;
      graftsFile, excludedFile, grafts := [], [], map[];
      added, done := [], [];
    }

    /** rejilla_mkisofs_base_write_graft where there is a source and a path; a missing local path is not survived. */
    method WriteGraft(g: GraftPt) returns (ok: bool)
      requires FileValid() && SourceOf(setup, g).Some? && g.path.Some? && IsLocal(g)
      modifies this`graftsFile, this`done
      ensures FileValid() && ok == Good(setup, g) && done == if ok then old(done) + [g] else old(done)
    {
      var uri := SourceOf(setup, g).value;
      var path := if Absolute(uri) then Some(uri) else setup.fromUri(uri);
      if path.None? {
        return false;
      }
      var point := BuildGraftPoint(path.value, g.path.value);
      OneMore(setup, done, g);
      graftsFile := WriteLine(graftsFile, point);
      done := done + [g];
      return true;
    }

    /** rejilla_mkisofs_base_empty_directory. */
    method EmptyDirectory(g: GraftPt) returns (outcome: Outcome)
      requires FileValid() && g.uri.None?
      modifies this`graftsFile, this`done
      ensures FileValid() && (outcome == Written <==> Good(setup, g)) && outcome != Refused
      ensures done == if outcome == Written then old(done) + [g] else old(done)
    {
      if setup.emptydir.None? || g.path.None? {
        return Crashed;
      }
      var ok := WriteGraft(g);
      return if ok then Written else Crashed;
    }

    /** rejilla_mkisofs_base_add_graft. */
    method AddGraft(g: GraftPt) returns (ok: bool)
      requires Valid() && g.uri.Some?
      modifies this`grafts, this`added
      ensures Valid() && ok == IsLocal(g) && added == if ok then old(added) + [g] else old(added)
    {
      var uri := g.uri.value;
      if !Absolute(uri) && !IsFileUri(uri) {
        return false;
      }
      var list := if uri in grafts then grafts[uri] else [];
      grafts := grafts[uri := [g] + list];
      added := added + [g];
      return true;
    }

    /** _foreach_write_grafts. */
    method WriteList(uri: string) returns (outcome: Outcome)
      requires FileValid() && uri in grafts
      requires forall k :: 0 <= k < |grafts[uri]| ==> grafts[uri][k].uri.Some? && IsLocal(grafts[uri][k])
      modifies this`graftsFile, this`done
      ensures FileValid()
      ensures outcome == Written ==> done == old(done) + grafts[uri]
      ensures outcome != Written ==> exists g :: g in grafts[uri] && !Good(setup, g)
      ensures outcome == Crashed ==> exists g :: g in grafts[uri] && LocalPath(setup, g.uri.value).None?
    {
      var list, i := grafts[uri], 0;
      while i < |list|
        invariant i <= |list| && FileValid() && done == old(done) + list[..i]
      {
        var g := list[i];
        assert g in grafts[uri] && g.uri.Some? && IsLocal(g);
        if g.path.None? {
          return Refused;
        }
        var ok := WriteGraft(g);
        if !ok {
          return Crashed;
        }
        OneFurther(old(done), list, i);
        i := i + 1;
      }
      assert list[..i] == list;
      return Written;
    }

    /** rejilla_mkisofs_base_write_grafts: the lists of the hash table in whatever order. */
    method WriteGrafts(ghost gs: seq<GraftPt>) returns (outcome: Outcome)
      requires Valid() && Shared(done, added, gs)
      modifies this`graftsFile, this`done
      ensures Valid()
      ensures outcome == Written ==> multiset(done) == multiset(gs)
      ensures outcome != Written ==> !AllGood(setup, gs)
      ensures outcome == Crashed ==> exists g :: g in added && LocalPath(setup, g.uri.value).None?
    {
      var left := grafts.Keys;
      while left != {}
        invariant Valid() && left <= grafts.Keys
        invariant WrittenFrom(done, old(done), added, grafts.Keys - left)
        decreases left
      {
        var uri :| uri in left;
        ghost var was := done;
        ListedAreAdded(grafts, added, uri);
        outcome := WriteList(uri);
        if outcome != Written {
          SharedAreGrafts(setup, old(done), added, gs);
          return;
        }
        OneListMore(grafts, added, old(done), was, done, grafts.Keys - left, uri);
        assert grafts.Keys - (left - {uri}) == grafts.Keys - left + {uri};
        left := left - {uri};
      }
      assert grafts.Keys - left == grafts.Keys;
      AllListsWritten(grafts, added, old(done), done);
      return Written;
    }

    /** rejilla_mkisofs_base_write_excluded. */
    method WriteExcluded(uri: string, ghost paths: seq<string>) returns (ok: bool)
      requires Valid() && excludedFile == WriteAll([], Escaped(paths))
      modifies this`excludedFile
      ensures Valid() && ok == ExcludedPath(setup, uri).Some?
      ensures excludedFile == WriteAll([], Escaped(if ok then paths + [ExcludedPath(setup, uri).value] else paths))
    {
      var localpath := if Absolute(uri) then Some(uri) else if IsFileUri(uri) then setup.fromExcluded(uri) else None;
      if localpath.None? {
        return false;
      }
      var line := EscapeExcluded(localpath.value);
      excludedFile := WriteLine(excludedFile, line);
      OneMoreExcluded(paths, localpath.value);
      return true;
    }

    /** One turn of the first loop of rejilla_mkisofs_base_write_to_files. */
    method AddOne(g: GraftPt, ghost gs: seq<GraftPt>) returns (outcome: Outcome)
      requires Valid() && Shared(done, added, gs)
      modifies this`graftsFile, this`grafts, this`done, this`added
      ensures Valid()
      ensures outcome == Written ==> Shared(done, added, gs + [g])
      ensures outcome != Written ==> !Good(setup, g)
    {
      OneMoreShared(done, added, gs, g);
      if g.uri.None? {
        outcome := EmptyDirectory(g);
      } else {
        var ok := AddGraft(g);
        outcome := if ok then Written else Refused;
      }
    }

    /** Empty directories are written at once, files wait. */
    method AddAll(gs: seq<GraftPt>) returns (outcome: Outcome)
      requires Valid() && done == [] && added == []
      modifies this`graftsFile, this`grafts, this`done, this`added
      ensures Valid()
      ensures outcome == Written ==> Shared(done, added, gs)
      ensures outcome != Written ==> !AllGood(setup, gs)
    {
      outcome := Written;
      var i := 0;
      ghost var handled: seq<GraftPt> := [];
      while i < |gs|
        invariant i <= |gs| && Valid() && outcome == Written && Shared(done, added, handled)
        invariant |handled| == i && forall k :: 0 <= k < i ==> handled[k] == gs[k]
      {
        outcome := AddOne(gs[i], handled);
        if outcome != Written {
          assert !Good(setup, gs[i]);
          return;
        }
        handled := handled + [gs[i]];
        i := i + 1;
      }
      assert handled == gs;
    }

    /** The last loop of rejilla_mkisofs_base_write_to_files. */
    method WriteAllExcluded(excluded: seq<Option<string>>) returns (ok: bool)
      requires Valid() && excludedFile == []
      modifies this`excludedFile
      ensures Valid() && ok == ExcludedPaths(setup, excluded).Some?
      ensures ok ==> excludedFile == WriteAll([], Escaped(ExcludedPaths(setup, excluded).value))
    {
      var i := 0;
      ghost var paths: seq<string> := [];
      while i < |excluded|
        invariant i <= |excluded| && Valid() && ExcludedPaths(setup, excluded[..i]) == Some(paths)
        invariant excludedFile == WriteAll([], Escaped(paths))
      {
        assert excluded[..i + 1][..i] == excluded[..i];
        if excluded[i].Some? {
          ok := WriteExcluded(excluded[i].value, paths);
          if !ok {
            MissingStays(setup, excluded, i + 1);
            return;
          }
          paths := paths + [ExcludedPath(setup, excluded[i].value).value];
        }
        i := i + 1;
      }
      assert excluded[..i] == excluded;
      return true;
    }
  }

  function ExcludedPath(setup: Setup, uri: string): Option<string> {
    if Absolute(uri) then Some(uri) else if IsFileUri(uri) then setup.fromExcluded(uri) else None
  }

  function Escaped(paths: seq<string>): (r: seq<string>)
    ensures |r| == |paths| && forall k :: 0 <= k < |r| ==> r[k] == Escape(paths[k], GLOB_SPECIALS)
  {
    seq(|paths|, k requires 0 <= k < |paths| => Escape(paths[k], GLOB_SPECIALS))
  }

  lemma {:induction false} OneMoreExcluded(paths: seq<string>, path: string)
    ensures WriteAll([], Escaped(paths + [path]))
            == WriteLine(WriteAll([], Escaped(paths)), Escape(path, GLOB_SPECIALS))
  {
    var lines := Escaped(paths + [path]);
    assert lines[..|lines| - 1] == Escaped(paths);
  }

  /** The paths of the excluded files; entries without a URI are skipped. None if one is not local. */
  function ExcludedPaths(setup: Setup, excluded: seq<Option<string>>): Option<seq<string>> {
    if excluded == [] then Some([])
    else
      var before, last := ExcludedPaths(setup, excluded[..|excluded| - 1]), excluded[|excluded| - 1];
      if before.None? then None
      else if last.None? then before
      else if ExcludedPath(setup, last.value).None? then None
      else Some(before.value + [ExcludedPath(setup, last.value).value])
  }

  /** A file of excluded paths reads back as they were, in order, exactly when none holds a newline. */
  lemma {:induction false} ExcludedReadBackIff(paths: seq<string>)
    requires forall k :: 0 <= k < |paths| ==> paths[k] != []
    ensures var lines := FileLines(WriteAll([], Escaped(paths)));
            && (|lines| == |paths| <==> forall k :: 0 <= k < |paths| ==> '\n' !in paths[k])
            && (|lines| == |paths| ==> forall k :: 0 <= k < |paths| ==> Unescape(lines[k]) == paths[k])
  {
    var escaped := Escaped(paths);
    forall k | 0 <= k < |paths|
      ensures ('\n' in escaped[k] <==> '\n' in paths[k]) && Unescape(escaped[k]) == paths[k] && escaped[k] != []
    {
      EscapeKeepsNewlines(paths[k], GLOB_SPECIALS);
      EscapeRoundTrip(paths[k], GLOB_SPECIALS);
    }
    FileLinesAre(escaped);
    assert NoNewline(escaped) <==> forall k :: 0 <= k < |paths| ==> '\n' !in paths[k];
  }

  /** What a run writes. */
  predicate Writable(setup: Setup, grafts: seq<GraftPt>, excluded: seq<Option<string>>) {
    grafts != [] && AllGood(setup, grafts) && ExcludedPaths(setup, excluded).Some?
  }

  lemma {:induction false} MissingStays(setup: Setup, excluded: seq<Option<string>>, i: nat)
    requires i <= |excluded| && ExcludedPaths(setup, excluded[..i]).None?
    ensures ExcludedPaths(setup, excluded).None?
  {
    if i == |excluded| {
      assert excluded[..i] == excluded;
    } else {
      var init := excluded[..|excluded| - 1];
      assert init[..i] == excluded[..i];
      MissingStays(setup, init, i);
    }
  }

  lemma {:induction false} MemberOfSame<T>(a: seq<T>, b: seq<T>, x: T)
    requires multiset(a) == multiset(b) && x in a
    ensures x in b
  {
    assert x in multiset(a);
  }

  predicate AllPlain(entries: seq<Entry>) {
    forall k :: 0 <= k < |entries| ==> Plain(entries[k])
  }

  lemma {:induction false} SameEntries(a: seq<Entry>, b: seq<Entry>)
    requires multiset(a) == multiset(b)
    ensures |a| == |b| && (AllPlain(a) <==> AllPlain(b))
  {
    assert |a| == |multiset(a)| == |multiset(b)| == |b|;
    forall k | 0 <= k < |a| ensures a[k] in b && b[k] in a {
      MemberOfSame(a, b, a[k]);
      MemberOfSame(b, a, b[k]);
    }
  }

  lemma {:induction false} GoodReordered(setup: Setup, done: seq<GraftPt>, grafts: seq<GraftPt>)
    requires multiset(done) == multiset(grafts) && AllGood(setup, done)
    ensures AllGood(setup, grafts)
  {
    forall k | 0 <= k < |grafts| ensures Good(setup, grafts[k]) {
      MemberOfSame(grafts, done, grafts[k]);
    }
  }

  /** The entries of one order of the grafts, read back, against the grafts in another order. */
  lemma {:induction false} ReadBackIff(setup: Setup, done: seq<GraftPt>, grafts: seq<GraftPt>)
    requires multiset(done) == multiset(grafts) && AllGood(setup, done)
    ensures AllGood(setup, grafts)
    ensures multiset(ReadGrafts(WriteAll([], GraftLines(EntriesOf(setup, done))))) == multiset(EntriesOf(setup, grafts))
            <==> AllPlain(EntriesOf(setup, grafts))
  {
    GoodReordered(setup, done, grafts);
    EntriesReordered(setup, done, grafts);
    var written, wanted := EntriesOf(setup, done), EntriesOf(setup, grafts);
    SameEntries(written, wanted);
    GraftsReadBackIff(written);
    var read := ReadGrafts(WriteAll([], GraftLines(written)));
    if multiset(read) == multiset(wanted) {
      SameEntries(read, wanted);
    }
  }

  /** rejilla_mkisofs_base_write_to_files. It succeeds exactly when there are grafts, all of them local and with a
      place on the disc, and all excluded files are local; the grafts file then gives back every graft as often
      as it was asked for, in whatever order the hash table was walked, exactly when no path holds a newline. */
  method WriteToFiles(grafts: seq<GraftPt>, excluded: seq<Option<string>>, setup: Setup)
    returns (outcome: Outcome, graftsFile: string, excludedFile: string)
    ensures outcome == Written <==> Writable(setup, grafts, excluded)
    ensures outcome == Written ==>
              (multiset(ReadGrafts(graftsFile)) == multiset(EntriesOf(setup, grafts))
               <==> AllPlain(EntriesOf(setup, grafts)))
    ensures outcome == Written ==> excludedFile == WriteAll([], Escaped(ExcludedPaths(setup, excluded).value))
  {
    graftsFile, excludedFile := [], [];
    if grafts == [] {
      return Refused, [], [];
    }
    var base := new MkisofsBase(setup);
    outcome := base.AddAll(grafts);
    if outcome == Written {
      outcome := base.WriteGrafts(grafts);
    }
    if outcome != Written {
      return;
    }
    ReadBackIff(setup, base.done, grafts);
    var ok := base.WriteAllExcluded(excluded);
    return if ok then Written else Refused, base.graftsFile, base.excludedFile;
  }
}
