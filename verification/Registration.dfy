/** Registering image caps (rejilla-caps-plugin.c). A request may cover only part of an existing caps, which
    is then split in two; the new half inherits links, tests and processing plugins. Caps are named by
    number, the caps list holds the names in list order. */
module Registration {
  import opened Flags
  import opened Plugins
  import opened Caps

  datatype Test = Test(checksum: nat, links: seq<Link>)

  datatype State = State(nodes: map<nat, Caps>, tests: seq<Test>)

  // ----- what a graph means -----

  /** The smallest thing a caps stands for: one I/O way of one image format, or of one other track type. */
  datatype Cell = FormatCell(format: ImageFormat, io: Io) | TypeCell(typ: TrackType, io: Io)

  predicate HasCell(caps: Caps, cell: Cell) {
    && cell.io in caps.io
    && match cell
       case FormatCell(format, _) => caps.typ.Image? && format in caps.typ.format
       case TypeCell(typ, _) => !caps.typ.Image? && caps.typ == typ
  }

  /** The link ends at this cell; a blanking link ends nowhere. */
  predicate EndsAt(st: State, target: Option<nat>, cell: Option<Cell>) {
    match target
    case None => cell.None?
    case Some(t) => cell.Some? && t in st.nodes && HasCell(st.nodes[t], cell.value)
  }

  predicate EdgeAt(st: State, c: nat, link: Link, output: Cell, input: Option<Cell>, plugin: Plugin) {
    && c in st.nodes && HasCell(st.nodes[c], output)
    && link in st.nodes[c].links
    && plugin in link.plugins
    && EndsAt(st, link.target, input)
  }

  /** The plugin turns this input cell into this output cell. */
  ghost predicate Edge(st: State, output: Cell, input: Option<Cell>, plugin: Plugin) {
    exists c, link :: EdgeAt(st, c, link, output, input, plugin)
  }

  ghost predicate TestEdge(st: State, t: nat, input: Cell, plugin: Plugin)
    requires t < |st.tests|
  {
    exists link :: link in st.tests[t].links && plugin in link.plugins && EndsAt(st, link.target, Some(input))
  }

  ghost predicate Modifies(st: State, cell: Cell, plugin: Plugin) {
    exists c :: c in st.nodes && HasCell(st.nodes[c], cell) && plugin in st.nodes[c].modifiers
  }

  ghost predicate SameEdges(a: State, b: State) {
    forall output, input, plugin :: Edge(a, output, input, plugin) <==> Edge(b, output, input, plugin)
  }

  ghost predicate SameTests(a: State, b: State) {
    && |a.tests| == |b.tests|
    && forall t, input, plugin :: 0 <= t < |a.tests| ==>
      (TestEdge(a, t, input, plugin) <==> TestEdge(b, t, input, plugin))
  }

  ghost predicate SameModifiers(a: State, b: State) {
    forall cell, plugin :: Modifies(a, cell, plugin) <==> Modifies(b, cell, plugin)
  }

  ghost predicate SameMeaning(a: State, b: State) {
    SameEdges(a, b) && SameTests(a, b) && SameModifiers(a, b)
  }

  predicate Closed(st: State) {
    && (forall c, k :: c in st.nodes && 0 <= k < |st.nodes[c].links| && st.nodes[c].links[k].target.Some?
                       ==> st.nodes[c].links[k].target.value in st.nodes)
    && (forall t, k :: 0 <= t < |st.tests| && 0 <= k < |st.tests[t].links| && st.tests[t].links[k].target.Some?
                       ==> st.tests[t].links[k].target.value in st.nodes)
  }

  // ----- splitting a caps -----

  /** Links that led to src, once more for dest, in front of the old ones (latest first). */
  function Redirected(links: seq<Link>, src: nat, dest: nat): seq<Link> {
    Copies(links, src, dest) + links
  }

  function Copies(links: seq<Link>, src: nat, dest: nat): (r: seq<Link>)
    ensures forall l :: l in r ==> l.target == Some(dest) && l.(target := Some(src)) in links
    ensures forall l :: l in links && l.target == Some(src) ==> l.(target := Some(dest)) in r
  {
    if links == [] then []
    else
      var last, rest := links[|links| - 1], Copies(links[..|links| - 1], src, dest);
      assert links == links[..|links| - 1] + [last];
      if last.target == Some(src) then [last.(target := Some(dest))] + rest else rest
  }

  lemma {:induction false} ReversedNext(own: seq<Link>, k: nat, tail: seq<Link>)
    requires k < |own|
    ensures LinksReversed(own[..k + 1]) + tail == [own[k]] + (LinksReversed(own[..k]) + tail)
  {
    assert own[..k + 1][..k] == own[..k] && own[..k + 1][k] == own[k];
    var rest := LinksReversed(own[..k]);
    assert [own[k]] + rest + tail == [own[k]] + (rest + tail);
  }

  lemma {:induction false} CopiesNext(links: seq<Link>, k: nat, src: nat, dest: nat, tail: seq<Link>)
    requires k < |links|
    ensures Copies(links[..k + 1], src, dest) + tail
            == (if links[k].target == Some(src) then [links[k].(target := Some(dest))] else [])
               + (Copies(links[..k], src, dest) + tail)
  {
    assert links[..k + 1][..k] == links[..k] && links[..k + 1][k] == links[k];
    var rest := Copies(links[..k], src, dest);
    assert [links[k].(target := Some(dest))] + rest + tail == [links[k].(target := Some(dest))] + (rest + tail);
    assert [] + (rest + tail) == rest + tail;
  }

  function LinksReversed(s: seq<Link>): (r: seq<Link>)
    ensures forall x :: x in r <==> x in s
  {
    if s == [] then []
    else
      assert s == s[..|s| - 1] + [s[|s| - 1]];
      [s[|s| - 1]] + LinksReversed(s[..|s| - 1])
  }

  /** The state in which dest is a copy of src for everything that leads to or from src, kept standing for
      `kept` and dest for `given`. */
  function Split(st: State, src: nat, dest: nat, kept: Caps, given: Caps): State
    requires src in st.nodes
  {
    State(
      map c | c in st.nodes.Keys + {dest} ::
        if c == dest then given.(links := LinksReversed(st.nodes[src].links), modifiers := st.nodes[src].modifiers)
        else if c == src then kept.(links := st.nodes[src].links, modifiers := st.nodes[src].modifiers)
        else st.nodes[c].(links := Redirected(st.nodes[c].links, src, dest)),
      seq(|st.tests|, t requires 0 <= t < |st.tests| =>
        st.tests[t].(links := Redirected(st.tests[t].links, src, dest))))
  }

  /** kept and given share out the cells of src. */
  ghost predicate Partition(src: Caps, kept: Caps, given: Caps) {
    forall cell :: HasCell(src, cell) <==> HasCell(kept, cell) || HasCell(given, cell)
  }

  ghost predicate SelfLinked(st: State, src: nat)
    requires src in st.nodes
  {
    exists link :: link in st.nodes[src].links && link.target == Some(src) && link.plugins != []
  }

  lemma {:induction false} SplitEdgeBack(st: State, src: nat, dest: nat, kept: Caps, given: Caps, c: nat, link: Link,
                                         output: Cell, input: Option<Cell>, plugin: Plugin)
    requires src in st.nodes && dest !in st.nodes && Closed(st) && Partition(st.nodes[src], kept, given)
    requires EdgeAt(Split(st, src, dest, kept, given), c, link, output, input, plugin)
    ensures Edge(st, output, input, plugin)
  {
    var c0 := if c == dest then src else c;
    var link0 := if link.target == Some(dest) then link.(target := Some(src)) else link;
    assert link0 in st.nodes[c0].links;
    assert EdgeAt(st, c0, link0, output, input, plugin);
  }

  lemma {:induction false} SplitEdgeForth(st: State, src: nat, dest: nat, kept: Caps, given: Caps, c: nat, link: Link,
                                          output: Cell, input: Option<Cell>, plugin: Plugin)
    requires src in st.nodes && dest !in st.nodes && Closed(st) && Partition(st.nodes[src], kept, given)
    requires !SelfLinked(st, src)
    requires EdgeAt(st, c, link, output, input, plugin)
    ensures Edge(Split(st, src, dest, kept, given), output, input, plugin)
  {
    var after := Split(st, src, dest, kept, given);
    var c1 := if c == src && !HasCell(kept, output) then dest else c;
    var link1 := if link.target == Some(src) && !HasCell(kept, input.value) then link.(target := Some(dest)) else link;
    assert link1 in after.nodes[c1].links;
    assert EdgeAt(after, c1, link1, output, input, plugin);
  }

  lemma {:induction false} SplitKeepsEdges(st: State, src: nat, dest: nat, kept: Caps, given: Caps)
    requires src in st.nodes && dest !in st.nodes && Closed(st) && Partition(st.nodes[src], kept, given)
    requires !SelfLinked(st, src)
    ensures SameEdges(st, Split(st, src, dest, kept, given))
  {
    var after := Split(st, src, dest, kept, given);
    forall output, input, plugin
      ensures Edge(st, output, input, plugin) <==> Edge(after, output, input, plugin)
    {
      if Edge(st, output, input, plugin) {
        var c, link :| EdgeAt(st, c, link, output, input, plugin);
        SplitEdgeForth(st, src, dest, kept, given, c, link, output, input, plugin);
      }
      if Edge(after, output, input, plugin) {
        var c, link :| EdgeAt(after, c, link, output, input, plugin);
        SplitEdgeBack(st, src, dest, kept, given, c, link, output, input, plugin);
      }
    }
  }

  lemma {:induction false} SplitKeepsTests(st: State, src: nat, dest: nat, kept: Caps, given: Caps)
    requires src in st.nodes && dest !in st.nodes && Closed(st) && Partition(st.nodes[src], kept, given)
    ensures SameTests(st, Split(st, src, dest, kept, given))
  {
    var after := Split(st, src, dest, kept, given);
    forall t, input, plugin | 0 <= t < |st.tests|
      ensures TestEdge(st, t, input, plugin) <==> TestEdge(after, t, input, plugin)
    {
      if TestEdge(st, t, input, plugin) {
        var link :| link in st.tests[t].links && plugin in link.plugins && EndsAt(st, link.target, Some(input));
        var link1 := if link.target == Some(src) && !HasCell(kept, input) then link.(target := Some(dest)) else link;
        assert link1 in after.tests[t].links && EndsAt(after, link1.target, Some(input));
      }
      if TestEdge(after, t, input, plugin) {
        var link :| link in after.tests[t].links && plugin in link.plugins && EndsAt(after, link.target, Some(input));
        var link0 := if link.target == Some(dest) then link.(target := Some(src)) else link;
        assert link0 in st.tests[t].links && EndsAt(st, link0.target, Some(input));
      }
    }
  }

  lemma {:induction false} SplitKeepsModifiers(st: State, src: nat, dest: nat, kept: Caps, given: Caps)
    requires src in st.nodes && dest !in st.nodes && Partition(st.nodes[src], kept, given)
    ensures SameModifiers(st, Split(st, src, dest, kept, given))
  {
    var after := Split(st, src, dest, kept, given);
    forall cell, plugin
      ensures Modifies(st, cell, plugin) <==> Modifies(after, cell, plugin)
    {
      if Modifies(st, cell, plugin) {
        var c :| c in st.nodes && HasCell(st.nodes[c], cell) && plugin in st.nodes[c].modifiers;
        var c1 := if c == src && !HasCell(kept, cell) then dest else c;
        assert c1 in after.nodes && HasCell(after.nodes[c1], cell);
      }
      if Modifies(after, cell, plugin) {
        var c :| c in after.nodes && HasCell(after.nodes[c], cell) && plugin in after.nodes[c].modifiers;
        var c0 := if c == dest then src else c;
        assert c0 in st.nodes && HasCell(st.nodes[c0], cell);
      }
    }
  }

  /** No two caps stand for the same cell. */
  ghost predicate DistinctCells(st: State) {
    forall c, d, cell :: c in st.nodes && d in st.nodes && HasCell(st.nodes[c], cell) && HasCell(st.nodes[d], cell)
                         ==> c == d
  }

  /** A self-link is copied into the new half, but the half that was kept never learns to lead to the new one. */
  lemma {:induction false} SelfLinkLosesEdge(st: State, src: nat, dest: nat, kept: Caps, given: Caps, link: Link,
                                             plugin: Plugin, x: Cell, y: Cell)
    requires src in st.nodes && dest !in st.nodes && Closed(st) && Partition(st.nodes[src], kept, given)
    requires DistinctCells(st)
    requires link in st.nodes[src].links && link.target == Some(src) && plugin in link.plugins
    requires HasCell(kept, x) && !HasCell(given, x) && HasCell(given, y) && !HasCell(kept, y)
    ensures Edge(st, x, Some(y), plugin) && !Edge(Split(st, src, dest, kept, given), x, Some(y), plugin)
  {
    assert EdgeAt(st, src, link, x, Some(y), plugin);
    var after := Split(st, src, dest, kept, given);
    forall c, l ensures !EdgeAt(after, c, l, x, Some(y), plugin) {
    }
  }

  /** A proper split preserves the meaning of the graph exactly when the caps has no link to itself. */
  lemma {:induction false} SplitPreservesMeaningIff(st: State, src: nat, dest: nat, kept: Caps, given: Caps)
    requires src in st.nodes && dest !in st.nodes && Closed(st) && Partition(st.nodes[src], kept, given)
    requires DistinctCells(st)
    requires exists x :: HasCell(kept, x) && !HasCell(given, x)
    requires exists y :: HasCell(given, y) && !HasCell(kept, y)
    ensures SameMeaning(st, Split(st, src, dest, kept, given)) <==> !SelfLinked(st, src)
  {
    if SelfLinked(st, src) {
      var link :| link in st.nodes[src].links && link.target == Some(src) && link.plugins != [];
      var x :| HasCell(kept, x) && !HasCell(given, x);
      var y :| HasCell(given, y) && !HasCell(kept, y);
      SelfLinkLosesEdge(st, src, dest, kept, given, link, link.plugins[0], x, y);
    } else {
      SplitKeepsEdges(st, src, dest, kept, given);
      SplitKeepsTests(st, src, dest, kept, given);
      SplitKeepsModifiers(st, src, dest, kept, given);
    }
  }

  lemma {:induction false} SplitStaysClosed(st: State, src: nat, dest: nat, kept: Caps, given: Caps)
    requires src in st.nodes && dest !in st.nodes && Closed(st)
    ensures Closed(Split(st, src, dest, kept, given))
  {
    var after := Split(st, src, dest, kept, given);
    forall c, k | c in after.nodes && 0 <= k < |after.nodes[c].links| && after.nodes[c].links[k].target.Some?
      ensures after.nodes[c].links[k].target.value in after.nodes
    {
      assert after.nodes[c].links[k] in after.nodes[c].links;
    }
    forall t, k | 0 <= t < |after.tests| && 0 <= k < |after.tests[t].links| && after.tests[t].links[k].target.Some?
      ensures after.tests[t].links[k].target.value in after.nodes
    {
      assert after.tests[t].links[k] in after.tests[t].links;
    }
  }

  ghost predicate NoSelfLinks(st: State) {
    forall c :: c in st.nodes ==> !SelfLinked(st, c)
  }

  /** Splitting makes no caps link to itself. */
  lemma {:induction false} SplitAddsNoSelfLink(st: State, src: nat, dest: nat, kept: Caps, given: Caps)
    requires src in st.nodes && dest !in st.nodes && Closed(st) && NoSelfLinks(st)
    ensures NoSelfLinks(Split(st, src, dest, kept, given))
  {
    var after := Split(st, src, dest, kept, given);
    forall c | c in after.nodes ensures !SelfLinked(after, c) {
      if c != dest {
        assert forall l :: l in after.nodes[c].links && l.target == Some(c) ==> l in st.nodes[c].links;
        assert !SelfLinked(st, c);
      }
    }
  }

  // ----- keeping the list sorted -----

  function TypeRank(typ: TrackType): nat {
    match typ
    case Disc(_) => 0
    case Stream(_) => 1
    case Image(_) => 2
    case Data(_) => 3
    case NoTrack => 4
  }

  /** The format as the number the source compares. */
  function FormatNumber(format: set<ImageFormat>): nat {
    (if Bin in format then 1 else 0) + (if Cue in format then 2 else 0)
    + (if Clone in format then 4 else 0) + (if Cdrdao in format then 8 else 0)
  }

  lemma SmallerFormatSmallerNumber(a: set<ImageFormat>, b: set<ImageFormat>)
    requires a < b
    ensures FormatNumber(a) < FormatNumber(b)
  {
    var x :| x in b && x !in a;
    assert x == Bin || x == Cue || x == Clone || x == Cdrdao;
  }

  /** The order of the caps list; within the other track types it is left to a number the caller supplies. */
  predicate Before(rank: TrackType -> int, a: TrackType, b: TrackType) {
    TypeRank(a) < TypeRank(b)
    || (TypeRank(a) == TypeRank(b)
        && if a.Image? then FormatNumber(a.format) <= FormatNumber(b.format) else rank(a) <= rank(b))
  }

  predicate Named(list: seq<nat>, nodes: map<nat, Caps>) {
    forall c :: c in list ==> c in nodes
  }

  predicate Ordered(rank: TrackType -> int, nodes: map<nat, Caps>, list: seq<nat>)
    requires Named(list, nodes)
  {
    forall i, j :: 0 <= i < j < |list| ==> Before(rank, nodes[list[i]].typ, nodes[list[j]].typ)
  }

  /** Where g_slist_insert_sorted puts a caps: in front of the first one it does not come after. */
  function InsertAt(rank: TrackType -> int, nodes: map<nat, Caps>, list: seq<nat>, c: nat): (i: nat)
    requires Named(list, nodes) && c in nodes
    ensures i <= |list|
    ensures forall k :: 0 <= k < i ==> !Before(rank, nodes[c].typ, nodes[list[k]].typ)
    ensures i < |list| ==> Before(rank, nodes[c].typ, nodes[list[i]].typ)
  {
    if list == [] || Before(rank, nodes[c].typ, nodes[list[0]].typ) then 0
    else
      assert Named(list[1..], nodes);
      1 + InsertAt(rank, nodes, list[1..], c)
  }

  function Inserted(rank: TrackType -> int, nodes: map<nat, Caps>, list: seq<nat>, c: nat): (r: seq<nat>)
    requires Named(list, nodes) && c in nodes
    ensures Named(r, nodes) && |r| == |list| + 1
    ensures forall x :: x in r <==> x == c || x in list
  {
    var i := InsertAt(rank, nodes, list, c);
    assert list == list[..i] + list[i..];
    list[..i] + [c] + list[i..]
  }

  lemma {:induction false} InsertedOrdered(rank: TrackType -> int, nodes: map<nat, Caps>, list: seq<nat>, c: nat)
    requires Named(list, nodes) && c in nodes && Ordered(rank, nodes, list)
    ensures Ordered(rank, nodes, Inserted(rank, nodes, list, c))
  {
    var i, r := InsertAt(rank, nodes, list, c), Inserted(rank, nodes, list, c);
    forall a, b | 0 <= a < b < |r| ensures Before(rank, nodes[r[a]].typ, nodes[r[b]].typ) {
      if b < i {
        assert r[a] == list[a] && r[b] == list[b];
      } else if b == i {
        assert r[a] == list[a];
      } else if a == i {
        assert r[b] == list[b - 1] && (b - 1 == i || Before(rank, nodes[list[i]].typ, nodes[list[b - 1]].typ));
      } else {
        assert r[a] == (if a < i then list[a] else list[a - 1]) && r[b] == list[b - 1];
      }
    }
  }

  function Sorted(rank: TrackType -> int, nodes: map<nat, Caps>, list: seq<nat>): (r: seq<nat>)
    requires Named(list, nodes)
    ensures Named(r, nodes) && |r| == |list|
    ensures forall x :: x in r <==> x in list
  {
    if list == [] then []
    else
      assert Named(list[1..], nodes) && list == [list[0]] + list[1..];
      Inserted(rank, nodes, Sorted(rank, nodes, list[1..]), list[0])
  }

  lemma {:induction false} SortedOrdered(rank: TrackType -> int, nodes: map<nat, Caps>, list: seq<nat>)
    requires Named(list, nodes)
    ensures Ordered(rank, nodes, Sorted(rank, nodes, list))
  {
    if list != [] {
      SortedOrdered(rank, nodes, list[1..]);
      InsertedOrdered(rank, nodes, Sorted(rank, nodes, list[1..]), list[0]);
    }
  }

  predicate Distinct(list: seq<nat>) {
    forall i, j :: 0 <= i < j < |list| ==> list[i] != list[j]
  }

  lemma {:induction false} InsertedDistinct(rank: TrackType -> int, nodes: map<nat, Caps>, list: seq<nat>, c: nat)
    requires Named(list, nodes) && c in nodes && Distinct(list) && c !in list
    ensures Distinct(Inserted(rank, nodes, list, c))
  {
  }

  lemma {:induction false} SortedDistinct(rank: TrackType -> int, nodes: map<nat, Caps>, list: seq<nat>)
    requires Named(list, nodes) && Distinct(list)
    ensures Distinct(Sorted(rank, nodes, list))
  {
    if list != [] {
      SortedDistinct(rank, nodes, list[1..]);
      InsertedDistinct(rank, nodes, Sorted(rank, nodes, list[1..]), list[0]);
    }
  }

  function IndexOf(list: seq<nat>, c: nat): (i: nat)
    requires c in list
    ensures i < |list| && list[i] == c
  {
    if list[0] == c then 0 else 1 + IndexOf(list[1..], c)
  }

  // ----- the registry -----

  /** What dest's modifiers are once another caps' are copied: each one dest does not have yet goes in front. */
  function WithModifiers(own: seq<Plugin>, others: seq<Plugin>): (r: seq<Plugin>)
    ensures forall m :: m in r <==> m in own || m in others
  {
    if others == [] then own
    else
      var before, last := WithModifiers(own, others[..|others| - 1]), others[|others| - 1];
      assert others == others[..|others| - 1] + [last];
      if last in before then before else [last] + before
  }

  predicate NoneTwice(list: seq<Plugin>) {
    forall i, j :: 0 <= i < j < |list| ==> list[i] != list[j]
  }

  /** Copying modifiers makes none come twice. */
  lemma {:induction false} CopiedOnce(own: seq<Plugin>, others: seq<Plugin>)
    requires NoneTwice(own)
    ensures NoneTwice(WithModifiers(own, others))
  {
    if others != [] {
      CopiedOnce(own, others[..|others| - 1]);
    }
  }

  /** The modifiers a caps had stay where they were; those in front are new ones. */
  lemma {:induction false} OwnModifiersStay(own: seq<Plugin>, others: seq<Plugin>) returns (more: seq<Plugin>)
    ensures WithModifiers(own, others) == more + own && forall m :: m in more <==> m in others && m !in own
  {
    more := [];
    if others != [] {
      var init, last := others[..|others| - 1], others[|others| - 1];
      assert others == init + [last];
      more := OwnModifiersStay(own, init);
      if last !in more + own {
        assert [last] + (more + own) == ([last] + more) + own;
        more := [last] + more;
      }
    } else {
      assert [] + own == own;
    }
  }

  lemma {:induction false} NothingNew(own: seq<Plugin>, others: seq<Plugin>)
    requires forall m :: m in others ==> m in own
    ensures WithModifiers(own, others) == own
  {
    if others != [] {
      NothingNew(own, others[..|others| - 1]);
      assert others[|others| - 1] in others;
    }
  }

  /** rejilla_caps_find_link_for_input and what create_links does with its answer. */
  method AddToLink(links: seq<Link>, input: nat, plugin: Plugin) returns (r: seq<Link>)
    ensures forall t, p :: Lends(r, t, p) <==> Lends(links, t, p) || (t == Some(input) && p == plugin)
    ensures forall l :: l in r ==> l in links || l.target == Some(input)
  {
    var k := 0;
    while k < |links| && links[k].target != Some(input)
      invariant k <= |links|
    {
      k := k + 1;
    }
    var link := if k < |links| then links[k].(plugins := [plugin] + links[k].plugins) else Link(Some(input), [plugin]);
    r := if k < |links| then links[k := link] else [link] + links;
    assert link in r && forall l :: l in r ==> l == link || l in links;
    forall t, p ensures Lends(r, t, p) <==> Lends(links, t, p) || (t == Some(input) && p == plugin) {
      if Lends(links, t, p) {
        var l :| l in links && l.target == t && p in l.plugins;
        var j :| 0 <= j < |links| && links[j] == l;
        assert k < |links| ==> r[j] in r;
        assert k == |links| ==> r[j + 1] in r;
      }
    }
  }

  class BurnCaps {
    var capsList: seq<nat>
    var nodes: map<nat, Caps>
    var tests: seq<Test>
    var nextName: nat
    const rank: TrackType -> int

    function St(): State
      reads this`nodes, this`tests
    {
      State(nodes, tests)
    }

    /** The list holds every caps once, and new names are new. */
    ghost predicate Listed()
      reads this`capsList, this`nodes, this`nextName
    {
      && Distinct(capsList)
      && (forall c :: c in nodes <==> c in capsList)
      && (forall c :: c in nodes ==> c < nextName)
    }

    ghost predicate Valid()
      reads this
    {
      Listed() && Closed(St())
    }

    /** rejilla_caps_link_list_duplicate: each copy goes to the front. */
    method DuplicateLinkList(dest: nat, src: nat)
      requires dest in nodes && src in nodes && dest != src
      modifies this`nodes
      ensures nodes == old(nodes)[dest := old(nodes[dest]).(
                links := LinksReversed(old(nodes[src]).links) + old(nodes[dest]).links)]
    {
      var own := nodes[src].links;
      ghost var had := nodes[dest].links;
      var k := 0;
      assert LinksReversed(own[..0]) + had == had;
      while k < |own|
        invariant k <= |own|
        invariant nodes == old(nodes)[dest := old(nodes[dest]).(links := LinksReversed(own[..k]) + had)]
      {
        ReversedNext(own, k, had);
        nodes := nodes[dest := nodes[dest].(links := [own[k]] + nodes[dest].links)];
        k := k + 1;
      }
      assert own[..k] == own;
    }

    /** rejilla_caps_replicate_links: dest, not yet in the list, gets the links of src, and every other caps
        that links to src links to dest as well. */
    method ReplicateLinks(dest: nat, src: nat)
      requires Distinct(capsList) && dest !in capsList && dest in nodes && src in capsList
      requires Named(capsList, nodes)
      modifies this`nodes
      ensures nodes.Keys == old(nodes.Keys)
      ensures nodes[dest] == old(nodes[dest]).(links := LinksReversed(old(nodes[src]).links) + old(nodes[dest]).links)
      ensures forall c :: c in nodes && c != dest ==>
                nodes[c] == if c in capsList && c != src
                            then old(nodes[c]).(links := Redirected(old(nodes[c]).links, src, dest))
                            else old(nodes[c])
    {
      DuplicateLinkList(dest, src);
      ghost var before := nodes;
      var i := 0;
      while i < |capsList|
        invariant i <= |capsList| && nodes.Keys == before.Keys
        invariant forall c :: c in nodes && !(c in capsList[..i] && c != src) ==> nodes[c] == before[c]
        invariant forall c :: c in capsList[..i] && c != src ==>
                    nodes[c] == before[c].(links := Redirected(before[c].links, src, dest))
      {
        var c := capsList[i];
        assert c !in capsList[..i] && capsList[..i + 1] == capsList[..i] + [c];
        if c != src {
          RedirectIn(c, src, dest);
        }
        i := i + 1;
      }
      assert capsList[..i] == capsList;
    }

    method RedirectIn(c: nat, src: nat, dest: nat)
      requires c in nodes
      modifies this`nodes
      ensures nodes == old(nodes)[c := old(nodes[c]).(links := Redirected(old(nodes[c]).links, src, dest))]
    {
      var links := Redirect(nodes[c].links, src, dest);
      nodes := nodes[c := nodes[c].(links := links)];
    }

    /** The inner loop: walks the links, putting a copy for dest in front for each one that leads to src. */
    static method Redirect(links: seq<Link>, src: nat, dest: nat) returns (r: seq<Link>)
      ensures r == Redirected(links, src, dest)
    {
      r := links;
      var k := 0;
      while k < |links|
        invariant k <= |links|
        invariant r == Copies(links[..k], src, dest) + links
      {
        CopiesNext(links, k, src, dest, links);
        if links[k].target == Some(src) {
          r := [links[k].(target := Some(dest))] + r;
        }
        k := k + 1;
      }
      assert links[..k] == links;
    }

    method ReplicateTests(dest: nat, src: nat)
      modifies this`tests
      ensures |tests| == |old(tests)|
      ensures forall t :: 0 <= t < |tests| ==>
                tests[t] == old(tests)[t].(links := Redirected(old(tests)[t].links, src, dest))
    {
      var i := 0;
      while i < |tests|
        invariant i <= |tests| == |old(tests)|
        invariant forall t :: 0 <= t < i ==>
                    tests[t] == old(tests)[t].(links := Redirected(old(tests)[t].links, src, dest))
        invariant forall t :: i <= t < |tests| ==> tests[t] == old(tests)[t]
      {
        var links := Redirect(tests[i].links, src, dest);
        tests := tests[i := tests[i].(links := links)];
        i := i + 1;
      }
    }

    /** rejilla_caps_replicate_modifiers: those dest does not have yet; nothing else changes. */
    method ReplicateModifiers(dest: nat, src: nat)
      requires dest in nodes && src in nodes && dest != src
      modifies this`nodes
      ensures nodes == old(nodes)[dest := old(nodes[dest]).(
                modifiers := WithModifiers(old(nodes[dest]).modifiers, old(nodes[src]).modifiers))]
    {
      var own := nodes[dest].modifiers;
      ghost var others := nodes[src].modifiers;
      var i := 0;
      while i < |nodes[src].modifiers|
        invariant src in nodes && nodes[src].modifiers == others && i <= |others|
        invariant nodes == old(nodes)[dest := old(nodes[dest]).(modifiers := WithModifiers(own, others[..i]))]
      {
        var plugin := nodes[src].modifiers[i];
        assert others[..i + 1][..i] == others[..i] && others[..i + 1][i] == plugin;
        if plugin !in nodes[dest].modifiers {
          nodes := nodes[dest := nodes[dest].(modifiers := [plugin] + nodes[dest].modifiers)];
        }
        i := i + 1;
      }
      assert others[..i] == others;
    }

    /** rejilla_caps_copy_deep: dest, which is not in the list yet, takes over what leads from and to src. */
    method CopyDeep(dest: nat, src: nat)
      requires Distinct(capsList) && dest !in capsList && dest in nodes && src in capsList
      requires Named(capsList, nodes) && forall c :: c in nodes && c != dest ==> c in capsList
      modifies this`nodes, this`tests
      ensures IsCopy(old(St()), St(), dest, src)
    {
      ReplicateLinks(dest, src);
      ReplicateTests(dest, src);
      ReplicateModifiers(dest, src);
    }

    /** rejilla_caps_create_links: the plugin is added to the links from output to each input, and a link from
        the output to itself is dropped. */
    method CreateLinks(output: nat, inputs: seq<nat>, plugin: Plugin)
      requires Valid() && output in nodes && forall c :: c in inputs ==> c in nodes
      modifies this`nodes
      ensures Valid() && nodes.Keys == old(nodes.Keys)
      ensures forall c :: c in nodes && c != output ==> nodes[c] == old(nodes[c])
      ensures nodes[output] == old(nodes[output]).(links := nodes[output].links)
      ensures forall t, p :: Lends(nodes[output].links, t, p) <==>
                Lends(old(nodes[output].links), t, p)
                || (t.Some? && t.value in inputs && t.value != output && p == plugin)
    {
      var i := 0;
      while i < |inputs|
        invariant i <= |inputs| && nodes.Keys == old(nodes.Keys) && Valid()
        invariant forall c :: c in nodes && c != output ==> nodes[c] == old(nodes[c])
        invariant nodes[output] == old(nodes[output]).(links := nodes[output].links)
        invariant forall t, p :: Lends(nodes[output].links, t, p) <==>
                    Lends(old(nodes[output].links), t, p)
                    || (t.Some? && t.value in inputs[..i] && t.value != output && p == plugin)
      {
        var input := inputs[i];
        assert inputs[..i + 1] == inputs[..i] + [input];
        i := i + 1;
        if output == input {
          continue;
        }
        var links := AddToLink(nodes[output].links, input, plugin);
        ClosedWithLinks(St(), output, links, input);
        nodes := nodes[output := nodes[output].(links := links)];
      }
      assert inputs[..i] == inputs;
    }

    /** rejilla_caps_duplicate_deep: a second caps like src, with everything that leads from or to it. The
        caller puts it in the list. */
    method DuplicateDeep(src: nat) returns (dest: nat)
      requires Listed() && src in nodes
      modifies this`nodes, this`tests, this`nextName
      ensures dest == old(nextName) && nextName == dest + 1
      ensures St() == Split(old(St()), src, dest, old(nodes[src]), old(nodes[src]))
    {
      dest := nextName;
      nextName := nextName + 1;
      ghost var before := nodes;
      nodes := nodes[dest := nodes[src].(links := [])];
      ReplicateLinks(dest, src);
      ReplicateTests(dest, src);
      ReplicateModifiers(dest, src);
      assert LinksReversed(before[src].links) + [] == LinksReversed(before[src].links);
      NothingNew(before[src].modifiers, before[src].modifiers);
      DuplicateIsSplit(old(St()), src, dest, St());
    }

    method Resort()
      requires Distinct(capsList) && Named(capsList, nodes)
      modifies this`capsList
      ensures Distinct(capsList) && Named(capsList, nodes) && Ordered(rank, nodes, capsList)
      ensures forall c :: c in capsList <==> c in old(capsList)
    {
      SortedDistinct(rank, nodes, capsList);
      SortedOrdered(rank, nodes, capsList);
      capsList := Sorted(rank, nodes, capsList);
    }

    method InsertInOrder(c: nat)
      requires Distinct(capsList) && Named(capsList, nodes) && c in nodes && c !in capsList
      modifies this`capsList
      ensures Distinct(capsList) && Named(capsList, nodes)
      ensures forall x :: x in capsList <==> x in old(capsList) || x == c
      ensures Ordered(rank, nodes, old(capsList)) ==> Ordered(rank, nodes, capsList)
    {
      InsertedDistinct(rank, nodes, capsList, c);
      if Ordered(rank, nodes, capsList) {
        InsertedOrdered(rank, nodes, capsList, c);
      }
      capsList := Inserted(rank, nodes, capsList, c);
    }

    /** Narrows src, re-sorts, and makes the copy, which is not in the list yet. */
    method NarrowAndCopy(src: nat, typ: TrackType, io: IoFlags) returns (dest: nat)
      requires Listed() && src in nodes
      modifies this`capsList, this`nodes, this`tests, this`nextName
      ensures dest == old(nextName) && nextName == dest + 1
      ensures Distinct(capsList) && forall c :: c in capsList <==> c in old(capsList)
      ensures Named(capsList, nodes) && Ordered(rank, nodes, capsList)
      ensures var kept := old(nodes[src]).(typ := typ, io := io);
              St() == Split(old(St()).(nodes := old(nodes)[src := kept]), src, dest, kept, kept)
    {
      nodes := nodes[src := nodes[src].(typ := typ, io := io)];
      Resort();
      ghost var narrowed := nodes;
      dest := DuplicateDeep(src);
      SameOrder(rank, narrowed, nodes, capsList);
    }

    /** Lets the copy stand for the rest, and puts it in the list. */
    method InsertCopy(dest: nat, typ: TrackType, io: IoFlags)
      requires Distinct(capsList) && Named(capsList, nodes) && Ordered(rank, nodes, capsList)
      requires dest !in capsList && nextName == dest + 1 && forall c :: c in nodes <==> c in capsList || c == dest
      requires forall c :: c in capsList ==> c < dest
      modifies this`capsList, this`nodes
      ensures Listed() && Ordered(rank, nodes, capsList)
      ensures St() == old(St()).(nodes := old(nodes)[dest := old(nodes[dest]).(typ := typ, io := io)])
    {
      ghost var copied := nodes;
      nodes := nodes[dest := nodes[dest].(typ := typ, io := io)];
      SameOrder(rank, copied, nodes, capsList);
      InsertInOrder(dest);
    }

    /** What both splits do: narrow src, re-sort, copy it, let the copy stand for the rest, and insert it. */
    method SplitAs(src: nat, typ: TrackType, io: IoFlags, givenTyp: TrackType, givenIo: IoFlags) returns (dest: nat)
      requires Valid() && src in nodes
      modifies this`capsList, this`nodes, this`tests, this`nextName
      ensures Valid() && dest !in old(nodes)
      ensures St() == Split(old(St()), src, dest, old(nodes[src]).(typ := typ, io := io),
                            old(nodes[src]).(typ := givenTyp, io := givenIo))
      ensures Ordered(rank, nodes, capsList)
    {
      ghost var before := St();
      ghost var kept, given := nodes[src].(typ := typ, io := io), nodes[src].(typ := givenTyp, io := givenIo);
      dest := NarrowAndCopy(src, typ, io);
      InsertCopy(dest, givenTyp, givenIo);
      RetypedSplit(before, src, dest, kept, given, St());
      SplitStaysClosed(before, src, dest, kept, given);
    }

    /** The split of list_check_io: src keeps the I/O ways the request does not name, the new caps gets the rest. */
    method SplitIo(src: nat, common: IoFlags) returns (dest: nat)
      requires Valid() && src in nodes
      modifies this`capsList, this`nodes, this`tests, this`nextName
      ensures Valid() && dest !in old(nodes)
      ensures St() == Split(old(St()), src, dest,
                            old(nodes[src]).(io := old(nodes[src]).io - common), old(nodes[src]).(io := common))
      ensures Ordered(rank, nodes, capsList)
    {
      var caps := nodes[src];
      dest := SplitAs(src, caps.typ, caps.io - common, caps.typ, common);
    }

    /** The split of the scan: src keeps the formats the request does not name, the new caps gets the rest. */
    method SplitFormat(src: nat, common: set<ImageFormat>) returns (dest: nat)
      requires Valid() && src in nodes && nodes[src].typ.Image?
      modifies this`capsList, this`nodes, this`tests, this`nextName
      ensures Valid() && dest !in old(nodes)
      ensures St() == Split(old(St()), src, dest,
                            old(nodes[src]).(typ := Image(old(nodes[src]).typ.format - common)),
                            old(nodes[src]).(typ := Image(common)))
      ensures Ordered(rank, nodes, capsList)
    {
      var caps := nodes[src];
      dest := SplitAs(src, Image(caps.typ.format - common), caps.io, Image(common), caps.io);
    }
  }

  lemma {:induction false} ClosedWithLinks(st: State, c: nat, links: seq<Link>, input: nat)
    requires Closed(st) && c in st.nodes && input in st.nodes
    requires forall l :: l in links ==> l in st.nodes[c].links || l.target == Some(input)
    ensures Closed(st.(nodes := st.nodes[c := st.nodes[c].(links := links)]))
  {
    forall k | 0 <= k < |links| && links[k].target.Some? ensures links[k].target.value in st.nodes {
      assert links[k] in links;
    }
  }

  /** One of the links leads to the target and carries the plugin. */
  predicate Lends(links: seq<Link>, target: Option<nat>, plugin: Plugin) {
    exists l :: l in links && l.target == target && plugin in l.plugins
  }

  /** dest has taken over the links of src, and what led to src leads to dest as well. */
  predicate IsCopy(before: State, after: State, dest: nat, src: nat) {
    && src in before.nodes && dest in before.nodes && dest != src
    && after.nodes.Keys == before.nodes.Keys
    && after.nodes[dest] == before.nodes[dest].(
         links := LinksReversed(before.nodes[src].links) + before.nodes[dest].links,
         modifiers := WithModifiers(before.nodes[dest].modifiers, before.nodes[src].modifiers))
    && after.nodes[src] == before.nodes[src]
    && (forall c :: c in before.nodes && c != dest && c != src ==>
          after.nodes[c] == before.nodes[c].(links := Redirected(before.nodes[c].links, src, dest)))
    && |after.tests| == |before.tests|
    && forall t :: 0 <= t < |after.tests| ==>
         after.tests[t] == before.tests[t].(links := Redirected(before.tests[t].links, src, dest))
  }

  /** A new stream or data caps that copies two caps encompassing it ends up linked to itself exactly when the
      second of them links to the first. */
  lemma {:induction false} CopyingTwoLinksToItselfIff(st: State, mid: State, end: State, dest: nat, a: nat, b: nat)
    requires Closed(st) && NoSelfLinks(st) && a != b
    requires IsCopy(st, mid, dest, a) && IsCopy(mid, end, dest, b)
    requires st.nodes[dest].links == []
    requires forall c, l :: c in st.nodes && l in st.nodes[c].links ==> l.target != Some(dest)
    ensures SelfLinked(end, dest) <==> exists l :: l in st.nodes[b].links && l.target == Some(a) && l.plugins != []
  {
    assert forall l :: l in end.nodes[dest].links <==> l in mid.nodes[b].links || l in st.nodes[a].links;
    if l :| l in st.nodes[b].links && l.target == Some(a) && l.plugins != [] {
      assert l.(target := Some(dest)) in end.nodes[dest].links;
    }
    if SelfLinked(end, dest) {
      var l :| l in end.nodes[dest].links && l.target == Some(dest) && l.plugins != [];
      assert l.(target := Some(a)) in st.nodes[b].links;
    }
  }

  /** Both ways a caps is split share out its cells. */
  lemma {:induction false} FormatSplitIsPartition(caps: Caps, common: set<ImageFormat>)
    requires caps.typ.Image? && common <= caps.typ.format
    ensures Partition(caps, caps.(typ := Image(caps.typ.format - common)), caps.(typ := Image(common)))
  {
  }

  lemma {:induction false} IoSplitIsPartition(caps: Caps, common: IoFlags)
    requires common <= caps.io
    ensures Partition(caps, caps.(io := caps.io - common), caps.(io := common))
  {
  }

  /** Splitting off some formats of an image caps changes what the graph means exactly if the caps links to
      itself. */
  lemma {:induction false} FormatSplitMeaning(st: State, src: nat, dest: nat, common: set<ImageFormat>)
    requires src in st.nodes && dest !in st.nodes && Closed(st) && DistinctCells(st)
    requires st.nodes[src].typ.Image? && {} < common < st.nodes[src].typ.format && st.nodes[src].io != {}
    ensures var caps := st.nodes[src];
            SameMeaning(st, Split(st, src, dest, caps.(typ := Image(caps.typ.format - common)),
                                  caps.(typ := Image(common))))
            <==> !SelfLinked(st, src)
  {
    var caps := st.nodes[src];
    var kept, given := caps.(typ := Image(caps.typ.format - common)), caps.(typ := Image(common));
    FormatSplitIsPartition(caps, common);
    var way :| way in caps.io;
    var mine :| mine in common;
    var theirs :| theirs in caps.typ.format && theirs !in common;
    assert HasCell(kept, FormatCell(theirs, way)) && HasCell(given, FormatCell(mine, way));
    SplitPreservesMeaningIff(st, src, dest, kept, given);
  }

  /** The same for splitting off some I/O ways. */
  lemma {:induction false} IoSplitMeaning(st: State, src: nat, dest: nat, common: IoFlags)
    requires src in st.nodes && dest !in st.nodes && Closed(st) && DistinctCells(st)
    requires {} < common < st.nodes[src].io && (st.nodes[src].typ.Image? ==> st.nodes[src].typ.format != {})
    ensures var caps := st.nodes[src];
            SameMeaning(st, Split(st, src, dest, caps.(io := caps.io - common), caps.(io := common)))
            <==> !SelfLinked(st, src)
  {
    var caps := st.nodes[src];
    var kept, given := caps.(io := caps.io - common), caps.(io := common);
    IoSplitIsPartition(caps, common);
    var mine :| mine in common;
    var theirs :| theirs in caps.io && theirs !in common;
    if caps.typ.Image? {
      var format :| format in caps.typ.format;
      assert HasCell(kept, FormatCell(format, theirs)) && HasCell(given, FormatCell(format, mine));
    } else {
      assert HasCell(kept, TypeCell(caps.typ, theirs)) && HasCell(given, TypeCell(caps.typ, mine));
    }
    SplitPreservesMeaningIff(st, src, dest, kept, given);
  }

  lemma {:induction false} SameOrder(rank: TrackType -> int, a: map<nat, Caps>, b: map<nat, Caps>, list: seq<nat>)
    requires Named(list, a) && Named(list, b) && Ordered(rank, a, list)
    requires forall c :: c in list ==> a[c].typ == b[c].typ
    ensures Ordered(rank, b, list)
  {
  }

  lemma {:induction false} DuplicateIsSplit(st: State, src: nat, dest: nat, after: State)
    requires src in st.nodes && dest !in st.nodes && after.nodes.Keys == st.nodes.Keys + {dest}
    requires after.nodes[dest] == st.nodes[src].(links := LinksReversed(st.nodes[src].links))
    requires forall c :: c in st.nodes ==>
               after.nodes[c] == if c == src then st.nodes[src]
                                 else st.nodes[c].(links := Redirected(st.nodes[c].links, src, dest))
    requires |after.tests| == |st.tests|
    requires forall t :: 0 <= t < |after.tests| ==>
               after.tests[t] == st.tests[t].(links := Redirected(st.tests[t].links, src, dest))
    ensures after == Split(st, src, dest, st.nodes[src], st.nodes[src])
  {
    var goal := Split(st, src, dest, st.nodes[src], st.nodes[src]);
    assert after.nodes == goal.nodes;
    assert after.tests == goal.tests;
  }

  /** Changing what src stands for before the copy, and what the copy stands for after it, is the split. */
  lemma {:induction false} RetypedSplit(st: State, src: nat, dest: nat, kept: Caps, given: Caps, after: State)
    requires src in st.nodes && dest !in st.nodes
    requires kept == st.nodes[src].(typ := kept.typ, io := kept.io)
    requires given == st.nodes[src].(typ := given.typ, io := given.io)
    requires var middle := Split(st.(nodes := st.nodes[src := kept]), src, dest, kept, kept);
             after == middle.(nodes := middle.nodes[dest := middle.nodes[dest].(typ := given.typ, io := given.io)])
    ensures after == Split(st, src, dest, kept, given)
  {
    var goal := Split(st, src, dest, kept, given);
    assert after.nodes.Keys == goal.nodes.Keys;
    assert forall c :: c in goal.nodes ==> after.nodes[c] == goal.nodes[c];
    assert after.nodes == goal.nodes;
    assert after.tests == goal.tests;
  }
}
