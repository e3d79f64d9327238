/** The priority-driven search for the chain of plugins that turns the session input into the requested
    output (rejilla-caps-burn.c, find_best_link and its helpers). */
module BestLink {
  import opened Flags
  import opened Plugins
  import opened Caps

  datatype Query = Query(flags: BurnFlags, media: Media, input: TrackType, io: IoFlags)

  datatype Node = Node(link: Link, plugin: Plugin)

  // ----- choosing a plugin on a link -----

  predicate Eligible(g: Graph, q: Query, c: nat, link: Link, plugin: Plugin)
    requires c < |g| && link.target.Some? && link.target.value < |g|
  {
    && GetActive(plugin, false)
    && (g[c].typ.Disc? ==> CheckRecordFlags(plugin, q.media, q.flags))
    && (if g[link.target.value].typ.Data? then CheckImageFlags(plugin, q.media, q.flags)
        else CheckMediaRestrictions(plugin, q.media))
  }

  predicate InGroup(group: int, plugin: Plugin) {
    group > 0 && plugin.group == group
  }

  /** A plugin of the favourite group beats any outsider; otherwise the higher priority wins. */
  predicate Replaces(group: int, plugin: Plugin, candidate: Plugin) {
    if InGroup(group, plugin) != InGroup(group, candidate) then InGroup(group, plugin)
    else plugin.priority > candidate.priority
  }

  function PickAmong(g: Graph, q: Query, c: nat, group: int, link: Link, plugins: seq<Plugin>): Option<Plugin>
    requires c < |g| && link.target.Some? && link.target.value < |g|
  {
    if plugins == [] then None
    else
      var last, best := plugins[|plugins| - 1], PickAmong(g, q, c, group, link, plugins[..|plugins| - 1]);
      if Eligible(g, q, c, link, last) && (best.None? || Replaces(group, last, best.value)) then Some(last)
      else best
  }

  function Pick(g: Graph, q: Query, c: nat, group: int, link: Link): Option<Plugin>
    requires c < |g| && link.target.Some? && link.target.value < |g|
  {
    PickAmong(g, q, c, group, link, link.plugins)
  }

  /** The pick exists iff some plugin is eligible; it is in the favourite group if any eligible plugin is, and
      no eligible plugin of its own side has a higher priority. */
  lemma {:induction false} PickIsBest(g: Graph, q: Query, c: nat, group: int, link: Link, plugins: seq<Plugin>)
    requires c < |g| && link.target.Some? && link.target.value < |g|
    ensures var r := PickAmong(g, q, c, group, link, plugins);
            && (r.Some? <==> exists p :: p in plugins && Eligible(g, q, c, link, p))
            && (r.Some? ==>
                  && r.value in plugins && Eligible(g, q, c, link, r.value)
                  && forall p :: p in plugins && Eligible(g, q, c, link, p) ==>
                       && (InGroup(group, p) ==> InGroup(group, r.value))
                       && (InGroup(group, p) == InGroup(group, r.value) ==> p.priority <= r.value.priority))
  {
    if plugins != [] {
      var init, last := plugins[..|plugins| - 1], plugins[|plugins| - 1];
      PickIsBest(g, q, c, group, link, init);
      assert plugins == init + [last];
    }
  }

  method LinkFindPlugin(g: Graph, q: Query, c: nat, group: int, link: Link) returns (candidate: Option<Plugin>)
    requires c < |g| && link.target.Some? && link.target.value < |g|
    ensures candidate == Pick(g, q, c, group, link)
  {
    candidate := None;
    var i := 0;
    while i < |link.plugins|
      invariant i <= |link.plugins|
      invariant candidate == PickAmong(g, q, c, group, link, link.plugins[..i])
    {
      var plugin := link.plugins[i];
      assert link.plugins[..i + 1][..i] == link.plugins[..i];
      i := i + 1;
      if !Eligible(g, q, c, link, plugin) {
        continue;
      }
      if group > 0 && candidate.Some? {
        if candidate.value.group != group {
          if plugin.group == group {
            candidate := Some(plugin);
            continue;
          }
        } else if plugin.group != group {
          continue;
        }
      }
      if candidate.None? || plugin.priority > candidate.value.priority {
        candidate := Some(plugin);
      }
    }
    assert link.plugins[..i] == link.plugins;
  }

  // ----- comparing chains -----

  function Priorities(path: seq<Node>): (r: seq<int>)
    ensures |r| == |path|
  {
    seq(|path|, i requires 0 <= i < |path| => path[i].plugin.priority)
  }

  /** a is at least as good as b: lexicographically higher priorities, a prefix beating what it is a prefix of. */
  predicate AtLeast(a: seq<int>, b: seq<int>) {
    a == [] || (b != [] && (a[0] > b[0] || (a[0] == b[0] && AtLeast(a[1..], b[1..]))))
  }

  lemma {:induction false} AtLeastReflexive(a: seq<int>)
    ensures AtLeast(a, a)
  {
    if a != [] {
      AtLeastReflexive(a[1..]);
    }
  }

  lemma {:induction false} AtLeastTransitive(a: seq<int>, b: seq<int>, c: seq<int>)
    requires AtLeast(a, b) && AtLeast(b, c)
    ensures AtLeast(a, c)
  {
    if a != [] && a[0] == b[0] == c[0] {
      AtLeastTransitive(a[1..], b[1..], c[1..]);
    }
  }

  /** Two chains each at least as good as the other have the same priorities. */
  lemma {:induction false} AtLeastAntisymmetric(a: seq<int>, b: seq<int>)
    requires AtLeast(a, b) && AtLeast(b, a)
    ensures a == b
  {
    if a != [] {
      AtLeastAntisymmetric(a[1..], b[1..]);
      assert a == [a[0]] + a[1..] && b == [b[0]] + b[1..];
    }
  }

  /** Keeps path1 unless path2 is strictly better; the loser is thrown away. */
  method GetBestPath(path1: seq<Node>, path2: seq<Node>) returns (keepFirst: bool)
    ensures keepFirst ==> AtLeast(Priorities(path1), Priorities(path2))
    ensures !keepFirst ==> AtLeast(Priorities(path2), Priorities(path1))
                           && !AtLeast(Priorities(path1), Priorities(path2))
  {
    ghost var a, b := Priorities(path1), Priorities(path2);
    var i := 0;
    while i < |path1| && i < |path2|
      invariant i <= |path1| && i <= |path2|
      invariant AtLeast(a, b) == AtLeast(a[i..], b[i..])
      invariant AtLeast(b, a) == AtLeast(b[i..], a[i..])
    {
      assert a[i..][1..] == a[i + 1..] && b[i..][1..] == b[i + 1..];
      if path1[i].plugin.priority > path2[i].plugin.priority {
        return true;
      }
      if path1[i].plugin.priority < path2[i].plugin.priority {
        return false;
      }
      i := i + 1;
    }
    return !(i == |path2| && i < |path1|);
  }

  // ----- routes -----

  predicate Fits(g: Graph, q: Query, t: nat)
    requires t < |g|
  {
    File in g[t].io && CompatibleType(g[t].typ, q.input)
  }

  /** A link the search may take from c. */
  predicate Followable(g: Graph, q: Query, c: nat, used: set<nat>, link: Link)
    requires c < |g| && (link.target.Some? ==> link.target.value < |g|)
  {
    && link.target.Some?
    && link.target.value !in used
    && (g[c].typ.Disc? ==> RecorderInputOk(g[link.target.value].typ, q.flags))
    && (Fits(g, q, link.target.value)
        || (g[link.target.value].io * q.io != {} && !g[link.target.value].typ.Disc?))
  }

  function NextGroup(group: int, plugin: Plugin): int {
    if plugin.group > 0 && group <= 0 then plugin.group else group
  }

  /** A route's plugin works, and has registered for the medium what the session asks of it: a pair that supports all
      flags it is asked for and insists on no other. */
  lemma {:induction false} EligibleIff(g: Graph, q: Query, c: nat, link: Link, p: Plugin)
    requires c < |g| && link.target.Some? && link.target.value < |g|
    ensures Eligible(g, q, c, link, p) <==>
              && p.hasType && p.active && p.priority >= 0 && !p.hasErrors
              && (g[c].typ.Disc? ==> SomePairTakes(p, q.media, q.flags * BURN_FLAG_MASK, BURN_FLAG_MASK))
              && (if g[link.target.value].typ.Data?
                  then q.flags * IMAGE_FLAG_MASK == {}
                       || SomePairTakes(p, q.media, q.flags * IMAGE_FLAG_MASK, IMAGE_FLAG_MASK)
                  else p.flags == [] || exists k :: 0 <= k < |p.flags| && q.media <= p.flags[k].media)
  {
    AllFlagsExact(p.flags, true, q.media, BURN_FLAG_MASK, q.flags * BURN_FLAG_MASK);
    AllFlagsExact(p.flags, true, q.media, IMAGE_FLAG_MASK, q.flags * IMAGE_FLAG_MASK);
  }

  /** Of the pairs registered with the first entry for the medium, one supports these flags and demands, of those in
      the mask, no others. */
  ghost predicate SomePairTakes(p: Plugin, media: Media, asked: BurnFlags, mask: BurnFlags) {
    exists i, k ::
      && 0 <= i < |p.flags| && media <= p.flags[i].media && (forall j :: 0 <= j < i ==> !(media <= p.flags[j].media))
      && 0 <= k < |p.flags[i].pairs| && asked <= p.flags[i].pairs[k].supported
      && forall flag :: flag in p.flags[i].pairs[k].compulsory && flag in mask ==> flag in asked
  }

  /** A chain of links from c to a caps fitting the session input, each followable once the caps behind it
      are used up, each with the plugin its link lends to the group threaded so far. */
  predicate IsRoute(g: Graph, q: Query, c: nat, group: int, used: set<nat>, path: seq<Node>)
    requires WellFormed(g) && c < |g|
    decreases |path|
  {
    && path != []
    && path[0].link in g[c].links
    && Followable(g, q, c, used, path[0].link)
    && Pick(g, q, c, group, path[0].link) == Some(path[0].plugin)
    && (if |path| == 1 then Fits(g, q, path[0].link.target.value)
        else IsRoute(g, q, path[0].link.target.value, NextGroup(group, path[0].plugin), used + {c}, path[1..]))
  }

  /** No caps on the way fits already: the search goes on from none that does. */
  predicate StopsAtFit(g: Graph, q: Query, path: seq<Node>) {
    forall i :: 0 <= i < |path| - 1 ==>
      path[i].link.target.Some? && path[i].link.target.value < |g| && !Fits(g, q, path[i].link.target.value)
  }

  // ----- the search -----

  predicate SortedByPriority(list: seq<Node>) {
    forall i, j :: 0 <= i < j < |list| ==> list[i].plugin.priority >= list[j].plugin.priority
  }

  /** g_slist_insert_sorted: before the first node of equal or lower priority. */
  function InsertSorted(list: seq<Node>, node: Node): (r: seq<Node>)
    ensures forall n :: n in r <==> n == node || n in list
    ensures SortedByPriority(list) ==> SortedByPriority(r)
  {
    if list == [] || node.plugin.priority >= list[0].plugin.priority then [node] + list
    else
      var rest := InsertSorted(list[1..], node);
      assert forall n :: n in list <==> n == list[0] || n in list[1..];
      assert SortedByPriority(list) ==> forall n :: n in rest ==> list[0].plugin.priority >= n.plugin.priority;
      [list[0]] + rest
  }

  /** Whether a processing plugin would run at the head of this chain. The source tests the first node in
      every turn, in the last turn against the preprocessing position instead. */
  predicate HeadProcesses(g: Graph, list: seq<Node>)
    requires list != [] && list[0].link.target.Some? && list[0].link.target.value < |g|
  {
    var caps := g[list[0].link.target.value];
    && !caps.typ.Disc?
    && exists m :: m in caps.modifiers && GetActive(m, false)
                   && (Preprocessing in m.processFlags || (|list| > 1 && BeforeTarget in m.processFlags))
  }

  method HaveProcessingPlugin(g: Graph, list: seq<Node>) returns (r: bool)
    requires list != [] && list[0].link.target.Some? && list[0].link.target.value < |g|
    ensures r <==> HeadProcesses(g, list)
  {
    var position := BeforeTarget;
    var caps := g[list[0].link.target.value];
    var i := 0;
    while i < |list|
      invariant i <= |list|
      invariant i < |list| ==> position == BeforeTarget
      invariant i > 0 && !caps.typ.Disc? ==>
                  forall m :: m in caps.modifiers && GetActive(m, false) && |list| > 1 ==>
                    BeforeTarget !in m.processFlags
      invariant i == |list| && !caps.typ.Disc? ==>
                  forall m :: m in caps.modifiers && GetActive(m, false) ==> Preprocessing !in m.processFlags
    {
      i := i + 1;
      if caps.typ.Disc? {
        continue;
      }
      if i == |list| {
        position := Preprocessing;
      }
      var k := 0;
      while k < |caps.modifiers|
        invariant k <= |caps.modifiers|
        invariant forall j :: 0 <= j < k && GetActive(caps.modifiers[j], false)
                              ==> position !in caps.modifiers[j].processFlags
      {
        if GetActive(caps.modifiers[k], false) && position in caps.modifiers[k].processFlags {
          return true;
        }
        k := k + 1;
      }
    }
    return false;
  }

  ghost predicate NoRouteVia(g: Graph, q: Query, c: nat, group: int, used: set<nat>, n: Node)
    requires WellFormed(g) && c < |g|
  {
    forall p :: IsRoute(g, q, c, group, used, p) ==> p[0] != n
  }

  ghost predicate BestVia(g: Graph, q: Query, c: nat, group: int, used: set<nat>, best: seq<Node>, n: Node)
    requires WellFormed(g) && c < |g|
  {
    forall p :: IsRoute(g, q, c, group, used, p) && p[0] == n ==> AtLeast(Priorities(best), Priorities(p))
  }

  /** The nodes a caps offers: one per followable link that lends a plugin. */
  predicate IsOffered(g: Graph, q: Query, c: nat, group: int, used: set<nat>, n: Node)
    requires WellFormed(g) && c < |g|
  {
    && n.link in g[c].links
    && Followable(g, q, c, used, n.link)
    && Pick(g, q, c, group, n.link) == Some(n.plugin)
  }

  lemma PrioritiesOfTail(p: seq<Node>)
    requires p != []
    ensures Priorities(p)[1..] == Priorities(p[1..]) && Priorities(p)[0] == p[0].plugin.priority
  {
  }

  /** A fitting caps ends the best chain through its node. */
  lemma FitEndsBest(g: Graph, q: Query, c: nat, group: int, used: set<nat>, n: Node)
    requires WellFormed(g) && c < |g| && IsOffered(g, q, c, group, used, n) && Fits(g, q, n.link.target.value)
    ensures IsRoute(g, q, c, group, used, [n]) && BestVia(g, q, c, group, used, [n], n) && StopsAtFit(g, q, [n])
  {
    forall p | IsRoute(g, q, c, group, used, p) && p[0] == n
      ensures AtLeast(Priorities([n]), Priorities(p))
    {
      PrioritiesOfTail(p);
      PrioritiesOfTail([n]);
    }
  }

  lemma RouteUnfolds(g: Graph, q: Query, c: nat, group: int, used: set<nat>, p: seq<Node>)
    requires WellFormed(g) && c < |g|
    ensures IsRoute(g, q, c, group, used, p) ==>
              if |p| == 1 then Fits(g, q, p[0].link.target.value)
              else IsRoute(g, q, p[0].link.target.value, NextGroup(group, p[0].plugin), used + {c}, p[1..])
  {
  }

  /** Without a continuation, a node that does not fit carries no route. */
  lemma DeadEnd(g: Graph, q: Query, c: nat, group: int, used: set<nat>, n: Node)
    requires WellFormed(g) && c < |g| && IsOffered(g, q, c, group, used, n) && !Fits(g, q, n.link.target.value)
    requires forall p :: !IsRoute(g, q, n.link.target.value, NextGroup(group, n.plugin), used + {c}, p)
    ensures NoRouteVia(g, q, c, group, used, n)
  {
    forall p | IsRoute(g, q, c, group, used, p)
      ensures p[0] != n
    {
      RouteUnfolds(g, q, c, group, used, p);
    }
  }

  /** A route from the target extends to one through the node, and a best one to a best one. */
  lemma Extend(g: Graph, q: Query, c: nat, group: int, used: set<nat>, n: Node, rest: seq<Node>)
    requires WellFormed(g) && c < |g| && IsOffered(g, q, c, group, used, n)
    requires IsRoute(g, q, n.link.target.value, NextGroup(group, n.plugin), used + {c}, rest)
    ensures IsRoute(g, q, c, group, used, [n] + rest)
    ensures !Fits(g, q, n.link.target.value) && StopsAtFit(g, q, rest) ==> StopsAtFit(g, q, [n] + rest)
    ensures !Fits(g, q, n.link.target.value)
            && (forall p :: IsRoute(g, q, n.link.target.value, NextGroup(group, n.plugin), used + {c}, p)
                            ==> AtLeast(Priorities(rest), Priorities(p)))
            ==> BestVia(g, q, c, group, used, [n] + rest, n)
  {
    var path := [n] + rest;
    assert path[1..] == rest;
    assert forall i :: 0 < i < |path| ==> path[i] == rest[i - 1];
    PrioritiesOfTail(path);
    if !Fits(g, q, n.link.target.value)
       && (forall p :: IsRoute(g, q, n.link.target.value, NextGroup(group, n.plugin), used + {c}, p)
                       ==> AtLeast(Priorities(rest), Priorities(p)))
    {
      forall p | IsRoute(g, q, c, group, used, p) && p[0] == n
        ensures AtLeast(Priorities(path), Priorities(p))
      {
        PrioritiesOfTail(p);
        assert IsRoute(g, q, n.link.target.value, NextGroup(group, n.plugin), used + {c}, p[1..]);
      }
    }
  }

  ghost function Below(n: nat): (r: set<nat>)
    ensures forall c: nat :: c in r <==> c < n
  {
    if n == 0 then {} else Below(n - 1) + {n - 1}
  }

  /** The nodes list holds exactly what c offers, highest priority first. */
  predicate IsCandidateList(g: Graph, q: Query, c: nat, group: int, used: set<nat>, list: seq<Node>)
    requires WellFormed(g) && c < |g|
  {
    && SortedByPriority(list)
    && (forall n :: n in list ==> IsOffered(g, q, c, group, used, n))
    && (forall k :: 0 <= k < |g[c].links| && Followable(g, q, c, used, g[c].links[k])
                    && Pick(g, q, c, group, g[c].links[k]).Some?
                    ==> Node(g[c].links[k], Pick(g, q, c, group, g[c].links[k]).value) in list)
  }

  /** First stage: collect the usable links, sorted by the priority of the plugin each one lends. */
  method CollectNodes(g: Graph, q: Query, c: nat, group: int, used: set<nat>) returns (list: seq<Node>)
    requires WellFormed(g) && c < |g|
    ensures IsCandidateList(g, q, c, group, used, list)
  {
    list := [];
    var i := 0;
    while i < |g[c].links|
      invariant i <= |g[c].links|
      invariant SortedByPriority(list)
      invariant forall n :: n in list ==> IsOffered(g, q, c, group, used, n)
      invariant forall k :: 0 <= k < i && Followable(g, q, c, used, g[c].links[k])
                            && Pick(g, q, c, group, g[c].links[k]).Some?
                            ==> Node(g[c].links[k], Pick(g, q, c, group, g[c].links[k]).value) in list
    {
      var link := g[c].links[i];
      i := i + 1;
      if link.target.None? || link.target.value in used {
        continue;
      }
      var target := g[link.target.value];
      if g[c].typ.Disc? && !RecorderInputOk(target.typ, q.flags) {
        continue;
      }
      if !Fits(g, q, link.target.value) && (target.io * q.io == {} || target.typ.Disc?) {
        continue;
      }
      var plugin := LinkFindPlugin(g, q, c, group, link);
      if plugin.None? {
        continue;
      }
      list := InsertSorted(list, Node(link, plugin.value));
    }
  }

  /** Every route starts with a node of the list. */
  lemma RoutesStartInList(g: Graph, q: Query, c: nat, group: int, used: set<nat>, list: seq<Node>, p: seq<Node>)
    requires WellFormed(g) && c < |g| && IsCandidateList(g, q, c, group, used, list)
    requires IsRoute(g, q, c, group, used, p)
    ensures p[0] in list
  {
    var k :| 0 <= k < |g[c].links| && g[c].links[k] == p[0].link;
    assert Node(g[c].links[k], Pick(g, q, c, group, g[c].links[k]).value) == p[0];
  }

  /** Runs the search from the caps behind a node, under the group that node settles. */
  method GetPluginResults(g: Graph, q: Query, node: Node, group: int, used: set<nat>) returns (results: seq<Node>)
    requires WellFormed(g) && node.link.target.Some? && node.link.target.value < |g|
    ensures var t, next := node.link.target.value, NextGroup(group, node.plugin);
            && (results != [] ==> IsRoute(g, q, t, next, used, results) && StopsAtFit(g, q, results))
            && (results == [] ==> forall p :: !IsRoute(g, q, t, next, used, p))
            && (results != [] && NoActiveModifiers(g) ==>
                  forall p :: IsRoute(g, q, t, next, used, p) ==> AtLeast(Priorities(results), Priorities(p)))
    decreases Below(|g|) - used, node.link.target.value in used, 2
  {
    var search := group;
    if node.plugin.group > 0 && group <= 0 {
      search := node.plugin.group;
    }
    results := FindBestLink(g, q, node.link.target.value, search, used);
  }

  /** find_best_link: sound, complete, terminating (also when caps link to themselves or in circles), and,
      as long as no processing plugin is on, optimal among all routes. No route is reported as []. */
  method FindBestLink(g: Graph, q: Query, c: nat, group: int, used: set<nat>) returns (results: seq<Node>)
    requires WellFormed(g) && c < |g|
    ensures results != [] ==> IsRoute(g, q, c, group, used, results) && StopsAtFit(g, q, results)
    ensures results == [] ==> forall p :: !IsRoute(g, q, c, group, used, p)
    ensures results != [] && NoActiveModifiers(g) ==>
              forall p :: IsRoute(g, q, c, group, used, p) ==> AtLeast(Priorities(results), Priorities(p))
    decreases Below(|g|) - used, c in used, 1
  {
    var list := CollectNodes(g, q, c, group, used);
    results := [];
    var behind := used + {c};
    var perfectFit, processing := false, false;
    var k := 0;
    while k < |list|
      invariant k <= |list| && results == [] && !perfectFit && !processing
      invariant forall m :: 0 <= m < k ==> NoRouteVia(g, q, c, group, used, list[m])
    {
      var n := list[k];
      assert n in list;
      if Fits(g, q, n.link.target.value) {
        perfectFit := true;
        FitEndsBest(g, q, c, group, used, n);
        assert [n] + results == [n];
        break;
      }
      results := GetPluginResults(g, q, n, group, behind);
      if results != [] {
        Extend(g, q, c, group, used, n, results);
        processing := HaveProcessingPlugin(g, results);
        break;
      }
      DeadEnd(g, q, c, group, used, n);
      k := k + 1;
    }
    if k == |list| {
      forall p ensures !IsRoute(g, q, c, group, used, p) {
        if IsRoute(g, q, c, group, used, p) {
          RoutesStartInList(g, q, c, group, used, list, p);
        }
      }
      return;
    }
    results := TryEqualPriorities(g, q, c, group, used, list, k, perfectFit, processing, results);
  }

  /** best is a route and, with no processing plugin on, no worse than any route through list[first..j]. */
  ghost predicate Standing(g: Graph, q: Query, c: nat, group: int, used: set<nat>, list: seq<Node>, first: nat, j: nat,
                           best: seq<Node>)
    requires WellFormed(g) && c < |g| && j <= |list|
  {
    && IsRoute(g, q, c, group, used, best) && StopsAtFit(g, q, best)
    && (NoActiveModifiers(g) ==> forall m :: first <= m < j ==> BestVia(g, q, c, group, used, best, list[m]))
  }

  lemma BestViaUpgrade(g: Graph, q: Query, c: nat, group: int, used: set<nat>, old_: seq<Node>, new_: seq<Node>,
                       n: Node)
    requires WellFormed(g) && c < |g| && BestVia(g, q, c, group, used, old_, n)
    requires AtLeast(Priorities(new_), Priorities(old_))
    ensures BestVia(g, q, c, group, used, new_, n)
  {
    forall p | IsRoute(g, q, c, group, used, p) && p[0] == n
      ensures AtLeast(Priorities(new_), Priorities(p))
    {
      AtLeastTransitive(Priorities(new_), Priorities(old_), Priorities(p));
    }
  }

  /** Adding one node: the standing chain is kept or exchanged, whichever is at least as good as the other. */
  lemma StandingGrows(g: Graph, q: Query, c: nat, group: int, used: set<nat>, list: seq<Node>, first: nat, j: nat,
                      kept: seq<Node>, via: seq<Node>, best: seq<Node>)
    requires WellFormed(g) && c < |g| && j < |list| && Standing(g, q, c, group, used, list, first, j, kept)
    requires IsRoute(g, q, c, group, used, via) && StopsAtFit(g, q, via)
    requires NoActiveModifiers(g) ==> BestVia(g, q, c, group, used, via, list[j])
    requires best == kept || best == via
    requires NoActiveModifiers(g) ==>
               AtLeast(Priorities(best), Priorities(kept)) && AtLeast(Priorities(best), Priorities(via))
    ensures Standing(g, q, c, group, used, list, first, j + 1, best)
  {
    if NoActiveModifiers(g) {
      forall m | first <= m < j + 1 ensures BestVia(g, q, c, group, used, best, list[m]) {
        BestViaUpgrade(g, q, c, group, used, if m == j then via else kept, best, list[m]);
      }
    }
  }

  lemma DeadEndStands(g: Graph, q: Query, c: nat, group: int, used: set<nat>, list: seq<Node>, first: nat, j: nat,
                      best: seq<Node>)
    requires WellFormed(g) && c < |g| && j < |list| && Standing(g, q, c, group, used, list, first, j, best)
    requires NoRouteVia(g, q, c, group, used, list[j])
    ensures Standing(g, q, c, group, used, list, first, j + 1, best)
  {
  }

  /** A chain that stands against all nodes of its own priority stands against every route. */
  lemma StandingIsOptimal(g: Graph, q: Query, c: nat, group: int, used: set<nat>, list: seq<Node>, first: nat, j: nat,
                          best: seq<Node>, p: seq<Node>)
    requires WellFormed(g) && c < |g| && IsCandidateList(g, q, c, group, used, list) && first < j <= |list|
    requires Standing(g, q, c, group, used, list, first, j, best) && NoActiveModifiers(g)
    requires forall m :: 0 <= m < first ==> NoRouteVia(g, q, c, group, used, list[m])
    requires forall m :: j <= m < |list| ==> list[m].plugin.priority < best[0].plugin.priority
    requires IsRoute(g, q, c, group, used, p)
    ensures AtLeast(Priorities(best), Priorities(p))
  {
    RoutesStartInList(g, q, c, group, used, list, p);
    var m :| 0 <= m < |list| && list[m] == p[0];
    assert m >= first;
    if m < j {
      assert BestVia(g, q, c, group, used, best, list[m]);
    }
  }

  lemma Headed(n: Node, a: seq<Node>, m: Node, b: seq<Node>)
    requires n.plugin.priority == m.plugin.priority
    ensures AtLeast(Priorities([n] + a), Priorities([m] + b)) == AtLeast(Priorities(a), Priorities(b))
  {
    PrioritiesOfTail([n] + a);
    PrioritiesOfTail([m] + b);
    assert ([n] + a)[1..] == a && ([m] + b)[1..] == b;
  }

  /** Third stage: the other nodes of the same priority are tried as well. A fitting caps wins over any
      longer chain, unless the longer chain makes a processing plugin run. */
  method TryEqualPriorities(g: Graph, q: Query, c: nat, group: int, used: set<nat>, list: seq<Node>, first: nat,
                            firstFits: bool, firstProcesses: bool, firstResults: seq<Node>)
    returns (results: seq<Node>)
    requires WellFormed(g) && c < |g| && IsCandidateList(g, q, c, group, used, list) && first < |list|
    requires firstFits <==> firstResults == []
    requires NoActiveModifiers(g) ==> !firstProcesses
    requires Standing(g, q, c, group, used, list, first, first + 1, [list[first]] + firstResults)
    requires forall m :: 0 <= m < first ==> NoRouteVia(g, q, c, group, used, list[m])
    ensures results != [] && IsRoute(g, q, c, group, used, results) && StopsAtFit(g, q, results)
    ensures NoActiveModifiers(g) ==>
              forall p :: IsRoute(g, q, c, group, used, p) ==> AtLeast(Priorities(results), Priorities(p))
    decreases Below(|g|) - used, c in used, 0
  {
    hide BestVia, NoRouteVia, StopsAtFit;
    var behind := used + {c};
    var node, perfectFit, processing := list[first], firstFits, firstProcesses;
    results := firstResults;
    var j := first + 1;
    while j < |list|
      invariant first < j <= |list|
      invariant node.plugin.priority == list[first].plugin.priority
      invariant perfectFit <==> results == []
      invariant NoActiveModifiers(g) ==> !processing
      invariant Standing(g, q, c, group, used, list, first, j, [node] + results)
    {
      var n := list[j];
      assert n in list;
      if n.plugin.priority != node.plugin.priority {
        break;
      }
      ghost var kept := [node] + results;
      if !Fits(g, q, n.link.target.value) {
        var others := GetPluginResults(g, q, n, group, behind);
        if others == [] {
          DeadEnd(g, q, c, group, used, n);
          DeadEndStands(g, q, c, group, used, list, first, j, kept);
        } else {
          Extend(g, q, c, group, used, n, others);
          Headed(node, results, n, others);
          Headed(n, others, node, results);
          AtLeastReflexive(Priorities(kept));
          AtLeastReflexive(Priorities([n] + others));
          if perfectFit {
            processing := HaveProcessingPlugin(g, others);
            if processing {
              results, perfectFit, node := others, false, n;
            }
          } else {
            var keepFirst := GetBestPath(results, others);
            if !keepFirst {
              results, node := others, n;
              processing := HaveProcessingPlugin(g, others);
            }
          }
          StandingGrows(g, q, c, group, used, list, first, j, kept, [n] + others, [node] + results);
        }
      } else {
        FitEndsBest(g, q, c, group, used, n);
        Headed(node, results, n, []);
        Headed(n, [], node, results);
        AtLeastReflexive(Priorities(kept));
        AtLeastReflexive(Priorities([n]));
        if !perfectFit && !processing {
          results, perfectFit, node := [], true, n;
        }
        assert [n] + [] == [n];
        StandingGrows(g, q, c, group, used, list, first, j, kept, [n], [node] + results);
      }
      j := j + 1;
    }
    forall p | NoActiveModifiers(g) && IsRoute(g, q, c, group, used, p)
      ensures AtLeast(Priorities([node] + results), Priorities(p))
    {
      StandingIsOptimal(g, q, c, group, used, list, first, j, [node] + results, p);
    }
    results := [node] + results;
  }

  // ----- what a route is, without groups and priorities -----

  predicate NoSelfLinks(g: Graph) {
    forall c, k :: 0 <= c < |g| && 0 <= k < |g[c].links| ==> g[c].links[k].target != Some(c)
  }

  predicate LinkUsable(g: Graph, q: Query, c: nat, used: set<nat>, link: Link)
    requires WellFormed(g) && c < |g|
  {
    && link in g[c].links
    && Followable(g, q, c, used, link)
    && exists p :: p in link.plugins && Eligible(g, q, c, link, p)
  }

  /** A chain of usable links to a caps that fits; any eligible plugin will do on each link. */
  predicate IsChain(g: Graph, q: Query, c: nat, used: set<nat>, links: seq<Link>)
    requires WellFormed(g) && c < |g|
    decreases |links|
  {
    && links != []
    && LinkUsable(g, q, c, used, links[0])
    && (if |links| == 1 then Fits(g, q, links[0].target.value)
        else IsChain(g, q, links[0].target.value, used + {c}, links[1..]))
  }

  function LinksOf(path: seq<Node>): (r: seq<Link>)
    ensures |r| == |path|
  {
    seq(|path|, i requires 0 <= i < |path| => path[i].link)
  }

  /** Every route runs along a chain. */
  lemma {:induction false} RouteIsChain(g: Graph, q: Query, c: nat, group: int, used: set<nat>, p: seq<Node>)
    requires WellFormed(g) && c < |g| && IsRoute(g, q, c, group, used, p)
    ensures IsChain(g, q, c, used, LinksOf(p))
    decreases |p|
  {
    PickIsBest(g, q, c, group, p[0].link, p[0].link.plugins);
    if |p| > 1 {
      RouteIsChain(g, q, p[0].link.target.value, NextGroup(group, p[0].plugin), used + {c}, p[1..]);
      assert LinksOf(p)[1..] == LinksOf(p[1..]);
    }
  }

  /** Every chain carries a route, whatever group the search starts with. */
  lemma {:induction false} ChainCarriesRoute(g: Graph, q: Query, c: nat, group: int, used: set<nat>, links: seq<Link>)
    returns (p: seq<Node>)
    requires WellFormed(g) && c < |g| && IsChain(g, q, c, used, links)
    ensures IsRoute(g, q, c, group, used, p) && LinksOf(p) == links
    decreases |links|
  {
    PickIsBest(g, q, c, group, links[0], links[0].plugins);
    var n := Node(links[0], Pick(g, q, c, group, links[0]).value);
    if |links| == 1 {
      p := [n];
    } else {
      var rest := ChainCarriesRoute(g, q, links[0].target.value, NextGroup(group, n.plugin), used + {c}, links[1..]);
      p := [n] + rest;
      assert p[1..] == rest;
      assert LinksOf(p) == [links[0]] + LinksOf(rest);
    }
  }

  ghost predicate HasRoute(g: Graph, q: Query, c: nat, group: int, used: set<nat>)
    requires WellFormed(g) && c < |g|
  {
    exists p :: IsRoute(g, q, c, group, used, p)
  }

  ghost predicate HasChain(g: Graph, q: Query, c: nat, used: set<nat>)
    requires WellFormed(g) && c < |g|
  {
    exists links :: IsChain(g, q, c, used, links)
  }

  /** Groups and priorities decide which route is taken, never whether there is one: the search fails
      exactly when no chain avoids the used caps. */
  lemma RoutesExistIffChainsDo(g: Graph, q: Query, c: nat, group: int, used: set<nat>)
    requires WellFormed(g) && c < |g|
    ensures HasRoute(g, q, c, group, used) <==> HasChain(g, q, c, used)
  {
    if HasRoute(g, q, c, group, used) {
      var p :| IsRoute(g, q, c, group, used, p);
      RouteIsChain(g, q, c, group, used, p);
    }
    if HasChain(g, q, c, used) {
      var links :| IsChain(g, q, c, used, links);
      var p := ChainCarriesRoute(g, q, c, group, used, links);
    }
  }

  /** A route steps from caps to caps, stays clear of the used caps, ends where the input fits, and, when no
      caps links to itself, never meets a caps twice. */
  lemma {:induction false} RouteIsSimple(g: Graph, q: Query, c: nat, group: int, used: set<nat>, p: seq<Node>)
    requires WellFormed(g) && c < |g| && IsRoute(g, q, c, group, used, p)
    ensures forall i :: 0 <= i < |p| ==> p[i].link.target.Some? && p[i].link.target.value < |g|
    ensures forall i :: 0 <= i < |p| ==>
              && p[i].link.target.value !in used
              && GetActive(p[i].plugin, false) && p[i].plugin in p[i].link.plugins
    ensures p[0].link in g[c].links
    ensures forall i :: 1 <= i < |p| ==> p[i].link in g[p[i - 1].link.target.value].links
    ensures Fits(g, q, p[|p| - 1].link.target.value)
    ensures NoSelfLinks(g) ==>
              && (forall i :: 0 <= i < |p| ==> p[i].link.target.value != c)
              && (forall i, j :: 0 <= i < j < |p| ==> p[i].link.target.value != p[j].link.target.value)
    decreases |p|
  {
    PickIsBest(g, q, c, group, p[0].link, p[0].link.plugins);
    if |p| > 1 {
      var t := p[0].link.target.value;
      RouteIsSimple(g, q, t, NextGroup(group, p[0].plugin), used + {c}, p[1..]);
      assert forall i :: 1 <= i < |p| ==> p[i] == p[1..][i - 1];
    }
  }

  // ----- the group a route keeps to -----

  /** The group settled when the j-th link of a route is taken: the one the search starts with, if that is one, or
      else the group of the first plugin before it that belongs to any. */
  predicate SettledBy(path: seq<Node>, j: nat, group: int, settled: int)
    requires j <= |path|
  {
    if group > 0 then settled == group
    else exists i :: 0 <= i < j && path[i].plugin.group == settled > 0
                     && forall k :: 0 <= k < i ==> path[k].plugin.group <= 0
  }

  /** No group is settled yet. */
  predicate Unsettled(path: seq<Node>, j: nat, group: int)
    requires j <= |path|
  {
    group <= 0 && forall i :: 0 <= i < j ==> path[i].plugin.group <= 0
  }

  /** The caps the j-th link of a route belongs to. */
  function CapsAt(c: nat, path: seq<Node>, j: nat): nat
    requires j < |path| && (j > 0 ==> path[j - 1].link.target.Some?)
  {
    if j == 0 then c else path[j - 1].link.target.value
  }

  /** The plugin of a route's link is eligible and, among those of its side that are, of the highest priority; the
      sides are the settled group and all the others, the group coming first. */
  ghost predicate KeepsToGroup(g: Graph, q: Query, c: nat, link: Link, plugin: Plugin, settled: int)
    requires c < |g| && link.target.Some? && link.target.value < |g|
  {
    && plugin in link.plugins && Eligible(g, q, c, link, plugin)
    && forall p :: p in link.plugins && Eligible(g, q, c, link, p) ==>
         && (p.group == settled ==> plugin.group == settled)
         && ((p.group == settled <==> plugin.group == settled) ==> p.priority <= plugin.priority)
  }

  /** As long as no group is settled, priority decides alone. */
  ghost predicate IsHighest(g: Graph, q: Query, c: nat, link: Link, plugin: Plugin)
    requires c < |g| && link.target.Some? && link.target.value < |g|
  {
    && plugin in link.plugins && Eligible(g, q, c, link, plugin)
    && forall p :: p in link.plugins && Eligible(g, q, c, link, p) ==> p.priority <= plugin.priority
  }

  lemma {:induction false} SettledBehind(path: seq<Node>, j: nat, group: int, settled: int)
    requires 0 < j <= |path|
    ensures SettledBy(path, j, group, settled)
            <==> SettledBy(path[1..], j - 1, NextGroup(group, path[0].plugin), settled)
  {
    if group <= 0 && path[0].plugin.group <= 0 {
      if SettledBy(path, j, group, settled) {
        var i :| 0 <= i < j && path[i].plugin.group == settled > 0
                 && forall k :: 0 <= k < i ==> path[k].plugin.group <= 0;
        assert path[1..][i - 1] == path[i];
      }
      if SettledBy(path[1..], j - 1, NextGroup(group, path[0].plugin), settled) {
        var i :| 0 <= i < j - 1 && path[1..][i].plugin.group == settled > 0
                 && forall k :: 0 <= k < i ==> path[1..][k].plugin.group <= 0;
        assert forall k :: 0 < k <= i + 1 ==> path[k] == path[1..][k - 1];
      }
    } else if group <= 0 && SettledBy(path, j, group, settled) {
      var i :| 0 <= i < j && path[i].plugin.group == settled > 0
               && forall k :: 0 <= k < i ==> path[k].plugin.group <= 0;
      assert i == 0;
    }
  }

  /** Whatever route the search returns: once a group is settled, every further link takes a plugin of that group if an
      eligible one is of it; before that, and among those of its side, it takes the highest priority. */
  lemma {:induction false} RouteKeepsToGroup(g: Graph, q: Query, c: nat, group: int, used: set<nat>, path: seq<Node>,
                                             j: nat)
    requires WellFormed(g) && c < |g| && IsRoute(g, q, c, group, used, path) && j < |path|
    ensures (j > 0 ==> path[j - 1].link.target.Some?) && CapsAt(c, path, j) < |g|
    ensures path[j].link.target.Some? && path[j].link.target.value < |g|
    ensures forall settled :: SettledBy(path, j, group, settled) ==>
              KeepsToGroup(g, q, CapsAt(c, path, j), path[j].link, path[j].plugin, settled)
    ensures Unsettled(path, j, group) ==>
              IsHighest(g, q, CapsAt(c, path, j), path[j].link, path[j].plugin)
    decreases j
  {
    PickIsBest(g, q, c, group, path[0].link, path[0].link.plugins);
    if j == 0 {
      assert group > 0 ==> SettledBy(path, j, group, group);
    } else {
      var t, next := path[0].link.target.value, NextGroup(group, path[0].plugin);
      RouteKeepsToGroup(g, q, t, next, used + {c}, path[1..], j - 1);
      assert CapsAt(t, path[1..], j - 1) == CapsAt(c, path, j) && path[1..][j - 1] == path[j];
      forall settled ensures SettledBy(path, j, group, settled) <==> SettledBy(path[1..], j - 1, next, settled) {
        SettledBehind(path, j, group, settled);
      }
    }
  }
}
