/** The plain reachability search over the capability graph (rejilla-caps-session.c, find_link), and why it
    agrees with the priority search. It keeps no list of used caps, so it is modelled on graphs without
    circles: `rank` gives every caps a height that falls along each link. */
module FindLink {
  import opened Flags
  import opened Plugins
  import opened Caps
  import BestLink

  datatype Ctx = Ctx(
    media: Media,
    input: TrackType,
    io: IoFlags,
    flags: BurnFlags,
    callback: Option<Plugin -> BurnResult>,
    ignoreErrors: bool,
    checkFlags: bool)

  predicate Ranked(g: Graph, rank: seq<nat>) {
    && |rank| == |g|
    && WellFormed(g)
    && forall c, k :: 0 <= c < |g| && 0 <= k < |g[c].links| && g[c].links[k].target.Some?
                      ==> rank[g[c].links[k].target.value] < rank[c]
  }

  /** rejilla_caps_find_link_set_ctx. */
  function SetCtx(sessionFlags: BurnFlags, strict: bool, input: TrackType, media: Media, checkFlags: bool,
                  callback: Option<Plugin -> BurnResult>): Ctx
  {
    Ctx(media,
        input,
        if !checkFlags then {File, Pipe} else if NoTmpFiles in sessionFlags then {Pipe} else {File},
        if checkFlags then sessionFlags else {},
        callback,
        callback.Some? || !strict,
        checkFlags)
  }

  predicate SomePlugin(link: Link, ignoreErrors: bool, accepts: Plugin -> bool) {
    exists p :: p in link.plugins && GetActive(p, ignoreErrors) && accepts(p)
  }

  method LinkSomePlugin(link: Link, ignoreErrors: bool, accepts: Plugin -> bool) returns (r: bool)
    ensures r == SomePlugin(link, ignoreErrors, accepts)
  {
    var i := 0;
    while i < |link.plugins|
      invariant i <= |link.plugins|
      invariant forall k :: 0 <= k < i ==> !(GetActive(link.plugins[k], ignoreErrors) && accepts(link.plugins[k]))
    {
      if GetActive(link.plugins[i], ignoreErrors) && accepts(link.plugins[i]) {
        return true;
      }
      i := i + 1;
    }
    return false;
  }

  predicate RecordFlagsOk(link: Link, ctx: Ctx) {
    ctx.flags * BURN_FLAG_MASK == {}
    || SomePlugin(link, ctx.ignoreErrors, p => CheckRecordFlags(p, ctx.media, ctx.flags))
  }

  predicate DataFlagsOk(link: Link, ctx: Ctx) {
    ctx.flags * IMAGE_FLAG_MASK == {}
    || SomePlugin(link, ctx.ignoreErrors, p => CheckImageFlags(p, ctx.media, ctx.flags))
  }

  predicate MediaOk(link: Link, ctx: Ctx) {
    SomePlugin(link, ctx.ignoreErrors, p => CheckMediaRestrictions(p, ctx.media))
  }

  /** The link survives every test that does not look behind its target. */
  predicate Open(g: Graph, ctx: Ctx, c: nat, link: Link)
    requires c < |g| && (link.target.Some? ==> link.target.value < |g|)
  {
    && link.target.Some?
    && LinkIsActive(link, ctx.ignoreErrors)
    && (ctx.checkFlags && g[c].typ.Disc? ==>
          RecordFlagsOk(link, ctx) && RecorderInputOk(g[link.target.value].typ, ctx.flags))
    && (if g[link.target.value].typ.Data? then ctx.checkFlags ==> DataFlagsOk(link, ctx) else MediaOk(link, ctx))
  }

  predicate Fits(g: Graph, ctx: Ctx, t: nat)
    requires t < |g|
  {
    File in g[t].io && CompatibleType(g[t].typ, ctx.input)
  }

  /** The input can be reached through this link. */
  ghost predicate LeadsToInput(g: Graph, rank: seq<nat>, ctx: Ctx, c: nat, k: nat)
    requires Ranked(g, rank) && c < |g| && k < |g[c].links|
    decreases rank[c], 0
  {
    var link := g[c].links[k];
    && Open(g, ctx, c, link)
    && (Fits(g, ctx, link.target.value)
        || (!g[link.target.value].typ.Disc? && g[link.target.value].io * ctx.io != {}
            && Reaches(g, rank, ctx, link.target.value)))
  }

  /** The input can be reached from this caps. */
  ghost predicate Reaches(g: Graph, rank: seq<nat>, ctx: Ctx, c: nat)
    requires Ranked(g, rank) && c < |g|
    decreases rank[c], 1
  {
    exists k :: 0 <= k < |g[c].links| && LeadsToInput(g, rank, ctx, c, k)
  }

  /** Asks for the parts a link still misses. */
  method ReportMissing(ctx: Ctx, link: Link) returns (r: BurnResult)
    ensures ctx.callback.None? ==> r == BurnOk
  {
    r := BurnOk;
    if ctx.callback.Some? {
      var plugin := LinkNeedDownload(link);
      if plugin.Some? {
        r := ctx.callback.value(plugin.value);
      }
    }
  }

  /** find_link: without a callback the answer is OK exactly when the input can be reached; with one, OK
      still means it can be reached. */
  method FindLink(g: Graph, ghost rank: seq<nat>, ctx: Ctx, c: nat) returns (result: BurnResult)
    requires Ranked(g, rank) && c < |g|
    ensures result == BurnOk ==> Reaches(g, rank, ctx, c)
    ensures ctx.callback.None? ==> result == if Reaches(g, rank, ctx, c) then BurnOk else NotSupported
    decreases rank[c]
  {
    var i := 0;
    while i < |g[c].links|
      invariant i <= |g[c].links|
      invariant ctx.callback.None? ==> forall k :: 0 <= k < i ==> !LeadsToInput(g, rank, ctx, c, k)
    {
      var link := g[c].links[i];
      ghost var here := i;
      i := i + 1;
      if link.target.None? {
        continue;
      }
      var active := LinkActive(link, ctx.ignoreErrors);
      if !active {
        continue;
      }
      var target := g[link.target.value];
      if ctx.checkFlags && g[c].typ.Disc? {
        if ctx.flags * BURN_FLAG_MASK != {} {
          var records := LinkSomePlugin(link, ctx.ignoreErrors, p => CheckRecordFlags(p, ctx.media, ctx.flags));
          if !records {
            continue;
          }
        }
        if !RecorderInputOk(target.typ, ctx.flags) {
          continue;
        }
      }
      if target.typ.Data? {
        if ctx.checkFlags && ctx.flags * IMAGE_FLAG_MASK != {} {
          var images := LinkSomePlugin(link, ctx.ignoreErrors, p => CheckImageFlags(p, ctx.media, ctx.flags));
          if !images {
            continue;
          }
        }
      } else {
        var allowed := LinkSomePlugin(link, ctx.ignoreErrors, p => CheckMediaRestrictions(p, ctx.media));
        if !allowed {
          continue;
        }
      }
      assert Open(g, ctx, c, link);
      if Fits(g, ctx, link.target.value) {
        assert LeadsToInput(g, rank, ctx, c, here);
        result := ReportMissing(ctx, link);
        return;
      }
      if target.typ.Disc? || target.io * ctx.io == {} {
        continue;
      }
      result := FindLink(g, rank, ctx, link.target.value);
      if result == Cancel {
        return;
      }
      if result == BurnOk {
        assert LeadsToInput(g, rank, ctx, c, here);
        result := ReportMissing(ctx, link);
        return;
      }
    }
    result := NotSupported;
  }

  /** The query the priority search answers for the same session. */
  function QueryOf(ctx: Ctx): BestLink.Query {
    BestLink.Query(ctx.flags, ctx.media, ctx.input, ctx.io)
  }

  /** A plugin eligible for the priority search passes every test of the plain one, in strict and in lenient
      mode alike. */
  lemma EligibleIsOpen(g: Graph, ctx: Ctx, c: nat, link: Link, used: set<nat>, p: Plugin)
    requires c < |g| && link.target.Some? && link.target.value < |g|
    requires BestLink.Followable(g, QueryOf(ctx), c, used, link)
    requires p in link.plugins && BestLink.Eligible(g, QueryOf(ctx), c, link, p)
    ensures Open(g, ctx, c, link)
  {
    assert GetActive(p, ctx.ignoreErrors);
    assert g[c].typ.Disc? ==> (p => CheckRecordFlags(p, ctx.media, ctx.flags))(p);
    if g[link.target.value].typ.Data? {
      assert (p => CheckImageFlags(p, ctx.media, ctx.flags))(p);
    } else {
      assert (p => CheckMediaRestrictions(p, ctx.media))(p);
    }
  }

  /** Whenever the priority search has a route, the plain search finds the input. */
  lemma {:induction false} RouteReaches(g: Graph, rank: seq<nat>, ctx: Ctx, c: nat, group: int, used: set<nat>,
                                        path: seq<BestLink.Node>)
    requires Ranked(g, rank) && c < |g|
    requires BestLink.IsRoute(g, QueryOf(ctx), c, group, used, path)
    ensures Reaches(g, rank, ctx, c)
    decreases |path|
  {
    var link := path[0].link;
    BestLink.PickIsBest(g, QueryOf(ctx), c, group, link, link.plugins);
    EligibleIsOpen(g, ctx, c, link, used, path[0].plugin);
    var k :| 0 <= k < |g[c].links| && g[c].links[k] == link;
    if |path| > 1 && !Fits(g, ctx, link.target.value) {
      RouteReaches(g, rank, ctx, link.target.value, BestLink.NextGroup(group, path[0].plugin), used + {c}, path[1..]);
    }
    assert LeadsToInput(g, rank, ctx, c, k);
  }

  /** Both searches on one session, flags checked and no callback: a chain from the first means OK from the
      second, whichever way plugin errors are treated. */
  method SearchesAgree(g: Graph, ghost rank: seq<nat>, c: nat, group: int, flags: BurnFlags, strict: bool,
                       input: TrackType, media: Media)
    returns (path: seq<BestLink.Node>, result: BurnResult)
    requires Ranked(g, rank) && c < |g|
    ensures path != [] ==> result == BurnOk
    ensures result != BurnOk ==> path == [] && result == NotSupported
  {
    var ctx := SetCtx(flags, strict, input, media, true, None);
    path := BestLink.FindBestLink(g, QueryOf(ctx), c, group, {});
    result := FindLink(g, rank, ctx, c);
    if path != [] {
      RouteReaches(g, rank, ctx, c, group, {}, path);
    }
  }

  // ----- where they do not -----

  /** On every link that passes the plain search's tests, plugin by plugin, one plugin passes those of the priority
      search all by itself. */
  ghost predicate OnePassesAll(g: Graph, ctx: Ctx)
    requires WellFormed(g)
  {
    forall c, k :: 0 <= c < |g| && 0 <= k < |g[c].links| && Open(g, ctx, c, g[c].links[k]) ==>
      exists p :: p in g[c].links[k].plugins && BestLink.Eligible(g, QueryOf(ctx), c, g[c].links[k], p)
  }

  /** Then what the plain search reaches, a chain of links of the priority search leads to. */
  lemma {:induction false} ReachedByChain(g: Graph, rank: seq<nat>, ctx: Ctx, c: nat, used: set<nat>)
    returns (links: seq<Link>)
    requires Ranked(g, rank) && c < |g| && ctx.checkFlags && OnePassesAll(g, ctx) && Reaches(g, rank, ctx, c)
    requires forall u :: u in used ==> u < |g| && rank[u] > rank[c]
    ensures BestLink.IsChain(g, QueryOf(ctx), c, used, links)
    decreases rank[c]
  {
    var k :| 0 <= k < |g[c].links| && LeadsToInput(g, rank, ctx, c, k);
    var link := g[c].links[k];
    assert BestLink.LinkUsable(g, QueryOf(ctx), c, used, link);
    if Fits(g, ctx, link.target.value) {
      links := [link];
    } else {
      var rest := ReachedByChain(g, rank, ctx, link.target.value, used + {c});
      links := [link] + rest;
      assert links[1..] == rest;
    }
  }

  /** The two searches agree both ways as long as no link owes its passing to different plugins. */
  lemma {:induction false} SearchesAgreeIff(g: Graph, rank: seq<nat>, ctx: Ctx, c: nat, group: int)
    requires Ranked(g, rank) && c < |g| && ctx.checkFlags && OnePassesAll(g, ctx)
    ensures Reaches(g, rank, ctx, c) <==> BestLink.HasRoute(g, QueryOf(ctx), c, group, {})
  {
    BestLink.RoutesExistIffChainsDo(g, QueryOf(ctx), c, group, {});
    if Reaches(g, rank, ctx, c) {
      var links := ReachedByChain(g, rank, ctx, c, {});
    }
    if BestLink.HasRoute(g, QueryOf(ctx), c, group, {}) {
      var path :| BestLink.IsRoute(g, QueryOf(ctx), c, group, {}, path);
      RouteReaches(g, rank, ctx, c, group, {}, path);
    }
  }

  /** They need not agree: of a session that asks for no flags the plain search checks none, so a recorder that insists
      on DAO will do for it; the priority search finds nothing. */
  lemma {:induction false} PlainFindsMore(id: nat, group: int) returns (g: Graph, rank: seq<nat>, ctx: Ctx)
    ensures Ranked(g, rank) && |g| == 2 && ctx == SetCtx({}, true, Data({}), {MediumCd}, true, None)
    ensures Reaches(g, rank, ctx, 0) && !BestLink.HasRoute(g, QueryOf(ctx), 0, group, {})
  {
    var p := Plugin(id, true, true, false, 0, 0, [MediaFlags({MediumCd}, [FlagPair({Dao}, {Dao})])], [], {});
    var link := Link(Some(1), [p]);
    g := [Caps([link], [], Disc({MediumCd}), {}), Caps([], [], Data({}), {File})];
    rank := [1, 0];
    ctx := SetCtx({}, true, Data({}), {MediumCd}, true, None);
    var q := QueryOf(ctx);
    assert {} * BURN_FLAG_MASK == {} && {} * IMAGE_FLAG_MASK == {};
    assert p in link.plugins && GetActive(p, false);
    assert Open(g, ctx, 0, link) && LeadsToInput(g, rank, ctx, 0, 0);
    assert Reaches(g, rank, ctx, 0);
    AllFlagsExact(p.flags, true, {MediumCd}, BURN_FLAG_MASK, {});
    assert PairsFor(p.flags, {MediumCd}) == [FlagPair({Dao}, {Dao})];
    assert Dao in {Dao} * BURN_FLAG_MASK && !BestLink.Eligible(g, q, 0, link, p);
    BestLink.PickIsBest(g, q, 0, group, link, link.plugins);
    assert g[0].links == [link];
    forall path ensures !BestLink.IsRoute(g, q, 0, group, {}, path) {
    }
  }
}
