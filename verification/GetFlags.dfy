/** Which burn flags a session may and must use (rejilla-caps-session.c, get_flags): a walk over the same
    graph as the searches, adding up what every way to the input supports and requires. Like find_link it
    keeps no list of used caps and is modelled on graphs without circles. */
module GetFlags {
  import opened Flags
  import opened Plugins
  import opened Caps
  import FindLink

  datatype Walk = Walk(ignoreErrors: bool, flags: BurnFlags, media: Media, input: TrackType, io: IoFlags)

  datatype LinkAnswer = LinkAnswer(supported: BurnFlags, compulsory: BurnFlags)

  /** The state of a walk: what is returned, and the two flag sets the caller passed by reference. */
  datatype Acc = Acc(io: IoFlags, supported: BurnFlags, compulsory: BurnFlags)

  /** At least as much is supported and at most as much is required. */
  predicate Eases(a: LinkAnswer, b: LinkAnswer) {
    b.supported <= a.supported && a.compulsory <= b.compulsory
  }

  predicate Richer(a: Acc, b: Acc) {
    b.io <= a.io && b.supported <= a.supported && a.compulsory <= b.compulsory
  }

  // ----- what one link allows -----

  function RecordAnswer(plugins: seq<Plugin>, w: Walk): LinkAnswer {
    if plugins == [] then LinkAnswer({}, FLAG_ALL)
    else
      var last, acc := plugins[|plugins| - 1], RecordAnswer(plugins[..|plugins| - 1], w);
      var a := GetRecordFlags(last, w.media, w.flags);
      if GetActive(last, w.ignoreErrors) && a.found
      then LinkAnswer(acc.supported + a.supported, acc.compulsory * a.compulsory) else acc
  }

  function DataAnswer(plugins: seq<Plugin>, w: Walk): BurnFlags {
    if plugins == [] then {}
    else
      var last, acc := plugins[|plugins| - 1], DataAnswer(plugins[..|plugins| - 1], w);
      if GetActive(last, w.ignoreErrors) then acc + GetImageFlags(last, w.media, w.flags).supported else acc
  }

  method LinkGetRecordFlags(link: Link, w: Walk) returns (answer: LinkAnswer)
    ensures answer == RecordAnswer(link.plugins, w)
  {
    answer := LinkAnswer({}, FLAG_ALL);
    for i := 0 to |link.plugins|
      invariant answer == RecordAnswer(link.plugins[..i], w)
    {
      var plugin := link.plugins[i];
      assert link.plugins[..i + 1][..i] == link.plugins[..i];
      if GetActive(plugin, w.ignoreErrors) {
        var a := GetRecordFlags(plugin, w.media, w.flags);
        if a.found {
          answer := LinkAnswer(answer.supported + a.supported, answer.compulsory * a.compulsory);
        }
      }
    }
    assert link.plugins[..|link.plugins|] == link.plugins;
  }

  method LinkGetDataFlags(link: Link, w: Walk) returns (supported: BurnFlags)
    ensures supported == DataAnswer(link.plugins, w)
  {
    supported := {};
    for i := 0 to |link.plugins|
      invariant supported == DataAnswer(link.plugins[..i], w)
    {
      var plugin := link.plugins[i];
      assert link.plugins[..i + 1][..i] == link.plugins[..i];
      if GetActive(plugin, w.ignoreErrors) {
        supported := supported + GetImageFlags(plugin, w.media, w.flags).supported;
      }
    }
    assert link.plugins[..|link.plugins|] == link.plugins;
  }

  /** rejilla_caps_set_flags_from_recorder_input. */
  function FromRecorderInput(input: TrackType, a: LinkAnswer): Option<LinkAnswer> {
    if !input.Image? then Some(a)
    else if input.format == {Cue} || input.format == {Cdrdao} then
      if Dao in a.supported then Some(LinkAnswer(a.supported, a.compulsory + {Dao})) else None
    else if input.format == {Clone} then
      if Raw in a.supported then Some(LinkAnswer(a.supported - {Dao}, a.compulsory - {Dao} + {Raw})) else None
    else Some(LinkAnswer(a.supported - {Raw}, a.compulsory))
  }

  /** The recording half of a link's test: nothing to test unless the output is a disc. */
  function RecorderPart(g: Graph, w: Walk, c: nat, link: Link): Option<LinkAnswer>
    requires c < |g| && link.target.Some? && link.target.value < |g|
  {
    if !g[c].typ.Disc? then Some(LinkAnswer({}, FLAG_ALL))
    else
      var a := RecordAnswer(link.plugins, w);
      if w.flags * BURN_FLAG_MASK <= a.supported then FromRecorderInput(g[link.target.value].typ, a) else None
  }

  /** The imaging half: None when the link cannot take the data flags or the medium. */
  function DataPart(g: Graph, w: Walk, link: Link): Option<BurnFlags>
    requires link.target.Some? && link.target.value < |g|
  {
    if g[link.target.value].typ.Data? then
      var supported := DataAnswer(link.plugins, w);
      if w.flags * IMAGE_FLAG_MASK <= supported then Some(supported) else None
    else if FindLink.SomePlugin(link, w.ignoreErrors, p => CheckMediaRestrictions(p, w.media)) then Some({}) else None
  }

  /** What the link contributes; None when the walk skips it. */
  function OfLink(g: Graph, w: Walk, c: nat, link: Link): Option<LinkAnswer>
    requires c < |g| && (link.target.Some? ==> link.target.value < |g|)
  {
    if link.target.None? || !LinkIsActive(link, w.ignoreErrors) then None
    else
      var record, data := RecorderPart(g, w, c, link), DataPart(g, w, link);
      if record.Some? && data.Some?
      then Some(LinkAnswer(data.value + record.value.supported, record.value.compulsory)) else None
  }

  // ----- the walk -----

  predicate Fits(g: Graph, w: Walk, t: nat)
    requires t < |g|
  {
    File in g[t].io && CompatibleType(g[t].typ, w.input)
  }

  function Take(acc: Acc, io: IoFlags, a: LinkAnswer): Acc {
    Acc(acc.io + io, acc.supported + a.supported, acc.compulsory * a.compulsory)
  }

  /** The walk goes on behind this link. */
  predicate LeadsOn(g: Graph, w: Walk, c: nat, link: Link)
    requires c < |g| && (link.target.Some? ==> link.target.value < |g|)
  {
    && OfLink(g, w, c, link).Some? && !Fits(g, w, link.target.value)
    && g[link.target.value].io * w.io != {} && !g[link.target.value].typ.Disc?
  }

  /** What one link makes of the state; `behind` is the state after the walk behind it, if there is one. */
  function AfterLink(g: Graph, w: Walk, c: nat, link: Link, acc: Acc, behind: Acc): Acc
    requires c < |g| && (link.target.Some? ==> link.target.value < |g|)
  {
    var a := OfLink(g, w, c, link);
    if a.None? then acc
    else if Fits(g, w, link.target.value) then Take(acc, if g[c].typ.Disc? then {Pipe} else g[c].io, a.value)
    else if !LeadsOn(g, w, c, link) then acc
    else if behind.io == {} then behind.(io := acc.io)
    else Take(behind.(io := acc.io), behind.io * w.io, a.value)
  }

  /** The state after the first n links of c. */
  function Visit(g: Graph, rank: seq<nat>, w: Walk, c: nat, n: nat, start: Acc): Acc
    requires FindLink.Ranked(g, rank) && c < |g| && n <= |g[c].links|
    decreases rank[c], n
  {
    if n == 0 then start
    else
      var acc, link := Visit(g, rank, w, c, n - 1, start), g[c].links[n - 1];
      AfterLink(g, w, c, link, acc,
                if LeadsOn(g, w, c, link)
                then Visit(g, rank, w, link.target.value, |g[link.target.value].links|, acc.(io := {})) else acc)
  }

  method WalkFlags(g: Graph, ghost rank: seq<nat>, w: Walk, c: nat, supported: BurnFlags, compulsory: BurnFlags)
    returns (acc: Acc)
    requires FindLink.Ranked(g, rank) && c < |g|
    ensures acc == Visit(g, rank, w, c, |g[c].links|, Acc({}, supported, compulsory))
    decreases rank[c]
  {
    ghost var start := Acc({}, supported, compulsory);
    acc := Acc({}, supported, compulsory);
    var i := 0;
    while i < |g[c].links|
      invariant i <= |g[c].links|
      invariant acc == Visit(g, rank, w, c, i, start)
    {
      var link := g[c].links[i];
      i := i + 1;
      if link.target.None? {
        continue;
      }
      var active := LinkActive(link, w.ignoreErrors);
      if !active {
        continue;
      }
      var t := link.target.value;
      var record := LinkAnswer({}, FLAG_ALL);
      if g[c].typ.Disc? {
        record := LinkGetRecordFlags(link, w);
        if !(w.flags * BURN_FLAG_MASK <= record.supported) {
          continue;
        }
        var adjusted := FromRecorderInput(g[t].typ, record);
        if adjusted.None? {
          continue;
        }
        record := adjusted.value;
      }
      var data := {};
      if g[t].typ.Data? {
        data := LinkGetDataFlags(link, w);
        if !(w.flags * IMAGE_FLAG_MASK <= data) {
          continue;
        }
      } else {
        var allowed := FindLink.LinkSomePlugin(link, w.ignoreErrors, p => CheckMediaRestrictions(p, w.media));
        if !allowed {
          continue;
        }
      }
      if Fits(g, w, t) {
        var io := if g[c].typ.Disc? then {Pipe} else g[c].io;
        acc := Acc(acc.io + io, acc.supported + (data + record.supported), acc.compulsory * record.compulsory);
        continue;
      }
      if g[t].io * w.io == {} || g[t].typ.Disc? {
        continue;
      }
      var sub := WalkFlags(g, rank, w, t, acc.supported, acc.compulsory);
      acc := acc.(supported := sub.supported, compulsory := sub.compulsory);
      if sub.io == {} {
        continue;
      }
      acc := Acc(acc.io + sub.io * w.io,
                 acc.supported + (data + record.supported),
                 acc.compulsory * record.compulsory);
    }
  }

  // ----- fewer session flags never hurt -----

  lemma {:induction false} RecordAnswerEases(plugins: seq<Plugin>, few: Walk, many: Walk)
    requires few == many.(flags := few.flags) && few.flags <= many.flags
    ensures Eases(RecordAnswer(plugins, few), RecordAnswer(plugins, many))
  {
    if plugins != [] {
      var last := plugins[|plugins| - 1];
      RecordAnswerEases(plugins[..|plugins| - 1], few, many);
      FewerFlagsAnswerMore(last.flags, few.media, BURN_FLAG_MASK,
                           few.flags * BURN_FLAG_MASK, many.flags * BURN_FLAG_MASK);
    }
  }

  lemma {:induction false} DataAnswerEases(plugins: seq<Plugin>, few: Walk, many: Walk)
    requires few == many.(flags := few.flags) && few.flags <= many.flags
    ensures DataAnswer(plugins, many) <= DataAnswer(plugins, few)
  {
    if plugins != [] {
      var last := plugins[|plugins| - 1];
      DataAnswerEases(plugins[..|plugins| - 1], few, many);
      FewerFlagsAnswerMore(last.flags, few.media, IMAGE_FLAG_MASK,
                           few.flags * IMAGE_FLAG_MASK, many.flags * IMAGE_FLAG_MASK);
    }
  }

  lemma OfLinkEases(g: Graph, few: Walk, many: Walk, c: nat, link: Link)
    requires few == many.(flags := few.flags) && few.flags <= many.flags
    requires c < |g| && (link.target.Some? ==> link.target.value < |g|)
    ensures OfLink(g, many, c, link).Some? ==>
              && OfLink(g, few, c, link).Some?
              && Eases(OfLink(g, few, c, link).value, OfLink(g, many, c, link).value)
  {
    RecordAnswerEases(link.plugins, few, many);
    DataAnswerEases(link.plugins, few, many);
  }

  /** A walk only ever adds ways. */
  lemma {:induction false} VisitAdds(g: Graph, rank: seq<nat>, w: Walk, c: nat, n: nat, start: Acc)
    requires FindLink.Ranked(g, rank) && c < |g| && n <= |g[c].links|
    ensures Richer(Visit(g, rank, w, c, n, start), start)
    decreases rank[c], n
  {
    if n > 0 {
      VisitAdds(g, rank, w, c, n - 1, start);
      var acc, link := Visit(g, rank, w, c, n - 1, start), g[c].links[n - 1];
      if LeadsOn(g, w, c, link) {
        VisitAdds(g, rank, w, link.target.value, |g[link.target.value].links|, acc.(io := {}));
      }
    }
  }

  /** One link with fewer flags: it is not skipped if it was not with more, and brings no less. */
  lemma {:induction false} LinkEases(g: Graph, few: Walk, many: Walk, c: nat, link: Link, acc: Acc, acc': Acc,
                                     behind: Acc, behind': Acc)
    requires c < |g| && (link.target.Some? ==> link.target.value < |g|)
    requires few == many.(flags := few.flags) && few.flags <= many.flags && Richer(acc, acc')
    requires LeadsOn(g, few, c, link) ==> Richer(behind, acc.(io := {}))
    requires LeadsOn(g, few, c, link) && LeadsOn(g, many, c, link) ==> Richer(behind, behind')
    ensures Richer(AfterLink(g, few, c, link, acc, behind), AfterLink(g, many, c, link, acc', behind'))
  {
    OfLinkEases(g, few, many, c, link);
  }

  lemma {:induction false} VisitEases(g: Graph, rank: seq<nat>, few: Walk, many: Walk, c: nat, n: nat,
                                      start: Acc, start': Acc)
    requires FindLink.Ranked(g, rank) && c < |g| && n <= |g[c].links|
    requires few == many.(flags := few.flags) && few.flags <= many.flags
    requires Richer(start, start')
    ensures Richer(Visit(g, rank, few, c, n, start), Visit(g, rank, many, c, n, start'))
    decreases rank[c], n
  {
    if n > 0 {
      var link := g[c].links[n - 1];
      VisitEases(g, rank, few, many, c, n - 1, start, start');
      var acc, acc' := Visit(g, rank, few, c, n - 1, start), Visit(g, rank, many, c, n - 1, start');
      var behind, behind' := acc, acc';
      if LeadsOn(g, few, c, link) {
        var t := link.target.value;
        behind := Visit(g, rank, few, t, |g[t].links|, acc.(io := {}));
        VisitAdds(g, rank, few, t, |g[t].links|, acc.(io := {}));
        VisitEases(g, rank, few, many, t, |g[t].links|, acc.(io := {}), acc'.(io := {}));
      }
      if LeadsOn(g, many, c, link) {
        behind' := Visit(g, rank, many, link.target.value, |g[link.target.value].links|, acc'.(io := {}));
      }
      LinkEases(g, few, many, c, link, acc, acc', behind, behind');
    }
  }

  /** If the input is reached with some session flags, it is reached with any subset of them, with at least
      as many flags supported and at most as many compulsory. */
  lemma {:induction false} FewerFlagsReachMore(g: Graph, rank: seq<nat>, few: Walk, many: Walk, c: nat,
                            supported: BurnFlags, compulsory: BurnFlags)
    requires FindLink.Ranked(g, rank) && c < |g|
    requires few == many.(flags := few.flags) && few.flags <= many.flags
    ensures var start := Acc({}, supported, compulsory);
            var a, b := Visit(g, rank, few, c, |g[c].links|, start), Visit(g, rank, many, c, |g[c].links|, start);
            (b.io != {} ==> a.io != {}) && Richer(a, b)
  {
    var start := Acc({}, supported, compulsory);
    VisitEases(g, rank, few, many, c, |g[c].links|, start, start);
  }

  // ----- agreement with the searches -----

  function WalkOf(ctx: FindLink.Ctx): Walk {
    Walk(ctx.ignoreErrors, ctx.flags, ctx.media, ctx.input, ctx.io)
  }

  /** A walk for the same session that may use at least the same ways; get_flags_for_disc walks with both. */
  predicate Serves(w: Walk, ctx: FindLink.Ctx) {
    w == WalkOf(ctx).(io := w.io) && ctx.io <= w.io
  }

  /** A plugin whose flags pass the check supports them. */
  lemma {:induction false} CheckedIsSupported(p: Plugin, media: Media, flags: BurnFlags)
    ensures CheckRecordFlags(p, media, flags) ==>
              GetRecordFlags(p, media, flags).found
              && flags * BURN_FLAG_MASK <= GetRecordFlags(p, media, flags).supported
    ensures CheckImageFlags(p, media, flags) ==>
              flags * IMAGE_FLAG_MASK <= GetImageFlags(p, media, flags).supported
  {
    var pairs := PairsFor(p.flags, media);
    AllFlagsExact(p.flags, true, media, BURN_FLAG_MASK, flags * BURN_FLAG_MASK);
    AllFlagsExact(p.flags, false, media, BURN_FLAG_MASK, flags * BURN_FLAG_MASK);
    AllFlagsExact(p.flags, true, media, IMAGE_FLAG_MASK, flags * IMAGE_FLAG_MASK);
    AllFlagsExact(p.flags, false, media, IMAGE_FLAG_MASK, flags * IMAGE_FLAG_MASK);
    assert forall q, mask, current :: q in pairs && PairMatches(q, true, mask, current) ==>
           PairMatches(q, false, mask, current);
  }

  lemma {:induction false} OneAnswers(plugins: seq<Plugin>, w: Walk, p: Plugin)
    requires p in plugins && GetActive(p, w.ignoreErrors)
    ensures CheckRecordFlags(p, w.media, w.flags) ==> w.flags * BURN_FLAG_MASK <= RecordAnswer(plugins, w).supported
    ensures CheckImageFlags(p, w.media, w.flags) ==> w.flags * IMAGE_FLAG_MASK <= DataAnswer(plugins, w)
  {
    var init, last := plugins[..|plugins| - 1], plugins[|plugins| - 1];
    assert plugins == init + [last];
    if p == last {
      CheckedIsSupported(p, w.media, w.flags);
    } else {
      OneAnswers(init, w, p);
    }
  }

  /** A link the plain search would take is not skipped by the walk. */
  lemma {:induction false} OpenContributes(g: Graph, ctx: FindLink.Ctx, w: Walk, c: nat, link: Link)
    requires c < |g| && link.target.Some? && link.target.value < |g|
    requires ctx.checkFlags && FindLink.Open(g, ctx, c, link) && Serves(w, ctx)
    ensures OfLink(g, w, c, link).Some?
  {
    if g[c].typ.Disc? && ctx.flags * BURN_FLAG_MASK != {} {
      var p :| p in link.plugins && GetActive(p, ctx.ignoreErrors) && CheckRecordFlags(p, ctx.media, ctx.flags);
      OneAnswers(link.plugins, w, p);
    }
    assert RecorderPart(g, w, c, link).Some?;
    if g[link.target.value].typ.Data? {
      if ctx.flags * IMAGE_FLAG_MASK != {} {
        var p :| p in link.plugins && GetActive(p, ctx.ignoreErrors) && CheckImageFlags(p, ctx.media, ctx.flags);
        OneAnswers(link.plugins, w, p);
      }
    } else {
      var p :| p in link.plugins && GetActive(p, ctx.ignoreErrors) && CheckMediaRestrictions(p, ctx.media);
      assert (p => CheckMediaRestrictions(p, w.media))(p);
    }
  }

  lemma {:induction false} LaterLinksKeep(g: Graph, rank: seq<nat>, w: Walk, c: nat, n: nat, start: Acc)
    requires FindLink.Ranked(g, rank) && c < |g| && 0 < n <= |g[c].links|
    ensures Visit(g, rank, w, c, n - 1, start).io <= Visit(g, rank, w, c, n, start).io
  {
  }

  /** The way over the n-th link of c adds something to the walk. */
  ghost predicate Adds(g: Graph, rank: seq<nat>, w: Walk, c: nat, n: nat, start: Acc)
    requires FindLink.Ranked(g, rank) && c < |g| && n <= |g[c].links|
  {
    var io := Visit(g, rank, w, c, n, start).io;
    io != {} && (!g[c].typ.Disc? ==> io * w.io != {})
  }

  lemma {:induction false} ThisLinkAdds(g: Graph, rank: seq<nat>, w: Walk, c: nat, n: nat, start: Acc)
    requires FindLink.Ranked(g, rank) && c < |g| && 0 < n <= |g[c].links| && (!g[c].typ.Disc? ==> g[c].io * w.io != {})
    requires OfLink(g, w, c, g[c].links[n - 1]).Some?
    requires var link := g[c].links[n - 1];
             Fits(g, w, link.target.value) || (LeadsOn(g, w, c, link)
               && Adds(g, rank, w, link.target.value, |g[link.target.value].links|,
                       Visit(g, rank, w, c, n - 1, start).(io := {})))
    ensures Adds(g, rank, w, c, n, start)
  {
  }

  lemma {:induction false} LinkIsCounted(g: Graph, rank: seq<nat>, ctx: FindLink.Ctx, w: Walk, c: nat, n: nat, k: nat,
                                         start: Acc)
    requires FindLink.Ranked(g, rank) && c < |g| && k < n <= |g[c].links| && ctx.checkFlags && Serves(w, ctx)
    requires FindLink.LeadsToInput(g, rank, ctx, c, k) && (!g[c].typ.Disc? ==> g[c].io * ctx.io != {})
    ensures Adds(g, rank, w, c, n, start)
    decreases rank[c], n
  {
    if k < n - 1 {
      LinkIsCounted(g, rank, ctx, w, c, n - 1, k, start);
      LaterLinksKeep(g, rank, w, c, n, start);
    } else {
      var link := g[c].links[k];
      OpenContributes(g, ctx, w, c, link);
      var t, acc := link.target.value, Visit(g, rank, w, c, k, start);
      if !FindLink.Fits(g, ctx, t) {
        assert FindLink.Reaches(g, rank, ctx, t);
        var j :| 0 <= j < |g[t].links| && FindLink.LeadsToInput(g, rank, ctx, t, j);
        LinkIsCounted(g, rank, ctx, w, t, |g[t].links|, j, acc.(io := {}));
      }
      ThisLinkAdds(g, rank, w, c, n, start);
    }
  }

  /** Whatever the plain search can reach, the walk reaches too, so a burn that is possible with some flags never
      lacks an answer to which flags are. */
  lemma {:induction false} ReachableHasFlags(g: Graph, rank: seq<nat>, ctx: FindLink.Ctx, w: Walk, c: nat,
                                             supported: BurnFlags, compulsory: BurnFlags)
    requires FindLink.Ranked(g, rank) && c < |g| && ctx.checkFlags && Serves(w, ctx)
    requires FindLink.Reaches(g, rank, ctx, c) && (!g[c].typ.Disc? ==> g[c].io * ctx.io != {})
    ensures Visit(g, rank, w, c, |g[c].links|, Acc({}, supported, compulsory)).io != {}
  {
    var k :| 0 <= k < |g[c].links| && FindLink.LeadsToInput(g, rank, ctx, c, k);
    LinkIsCounted(g, rank, ctx, w, c, |g[c].links|, k, Acc({}, supported, compulsory));
  }

  /** A recorder that can do DAO and MULTI and insists on DAO. */
  function Stubborn(id: nat): Plugin {
    Plugin(id, true, true, false, 0, 0, [MediaFlags({MediumCd}, [FlagPair({Dao, Multi}, {Dao})])], [], {})
  }

  lemma {:induction false} StubbornAnswers(id: nat)
    ensures !CheckRecordFlags(Stubborn(id), {MediumCd}, {Multi})
    ensures var r := GetRecordFlags(Stubborn(id), {MediumCd}, {Multi});
            r.found && {Multi} * BURN_FLAG_MASK <= r.supported && Dao in r.compulsory
  {
    var p, pair, asked := Stubborn(id), FlagPair({Dao, Multi}, {Dao}), {Multi} * BURN_FLAG_MASK;
    assert PairsFor(p.flags, {MediumCd}) == [pair];
    AllFlagsExact(p.flags, true, {MediumCd}, BURN_FLAG_MASK, asked);
    AllFlagsExact(p.flags, false, {MediumCd}, BURN_FLAG_MASK, asked);
    assert Multi in asked && asked <= pair.supported && Dao in pair.compulsory * BURN_FLAG_MASK && Dao !in asked;
    assert PairMatches(pair, false, BURN_FLAG_MASK, asked) && !PairMatches(pair, true, BURN_FLAG_MASK, asked);
    var r := RecordFlags(p, {MediumCd}, {Multi});
    assert {Dao} <= r.compulsory;
  }

  /** The other way round it is not so: compulsory flags are no failure for the walk, only for the search. With a
      recorder that insists on DAO and a session that asks for MULTI alone, the search finds nothing; the walk
      answers, and demands DAO. */
  lemma {:induction false} WalkAnswersMore(id: nat) returns (g: Graph, rank: seq<nat>, ctx: FindLink.Ctx)
    ensures FindLink.Ranked(g, rank) && |g| == 2 && ctx.checkFlags && !FindLink.Reaches(g, rank, ctx, 0)
    ensures var acc := Visit(g, rank, WalkOf(ctx), 0, |g[0].links|, Acc({}, {}, FLAG_ALL));
            acc.io != {} && Dao in acc.compulsory
  {
    var media, p := {MediumCd}, Stubborn(id);
    var link := Link(Some(1), [p]);
    g := [Caps([link], [], Disc(media), {}), Caps([], [], Image({Bin}), {File})];
    rank := [1, 0];
    ctx := FindLink.Ctx(media, Image({Bin}), {File}, {Multi}, None, false, true);
    var w := WalkOf(ctx);
    StubbornAnswers(id);
    assert Multi in {Multi} * BURN_FLAG_MASK;
    assert !FindLink.RecordFlagsOk(link, ctx);
    assert !FindLink.LeadsToInput(g, rank, ctx, 0, 0);
    assert RecordAnswer([], w) == LinkAnswer({}, FLAG_ALL) && link.plugins[..0] == [];
    assert (q => CheckMediaRestrictions(q, w.media))(p);
    assert Dao in RecordAnswer(link.plugins, w).compulsory;
    assert Visit(g, rank, w, 0, 0, Acc({}, {}, FLAG_ALL)) == Acc({}, {}, FLAG_ALL);
    assert Fits(g, w, 1);
  }

  // ----- the answer for a disc -----

  /** What get_flags_for_disc makes of a finished walk. */
  function ForDisc(acc: Acc, input: TrackType): Option<LinkAnswer> {
    if acc.io == {} then None
    else
      var metadata := WantsCdText(input);
      if metadata && Dao !in acc.supported then None
      else
        var compulsory := if metadata then acc.compulsory + {Dao} else acc.compulsory;
        var noRaw := Dao in compulsory;
        var supported2 := if noRaw then acc.supported - {Raw} else acc.supported;
        var compulsory2 := if noRaw then compulsory - {Raw} else compulsory;
        Some(LinkAnswer(if Pipe in acc.io then supported2 + {NoTmpFiles} else supported2,
                        if Pipe in acc.io && File !in acc.io then compulsory2 + {NoTmpFiles} else compulsory2))
  }

  predicate WantsCdText(input: TrackType) {
    input.Stream? && MetadataInfo in input.stream
  }

  /** RAW is compulsory for the smaller flags, and only the larger ones make DAO compulsory, which takes RAW away. */
  predicate RawSurfaces(a: Acc, b: Acc, input: TrackType) {
    !WantsCdText(input) && Raw in a.compulsory && Dao !in a.compulsory && Dao in b.compulsory
  }

  lemma {:induction false} ForDiscEases(a: Acc, b: Acc, input: TrackType)
    requires Richer(a, b) && ForDisc(b, input).Some?
    ensures ForDisc(a, input).Some?
    ensures var x, y := ForDisc(a, input).value, ForDisc(b, input).value;
            && y.supported <= x.supported && x.compulsory <= y.compulsory + {Raw}
            && (Eases(x, y) <==> !RawSurfaces(a, b, input))
  {
    var way :| way in b.io;
    assert way == Pipe || way == File;
    var x, y := ForDisc(a, input).value, ForDisc(b, input).value;
    assert Raw in x.compulsory <==> Raw in a.compulsory && Dao !in a.compulsory && !WantsCdText(input);
    assert Raw in y.compulsory <==> Raw in b.compulsory && Dao !in b.compulsory && !WantsCdText(input);
  }

  /** The walk for a disc, from the start of get_flags_for_disc. */
  function DiscWalk(g: Graph, rank: seq<nat>, w: Walk, c: nat): Acc
    requires FindLink.Ranked(g, rank) && c < |g|
  {
    Visit(g, rank, w, c, |g[c].links|, Acc({}, {}, FLAG_ALL))
  }

  /** Fewer session flags never lose the answer for a disc nor any support, and never make more compulsory, with one
      exception: RAW, exactly when RawSurfaces. */
  lemma {:induction false} FewerFlagsForDisc(g: Graph, rank: seq<nat>, few: Walk, many: Walk, c: nat)
    requires FindLink.Ranked(g, rank) && c < |g|
    requires few == many.(flags := few.flags) && few.flags <= many.flags
    requires ForDisc(DiscWalk(g, rank, many, c), many.input).Some?
    ensures var a, b := DiscWalk(g, rank, few, c), DiscWalk(g, rank, many, c);
            && ForDisc(a, few.input).Some?
            && var x, y := ForDisc(a, few.input).value, ForDisc(b, few.input).value;
               && y.supported <= x.supported && x.compulsory <= y.compulsory + {Raw}
               && (Eases(x, y) <==> !RawSurfaces(a, b, few.input))
  {
    FewerFlagsReachMore(g, rank, few, many, c, {}, FLAG_ALL);
    ForDiscEases(DiscWalk(g, rank, few, c), DiscWalk(g, rank, many, c), few.input);
  }

  /** A recorder that does MULTI only with RAW and DAO, and insists on RAW in any case. */
  function Fussy(id: nat): Plugin {
    var pairs := [FlagPair({Raw, Dao, Multi}, {Raw, Dao}), FlagPair({Raw}, {Raw})];
    Plugin(id, true, true, false, 0, 0, [MediaFlags({MediumCd}, pairs)], [], {})
  }

  lemma {:induction false} FussyUnasked(id: nat)
    ensures var r := GetRecordFlags(Fussy(id), {MediumCd}, {});
            r.found && Raw in r.compulsory && Dao !in r.compulsory
  {
    var p := Fussy(id);
    var rich, poor := FlagPair({Raw, Dao, Multi}, {Raw, Dao}), FlagPair({Raw}, {Raw});
    assert PairsFor(p.flags, {MediumCd}) == [rich, poor];
    assert {} * BURN_FLAG_MASK == {};
    AllFlagsExact(p.flags, false, {MediumCd}, BURN_FLAG_MASK, {});
    assert poor in [rich, poor] && PairMatches(poor, false, BURN_FLAG_MASK, {});
    assert {Raw} <= RecordFlags(p, {MediumCd}, {}).compulsory;
  }

  lemma {:induction false} FussyAsked(id: nat)
    ensures var r := GetRecordFlags(Fussy(id), {MediumCd}, {Multi});
            r.found && {Multi} * BURN_FLAG_MASK <= r.supported && Raw in r.compulsory && Dao in r.compulsory
  {
    var p, asked := Fussy(id), {Multi} * BURN_FLAG_MASK;
    var rich, poor := FlagPair({Raw, Dao, Multi}, {Raw, Dao}), FlagPair({Raw}, {Raw});
    assert PairsFor(p.flags, {MediumCd}) == [rich, poor];
    assert Multi in asked && asked <= rich.supported && !PairMatches(poor, false, BURN_FLAG_MASK, asked);
    AllFlagsExact(p.flags, false, {MediumCd}, BURN_FLAG_MASK, asked);
    assert rich in [rich, poor] && PairMatches(rich, false, BURN_FLAG_MASK, asked);
    assert {Raw, Dao} <= RecordFlags(p, {MediumCd}, {Multi}).compulsory;
  }

  /** One recorder that takes files. */
  function OneRecorder(media: Media, p: Plugin): Graph {
    [Caps([Link(Some(1), [p])], [], Disc(media), {}), Caps([], [], Data({}), {File})]
  }

  lemma {:induction false} OneRecorderWalk(media: Media, w: Walk, p: Plugin)
    requires w.media == media && GetActive(p, w.ignoreErrors) && w.input == Data({}) && w.flags * IMAGE_FLAG_MASK == {}
    requires var r := GetRecordFlags(p, media, w.flags);
             r.found && w.flags * BURN_FLAG_MASK <= r.supported
    ensures FindLink.Ranked(OneRecorder(media, p), [1, 0])
    ensures var acc, r := DiscWalk(OneRecorder(media, p), [1, 0], w, 0), GetRecordFlags(p, media, w.flags);
            acc.io == {Pipe} && acc.compulsory == FLAG_ALL * r.compulsory
  {
    var g := OneRecorder(media, p);
    var link, r := g[0].links[0], GetRecordFlags(p, media, w.flags);
    assert RecordAnswer(link.plugins[..0], w) == LinkAnswer({}, FLAG_ALL) && link.plugins[|link.plugins| - 1] == p;
    assert RecordAnswer(link.plugins, w) == LinkAnswer({} + r.supported, FLAG_ALL * r.compulsory);
    assert LinkIsActive(link, w.ignoreErrors);
    var start := Acc({}, {}, FLAG_ALL);
    assert Visit(g, [1, 0], w, 0, 0, start) == start && Fits(g, w, 1);
    assert FLAG_ALL * (FLAG_ALL * r.compulsory) == FLAG_ALL * r.compulsory;
  }

  /** The exception is real: the recorder asked for nothing insists on RAW, asked for MULTI on DAO instead. */
  lemma {:induction false} RawCanSurface(id: nat, few: Walk, many: Walk)
    requires few == Walk(false, {}, {MediumCd}, Data({}), {File, Pipe}) && many == few.(flags := {Multi})
    ensures var g := OneRecorder({MediumCd}, Fussy(id));
            && FindLink.Ranked(g, [1, 0])
            && var a, b := DiscWalk(g, [1, 0], few, 0), DiscWalk(g, [1, 0], many, 0);
               && ForDisc(a, few.input).Some? && ForDisc(b, few.input).Some?
               && Raw in ForDisc(a, few.input).value.compulsory && Raw !in ForDisc(b, few.input).value.compulsory
  {
    FussyUnasked(id);
    FussyAsked(id);
    OneRecorderWalk({MediumCd}, few, Fussy(id));
    OneRecorderWalk({MediumCd}, many, Fussy(id));
  }
}
