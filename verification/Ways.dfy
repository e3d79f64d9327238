/** What the walk for the flags answers, said by the ways from the recorder to the input (rejilla-caps-session.c,
    get_flags and get_flags_for_disc): which flags a link supports and demands, and what all ways together do. */
module Ways {
  import opened Flags
  import opened Plugins
  import opened Caps
  import opened GetFlags
  import FindLink
  import MediumFlags

  // ----- one link -----

  /** The plugin answers for the medium and the flags, with this flag among those it supports. */
  predicate Offers(p: Plugin, w: Walk, flag: Flag) {
    var a := GetRecordFlags(p, w.media, w.flags);
    GetActive(p, w.ignoreErrors) && a.found && flag in a.supported
  }

  /** If the plugin answers, it demands the flag. */
  predicate Insists(p: Plugin, w: Walk, flag: Flag) {
    var a := GetRecordFlags(p, w.media, w.flags);
    GetActive(p, w.ignoreErrors) && a.found ==> flag in a.compulsory
  }

  predicate SomeOffers(plugins: seq<Plugin>, w: Walk, flag: Flag) {
    exists p :: p in plugins && Offers(p, w, flag)
  }

  predicate AllInsist(plugins: seq<Plugin>, w: Walk, flag: Flag) {
    forall p :: p in plugins ==> Insists(p, w, flag)
  }

  lemma {:induction false} RecordAnswerIs(plugins: seq<Plugin>, w: Walk, flag: Flag)
    ensures flag in RecordAnswer(plugins, w).supported <==> SomeOffers(plugins, w, flag)
    ensures flag in RecordAnswer(plugins, w).compulsory <==> AllInsist(plugins, w, flag)
  {
    hide GetRecordFlags;
    if plugins == [] {
      assert flag in FLAG_ALL;
    } else {
      var init, last := plugins[..|plugins| - 1], plugins[|plugins| - 1];
      RecordAnswerIs(init, w, flag);
      assert forall p :: p in plugins <==> p in init || p == last;
      assert SomeOffers(plugins, w, flag) <==> SomeOffers(init, w, flag) || Offers(last, w, flag);
      assert AllInsist(plugins, w, flag) <==> AllInsist(init, w, flag) && Insists(last, w, flag);
    }
  }

  /** Some plugin that is on supports the flag for images. */
  predicate SomeOffersImages(plugins: seq<Plugin>, w: Walk, flag: Flag) {
    exists p :: p in plugins && OffersImages(p, w, flag)
  }

  predicate OffersImages(p: Plugin, w: Walk, flag: Flag) {
    GetActive(p, w.ignoreErrors) && flag in GetImageFlags(p, w.media, w.flags).supported
  }

  lemma {:induction false} DataAnswerIs(plugins: seq<Plugin>, w: Walk, flag: Flag)
    ensures flag in DataAnswer(plugins, w) <==> SomeOffersImages(plugins, w, flag)
  {
    hide GetImageFlags;
    if plugins != [] {
      var init, last := plugins[..|plugins| - 1], plugins[|plugins| - 1];
      DataAnswerIs(init, w, flag);
      assert forall p :: p in plugins <==> p in init || p == last;
      assert SomeOffersImages(plugins, w, flag) <==> SomeOffersImages(init, w, flag) || OffersImages(last, w, flag);
    }
  }

  /** A recorder fed with such an image cannot record with this flag: RAW is for CLONE images alone, DAO never for
      them. */
  predicate RuledOut(input: TrackType, flag: Flag) {
    input.Image? && if input.format == {Clone} then flag == Dao
                    else flag == Raw && input.format != {Cue} && input.format != {Cdrdao}
  }

  /** A recorder fed with such an image must record with this flag. */
  predicate Needed(input: TrackType, flag: Flag) {
    input.Image? && if input.format == {Clone} then flag == Raw
                    else flag == Dao && (input.format == {Cue} || input.format == {Cdrdao})
  }

  /** A link that is not skipped: what it supports and what it demands, plugin by plugin. A link that does not record
      demands nothing that others do not. */
  lemma {:induction false} LinkGives(g: Graph, w: Walk, c: nat, link: Link, flag: Flag)
    requires c < |g| && (link.target.Some? ==> link.target.value < |g|) && OfLink(g, w, c, link).Some?
    ensures var input, a := g[link.target.value].typ, OfLink(g, w, c, link).value;
            && (flag in a.supported <==>
                  || (g[c].typ.Disc? && !RuledOut(input, flag) && SomeOffers(link.plugins, w, flag))
                  || (input.Data? && SomeOffersImages(link.plugins, w, flag)))
            && (flag in a.compulsory <==>
                  || !g[c].typ.Disc? || Needed(input, flag)
                  || (!(input == Image({Clone}) && flag == Dao) && AllInsist(link.plugins, w, flag)))
            && (g[c].typ.Disc? ==> RecorderInputOk(input, a.compulsory))
  {
    hide RecordAnswer, DataAnswer, SomeOffers, SomeOffersImages, AllInsist;
    RecordAnswerIs(link.plugins, w, flag);
    DataAnswerIs(link.plugins, w, flag);
    assert flag in FLAG_ALL;
  }

  /** A link is not skipped exactly if it leads somewhere, some plugin on it is on, and its plugins take the flags of
      the session and the medium; a recorder must also be able to record what it is fed with. */
  lemma {:induction false} LinkCounts(g: Graph, w: Walk, c: nat, link: Link)
    requires c < |g| && (link.target.Some? ==> link.target.value < |g|)
    ensures OfLink(g, w, c, link).Some? <==>
              && link.target.Some? && LinkIsActive(link, w.ignoreErrors)
              && (g[c].typ.Disc? ==> CanRecord(link.plugins, w, g[link.target.value].typ))
              && (if g[link.target.value].typ.Data? then CanImage(link.plugins, w) else AllowsMedium(link.plugins, w))
  {
    hide RecordAnswer, DataAnswer, SomeOffers, SomeOffersImages, AllInsist;
    forall flag
      ensures flag in RecordAnswer(link.plugins, w).supported <==> SomeOffers(link.plugins, w, flag)
      ensures flag in DataAnswer(link.plugins, w) <==> SomeOffersImages(link.plugins, w, flag)
    {
      RecordAnswerIs(link.plugins, w, flag);
      DataAnswerIs(link.plugins, w, flag);
    }
    if link.target.Some? {
      RecordingAllowed(g, w, c, link);
      assert FindLink.SomePlugin(link, w.ignoreErrors, p => CheckMediaRestrictions(p, w.media))
             <==> AllowsMedium(link.plugins, w) by {
        MediumAllowed(link, w);
      }
      assert g[link.target.value].typ.Data? ==> (DataPart(g, w, link).Some? <==> CanImage(link.plugins, w));
    }
  }

  /** What is asked for, and what such an input needs, is supported. */
  predicate CanRecord(plugins: seq<Plugin>, w: Walk, input: TrackType) {
    && (forall flag :: flag in w.flags * BURN_FLAG_MASK ==> SomeOffers(plugins, w, flag))
    && (forall flag :: Needed(input, flag) ==> SomeOffers(plugins, w, flag))
  }

  predicate CanImage(plugins: seq<Plugin>, w: Walk) {
    forall flag :: flag in w.flags * IMAGE_FLAG_MASK ==> SomeOffersImages(plugins, w, flag)
  }

  predicate AllowsMedium(plugins: seq<Plugin>, w: Walk) {
    exists p :: p in plugins && GetActive(p, w.ignoreErrors) && CheckMediaRestrictions(p, w.media)
  }

  lemma {:induction false} MediumAllowed(link: Link, w: Walk)
    ensures FindLink.SomePlugin(link, w.ignoreErrors, p => CheckMediaRestrictions(p, w.media))
            <==> AllowsMedium(link.plugins, w)
  {
    assert forall p :: (p => CheckMediaRestrictions(p, w.media))(p) == CheckMediaRestrictions(p, w.media);
  }

  lemma {:induction false} RecordingAllowed(g: Graph, w: Walk, c: nat, link: Link)
    requires c < |g| && link.target.Some? && link.target.value < |g|
    requires forall flag ::
               flag in RecordAnswer(link.plugins, w).supported <==> SomeOffers(link.plugins, w, flag)
    ensures g[c].typ.Disc? ==>
              (RecorderPart(g, w, c, link).Some? <==> CanRecord(link.plugins, w, g[link.target.value].typ))
  {
    hide RecordAnswer, SomeOffers;
    assert forall flag :: Needed(g[link.target.value].typ, flag) ==> flag == Dao || flag == Raw;
  }

  // ----- all ways -----

  /** Links from c to caps that fit, none of them skipped. */
  ghost predicate IsWay(g: Graph, w: Walk, c: nat, way: seq<Link>)
    requires WellFormed(g) && c < |g|
    decreases |way|
  {
    && way != [] && way[0] in g[c].links && OfLink(g, w, c, way[0]).Some?
    && (if |way| == 1 then Fits(g, w, way[0].target.value)
        else LeadsOn(g, w, c, way[0]) && IsWay(g, w, way[0].target.value, way[1..]))
  }

  /** Some link of the way supports the flag. */
  ghost predicate Supports(g: Graph, w: Walk, c: nat, way: seq<Link>, flag: Flag)
    requires WellFormed(g) && c < |g| && IsWay(g, w, c, way)
    decreases |way|
  {
    || flag in OfLink(g, w, c, way[0]).value.supported
    || (|way| > 1 && Supports(g, w, way[0].target.value, way[1..], flag))
  }

  /** Every link of the way demands it. */
  ghost predicate Demands(g: Graph, w: Walk, c: nat, way: seq<Link>, flag: Flag)
    requires WellFormed(g) && c < |g| && IsWay(g, w, c, way)
    decreases |way|
  {
    && flag in OfLink(g, w, c, way[0]).value.compulsory
    && (|way| > 1 ==> Demands(g, w, way[0].target.value, way[1..], flag))
  }

  /** The data can come over this way by a pipe, or by a file. */
  ghost predicate Arrives(g: Graph, w: Walk, c: nat, way: seq<Link>, io: Io)
    requires WellFormed(g) && c < |g| && IsWay(g, w, c, way)
    decreases |way|
  {
    if |way| == 1 then io in if g[c].typ.Disc? then {Pipe} else g[c].io
    else io in w.io && Arrives(g, w, way[0].target.value, way[1..], io)
  }

  /** A way over one of the first n links. */
  ghost predicate WayOver(g: Graph, w: Walk, c: nat, n: nat, way: seq<Link>)
    requires WellFormed(g) && c < |g| && n <= |g[c].links|
  {
    IsWay(g, w, c, way) && way[0] in g[c].links[..n]
  }

  ghost predicate SomeSupports(g: Graph, w: Walk, c: nat, n: nat, flag: Flag)
    requires WellFormed(g) && c < |g| && n <= |g[c].links|
  {
    exists way :: WayOver(g, w, c, n, way) && Supports(g, w, c, way, flag)
  }

  ghost predicate AllDemand(g: Graph, w: Walk, c: nat, n: nat, flag: Flag)
    requires WellFormed(g) && c < |g| && n <= |g[c].links|
  {
    forall way :: WayOver(g, w, c, n, way) ==> Demands(g, w, c, way, flag)
  }

  ghost predicate SomeArrives(g: Graph, w: Walk, c: nat, n: nat, io: Io)
    requires WellFormed(g) && c < |g| && n <= |g[c].links|
  {
    exists way :: WayOver(g, w, c, n, way) && Arrives(g, w, c, way, io)
  }

  // ----- the walk adds up all ways -----

  ghost predicate HasWay(g: Graph, w: Walk, c: nat)
    requires WellFormed(g) && c < |g|
  {
    exists way :: IsWay(g, w, c, way)
  }

  /** Behind a link that leads on, every way lets the data through. */
  lemma {:induction false} WayArrives(g: Graph, w: Walk, c: nat, way: seq<Link>) returns (io: Io)
    requires WellFormed(g) && c < |g| && IsWay(g, w, c, way)
    requires g[c].typ.Disc? || g[c].io * w.io != {}
    ensures Arrives(g, w, c, way, io) && (!g[c].typ.Disc? ==> io in w.io)
    decreases |way|
  {
    if |way| == 1 {
      io := Pipe;
      if !g[c].typ.Disc? {
        io :| io in g[c].io * w.io;
      }
    } else {
      io := WayArrives(g, w, way[0].target.value, way[1..]);
    }
  }

  lemma {:induction false} FitEndsWay(g: Graph, w: Walk, c: nat, link: Link, way: seq<Link>)
    requires WellFormed(g) && c < |g| && link in g[c].links && OfLink(g, w, c, link).Some?
    requires Fits(g, w, link.target.value)
    ensures IsWay(g, w, c, way) && way[0] == link <==> way == [link]
  {
    if IsWay(g, w, c, way) && way[0] == link {
      assert way == [way[0]];
    }
  }

  /** The ways over a link that leads on are those behind it. */
  lemma {:induction false} WayGoesOn(g: Graph, w: Walk, c: nat, link: Link, rest: seq<Link>)
    requires WellFormed(g) && c < |g| && link in g[c].links && LeadsOn(g, w, c, link)
    requires IsWay(g, w, link.target.value, rest)
    ensures IsWay(g, w, c, [link] + rest)
    ensures forall flag ::
              && (Supports(g, w, c, [link] + rest, flag) <==>
                    || flag in OfLink(g, w, c, link).value.supported
                    || Supports(g, w, link.target.value, rest, flag))
              && (Demands(g, w, c, [link] + rest, flag) <==>
                    && flag in OfLink(g, w, c, link).value.compulsory
                    && Demands(g, w, link.target.value, rest, flag))
    ensures forall io :: Arrives(g, w, c, [link] + rest, io) <==>
              io in w.io && Arrives(g, w, link.target.value, rest, io)
  {
    assert ([link] + rest)[1..] == rest;
  }

  // ----- over one link -----

  ghost predicate SupportsOver(g: Graph, w: Walk, c: nat, link: Link, flag: Flag)
    requires WellFormed(g) && c < |g|
  {
    exists way :: IsWay(g, w, c, way) && way[0] == link && Supports(g, w, c, way, flag)
  }

  ghost predicate DemandOver(g: Graph, w: Walk, c: nat, link: Link, flag: Flag)
    requires WellFormed(g) && c < |g|
  {
    forall way :: IsWay(g, w, c, way) && way[0] == link ==> Demands(g, w, c, way, flag)
  }

  ghost predicate ArrivesOver(g: Graph, w: Walk, c: nat, link: Link, io: Io)
    requires WellFormed(g) && c < |g|
  {
    exists way :: IsWay(g, w, c, way) && way[0] == link && Arrives(g, w, c, way, io)
  }

  /** One link more. */
  lemma {:induction false} OneLinkMore(g: Graph, w: Walk, c: nat, n: nat, flag: Flag, io: Io)
    requires WellFormed(g) && c < |g| && 0 < n <= |g[c].links|
    ensures var link := g[c].links[n - 1];
            && (SomeSupports(g, w, c, n, flag) <==>
                  SomeSupports(g, w, c, n - 1, flag) || SupportsOver(g, w, c, link, flag))
            && (AllDemand(g, w, c, n, flag) <==>
                  AllDemand(g, w, c, n - 1, flag) && DemandOver(g, w, c, link, flag))
            && (SomeArrives(g, w, c, n, io) <==>
                  SomeArrives(g, w, c, n - 1, io) || ArrivesOver(g, w, c, link, io))
  {
    var link := g[c].links[n - 1];
    assert g[c].links[..n] == g[c].links[..n - 1] + [link];
    assert forall way :: IsWay(g, w, c, way) && way[0] == link ==> WayOver(g, w, c, n, way);
    assert forall way :: WayOver(g, w, c, n - 1, way) ==> WayOver(g, w, c, n, way);
    assert forall way :: WayOver(g, w, c, n, way) ==> WayOver(g, w, c, n - 1, way) || way[0] == link;
  }

  lemma {:induction false} OverFit(g: Graph, w: Walk, c: nat, link: Link, flag: Flag, io: Io)
    requires WellFormed(g) && c < |g| && link in g[c].links && OfLink(g, w, c, link).Some?
    requires Fits(g, w, link.target.value)
    ensures SupportsOver(g, w, c, link, flag) <==> flag in OfLink(g, w, c, link).value.supported
    ensures DemandOver(g, w, c, link, flag) <==> flag in OfLink(g, w, c, link).value.compulsory
    ensures ArrivesOver(g, w, c, link, io) <==> io in if g[c].typ.Disc? then {Pipe} else g[c].io
  {
    forall way ensures IsWay(g, w, c, way) && way[0] == link <==> way == [link] {
      FitEndsWay(g, w, c, link, way);
    }
    assert IsWay(g, w, c, [link]) && [link][0] == link;
  }

  lemma {:induction false} OverSkipped(g: Graph, w: Walk, c: nat, link: Link, flag: Flag, io: Io)
    requires WellFormed(g) && c < |g| && link in g[c].links
    requires OfLink(g, w, c, link).None? || (!Fits(g, w, link.target.value) && !LeadsOn(g, w, c, link))
    ensures !SupportsOver(g, w, c, link, flag) && DemandOver(g, w, c, link, flag) && !ArrivesOver(g, w, c, link, io)
  {
    forall way | IsWay(g, w, c, way) ensures way[0] != link {
    }
  }

  lemma {:induction false} OverIsBehind(g: Graph, w: Walk, c: nat, link: Link, way: seq<Link>)
    requires WellFormed(g) && c < |g| && link in g[c].links && LeadsOn(g, w, c, link)
    requires IsWay(g, w, c, way) && way[0] == link
    ensures way == [link] + way[1..] && IsWay(g, w, link.target.value, way[1..])
    ensures way[1..][0] in g[link.target.value].links[..|g[link.target.value].links|]
  {
    var t := link.target.value;
    assert g[t].links[..|g[t].links|] == g[t].links;
    assert way == [way[0]] + way[1..];
  }

  lemma {:induction false} SupportsThere(g: Graph, w: Walk, c: nat, link: Link, rest: seq<Link>, flag: Flag)
    requires WellFormed(g) && c < |g| && link in g[c].links && LeadsOn(g, w, c, link)
    requires IsWay(g, w, link.target.value, rest)
    requires flag in OfLink(g, w, c, link).value.supported || Supports(g, w, link.target.value, rest, flag)
    ensures SupportsOver(g, w, c, link, flag)
  {
    hide RecorderPart, DataPart, Supports, Demands, Arrives;
    WayGoesOn(g, w, c, link, rest);
    assert ([link] + rest)[0] == link;
  }

  lemma {:induction false} SupportsBehind(g: Graph, w: Walk, c: nat, link: Link, flag: Flag)
    requires WellFormed(g) && c < |g| && link in g[c].links && LeadsOn(g, w, c, link)
    ensures var t := link.target.value;
            SupportsOver(g, w, c, link, flag) <==>
              && HasWay(g, w, t)
              && (flag in OfLink(g, w, c, link).value.supported || SomeSupports(g, w, t, |g[t].links|, flag))
  {
    hide RecorderPart, DataPart, Supports, Demands, Arrives, Fits;
    var t := link.target.value;
    if SupportsOver(g, w, c, link, flag) {
      var way :| IsWay(g, w, c, way) && way[0] == link && Supports(g, w, c, way, flag);
      OverIsBehind(g, w, c, link, way);
      WayGoesOn(g, w, c, link, way[1..]);
    }
    if HasWay(g, w, t) && flag in OfLink(g, w, c, link).value.supported {
      var rest :| IsWay(g, w, t, rest);
      SupportsThere(g, w, c, link, rest, flag);
    } else if SomeSupports(g, w, t, |g[t].links|, flag) {
      var rest :| WayOver(g, w, t, |g[t].links|, rest) && Supports(g, w, t, rest, flag);
      SupportsThere(g, w, c, link, rest, flag);
    }
  }

  lemma {:induction false} DemandBehind(g: Graph, w: Walk, c: nat, link: Link, flag: Flag)
    requires WellFormed(g) && c < |g| && link in g[c].links && LeadsOn(g, w, c, link)
    ensures var t := link.target.value;
            DemandOver(g, w, c, link, flag) <==>
              (HasWay(g, w, t) ==>
                 flag in OfLink(g, w, c, link).value.compulsory && AllDemand(g, w, t, |g[t].links|, flag))
  {
    hide RecorderPart, DataPart, Supports, Demands, Arrives;
    var t := link.target.value;
    if DemandOver(g, w, c, link, flag) {
      forall rest | IsWay(g, w, t, rest)
        ensures flag in OfLink(g, w, c, link).value.compulsory && Demands(g, w, t, rest, flag)
      {
        WayGoesOn(g, w, c, link, rest);
        assert ([link] + rest)[0] == link;
      }
    } else {
      var way :| IsWay(g, w, c, way) && way[0] == link && !Demands(g, w, c, way, flag);
      OverIsBehind(g, w, c, link, way);
      WayGoesOn(g, w, c, link, way[1..]);
      assert WayOver(g, w, t, |g[t].links|, way[1..]);
    }
  }

  lemma {:induction false} ArrivesBehind(g: Graph, w: Walk, c: nat, link: Link, io: Io)
    requires WellFormed(g) && c < |g| && link in g[c].links && LeadsOn(g, w, c, link)
    ensures var t := link.target.value;
            ArrivesOver(g, w, c, link, io) <==> io in w.io && SomeArrives(g, w, t, |g[t].links|, io)
  {
    hide RecorderPart, DataPart, Supports, Demands, Arrives;
    var t := link.target.value;
    if ArrivesOver(g, w, c, link, io) {
      var way :| IsWay(g, w, c, way) && way[0] == link && Arrives(g, w, c, way, io);
      OverIsBehind(g, w, c, link, way);
      WayGoesOn(g, w, c, link, way[1..]);
      assert WayOver(g, w, t, |g[t].links|, way[1..]);
    }
    if io in w.io && SomeArrives(g, w, t, |g[t].links|, io) {
      var rest :| WayOver(g, w, t, |g[t].links|, rest) && Arrives(g, w, t, rest, io);
      WayGoesOn(g, w, c, link, rest);
      assert ([link] + rest)[0] == link;
    }
  }

  /** There is a way behind a link that leads on exactly if data can come from there. */
  lemma {:induction false} WayIffArrives(g: Graph, w: Walk, c: nat)
    requires WellFormed(g) && c < |g| && (g[c].typ.Disc? || g[c].io * w.io != {})
    ensures HasWay(g, w, c) <==> exists io :: SomeArrives(g, w, c, |g[c].links|, io)
  {
    var n := |g[c].links|;
    assert g[c].links[..n] == g[c].links;
    if HasWay(g, w, c) {
      var way :| IsWay(g, w, c, way);
      var io := WayArrives(g, w, c, way);
      assert WayOver(g, w, c, n, way);
      assert SomeArrives(g, w, c, n, io);
    }
  }

  lemma {:induction false} NoWayGivesNothing(g: Graph, w: Walk, c: nat, flag: Flag, io: Io)
    requires WellFormed(g) && c < |g|
    ensures !HasWay(g, w, c) ==>
              && !SomeSupports(g, w, c, |g[c].links|, flag) && AllDemand(g, w, c, |g[c].links|, flag)
              && !SomeArrives(g, w, c, |g[c].links|, io)
  {
  }

  lemma {:induction false} NothingOverNone(g: Graph, w: Walk, c: nat, flag: Flag, io: Io)
    requires WellFormed(g) && c < |g|
    ensures !SomeSupports(g, w, c, 0, flag) && AllDemand(g, w, c, 0, flag) && !SomeArrives(g, w, c, 0, io)
  {
  }

  /** After the first n links, the walk has added what the ways over them support to what was supported, and cut what
      was compulsory with what they demand. */
  lemma {:induction false} VisitIs(g: Graph, rank: seq<nat>, w: Walk, c: nat, n: nat, start: Acc, flag: Flag,
                                   io: Io)
    requires FindLink.Ranked(g, rank) && c < |g| && n <= |g[c].links|
    ensures var acc := Visit(g, rank, w, c, n, start);
            && (flag in acc.supported <==> flag in start.supported || SomeSupports(g, w, c, n, flag))
            && (flag in acc.compulsory <==> flag in start.compulsory && AllDemand(g, w, c, n, flag))
            && (io in acc.io <==> io in start.io || SomeArrives(g, w, c, n, io))
    decreases rank[c], n
  {
    hide RecorderPart, DataPart, SomeSupports, AllDemand, SomeArrives, SupportsOver, DemandOver, ArrivesOver, HasWay;
    if n == 0 {
      NothingOverNone(g, w, c, flag, io);
    } else {
      var link := g[c].links[n - 1];
      var acc := Visit(g, rank, w, c, n - 1, start);
      VisitIs(g, rank, w, c, n - 1, start, flag, io);
      OneLinkMore(g, w, c, n, flag, io);
      if OfLink(g, w, c, link).None? {
        OverSkipped(g, w, c, link, flag, io);
      } else if Fits(g, w, link.target.value) {
        OverFit(g, w, c, link, flag, io);
      } else if LeadsOn(g, w, c, link) {
        BehindIs(g, rank, w, link.target.value, acc.(io := {}), flag, io);
        SupportsBehind(g, w, c, link, flag);
        DemandBehind(g, w, c, link, flag);
        ArrivesBehind(g, w, c, link, io);
        NoWayGivesNothing(g, w, link.target.value, flag, io);
      } else {
        OverSkipped(g, w, c, link, flag, io);
      }
    }
  }

  lemma {:induction false} BehindIs(g: Graph, rank: seq<nat>, w: Walk, t: nat, start: Acc, flag: Flag, io: Io)
    requires FindLink.Ranked(g, rank) && t < |g| && g[t].io * w.io != {} && start.io == {}
    ensures var n := |g[t].links|;
            var acc := Visit(g, rank, w, t, n, start);
            && (flag in acc.supported <==> flag in start.supported || SomeSupports(g, w, t, n, flag))
            && (flag in acc.compulsory <==> flag in start.compulsory && AllDemand(g, w, t, n, flag))
            && (io in acc.io <==> SomeArrives(g, w, t, n, io))
            && (acc.io != {} <==> HasWay(g, w, t))
    decreases rank[t], |g[t].links| + 1
  {
    var n := |g[t].links|;
    var acc := Visit(g, rank, w, t, n, start);
    forall other ensures other in acc.io <==> SomeArrives(g, w, t, n, other) {
      VisitIs(g, rank, w, t, n, start, flag, other);
    }
    VisitIs(g, rank, w, t, n, start, flag, io);
    WayIffArrives(g, w, t);
  }

  // ----- all of it -----

  ghost predicate SomeWaySupports(g: Graph, w: Walk, c: nat, flag: Flag)
    requires WellFormed(g) && c < |g|
  {
    exists way :: IsWay(g, w, c, way) && Supports(g, w, c, way, flag)
  }

  ghost predicate AllWaysDemand(g: Graph, w: Walk, c: nat, flag: Flag)
    requires WellFormed(g) && c < |g|
  {
    forall way :: IsWay(g, w, c, way) ==> Demands(g, w, c, way, flag)
  }

  ghost predicate SomeWayArrives(g: Graph, w: Walk, c: nat, io: Io)
    requires WellFormed(g) && c < |g|
  {
    exists way :: IsWay(g, w, c, way) && Arrives(g, w, c, way, io)
  }

  /** The walk from c: supported is what was so beforehand and whatever some link of some way supports; compulsory is
      what was so beforehand and every link of every way demands. */
  lemma {:induction false} WalkAddsUp(g: Graph, rank: seq<nat>, w: Walk, c: nat, supported: BurnFlags,
                                      compulsory: BurnFlags, flag: Flag, io: Io)
    requires FindLink.Ranked(g, rank) && c < |g|
    ensures var acc := Visit(g, rank, w, c, |g[c].links|, Acc({}, supported, compulsory));
            && (flag in acc.supported <==> flag in supported || SomeWaySupports(g, w, c, flag))
            && (flag in acc.compulsory <==> flag in compulsory && AllWaysDemand(g, w, c, flag))
            && (io in acc.io <==> SomeWayArrives(g, w, c, io))
  {
    hide Visit;
    var n := |g[c].links|;
    assert g[c].links[..n] == g[c].links;
    assert forall way :: IsWay(g, w, c, way) <==> WayOver(g, w, c, n, way);
    VisitIs(g, rank, w, c, n, Acc({}, supported, compulsory), flag, io);
  }

  /** DAO is compulsory for the disc: CD-Text is wanted, or all ways demand it. */
  ghost predicate NeedsDao(g: Graph, w: Walk, c: nat)
    requires WellFormed(g) && c < |g|
  {
    WantsCdText(w.input) || AllWaysDemand(g, w, c, Dao)
  }

  /** The answer for a disc: there is one exactly if some way leads to the input and CD-Text, if wanted, can be written;
      DAO drives RAW out, and temporary files can be done without where data can be piped, and must be where it can
      only be piped. */
  lemma {:induction false} DiscFlagsAre(g: Graph, rank: seq<nat>, ignoreErrors: bool, flags: BurnFlags, media: Media,
                                        input: TrackType, flag: Flag)
    requires FindLink.Ranked(g, rank)
    ensures var w, c := Walk(ignoreErrors, flags, media, input, {File, Pipe}), StartFor(g, Disc(media), 0);
            var a := MediumFlags.FlagsForDisc(g, rank, ignoreErrors, flags, media, input);
            && (a.Some? <==>
                  c < |g| && HasWay(g, w, c) && (WantsCdText(input) ==> SomeWaySupports(g, w, c, Dao)))
            && (a.Some? ==>
                  && (flag in a.value.supported <==>
                        || (SomeWaySupports(g, w, c, flag) && !(flag == Raw && NeedsDao(g, w, c)))
                        || (flag == NoTmpFiles && SomeWayArrives(g, w, c, Pipe)))
                  && (flag in a.value.compulsory <==>
                        || (AllWaysDemand(g, w, c, flag) && !(flag == Raw && NeedsDao(g, w, c)))
                        || (flag == Dao && NeedsDao(g, w, c))
                        || (flag == NoTmpFiles && SomeWayArrives(g, w, c, Pipe) && !SomeWayArrives(g, w, c, File))))
  {
    hide Visit, SomeWaySupports, AllWaysDemand, SomeWayArrives, HasWay, ForDisc;
    var w, c := Walk(ignoreErrors, flags, media, input, {File, Pipe}), StartFor(g, Disc(media), 0);
    if c < |g| {
      var acc := DiscWalk(g, rank, w, c);
      WalkAddsUp(g, rank, w, c, {}, FLAG_ALL, flag, Pipe);
      WalkAddsUp(g, rank, w, c, {}, FLAG_ALL, Dao, File);
      DiscIsReached(g, rank, w, c);
      ForDiscIs(acc, input, flag);
      assert flag in FLAG_ALL && Dao in FLAG_ALL;
    }
  }

  lemma {:induction false} ForDiscIs(acc: Acc, input: TrackType, flag: Flag)
    ensures var a, dao := ForDisc(acc, input), WantsCdText(input) || Dao in acc.compulsory;
            && (a.Some? <==> acc.io != {} && (WantsCdText(input) ==> Dao in acc.supported))
            && (a.Some? ==>
                  && (flag in a.value.supported <==>
                        (flag in acc.supported && !(flag == Raw && dao)) || (flag == NoTmpFiles && Pipe in acc.io))
                  && (flag in a.value.compulsory <==>
                        || (flag in acc.compulsory && !(flag == Raw && dao)) || (flag == Dao && dao)
                        || (flag == NoTmpFiles && Pipe in acc.io && File !in acc.io)))
  {
  }

  lemma {:induction false} DiscIsReached(g: Graph, rank: seq<nat>, w: Walk, c: nat)
    requires FindLink.Ranked(g, rank) && c < |g| && g[c].typ.Disc?
    ensures DiscWalk(g, rank, w, c).io != {} <==> HasWay(g, w, c)
  {
    hide Visit;
    forall io ensures io in DiscWalk(g, rank, w, c).io <==> SomeWayArrives(g, w, c, io) {
      WalkAddsUp(g, rank, w, c, {}, FLAG_ALL, Dao, io);
    }
    if HasWay(g, w, c) {
      var way :| IsWay(g, w, c, way);
      var io := WayArrives(g, w, c, way);
      assert SomeWayArrives(g, w, c, io);
    }
  }

  // ----- the answer for the disc in the burner -----

  /** The plugin answers how the medium can be blanked, with this flag among those it supports. */
  predicate OffersBlanking(p: Plugin, ignoreErrors: bool, media: Media, flags: BurnFlags, flag: Flag) {
    var a := GetBlankFlags(p, media, flags);
    GetActive(p, ignoreErrors) && a.found && flag in a.supported
  }

  predicate InsistsBlanking(p: Plugin, ignoreErrors: bool, media: Media, flags: BurnFlags, flag: Flag) {
    var a := GetBlankFlags(p, media, flags);
    GetActive(p, ignoreErrors) && a.found ==> flag in a.compulsory
  }

  lemma {:induction false} BlankersAdd(acc: LinkAnswer, plugins: seq<Plugin>, ignoreErrors: bool, media: Media,
                                       flags: BurnFlags, flag: Flag)
    ensures var a := MediumFlags.AddBlankers(acc, plugins, ignoreErrors, media, flags);
            && (flag in a.supported <==>
                  flag in acc.supported
                  || exists p :: p in plugins && OffersBlanking(p, ignoreErrors, media, flags, flag))
            && (flag in a.compulsory <==>
                  flag in acc.compulsory
                  && forall p :: p in plugins ==> InsistsBlanking(p, ignoreErrors, media, flags, flag))
  {
    hide GetBlankFlags;
    if plugins != [] {
      var init, last := plugins[..|plugins| - 1], plugins[|plugins| - 1];
      BlankersAdd(acc, init, ignoreErrors, media, flags, flag);
      assert forall p :: p in plugins <==> p in init || p == last;
      assert (exists p :: p in plugins && OffersBlanking(p, ignoreErrors, media, flags, flag))
             <==> (exists p :: p in init && OffersBlanking(p, ignoreErrors, media, flags, flag))
                  || OffersBlanking(last, ignoreErrors, media, flags, flag);
      assert (forall p :: p in plugins ==> InsistsBlanking(p, ignoreErrors, media, flags, flag))
             <==> (forall p :: p in init ==> InsistsBlanking(p, ignoreErrors, media, flags, flag))
                  && InsistsBlanking(last, ignoreErrors, media, flags, flag);
    }
  }

  predicate BlankerOn(links: seq<Link>, p: Plugin) {
    exists k :: 0 <= k < |links| && links[k].target.None? && p in links[k].plugins
  }

  lemma {:induction false} BlankingLinksAdd(acc: LinkAnswer, links: seq<Link>, ignoreErrors: bool, media: Media,
                                            flags: BurnFlags, flag: Flag)
    ensures var a := MediumFlags.AddBlankingLinks(acc, links, ignoreErrors, media, flags);
            && (flag in a.supported <==>
                  flag in acc.supported
                  || exists p :: BlankerOn(links, p) && OffersBlanking(p, ignoreErrors, media, flags, flag))
            && (flag in a.compulsory <==>
                  flag in acc.compulsory
                  && forall p :: BlankerOn(links, p) ==> InsistsBlanking(p, ignoreErrors, media, flags, flag))
  {
    hide OffersBlanking, InsistsBlanking;
    if links != [] {
      var init, last := links[..|links| - 1], links[|links| - 1];
      var before := MediumFlags.AddBlankingLinks(acc, init, ignoreErrors, media, flags);
      BlankingLinksAdd(acc, init, ignoreErrors, media, flags, flag);
      BlankersAdd(before, last.plugins, ignoreErrors, media, flags, flag);
      forall p ensures BlankerOn(links, p) <==> BlankerOn(init, p) || (last.target.None? && p in last.plugins) {
        OneLinkOn(links, p);
      }
    }
  }

  lemma {:induction false} OneLinkOn(links: seq<Link>, p: Plugin)
    requires links != []
    ensures var last := links[|links| - 1];
            BlankerOn(links, p)
            <==> BlankerOn(links[..|links| - 1], p) || (last.target.None? && p in last.plugins)
  {
    var init, last := links[..|links| - 1], links[|links| - 1];
    if BlankerOn(init, p) {
      var k :| 0 <= k < |init| && init[k].target.None? && p in init[k].plugins;
      assert links[k] == init[k];
    }
    if BlankerOn(links, p) {
      var k :| 0 <= k < |links| && links[k].target.None? && p in links[k].plugins;
      assert k < |init| ==> init[k] == links[k];
    }
  }

  /** A plugin on a blanking link of a caps for the medium. */
  predicate BlankerIn(g: Graph, media: Media, p: Plugin) {
    exists c :: 0 <= c < |g| && MediumFlags.BlankingCaps(g[c], media) && BlankerOn(g[c].links, p)
  }

  lemma {:induction false} BlankingCapsAdd(acc: LinkAnswer, g: Graph, ignoreErrors: bool, media: Media,
                                           flags: BurnFlags, flag: Flag)
    ensures var a := MediumFlags.AddBlankingCaps(acc, g, ignoreErrors, media, flags);
            && (flag in a.supported <==>
                  flag in acc.supported
                  || exists p :: BlankerIn(g, media, p) && OffersBlanking(p, ignoreErrors, media, flags, flag))
            && (flag in a.compulsory <==>
                  flag in acc.compulsory
                  && forall p :: BlankerIn(g, media, p) ==> InsistsBlanking(p, ignoreErrors, media, flags, flag))
  {
    hide OffersBlanking, InsistsBlanking, BlankerOn;
    if g != [] {
      var init, last := g[..|g| - 1], g[|g| - 1];
      var before := MediumFlags.AddBlankingCaps(acc, init, ignoreErrors, media, flags);
      BlankingCapsAdd(acc, init, ignoreErrors, media, flags, flag);
      BlankingLinksAdd(before, last.links, ignoreErrors, media, flags, flag);
      forall p ensures BlankerIn(g, media, p) <==>
                         BlankerIn(init, media, p)
                         || (MediumFlags.BlankingCaps(last, media) && BlankerOn(last.links, p))
      {
        OneCapsIn(g, media, p);
      }
    }
  }

  lemma {:induction false} OneCapsIn(g: Graph, media: Media, p: Plugin)
    requires g != []
    ensures var last := g[|g| - 1];
            BlankerIn(g, media, p)
            <==> BlankerIn(g[..|g| - 1], media, p)
                 || (MediumFlags.BlankingCaps(last, media) && BlankerOn(last.links, p))
  {
    hide BlankerOn;
    var init, last := g[..|g| - 1], g[|g| - 1];
    if BlankerIn(init, media, p) {
      var c :| 0 <= c < |init| && MediumFlags.BlankingCaps(init[c], media) && BlankerOn(init[c].links, p);
      assert g[c] == init[c];
    }
    if BlankerIn(g, media, p) {
      var c :| 0 <= c < |g| && MediumFlags.BlankingCaps(g[c], media) && BlankerOn(g[c].links, p);
      assert c < |init| ==> init[c] == g[c];
    }
  }

  /** How the medium can be blanked: supported is whatever some blanking plugin supports, compulsory what all that
      answer demand. A sequential DVD-RW that is to be written in several sessions must not be blanked fast. */
  lemma {:induction false} BlankingFlagsAre(g: Graph, ignoreErrors: bool, media: Media, flags: BurnFlags, flag: Flag)
    ensures var a := MediumFlags.BlankingFlags(g, ignoreErrors, media, flags);
            var slowly := MediumFlags.DVDRW <= media && Multi in flags;
            && (a.Some? ==>
                  && media != {}
                  && (flag in a.value.supported <==>
                        !(slowly && flag == FastBlank)
                        && exists p :: BlankerIn(g, media, p) && OffersBlanking(p, ignoreErrors, media, flags, flag))
                  && (flag in a.value.compulsory <==>
                        forall p :: BlankerIn(g, media, p) ==> InsistsBlanking(p, ignoreErrors, media, flags, flag))
                  && !(slowly && FastBlank in a.value.compulsory))
  {
    hide OffersBlanking, InsistsBlanking, BlankerOn;
    BlankingCapsAdd(LinkAnswer({}, FLAG_ALL), g, ignoreErrors, media, flags, flag);
    assert flag in FLAG_ALL;
  }

  /** The plugin works and has a pair for the medium that takes the flags for blanking and insists on no others. */
  ghost predicate TakesBlanking(p: Plugin, ignoreErrors: bool, media: Media, flags: BurnFlags) {
    && GetActive(p, ignoreErrors)
    && exists pair :: pair in PairsFor(p.blankFlags, media)
                      && PairMatches(pair, true, BLANK_FLAG_MASK, flags * BLANK_FLAG_MASK)
  }

  /** The disc can be blanked exactly if some blanking plugin takes it with these flags; a sequential DVD-RW that is to
      take more sessions cannot be blanked fast. */
  lemma {:induction false} CanBlankMeans(g: Graph, ignoreErrors: bool, media: Media, flags: BurnFlags)
    ensures MediumFlags.CanBlank(g, ignoreErrors, media, flags) <==>
              && media != {} && !(MediumFlags.DVDRW <= media && Multi in flags && FastBlank in flags)
              && exists p :: BlankerIn(g, media, p) && TakesBlanking(p, ignoreErrors, media, flags)
  {
    hide CheckBlankFlags, TakesBlanking;
    if MediumFlags.CanBlank(g, ignoreErrors, media, flags) {
      var c, k :| 0 <= c < |g| && 0 <= k < |g[c].links| && MediumFlags.BlankingCaps(g[c], media)
                  && MediumFlags.BlanksBy(g[c].links[k], ignoreErrors, media, flags);
      var p := BlankerOf(g[c].links[k], ignoreErrors, media, flags);
      TakesIfChecked(p, ignoreErrors, media, flags);
      assert BlankerOn(g[c].links, p) && BlankerIn(g, media, p);
    }
    if exists p :: BlankerIn(g, media, p) && TakesBlanking(p, ignoreErrors, media, flags) {
      var p :| BlankerIn(g, media, p) && TakesBlanking(p, ignoreErrors, media, flags);
      var c :| 0 <= c < |g| && MediumFlags.BlankingCaps(g[c], media) && BlankerOn(g[c].links, p);
      var k :| 0 <= k < |g[c].links| && g[c].links[k].target.None? && p in g[c].links[k].plugins;
      TakesIfChecked(p, ignoreErrors, media, flags);
      BlanksWith(g[c].links[k], ignoreErrors, media, flags, p);
    }
  }

  lemma {:induction false} TakesIfChecked(p: Plugin, ignoreErrors: bool, media: Media, flags: BurnFlags)
    ensures TakesBlanking(p, ignoreErrors, media, flags)
            <==> GetActive(p, ignoreErrors) && CheckBlankFlags(p, media, flags)
  {
    AllFlagsExact(p.blankFlags, true, media, BLANK_FLAG_MASK, flags * BLANK_FLAG_MASK);
  }

  lemma {:induction false} BlankerOf(link: Link, ignoreErrors: bool, media: Media, flags: BurnFlags)
    returns (p: Plugin)
    requires MediumFlags.BlanksBy(link, ignoreErrors, media, flags)
    ensures link.target.None? && p in link.plugins
    ensures GetActive(p, ignoreErrors) && CheckBlankFlags(p, media, flags)
  {
    hide CheckBlankFlags;
    var accepts := (x: Plugin) => CheckBlankFlags(x, media, flags);
    p :| p in link.plugins && GetActive(p, ignoreErrors) && accepts(p);
  }

  lemma {:induction false} BlanksWith(link: Link, ignoreErrors: bool, media: Media, flags: BurnFlags, p: Plugin)
    requires link.target.None? && p in link.plugins
    requires GetActive(p, ignoreErrors) && CheckBlankFlags(p, media, flags)
    ensures MediumFlags.BlanksBy(link, ignoreErrors, media, flags)
  {
    hide CheckBlankFlags;
    assert (x => CheckBlankFlags(x, media, flags))(p);
  }
}
