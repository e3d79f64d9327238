/** Which burn flags the engine answers for the disc in the burner (rejilla-caps-session.c, burn-basics.c): the walk
    for the disc as it is, the walk for the disc once blanked, and what drive and disc can do. */
module MediumFlags {
  import opened Flags
  import opened Plugins
  import opened Caps
  import FindLink
  import GetFlags
  import NewTask

  datatype Reply = Reply(result: BurnResult, supported: BurnFlags, compulsory: BurnFlags)

  /** What drive and disc can do together. */
  datatype Ability = Ability(dummySao: bool, dummyTao: bool, tao: bool, sao: bool, burnFree: bool)

  const DVDRW: Media := {MediumDvd, MediumSequential, MediumRewritable}

  predicate RandomWritable(media: Media) {
    || {MediumDvd, MediumRewritable, MediumPlus} <= media
    || {MediumDvd, MediumRewritable, MediumRestricted} <= media
    || {MediumDvd, MediumRam} <= media
    || {MediumBd, MediumWritable, MediumRandom} <= media
    || {MediumBd, MediumPow, MediumSrm, MediumWritable} <= media
    || {MediumBd, MediumRewritable} <= media
  }

  // ----- what the drive allows -----

  predicate CanSimulate(media: Media, can: Ability, dao: bool) {
    MediumPlus !in media && if MediumDvd in media || dao then can.dummySao else can.dummyTao
  }

  /** rejilla_check_flags_for_drive. */
  predicate DriveTakes(media: Media, can: Ability, flags: BurnFlags) {
    && (Dummy in flags ==> CanSimulate(media, can, Dao in flags))
    && (BurnProof in flags ==> can.burnFree)
  }

  /** rejilla_medium_supported_flags. */
  function ForDrive(media: Media, can: Ability, r: Reply): Reply {
    var a := if CanSimulate(media, can, Dao in r.supported) then r.supported else r.supported - {Dummy};
    var closed := BlankBeforeWrite !in r.compulsory && !RandomWritable(media) && !can.tao;
    var b := if closed then a - {Multi} else a;
    var c := if closed && !can.sao then b - {Dao} else b;
    r.(supported := if can.burnFree then c else c - {BurnProof},
       compulsory := if closed && can.sao then r.compulsory + {Dao} else r.compulsory)
  }

  // ----- blanking -----

  predicate BlankingCaps(caps: Caps, media: Media) {
    caps.typ.Disc? && media <= caps.typ.media
  }

  predicate BlanksBy(link: Link, ignoreErrors: bool, media: Media, flags: BurnFlags) {
    link.target.None? && FindLink.SomePlugin(link, ignoreErrors, p => CheckBlankFlags(p, media, flags))
  }

  /** rejilla_burn_caps_can_blank_real. */
  predicate CanBlank(g: Graph, ignoreErrors: bool, media: Media, flags: BurnFlags) {
    && media != {} && !(DVDRW <= media && {Multi, FastBlank} <= flags)
    && exists c, k :: 0 <= c < |g| && 0 <= k < |g[c].links| && BlankingCaps(g[c], media)
                      && BlanksBy(g[c].links[k], ignoreErrors, media, flags)
  }

  method FindBlanker(g: Graph, ignoreErrors: bool, media: Media, flags: BurnFlags) returns (r: bool)
    ensures r == CanBlank(g, ignoreErrors, media, flags)
  {
    if media == {} || (DVDRW <= media && {Multi, FastBlank} <= flags) {
      return false;
    }
    var c := 0;
    while c < |g|
      invariant c <= |g|
      invariant forall i, k :: 0 <= i < c && 0 <= k < |g[i].links| && BlankingCaps(g[i], media)
                               ==> !BlanksBy(g[i].links[k], ignoreErrors, media, flags)
    {
      if BlankingCaps(g[c], media) {
        var k := 0;
        while k < |g[c].links|
          invariant k <= |g[c].links|
          invariant forall j :: 0 <= j < k ==> !BlanksBy(g[c].links[j], ignoreErrors, media, flags)
        {
          if g[c].links[k].target.None? {
            r := FindLink.LinkSomePlugin(g[c].links[k], ignoreErrors, p => CheckBlankFlags(p, media, flags));
            if r {
              assert BlanksBy(g[c].links[k], ignoreErrors, media, flags);
              return;
            }
          }
          k := k + 1;
        }
      }
      c := c + 1;
    }
    return false;
  }

  function AddBlankers(acc: GetFlags.LinkAnswer, plugins: seq<Plugin>, ignoreErrors: bool, media: Media,
                       flags: BurnFlags)
    : GetFlags.LinkAnswer
  {
    if plugins == [] then acc
    else
      var before := AddBlankers(acc, plugins[..|plugins| - 1], ignoreErrors, media, flags);
      var last := plugins[|plugins| - 1];
      var a := GetBlankFlags(last, media, flags);
      if GetActive(last, ignoreErrors) && a.found
      then GetFlags.LinkAnswer(before.supported + a.supported, before.compulsory * a.compulsory) else before
  }

  function AddBlankingLinks(acc: GetFlags.LinkAnswer, links: seq<Link>, ignoreErrors: bool, media: Media,
                            flags: BurnFlags)
    : GetFlags.LinkAnswer
  {
    if links == [] then acc
    else
      var before, last := AddBlankingLinks(acc, links[..|links| - 1], ignoreErrors, media, flags), links[|links| - 1];
      if last.target.None? then AddBlankers(before, last.plugins, ignoreErrors, media, flags) else before
  }

  function AddBlankingCaps(acc: GetFlags.LinkAnswer, g: Graph, ignoreErrors: bool, media: Media, flags: BurnFlags)
    : GetFlags.LinkAnswer
  {
    if g == [] then acc
    else
      var before, last := AddBlankingCaps(acc, g[..|g| - 1], ignoreErrors, media, flags), g[|g| - 1];
      if BlankingCaps(last, media) then AddBlankingLinks(before, last.links, ignoreErrors, media, flags) else before
  }

  /** rejilla_burn_caps_get_blanking_flags_real; None if the medium cannot be blanked. */
  function BlankingFlags(g: Graph, ignoreErrors: bool, media: Media, flags: BurnFlags): Option<GetFlags.LinkAnswer> {
    var a := AddBlankingCaps(GetFlags.LinkAnswer({}, FLAG_ALL), g, ignoreErrors, media, flags);
    if media == {}
       || !(exists c, l :: 0 <= c < |g| && l in g[c].links && BlankingCaps(g[c], media) && l.target.None?)
    then None
    else if DVDRW <= media && Multi in flags then
      if FastBlank in a.compulsory then None else Some(a.(supported := a.supported - {FastBlank}))
    else Some(a)
  }

  method GetBlankingFlags(g: Graph, ignoreErrors: bool, media: Media, flags: BurnFlags)
    returns (answer: Option<GetFlags.LinkAnswer>)
    ensures answer == BlankingFlags(g, ignoreErrors, media, flags)
  {
    if media == {} {
      return None;
    }
    var supportedMedia, acc := false, GetFlags.LinkAnswer({}, FLAG_ALL);
    for c := 0 to |g|
      invariant acc == AddBlankingCaps(GetFlags.LinkAnswer({}, FLAG_ALL), g[..c], ignoreErrors, media, flags)
      invariant supportedMedia <==> exists i, l :: 0 <= i < c && l in g[i].links && BlankingCaps(g[i], media)
                                                   && l.target.None?
    {
      assert g[..c + 1][..c] == g[..c] && g[..c + 1][c] == g[c];
      if BlankingCaps(g[c], media) {
        var any;
        acc, any := GatherLinks(acc, g[c].links, ignoreErrors, media, flags);
        supportedMedia := supportedMedia || any;
      }
    }
    assert g[..|g|] == g;
    if !supportedMedia {
      return None;
    }
    if DVDRW <= media && Multi in flags {
      if FastBlank in acc.compulsory {
        return None;
      }
      acc := acc.(supported := acc.supported - {FastBlank});
    }
    return Some(acc);
  }

  method GatherLinks(start: GetFlags.LinkAnswer, links: seq<Link>, ignoreErrors: bool, media: Media, flags: BurnFlags)
    returns (acc: GetFlags.LinkAnswer, any: bool)
    ensures acc == AddBlankingLinks(start, links, ignoreErrors, media, flags)
    ensures any <==> exists l :: l in links && l.target.None?
  {
    acc, any := start, false;
    for k := 0 to |links|
      invariant acc == AddBlankingLinks(start, links[..k], ignoreErrors, media, flags)
      invariant any <==> exists l :: l in links[..k] && l.target.None?
    {
      assert links[..k + 1][..k] == links[..k] && links[..k + 1] == links[..k] + [links[k]];
      if links[k].target.None? {
        any := true;
        acc := GatherPlugins(acc, links[k].plugins, ignoreErrors, media, flags);
      }
    }
    assert links[..|links|] == links;
  }

  method GatherPlugins(start: GetFlags.LinkAnswer, plugins: seq<Plugin>, ignoreErrors: bool, media: Media,
                       flags: BurnFlags)
    returns (acc: GetFlags.LinkAnswer)
    ensures acc == AddBlankers(start, plugins, ignoreErrors, media, flags)
  {
    acc := start;
    for k := 0 to |plugins|
      invariant acc == AddBlankers(start, plugins[..k], ignoreErrors, media, flags)
    {
      assert plugins[..k + 1][..k] == plugins[..k] && plugins[..k + 1][k] == plugins[k];
      if GetActive(plugins[k], ignoreErrors) {
        var a := GetBlankFlags(plugins[k], media, flags);
        if a.found {
          acc := GetFlags.LinkAnswer(acc.supported + a.supported, acc.compulsory * a.compulsory);
        }
      }
    }
    assert plugins[..|plugins|] == plugins;
  }

  // ----- one disc -----

  /** rejilla_caps_get_flags_for_disc. */
  function FlagsForDisc(g: Graph, rank: seq<nat>, ignoreErrors: bool, flags: BurnFlags, media: Media, input: TrackType)
    : Option<GetFlags.LinkAnswer>
    requires FindLink.Ranked(g, rank)
  {
    var start := StartFor(g, Disc(media), 0);
    if start == |g| then None
    else
      GetFlags.ForDisc(GetFlags.DiscWalk(g, rank, GetFlags.Walk(ignoreErrors, flags, media, input, {File, Pipe}),
                                         start), input)
  }

  function Plus(a: GetFlags.LinkAnswer, b: GetFlags.LinkAnswer): GetFlags.LinkAnswer {
    GetFlags.LinkAnswer(a.supported + b.supported, a.compulsory + b.compulsory)
  }

  /** The last corrections: sequential DVD-RW, and nothing to merge with on a disc that is blanked. */
  function Finished(media: Media, flags: BurnFlags, a: GetFlags.LinkAnswer): Reply {
    var dvd := DVDRW <= media;
    var fast := dvd && Multi !in flags && {FastBlank, BlankBeforeWrite} <= flags;
    if fast && Dao !in a.supported then Reply(NotSupported, {}, {})
    else
      var s := if dvd && Multi in flags then a.supported - {FastBlank} else a.supported;
      var c := if fast then a.compulsory + {Dao} else a.compulsory;
      var none := if BlankBeforeWrite in flags then {Merge, Append} else {};
      Reply(BurnOk, s - none, c - none)
  }

  /** The answer once the blanked disc will do as well, or is the only one that will. */
  function BlankedToo(a: GetFlags.LinkAnswer, second: GetFlags.LinkAnswer, only: bool,
                      more: Option<GetFlags.LinkAnswer>)
    : GetFlags.LinkAnswer
  {
    var b := Plus(a, second);
    var c := GetFlags.LinkAnswer(b.supported + {BlankBeforeWrite},
                                 b.compulsory + (if only then {BlankBeforeWrite} else {}) - {Merge, Append});
    if more.Some? then Plus(c, more.value) else c
  }

  /** rejilla_burn_caps_get_flags_for_medium: BLANK_BEFORE_WRITE is supported where the blanked disc would do, and
      compulsory where only the blanked disc would. */
  function ForMedium(g: Graph, rank: seq<nat>, ignoreErrors: bool, media: Media, flags: BurnFlags, input: TrackType,
                     base: GetFlags.LinkAnswer): Reply
    requires FindLink.Ranked(g, rank)
  {
    var first := FlagsForDisc(g, rank, ignoreErrors, flags, media, input);
    var a := if first.Some? then Plus(base, first.value) else base;
    var refused := Reply(NotSupported, {}, {});
    if !CanBlank(g, ignoreErrors, media, flags) then
      if BlankBeforeWrite in flags || first.None? then refused else Finished(media, flags, a)
    else
      var blank := NewTask.Blanked(media);
      var second := FlagsForDisc(g, rank, ignoreErrors, flags, blank, input);
      if second.None? then if first.None? then refused else Finished(blank, flags, a)
      else
        Finished(blank, flags,
                 BlankedToo(a, second.value, first.None?, BlankingFlags(g, ignoreErrors, blank, flags)))
  }

  method GetFlagsForDisc(g: Graph, rank: seq<nat>, ignoreErrors: bool, flags: BurnFlags, media: Media, input: TrackType)
    returns (answer: Option<GetFlags.LinkAnswer>)
    requires FindLink.Ranked(g, rank)
    ensures answer == FlagsForDisc(g, rank, ignoreErrors, flags, media, input)
  {
    var start := FindStartCaps(g, Disc(media));
    if start == |g| {
      return None;
    }
    var acc := GetFlags.WalkFlags(g, rank, GetFlags.Walk(ignoreErrors, flags, media, input, {File, Pipe}), start, {},
                                  FLAG_ALL);
    return GetFlags.ForDisc(acc, input);
  }

  method GetFlagsForMedium(g: Graph, rank: seq<nat>, ignoreErrors: bool, medium: Media, flags: BurnFlags,
                           input: TrackType, base: GetFlags.LinkAnswer) returns (r: Reply)
    requires FindLink.Ranked(g, rank)
    ensures r == ForMedium(g, rank, ignoreErrors, medium, flags, input, base)
  {
    var media, a := medium, base;
    var result := GetFlagsForDisc(g, rank, ignoreErrors, flags, media, input);
    if result.Some? {
      a := Plus(a, result.value);
    }
    var canBlank := FindBlanker(g, ignoreErrors, media, flags);
    if !canBlank && BlankBeforeWrite in flags {
      return Reply(NotSupported, {}, {});
    }
    if canBlank {
      var firstSuccess := result.Some?;
      media := NewTask.Blanked(media);
      result := GetFlagsForDisc(g, rank, ignoreErrors, flags, media, input);
      if result.None? {
        if !firstSuccess {
          return Reply(NotSupported, {}, {});
        }
      } else {
        var more := GetBlankingFlags(g, ignoreErrors, media, flags);
        a := BlankedToo(a, result.value, !firstSuccess, more);
      }
    } else if result.None? {
      return Reply(NotSupported, {}, {});
    }
    return Finished(media, flags, a);
  }

  // ----- the session's question -----

  /** What a session asks about. `copying` answers for a copy with one drive. */
  datatype Session = Session(
    graph: Graph,
    rank: seq<nat>,
    toImage: bool,
    input: TrackType,
    copying: Option<BurnFlags -> Reply>,
    media: Media,
    can: Ability)

  /** rejilla_burn_session_get_burn_flags and rejilla_caps_session_get_image_flags. While a burn corrects its flags the
      session is not strict, so plugins count that only errors hold back. */
  function AskFlags(q: Session, flags: BurnFlags): Reply
    requires FindLink.Ranked(q.graph, q.rank)
  {
    if q.toImage then Reply(BurnOk, {CheckSize, NoGrace} + (if q.input.Disc? then {Eject} else {}), {})
    else if q.copying.Some? then
      var r := (q.copying.value)(flags);
      r.(supported := r.supported - {NoTmpFiles, Merge}, compulsory := r.compulsory - {NoTmpFiles, Merge})
    else if !DriveTakes(q.media, q.can, flags) then Reply(BurnErr, {}, {})
    else if flags * {Merge, Append} != {} && BlankBeforeWrite in flags then Reply(NotSupported, {}, {})
    else
      var r := ForMedium(q.graph, q.rank, true, q.media, flags, q.input,
                         GetFlags.LinkAnswer({CheckSize, NoGrace, Eject}, {}));
      if r.result != BurnOk then r else ForDrive(q.media, q.can, r)
  }

  /** Nothing supported beforehand is lost but what blanking rules out. */
  lemma {:induction false} BaseStaysSupported(g: Graph, rank: seq<nat>, ignoreErrors: bool, media: Media,
                                              flags: BurnFlags, input: TrackType, base: GetFlags.LinkAnswer)
    requires FindLink.Ranked(g, rank)
    ensures var r := ForMedium(g, rank, ignoreErrors, media, flags, input, base);
            r.result == BurnOk ==> base.supported - {Merge, Append, FastBlank} <= r.supported
  {
  }

  predicate Supports(a: Option<GetFlags.LinkAnswer>, flag: Flag) {
    a.Some? && flag in a.value.supported
  }

  predicate Demands(a: Option<GetFlags.LinkAnswer>, flag: Flag) {
    a.Some? && flag in a.value.compulsory
  }

  /** The engine knows a way to record with these flags: on the disc as it is, unless it is to be blanked and cannot be,
      or on the blanked one; and a sequential DVD-RW that is blanked fast is recorded in one go. */
  predicate KnowsWay(g: Graph, rank: seq<nat>, ignoreErrors: bool, media: Media, flags: BurnFlags, input: TrackType)
    requires FindLink.Ranked(g, rank)
  {
    var first := FlagsForDisc(g, rank, ignoreErrors, flags, media, input);
    var second := FlagsForDisc(g, rank, ignoreErrors, flags, NewTask.Blanked(media), input);
    && (if CanBlank(g, ignoreErrors, media, flags) then first.Some? || second.Some?
        else first.Some? && BlankBeforeWrite !in flags)
    && (DVDRW <= media && Multi !in flags && {FastBlank, BlankBeforeWrite} <= flags ==>
          Supports(first, Dao) || Supports(second, Dao))
  }

  lemma {:induction false} BlankersMasked(acc: GetFlags.LinkAnswer, plugins: seq<Plugin>, ignoreErrors: bool,
                                          media: Media, flags: BurnFlags)
    ensures AddBlankers(acc, plugins, ignoreErrors, media, flags).supported <= acc.supported + BLANK_FLAG_MASK
  {
    if plugins != [] {
      BlankersMasked(acc, plugins[..|plugins| - 1], ignoreErrors, media, flags);
    }
  }

  lemma {:induction false} BlankingLinksMasked(acc: GetFlags.LinkAnswer, links: seq<Link>, ignoreErrors: bool,
                                               media: Media, flags: BurnFlags)
    ensures AddBlankingLinks(acc, links, ignoreErrors, media, flags).supported <= acc.supported + BLANK_FLAG_MASK
  {
    if links != [] {
      BlankingLinksMasked(acc, links[..|links| - 1], ignoreErrors, media, flags);
      BlankersMasked(AddBlankingLinks(acc, links[..|links| - 1], ignoreErrors, media, flags),
                     links[|links| - 1].plugins, ignoreErrors, media, flags);
    }
  }

  lemma {:induction false} BlankingCapsMasked(acc: GetFlags.LinkAnswer, g: Graph, ignoreErrors: bool, media: Media,
                                              flags: BurnFlags)
    ensures AddBlankingCaps(acc, g, ignoreErrors, media, flags).supported <= acc.supported + BLANK_FLAG_MASK
  {
    if g != [] {
      BlankingCapsMasked(acc, g[..|g| - 1], ignoreErrors, media, flags);
      BlankingLinksMasked(AddBlankingCaps(acc, g[..|g| - 1], ignoreErrors, media, flags), g[|g| - 1].links,
                          ignoreErrors, media, flags);
    }
  }

  /** Blanking plugins support nothing but the flags for blanking. */
  lemma {:induction false} BlankingSupports(g: Graph, ignoreErrors: bool, media: Media, flags: BurnFlags)
    ensures var a := BlankingFlags(g, ignoreErrors, media, flags); a.Some? ==> a.value.supported <= BLANK_FLAG_MASK
  {
    BlankingCapsMasked(GetFlags.LinkAnswer({}, FLAG_ALL), g, ignoreErrors, media, flags);
  }

  /** There is an answer for the disc exactly if the engine knows a way. */
  lemma {:induction false} AnsweredIff(g: Graph, rank: seq<nat>, ignoreErrors: bool, media: Media, flags: BurnFlags,
                                       input: TrackType, base: GetFlags.LinkAnswer)
    requires FindLink.Ranked(g, rank) && Dao !in base.supported
    ensures ForMedium(g, rank, ignoreErrors, media, flags, input, base).result == BurnOk
            <==> KnowsWay(g, rank, ignoreErrors, media, flags, input)
  {
    hide FlagsForDisc, CanBlank, BlankingFlags;
    BlankingSupports(g, ignoreErrors, NewTask.Blanked(media), flags);
    assert DVDRW <= media <==> DVDRW <= NewTask.Blanked(media);
    assert Dao !in BLANK_FLAG_MASK;
  }

  /** When blanking is compulsory: only the blanked disc will do, or it was demanded beforehand, by a walk, or by the
      plugins that blank. It is supported where the blanked disc will do. */
  lemma {:induction false} BlankingCompulsoryIff(g: Graph, rank: seq<nat>, ignoreErrors: bool, media: Media,
                                                 flags: BurnFlags, input: TrackType, base: GetFlags.LinkAnswer)
    requires FindLink.Ranked(g, rank)
    requires ForMedium(g, rank, ignoreErrors, media, flags, input, base).result == BurnOk
    ensures var r := ForMedium(g, rank, ignoreErrors, media, flags, input, base);
            var first := FlagsForDisc(g, rank, ignoreErrors, flags, media, input);
            var second := FlagsForDisc(g, rank, ignoreErrors, flags, NewTask.Blanked(media), input);
            var blanked := CanBlank(g, ignoreErrors, media, flags) && second.Some?;
            && (BlankBeforeWrite in r.compulsory <==>
                  || BlankBeforeWrite in base.compulsory || Demands(first, BlankBeforeWrite)
                  || (blanked
                      && (first.None? || Demands(second, BlankBeforeWrite)
                          || Demands(BlankingFlags(g, ignoreErrors, NewTask.Blanked(media), flags), BlankBeforeWrite))))
            && (BlankBeforeWrite in r.supported <==>
                  blanked || BlankBeforeWrite in base.supported || Supports(first, BlankBeforeWrite))
            && (first.None? ==> blanked)
  {
    hide FlagsForDisc, CanBlank, BlankingFlags;
  }

  /** A disc that is blanked fast and is not to be appended to later must be recorded in one go. */
  predicate MustUseDao(media: Media, flags: BurnFlags) {
    DVDRW <= media && Multi !in flags && {FastBlank, BlankBeforeWrite} <= flags
  }

  /** The answer for the disc in the burner, flag by flag: what the disc as it is supports and demands, and, if it can
      be blanked and will do then, what the blanked one and the blanking do. Merging and appending go together with no
      blanking, and fast blanking of a sequential DVD-RW with no later session. */
  lemma {:induction false} MediumFlagsAre(g: Graph, rank: seq<nat>, ignoreErrors: bool, media: Media, flags: BurnFlags,
                                          input: TrackType, base: GetFlags.LinkAnswer, flag: Flag)
    requires FindLink.Ranked(g, rank)
    requires ForMedium(g, rank, ignoreErrors, media, flags, input, base).result == BurnOk
    ensures var r := ForMedium(g, rank, ignoreErrors, media, flags, input, base);
            var blank := NewTask.Blanked(media);
            var first := FlagsForDisc(g, rank, ignoreErrors, flags, media, input);
            var second := FlagsForDisc(g, rank, ignoreErrors, flags, blank, input);
            var more := BlankingFlags(g, ignoreErrors, blank, flags);
            var blanked := CanBlank(g, ignoreErrors, media, flags) && second.Some?;
            var hides := BlankBeforeWrite in flags && (flag == Merge || flag == Append);
            && (flag in r.supported <==>
                  && !hides && !(DVDRW <= media && Multi in flags && flag == FastBlank)
                  && (|| flag in base.supported || Supports(first, flag)
                      || (blanked && (Supports(second, flag) || Supports(more, flag) || flag == BlankBeforeWrite))))
            && (flag in r.compulsory <==>
                  && !hides
                  && (|| (MustUseDao(media, flags) && flag == Dao)
                      || (blanked && Demands(more, flag))
                      || (!(blanked && (flag == Merge || flag == Append))
                          && (|| flag in base.compulsory || Demands(first, flag)
                              || (blanked && (Demands(second, flag) || (flag == BlankBeforeWrite && first.None?)))))))
  {
    hide FlagsForDisc, CanBlank, BlankingFlags, Finished, BlankedToo;
    var blank := NewTask.Blanked(media);
    var first := FlagsForDisc(g, rank, ignoreErrors, flags, media, input);
    var second := FlagsForDisc(g, rank, ignoreErrors, flags, blank, input);
    var more := BlankingFlags(g, ignoreErrors, blank, flags);
    var a := if first.Some? then Plus(base, first.value) else base;
    assert DVDRW <= media <==> DVDRW <= blank;
    FinishedLeaves(media, flags, a, flag);
    FinishedLeaves(blank, flags, a, flag);
    if second.Some? {
      BlankedAdds(a, second.value, first.None?, more, flag);
      FinishedLeaves(blank, flags, BlankedToo(a, second.value, first.None?, more), flag);
    }
  }

  lemma {:induction false} FinishedLeaves(media: Media, flags: BurnFlags, a: GetFlags.LinkAnswer, flag: Flag)
    ensures var r := Finished(media, flags, a);
            var hides := BlankBeforeWrite in flags && (flag == Merge || flag == Append);
            r.result == BurnOk ==>
              && (flag in r.supported <==>
                    flag in a.supported && !hides && !(DVDRW <= media && Multi in flags && flag == FastBlank))
              && (flag in r.compulsory <==>
                    (flag in a.compulsory || (MustUseDao(media, flags) && flag == Dao)) && !hides)
  {
  }

  lemma {:induction false} BlankedAdds(a: GetFlags.LinkAnswer, second: GetFlags.LinkAnswer, only: bool,
                                       more: Option<GetFlags.LinkAnswer>, flag: Flag)
    ensures var c := BlankedToo(a, second, only, more);
            && (flag in c.supported <==>
                  || flag in a.supported || flag in second.supported || flag == BlankBeforeWrite
                  || Supports(more, flag))
            && (flag in c.compulsory <==>
                  || Demands(more, flag)
                  || (flag != Merge && flag != Append
                      && (|| flag in a.compulsory || flag in second.compulsory
                          || (only && flag == BlankBeforeWrite))))
  {
  }

  /** What drive and disc leave of an answer. Simulating needs a drive that can, in the way of writing the answer
      allows; a disc that is neither blanked first nor overwritten at will, in a drive that cannot write track by
      track, takes no second session and must be written in one go, or cannot be if the drive cannot do that either.
      */
  lemma {:induction false} DriveLeaves(media: Media, can: Ability, r: Reply, flag: Flag)
    ensures var d := ForDrive(media, can, r);
            var stuck := BlankBeforeWrite !in r.compulsory && !RandomWritable(media) && !can.tao;
            && d.result == r.result
            && (flag in d.supported <==>
                  && flag in r.supported
                  && (flag == Dummy ==>
                        MediumPlus !in media
                        && if MediumDvd in media || Dao in r.supported then can.dummySao else can.dummyTao)
                  && (flag == BurnProof ==> can.burnFree)
                  && (flag == Multi ==> !stuck) && (flag == Dao && stuck ==> can.sao))
            && (flag in d.compulsory <==> flag in r.compulsory || (flag == Dao && stuck && can.sao))
  {
  }

  /** The flags answered are flags the drive takes, one by one: whoever sets one of them is not turned away for it. */
  lemma {:induction false} AnsweredIsTaken(q: Session, flags: BurnFlags, flag: Flag)
    requires FindLink.Ranked(q.graph, q.rank) && !q.toImage && q.copying.None?
    requires AskFlags(q, flags).result == BurnOk && flag in AskFlags(q, flags).supported && flag != Dummy
    ensures DriveTakes(q.media, q.can, {flag})
    ensures flag == Multi ==>
              || q.can.tao || RandomWritable(q.media) || BlankBeforeWrite in AskFlags(q, flags).compulsory
  {
    var r := ForMedium(q.graph, q.rank, true, q.media, flags, q.input,
                       GetFlags.LinkAnswer({CheckSize, NoGrace, Eject}, {}));
    hide ForMedium;
    DriveLeaves(q.media, q.can, r, flag);
    DriveLeaves(q.media, q.can, r, BlankBeforeWrite);
  }

  /** Discs that are written over without blanking: DVD+RW, restricted DVD-RW, DVD-RAM, and the BDs that are random,
      pseudo-overwritten or rewritable. */
  lemma {:induction false} RandomWritableMeans(media: Media)
    ensures RandomWritable(media) <==>
              || (MediumDvd in media && MediumRam in media)
              || (MediumDvd in media && MediumRewritable in media && (MediumPlus in media || MediumRestricted in media))
              || (MediumBd in media && MediumRewritable in media)
              || (MediumBd in media && MediumWritable in media
                  && (MediumRandom in media || (MediumPow in media && MediumSrm in media)))
  {
  }

  /** A query is an error exactly if the drive cannot do what is asked of it: burn without underruns, or simulate in the
      way of writing that is asked for. */
  lemma {:induction false} DriveRefusesIff(q: Session, flags: BurnFlags)
    requires FindLink.Ranked(q.graph, q.rank) && !q.toImage && q.copying.None?
    ensures AskFlags(q, flags).result == BurnErr <==>
              || (BurnProof in flags && !q.can.burnFree)
              || (Dummy in flags
                  && (MediumPlus in q.media
                      || !(if MediumDvd in q.media || Dao in flags then q.can.dummySao else q.can.dummyTao)))
  {
    hide FlagsForDisc, CanBlank, BlankingFlags;
  }

  /** Copying with one drive goes by way of an image, so there is no doing without temporary files, and no merging; the
      rest is as answered. */
  lemma {:induction false} CopyingAnswers(q: Session, flags: BurnFlags, flag: Flag)
    requires FindLink.Ranked(q.graph, q.rank) && !q.toImage && q.copying.Some?
    ensures var r, a := AskFlags(q, flags), (q.copying.value)(flags);
            && r.result == a.result
            && (flag in r.supported <==> flag in a.supported && flag != NoTmpFiles && flag != Merge)
            && (flag in r.compulsory <==> flag in a.compulsory && flag != NoTmpFiles && flag != Merge)
  {
  }

  /** Before a burn the plain search is asked whether there is a way, and then the priority search finds it: both look
      for the same thing. A session that is not strict, or that has somebody fetch what is missing, counts in plugins
      that only their errors hold back. */
  lemma {:induction false} SearchesAskAlike(flags: BurnFlags, strict: bool, input: TrackType, output: TrackType,
                                            callback: Option<Plugin -> BurnResult>)
    ensures var media := if output.Disc? then output.media else {MediumFile};
            var ctx := FindLink.SetCtx(flags, strict, input, media, true, callback);
            && FindLink.QueryOf(ctx) == NewTask.QueryFor(flags, input, output)
            && ctx.checkFlags && ctx.callback == callback
            && (ctx.ignoreErrors <==> callback.Some? || !strict)
    ensures var ctx := FindLink.SetCtx(flags, strict, input, {MediumFile}, false, callback);
            ctx.flags == {} && ctx.io == {File, Pipe} && !ctx.checkFlags
  {
  }

  /** The harmless flags are always among those supported. */
  lemma {:induction false} HarmlessSupported(q: Session, flags: BurnFlags)
    requires FindLink.Ranked(q.graph, q.rank) && q.copying.None? && AskFlags(q, flags).result == BurnOk
    ensures {CheckSize, NoGrace} <= AskFlags(q, flags).supported
    ensures !q.toImage ==> Eject in AskFlags(q, flags).supported
  {
    if !q.toImage {
      var base := GetFlags.LinkAnswer({CheckSize, NoGrace, Eject}, {});
      BaseStaysSupported(q.graph, q.rank, true, q.media, flags, q.input, base);
      var r := ForMedium(q.graph, q.rank, true, q.media, flags, q.input, base);
      assert {CheckSize, NoGrace, Eject} <= r.supported;
      var d := ForDrive(q.media, q.can, r);
      assert r.supported - {Dummy, Multi, Dao, BurnProof} <= d.supported;
    }
  }
}
