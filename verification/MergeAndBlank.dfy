/** A session that keeps merging and blanking together: its disc can be merged with and can be blanked, so each of the
    two is supported, but the engine refuses them together, and a refusal does not take a flag back. */
module MergeAndBlank {
  import opened Flags
  import opened Plugins
  import opened Caps
  import opened MediumFlags
  import opened Consistency
  import opened SmallTables
  import FindLink
  import GetFlags
  import Planning = NewTask

  const USED: Media := {MediumCd, MediumRewritable, MediumAppendable, MediumHasData}
  const EMPTY: Media := {MediumCd, MediumRewritable, MediumBlank}

  const RECORDER := Plugin(1, true, true, false, 0, 0, [MediaFlags(USED + EMPTY, [FlagPair({Merge}, {})])], [], {})

  const BLANKER := Plugin(2, true, true, false, 0, 0, [], [MediaFlags(USED, [FlagPair({}, {})])], {})

  const RECORDING := Link(Some(2), [RECORDER])

  const GRAPH: Graph := [Caps([RECORDING, Link(None, [BLANKER])], [], Disc(USED), {}),
                         Caps([RECORDING], [], Disc(EMPTY), {}),
                         Caps([], [], Data({}), {File})]

  const RANK: seq<nat> := [1, 1, 0]

  lemma {:induction false} Basics()
    ensures FindLink.Ranked(GRAPH, RANK)
    ensures Planning.Blanked(USED) == EMPTY && !(EMPTY <= USED) && USED != EMPTY
    ensures StartFor(GRAPH, Disc(USED), 0) == 0 && StartFor(GRAPH, Disc(EMPTY), 0) == 1
  {
    assert MediumBlank in EMPTY && MediumBlank !in USED;
    assert EndsChain(GRAPH, 0, Disc(USED)) && !EndsChain(GRAPH, 0, Disc(EMPTY)) && EndsChain(GRAPH, 1, Disc(EMPTY));
  }

  lemma {:induction false} Answers(media: Media, flags: BurnFlags)
    requires media <= USED + EMPTY && (flags == {} || flags == {Merge})
    ensures GetRecordFlags(RECORDER, media, flags) == FlagAnswer(true, {Merge}, {})
    ensures GetImageFlags(RECORDER, media, flags) == FlagAnswer(true, {Merge}, {})
  {
    hide AllFlags;
    assert PairsFor(RECORDER.flags, media) == [FlagPair({Merge}, {})];
    assert {Merge} * BURN_FLAG_MASK == {Merge} && {Merge} * IMAGE_FLAG_MASK == {Merge};
    OnePair(RECORDER.flags, false, media, BURN_FLAG_MASK, flags * BURN_FLAG_MASK, {Merge});
    OnePair(RECORDER.flags, false, media, IMAGE_FLAG_MASK, flags * IMAGE_FLAG_MASK, {Merge});
  }

  function WalkFor(media: Media, flags: BurnFlags): GetFlags.Walk {
    GetFlags.Walk(true, flags, media, Data({}), {File, Pipe})
  }

  lemma {:induction false} Records(c: nat, media: Media, flags: BurnFlags)
    requires c < 2 && media <= USED + EMPTY && (flags == {} || flags == {Merge})
    ensures GetFlags.OfLink(GRAPH, WalkFor(media, flags), c, RECORDING) == Some(GetFlags.LinkAnswer({Merge}, {}))
  {
    hide GetRecordFlags, GetImageFlags, GetFlags.RecordAnswer, GetFlags.DataAnswer;
    Answers(media, flags);
    OnePlugin(RECORDER, WalkFor(media, flags));
    assert FLAG_ALL * {} == {} && {Merge} + {Merge} == {Merge};
    assert RECORDER in RECORDING.plugins && GetActive(RECORDER, true);
  }

  lemma {:induction false} Walks(c: nat, media: Media, flags: BurnFlags)
    requires FindLink.Ranked(GRAPH, RANK) && c < 2 && media <= USED + EMPTY && (flags == {} || flags == {Merge})
    ensures GetFlags.DiscWalk(GRAPH, RANK, WalkFor(media, flags), c) == GetFlags.Acc({Pipe}, {Merge}, {})
  {
    var w, start := WalkFor(media, flags), GetFlags.Acc({}, {}, FLAG_ALL);
    assert GetFlags.OfLink(GRAPH, w, 0, GRAPH[0].links[1]).None?;
    hide GetFlags.OfLink;
    Records(c, media, flags);
    assert GetFlags.Fits(GRAPH, w, 2) && GRAPH[c].links[0] == RECORDING;
    assert GetFlags.Visit(GRAPH, RANK, w, c, 0, start) == start;
    assert FLAG_ALL * {} == {};
    assert GetFlags.Visit(GRAPH, RANK, w, c, 1, start) == GetFlags.DiscWalk(GRAPH, RANK, w, c);
  }

  /** The disc as it is and the blanked one answer alike. */
  lemma {:induction false} DiscFlags(flags: BurnFlags)
    requires FindLink.Ranked(GRAPH, RANK) && (flags == {} || flags == {Merge})
    ensures FlagsForDisc(GRAPH, RANK, true, flags, USED, Data({}))
            == FlagsForDisc(GRAPH, RANK, true, flags, EMPTY, Data({}))
            == Some(GetFlags.LinkAnswer({Merge, NoTmpFiles}, {NoTmpFiles}))
  {
    hide GetFlags.DiscWalk;
    Basics();
    Walks(0, USED, flags);
    Walks(1, EMPTY, flags);
    assert {Merge} + {NoTmpFiles} == {Merge, NoTmpFiles} && {} + {NoTmpFiles} == {NoTmpFiles};
    assert Pipe in {Pipe} && File !in {Pipe};
  }

  lemma {:induction false} Blanks(flags: BurnFlags)
    requires flags * BLANK_FLAG_MASK == {}
    ensures CanBlank(GRAPH, true, USED, flags)
  {
    hide AllFlags;
    OnePair(BLANKER.blankFlags, true, USED, BLANK_FLAG_MASK, flags * BLANK_FLAG_MASK, {});
    var link := GRAPH[0].links[1];
    assert CheckBlankFlags(BLANKER, USED, flags);
    assert (p => CheckBlankFlags(p, USED, flags))(BLANKER);
    assert BLANKER in link.plugins && GetActive(BLANKER, true);
    assert FindLink.SomePlugin(link, true, p => CheckBlankFlags(p, USED, flags));
    assert BlanksBy(link, true, USED, flags);
    assert BlankingCaps(GRAPH[0], USED) && MediumDvd !in USED && MediumCd in USED;
  }

  const CAN := Ability(false, false, true, true, false)

  const SESSION := Session(GRAPH, RANK, false, Data({}), None, USED, CAN)

  const BASE := GetFlags.LinkAnswer({CheckSize, NoGrace, Eject}, {})

  lemma {:induction false} MediumAnswers(flags: BurnFlags)
    requires FindLink.Ranked(GRAPH, RANK) && (flags == {} || flags == {Merge})
    ensures var r := ForMedium(GRAPH, RANK, true, USED, flags, Data({}), BASE);
            r.result == BurnOk && {Merge, BlankBeforeWrite} <= r.supported
  {
    hide FlagsForDisc, CanBlank, BlankingFlags;
    Basics();
    DiscFlags(flags);
    assert flags * BLANK_FLAG_MASK == {};
    Blanks(flags);
    assert MediumDvd !in EMPTY && BlankBeforeWrite !in flags;
  }

  lemma {:induction false} SessionAnswers(flags: BurnFlags)
    requires FindLink.Ranked(GRAPH, RANK) && (flags == {} || flags == {Merge})
    ensures var r := Asking(SESSION)(flags); r.result == BurnOk && {Merge, BlankBeforeWrite} <= r.supported
  {
    hide ForMedium;
    MediumAnswers(flags);
    assert DriveTakes(USED, CAN, flags) && BlankBeforeWrite !in flags;
  }

  /** Asked to merge and to blank, this session keeps both, and the engine has no answer for that. */
  lemma {:induction false} KeptButNotTogether()
    ensures FindLink.Ranked(GRAPH, RANK)
    ensures exists compulsory ::
              CheckFlags(Asking(SESSION), {Merge, BlankBeforeWrite}) == Corrected({Merge, BlankBeforeWrite}, compulsory)
    ensures Asking(SESSION)({Merge, BlankBeforeWrite}).result == NotSupported
  {
    Basics();
    SessionAnswers({});
    SessionAnswers({Merge});
    assert DriveTakes(USED, CAN, {Merge, BlankBeforeWrite}) && Merge in {Merge, BlankBeforeWrite} * {Merge, Append};
    hide ForMedium, AskFlags;
    BothKept(Asking(SESSION));
  }
}
