/** A run that erases a disc although nobody was asked about losing the data on it: the user chose to merge with the
    previous session, and the engine knows how to merge only once the disc is blanked. Here the user also cancels the
    eraser. */
module MergeRun {
  import opened Flags
  import opened Plugins
  import opened Caps
  import opened MediumFlags
  import opened Consistency
  import opened Drives
  import opened Protocol
  import opened SmallTables
  import BestLink
  import BurnLaws
  import FindLink
  import GetFlags
  import Planning = NewTask

  const USED: Media := {MediumCd, MediumRewritable, MediumAppendable, MediumHasData}
  const EMPTY: Media := {MediumCd, MediumRewritable, MediumBlank}

  /** Merges on empty discs only. */
  const RECORDER := Plugin(1, true, true, false, 0, 0,
                           [MediaFlags(USED, [FlagPair({}, {})]), MediaFlags(EMPTY, [FlagPair({Merge}, {})])], [], {})

  const BLANKER := Plugin(2, true, true, false, 0, 0, [], [MediaFlags(USED, [FlagPair({}, {})])], {})

  const RECORDING := Link(Some(2), [RECORDER])

  const GRAPH: Graph := [Caps([RECORDING, Link(None, [BLANKER])], [], Disc(USED), {}),
                         Caps([RECORDING], [], Disc(EMPTY), {}),
                         Caps([], [], Data({}), {File})]

  const RANK: seq<nat> := [1, 1, 0]

  lemma {:induction false} Basics()
    ensures FindLink.Ranked(GRAPH, RANK)
    ensures Planning.Blanked(USED) == EMPTY && !(EMPTY <= USED) && USED != EMPTY
    ensures NoActiveModifiers(GRAPH)
  {
    assert MediumBlank in EMPTY && MediumBlank !in USED;
  }

  // ----- what the plugins answer -----

  lemma {:induction false} Tables()
    ensures PairsFor(RECORDER.flags, USED) == [FlagPair({}, {})]
            && PairsFor(RECORDER.flags, EMPTY) == [FlagPair({Merge}, {})]
    ensures PairsFor(BLANKER.blankFlags, USED) == [FlagPair({}, {})]
  {
    Basics();
    var list := RECORDER.flags;
    assert list[1..] == [MediaFlags(EMPTY, [FlagPair({Merge}, {})])];
    assert EntryFor(list[1..], EMPTY) == 0 && EntryFor(list, EMPTY) == 1 && EntryFor(list, USED) == 0;
  }

  function WalkFor(media: Media, flags: BurnFlags): GetFlags.Walk {
    GetFlags.Walk(true, flags, media, Data({}), {File, Pipe})
  }

  lemma {:induction false} Masks()
    ensures {Merge} * BURN_FLAG_MASK == {Merge} && {Merge} * IMAGE_FLAG_MASK == {Merge}
    ensures {} * BURN_FLAG_MASK == {} && {} * IMAGE_FLAG_MASK == {}
  {
  }

  /** On an empty disc the recorder merges if it must. */
  lemma {:induction false} AnswersEmpty(flags: BurnFlags)
    requires flags == {} || flags == {Merge}
    ensures GetRecordFlags(RECORDER, EMPTY, flags) == FlagAnswer(true, {Merge}, {})
    ensures GetImageFlags(RECORDER, EMPTY, flags) == FlagAnswer(true, {Merge}, {})
  {
    hide AllFlags;
    Tables();
    Masks();
    OnePair(RECORDER.flags, false, EMPTY, BURN_FLAG_MASK, flags * BURN_FLAG_MASK, {Merge});
    OnePair(RECORDER.flags, false, EMPTY, IMAGE_FLAG_MASK, flags * IMAGE_FLAG_MASK, {Merge});
  }

  /** On a disc with data on it, it does not. */
  lemma {:induction false} AnswersUsed(flags: BurnFlags)
    requires flags == {} || flags == {Merge}
    ensures GetRecordFlags(RECORDER, USED, flags) == FlagAnswer(flags == {}, {}, {})
    ensures GetImageFlags(RECORDER, USED, flags) == FlagAnswer(flags == {}, {}, {})
  {
    hide AllFlags;
    Tables();
    Masks();
    OnePair(RECORDER.flags, false, USED, BURN_FLAG_MASK, flags * BURN_FLAG_MASK, {});
    OnePair(RECORDER.flags, false, USED, IMAGE_FLAG_MASK, flags * IMAGE_FLAG_MASK, {});
  }

  lemma {:induction false} RecordsEmpty(flags: BurnFlags)
    requires flags == {} || flags == {Merge}
    ensures GetFlags.OfLink(GRAPH, WalkFor(EMPTY, flags), 1, RECORDING) == Some(GetFlags.LinkAnswer({Merge}, {}))
  {
    hide GetRecordFlags, GetImageFlags, GetFlags.RecordAnswer, GetFlags.DataAnswer;
    AnswersEmpty(flags);
    OnePlugin(RECORDER, WalkFor(EMPTY, flags));
    assert FLAG_ALL * {} == {} && {Merge} + {Merge} == {Merge};
    assert LinkIsActive(RECORDING, true);
  }

  lemma {:induction false} RecordsUsed(flags: BurnFlags)
    requires flags == {} || flags == {Merge}
    ensures GetFlags.OfLink(GRAPH, WalkFor(USED, flags), 0, RECORDING) ==
              if flags == {} then Some(GetFlags.LinkAnswer({}, {})) else None
  {
    hide GetRecordFlags, GetImageFlags, GetFlags.RecordAnswer, GetFlags.DataAnswer;
    AnswersUsed(flags);
    OnePlugin(RECORDER, WalkFor(USED, flags));
    Masks();
    var none: BurnFlags := {};
    assert FLAG_ALL * none == none && none + none == none;
    assert LinkIsActive(RECORDING, true) && Merge in {Merge};
  }

  lemma {:induction false} Starts()
    ensures StartFor(GRAPH, Disc(USED), 0) == 0 && StartFor(GRAPH, Disc(EMPTY), 0) == 1
  {
    Basics();
    assert EndsChain(GRAPH, 0, Disc(USED)) && !EndsChain(GRAPH, 0, Disc(EMPTY)) && EndsChain(GRAPH, 1, Disc(EMPTY));
  }

  lemma {:induction false} WalksEmpty(flags: BurnFlags)
    requires FindLink.Ranked(GRAPH, RANK) && (flags == {} || flags == {Merge})
    ensures GetFlags.DiscWalk(GRAPH, RANK, WalkFor(EMPTY, flags), 1) == GetFlags.Acc({Pipe}, {Merge}, {})
  {
    hide GetFlags.OfLink;
    var w, start := WalkFor(EMPTY, flags), GetFlags.Acc({}, {}, FLAG_ALL);
    RecordsEmpty(flags);
    assert GetFlags.Fits(GRAPH, w, 2) && GRAPH[1].links[0] == RECORDING;
    assert GetFlags.Visit(GRAPH, RANK, w, 1, 0, start) == start;
    assert FLAG_ALL * {} == {};
  }

  lemma {:induction false} WalksUsed(flags: BurnFlags)
    requires FindLink.Ranked(GRAPH, RANK) && (flags == {} || flags == {Merge})
    ensures GetFlags.DiscWalk(GRAPH, RANK, WalkFor(USED, flags), 0)
            == if flags == {} then GetFlags.Acc({Pipe}, {}, {}) else GetFlags.Acc({}, {}, FLAG_ALL)
  {
    var w, start := WalkFor(USED, flags), GetFlags.Acc({}, {}, FLAG_ALL);
    assert GetFlags.OfLink(GRAPH, w, 0, GRAPH[0].links[1]).None?;
    hide GetFlags.OfLink;
    RecordsUsed(flags);
    assert GetFlags.Fits(GRAPH, w, 2) && GRAPH[0].links[0] == RECORDING;
    assert GetFlags.Visit(GRAPH, RANK, w, 0, 0, start) == start;
    assert FLAG_ALL * {} == {};
    assert GetFlags.Visit(GRAPH, RANK, w, 0, 1, start) == GetFlags.DiscWalk(GRAPH, RANK, w, 0);
  }

  /** The used disc can be written as long as there is no merging; the empty one in any case. */
  lemma {:induction false} DiscFlags(flags: BurnFlags)
    requires FindLink.Ranked(GRAPH, RANK) && (flags == {} || flags == {Merge})
    ensures FlagsForDisc(GRAPH, RANK, true, flags, USED, Data({})) ==
              if flags == {} then Some(GetFlags.LinkAnswer({NoTmpFiles}, {NoTmpFiles})) else None
    ensures FlagsForDisc(GRAPH, RANK, true, flags, EMPTY, Data({})) ==
              Some(GetFlags.LinkAnswer({Merge, NoTmpFiles}, {NoTmpFiles}))
  {
    hide GetFlags.DiscWalk;
    Starts();
    WalksUsed(flags);
    WalksEmpty(flags);
    var none: BurnFlags := {};
    assert none + {NoTmpFiles} == {NoTmpFiles} && {Merge} + {NoTmpFiles} == {Merge, NoTmpFiles};
    assert Dao !in none && Pipe in {Pipe} && File !in {Pipe};
  }

  lemma {:induction false} BlanksUsed(flags: BurnFlags)
    requires flags * BLANK_FLAG_MASK == {}
    ensures CanBlank(GRAPH, true, USED, flags)
  {
    hide AllFlags;
    Tables();
    OnePair(BLANKER.blankFlags, true, USED, BLANK_FLAG_MASK, flags * BLANK_FLAG_MASK, {});
    var link := GRAPH[0].links[1];
    assert CheckBlankFlags(BLANKER, USED, flags);
    assert (p => CheckBlankFlags(p, USED, flags))(BLANKER);
    assert BLANKER in link.plugins && GetActive(BLANKER, true);
    assert FindLink.SomePlugin(link, true, p => CheckBlankFlags(p, USED, flags));
    assert BlanksBy(link, true, USED, flags);
    assert BlankingCaps(GRAPH[0], USED) && MediumDvd !in USED && MediumCd in USED;
  }

  lemma {:induction false} NoneBlanksEmpty(flags: BurnFlags)
    ensures BlankingFlags(GRAPH, true, EMPTY, flags).None?
  {
    Basics();
    forall c: nat, l | c < |GRAPH| && l in GRAPH[c].links && BlankingCaps(GRAPH[c], EMPTY) ensures l.target.Some? {
      assert c == 1;
      assert GRAPH[1].links == [RECORDING];
    }
  }

  // ----- what the engine answers -----

  const CAN := Ability(false, false, true, true, false)

  const SESSION := Session(GRAPH, RANK, false, Data({}), None, USED, CAN)

  const BASE := GetFlags.LinkAnswer({CheckSize, NoGrace, Eject}, {})

  /** With nothing asked for, both the used disc and the blanked one will do; to merge, only the blanked one. */
  lemma {:induction false} MediumAnswers(flags: BurnFlags)
    requires FindLink.Ranked(GRAPH, RANK) && (flags == {} || flags == {Merge})
    ensures var r := ForMedium(GRAPH, RANK, true, USED, flags, Data({}), BASE);
            && r.result == BurnOk && Merge in r.supported
            && r.compulsory == if flags == {} then {NoTmpFiles} else {NoTmpFiles, BlankBeforeWrite}
  {
    hide FlagsForDisc, CanBlank, BlankingFlags;
    Basics();
    Masks();
    DiscFlags(flags);
    assert flags * BLANK_FLAG_MASK == {};
    BlanksUsed(flags);
    NoneBlanksEmpty(flags);
    var first := FlagsForDisc(GRAPH, RANK, true, flags, USED, Data({}));
    var a := if first.Some? then Plus(BASE, first.value) else BASE;
    var b := BlankedToo(a, GetFlags.LinkAnswer({Merge, NoTmpFiles}, {NoTmpFiles}), first.None?, None);
    assert b.compulsory == if flags == {} then {NoTmpFiles} else {NoTmpFiles, BlankBeforeWrite};
    assert Merge in b.supported;
    assert ForMedium(GRAPH, RANK, true, USED, flags, Data({}), BASE) == Finished(EMPTY, flags, b);
    assert MediumDvd !in EMPTY && BlankBeforeWrite !in flags;
    var none: BurnFlags := {};
    assert b.supported - none == b.supported && b.compulsory - none == b.compulsory;
  }

  lemma {:induction false} SessionAnswers(flags: BurnFlags)
    requires FindLink.Ranked(GRAPH, RANK) && (flags == {} || flags == {Merge})
    ensures var r := Asking(SESSION)(flags);
            && r.result == BurnOk && Merge in r.supported
            && r.compulsory == if flags == {} then {NoTmpFiles} else {NoTmpFiles, BlankBeforeWrite}
  {
    hide ForMedium;
    MediumAnswers(flags);
    assert DriveTakes(USED, CAN, flags) && BlankBeforeWrite !in flags;
  }

  /** So the session that asks for nothing is left with nothing but what must be, and the one that asks to merge is to
      blank the disc first. */
  lemma {:induction false} SessionChecks()
    requires FindLink.Ranked(GRAPH, RANK)
    ensures CheckFlags(Asking(SESSION), {}) == Corrected({}, {NoTmpFiles})
    ensures CheckFlags(Asking(SESSION), {Merge}) == Corrected({Merge}, {NoTmpFiles, BlankBeforeWrite})
  {
    hide AskFlags;
    SessionAnswers({});
    SessionAnswers({Merge});
    AskingNothing(Asking(SESSION));
    AskingToMerge(Asking(SESSION));
  }

  // ----- the plan -----

  const FLAGS: BurnFlags := {Merge, NoTmpFiles, BlankBeforeWrite}

  const ERASE := Planning.Task(Planning.ActionErase, [Planning.Job(BLANKER, NoTrack, Planning.EraserJob)])

  const RECORD := Planning.Task(Planning.ActionNormal, [Planning.Job(RECORDER, Disc(EMPTY), Planning.LinkJob)])

  function RequestFor(group: int): Planning.Request {
    Planning.Request(group, FLAGS, Data({}), Disc(USED), true, true, Some(BLANKER))
  }

  /** The used disc cannot be had: the recorder does not merge on it. */
  lemma {:induction false} NoWayForUsed(group: int)
    requires WellFormed(GRAPH)
    ensures !Planning.AsItIs(GRAPH, RequestFor(group))
  {
    Starts();
    var q := Planning.QueryFor(FLAGS, Data({}), Disc(USED));
    Tables();
    OnePair(RECORDER.flags, true, USED, BURN_FLAG_MASK, FLAGS * BURN_FLAG_MASK, {});
    assert Merge in FLAGS * BURN_FLAG_MASK;
    assert !BestLink.Eligible(GRAPH, q, 0, RECORDING, RECORDER);
    BestLink.PickIsBest(GRAPH, q, 0, group, RECORDING, RECORDING.plugins);
    assert forall path :: !BestLink.IsRoute(GRAPH, q, 0, group, {}, path);
  }

  const WAY: seq<BestLink.Node> := [BestLink.Node(RECORDING, RECORDER)]

  const QUERY := Planning.QueryFor(FLAGS - {BlankBeforeWrite}, Data({}), Disc(EMPTY))

  lemma {:induction false} PicksRecorder(group: int)
    requires WellFormed(GRAPH)
    ensures BestLink.Pick(GRAPH, QUERY, 1, group, RECORDING) == Some(RECORDER)
  {
    hide AllFlags;
    Tables();
    OnePair(RECORDER.flags, true, EMPTY, BURN_FLAG_MASK, QUERY.flags * BURN_FLAG_MASK, {Merge});
    OnePair(RECORDER.flags, true, EMPTY, IMAGE_FLAG_MASK, QUERY.flags * IMAGE_FLAG_MASK, {Merge});
    assert QUERY.flags == {Merge, NoTmpFiles};
    assert QUERY.flags * BURN_FLAG_MASK <= {Merge} && QUERY.flags * IMAGE_FLAG_MASK <= {Merge};
    assert BestLink.Eligible(GRAPH, QUERY, 1, RECORDING, RECORDER);
    BestLink.PickIsBest(GRAPH, QUERY, 1, group, RECORDING, RECORDING.plugins);
  }

  lemma {:induction false} DeadEnd(group: int, used: set<nat>, path: seq<BestLink.Node>)
    requires WellFormed(GRAPH)
    ensures !BestLink.IsRoute(GRAPH, QUERY, 2, group, used, path)
  {
  }

  /** The blanked disc can be had, in one way only. */
  lemma {:induction false} OneWayForEmpty(group: int, path: seq<BestLink.Node>)
    requires WellFormed(GRAPH)
    ensures BestLink.IsRoute(GRAPH, QUERY, 1, group, {}, path) <==> path == WAY
  {
    hide BestLink.Pick;
    PicksRecorder(group);
    assert BestLink.Fits(GRAPH, QUERY, 2) && BestLink.Followable(GRAPH, QUERY, 1, {}, RECORDING);
    assert GRAPH[1].links == [RECORDING];
    if BestLink.IsRoute(GRAPH, QUERY, 1, group, {}, path) {
      assert path[0].link in [RECORDING];
      assert path[0] == WAY[0];
      if |path| > 1 {
        DeadEnd(BestLink.NextGroup(group, RECORDER), {} + {1}, path[1..]);
      }
      assert path == [path[0]];
    }
  }

  lemma {:induction false} OnceBlanked(group: int)
    requires WellFormed(GRAPH)
    ensures Planning.OnceBlanked(GRAPH, RequestFor(group))
  {
    Basics();
    Starts();
    OneWayForEmpty(group, WAY);
    assert FLAGS - {BlankBeforeWrite} == QUERY.flags;
  }

  /** So the disc is erased, and then recorded. */
  lemma {:induction false} PlanIs(group: int, tasks: seq<Planning.Task>, p: Planning.Plan)
    requires WellFormed(GRAPH) && Planning.Fulfils(GRAPH, RequestFor(group), tasks, p)
    ensures |tasks| == 2 && tasks[0].action == Planning.ActionErase && tasks[1].action == Planning.ActionNormal
  {
    Basics();
    Starts();
    NoWayForUsed(group);
    OnceBlanked(group);
    assert FLAGS - {BlankBeforeWrite} == QUERY.flags;
    assert tasks != [] && Planning.HasErase(tasks);
    OneWayForEmpty(group, p.path);
    Planning.TaskCount(GRAPH, Planning.Reversed(p.path), p.output, true, tasks);
  }

  lemma {:induction false} WayIsPlan(group: int)
    requires WellFormed(GRAPH)
    ensures Planning.IsPlan(GRAPH, group, Data({}), Planning.Plan(WAY, QUERY.flags, Disc(EMPTY)))
  {
    Starts();
    OneWayForEmpty(group, WAY);
    forall path | BestLink.IsRoute(GRAPH, QUERY, 1, group, {}, path)
      ensures BestLink.AtLeast(BestLink.Priorities(WAY), BestLink.Priorities(path))
    {
      OneWayForEmpty(group, path);
      BestLink.AtLeastReflexive(BestLink.Priorities(WAY));
    }
  }

  lemma {:induction false} Ordered()
    requires WellFormed(GRAPH)
    ensures Planning.RunsInOrder(GRAPH, Planning.Reversed(WAY), Data({}), Disc(EMPTY), GRAPH[1], true, [ERASE, RECORD])
  {
    hide Planning.Slots;
    var nodes := Planning.Reversed(WAY);
    assert nodes == WAY;
    assert [ERASE] + [RECORD] == [ERASE, RECORD];
    Planning.SlotsConcat([ERASE], [RECORD]);
    Planning.SlotsOne(ERASE);
    Planning.SlotsOne(RECORD);
    assert Planning.Slots([ERASE, RECORD]) == Planning.ChainSlots(GRAPH, nodes, 1, Disc(EMPTY), true);
    Planning.ChainInOrder(GRAPH, nodes, Data({}), Disc(EMPTY), 1, true, [ERASE, RECORD]);
  }

  lemma {:induction false} PlanExists(group: int)
    requires WellFormed(GRAPH)
    ensures Planning.Fulfils(GRAPH, RequestFor(group), [ERASE, RECORD], Planning.Plan(WAY, QUERY.flags, Disc(EMPTY)))
  {
    hide Planning.AsItIs, Planning.OnceBlanked, Planning.IsPlan, Planning.CarriesOut, Planning.RunsInOrder;
    Basics();
    Starts();
    NoWayForUsed(group);
    OnceBlanked(group);
    WayIsPlan(group);
    Carried();
    Ordered();
    var tasks := [ERASE, RECORD];
    assert FLAGS - {BlankBeforeWrite} == QUERY.flags;
    assert tasks[0].action == Planning.ActionErase && Planning.HasErase(tasks);
    assert Planning.LinkJobs(ERASE.jobs[..0]) == [] && Planning.LinkJobs(ERASE.jobs) == [];
  }

  lemma {:induction false} OneGroup()
    ensures Planning.Groups([ERASE, RECORD]) == [RECORD.jobs]
  {
    Planning.GroupsConcat([ERASE], [RECORD]);
    assert [ERASE] + [RECORD] == [ERASE, RECORD];
    Planning.GroupsOne(ERASE);
    Planning.GroupsOne(RECORD);
    Planning.LinkJobsAppend([], ERASE.jobs[0]);
    Planning.LinkJobsAppend([], RECORD.jobs[0]);
    hide Planning.Groups, Planning.LinkJobs;
    assert [] + [ERASE.jobs[0]] == ERASE.jobs && [] + [RECORD.jobs[0]] == RECORD.jobs;
  }

  lemma {:induction false} Carried()
    ensures Planning.CarriesOut(GRAPH, Planning.Reversed(WAY), Disc(EMPTY), true, [ERASE, RECORD])
  {
    hide Planning.Groups;
    var nodes, groups := Planning.Reversed(WAY), Planning.Groups([ERASE, RECORD]);
    assert nodes == WAY;
    OneGroup();
    assert groups[..0] == [] && Planning.Concat(groups) == RECORD.jobs;
    assert Planning.JobsOf(GRAPH, nodes, 1, Disc(EMPTY)) == RECORD.jobs;
  }

  // ----- the run -----

  const BURNER := Drive(1)

  const GO := Answer(BurnOk, NoError, false, Data({}))

  /** All goes well, except that the user answers the fourth question with merging, and cancels the eraser. */
  const SCRIPT: seq<Answer> := [GO, GO, GO, GO.(result := Retry), GO, GO, GO, GO, GO, GO.(result := Cancel)]

  function Surroundings(group: int): World {
    World(Some(BURNER), false, (d: nat) => USED, (d: nat) => CAN, GRAPH, RANK, group, (d: nat) => Some(BLANKER),
          (f: BurnFlags) => Reply(NotSupported, {}, {}), Image({Bin}))
  }

  const PLAIN := Settings({}, 0)

  /** Once k answers are used up. */
  function At(k: nat, flags: BurnFlags, pile: seq<Settings>, trace: seq<Event>): St
    requires k <= |SCRIPT|
  {
    St(None, None, Some(BURNER), {BURNER}, {}, {}, 0, Settings(flags, 0), pile, SCRIPT[k..], trace, 0)
  }

  lemma {:induction false} Ticks(k: nat, flags: BurnFlags, pile: seq<Settings>, trace: seq<Event>)
    requires k < |SCRIPT|
    ensures First(At(k, flags, pile, trace)) == SCRIPT[k]
            && Rest(At(k, flags, pile, trace)) == At(k + 1, flags, pile, trace)
  {
    assert SCRIPT[k..][1..] == SCRIPT[k + 1..];
  }

  lemma {:induction false} Consistent(group: int, k: nat, flags: BurnFlags, trace: seq<Event>)
    requires Fit(Surroundings(group)) && (k == 0 || k == 4) && (flags == {} || flags == {Merge})
    ensures CheckSessionConsistency(Surroundings(group), At(k, flags, [PLAIN], trace), None)
            == Out(At(k + 2, if flags == {} then {NoTmpFiles} else FLAGS, [PLAIN], trace), BurnOk)
  {
    hide CheckFlags, GRAPH, RANK;
    var w, s := Surroundings(group), At(k, flags, [PLAIN], trace);
    SessionChecks();
    Ticks(k, flags, [PLAIN], trace);
    assert SessionOf(w, s, None, Data({})) == SESSION;
    var corrected := if flags == {} then {NoTmpFiles} else FLAGS;
    Ticks(k + 1, corrected, [PLAIN], trace);
    assert {} + {NoTmpFiles} == {NoTmpFiles} && {Merge} + {NoTmpFiles, BlankBeforeWrite} == FLAGS;
    assert WithFlags(At(k + 1, flags, [PLAIN], trace), corrected) == At(k + 1, corrected, [PLAIN], trace);
  }

  const CHECK := Checked(0, USED, {NoTmpFiles})
  const MERGE := Asked(LosePrevious, Retry)
  const GONE := Erased(0, true, Cancel)

  /** The user is told that the disc is not empty, and wants to merge: from then on it is to be blanked. */
  lemma {:induction false} Merges(group: int)
    requires Fit(Surroundings(group))
    ensures WarnAboutContent(Surroundings(group), At(3, {NoTmpFiles}, [PLAIN], [CHECK]), USED, {NoTmpFiles}, Data({}))
            == Warned(At(6, FLAGS, [PLAIN], [CHECK, MERGE]), BurnOk, false)
  {
    hide CheckSessionConsistency;
    var w, asked := Surroundings(group), At(4, {NoTmpFiles}, [PLAIN], [CHECK, MERGE]);
    Ticks(3, {NoTmpFiles}, [PLAIN], [CHECK]);
    assert [CHECK] + [MERGE] == [CHECK, MERGE];
    assert Prompt(At(3, {NoTmpFiles}, [PLAIN], [CHECK]), LosePrevious) == Out(asked, Retry);
    Consistent(group, 4, {Merge}, [CHECK, MERGE]);
    assert {} + {Merge} == {Merge};
    assert MergeInstead(w, asked) == Out(At(6, FLAGS, [PLAIN], [CHECK, MERGE]), BurnOk);
    assert BlankBeforeWrite !in {NoTmpFiles} && Merge !in {NoTmpFiles} && MediumHasData in USED;
  }

  lemma {:induction false} LossChecked(group: int)
    requires Fit(Surroundings(group))
    ensures CheckDataLoss(Surroundings(group), At(2, {NoTmpFiles}, [PLAIN], []))
            == Out(At(6, FLAGS, [PLAIN], [CHECK, MERGE]), BurnOk)
  {
    hide WarnAboutContent;
    var w, before := Surroundings(group), At(2, {NoTmpFiles}, [PLAIN], [CHECK]);
    Merges(group);
    Ticks(2, {NoTmpFiles}, [PLAIN], [CHECK]);
    assert [] + [CHECK] == [CHECK];
    assert Logged(At(2, {NoTmpFiles}, [PLAIN], []), CHECK) == before;
    assert HasContent(USED);
  }

  lemma {:induction false} Erases(group: int)
    requires Fit(Surroundings(group))
    ensures EraseStep(Surroundings(group), At(7, FLAGS, [PLAIN], [CHECK, MERGE]).(planned := 1), None, true)
            == Turn(At(10, FLAGS, [PLAIN], [CHECK, MERGE, GONE]).(planned := 1, disc := 1), Cancel, true, true, false)
  {
    Ticks(7, FLAGS, [PLAIN], [CHECK, MERGE]);
    Ticks(8, FLAGS, [PLAIN], [CHECK, MERGE]);
    Ticks(9, FLAGS, [PLAIN], [CHECK, MERGE]);
    assert [CHECK, MERGE] + [GONE] == [CHECK, MERGE, GONE];
  }

  lemma {:induction false} Checks(group: int)
    requires Fit(Surroundings(group))
    ensures CheckBefore(Surroundings(group), At(0, {}, [PLAIN], []), None)
            == Out(At(6, FLAGS, [PLAIN], [CHECK, MERGE]), BurnOk)
  {
    hide CheckSessionConsistency, CheckDataLoss;
    Consistent(group, 0, {}, []);
    LossChecked(group);
  }

  lemma {:induction false} Requested(group: int)
    requires Fit(Surroundings(group))
    ensures RequestOf(Surroundings(group), At(6, FLAGS, [PLAIN], [CHECK, MERGE]), None, Data({})) == RequestFor(group)
  {
    hide CanBlank;
    BlanksUsed(FLAGS);
  }

  const ACTIONS := [Planning.ActionErase, Planning.ActionNormal]

  /** What new_task plans at that point: this, and nothing else. */
  lemma {:induction false} PlansToErase(group: int, actions: seq<Planning.TaskAction>)
    requires Fit(Surroundings(group))
    ensures var w, s := Surroundings(group), At(6, FLAGS, [PLAIN], [CHECK, MERGE]);
            LegalPlan(w, s, None, Data({}), actions) <==> actions == ACTIONS
  {
    hide Planning.Fulfils, RequestOf;
    var w, s := Surroundings(group), At(6, FLAGS, [PLAIN], [CHECK, MERGE]);
    Requested(group);
    PlanExists(group);
    assert Does([ERASE, RECORD], ACTIONS);
    if LegalPlan(w, s, None, Data({}), actions) {
      var tasks: seq<Planning.Task>, p :| Planning.Fulfils(GRAPH, RequestFor(group), tasks, p) && Does(tasks, actions);
      PlanIs(group, tasks, p);
      assert actions == [actions[0], actions[1]];
    }
  }

  /** The whole run over the tasks, from a locked burner and an empty pile of settings, with whatever new_task can
      plan: the disc holds data, nobody is asked about losing it, and it is erased; and since the eraser is cancelled,
      the settings stay on the pile. */
  lemma {:induction false} MergingErases(group: int, plan: Plans)
    requires Fit(Surroundings(group))
    requires LegalPlan(Surroundings(group), At(6, FLAGS, [PLAIN], [CHECK, MERGE]), None, Data({}), plan(0))
    ensures var w, s := Surroundings(group), At(0, {}, [], []);
            && BurnLaws.SafeTasks(w, s, None)
            && var d := RunTasks(w, s, true, None, plan);
               && d.quit && d.r == Cancel && d.s.pile == [PLAIN]
               && d.s.trace == [CHECK, MERGE, GONE] && HasContent(USED) && BurnLaws.Unasked(d.s.trace, 0, 2)
  {
    hide EraseStep, CheckBefore, LegalPlan;
    var w, s := Surroundings(group), At(6, FLAGS, [PLAIN], [CHECK, MERGE]);
    assert [PLAIN] + [] == [PLAIN];
    assert Push(At(0, {}, [], [])) == At(0, {}, [PLAIN], []);
    Checks(group);
    PlansToErase(group, plan(0));
    Ticks(6, FLAGS, [PLAIN], [CHECK, MERGE]);
    assert Planned(s) == At(7, FLAGS, [PLAIN], [CHECK, MERGE]).(planned := 1);
    Erases(group);
  }

  /** There is such a run. */
  lemma {:induction false} MergeRunExists(group: int)
    ensures Fit(Surroundings(group))
    ensures LegalPlan(Surroundings(group), At(6, FLAGS, [PLAIN], [CHECK, MERGE]), None, Data({}), ACTIONS)
  {
    Basics();
    PlansToErase(group, ACTIONS);
  }
}
