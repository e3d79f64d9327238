/** A session in which all goes well: the disc holds data, its owner agrees to lose that, it is erased, the burn is
    simulated, and then done for real without another question and without erasing again. */
module SimulatedRun {
  import opened Flags
  import opened Plugins
  import opened Caps
  import opened MediumFlags
  import opened Consistency
  import opened Drives
  import opened Protocol
  import opened SmallTables
  import BestLink
  import BurnLaws
  import FindLink
  import GetFlags
  import Planning = NewTask

  const USED: Media := {MediumCd, MediumRewritable, MediumAppendable, MediumHasData}
  const EMPTY: Media := {MediumCd, MediumRewritable, MediumBlank}

  /** Records on empty discs only, and can simulate that. */
  const RECORDER := Plugin(1, true, true, false, 0, 0, [MediaFlags(EMPTY, [FlagPair({Dummy}, {})])], [], {})

  const BLANKER := Plugin(2, true, true, false, 0, 0, [], [MediaFlags(USED, [FlagPair({}, {})])], {})

  const RECORDING := Link(Some(2), [RECORDER])

  const GRAPH: Graph := [Caps([Link(None, [BLANKER])], [], Disc(USED), {}),
                         Caps([RECORDING], [], Disc(EMPTY), {}),
                         Caps([], [], Data({}), {File})]

  const RANK: seq<nat> := [1, 1, 0]

  lemma {:induction false} Basics()
    ensures FindLink.Ranked(GRAPH, RANK) && NoActiveModifiers(GRAPH)
    ensures Planning.Blanked(USED) == EMPTY && !(EMPTY <= USED) && USED != EMPTY
    ensures StartFor(GRAPH, Disc(USED), 0) == 0 && StartFor(GRAPH, Disc(EMPTY), 0) == 1
  {
    assert MediumBlank in EMPTY && MediumBlank !in USED;
    assert EndsChain(GRAPH, 0, Disc(USED)) && !EndsChain(GRAPH, 0, Disc(EMPTY)) && EndsChain(GRAPH, 1, Disc(EMPTY));
  }

  // ----- what the plugins answer -----

  /** The flags that come up. */
  predicate ComesUp(flags: BurnFlags) {
    flags <= {Dummy, BlankBeforeWrite, NoTmpFiles}
  }

  lemma {:induction false} Masks(flags: BurnFlags)
    requires ComesUp(flags)
    ensures flags * IMAGE_FLAG_MASK == {} && flags * BLANK_FLAG_MASK == {} && flags * BURN_FLAG_MASK <= {Dummy}
    ensures {Dummy} * BURN_FLAG_MASK == {Dummy} && {Dummy} * IMAGE_FLAG_MASK == {}
  {
  }

  lemma {:induction false} Answers(flags: BurnFlags)
    requires ComesUp(flags)
    ensures GetRecordFlags(RECORDER, EMPTY, flags) == FlagAnswer(true, {Dummy}, {})
    ensures GetImageFlags(RECORDER, EMPTY, flags) == FlagAnswer(true, {}, {})
    ensures CheckRecordFlags(RECORDER, EMPTY, flags)
  {
    hide AllFlags;
    Masks(flags);
    assert PairsFor(RECORDER.flags, EMPTY) == [FlagPair({Dummy}, {})];
    OnePair(RECORDER.flags, false, EMPTY, BURN_FLAG_MASK, flags * BURN_FLAG_MASK, {Dummy});
    OnePair(RECORDER.flags, true, EMPTY, BURN_FLAG_MASK, flags * BURN_FLAG_MASK, {Dummy});
    OnePair(RECORDER.flags, false, EMPTY, IMAGE_FLAG_MASK, flags * IMAGE_FLAG_MASK, {Dummy});
  }

  function WalkFor(media: Media, flags: BurnFlags): GetFlags.Walk {
    GetFlags.Walk(true, flags, media, Data({}), {File, Pipe})
  }

  lemma {:induction false} Records(flags: BurnFlags)
    requires ComesUp(flags)
    ensures GetFlags.OfLink(GRAPH, WalkFor(EMPTY, flags), 1, RECORDING) == Some(GetFlags.LinkAnswer({Dummy}, {}))
  {
    hide GetRecordFlags, GetImageFlags, GetFlags.RecordAnswer, GetFlags.DataAnswer;
    Answers(flags);
    Masks(flags);
    OnePlugin(RECORDER, WalkFor(EMPTY, flags));
    assert FLAG_ALL * {} == {} && {} + {Dummy} == {Dummy};
    assert LinkIsActive(RECORDING, true);
  }

  lemma {:induction false} WalksEmpty(flags: BurnFlags)
    requires FindLink.Ranked(GRAPH, RANK) && ComesUp(flags)
    ensures GetFlags.DiscWalk(GRAPH, RANK, WalkFor(EMPTY, flags), 1) == GetFlags.Acc({Pipe}, {Dummy}, {})
  {
    hide GetFlags.OfLink;
    var w, start := WalkFor(EMPTY, flags), GetFlags.Acc({}, {}, FLAG_ALL);
    Records(flags);
    assert GetFlags.Fits(GRAPH, w, 2) && GRAPH[1].links[0] == RECORDING;
    assert GetFlags.Visit(GRAPH, RANK, w, 1, 0, start) == start;
    assert FLAG_ALL * {} == {};
  }

  lemma {:induction false} WalksUsed(flags: BurnFlags)
    requires FindLink.Ranked(GRAPH, RANK)
    ensures GetFlags.DiscWalk(GRAPH, RANK, WalkFor(USED, flags), 0).io == {}
  {
    var w, start := WalkFor(USED, flags), GetFlags.Acc({}, {}, FLAG_ALL);
    assert GetFlags.OfLink(GRAPH, w, 0, GRAPH[0].links[0]).None?;
    assert GetFlags.Visit(GRAPH, RANK, w, 0, 0, start) == start;
  }

  /** The used disc cannot be recorded on, the empty one can. */
  lemma {:induction false} DiscFlags(flags: BurnFlags)
    requires FindLink.Ranked(GRAPH, RANK) && ComesUp(flags)
    ensures FlagsForDisc(GRAPH, RANK, true, flags, USED, Data({})).None?
    ensures FlagsForDisc(GRAPH, RANK, true, flags, EMPTY, Data({})) ==
              Some(GetFlags.LinkAnswer({Dummy, NoTmpFiles}, {NoTmpFiles}))
  {
    hide GetFlags.DiscWalk;
    Basics();
    WalksUsed(flags);
    WalksEmpty(flags);
    var none: BurnFlags := {};
    assert none + {NoTmpFiles} == {NoTmpFiles} && {Dummy} + {NoTmpFiles} == {Dummy, NoTmpFiles};
    assert Dao !in none && Pipe in {Pipe} && File !in {Pipe};
  }

  lemma {:induction false} BlanksUsed(flags: BurnFlags)
    requires ComesUp(flags)
    ensures CanBlank(GRAPH, true, USED, flags)
  {
    hide AllFlags;
    Masks(flags);
    assert PairsFor(BLANKER.blankFlags, USED) == [FlagPair({}, {})];
    OnePair(BLANKER.blankFlags, true, USED, BLANK_FLAG_MASK, flags * BLANK_FLAG_MASK, {});
    var link := GRAPH[0].links[0];
    assert CheckBlankFlags(BLANKER, USED, flags);
    assert (p => CheckBlankFlags(p, USED, flags))(BLANKER);
    assert BLANKER in link.plugins && GetActive(BLANKER, true);
    assert FindLink.SomePlugin(link, true, p => CheckBlankFlags(p, USED, flags));
    assert BlanksBy(link, true, USED, flags);
    assert BlankingCaps(GRAPH[0], USED) && MediumDvd !in USED && MediumCd in USED;
  }

  /** The empty disc cannot be blanked. */
  lemma {:induction false} NoneBlanksEmpty(flags: BurnFlags)
    ensures !CanBlank(GRAPH, true, EMPTY, flags) && BlankingFlags(GRAPH, true, EMPTY, flags).None?
  {
    Basics();
    forall c: nat, l | c < |GRAPH| && l in GRAPH[c].links && BlankingCaps(GRAPH[c], EMPTY) ensures l.target.Some? {
      assert c == 1;
      assert GRAPH[1].links == [RECORDING];
    }
  }

  // ----- what the engine answers -----

  const CAN := Ability(false, true, true, true, false)

  const BASE := GetFlags.LinkAnswer({CheckSize, NoGrace, Eject}, {})

  function SessionFor(media: Media): Session {
    Session(GRAPH, RANK, false, Data({}), None, media, CAN)
  }

  /** With the used disc, blanking it is supported and compulsory; with the empty one it is not even supported. */
  lemma {:induction false} UsedAnswers(flags: BurnFlags)
    requires FindLink.Ranked(GRAPH, RANK) && flags <= {Dummy, BlankBeforeWrite}
    ensures Asking(SessionFor(USED))(flags)
            == Reply(BurnOk, {CheckSize, NoGrace, Eject, Dummy, NoTmpFiles, BlankBeforeWrite},
                     {NoTmpFiles, BlankBeforeWrite})
  {
    hide FlagsForDisc, CanBlank, BlankingFlags;
    Basics();
    DiscFlags(flags);
    BlanksUsed(flags);
    NoneBlanksEmpty(flags);
    var second := GetFlags.LinkAnswer({Dummy, NoTmpFiles}, {NoTmpFiles});
    var a := BlankedToo(BASE, second, true, None);
    assert a == GetFlags.LinkAnswer({CheckSize, NoGrace, Eject, Dummy, NoTmpFiles, BlankBeforeWrite},
                                    {NoTmpFiles, BlankBeforeWrite});
    var none: BurnFlags := {};
    assert MediumDvd !in EMPTY && a.supported - none == a.supported && a.compulsory - none == a.compulsory;
    assert a.supported - {Merge, Append} == a.supported && a.compulsory - {Merge, Append} == a.compulsory;
    var r := Reply(BurnOk, a.supported, a.compulsory);
    assert ForMedium(GRAPH, RANK, true, USED, flags, Data({}), BASE) == Finished(EMPTY, flags, a) == r;
    assert MediumPlus !in USED && MediumDvd !in USED && Dao !in r.supported;
    assert r.supported - {BurnProof} == r.supported;
    assert ForDrive(USED, CAN, r) == r && DriveTakes(USED, CAN, flags);
  }

  lemma {:induction false} EmptyAnswers(flags: BurnFlags)
    requires FindLink.Ranked(GRAPH, RANK) && flags <= {Dummy}
    ensures Asking(SessionFor(EMPTY))(flags)
            == Reply(BurnOk, {CheckSize, NoGrace, Eject, Dummy, NoTmpFiles}, {NoTmpFiles})
  {
    hide FlagsForDisc, CanBlank, BlankingFlags;
    Basics();
    DiscFlags(flags);
    NoneBlanksEmpty(flags);
    var a := Plus(BASE, GetFlags.LinkAnswer({Dummy, NoTmpFiles}, {NoTmpFiles}));
    assert a == GetFlags.LinkAnswer({CheckSize, NoGrace, Eject, Dummy, NoTmpFiles}, {NoTmpFiles});
    var none: BurnFlags := {};
    assert MediumDvd !in EMPTY && a.supported - none == a.supported && a.compulsory - none == a.compulsory;
    var r := Reply(BurnOk, a.supported, a.compulsory);
    assert BlankBeforeWrite !in flags;
    assert ForMedium(GRAPH, RANK, true, EMPTY, flags, Data({}), BASE) == Finished(EMPTY, flags, a) == r;
    assert MediumPlus !in EMPTY && MediumDvd !in EMPTY && Dao !in r.supported;
    assert r.supported - {BurnProof} == r.supported;
    assert ForDrive(EMPTY, CAN, r) == r && DriveTakes(EMPTY, CAN, flags);
  }

  const WISH: BurnFlags := {Dummy, BlankBeforeWrite}

  lemma {:induction false} WishesAsked()
    ensures CHECKED[8] == Dummy && CHECKED[10] == BlankBeforeWrite
    ensures forall k :: 0 <= k < |CHECKED| && k != 8 && k != 10 ==> CHECKED[k] !in WISH
    ensures forall k :: 0 <= k < |CHECKED| && k != 10 ==> CHECKED[k] !in {BlankBeforeWrite}
  {
    forall k | 0 <= k < |CHECKED| ensures (k != 8 ==> CHECKED[k] != Dummy)
      && (k != 10 ==> CHECKED[k] != BlankBeforeWrite) {
      AllAreChecked(Dummy);
    }
  }

  /** The used disc is to be blanked; once that is done, nothing is left of that. */
  lemma {:induction false} SessionChecks()
    requires FindLink.Ranked(GRAPH, RANK)
    ensures CheckFlags(Asking(SessionFor(USED)), WISH) == Corrected(WISH, {NoTmpFiles, BlankBeforeWrite})
    ensures CheckFlags(Asking(SessionFor(EMPTY)), WISH) == Corrected({Dummy}, {NoTmpFiles})
    ensures CheckFlags(Asking(SessionFor(EMPTY)), {BlankBeforeWrite}) == Corrected({}, {NoTmpFiles})
  {
    UsedChecks();
    EmptyChecks();
    RealChecks();
  }

  lemma {:induction false} UsedChecks()
    requires FindLink.Ranked(GRAPH, RANK)
    ensures CheckFlags(Asking(SessionFor(USED)), WISH) == Corrected(WISH, {NoTmpFiles, BlankBeforeWrite})
  {
    hide AskFlags;
    var ask := Asking(SessionFor(USED));
    UsedAnswers({});
    UsedAnswers({Dummy});
    UsedAnswers(WISH);
    WishesAsked();
    var a := ask({});
    assert {} + {Dummy} == {Dummy} && {Dummy} + {BlankBeforeWrite} == WISH;
    NotAskedBefore(ask, WISH, 0, 8, {}, a.supported, a.compulsory);
    NotAskedBefore(ask, WISH, 9, 10, {Dummy}, a.supported, a.compulsory);
    NothingAsked(ask, WISH, 11, WISH, a.supported, a.compulsory);
  }

  lemma {:induction false} EmptyChecks()
    requires FindLink.Ranked(GRAPH, RANK)
    ensures CheckFlags(Asking(SessionFor(EMPTY)), WISH) == Corrected({Dummy}, {NoTmpFiles})
  {
    hide AskFlags;
    var ask := Asking(SessionFor(EMPTY));
    EmptyAnswers({});
    EmptyAnswers({Dummy});
    WishesAsked();
    var a := ask({});
    assert {} + {Dummy} == {Dummy};
    NotAskedBefore(ask, WISH, 0, 8, {}, a.supported, a.compulsory);
    NotAskedBefore(ask, WISH, 9, 10, {Dummy}, a.supported, a.compulsory);
    NothingAsked(ask, WISH, 11, {Dummy}, a.supported, a.compulsory);
  }

  lemma {:induction false} RealChecks()
    requires FindLink.Ranked(GRAPH, RANK)
    ensures CheckFlags(Asking(SessionFor(EMPTY)), {BlankBeforeWrite}) == Corrected({}, {NoTmpFiles})
  {
    hide AskFlags;
    var ask := Asking(SessionFor(EMPTY));
    EmptyAnswers({});
    WishesAsked();
    var a := ask({});
    NotAskedBefore(ask, {BlankBeforeWrite}, 0, 10, {}, a.supported, a.compulsory);
    NothingAsked(ask, {BlankBeforeWrite}, 11, {}, a.supported, a.compulsory);
  }

  // ----- the plans -----

  const ERASE := Planning.Task(Planning.ActionErase, [Planning.Job(BLANKER, NoTrack, Planning.EraserJob)])

  const RECORD := Planning.Task(Planning.ActionNormal, [Planning.Job(RECORDER, Disc(EMPTY), Planning.LinkJob)])

  const SIMULATING_FLAGS: BurnFlags := {Dummy, NoTmpFiles, BlankBeforeWrite}

  const WAY: seq<BestLink.Node> := [BestLink.Node(RECORDING, RECORDER)]

  function FirstRequest(group: int): Planning.Request {
    Planning.Request(group, SIMULATING_FLAGS, Data({}), Disc(USED), true, true, Some(BLANKER))
  }

  function SecondRequest(group: int): Planning.Request {
    Planning.Request(group, {NoTmpFiles}, Data({}), Disc(EMPTY), true, false, Some(BLANKER))
  }

  function QueryWith(flags: BurnFlags): BestLink.Query {
    Planning.QueryFor(flags, Data({}), Disc(EMPTY))
  }

  lemma {:induction false} PicksRecorder(group: int, flags: BurnFlags)
    requires WellFormed(GRAPH) && flags <= {Dummy, NoTmpFiles}
    ensures BestLink.Pick(GRAPH, QueryWith(flags), 1, group, RECORDING) == Some(RECORDER)
  {
    hide AllFlags;
    Answers(flags);
    Masks(flags);
    assert BestLink.Eligible(GRAPH, QueryWith(flags), 1, RECORDING, RECORDER);
    BestLink.PickIsBest(GRAPH, QueryWith(flags), 1, group, RECORDING, RECORDING.plugins);
  }

  lemma {:induction false} DeadEnd(group: int, flags: BurnFlags, used: set<nat>, path: seq<BestLink.Node>)
    requires WellFormed(GRAPH)
    ensures !BestLink.IsRoute(GRAPH, QueryWith(flags), 2, group, used, path)
  {
  }

  /** The empty disc can be had, in one way only. */
  lemma {:induction false} OneWay(group: int, flags: BurnFlags, path: seq<BestLink.Node>)
    requires WellFormed(GRAPH) && flags <= {Dummy, NoTmpFiles}
    ensures BestLink.IsRoute(GRAPH, QueryWith(flags), 1, group, {}, path) <==> path == WAY
  {
    hide BestLink.Pick;
    var q := QueryWith(flags);
    PicksRecorder(group, flags);
    assert BestLink.Fits(GRAPH, q, 2) && BestLink.Followable(GRAPH, q, 1, {}, RECORDING);
    assert GRAPH[1].links == [RECORDING];
    if BestLink.IsRoute(GRAPH, q, 1, group, {}, path) {
      assert path[0].link in [RECORDING];
      assert path[0] == WAY[0];
      if |path| > 1 {
        DeadEnd(BestLink.NextGroup(group, RECORDER), flags, {} + {1}, path[1..]);
      }
      assert path == [path[0]];
    }
  }

  lemma {:induction false} NoWayForUsed(group: int)
    requires WellFormed(GRAPH)
    ensures !Planning.AsItIs(GRAPH, FirstRequest(group))
  {
    Basics();
    var q := Planning.QueryFor(SIMULATING_FLAGS, Data({}), Disc(USED));
    assert GRAPH[0].links == [Link(None, [BLANKER])];
    assert forall path :: !BestLink.IsRoute(GRAPH, q, 0, group, {}, path);
  }

  lemma {:induction false} WayIsPlan(group: int, flags: BurnFlags)
    requires WellFormed(GRAPH) && flags <= {Dummy, NoTmpFiles}
    ensures Planning.Feasible(GRAPH, group, flags, Data({}), Disc(EMPTY))
    ensures Planning.IsPlan(GRAPH, group, Data({}), Planning.Plan(WAY, flags, Disc(EMPTY)))
  {
    Basics();
    OneWay(group, flags, WAY);
    forall path | BestLink.IsRoute(GRAPH, QueryWith(flags), 1, group, {}, path)
      ensures BestLink.AtLeast(BestLink.Priorities(WAY), BestLink.Priorities(path))
    {
      OneWay(group, flags, path);
      BestLink.AtLeastReflexive(BestLink.Priorities(WAY));
    }
  }

  /** The disc is erased, and then recorded. */
  lemma {:induction false} FirstPlanIs(group: int, tasks: seq<Planning.Task>, p: Planning.Plan)
    requires WellFormed(GRAPH) && Planning.Fulfils(GRAPH, FirstRequest(group), tasks, p)
    ensures |tasks| == 2 && tasks[0].action == Planning.ActionErase && tasks[1].action == Planning.ActionNormal
  {
    hide Planning.RunsInOrder, Planning.IsOrder;
    Basics();
    NoWayForUsed(group);
    WayIsPlan(group, {Dummy, NoTmpFiles});
    assert SIMULATING_FLAGS - {BlankBeforeWrite} == {Dummy, NoTmpFiles};
    assert Planning.OnceBlanked(GRAPH, FirstRequest(group));
    assert tasks != [] && Planning.HasErase(tasks);
    OneWay(group, {Dummy, NoTmpFiles}, p.path);
    Planning.TaskCount(GRAPH, Planning.Reversed(p.path), p.output, true, tasks);
  }

  /** The empty disc is just recorded. */
  lemma {:induction false} SecondPlanIs(group: int, tasks: seq<Planning.Task>, p: Planning.Plan)
    requires WellFormed(GRAPH) && Planning.Fulfils(GRAPH, SecondRequest(group), tasks, p)
    ensures |tasks| == 1 && tasks[0].action == Planning.ActionNormal
  {
    hide Planning.RunsInOrder, Planning.IsOrder;
    Basics();
    WayIsPlan(group, {NoTmpFiles});
    assert Planning.AsItIs(GRAPH, SecondRequest(group));
    assert tasks != [] && !Planning.HasErase(tasks);
    OneWay(group, {NoTmpFiles}, p.path);
    Planning.TaskCount(GRAPH, Planning.Reversed(p.path), p.output, true, tasks);
  }

  lemma {:induction false} Carried(tasks: seq<Planning.Task>)
    requires WellFormed(GRAPH) && (tasks == [ERASE, RECORD] || tasks == [RECORD])
    ensures Planning.CarriesOut(GRAPH, Planning.Reversed(WAY), Disc(EMPTY), true, tasks)
  {
    var nodes := Planning.Reversed(WAY);
    assert nodes == WAY;
    OneGroup(tasks);
    var groups := Planning.Groups(tasks);
    FirstGroup();
    hide Planning.Groups, Planning.Slots, Planning.Concat;
    assert groups[..0] == [];
    assert Planning.JobsOf(GRAPH, nodes, 1, Disc(EMPTY)) == RECORD.jobs;
    assert Planning.PlacedBySharing(GRAPH, nodes, true, groups, 0, 0);
  }

  lemma {:induction false} FirstGroup()
    ensures Planning.Concat([]) == [] && Planning.Concat([RECORD.jobs]) == RECORD.jobs
  {
    assert [RECORD.jobs][..0] == [];
  }

  lemma {:induction false} Ordered(tasks: seq<Planning.Task>)
    requires WellFormed(GRAPH) && (tasks == [ERASE, RECORD] || tasks == [RECORD])
    ensures Planning.RunsInOrder(GRAPH, Planning.Reversed(WAY), Data({}), Disc(EMPTY), GRAPH[1], true, tasks)
  {
    hide Planning.Groups, Planning.Slots, Planning.RunsInOrder;
    var nodes := Planning.Reversed(WAY);
    assert nodes == WAY;
    OneGroup(tasks);
    Basics();
    assert Planning.Slots(tasks) == Planning.ChainSlots(GRAPH, nodes, 1, Disc(EMPTY), true);
    Planning.ChainInOrder(GRAPH, nodes, Data({}), Disc(EMPTY), 1, true, tasks);
  }

  lemma {:induction false} OneGroup(tasks: seq<Planning.Task>)
    requires tasks == [ERASE, RECORD] || tasks == [RECORD]
    ensures Planning.Groups(tasks) == [RECORD.jobs] && Planning.Slots(tasks) == Planning.SlotsOf(RECORD.jobs)
  {
    Planning.GroupsConcat([ERASE], [RECORD]);
    Planning.SlotsConcat([ERASE], [RECORD]);
    assert [ERASE] + [RECORD] == [ERASE, RECORD];
    Planning.GroupsOne(ERASE);
    Planning.GroupsOne(RECORD);
    Planning.SlotsOne(ERASE);
    Planning.SlotsOne(RECORD);
    Planning.LinkJobsAppend([], ERASE.jobs[0]);
    Planning.LinkJobsAppend([], RECORD.jobs[0]);
    hide Planning.Groups, Planning.LinkJobs, Planning.Slots;
    assert [] + [ERASE.jobs[0]] == ERASE.jobs && [] + [RECORD.jobs[0]] == RECORD.jobs;
  }

  lemma {:induction false} PlansExist(group: int)
    requires WellFormed(GRAPH)
    ensures Planning.Fulfils(GRAPH, FirstRequest(group), [ERASE, RECORD],
                             Planning.Plan(WAY, {Dummy, NoTmpFiles}, Disc(EMPTY)))
    ensures Planning.Fulfils(GRAPH, SecondRequest(group), [RECORD], Planning.Plan(WAY, {NoTmpFiles}, Disc(EMPTY)))
  {
    hide Planning.Feasible, Planning.IsPlan, Planning.CarriesOut, Planning.RunsInOrder;
    Basics();
    NoWayForUsed(group);
    WayIsPlan(group, {Dummy, NoTmpFiles});
    WayIsPlan(group, {NoTmpFiles});
    Carried([ERASE, RECORD]);
    Carried([RECORD]);
    Ordered([ERASE, RECORD]);
    Ordered([RECORD]);
    var tasks := [ERASE, RECORD];
    assert SIMULATING_FLAGS - {BlankBeforeWrite} == {Dummy, NoTmpFiles};
    assert Planning.OnceBlanked(GRAPH, FirstRequest(group)) && Planning.AsItIs(GRAPH, SecondRequest(group));
    assert tasks[0].action == Planning.ActionErase && Planning.HasErase(tasks) && !Planning.HasErase([RECORD]);
    assert Planning.LinkJobs(ERASE.jobs[..0]) == [] && Planning.LinkJobs(ERASE.jobs) == [];
  }

  // ----- the run -----

  const BURNER := Drive(1)

  const GO := Answer(BurnOk, NoError, false, Data({}))

  /** All goes well n times. */
  function Gos(n: nat): (r: seq<Answer>)
    ensures |r| == n
  {
    if n == 0 then [] else [GO] + Gos(n - 1)
  }

  function Surroundings(group: int): World {
    World(Some(BURNER), false, (d: nat) => if d == 0 then USED else EMPTY, (d: nat) => CAN, GRAPH, RANK, group,
          (d: nat) => Some(BLANKER), (f: BurnFlags) => Reply(NotSupported, {}, {}), Image({Bin}))
  }

  /** The state with n answers left. */
  function Left(s: St, n: nat): (t: St)
    ensures t == s.(script := t.script) && |t.script| == n
  {
    s.(script := Gos(n))
  }

  lemma {:induction false} Ticks(s: St, n: nat)
    requires n > 0
    ensures First(Left(s, n)) == GO && Rest(Left(s, n)) == Left(s, n - 1)
  {
    assert Gos(n)[1..] == Gos(n - 1);
  }

  const START := St(None, None, Some(BURNER), {BURNER}, {}, {}, 0, Settings(WISH, 0), [], [], [], 0)

  lemma {:induction false} Consistent(group: int, s: St, n: nat, wanted: BurnFlags)
    requires Fit(Surroundings(group)) && n >= 2 && s.srcDrive.None?
    requires s.settings.flags == (if s.disc == 0 then WISH else wanted)
    requires s.disc == 0 || wanted == WISH || wanted == {BlankBeforeWrite}
    ensures CheckSessionConsistency(Surroundings(group), Left(s, n), None)
            == Out(Left(WithFlags(s, if s.disc == 0 then SIMULATING_FLAGS
                                     else if wanted == WISH then {Dummy, NoTmpFiles} else {NoTmpFiles}), n - 2), BurnOk)
  {
    hide CheckFlags;
    SessionChecks();
    Ticks(s, n);
    Ticks(s, n - 1);
    var w := Surroundings(group);
    assert SessionOf(w, Left(s, n), None, Data({})) == SessionFor(w.media(s.disc));
    assert WISH + {NoTmpFiles, BlankBeforeWrite} == SIMULATING_FLAGS;
    assert {Dummy} + {NoTmpFiles} == {Dummy, NoTmpFiles} && {} + {NoTmpFiles} == {NoTmpFiles};
  }

  /** Without content on the disc nothing is asked. */
  lemma {:induction false} NothingToLose(group: int, s: St, n: nat)
    requires Fit(Surroundings(group)) && n >= 1 && s.pile != [] && s.disc > 0
    ensures CheckDataLoss(Surroundings(group), Left(s, n))
            == Out(Left(Logged(s, Checked(s.disc, EMPTY, s.settings.flags)), n - 1), BurnOk)
  {
    var s1 := Logged(s, Checked(s.disc, EMPTY, s.settings.flags));
    Ticks(s1, n);
    hide First, Rest, Gos;
    assert Logged(Left(s, n), Checked(s.disc, EMPTY, s.settings.flags)) == Left(s1, n);
    assert !HasContent(EMPTY) && !OnlyAudio(Data({}));
    assert WarnAboutLoss(Surroundings(group), Left(s1, n), EMPTY, s.settings.flags)
           == Warned(Left(s1, n - 1), BurnOk, false);
  }

  const AGREED := Asked(LoseData, BurnOk)

  /** The owner agrees to lose what is on the disc. */
  lemma {:induction false} Agrees(group: int, s: St, n: nat)
    requires Fit(Surroundings(group)) && n >= 2 && s.pile != [] && s.disc == 0 && BlankBeforeWrite in s.settings.flags
    ensures CheckDataLoss(Surroundings(group), Left(s, n))
            == Out(Left(Logged(Logged(s, Checked(0, USED, s.settings.flags)), AGREED), n - 2), BurnOk)
  {
    var s1 := Logged(s, Checked(0, USED, s.settings.flags));
    var w, s2 := Surroundings(group), Logged(s1, AGREED);
    Ticks(s1, n);
    Ticks(s1, n - 1);
    hide First, Rest, Gos;
    assert Logged(Left(s, n), Checked(0, USED, s.settings.flags)) == Left(s1, n);
    assert HasContent(USED) && !OnlyAudio(Data({}));
    assert Prompt(Left(s1, n - 1), LoseData) == Out(Left(s2, n - 2), BurnOk);
    assert WarnAboutLoss(w, Left(s1, n), USED, s.settings.flags) == Warned(Left(s2, n - 2), BurnOk, false);
  }

  lemma {:induction false} Idle(s: St, n: nat)
    requires n > 0
    ensures Unmount(Left(s, n), 0) == Out(Left(s, n - 1), BurnOk)
    ensures WaitWhileBusy(Left(s, n)) == Out(Left(s, n - 1), BurnOk)
  {
    Ticks(s, n);
  }

  lemma {:induction false} Images(w: World, s: St, n: nat)
    requires n >= 2
    ensures RunImager(w, Left(s, n)) == Out(Left(s, n - 2), BurnOk)
  {
    Idle(s, n);
    Ticks(s, n - 1);
    hide First, Rest, Unmount, Gos;
  }

  /** The recorder runs; without temporary files the source is unmounted as well. */
  lemma {:induction false} RecorderRuns(w: World, s: St, n: nat)
    requires n >= 4 && NoTmpFiles in s.settings.flags
    ensures RunRecorder(w, Left(s, n), None) == Out(Left(Logged(s, Recording(w, s, None)), n - 4), BurnOk)
  {
    var s1 := Logged(s, Recording(w, s, None));
    Idle(s, n);
    Idle(s, n - 1);
    Idle(s, n - 2);
    Ticks(s, n - 3);
    hide First, Rest, Unmount, WaitWhileBusy, Gos;
    assert FreeDrives(Left(s, n)) == Out(Left(s, n - 3), BurnOk);
    assert Recording(w, Left(s, n), None) == Recording(w, s, None);
    assert Logged(Rest(Left(s, n - 3)), Recording(w, s, None)) == Left(s1, n - 4);
  }

  const ERASED := Erased(0, true, BurnOk)

  /** The disc is erased, and then the flags the session came with are checked again, for the empty disc. */
  lemma {:induction false} Erases(group: int, s: St, n: nat)
    requires Fit(Surroundings(group)) && n >= 6 && s.disc == 0 && s.srcDrive.None? && s.locked == {BURNER}
    requires s.pile == [Settings(WISH, 0)]
    ensures EraseStep(Surroundings(group), Left(s, n), None, true)
            == Turn(Left(Logged(s, ERASED).(disc := 1, settings := Settings({Dummy, NoTmpFiles}, 0)), n - 6), BurnOk,
                    false, false, false)
  {
    var w, s1 := Surroundings(group), Logged(s.(disc := 1), ERASED);
    Ticks(s, n);
    Idle(s, n - 1);
    Ticks(s, n - 2);
    Idle(s.(disc := 1), n - 3);
    Consistent(group, Push(Pop(s1)), n - 4, WISH);
    hide First, Rest, Unmount, WaitWhileBusy, Gos, CheckSessionConsistency;
    assert RunEraser(Left(s, n - 1)) == Out(Left(s.(disc := 1), n - 4), BurnOk);
    assert Logged(Left(s.(disc := 1), n - 4), ERASED) == Left(s1, n - 4);
    assert Push(Pop(Left(s1, n - 4))) == Left(Push(Pop(s1)), n - 4);
    assert Push(Pop(s1)).settings.flags == WISH && [Settings(WISH, 0)][1..] == [];
  }

  /** The task that records: first to learn the size, then for real. */
  lemma {:induction false} RecordsTask(w: World, s: St, n: nat, actions: seq<Planning.TaskAction>, i: nat,
                                       allowed: bool)
    requires Fit(w) && !w.isDestFile && n >= 6 && NoTmpFiles in s.settings.flags && s.pile != []
    requires i + 1 == |actions| && actions[i] == Planning.ActionNormal
    ensures RunOne(w, Left(s, n), actions, i, None, allowed)
            == Turn(Left(Logged(s, Recording(w, s, None)), n - 6), BurnOk, true, false, Dummy in s.settings.flags)
  {
    hide RunImager, RunRecorder, Gos, Recording, Logged, LastTask;
    Images(w, s, n);
    RecordsLast(w, s, n - 2);
  }

  lemma {:induction false} RecordsLast(w: World, s: St, n: nat)
    requires Fit(w) && !w.isDestFile && n >= 4 && NoTmpFiles in s.settings.flags
    ensures LastTask(w, Left(s, n), None)
            == Turn(Left(Logged(s, Recording(w, s, None)), n - 4), BurnOk, true, false, Dummy in s.settings.flags)
  {
    hide RunImager, RunRecorder, Gos, Recording, Logged;
    RecorderRuns(w, s, n);
  }

  // ----- the simulation -----

  const CHECK := Checked(0, USED, SIMULATING_FLAGS)
  const SIMULATED := Burnt(1, true, true)
  const AGAIN := Checked(1, EMPTY, {NoTmpFiles})
  const RECORDED := Burnt(1, true, false)

  const PILE: seq<Settings> := [Settings(WISH, 0)]

  /** Checked and agreed; planned; simulated. */
  const READY := START.(settings := Settings(SIMULATING_FLAGS, 0), pile := PILE, trace := [CHECK, AGREED])
  const BLANKED := READY.(disc := 1, settings := Settings({Dummy, NoTmpFiles}, 0), planned := 1,
                          trace := [CHECK, AGREED, ERASED])
  const TRIED := START.(disc := 1, planned := 1, trace := [CHECK, AGREED, ERASED, SIMULATED])

  lemma {:induction false} ChecksFirst(group: int)
    requires Fit(Surroundings(group))
    ensures CheckBefore(Surroundings(group), Left(START.(pile := PILE), 29), None) == Out(Left(READY, 25), BurnOk)
  {
    var w, s := Surroundings(group), START.(pile := PILE);
    Consistent(group, s, 29, WISH);
    Agrees(group, WithFlags(s, SIMULATING_FLAGS), 27);
    hide CheckSessionConsistency, CheckDataLoss, Gos;
    assert [] + [CHECK] == [CHECK] && [CHECK] + [AGREED] == [CHECK, AGREED];
    assert Logged(Logged(WithFlags(s, SIMULATING_FLAGS), CHECK), AGREED) == READY;
  }

  const FIRST_ACTIONS := [Planning.ActionErase, Planning.ActionNormal]
  const SECOND_ACTIONS := [Planning.ActionNormal]

  /** What new_task plans first: this, and nothing else. */
  lemma {:induction false} PlansFirst(group: int, actions: seq<Planning.TaskAction>)
    requires Fit(Surroundings(group))
    ensures LegalPlan(Surroundings(group), Left(READY, 25), None, Data({}), actions) <==> actions == FIRST_ACTIONS
  {
    hide Planning.Fulfils, RequestOf;
    RequestedFirst(group);
    PlansExist(group);
    assert Does([ERASE, RECORD], FIRST_ACTIONS);
    if LegalPlan(Surroundings(group), Left(READY, 25), None, Data({}), actions) {
      var tasks: seq<Planning.Task>, p :|
        Planning.Fulfils(GRAPH, FirstRequest(group), tasks, p) && Does(tasks, actions);
      FirstPlanIs(group, tasks, p);
      assert actions == [actions[0], actions[1]];
    }
  }

  lemma {:induction false} RequestedFirst(group: int)
    requires Fit(Surroundings(group))
    ensures RequestOf(Surroundings(group), Left(READY, 25), None, Data({})) == FirstRequest(group)
  {
    hide CanBlank, Gos;
    BlanksUsed(SIMULATING_FLAGS);
    assert MediumPlus !in USED && MediumDvd !in USED;
  }

  lemma {:induction false} TasksSimulate(group: int)
    requires Fit(Surroundings(group))
    ensures RunAll(Surroundings(group), Left(READY.(planned := 1), 24), FIRST_ACTIONS, 0, None, true)
            == Done(Left(BLANKED.(trace := TRIED.trace), 12), BurnOk, true, false)
  {
    hide RunOne, Gos;
    BlanksFirst(group);
    ThenSimulates(group);
    assert RunAll(Surroundings(group), Left(BLANKED, 18), FIRST_ACTIONS, 1, None, true)
           == Done(Left(BLANKED.(trace := TRIED.trace), 12), BurnOk, true, false);
  }

  lemma {:induction false} BlanksFirst(group: int)
    requires Fit(Surroundings(group))
    ensures RunOne(Surroundings(group), Left(READY.(planned := 1), 24), FIRST_ACTIONS, 0, None, true)
            == Turn(Left(BLANKED, 18), BurnOk, false, false, false)
  {
    hide EraseStep, Gos;
    var s := READY.(planned := 1);
    Erases(group, s, 24);
    assert [CHECK, AGREED] + [ERASED] == [CHECK, AGREED, ERASED];
    assert Logged(s, ERASED).(disc := 1, settings := Settings({Dummy, NoTmpFiles}, 0)) == BLANKED;
  }

  lemma {:induction false} ThenSimulates(group: int)
    requires Fit(Surroundings(group))
    ensures RunOne(Surroundings(group), Left(BLANKED, 18), FIRST_ACTIONS, 1, None, true)
            == Turn(Left(BLANKED.(trace := TRIED.trace), 12), BurnOk, true, false, true)
  {
    hide RunOne, Gos;
    RecordsTask(Surroundings(group), BLANKED, 18, FIRST_ACTIONS, 1, true);
    assert [CHECK, AGREED, ERASED] + [SIMULATED] == TRIED.trace;
  }

  lemma {:induction false} Simulates(group: int, plan: Plans)
    requires Fit(Surroundings(group)) && plan(0) == FIRST_ACTIONS
    ensures RunTasksPatiently(Surroundings(group), Left(START, 29), true, None, plan)
            == Done(Left(TRIED, 12), BurnOk, true, false)
  {
    hide CheckBefore, LegalPlan, RunAll, Gos;
    var w := Surroundings(group);
    assert [Settings(WISH, 0)] + [] == PILE && Push(Left(START, 29)) == Left(START.(pile := PILE), 29);
    ChecksFirst(group);
    Ticks(READY, 25);
    PlansFirst(group, FIRST_ACTIONS);
    assert Planned(Left(READY, 25)) == Left(READY.(planned := 1), 24);
    TasksSimulate(group);
    assert PILE[1..] == [] && Pop(Left(BLANKED.(trace := TRIED.trace), 12)) == Left(TRIED, 12);
    assert RunTasks(w, Left(START, 29), true, None, plan) == Done(Left(TRIED, 12), BurnOk, true, false);
  }

  // ----- and for real -----

  const SERIOUS := TRIED.(settings := Settings({BlankBeforeWrite}, 0))
  const CHECKED_AGAIN := TRIED.(settings := Settings({NoTmpFiles}, 0), pile := [Settings({BlankBeforeWrite}, 0)],
                                trace := [CHECK, AGREED, ERASED, SIMULATED, AGAIN])
  const TRACE: seq<Event> := [CHECK, AGREED, ERASED, SIMULATED, AGAIN, RECORDED]
  const WRITTEN := SERIOUS.(planned := 2, trace := TRACE)

  lemma {:induction false} ChecksAgain(group: int)
    requires Fit(Surroundings(group))
    ensures CheckBefore(Surroundings(group), Left(Push(SERIOUS), 11), None) == Out(Left(CHECKED_AGAIN, 8), BurnOk)
  {
    var w, s := Surroundings(group), Push(SERIOUS);
    assert [Settings({BlankBeforeWrite}, 0)] + [] == [Settings({BlankBeforeWrite}, 0)];
    Consistent(group, s, 11, {BlankBeforeWrite});
    assert WISH != {BlankBeforeWrite} by {
      assert Dummy in WISH;
    }
    NothingToLose(group, WithFlags(s, {NoTmpFiles}), 9);
    hide CheckSessionConsistency, CheckDataLoss, Gos;
    assert TRIED.trace + [AGAIN] == CHECKED_AGAIN.trace;
    assert Logged(WithFlags(s, {NoTmpFiles}), AGAIN) == CHECKED_AGAIN;
  }

  lemma {:induction false} PlansAgain(group: int, actions: seq<Planning.TaskAction>)
    requires Fit(Surroundings(group))
    ensures LegalPlan(Surroundings(group), Left(CHECKED_AGAIN, 8), None, Data({}), actions)
            <==> actions == SECOND_ACTIONS
  {
    hide Planning.Fulfils, RequestOf;
    RequestedAgain(group);
    PlansExist(group);
    assert Does([RECORD], SECOND_ACTIONS);
    if LegalPlan(Surroundings(group), Left(CHECKED_AGAIN, 8), None, Data({}), actions) {
      var tasks: seq<Planning.Task>, p :|
        Planning.Fulfils(GRAPH, SecondRequest(group), tasks, p) && Does(tasks, actions);
      SecondPlanIs(group, tasks, p);
      assert actions == [actions[0]];
    }
  }

  lemma {:induction false} RequestedAgain(group: int)
    requires Fit(Surroundings(group))
    ensures RequestOf(Surroundings(group), Left(CHECKED_AGAIN, 8), None, Data({})) == SecondRequest(group)
  {
    hide CanBlank, Gos;
    NoneBlanksEmpty({NoTmpFiles});
  }

  lemma {:induction false} RunsAgain(group: int, plan: Plans)
    requires Fit(Surroundings(group)) && plan(1) == SECOND_ACTIONS
    ensures RunTasks(Surroundings(group), Left(SERIOUS, 11), false, None, plan)
            == Done(Left(WRITTEN, 1), BurnOk, false, false)
  {
    hide CheckBefore, LegalPlan, RunOne, Gos;
    var w, s := Surroundings(group), CHECKED_AGAIN.(planned := 2);
    assert Push(Left(SERIOUS, 11)) == Left(Push(SERIOUS), 11);
    ChecksAgain(group);
    Ticks(CHECKED_AGAIN, 8);
    PlansAgain(group, SECOND_ACTIONS);
    assert Planned(Left(CHECKED_AGAIN, 8)) == Left(s, 7);
    RecordsTask(w, s, 7, SECOND_ACTIONS, 0, false);
    assert CHECKED_AGAIN.trace + [RECORDED] == TRACE;
    assert RunAll(w, Left(s, 7), SECOND_ACTIONS, 0, None, false)
           == Done(Left(s.(trace := TRACE), 1), BurnOk, false, false);
    hide RunAll;
    assert [Settings({BlankBeforeWrite}, 0)][1..] == [];
    assert Pop(Left(s.(trace := TRACE), 1)) == Left(WRITTEN, 1);
  }

  lemma {:induction false} RecordsForReal(group: int, plan: Plans)
    requires Fit(Surroundings(group)) && plan(1) == SECOND_ACTIONS
    ensures RecordSession(Surroundings(group), Left(SERIOUS, 11), false, None, plan)
            == Done(Left(WRITTEN, 0), BurnOk, false, false)
  {
    hide RunTasks, Gos;
    RunsAgain(group, plan);
    Ticks(WRITTEN, 1);
    assert RunTasksPatiently(Surroundings(group), Left(SERIOUS, 11), false, None, plan)
           == Done(Left(WRITTEN, 1), BurnOk, false, false);
  }

  /** The whole session, with whatever new_task can plan: it ends well, every answer used up; the disc is erased once,
      after its owner agreed, and the recorder runs twice, the second time for real; the settings are those it came
      with. */
  lemma {:induction false} SimulatesAndRecords(group: int, plan: Plans)
    requires Fit(Surroundings(group))
    requires LegalPlan(Surroundings(group), Left(READY, 25), None, Data({}), plan(0))
    requires LegalPlan(Surroundings(group), Left(CHECKED_AGAIN, 8), None, Data({}), plan(1))
    ensures BurnLaws.SafeTasks(Surroundings(group), Left(START, 29), None)
    ensures RecordSession(Surroundings(group), Left(START, 29), true, None, plan)
            == Done(Left(START.(disc := 1, planned := 2, trace := TRACE), 0), BurnOk, false, false)
  {
    hide RunTasksPatiently, RecordSession, LegalPlan, Gos;
    PlansFirst(group, plan(0));
    PlansAgain(group, plan(1));
    Simulates(group, plan);
    Ticks(TRIED, 12);
    RecordsForReal(group, plan);
    EndsWell(group, plan);
  }

  lemma {:induction false} EndsWell(group: int, plan: Plans)
    requires Fit(Surroundings(group))
    requires RunTasksPatiently(Surroundings(group), Left(START, 29), true, None, plan)
             == Done(Left(TRIED, 12), BurnOk, true, false)
    requires RecordSession(Surroundings(group), Left(SERIOUS, 11), false, None, plan)
             == Done(Left(WRITTEN, 0), BurnOk, false, false)
    ensures RecordSession(Surroundings(group), Left(START, 29), true, None, plan)
            == Done(Left(START.(disc := 1, planned := 2, trace := TRACE), 0), BurnOk, false, false)
  {
    hide RunTasksPatiently, Gos;
    var w := Surroundings(group);
    Ticks(TRIED, 12);
    assert WISH - {Dummy} == {BlankBeforeWrite} && {BlankBeforeWrite} + {Dummy} == WISH;
    assert Simulating(Left(TRIED, 11), false) == Left(SERIOUS, 11);
    assert Simulating(Left(WRITTEN, 0), true) == Left(START.(disc := 1, planned := 2, trace := TRACE), 0);
    assert AfterTasks(w, Left(TRIED, 12), true, None, plan)
           == Done(Left(START.(disc := 1, planned := 2, trace := TRACE), 0), BurnOk, false, false);
  }

  /** There is such a session. */
  lemma {:induction false} SimulatedRunExists(group: int)
    ensures Fit(Surroundings(group))
    ensures LegalPlan(Surroundings(group), Left(READY, 25), None, Data({}), FIRST_ACTIONS)
    ensures LegalPlan(Surroundings(group), Left(CHECKED_AGAIN, 8), None, Data({}), SECOND_ACTIONS)
  {
    Basics();
    PlansFirst(group, FIRST_ACTIONS);
    PlansAgain(group, SECOND_ACTIONS);
  }
}
