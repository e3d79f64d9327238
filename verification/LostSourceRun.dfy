/** A copy from one drive to another that leaves the source drive locked. The image made on the way has replaced the
    session's tracks, so when the recorder asks for the source to be reloaded, the session names no drive any more, and
    the burn forgets the one it has locked. */
module LostSourceRun {
  import opened Flags
  import opened Plugins
  import opened Caps
  import opened MediumFlags
  import opened Consistency
  import opened Drives
  import opened Protocol
  import opened SmallTables
  import BestLink
  import FindLink
  import GetFlags
  import Planning = NewTask

  const ORIGINAL: Media := {MediumCd, MediumHasData}
  const FRESH: Media := {MediumCd, MediumWritable, MediumBlank}

  const RECORDER := Plugin(1, true, true, false, 0, 0, [MediaFlags(FRESH, [FlagPair({}, {})])], [], {})
  const IMAGER := Plugin(2, true, true, false, 0, 0, [], [], {})

  const IMAGING := Link(Some(2), [IMAGER])

  const GRAPH: Graph := [Caps([Link(Some(1), [RECORDER])], [], Disc(FRESH), {}),
                         Caps([IMAGING], [], Image({Bin}), {File}),
                         Caps([], [], Disc(ORIGINAL), {File})]

  const RECORDING := Link(Some(1), [RECORDER])

  const RANK: seq<nat> := [2, 1, 0]

  lemma {:induction false} Basics()
    ensures FindLink.Ranked(GRAPH, RANK) && NoActiveModifiers(GRAPH)
    ensures GRAPH[0].links == [RECORDING] && GRAPH[1].links == [IMAGING] && GRAPH[2].links == []
  {
  }

  // ----- what the engine answers -----

  const WALK := GetFlags.Walk(true, {}, FRESH, Disc(ORIGINAL), {File, Pipe})

  lemma {:induction false} Table()
    ensures PairsFor(RECORDER.flags, FRESH) == [FlagPair({}, {})]
    ensures CheckMediaRestrictions(RECORDER, FRESH) && CheckMediaRestrictions(IMAGER, FRESH)
  {
  }

  lemma {:induction false} NoFlags()
    ensures {} * BURN_FLAG_MASK == {} && {} * IMAGE_FLAG_MASK == {} && FLAG_ALL * {} == {}
  {
  }

  lemma {:induction false} Records()
    ensures GetFlags.OfLink(GRAPH, WALK, 0, RECORDING) == Some(GetFlags.LinkAnswer({}, {}))
  {
    hide AllFlags, GetFlags.RecordAnswer;
    Table();
    NoFlags();
    OnePair(RECORDER.flags, false, FRESH, BURN_FLAG_MASK, {} * BURN_FLAG_MASK, {});
    OnePlugin(RECORDER, WALK);
    assert GetRecordFlags(RECORDER, FRESH, {}) == FlagAnswer(true, {}, {});
    assert RECORDER in RECORDING.plugins && GetActive(RECORDER, true);
    assert Bin in {Bin} && Bin !in {Cue} && Bin !in {Cdrdao} && Bin !in {Clone};
    assert (p => CheckMediaRestrictions(p, WALK.media))(RECORDER);
    assert FindLink.SomePlugin(RECORDING, true, p => CheckMediaRestrictions(p, WALK.media));
    var none: BurnFlags := {};
    assert none + none == none && none - {Raw} == none;
  }

  lemma {:induction false} Images()
    ensures GetFlags.OfLink(GRAPH, WALK, 1, IMAGING) == Some(GetFlags.LinkAnswer({}, FLAG_ALL))
  {
    Table();
    assert IMAGER in IMAGING.plugins && GetActive(IMAGER, true);
    assert (p => CheckMediaRestrictions(p, WALK.media))(IMAGER);
    assert FindLink.SomePlugin(IMAGING, true, p => CheckMediaRestrictions(p, WALK.media));
    var none: BurnFlags := {};
    assert none + none == none;
  }

  lemma {:induction false} Walks()
    requires FindLink.Ranked(GRAPH, RANK)
    ensures GetFlags.DiscWalk(GRAPH, RANK, WALK, 0) == GetFlags.Acc({File}, {}, {})
  {
    hide GetFlags.OfLink;
    var start := GetFlags.Acc({}, {}, FLAG_ALL);
    Basics();
    Records();
    Images();
    NoFlags();
    assert GetFlags.Fits(GRAPH, WALK, 2) && !GetFlags.Fits(GRAPH, WALK, 1);
    assert File in GRAPH[1].io * WALK.io;
    assert GetFlags.Visit(GRAPH, RANK, WALK, 0, 0, start) == start;
    assert GetFlags.Visit(GRAPH, RANK, WALK, 1, 0, start) == start;
    assert FLAG_ALL * FLAG_ALL == FLAG_ALL && {File} * {File, Pipe} == {File};
    assert GetFlags.Visit(GRAPH, RANK, WALK, 1, 1, start) == GetFlags.Acc({File}, {}, FLAG_ALL);
    assert GetFlags.LeadsOn(GRAPH, WALK, 0, RECORDING);
  }

  const CAN := Ability(false, false, true, true, false)

  const SESSION := Session(GRAPH, RANK, false, Disc(ORIGINAL), None, FRESH, CAN)

  lemma {:induction false} SessionAnswers()
    requires FindLink.Ranked(GRAPH, RANK)
    ensures Asking(SESSION)({}).result == BurnOk && Asking(SESSION)({}).compulsory == {}
  {
    hide GetFlags.DiscWalk;
    Basics();
    Walks();
    assert EndsChain(GRAPH, 0, Disc(FRESH)) && StartFor(GRAPH, Disc(FRESH), 0) == 0;
    var base := GetFlags.LinkAnswer({CheckSize, NoGrace, Eject}, {});
    assert FlagsForDisc(GRAPH, RANK, true, {}, FRESH, Disc(ORIGINAL)) == Some(GetFlags.LinkAnswer({}, {}));
    forall c: nat, k: nat | c < |GRAPH| && k < |GRAPH[c].links| ensures GRAPH[c].links[k].target.Some? {
    }
    assert !CanBlank(GRAPH, true, FRESH, {});
    var a := Plus(base, GetFlags.LinkAnswer({}, {}));
    var none: BurnFlags := {};
    assert none + none == none && none - none == none;
    assert MediumDvd !in FRESH;
    assert ForMedium(GRAPH, RANK, true, FRESH, {}, Disc(ORIGINAL), base).compulsory == {};
  }

  lemma {:induction false} SessionChecks()
    requires FindLink.Ranked(GRAPH, RANK)
    ensures CheckFlags(Asking(SESSION), {}) == Corrected({}, {})
  {
    hide AskFlags;
    SessionAnswers();
    AskingNothing(Asking(SESSION));
  }

  // ----- the plan -----

  const QUERY := Planning.QueryFor({}, Disc(ORIGINAL), Disc(FRESH))

  const TO_DISC := BestLink.Node(RECORDING, RECORDER)
  const TO_IMAGE := BestLink.Node(IMAGING, IMAGER)

  lemma {:induction false} Picks(group: int)
    requires WellFormed(GRAPH)
    ensures BestLink.Pick(GRAPH, QUERY, 0, group, RECORDING) == Some(RECORDER)
    ensures BestLink.Pick(GRAPH, QUERY, 1, group, IMAGING) == Some(IMAGER)
  {
    hide AllFlags;
    Table();
    NoFlags();
    OnePair(RECORDER.flags, true, FRESH, BURN_FLAG_MASK, {} * BURN_FLAG_MASK, {});
    assert BestLink.Eligible(GRAPH, QUERY, 0, RECORDING, RECORDER);
    BestLink.PickIsBest(GRAPH, QUERY, 0, group, RECORDING, RECORDING.plugins);
    assert BestLink.Eligible(GRAPH, QUERY, 1, IMAGING, IMAGER);
    BestLink.PickIsBest(GRAPH, QUERY, 1, group, IMAGING, IMAGING.plugins);
  }

  lemma {:induction false} Reach()
    requires WellFormed(GRAPH)
    ensures BestLink.Fits(GRAPH, QUERY, 2) && !BestLink.Fits(GRAPH, QUERY, 1)
    ensures BestLink.Followable(GRAPH, QUERY, 0, {}, RECORDING) && BestLink.Followable(GRAPH, QUERY, 1, {0}, IMAGING)
  {
    assert File in GRAPH[1].io * QUERY.io;
    assert Bin in {Bin} && Bin !in {Cue} && Bin !in {Cdrdao} && Bin !in {Clone};
  }

  lemma {:induction false} SecondStep(group: int, path: seq<BestLink.Node>)
    requires WellFormed(GRAPH)
    ensures BestLink.IsRoute(GRAPH, QUERY, 1, group, {0}, path) <==> path == [TO_IMAGE]
  {
    hide BestLink.Pick;
    Basics();
    Picks(group);
    Reach();
    if BestLink.IsRoute(GRAPH, QUERY, 1, group, {0}, path) {
      assert path[0].link in [IMAGING] && path[0] == TO_IMAGE;
      if |path| > 1 {
        assert !BestLink.IsRoute(GRAPH, QUERY, 2, BestLink.NextGroup(group, IMAGER), {0} + {1}, path[1..]);
      }
      assert path == [path[0]];
    }
  }

  /** There is one way: by way of an image. */
  lemma {:induction false} OneWay(group: int, path: seq<BestLink.Node>)
    requires WellFormed(GRAPH)
    ensures BestLink.IsRoute(GRAPH, QUERY, 0, group, {}, path) <==> path == [TO_DISC, TO_IMAGE]
  {
    hide BestLink.Pick;
    Basics();
    Picks(group);
    Reach();
    assert {} + {0} == {0};
    if path != [] {
      SecondStep(BestLink.NextGroup(group, RECORDER), path[1..]);
      assert [TO_DISC, TO_IMAGE][1..] == [TO_IMAGE];
      assert path == [path[0]] + path[1..];
    }
    if BestLink.IsRoute(GRAPH, QUERY, 0, group, {}, path) {
      assert path[0].link in [RECORDING] && path[0] == TO_DISC;
    }
  }

  const WAY := [TO_DISC, TO_IMAGE]

  function RequestFor(group: int): Planning.Request {
    Planning.Request(group, {}, Disc(ORIGINAL), Disc(FRESH), true, false, None)
  }

  lemma {:induction false} AsItIs(group: int)
    requires WellFormed(GRAPH)
    ensures StartFor(GRAPH, Disc(FRESH), 0) == 0 && Planning.AsItIs(GRAPH, RequestFor(group))
  {
    assert EndsChain(GRAPH, 0, Disc(FRESH));
    OneWay(group, WAY);
  }

  lemma {:induction false} WayIsPlan(group: int)
    requires WellFormed(GRAPH)
    ensures Planning.IsPlan(GRAPH, group, Disc(ORIGINAL), Planning.Plan(WAY, {}, Disc(FRESH)))
  {
    AsItIs(group);
    OneWay(group, WAY);
    forall path | BestLink.IsRoute(GRAPH, QUERY, 0, group, {}, path)
      ensures BestLink.AtLeast(BestLink.Priorities(WAY), BestLink.Priorities(path))
    {
      OneWay(group, path);
      BestLink.AtLeastReflexive(BestLink.Priorities(WAY));
    }
  }

  const MAKE := Planning.Task(Planning.ActionNormal, [Planning.Job(IMAGER, Image({Bin}), Planning.LinkJob)])
  const RECORD := Planning.Task(Planning.ActionNormal, [Planning.Job(RECORDER, Disc(FRESH), Planning.LinkJob)])

  lemma {:induction false} TwoGroups()
    ensures Planning.Groups([MAKE, RECORD]) == [MAKE.jobs, RECORD.jobs]
    ensures Planning.Concat([MAKE.jobs, RECORD.jobs]) == [MAKE.jobs[0], RECORD.jobs[0]]
  {
    TwoJobs();
    Planning.GroupsConcat([MAKE], [RECORD]);
    assert [MAKE] + [RECORD] == [MAKE, RECORD];
    Planning.GroupsOne(MAKE);
    Planning.GroupsOne(RECORD);
    Planning.LinkJobsAppend([], MAKE.jobs[0]);
    Planning.LinkJobsAppend([], RECORD.jobs[0]);
    hide Planning.Groups, Planning.LinkJobs, Planning.Concat;
    assert [] + [MAKE.jobs[0]] == MAKE.jobs && [] + [RECORD.jobs[0]] == RECORD.jobs;
  }

  lemma {:induction false} TwoJobs()
    ensures Planning.Concat([MAKE.jobs, RECORD.jobs]) == [MAKE.jobs[0], RECORD.jobs[0]]
  {
    var groups := [MAKE.jobs, RECORD.jobs];
    assert groups[..1] == [MAKE.jobs] && groups[..1][..0] == [];
    assert Planning.Concat([MAKE.jobs]) == MAKE.jobs;
  }

  lemma {:induction false} Carried()
    ensures Planning.CarriesOut(GRAPH, Planning.Reversed(WAY), Disc(FRESH), false, [MAKE, RECORD])
  {
    hide Planning.Groups, Planning.Concat;
    var nodes, groups := Planning.Reversed(WAY), Planning.Groups([MAKE, RECORD]);
    assert nodes == [TO_IMAGE, TO_DISC];
    TwoGroups();
    assert Planning.JobsOf(GRAPH, nodes, 2, Disc(FRESH)) == [MAKE.jobs[0], RECORD.jobs[0]];
    assert groups[..0] == [] && groups[..1] == [MAKE.jobs];
    FirstGroup();
    assert Planning.PlacedBySharing(GRAPH, nodes, false, groups, 0, 0);
    assert Planning.PlacedBySharing(GRAPH, nodes, false, groups, 1, 0);
  }

  lemma {:induction false} FirstGroup()
    ensures Planning.Concat([]) == [] && Planning.Concat([MAKE.jobs]) == MAKE.jobs
  {
    assert [MAKE.jobs][..0] == [];
  }

  const ACTIONS := [Planning.ActionNormal, Planning.ActionNormal]

  lemma {:induction false} Ordered()
    requires WellFormed(GRAPH)
    ensures StartFor(GRAPH, Disc(FRESH), 0) == 0
    ensures Planning.RunsInOrder(GRAPH, Planning.Reversed(WAY), Disc(ORIGINAL), Disc(FRESH), GRAPH[0], false,
                                 [MAKE, RECORD])
  {
    hide Planning.Slots;
    Basics();
    var nodes := Planning.Reversed(WAY);
    assert nodes == [TO_IMAGE, TO_DISC];
    assert [MAKE] + [RECORD] == [MAKE, RECORD];
    Planning.SlotsConcat([MAKE], [RECORD]);
    Planning.SlotsOne(MAKE);
    Planning.SlotsOne(RECORD);
    assert Planning.Slots([MAKE, RECORD]) == Planning.ChainSlots(GRAPH, nodes, 2, Disc(FRESH), false);
    Planning.ChainInOrder(GRAPH, nodes, Disc(ORIGINAL), Disc(FRESH), 0, false, [MAKE, RECORD]);
  }

  lemma {:induction false} PlanExists(group: int)
    requires WellFormed(GRAPH)
    ensures Planning.Fulfils(GRAPH, RequestFor(group), [MAKE, RECORD], Planning.Plan(WAY, {}, Disc(FRESH)))
  {
    hide Planning.AsItIs, Planning.OnceBlanked, Planning.IsPlan, Planning.CarriesOut, Planning.RunsInOrder;
    Basics();
    AsItIs(group);
    WayIsPlan(group);
    Carried();
    Ordered();
  }

  lemma {:induction false} PlanIs(group: int, tasks: seq<Planning.Task>, p: Planning.Plan)
    requires WellFormed(GRAPH) && Planning.Fulfils(GRAPH, RequestFor(group), tasks, p)
    ensures |tasks| == 2 && tasks[0].action == Planning.ActionNormal && tasks[1].action == Planning.ActionNormal
  {
    Basics();
    AsItIs(group);
    assert tasks != [] && !Planning.HasErase(tasks);
    OneWay(group, p.path);
    Planning.TaskCount(GRAPH, Planning.Reversed(p.path), p.output, false, tasks);
  }

  // ----- the run -----

  const BURNER := Drive(1)
  const SOURCE := Drive(2)

  const YES := Answer(BurnOk, NoError, true, Disc(ORIGINAL))
  const NO := YES.(yes := false)
  const RELOAD := NO.(result := BurnErr, error := NeedReloadingError)

  /** The burner and then the source are locked, the session is checked, the image is made, and the recorder asks for
      the source to be reloaded. */
  const SCRIPT: seq<Answer> := [YES, NO, YES, NO, YES, YES, NO, NO, NO, YES, NO, NO, NO, NO, NO, NO, NO, NO, YES, NO,
                                NO, NO, NO, RELOAD, NO, YES, YES]

  function Surroundings(group: int): World {
    World(Some(BURNER), false, (d: nat) => FRESH, (d: nat) => CAN, GRAPH, RANK, group, (d: nat) => None,
          (f: BurnFlags) => Reply(NotSupported, {}, {}), Image({Bin}))
  }

  const PLAIN := Settings({}, 0)

  /** A state with k answers used up. */
  function After(s: St, k: nat): St
    requires k <= |SCRIPT|
  {
    s.(script := SCRIPT[k..])
  }

  lemma {:induction false} Ticks(s: St, k: nat)
    requires k < |SCRIPT|
    ensures First(After(s, k)) == SCRIPT[k] && Rest(After(s, k)) == After(s, k + 1)
  {
    assert SCRIPT[k..][1..] == SCRIPT[k + 1..];
  }

  /** The start, and the state with both drives locked. */
  const START := St(Some(SOURCE), None, None, {}, {}, {}, 0, PLAIN, [], SCRIPT, [], 0)
  const LOCKED := START.(src := Some(SOURCE), dest := Some(BURNER), locked := {BURNER, SOURCE})

  // ----- what some answers lead to, wherever they come -----

  lemma {:induction false} Idle(s: St, s1: St)
    requires !First(s).yes && Rest(s) == s1
    ensures Unmount(s, 0) == Out(s1, BurnOk) && WaitWhileBusy(s) == Out(s1, BurnOk)
  {
  }

  lemma {:induction false} BurnerLocks(w: World, before: St, s: St, s1: St, s2: St, s3: St, s4: St, s5: St, s6: St)
    requires w.burner == Some(BURNER) && BURNER !in s.locked && s == before.(dest := w.burner)
    requires First(s).yes && !First(s1).yes && First(s2).yes && !First(s3).yes && First(s4).yes && First(s5).yes
    requires Rest(s) == s1 && Rest(s1) == s2 && Rest(s2) == s3 && Rest(s3) == s4 && Rest(s4) == s5 && Rest(s5) == s6
    ensures Drives.LockDest(w, before) == Out(s6.(locked := s.locked + {BURNER}), BurnOk)
  {
    Idle(s1, s2);
    Idle(s3, s4);
    hide First, Rest, Unmount, WaitWhileBusy;
    assert LockIfFit(w, s3) == Out(Drives.Lock(s5, BURNER), BurnOk);
  }

  lemma {:induction false} SourceLocks(w: World, before: St, s: St, s1: St, s2: St, s3: St)
    requires s.src == Some(SOURCE) && SOURCE !in s.locked && s == TakeSource(before)
    requires !First(s).yes && !First(s1).yes && First(s2).yes
    requires Rest(s) == s1 && Rest(s1) == s2 && Rest(s2) == s3
    ensures Drives.LockSrc(w, before) == Out(s3.(locked := s.locked + {SOURCE}), BurnOk)
  {
    Idle(s, s1);
    hide First, Rest, WaitWhileBusy, TakeSource;
    assert LockSrcLoop(w, s) == Out(Drives.Lock(s2, SOURCE), BurnOk);
  }

  lemma {:induction false} Consistent(group: int, s: St, s1: St, s2: St)
    requires Fit(Surroundings(group)) && s.settings == PLAIN && s.srcDrive == Some(SOURCE)
    requires First(s) == NO && First(s1) == NO && Rest(s) == s1 && Rest(s1) == s2
    ensures CheckSessionConsistency(Surroundings(group), s, None) == Out(s2, BurnOk)
  {
    SessionChecks();
    assert SessionOf(Surroundings(group), s, None, Disc(ORIGINAL)) == SESSION;
    hide First, Rest, CheckFlags, SessionOf;
    var none: BurnFlags := {};
    assert none + none == none;
    assert WithFlags(s1, none) == s1;
  }

  lemma {:induction false} NothingToLose(group: int, s: St, s1: St)
    requires Fit(Surroundings(group)) && s.pile != [] && s.settings == PLAIN && s.disc == 0
             && Rest(Logged(s, CHECK)) == s1
    ensures CheckDataLoss(Surroundings(group), s) == Out(s1, BurnOk)
  {
    hide Rest;
    assert MediumHasData !in FRESH && MediumHasAudio !in FRESH && MediumRewritable !in FRESH;
    assert WarnAboutLoss(Surroundings(group), Logged(s, CHECK), FRESH, {}) == Warned(s1, BurnOk, false);
  }

  lemma {:induction false} Smooth(w: World, s: St, s1: St, s2: St)
    requires First(s) == NO && First(s1) == NO && Rest(s) == s1 && Rest(s1) == s2
    ensures RunImager(w, s) == Out(s2, BurnOk)
  {
    Idle(s, s1);
    hide First, Rest, Unmount;
  }

  /** The image is made, and replaces what the session was going to copy. */
  lemma {:induction false} ImageMade(w: World, s: St, s2: St, s4: St, s5: St)
    requires Fit(w) && s.pile != [] && RunImager(w, s) == Out(s2, BurnOk) && RunImager(w, s2) == Out(s4, BurnOk)
    requires First(s4).yes && Rest(s4) == s5
    ensures RunOne(w, s, ACTIONS, 0, None, true) == Turn(s5.(srcDrive := None), BurnOk, false, false, false)
  {
    hide RunImager, First, Rest;
  }

  // ----- the run, step by step -----

  const CHECK := Checked(0, FRESH, {})

  lemma {:induction false} OneMore(s: St, k: nat, drive: Drive)
    requires k <= |SCRIPT|
    ensures After(s, k).(locked := s.locked + {drive}) == After(s.(locked := s.locked + {drive}), k)
  {
  }

  const BURNER_LOCKED := START.(dest := Some(BURNER), locked := {BURNER})

  lemma {:induction false} LocksBurner(group: int)
    ensures Drives.LockDest(Surroundings(group), START) == Out(After(BURNER_LOCKED, 6), BurnOk)
  {
    var w, s := Surroundings(group), START.(dest := Some(BURNER));
    assert SCRIPT[0..] == SCRIPT && s == After(s, 0);
    assert BURNER !in After(s, 0).locked && After(s, 0).locked == s.locked;
    assert s.locked + {BURNER} == {BURNER} && s.(locked := {BURNER}) == BURNER_LOCKED;
    hide Drives.LockDest, First, Rest, After;
    Ticks(s, 0);
    Ticks(s, 1);
    Ticks(s, 2);
    Ticks(s, 3);
    Ticks(s, 4);
    Ticks(s, 5);
    OneMore(s, 6, BURNER);
    BurnerLocks(w, START, After(s, 0), After(s, 1), After(s, 2), After(s, 3), After(s, 4), After(s, 5), After(s, 6));
  }

  const SOURCE_TAKEN := BURNER_LOCKED.(src := Some(SOURCE))

  lemma {:induction false} TakesSource(k: nat)
    requires k <= |SCRIPT|
    ensures TakeSource(After(BURNER_LOCKED, k)) == After(SOURCE_TAKEN, k)
    ensures After(SOURCE_TAKEN, k).src == Some(SOURCE) && SOURCE !in After(SOURCE_TAKEN, k).locked
    ensures After(SOURCE_TAKEN, k).(locked := After(SOURCE_TAKEN, k).locked + {SOURCE}) == After(LOCKED, k)
  {
    assert {BURNER} + {SOURCE} == {BURNER, SOURCE};
  }

  lemma {:induction false} LocksSource(group: int)
    ensures Drives.LockSrc(Surroundings(group), After(BURNER_LOCKED, 7)) == Out(After(LOCKED, 10), BurnOk)
  {
    hide Drives.LockSrc, First, Rest, After, TakeSource, Surroundings;
    var s := SOURCE_TAKEN;
    TakesSource(7);
    TakesSource(10);
    Ticks(s, 7);
    Ticks(s, 8);
    Ticks(s, 9);
    SameLocks(s, 7, 10);
    SourceLocks(Surroundings(group), After(BURNER_LOCKED, 7), After(s, 7), After(s, 8), After(s, 9), After(s, 10));
  }

  lemma {:induction false} SameLocks(s: St, k: nat, l: nat)
    requires k <= |SCRIPT| && l <= |SCRIPT|
    ensures After(s, k).locked == After(s, l).locked
  {
  }

  lemma {:induction false} Checks(group: int, s: St)
    requires Fit(Surroundings(group)) && s == LOCKED.(pile := [PLAIN])
    ensures CheckBefore(Surroundings(group), After(s, 10), None) == Out(After(s.(trace := [CHECK]), 13), BurnOk)
  {
    hide CheckSessionConsistency, CheckDataLoss, First, Rest;
    Ticks(s, 10);
    Ticks(s, 11);
    Consistent(group, After(s, 10), After(s, 11), After(s, 12));
    var checked := s.(trace := [CHECK]);
    assert [] + [CHECK] == [CHECK];
    Ticks(checked, 12);
    assert Logged(After(s, 12), CHECK) == After(checked, 12);
    NothingToLose(group, After(s, 12), After(checked, 13));
  }

  lemma {:induction false} Smoothly(group: int, s: St, k: nat)
    requires k + 2 <= |SCRIPT| && SCRIPT[k] == NO && SCRIPT[k + 1] == NO
    ensures RunImager(Surroundings(group), After(s, k)) == Out(After(s, k + 2), BurnOk)
  {
    hide RunImager;
    Ticks(s, k);
    Ticks(s, k + 1);
    Smooth(Surroundings(group), After(s, k), After(s, k + 1), After(s, k + 2));
  }

  lemma {:induction false} NoSource(s: St, k: nat)
    requires k <= |SCRIPT|
    ensures After(s, k).pile == s.pile && After(s, k).(srcDrive := None) == After(s.(srcDrive := None), k)
  {
  }

  lemma {:induction false} MakesImage(group: int, s: St)
    requires Fit(Surroundings(group)) && s.pile != []
    ensures RunOne(Surroundings(group), After(s, 14), ACTIONS, 0, None, true)
            == Turn(After(s.(srcDrive := None), 19), BurnOk, false, false, false)
  {
    hide RunImager, RunOne, First, Rest, After, Surroundings;
    NoSource(s, 14);
    NoSource(s, 19);
    Smoothly(group, s, 14);
    Smoothly(group, s, 16);
    Ticks(s, 18);
    ImageMade(Surroundings(group), After(s, 14), After(s, 16), After(s, 18), After(s, 19));
  }

  const WRITING := LOCKED.(srcDrive := None, pile := [PLAIN], trace := [CHECK], planned := 1)
  const BURN := Burnt(0, true, false)
  const LOSS := SourceLost(SOURCE, true)
  const END := WRITING.(src := None, lost := {SOURCE}, trace := [CHECK, BURN, LOSS])

  /** The drive that is to be reloaded is no longer the session's. */
  lemma {:induction false} LosesSource(group: int)
    ensures Drives.ReloadSrc(Surroundings(group), After(WRITING.(trace := [CHECK, BURN]), 24))
            == Out(After(END, 26), BurnErr)
  {
    var s := WRITING.(trace := [CHECK, BURN]);
    Ticks(s, 24);
    Ticks(s, 25);
    assert {} + {SOURCE} == {SOURCE} && [CHECK, BURN] + [LOSS] == [CHECK, BURN, LOSS];
  }

  lemma {:induction false} RecorderFails(w: World, s: St, s1: St, s2: St, s3: St, t: St)
    requires s.settings == PLAIN && !First(s).yes && !First(s1).yes && First(s2) == RELOAD
    requires Rest(s) == s1 && Rest(s1) == s2 && Rest(s2) == s3
    requires Drives.ReloadSrc(w, Logged(s3, Recording(w, s, None))) == Out(t, BurnErr)
    ensures RunRecorder(w, s, None) == Out(t, BurnErr)
  {
    Idle(s, s1);
    Idle(s1, s2);
    hide First, Rest, Unmount, WaitWhileBusy, Drives.ReloadSrc, Logged, BurnerLocked;
    assert FreeDrives(s) == Out(s2, BurnOk);
  }

  lemma {:induction false} Fails(group: int)
    ensures RunRecorder(Surroundings(group), After(WRITING, 21), None) == Out(After(END, 26), BurnErr)
  {
    hide Drives.ReloadSrc, RunRecorder;
    var s := WRITING.(trace := [CHECK, BURN]);
    Ticks(WRITING, 21);
    Ticks(WRITING, 22);
    Ticks(WRITING, 23);
    assert [CHECK] + [BURN] == [CHECK, BURN];
    LosesSource(group);
    assert Logged(After(WRITING, 24), BURN) == After(s, 24);
    RecorderFails(Surroundings(group), After(WRITING, 21), After(WRITING, 22), After(WRITING, 23),
                  After(WRITING, 24), After(END, 26));
  }

  lemma {:induction false} LastFails(group: int)
    requires Fit(Surroundings(group))
    ensures RunOne(Surroundings(group), After(WRITING, 19), ACTIONS, 1, None, true)
            == Turn(After(END, 26), BurnErr, true, false, false)
  {
    hide RunImager, RunRecorder;
    Smoothly(group, WRITING, 19);
    Fails(group);
  }

  lemma {:induction false} TasksFail(group: int)
    requires Fit(Surroundings(group))
    ensures RunAll(Surroundings(group), After(LOCKED.(pile := [PLAIN], trace := [CHECK], planned := 1), 14), ACTIONS,
                   0, None, true)
            == Done(After(END, 26), BurnErr, false, false)
  {
    hide RunOne;
    MakesImage(group, LOCKED.(pile := [PLAIN], trace := [CHECK], planned := 1));
    LastFails(group);
  }

  // ----- the whole burn -----

  lemma {:induction false} Prepares(group: int, plan: Plans)
    requires Fit(Surroundings(group))
    ensures Prepare(Surroundings(group), START, plan) == Done(After(BURNER_LOCKED, 6), BurnOk, false, false)
  {
    hide Drives.LockDest;
    LocksBurner(group);
  }

  lemma {:induction false} Requested(group: int, s: St)
    requires Fit(Surroundings(group)) && s.settings == PLAIN && s.disc == 0
    ensures RequestOf(Surroundings(group), s, None, Disc(ORIGINAL)) == RequestFor(group)
  {
    assert !CanBlank(GRAPH, true, FRESH, {}) by {
      Basics();
    }
  }

  /** What new_task plans: this, and nothing else. */
  lemma {:induction false} PlansTwoTasks(group: int, s: St, actions: seq<Planning.TaskAction>)
    requires Fit(Surroundings(group)) && s.settings == PLAIN && s.disc == 0
    ensures LegalPlan(Surroundings(group), s, None, Disc(ORIGINAL), actions) <==> actions == ACTIONS
  {
    hide Planning.Fulfils, RequestOf;
    Requested(group, s);
    PlanExists(group);
    assert Does([MAKE, RECORD], ACTIONS);
    if LegalPlan(Surroundings(group), s, None, Disc(ORIGINAL), actions) {
      var tasks: seq<Planning.Task>, p :| Planning.Fulfils(GRAPH, RequestFor(group), tasks, p) && Does(tasks, actions);
      PlanIs(group, tasks, p);
      assert actions == [actions[0], actions[1]];
    }
  }

  const FAILED := END.(pile := [])

  lemma {:induction false} TasksRun(group: int, plan: Plans)
    requires Fit(Surroundings(group)) && plan(0) == ACTIONS
    ensures RunTasks(Surroundings(group), After(LOCKED, 10), true, None, plan)
            == Done(After(FAILED, 26), BurnErr, false, false)
  {
    hide CheckBefore, LegalPlan, RunAll;
    var w, s, checked := Surroundings(group), LOCKED.(pile := [PLAIN]), LOCKED.(pile := [PLAIN], trace := [CHECK]);
    assert [PLAIN] + [] == [PLAIN] && Push(After(LOCKED, 10)) == After(s, 10);
    Checks(group, s);
    Ticks(checked, 13);
    PlansTwoTasks(group, After(checked, 13), ACTIONS);
    assert Planned(After(checked, 13)) == After(checked.(planned := 1), 14);
    TasksFail(group);
    assert Pop(After(END, 26)) == After(FAILED, 26);
  }

  /** Nobody asks for a checksum or a simulation: the session ends as its tasks do. */
  lemma {:induction false} SessionFails(group: int, plan: Plans)
    requires Fit(Surroundings(group)) && plan(0) == ACTIONS
    ensures RecordSession(Surroundings(group), After(LOCKED, 10), true, None, plan)
            == Done(After(FAILED, 26), BurnErr, false, false)
  {
    hide RunTasks;
    TasksRun(group, plan);
    assert RunTasksPatiently(Surroundings(group), After(LOCKED, 10), true, None, plan)
           == Done(After(FAILED, 26), BurnErr, false, false);
  }

  lemma {:induction false} RecordsLocked(group: int, plan: Plans)
    requires Fit(Surroundings(group)) && plan(0) == ACTIONS
    ensures RecordLocked(Surroundings(group), START, plan) == Done(After(FAILED, 26), BurnErr, false, false)
  {
    hide Prepare, Drives.LockSrc, RecordSession, First, Rest;
    Prepares(group, plan);
    Ticks(BURNER_LOCKED, 6);
    LocksSource(group);
    SessionFails(group, plan);
  }

  lemma {:induction false} Unlocks(group: int)
    ensures UnlockMedias(Surroundings(group), After(FAILED, 26)) == After(FAILED.(dest := None, locked := {SOURCE}), 27)
  {
    Ticks(FAILED, 26);
    assert {BURNER, SOURCE} - {BURNER} == {SOURCE} && {SOURCE} - {BURNER} == {SOURCE};
  }

  /** The whole burn, with whatever new_task can plan: it begins with nothing locked and fails, no drive has refused to
      be unlocked, and the source stays locked, which the trace tells. */
  lemma {:induction false} SourceStaysLocked(group: int, plan: Plans)
    requires Fit(Surroundings(group))
    requires LegalPlan(Surroundings(group), After(LOCKED.(pile := [PLAIN], trace := [CHECK]), 13), None,
                       Disc(ORIGINAL), plan(0))
    ensures var d := Record(Surroundings(group), START, plan);
            && START.locked == {} && START.src.None? && START.dest.None?
            && d.r == BurnErr && !d.quit && d.s.stuck == {} && d.s.locked == {SOURCE}
            && d.s.trace == [CHECK, BURN, LOSS] && !NoLoss(d.s.trace, 0)
  {
    hide RecordLocked, UnlockMedias, LegalPlan;
    PlansTwoTasks(group, After(LOCKED.(pile := [PLAIN], trace := [CHECK]), 13), plan(0));
    assert Begin(START) == START;
    RecordsLocked(group, plan);
    Unlocks(group);
    assert IsLoss([CHECK, BURN, LOSS][2]);
  }

  /** There is such a run. */
  lemma {:induction false} LostSourceRunExists(group: int)
    ensures Fit(Surroundings(group))
    ensures LegalPlan(Surroundings(group), After(LOCKED.(pile := [PLAIN], trace := [CHECK]), 13), None,
                      Disc(ORIGINAL), ACTIONS)
  {
    Basics();
    PlansTwoTasks(group, After(LOCKED.(pile := [PLAIN], trace := [CHECK]), 13), ACTIONS);
  }
}
