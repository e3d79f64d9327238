/** What happens to a chain of jobs and to the pipes between them while a task runs (burn-job.c, burn-task.c).
    Jobs are numbered from the first to the leader. The functions here are the specification the objects of
    module Jobs are proved against; the laws about whole runs are proved here. */
module Pipeline {
  import opened Flags
  import opened Caps
  import opened NewTask

  /** rejilla_job's input: the two ends of the pipe it reads from; a closed write end is 0. */
  datatype Ends = Ends(read: int, write: int)

  datatype JobState = JobState(active: bool, input: Option<Ends>, output: bool, linked: Option<nat>)

  type Chain = seq<JobState>

  /** The jobs, the descriptors the process has open, and whether something went wrong that C would not
      survive or notice: a descriptor closed that was not open, or a missing input read. */
  datatype Sys = Sys(jobs: Chain, open: set<int>, fault: bool)

  // ----- walks along the chain -----

  predicate NoneActive(jobs: Chain, from: nat, to: nat) {
    forall k :: from <= k < to && k < |jobs| ==> !jobs[k].active
  }

  predicate IsLastActive(jobs: Chain, i: nat)
    requires i < |jobs|
  {
    jobs[i].active && NoneActive(jobs, i + 1, |jobs|)
  }

  predicate IsFirstActive(jobs: Chain, i: nat)
    requires i < |jobs|
  {
    jobs[i].active && NoneActive(jobs, 0, i)
  }

  function NextActive(jobs: Chain, i: nat): (r: Option<nat>)
    requires i < |jobs|
    ensures r.Some? ==> i < r.value < |jobs| && jobs[r.value].active && NoneActive(jobs, i + 1, r.value)
    ensures r.None? ==> NoneActive(jobs, i + 1, |jobs|)
    decreases |jobs| - i
  {
    if i + 1 == |jobs| then None
    else if jobs[i + 1].active then Some(i + 1)
    else NextActive(jobs, i + 1)
  }

  /** As soon as one job is active, exactly one is the first active one and exactly one the last. */
  lemma {:induction false} OneFirstAndOneLast(jobs: Chain, i: nat) returns (first: nat, last: nat)
    requires i < |jobs| && jobs[i].active
    ensures first <= i <= last < |jobs| && IsFirstActive(jobs, first) && IsLastActive(jobs, last)
    ensures forall k :: 0 <= k < |jobs| && IsFirstActive(jobs, k) ==> k == first
    ensures forall k :: 0 <= k < |jobs| && IsLastActive(jobs, k) ==> k == last
  {
    first, last := i, i;
    while exists k :: 0 <= k < first && jobs[k].active
      invariant first <= i && jobs[first].active
      decreases first
    {
      var k :| 0 <= k < first && jobs[k].active;
      first := k;
    }
    while exists k :: last < k < |jobs| && jobs[k].active
      invariant i <= last < |jobs| && jobs[last].active
      decreases |jobs| - last
    {
      var k :| last < k < |jobs| && jobs[k].active;
      last := k;
    }
  }

  // ----- what a job is asked to do -----

  datatype JobAction = JobNone | JobSize | JobImage | JobRecord | JobErase | JobChecksum

  /** Every job but the last active one makes an image; the last one does what the task is for. In fake mode
      the task's action reads as none. */
  function GetAction(jobs: Chain, i: nat, action: TaskAction, toDisc: bool): JobAction
    requires i < |jobs|
  {
    if !IsLastActive(jobs, i) then JobImage
    else
      match action
      case ActionNone => JobSize
      case ActionErase => JobErase
      case ActionNormal => if toDisc then JobRecord else JobImage
      case ActionChecksum => JobChecksum
  }

  /** rejilla_job_add_track: what it answers. */
  function AddTrack(jobs: Chain, i: nat, action: TaskAction, toDisc: bool): BurnResult
    requires i < |jobs|
  {
    if GetAction(jobs, i, action, toDisc) != JobImage then BurnErr
    else if !IsLastActive(jobs, i) then BurnErr
    else BurnOk
  }

  /** Two different jobs are never both asked for more than an image, nor both allowed to add a track. */
  lemma OnlyLastActs(jobs: Chain, i: nat, j: nat, action: TaskAction, di: bool, dj: bool)
    requires i < j < |jobs|
    ensures GetAction(jobs, i, action, di) == JobImage || GetAction(jobs, j, action, dj) == JobImage
    ensures !(AddTrack(jobs, i, action, di) == BurnOk && AddTrack(jobs, j, action, dj) == BurnOk)
  {
    if IsLastActive(jobs, i) {
      assert !jobs[j].active;
    }
  }

  // ----- activation -----

  /** What rejilla_job_item_activate makes of the plugin's answer: a job that has nothing to do may sit out, but
      only where it would not have changed the type of what passes through, and never a recorder. */
  function ItemActivate(before: TrackType, own: TrackType, answer: BurnResult): BurnResult {
    if answer == NotRunning && (own.Disc? || before != own) then BurnErr else answer
  }

  /** The type a job takes: its predecessor's, or what the session offers. */
  function TypeBefore(types: seq<TrackType>, input: TrackType, k: nat): TrackType
    requires k <= |types|
  {
    if k == 0 then input else types[k - 1]
  }

  datatype Activated = Activated(jobs: Chain, result: BurnResult)

  /** rejilla_task_activate_items from job i on; `soFar` is the result if nothing else happens. */
  function ActivateFrom(jobs: Chain, i: nat, types: seq<TrackType>, input: TrackType, answers: seq<BurnResult>,
                        soFar: BurnResult): (r: Activated)
    requires i <= |jobs| == |types| == |answers|
    ensures |r.jobs| == |jobs|
    decreases |jobs| - i
  {
    if i == |jobs| then Activated(jobs, soFar)
    else
      var result := ItemActivate(TypeBefore(types, input, i), types[i], answers[i]);
      var jobs' := jobs[i := jobs[i].(active := result == BurnOk)];
      if result == NotRunning then ActivateFrom(jobs', i + 1, types, input, answers, soFar)
      else if result != BurnOk then Activated(jobs', result)
      else ActivateFrom(jobs', i + 1, types, input, answers, BurnOk)
  }

  /** The type of what really arrives at job k once the inactive jobs before it are skipped. */
  function Arriving(jobs: Chain, types: seq<TrackType>, input: TrackType, k: nat): TrackType
    requires k <= |jobs| == |types|
  {
    if k == 0 then input else if jobs[k - 1].active then types[k - 1] else Arriving(jobs, types, input, k - 1)
  }

  lemma {:induction false} ActivateFromIs(jobs: Chain, i: nat, types: seq<TrackType>, input: TrackType,
                                          answers: seq<BurnResult>, soFar: BurnResult)
    requires i <= |jobs| == |types| == |answers| && soFar in {BurnOk, NotRunning}
    ensures var r := ActivateFrom(jobs, i, types, input, answers, soFar);
            && (forall k :: 0 <= k < i ==> r.jobs[k] == jobs[k])
            && (r.result in {BurnOk, NotRunning} ==>
                  && (forall k :: i <= k < |jobs| ==>
                        ItemActivate(TypeBefore(types, input, k), types[k], answers[k]) in {BurnOk, NotRunning}
                        && (r.jobs[k].active <==>
                              ItemActivate(TypeBefore(types, input, k), types[k], answers[k]) == BurnOk))
                  && (r.result == BurnOk <==> soFar == BurnOk || exists k :: i <= k < |jobs| && r.jobs[k].active))
    decreases |jobs| - i
  {
    if i < |jobs| {
      var result := ItemActivate(TypeBefore(types, input, i), types[i], answers[i]);
      var jobs' := jobs[i := jobs[i].(active := result == BurnOk)];
      if result in {BurnOk, NotRunning} {
        ActivateFromIs(jobs', i + 1, types, input, answers, if result == BurnOk then BurnOk else soFar);
        var r := ActivateFrom(jobs, i, types, input, answers, soFar);
        assert r.jobs[i] == jobs'[i];
      }
    }
  }

  /** After activation that did not fail, a job is active or sits out because its type is the one it gets. */
  lemma {:induction false} ActiveOrIdle(jobs: Chain, types: seq<TrackType>, input: TrackType, answers: seq<BurnResult>,
                                        k: nat)
    requires k < |jobs| == |types| == |answers|
    requires ActivateFrom(jobs, 0, types, input, answers, NotRunning).result in {BurnOk, NotRunning}
    ensures var r := ActivateFrom(jobs, 0, types, input, answers, NotRunning);
            && (!r.jobs[k].active ==> !types[k].Disc? && TypeBefore(types, input, k) == types[k])
            && (r.result == NotRunning ==> !r.jobs[k].active)
  {
    ActivateFromIs(jobs, 0, types, input, answers, NotRunning);
    var r := ActivateFrom(jobs, 0, types, input, answers, NotRunning);
    assert ItemActivate(TypeBefore(types, input, k), types[k], answers[k]) in {BurnOk, NotRunning};
  }

  /** Whatever jobs sit out, every job still gets the type it was planned to take, and the chain still delivers
      the type of its last job: the task is skipped altogether only when that is the type it was given. */
  lemma {:induction false} SittingOutKeepsTypes(jobs: Chain, types: seq<TrackType>, input: TrackType,
                                                answers: seq<BurnResult>, k: nat)
    requires k <= |jobs| == |types| == |answers|
    requires ActivateFrom(jobs, 0, types, input, answers, NotRunning).result in {BurnOk, NotRunning}
    ensures var r := ActivateFrom(jobs, 0, types, input, answers, NotRunning);
            && Arriving(r.jobs, types, input, k) == TypeBefore(types, input, k)
            && (r.result == NotRunning ==> TypeBefore(types, input, k) == input)
            && (k < |jobs| && types[k].Disc? ==> r.jobs[k].active)
  {
    if k < |jobs| {
      ActiveOrIdle(jobs, types, input, answers, k);
    }
    if k > 0 {
      ActiveOrIdle(jobs, types, input, answers, k - 1);
      SittingOutKeepsTypes(jobs, types, input, answers, k - 1);
    }
  }

  // ----- single steps -----

  function Close(s: Sys, fd: int): (r: Sys)
    ensures r.jobs == s.jobs
  {
    if fd <= 0 then s
    else if fd in s.open then s.(open := s.open - {fd})
    else s.(fault := true)
  }

  function FreeInput(s: Sys, i: nat): (r: Sys)
    requires i < |s.jobs|
    ensures |r.jobs| == |s.jobs|
  {
    if s.jobs[i].input.None? then s
    else
      var closed := Close(Close(s, s.jobs[i].input.value.read), s.jobs[i].input.value.write);
      closed.(jobs := s.jobs[i := s.jobs[i].(input := None)])
  }

  /** The system after the write end of a job's pipe is closed. */
  function WriteClosed(s: Sys, l: nat): Sys
    requires l < |s.jobs| && s.jobs[l].input.Some?
  {
    var far := s.jobs[l];
    Close(s, far.input.value.write).(jobs := s.jobs[l := far.(input := Some(far.input.value.(write := 0)))])
  }

  /** The writing side of the next job's pipe goes first, then the job's own pipe. */
  function Disconnect(s: Sys, i: nat): (r: Sys)
    requires i < |s.jobs|
    ensures |r.jobs| == |s.jobs|
  {
    var job := s.jobs[i];
    var s1 :=
      if job.linked.Some? then
        if job.linked.value >= |s.jobs| || s.jobs[job.linked.value].input.None? then s.(fault := true)
        else
          var far := s.jobs[job.linked.value];
          if far.input.value.write > 0 then WriteClosed(s, job.linked.value) else s
      else s.(jobs := s.jobs[i := job.(output := false)]);
    FreeInput(s1, i)
  }

  function Deactivate(s: Sys, i: nat): (r: Sys)
    requires i < |s.jobs|
    ensures |r.jobs| == |s.jobs|
  {
    var s1 := FreeInput(s, i);
    s1.(jobs := s1.jobs[i := JobState(false, None, false, None)])
  }

  /** Stopping keeps the link: only deactivation clears it. */
  function ItemStop(s: Sys, i: nat): (r: Sys)
    requires i < |s.jobs|
    ensures |r.jobs| == |s.jobs|
  {
    if !s.jobs[i].active then s
    else
      var s1 := Disconnect(s, i);
      s1.(jobs := s1.jobs[i := s1.jobs[i].(active := false)])
  }

  function StopFrom(s: Sys, i: nat): (r: Sys)
    requires i <= |s.jobs|
    ensures |r.jobs| == |s.jobs|
    decreases |s.jobs| - i
  {
    if i == |s.jobs| then s else StopFrom(ItemStop(s, i), i + 1)
  }

  /** Before a last job runs it may need an output file, or room on the disc. */
  datatype Preparation = Prepared(output: bool) | Unprepared(output: bool, needsReload: bool)

  /** What the world answers when a job is started: the preparation, the two ends pipe() hands out, and the
      plugin's ::start. */
  datatype StartAnswer = StartAnswer(prepare: Preparation, ends: Option<Ends>, start: BurnResult)

  /** pipe() hands out two new descriptors. */
  predicate FreshEnds(open: set<int>, ends: Ends) {
    ends.read > 0 && ends.write > 0 && ends.read != ends.write && ends.read !in open && ends.write !in open
  }

  datatype Started = Started(sys: Sys, result: BurnResult)

  function Link(s: Sys, i: nat): (r: Sys)
    requires i < |s.jobs|
    ensures |r.jobs| == |s.jobs|
  {
    s.(jobs := s.jobs[i := s.jobs[i].(linked := NextActive(s.jobs, i))])
  }

  function OpenPipe(s: Sys, i: nat, ends: Ends): Sys
    requires i < |s.jobs|
  {
    Sys(s.jobs[i := s.jobs[i].(input := Some(ends))], s.open + {ends.read, ends.write}, s.fault)
  }

  /** A last job told to make an image or to record is prepared first. */
  predicate NeedsPreparation(s: Sys, i: nat, action: TaskAction, toDisc: bool)
    requires i < |s.jobs|
  {
    NextActive(s.jobs, i).None? && GetAction(s.jobs, i, action, toDisc) in {JobImage, JobRecord}
  }

  /** What is made of the answer of ::start. Only the last active job may be done already, and only a job asked
      for a size may decline. */
  function Conclude(s: Sys, i: nat, kind: JobAction, answer: BurnResult): (r: Started)
    requires i < |s.jobs|
    ensures |r.sys.jobs| == |s.jobs|
  {
    if answer == NotRunning && s.jobs[i].linked.Some? then Started(s, BurnErr)
    else if answer != NotSupported then Started(s, answer)
    else if kind != JobSize then Started(s, BurnErr)
    else Started(Deactivate(s, i), NotSupported)
  }

  function ItemStart(s: Sys, i: nat, action: TaskAction, toDisc: bool, a: StartAnswer): (r: Started)
    requires i < |s.jobs|
    ensures |r.sys.jobs| == |s.jobs|
  {
    if !s.jobs[i].active then Started(s, BurnOk)
    else
      var kind, prepare := GetAction(s.jobs, i, action, toDisc), NeedsPreparation(s, i, action, toDisc);
      var linked := Link(s, i);
      var s1 := if prepare && a.prepare.output
                then linked.(jobs := linked.jobs[i := linked.jobs[i].(output := true)]) else linked;
      if prepare && a.prepare.Unprepared? then Started(s1, if a.prepare.needsReload then NeedReload else BurnErr)
      else if !IsFirstActive(s.jobs, i) && (a.ends.None? || !FreshEnds(s.open, a.ends.value)) then Started(s1, BurnErr)
      else
        Conclude(if IsFirstActive(s.jobs, i) then s1 else OpenPipe(s1, i, a.ends.value), i, kind, a.start)
  }

  /** What starting an active job comes to. The last one is prepared before it makes an image or records; all but the
      first need a pipe to read from. Only the last one may be done already, and only if asked for a size may it
      decline; then, and only then, it is no longer active. */
  lemma {:induction false} StartMeans(s: Sys, i: nat, action: TaskAction, toDisc: bool, a: StartAnswer)
    requires i < |s.jobs| && s.jobs[i].active
    ensures var st, last := ItemStart(s, i, action, toDisc, a), IsLastActive(s.jobs, i);
            var ready := last && action == ActionNormal ==> a.prepare.Prepared?;
            var started := ready && (IsFirstActive(s.jobs, i) || (a.ends.Some? && FreshEnds(s.open, a.ends.value)));
            && (st.result == BurnOk <==> started && a.start == BurnOk)
            && (st.result == Retry <==> started && a.start == Retry)
            && (st.result == Cancel <==> started && a.start == Cancel)
            && (st.result == NotRunning <==> started && a.start == NotRunning && last)
            && (st.result == NotSupported <==> started && a.start == NotSupported && last && action == ActionNone)
            && (st.result == NeedReload <==>
                  if ready then started && a.start == NeedReload else a.prepare.needsReload)
            && (st.sys.jobs[i].active <==> st.result != NotSupported)
  {
  }

  // ----- who owns which descriptor -----

  function HeldBy(job: JobState): set<int> {
    if job.input.None? then {}
    else if job.input.value.write > 0 then {job.input.value.read, job.input.value.write} else {job.input.value.read}
  }

  predicate Held(jobs: Chain, fd: int) {
    exists k :: 0 <= k < |jobs| && fd in HeldBy(jobs[k])
  }

  predicate Apart(jobs: Chain, k: nat, l: nat)
    requires k < |jobs| && l < |jobs|
  {
    HeldBy(jobs[k]) !! HeldBy(jobs[l])
  }

  predicate WellHeld(job: JobState, open: set<int>, base: set<int>) {
    && (job.input.Some? ==> job.input.value.read > 0 && job.input.value.read != job.input.value.write)
    && HeldBy(job) !! base && HeldBy(job) <= open
  }

  /** The open descriptors are those of `base`, which the task never touches, and the pipe ends of the jobs,
      each held by one job only. */
  ghost predicate Owns(s: Sys, base: set<int>) {
    && !s.fault && base <= s.open
    && (forall k :: 0 <= k < |s.jobs| ==> WellHeld(s.jobs[k], s.open, base))
    && (forall k, l {:trigger Apart(s.jobs, k, l)} :: 0 <= k < l < |s.jobs| ==> Apart(s.jobs, k, l))
    && (forall fd {:trigger Held(s.jobs, fd)} :: fd in s.open && fd !in base ==> Held(s.jobs, fd))
  }

  /** Jobs whose holdings only shrink to what is still open stay apart and accounted for. */
  lemma {:induction false} ShrinkOwns(s: Sys, r: Sys, base: set<int>)
    requires Owns(s, base) && |r.jobs| == |s.jobs| && !r.fault
    requires forall k :: 0 <= k < |r.jobs| ==>
             WellHeld(r.jobs[k], r.open, base) && HeldBy(r.jobs[k]) <= HeldBy(s.jobs[k])
    requires base <= r.open <= s.open
    requires forall k, fd :: 0 <= k < |r.jobs| && fd in HeldBy(s.jobs[k]) && fd in r.open ==> fd in HeldBy(r.jobs[k])
    ensures Owns(r, base)
  {
    forall k, l | 0 <= k < l < |r.jobs| ensures Apart(r.jobs, k, l) {
      assert Apart(s.jobs, k, l);
    }
    forall fd | fd in r.open && fd !in base ensures Held(r.jobs, fd) {
      assert Held(s.jobs, fd);
    }
  }

  lemma {:induction false} FreeInputOwns(s: Sys, i: nat, base: set<int>)
    requires i < |s.jobs| && Owns(s, base)
    ensures var r := FreeInput(s, i);
            Owns(r, base) && r.jobs == s.jobs[i := s.jobs[i].(input := None)]
  {
    var r := FreeInput(s, i);
    if s.jobs[i].input.Some? {
      assert WellHeld(s.jobs[i], s.open, base);
      assert r.open == s.open - HeldBy(s.jobs[i]);
      forall k | 0 <= k < |r.jobs| ensures WellHeld(r.jobs[k], r.open, base) {
        if k != i {
          assert WellHeld(s.jobs[k], s.open, base);
          assert k < i ==> Apart(s.jobs, k, i);
          assert i < k ==> Apart(s.jobs, i, k);
        }
      }
      ShrinkOwns(s, r, base);
    }
  }

  lemma {:induction false} CloseWriteOwns(s: Sys, l: nat, base: set<int>)
    requires l < |s.jobs| && Owns(s, base) && s.jobs[l].input.Some? && s.jobs[l].input.value.write > 0
    ensures Owns(WriteClosed(s, l), base)
  {
    var e, r := s.jobs[l].input.value, WriteClosed(s, l);
    assert WellHeld(s.jobs[l], s.open, base);
    assert e.write in HeldBy(s.jobs[l]);
    assert r.open == s.open - {e.write};
    forall k | 0 <= k < |r.jobs| ensures WellHeld(r.jobs[k], r.open, base) {
      if k != l {
        assert WellHeld(s.jobs[k], s.open, base);
        assert k < l ==> Apart(s.jobs, k, l);
        assert l < k ==> Apart(s.jobs, l, k);
      }
    }
    ShrinkOwns(s, r, base);
  }

  lemma {:induction false} OpenPipeOwns(s: Sys, i: nat, ends: Ends, base: set<int>)
    requires i < |s.jobs| && Owns(s, base) && s.jobs[i].input.None? && FreshEnds(s.open, ends)
    ensures Owns(OpenPipe(s, i, ends), base)
  {
    var r := OpenPipe(s, i, ends);
    forall k | 0 <= k < |r.jobs| ensures WellHeld(r.jobs[k], r.open, base) {
      assert WellHeld(s.jobs[k], s.open, base);
    }
    forall k, l | 0 <= k < l < |r.jobs| ensures Apart(r.jobs, k, l) {
      assert Apart(s.jobs, k, l);
      assert WellHeld(s.jobs[k], s.open, base) && WellHeld(s.jobs[l], s.open, base);
    }
    forall fd | fd in r.open && fd !in base ensures Held(r.jobs, fd) {
      if fd in s.open {
        assert Held(s.jobs, fd);
        var k :| 0 <= k < |s.jobs| && fd in HeldBy(s.jobs[k]);
        assert fd in HeldBy(r.jobs[k]);
      } else {
        assert fd in HeldBy(r.jobs[i]);
      }
    }
  }

  /** Changes that leave all inputs alone leave ownership alone. */
  lemma {:induction false} SameInputsOwn(s: Sys, jobs: Chain, base: set<int>)
    requires Owns(s, base) && |jobs| == |s.jobs| && forall k :: 0 <= k < |jobs| ==> jobs[k].input == s.jobs[k].input
    ensures Owns(s.(jobs := jobs), base)
  {
    assert forall k :: 0 <= k < |jobs| ==> WellHeld(s.jobs[k], s.open, base);
    ShrinkOwns(s, s.(jobs := jobs), base);
  }

  lemma {:induction false} DeactivateOwns(s: Sys, i: nat, base: set<int>)
    requires i < |s.jobs| && Owns(s, base)
    ensures var r := Deactivate(s, i);
            Owns(r, base) && r.jobs == s.jobs[i := JobState(false, None, false, None)]
  {
    var idle := JobState(false, None, false, None);
    FreeInputOwns(s, i, base);
    assert FreeInput(s, i).jobs[i := idle] == s.jobs[i := idle];
    SameInputsOwn(FreeInput(s, i), s.jobs[i := idle], base);
  }

  /** The job's link, if it has one, leads to a later job that has an input. */
  predicate LinkSafe(jobs: Chain, i: nat)
    requires i < |jobs|
  {
    jobs[i].linked.Some? ==> i < jobs[i].linked.value < |jobs| && jobs[jobs[i].linked.value].input.Some?
  }

  /** What disconnecting leaves behind: the job's input gone, the next job's pipe without a writing side. */
  lemma {:induction false} DisconnectOwns(s: Sys, i: nat, base: set<int>)
    requires i < |s.jobs| && Owns(s, base) && LinkSafe(s.jobs, i)
    ensures var r := Disconnect(s, i);
            && Owns(r, base) && |r.jobs| == |s.jobs|
            && r.jobs[i].input.None? && r.jobs[i].active == s.jobs[i].active && r.jobs[i].linked == s.jobs[i].linked
            && forall k :: 0 <= k < |s.jobs| && k != i ==>
                 && r.jobs[k].input.Some? == s.jobs[k].input.Some?
                 && r.jobs[k].active == s.jobs[k].active && r.jobs[k].linked == s.jobs[k].linked
  {
    var job := s.jobs[i];
    if job.linked.Some? {
      var l := job.linked.value;
      var e := s.jobs[l].input.value;
      if e.write > 0 {
        CloseWriteOwns(s, l, base);
        FreeInputOwns(WriteClosed(s, l), i, base);
      } else {
        FreeInputOwns(s, i, base);
      }
    } else {
      SameInputsOwn(s, s.jobs[i := job.(output := false)], base);
      FreeInputOwns(s.(jobs := s.jobs[i := job.(output := false)]), i, base);
    }
  }

  // ----- the stop sweep -----

  /** No active job from i on has a link to a job without an input. */
  ghost predicate StopSafe(jobs: Chain, i: nat) {
    forall k :: i <= k < |jobs| && jobs[k].active ==> LinkSafe(jobs, k)
  }

  lemma {:induction false} ItemStopOwns(s: Sys, i: nat, base: set<int>)
    requires i < |s.jobs| && Owns(s, base) && (s.jobs[i].active ==> LinkSafe(s.jobs, i))
    ensures var r := ItemStop(s, i);
            && Owns(r, base) && |r.jobs| == |s.jobs| && !r.jobs[i].active
            && (s.jobs[i].active || s.jobs[i].input.None? ==> r.jobs[i].input.None?)
            && forall k :: 0 <= k < |s.jobs| && k != i ==>
                 && r.jobs[k].input.Some? == s.jobs[k].input.Some?
                 && r.jobs[k].active == s.jobs[k].active && r.jobs[k].linked == s.jobs[k].linked
  {
    if s.jobs[i].active {
      DisconnectOwns(s, i, base);
      var d := Disconnect(s, i);
      SameInputsOwn(d, d.jobs[i := d.jobs[i].(active := false)], base);
    }
  }

  lemma {:induction false} SafetyOfRest(jobs: Chain, jobs': Chain, i: nat)
    requires |jobs| == |jobs'|
    requires forall k :: i <= k < |jobs| ==>
               && jobs'[k].active == jobs[k].active && jobs'[k].linked == jobs[k].linked
               && jobs'[k].input.Some? == jobs[k].input.Some?
    ensures StopSafe(jobs', i) <==> StopSafe(jobs, i)
  {
    assert forall k :: i <= k < |jobs| ==> LinkSafe(jobs, k) == LinkSafe(jobs', k);
  }

  /** A stop sweep over safe links stops every job, frees every input of an active job, and closes each of
      their descriptors once. */
  lemma {:induction false} StopFromOwns(s: Sys, i: nat, base: set<int>)
    requires i <= |s.jobs| && Owns(s, base) && StopSafe(s.jobs, i)
    ensures var r := StopFrom(s, i);
            && Owns(r, base) && |r.jobs| == |s.jobs|
            && (forall k :: 0 <= k < i ==>
                  r.jobs[k].active == s.jobs[k].active && r.jobs[k].input.Some? == s.jobs[k].input.Some?)
            && (forall k :: i <= k < |s.jobs| ==>
                  !r.jobs[k].active && (s.jobs[k].active || s.jobs[k].input.None? ==> r.jobs[k].input.None?))
    decreases |s.jobs| - i
  {
    if i < |s.jobs| {
      ItemStopOwns(s, i, base);
      SafetyOfRest(s.jobs, ItemStop(s, i).jobs, i + 1);
      StopFromOwns(ItemStop(s, i), i + 1, base);
    }
  }

  lemma {:induction false} FaultStays(s: Sys, i: nat)
    requires i <= |s.jobs| && s.fault
    ensures StopFrom(s, i).fault
    decreases |s.jobs| - i
  {
    if i < |s.jobs| {
      FaultStays(ItemStop(s, i), i + 1);
    }
  }

  /** Links only ever lead forward. */
  predicate LinksForward(jobs: Chain) {
    forall k :: 0 <= k < |jobs| && jobs[k].linked.Some? ==> k < jobs[k].linked.value < |jobs|
  }

  /** The stop sweep reads a missing input exactly when some active job is linked to a job that has none. */
  lemma {:induction false} StopFaultsIff(s: Sys, i: nat, base: set<int>)
    requires i <= |s.jobs| && Owns(s, base) && LinksForward(s.jobs)
    ensures StopFrom(s, i).fault <==> !StopSafe(s.jobs, i)
    decreases |s.jobs| - i
  {
    if StopSafe(s.jobs, i) {
      StopFromOwns(s, i, base);
    } else if s.jobs[i].active && !LinkSafe(s.jobs, i) {
      assert ItemStop(s, i).fault;
      FaultStays(ItemStop(s, i), i + 1);
    } else {
      UnsafeRest(s, i, base);
      StopFaultsIff(ItemStop(s, i), i + 1, base);
    }
  }

  lemma {:induction false} UnsafeRest(s: Sys, i: nat, base: set<int>)
    requires i < |s.jobs| && Owns(s, base) && LinksForward(s.jobs)
    requires !StopSafe(s.jobs, i) && (s.jobs[i].active ==> LinkSafe(s.jobs, i))
    ensures var r := ItemStop(s, i);
            |r.jobs| == |s.jobs| && Owns(r, base) && LinksForward(r.jobs) && !StopSafe(r.jobs, i + 1)
  {
    ItemStopOwns(s, i, base);
    SafetyOfRest(s.jobs, ItemStop(s, i).jobs, i + 1);
    assert ItemStop(s, i).jobs[i].linked == s.jobs[i].linked;
  }

  // ----- the start sweep -----

  /** What the world answers during one task: per job and attempt, to ::start and to the pause before the
      next attempt; and which jobs write to a disc. */
  datatype World = World(answers: (nat, nat) -> StartAnswer, pauses: (nat, nat) -> BurnResult, toDisc: nat -> bool)

  const MAX_JOB_START_ATTEMPTS: nat := 5

  /** rejilla_task_start_item: starts again, after a pause, as long as the job asks for it, five times at most. */
  function StartItem(s: Sys, i: nat, action: TaskAction, w: World, attempts: nat): (r: Started)
    requires i < |s.jobs| && attempts <= MAX_JOB_START_ATTEMPTS
    ensures |r.sys.jobs| == |s.jobs|
    decreases MAX_JOB_START_ATTEMPTS - attempts
  {
    var st := ItemStart(s, i, action, w.toDisc(i), w.answers(i, attempts));
    if st.result != Retry then st
    else if attempts >= MAX_JOB_START_ATTEMPTS then Started(st.sys, BurnErr)
    else if w.pauses(i, attempts) != BurnOk then Started(st.sys, w.pauses(i, attempts))
    else StartItem(st.sys, i, action, w, attempts + 1)
  }

  /** No more than six answers to ::start are ever looked at. */
  lemma {:induction false} AtMostSixStarts(s: Sys, i: nat, action: TaskAction, w: World, w': World, attempts: nat)
    requires i < |s.jobs| && attempts <= MAX_JOB_START_ATTEMPTS && w.toDisc(i) == w'.toDisc(i)
    requires forall a: nat {:trigger w.answers(i, a)} :: a < 6 ==> w.answers(i, a) == w'.answers(i, a)
    requires forall a: nat {:trigger w.pauses(i, a)} :: a < 5 ==> w.pauses(i, a) == w'.pauses(i, a)
    ensures StartItem(s, i, action, w, attempts) == StartItem(s, i, action, w', attempts)
    decreases MAX_JOB_START_ATTEMPTS - attempts
  {
    var st := ItemStart(s, i, action, w.toDisc(i), w.answers(i, attempts));
    if st.result == Retry && attempts < MAX_JOB_START_ATTEMPTS && w.pauses(i, attempts) == BurnOk {
      AtMostSixStarts(st.sys, i, action, w, w', attempts + 1);
    }
  }

  datatype Swept = Swept(sys: Sys, stopped: Option<BurnResult>, anyStarted: bool)

  /** rejilla_task_start_items: the active jobs below i, leader first. A job that cannot tell the size is
      forgiven; any other refusal ends the sweep. */
  function Sweep(s: Sys, i: nat, action: TaskAction, w: World, anyStarted: bool): (r: Swept)
    requires i <= |s.jobs|
    ensures |r.sys.jobs| == |s.jobs|
    decreases i
  {
    if i == 0 then Swept(s, None, anyStarted)
    else if !s.jobs[i - 1].active then Sweep(s, i - 1, action, w, anyStarted)
    else
      var st := StartItem(s, i - 1, action, w, 0);
      if st.result == NotSupported then Sweep(st.sys, i - 1, action, w, anyStarted)
      else if st.result != BurnOk then Swept(st.sys, Some(st.result), anyStarted)
      else Sweep(st.sys, i - 1, action, w, true)
  }

  /** No ::start asks to be tried again or claims to be done already. */
  ghost predicate Plain(w: World) {
    forall i, a {:trigger w.answers(i, a)} :: w.answers(i, a).start != Retry && w.answers(i, a).start != NotRunning
  }

  lemma {:induction false} NextActiveFrame(a: Chain, b: Chain, i: nat)
    requires i < |a| == |b| && forall k :: i < k < |a| ==> a[k].active == b[k].active
    ensures NextActive(a, i) == NextActive(b, i)
    decreases |a| - i
  {
    if i + 1 < |a| && !a[i + 1].active {
      NextActiveFrame(a, b, i + 1);
    }
  }

  /** A started job: linked to the next active one, and reading from a pipe unless it is the first. */
  predicate Wired(jobs: Chain, k: nat)
    requires k < |jobs|
  {
    jobs[k].active ==>
      && jobs[k].linked == NextActive(jobs, k)
      && (!IsFirstActive(jobs, k) ==> jobs[k].input.Some?)
  }

  predicate NoIdleInputs(jobs: Chain) {
    forall k :: 0 <= k < |jobs| && !jobs[k].active ==> jobs[k].input.None?
  }

  /** No link is left over from an earlier run, except perhaps on the last active job. */
  predicate NoStaleLinks(jobs: Chain, to: nat) {
    forall k :: 0 <= k < to && k < |jobs| && jobs[k].active && !IsLastActive(jobs, k) ==> jobs[k].linked.None?
  }

  /** During the start sweep: jobs from i on are started, with both ends of their pipes open; jobs below i have no
      input, but may have links left over from an earlier run. */
  ghost predicate Sweeping(s: Sys, i: nat, base: set<int>) {
    && i <= |s.jobs| && Owns(s, base) && NoIdleInputs(s.jobs)
    && (forall k :: i <= k < |s.jobs| ==> Wired(s.jobs, k))
    && (forall k :: i <= k < |s.jobs| && s.jobs[k].input.Some? ==> s.jobs[k].input.value.write > 0)
    && (forall k :: 0 <= k < i ==> s.jobs[k].input.None?)
  }

  lemma {:induction false} LinkOwns(s: Sys, i: nat, output: bool, base: set<int>)
    requires i < |s.jobs| && Owns(s, base)
    ensures Owns(s.(jobs := s.jobs[i := s.jobs[i].(linked := NextActive(s.jobs, i), output := output)]), base)
  {
    SameInputsOwn(s, s.jobs[i := s.jobs[i].(linked := NextActive(s.jobs, i), output := output)], base);
  }

  /** What ::start sees: the job linked, its input open. */
  function HandedToStart(s: Sys, i: nat, action: TaskAction, toDisc: bool, a: StartAnswer): (r: Option<Sys>)
    requires i < |s.jobs| && s.jobs[i].active
    ensures r.Some? ==> |r.value.jobs| == |s.jobs|
  {
    var prepare := NeedsPreparation(s, i, action, toDisc);
    var output := s.jobs[i].output || (prepare && a.prepare.output);
    var s1 := s.(jobs := s.jobs[i := s.jobs[i].(linked := NextActive(s.jobs, i), output := output)]);
    if prepare && a.prepare.Unprepared? then None
    else if IsFirstActive(s.jobs, i) then Some(s1)
    else if a.ends.None? || !FreshEnds(s.open, a.ends.value) then None
    else Some(OpenPipe(s1, i, a.ends.value))
  }

  /** rejilla_job_get_fd_out. */
  function GetFdOut(jobs: Chain, i: nat): Option<int>
    requires i < |jobs|
  {
    if jobs[i].linked.None? || jobs[i].linked.value >= |jobs| || jobs[jobs[i].linked.value].input.None? then None
    else Some(jobs[jobs[i].linked.value].input.value.write)
  }

  /** The jobs a job does not touch when it is started. */
  lemma {:induction false} HandedFrame(s: Sys, i: nat, action: TaskAction, toDisc: bool, a: StartAnswer)
    requires i < |s.jobs| && s.jobs[i].active
    ensures var h := HandedToStart(s, i, action, toDisc, a);
            h.Some? ==>
              && (forall k :: 0 <= k < |s.jobs| && k != i ==> h.value.jobs[k] == s.jobs[k])
              && h.value.jobs[i].active && h.value.jobs[i].linked == NextActive(s.jobs, i)
              && h.value.jobs[i].input == if IsFirstActive(s.jobs, i) then s.jobs[i].input else a.ends
  {
  }

  /** Every active job from i on but the first has a pipe to read from whose other end is open. */
  predicate Fed(s: Sys, i: nat) {
    forall k :: i <= k < |s.jobs| ==> IsFed(s, k)
  }

  predicate IsFed(s: Sys, k: nat)
    requires k < |s.jobs|
  {
    s.jobs[k].active && !IsFirstActive(s.jobs, k) ==>
      s.jobs[k].input.Some? && s.jobs[k].input.value.write > 0 && s.jobs[k].input.value.write in s.open
  }

  /** Whenever a job that is not the last active one is handed to ::start, and the later ones are fed, the job it is
      linked to is active and reads from an open pipe, so asking for the descriptor to write to succeeds. */
  lemma {:induction false} HandedJobCanWrite(s: Sys, i: nat, action: TaskAction, toDisc: bool, a: StartAnswer)
    requires i < |s.jobs| && s.jobs[i].active && Fed(s, i + 1) && !IsLastActive(s.jobs, i)
    requires HandedToStart(s, i, action, toDisc, a).Some?
    ensures var h := HandedToStart(s, i, action, toDisc, a).value;
            && h.jobs[i].linked.Some? && i < h.jobs[i].linked.value < |h.jobs| && h.jobs[h.jobs[i].linked.value].active
            && GetFdOut(h.jobs, i).Some? && GetFdOut(h.jobs, i).value > 0 && GetFdOut(h.jobs, i).value in h.open
  {
    HandedFrame(s, i, action, toDisc, a);
    var n := NextActive(s.jobs, i).value;
    assert IsFed(s, n) && !IsFirstActive(s.jobs, n);
  }

  /** The system in which a start fails before ::start is reached: the job is linked, and may have its output. */
  function Linked(s: Sys, i: nat, action: TaskAction, toDisc: bool, a: StartAnswer): (r: Sys)
    requires i < |s.jobs|
    ensures |r.jobs| == |s.jobs|
  {
    var output := s.jobs[i].output || (NeedsPreparation(s, i, action, toDisc) && a.prepare.output);
    s.(jobs := s.jobs[i := s.jobs[i].(linked := NextActive(s.jobs, i), output := output)])
  }

  /** A start is what is made of ::start's answer, if ::start is reached, and fails otherwise. */
  lemma {:induction false} StartedIs(s: Sys, i: nat, action: TaskAction, toDisc: bool, a: StartAnswer)
    requires i < |s.jobs| && s.jobs[i].active
    ensures var st, h := ItemStart(s, i, action, toDisc, a), HandedToStart(s, i, action, toDisc, a);
            && (h.Some? ==> st == Conclude(h.value, i, GetAction(s.jobs, i, action, toDisc), a.start))
            && (h.None? ==> st.sys == Linked(s, i, action, toDisc, a) && st.result in {BurnErr, NeedReload})
  {
    assert Link(s, i).jobs[i := Link(s, i).jobs[i].(output := true)]
           == s.jobs[i := s.jobs[i].(linked := NextActive(s.jobs, i), output := true)];
  }

  /** ::start is reached from a handed-over system or not at all. */
  lemma {:induction false} ItemStartCases(s: Sys, i: nat, action: TaskAction, toDisc: bool, a: StartAnswer)
    requires i < |s.jobs| && s.jobs[i].active && a.start != Retry && a.start != NotRunning
    ensures var st, h := ItemStart(s, i, action, toDisc, a), HandedToStart(s, i, action, toDisc, a);
            && st.result != Retry && st.result != NotRunning
            && (h.None? ==>
                  st.result != BurnOk && st.result != NotSupported && st.sys == Linked(s, i, action, toDisc, a))
            && (h.Some? ==>
                  if st.result == NotSupported then IsLastActive(s.jobs, i) && st.sys == Deactivate(h.value, i)
                  else st.sys == h.value)
  {
    StartedIs(s, i, action, toDisc, a);
  }

  lemma {:induction false} HandedOwns(s: Sys, i: nat, action: TaskAction, toDisc: bool, a: StartAnswer, base: set<int>)
    requires i < |s.jobs| && s.jobs[i].active && Owns(s, base) && s.jobs[i].input.None?
    requires HandedToStart(s, i, action, toDisc, a).Some?
    ensures Owns(HandedToStart(s, i, action, toDisc, a).value, base)
  {
    var output := s.jobs[i].output || (NeedsPreparation(s, i, action, toDisc) && a.prepare.output);
    LinkOwns(s, i, output, base);
    var s1 := s.(jobs := s.jobs[i := s.jobs[i].(linked := NextActive(s.jobs, i), output := output)]);
    if !IsFirstActive(s.jobs, i) {
      OpenPipeOwns(s1, i, a.ends.value, base);
    }
  }

  /** Jobs that look the same to their neighbours are wired the same. */
  lemma {:induction false} WiredFrame(a: Chain, b: Chain, k: nat)
    requires k < |a| == |b| && a[k] == b[k] && Wired(a, k)
    requires forall l :: 0 <= l < |a| ==> a[l].active == b[l].active
    ensures Wired(b, k)
  {
    NextActiveFrame(a, b, k);
  }

  lemma {:induction false} HandedSweeps(s: Sys, i: nat, action: TaskAction, toDisc: bool, a: StartAnswer,
                                        base: set<int>)
    requires Sweeping(s, i + 1, base) && s.jobs[i].active
    requires HandedToStart(s, i, action, toDisc, a).Some?
    ensures Sweeping(HandedToStart(s, i, action, toDisc, a).value, i, base)
  {
    var h := HandedToStart(s, i, action, toDisc, a).value;
    HandedFrame(s, i, action, toDisc, a);
    HandedOwns(s, i, action, toDisc, a, base);
    NextActiveFrame(s.jobs, h.jobs, i);
    forall k | i <= k < |h.jobs| ensures Wired(h.jobs, k) {
      if k > i {
        WiredFrame(s.jobs, h.jobs, k);
      }
    }
  }

  /** A started chain in which only the last job gives up is still a started chain. */
  lemma {:induction false} GivingUpSweeps(s: Sys, i: nat, base: set<int>)
    requires Sweeping(s, i, base) && i < |s.jobs| && IsLastActive(s.jobs, i)
    ensures Sweeping(Deactivate(s, i), i, base)
  {
    DeactivateOwns(s, i, base);
    var r := Deactivate(s, i);
    assert forall k :: i <= k < |r.jobs| ==> !r.jobs[k].active;
  }

  /** What has been started so far is safe to stop. */
  lemma {:induction false} SweepingIsSafe(s: Sys, i: nat, base: set<int>)
    requires Sweeping(s, i, base)
    ensures StopSafe(s.jobs, i)
  {
    forall k | i <= k < |s.jobs| && s.jobs[k].active ensures LinkSafe(s.jobs, k) {
      assert Wired(s.jobs, k);
      if s.jobs[k].linked.Some? {
        assert Wired(s.jobs, s.jobs[k].linked.value);
      }
    }
  }

  /** Below an active job, links left over are all that can make a stop unsafe. */
  lemma {:induction false} SafeBelow(jobs: Chain, i: nat)
    requires i < |jobs| && jobs[i].active && NoStaleLinks(jobs, i) && StopSafe(jobs, i)
    ensures StopSafe(jobs, 0)
  {
    forall k | 0 <= k < |jobs| && jobs[k].active ensures LinkSafe(jobs, k) {
      assert k < i ==> !IsLastActive(jobs, k);
    }
  }

  /** A job that fails before ::start is linked but has no pipe. */
  lemma {:induction false} FailedStartIsSafe(s: Sys, i: nat, output: bool, base: set<int>)
    requires i < |s.jobs| && Sweeping(s, i + 1, base) && s.jobs[i].active
    ensures var r := s.(jobs := s.jobs[i := s.jobs[i].(linked := NextActive(s.jobs, i), output := output)]);
            Owns(r, base) && NoIdleInputs(r.jobs) && StopSafe(r.jobs, i)
  {
    var r := s.(jobs := s.jobs[i := s.jobs[i].(linked := NextActive(s.jobs, i), output := output)]);
    LinkOwns(s, i, output, base);
    forall k | i <= k < |r.jobs| && r.jobs[k].active ensures LinkSafe(r.jobs, k) {
      if r.jobs[k].linked.Some? {
        assert k > i ==> Wired(s.jobs, k);
        assert Wired(s.jobs, r.jobs[k].linked.value);
      }
    }
  }

  lemma {:induction false} ForwardFrame(a: Chain, b: Chain, i: nat)
    requires i < |a| == |b| && LinksForward(a) && forall k :: 0 <= k < |a| && k != i ==> b[k] == a[k]
    requires b[i].linked.None? || b[i].linked == NextActive(a, i)
    ensures LinksForward(b)
  {
  }

  /** A start changes the job and nothing else, and its link leads to the next active one or is cleared. */
  lemma {:induction false} StartFrame(s: Sys, i: nat, action: TaskAction, toDisc: bool, a: StartAnswer)
    requires i < |s.jobs| && s.jobs[i].active
    ensures var st := ItemStart(s, i, action, toDisc, a);
            && (forall k :: 0 <= k < |s.jobs| && k != i ==> st.sys.jobs[k] == s.jobs[k])
            && (st.result != NotSupported ==> st.sys.jobs[i].active)
            && (st.sys.jobs[i].linked.None? || st.sys.jobs[i].linked == NextActive(s.jobs, i))
  {
    StartedIs(s, i, action, toDisc, a);
    HandedFrame(s, i, action, toDisc, a);
    hide ItemStart, HandedToStart;
  }

  /** One turn of the sweep. */
  lemma {:induction false} SweepTurn(s: Sys, i: nat, action: TaskAction, w: World, base: set<int>)
    requires i < |s.jobs| && Sweeping(s, i + 1, base) && s.jobs[i].active && Plain(w)
    ensures var st := StartItem(s, i, action, w, 0);
            && st.result != NotRunning
            && (st.result == BurnOk || st.result == NotSupported ==> Sweeping(st.sys, i, base))
            && (st.result != BurnOk && st.result != NotSupported ==>
                  Owns(st.sys, base) && NoIdleInputs(st.sys.jobs) && StopSafe(st.sys.jobs, i))
  {
    var toDisc, a := w.toDisc(i), w.answers(i, 0);
    ItemStartCases(s, i, action, toDisc, a);
    var st, h := ItemStart(s, i, action, toDisc, a), HandedToStart(s, i, action, toDisc, a);
    if h.None? {
      FailedStartIsSafe(s, i, st.sys.jobs[i].output, base);
    } else {
      HandedSweeps(s, i, action, toDisc, a, base);
      HandedFrame(s, i, action, toDisc, a);
      SweepingIsSafe(h.value, i, base);
      if st.result == NotSupported {
        GivingUpSweeps(h.value, i, base);
      }
    }
  }

  /** What a turn leaves alone. */
  lemma {:induction false} TurnFrame(s: Sys, i: nat, action: TaskAction, w: World)
    requires i < |s.jobs| && s.jobs[i].active && Plain(w)
    ensures var st := StartItem(s, i, action, w, 0);
            && (NoStaleLinks(s.jobs, i + 1) ==> NoStaleLinks(st.sys.jobs, i))
            && (st.result != NotSupported ==> st.sys.jobs[i].active)
            && (LinksForward(s.jobs) ==> LinksForward(st.sys.jobs))
  {
    ItemStartCases(s, i, action, w.toDisc(i), w.answers(i, 0));
    StartFrame(s, i, action, w.toDisc(i), w.answers(i, 0));
    var st := StartItem(s, i, action, w, 0);
    if LinksForward(s.jobs) {
      ForwardFrame(s.jobs, st.sys.jobs, i);
    }
    forall k | 0 <= k < i && st.sys.jobs[k].active && NoStaleLinks(s.jobs, i + 1) ensures st.sys.jobs[k].linked.None? {
      assert s.jobs[k] == st.sys.jobs[k] && !IsLastActive(s.jobs, k);
    }
  }

  /** The sweep passes over a job that is not active. */
  lemma {:induction false} IdleSweeps(s: Sys, i: nat, base: set<int>)
    requires 0 < i && Sweeping(s, i, base) && !s.jobs[i - 1].active
    ensures Sweeping(s, i - 1, base) && (NoStaleLinks(s.jobs, i) ==> NoStaleLinks(s.jobs, i - 1))
  {
  }

  /** The sweep either starts every job that is still active, and then all is safe to stop, or gives up; then links left
      over from an earlier run are all that can make a stop unsafe. */
  lemma {:induction false} SweepOutcome(s: Sys, i: nat, action: TaskAction, w: World, anyStarted: bool, base: set<int>)
    requires i <= |s.jobs| && Sweeping(s, i, base) && Plain(w)
    ensures var r := Sweep(s, i, action, w, anyStarted);
            && (r.stopped.None? ==> Sweeping(r.sys, 0, base))
            && (r.stopped.Some? ==> r.stopped.value != NotRunning)
            && Owns(r.sys, base) && NoIdleInputs(r.sys.jobs)
            && (r.stopped.None? || NoStaleLinks(s.jobs, i) ==> StopSafe(r.sys.jobs, 0))
    decreases i
  {
    hide StartItem, StopSafe, NoStaleLinks;
    if i == 0 {
      SweepingIsSafe(s, 0, base);
    } else if !s.jobs[i - 1].active {
      IdleSweeps(s, i, base);
      SweepOutcome(s, i - 1, action, w, anyStarted, base);
    } else {
      SweepTurn(s, i - 1, action, w, base);
      TurnFrame(s, i - 1, action, w);
      var st := StartItem(s, i - 1, action, w, 0);
      if st.result == NotSupported {
        SweepOutcome(st.sys, i - 1, action, w, anyStarted, base);
      } else if st.result == BurnOk {
        SweepOutcome(st.sys, i - 1, action, w, true, base);
      } else if NoStaleLinks(s.jobs, i) {
        SafeBelow(st.sys.jobs, i - 1);
      }
    }
  }

  /** Whatever the sweep does, links lead forward if they did before. */
  lemma {:induction false} SweepLinksForward(s: Sys, i: nat, action: TaskAction, w: World, anyStarted: bool)
    requires i <= |s.jobs| && Plain(w) && LinksForward(s.jobs)
    ensures LinksForward(Sweep(s, i, action, w, anyStarted).sys.jobs)
    decreases i
  {
    hide StartItem, LinksForward;
    if i > 0 {
      if !s.jobs[i - 1].active {
        SweepLinksForward(s, i - 1, action, w, anyStarted);
      } else {
        TurnFrame(s, i - 1, action, w);
        var st := StartItem(s, i - 1, action, w, 0);
        SweepLinksForward(st.sys, i - 1, action, w, anyStarted);
        SweepLinksForward(st.sys, i - 1, action, w, true);
      }
    }
  }

  /** The system in which the sweep that started with (s, i) arrives at job j, if it gets there. */
  function ArriveAt(s: Sys, i: nat, j: nat, action: TaskAction, w: World): (r: Option<Sys>)
    requires j < i <= |s.jobs|
    ensures r.Some? ==> |r.value.jobs| == |s.jobs|
    decreases i
  {
    if i - 1 == j then Some(s)
    else if !s.jobs[i - 1].active then ArriveAt(s, i - 1, j, action, w)
    else
      var st := StartItem(s, i - 1, action, w, 0);
      if st.result == BurnOk || st.result == NotSupported then ArriveAt(st.sys, i - 1, j, action, w) else None
  }

  /** One attempt asks for another. */
  predicate AsksAgain(s: Sys, i: nat, action: TaskAction, w: World, n: nat)
    requires i < |s.jobs|
  {
    && n < MAX_JOB_START_ATTEMPTS && w.pauses(i, n) == BurnOk
    && ItemStart(s, i, action, w.toDisc(i), w.answers(i, n)).result == Retry
  }

  /** The system before attempt n to start a job, if it comes to that; s is the system before attempt k. */
  function AttemptAt(s: Sys, i: nat, action: TaskAction, w: World, k: nat, n: nat): (r: Option<Sys>)
    requires i < |s.jobs| && k <= n
    ensures r.Some? ==> |r.value.jobs| == |s.jobs|
    decreases n - k
  {
    if k == n then Some(s)
    else if AsksAgain(s, i, action, w, k) then
      AttemptAt(ItemStart(s, i, action, w.toDisc(i), w.answers(i, k)).sys, i, action, w, k + 1, n)
    else None
  }

  /** These are the systems StartItem goes through. */
  lemma {:induction false} AttemptsAreThose(s: Sys, i: nat, action: TaskAction, w: World, k: nat, n: nat)
    requires i < |s.jobs| && k <= n && k <= MAX_JOB_START_ATTEMPTS && AttemptAt(s, i, action, w, k, n).Some?
    ensures n <= MAX_JOB_START_ATTEMPTS
    ensures StartItem(s, i, action, w, k) == StartItem(AttemptAt(s, i, action, w, k, n).value, i, action, w, n)
    decreases n - k
  {
    if k < n {
      AttemptsAreThose(ItemStart(s, i, action, w.toDisc(i), w.answers(i, k)).sys, i, action, w, k + 1, n);
    }
  }

  /** Starting this job comes to this, and that is a refusal. */
  predicate StartsAs(s: Sys, j: nat, action: TaskAction, w: World, result: BurnResult) {
    && j < |s.jobs| && s.jobs[j].active && result != BurnOk && result != NotSupported
    && StartItem(s, j, action, w, 0).result == result
  }

  /** A sweep stops only for a job that was refused when it was its turn, and with what that job came to. */
  lemma {:induction false} SweepStopsFor(s: Sys, i: nat, action: TaskAction, w: World, anyStarted: bool)
    returns (j: nat)
    requires i <= |s.jobs|
    ensures var r := Sweep(s, i, action, w, anyStarted);
            r.stopped.Some? ==>
              && j < i && ArriveAt(s, i, j, action, w).Some?
              && StartsAs(ArriveAt(s, i, j, action, w).value, j, action, w, r.stopped.value)
    decreases i
  {
    j := 0;
    if i > 0 {
      var st := StartItem(s, i - 1, action, w, 0);
      if !s.jobs[i - 1].active {
        j := SweepStopsFor(s, i - 1, action, w, anyStarted);
      } else if st.result == NotSupported {
        j := SweepStopsFor(st.sys, i - 1, action, w, anyStarted);
      } else if st.result != BurnOk {
        j := i - 1;
      } else {
        j := SweepStopsFor(st.sys, i - 1, action, w, true);
      }
    }
  }

  lemma {:induction false} FedStart(s: Sys, i: nat, action: TaskAction, toDisc: bool, a: StartAnswer)
    requires i < |s.jobs| && s.jobs[i].active && Fed(s, i + 1)
    ensures var st := ItemStart(s, i, action, toDisc, a);
            && (st.result in {BurnOk, NotSupported, Retry} ==> Fed(st.sys, i))
            && (st.result == Retry ==> st.sys.jobs[i].active && Fed(st.sys, i + 1))
  {
    var st, h := ItemStart(s, i, action, toDisc, a), HandedToStart(s, i, action, toDisc, a);
    StartedIs(s, i, action, toDisc, a);
    if h.Some? {
      HandedFrame(s, i, action, toDisc, a);
      FedHanded(s, h.value, i, action, toDisc, a);
      if st.result == NotSupported && a.start == NotSupported {
        LastGivesUp(h.value, i);
      }
    }
  }

  lemma {:induction false} FedHanded(s: Sys, h: Sys, i: nat, action: TaskAction, toDisc: bool, a: StartAnswer)
    requires i < |s.jobs| && s.jobs[i].active && Fed(s, i + 1) && HandedToStart(s, i, action, toDisc, a) == Some(h)
    ensures Fed(h, i) && s.open <= h.open
  {
    HandedFrame(s, i, action, toDisc, a);
    forall k | i <= k < |h.jobs| ensures IsFed(h, k) {
      assert IsFirstActive(s.jobs, k) <==> IsFirstActive(h.jobs, k);
      assert k > i ==> IsFed(s, k);
    }
  }

  lemma {:induction false} LastGivesUp(h: Sys, i: nat)
    requires i < |h.jobs| && IsLastActive(h.jobs, i)
    ensures Fed(Deactivate(h, i), i)
  {
    var r := Deactivate(h, i);
    assert forall k :: i <= k < |r.jobs| ==> !r.jobs[k].active;
  }

  lemma {:induction false} FedAttempt(s: Sys, i: nat, action: TaskAction, w: World, k: nat, n: nat)
    requires i < |s.jobs| && s.jobs[i].active && Fed(s, i + 1) && k <= n && AttemptAt(s, i, action, w, k, n).Some?
    ensures var p := AttemptAt(s, i, action, w, k, n).value; p.jobs[i].active && Fed(p, i + 1)
    decreases n - k
  {
    if k < n {
      FedStart(s, i, action, w.toDisc(i), w.answers(i, k));
      FedAttempt(ItemStart(s, i, action, w.toDisc(i), w.answers(i, k)).sys, i, action, w, k + 1, n);
    }
  }

  /** StartItem, one attempt at a time: `more` if there is another one, from the system s'. */
  lemma {:induction false} FedOnce(s: Sys, i: nat, action: TaskAction, w: World, attempts: nat)
    returns (more: bool, s': Sys)
    requires i < |s.jobs| && s.jobs[i].active && Fed(s, i + 1) && attempts <= MAX_JOB_START_ATTEMPTS
    ensures |s'.jobs| == |s.jobs|
    ensures more ==> attempts < MAX_JOB_START_ATTEMPTS && s'.jobs[i].active && Fed(s', i + 1)
                     && StartItem(s, i, action, w, attempts) == StartItem(s', i, action, w, attempts + 1)
    ensures var st := StartItem(s, i, action, w, attempts);
            !more && st.result in {BurnOk, NotSupported} ==> Fed(st.sys, i)
  {
    FedStart(s, i, action, w.toDisc(i), w.answers(i, attempts));
    var st := ItemStart(s, i, action, w.toDisc(i), w.answers(i, attempts));
    s' := st.sys;
    more := st.result == Retry && attempts < MAX_JOB_START_ATTEMPTS && w.pauses(i, attempts) == BurnOk;
  }

  lemma {:induction false} FedStartItem(s: Sys, i: nat, action: TaskAction, w: World, attempts: nat)
    requires i < |s.jobs| && s.jobs[i].active && Fed(s, i + 1) && attempts <= MAX_JOB_START_ATTEMPTS
    ensures var st := StartItem(s, i, action, w, attempts);
            st.result in {BurnOk, NotSupported} ==> Fed(st.sys, i)
    decreases MAX_JOB_START_ATTEMPTS - attempts
  {
    var more, s' := FedOnce(s, i, action, w, attempts);
    if more {
      FedStartItem(s', i, action, w, attempts + 1);
    }
  }

  lemma {:induction false} FedArrives(s: Sys, i: nat, j: nat, action: TaskAction, w: World)
    requires j < i <= |s.jobs| && Fed(s, i) && ArriveAt(s, i, j, action, w).Some?
    ensures Fed(ArriveAt(s, i, j, action, w).value, j + 1)
    decreases i
  {
    if i - 1 != j {
      if !s.jobs[i - 1].active {
        FedArrives(s, i - 1, j, action, w);
      } else {
        FedStartItem(s, i - 1, action, w, 0);
        FedArrives(StartItem(s, i - 1, action, w, 0).sys, i - 1, j, action, w);
      }
    }
  }

  /** Every sweep, from whatever system and with whatever answers, at every attempt: a job that reaches ::start and
      is not the last active one finds its link active and an open pipe to write to, also when later jobs have
      given up, were started several times, or carry links from an earlier run. */
  lemma {:induction false} EveryHandedJobCanWrite(s: Sys, j: nat, n: nat, action: TaskAction, w: World, at: Sys)
    requires j < |s.jobs| && ArriveAt(s, |s.jobs|, j, action, w).Some?
    requires AttemptAt(ArriveAt(s, |s.jobs|, j, action, w).value, j, action, w, 0, n) == Some(at)
    ensures |at.jobs| == |s.jobs|
    ensures at.jobs[j].active && !IsLastActive(at.jobs, j) ==>
              var h := HandedToStart(at, j, action, w.toDisc(j), w.answers(j, n));
              h.Some? ==>
                && h.value.jobs[j].linked.Some? && j < h.value.jobs[j].linked.value < |h.value.jobs|
                && h.value.jobs[h.value.jobs[j].linked.value].active
                && GetFdOut(h.value.jobs, j).Some?
                && GetFdOut(h.value.jobs, j).value > 0 && GetFdOut(h.value.jobs, j).value in h.value.open
  {
    var arrived := ArriveAt(s, |s.jobs|, j, action, w).value;
    FedArrives(s, |s.jobs|, j, action, w);
    if at.jobs[j].active && !IsLastActive(at.jobs, j) {
      assert AsksAgain(arrived, j, action, w, 0) ==> arrived.jobs[j].active;
      FedAttempt(arrived, j, action, w, 0, n);
      if HandedToStart(at, j, action, w.toDisc(j), w.answers(j, n)).Some? {
        HandedJobCanWrite(at, j, action, w.toDisc(j), w.answers(j, n));
      }
    }
  }

  // ----- while the task runs -----

  /** What jobs and user may do while the main loop runs. `stopOk` is the answer of the plugin's ::stop. */
  datatype Event =
    | FinishedTrack(job: nat, stopOk: bool, moreTracks: bool, restart: StartAnswer)
    | FinishedSession(job: nat, stopOk: bool)
    | JobFailed(job: nat)
    | Cancelled

  datatype Run = Run(sys: Sys, looping: bool)

  function StopAll(s: Sys): (r: Run)
    ensures |r.sys.jobs| == |s.jobs|
  {
    Run(StopFrom(s, 0), false)
  }

  function OnFinishedTrack(s: Sys, e: Event, action: TaskAction, w: World): (r: Run)
    requires e.FinishedTrack? && e.job < |s.jobs|
    ensures |r.sys.jobs| == |s.jobs|
  {
    if IsFirstActive(s.jobs, e.job) then
      if !e.stopOk then StopAll(s)
      else if e.moreTracks then
        var st := ItemStart(s, 0, action, w.toDisc(0), e.restart);
        if st.result == BurnOk then Run(st.sys, true) else StopAll(st.sys)
      else if !IsLastActive(s.jobs, e.job) then Run(Deactivate(Disconnect(s, e.job), e.job), true)
      else StopAll(s)
    else StopAll(s)
  }

  function OnFinishedSession(s: Sys, e: Event): (r: Run)
    requires e.FinishedSession? && e.job < |s.jobs|
    ensures |r.sys.jobs| == |s.jobs|
  {
    if IsLastActive(s.jobs, e.job) || !IsFirstActive(s.jobs, e.job) || !e.stopOk then StopAll(s)
    else
      var d := Disconnect(s, e.job);
      Run(d.(jobs := d.jobs[e.job := d.jobs[e.job].(active := false)]), true)
  }

  /** Only active jobs report; once the loop has quit nothing happens any more. */
  function Step(r: Run, e: Event, action: TaskAction, w: World): (r': Run)
    ensures |r'.sys.jobs| == |r.sys.jobs|
  {
    if !r.looping then r
    else
      match e
      case Cancelled => StopAll(r.sys)
      case JobFailed(j) => if j < |r.sys.jobs| && r.sys.jobs[j].active then StopAll(r.sys) else r
      case FinishedTrack(j, _, _, _) =>
        if j < |r.sys.jobs| && r.sys.jobs[j].active then OnFinishedTrack(r.sys, e, action, w) else r
      case FinishedSession(j, _) =>
        if j < |r.sys.jobs| && r.sys.jobs[j].active then OnFinishedSession(r.sys, e) else r
  }

  function Steps(r: Run, events: seq<Event>, action: TaskAction, w: World): (r': Run)
    ensures |r'.sys.jobs| == |r.sys.jobs|
    decreases |events|
  {
    if events == [] then r else Steps(Step(r, events[0], action, w), events[1..], action, w)
  }

  /** rejilla_task_start once the items are activated. When every job gave up the size, no job is active and
      all further sweeps over the remaining tracks do nothing. */
  function RunTask(s: Sys, action: TaskAction, w: World, events: seq<Event>): (r: Run)
    ensures |r.sys.jobs| == |s.jobs|
  {
    var swept := Sweep(s, |s.jobs|, action, w, false);
    if swept.stopped.Some? || !swept.anyStarted then StopAll(swept.sys)
    else Steps(Run(swept.sys, true), events, action, w)
  }

  /** Holds as long as the loop runs. */
  ghost predicate Flowing(s: Sys, base: set<int>) {
    && Owns(s, base) && NoIdleInputs(s.jobs)
    && forall k :: 0 <= k < |s.jobs| ==> Wired(s.jobs, k)
  }

  /** All quiet: nothing active, no input, and exactly the foreign descriptors open. */
  ghost predicate Quiet(s: Sys, base: set<int>) {
    && !s.fault && s.open == base
    && forall k :: 0 <= k < |s.jobs| ==> !s.jobs[k].active && s.jobs[k].input.None?
  }

  lemma {:induction false} FlowingIsSafe(s: Sys, base: set<int>)
    requires Flowing(s, base)
    ensures StopSafe(s.jobs, 0)
  {
    forall k | 0 <= k < |s.jobs| && s.jobs[k].active ensures LinkSafe(s.jobs, k) {
      assert Wired(s.jobs, k);
      if s.jobs[k].linked.Some? {
        assert Wired(s.jobs, s.jobs[k].linked.value);
      }
    }
  }

  lemma {:induction false} StoppedIsQuiet(s: Sys, base: set<int>)
    requires Owns(s, base) && NoIdleInputs(s.jobs) && StopSafe(s.jobs, 0)
    ensures Quiet(StopFrom(s, 0), base)
  {
    StopFromOwns(s, 0, base);
    var r := StopFrom(s, 0);
    forall fd | fd in r.open ensures fd in base {
      var held := Held(r.jobs, fd);
    }
  }

  /** Opening a pipe over another one gives up the ends of the first. */
  lemma {:induction false} AgainOwns(s: Sys, i: nat, ends: Ends, base: set<int>)
    requires i < |s.jobs| && Owns(s, base) && s.jobs[i].input.Some? && FreshEnds(s.open, ends)
    ensures Owns(OpenPipe(s, i, ends), base + HeldBy(s.jobs[i]))
  {
    var gone := s.(jobs := s.jobs[i := s.jobs[i].(input := None)]);
    var more := base + HeldBy(s.jobs[i]);
    assert WellHeld(s.jobs[i], s.open, base);
    forall k | 0 <= k < |gone.jobs| ensures WellHeld(gone.jobs[k], gone.open, more) {
      assert WellHeld(s.jobs[k], s.open, base);
      assert k < i ==> Apart(s.jobs, k, i);
      assert i < k ==> Apart(s.jobs, i, k);
    }
    forall k, l | 0 <= k < l < |gone.jobs| ensures Apart(gone.jobs, k, l) {
      assert Apart(s.jobs, k, l);
    }
    forall fd | fd in gone.open && fd !in more ensures Held(gone.jobs, fd) {
      assert Held(s.jobs, fd);
      var k :| 0 <= k < |s.jobs| && fd in HeldBy(s.jobs[k]);
      assert fd in HeldBy(gone.jobs[k]);
    }
    OpenPipeOwns(gone, i, ends, more);
    assert OpenPipe(gone, i, ends) == OpenPipe(s, i, ends);
  }

  /** Starting a started job again: the first job opens nothing, any other loses both ends of its pipe. */
  lemma {:induction false} AgainHands(s: Sys, i: nat, action: TaskAction, toDisc: bool, a: StartAnswer, base: set<int>)
    requires i < |s.jobs| && s.jobs[i].active && Owns(s, base) && Wired(s.jobs, i)
    requires s.jobs[i].input.Some? ==> s.jobs[i].input.value.write > 0
    requires HandedToStart(s, i, action, toDisc, a).Some?
    ensures var h, lost := HandedToStart(s, i, action, toDisc, a).value, HeldBy(s.jobs[i]);
            && (IsFirstActive(s.jobs, i) ==> Owns(h, base))
            && (!IsFirstActive(s.jobs, i) ==> Owns(h, base + lost) && |lost| == 2 && lost !! base)
  {
    var output := s.jobs[i].output || (NeedsPreparation(s, i, action, toDisc) && a.prepare.output);
    var s1 := s.(jobs := s.jobs[i := s.jobs[i].(linked := NextActive(s.jobs, i), output := output)]);
    LinkOwns(s, i, output, base);
    assert WellHeld(s.jobs[i], s.open, base);
    if !IsFirstActive(s.jobs, i) {
      AgainOwns(s1, i, a.ends.value, base);
      var e := s.jobs[i].input.value;
      assert HeldBy(s.jobs[i]) == {e.read, e.write} == HeldBy(s1.jobs[i]) && e.read != e.write;
    }
  }

  lemma {:induction false} AgainSweeps(s: Sys, i: nat, action: TaskAction, toDisc: bool, a: StartAnswer, base: set<int>)
    requires i < |s.jobs| && s.jobs[i].active && Sweeping(s, i, base)
    requires HandedToStart(s, i, action, toDisc, a).Some?
    ensures var h, lost := HandedToStart(s, i, action, toDisc, a).value, HeldBy(s.jobs[i]);
            && h.jobs[i].active && (IsFirstActive(h.jobs, i) <==> IsFirstActive(s.jobs, i))
            && (IsFirstActive(s.jobs, i) ==> Sweeping(h, i, base))
            && (!IsFirstActive(s.jobs, i) ==> Sweeping(h, i, base + lost) && |lost| == 2 && lost !! base)
  {
    var h := HandedToStart(s, i, action, toDisc, a).value;
    assert Wired(s.jobs, i);
    AgainHands(s, i, action, toDisc, a, base);
    HandedFrame(s, i, action, toDisc, a);
    NextActiveFrame(s.jobs, h.jobs, i);
    forall k | i <= k < |h.jobs| ensures Wired(h.jobs, k) {
      if k > i {
        WiredFrame(s.jobs, h.jobs, k);
      }
    }
  }

  /** An attempt that asks for another leaves what ::start was handed. */
  lemma {:induction false} AskingHands(s: Sys, i: nat, action: TaskAction, w: World, k: nat)
    requires i < |s.jobs| && s.jobs[i].active && AsksAgain(s, i, action, w, k)
    ensures HandedToStart(s, i, action, w.toDisc(i), w.answers(i, k))
            == Some(ItemStart(s, i, action, w.toDisc(i), w.answers(i, k)).sys)
  {
    StartedIs(s, i, action, w.toDisc(i), w.answers(i, k));
  }

  /** After n calls of ::start for one job the sweep goes on, with these descriptors given up; `tidy` if no links are
      left over from an earlier run. */
  ghost predicate StartedTimes(p: Sys, i: nat, first: bool, tidy: bool, n: nat, base: set<int>, lost: set<int>) {
    && i < |p.jobs| && p.jobs[i].active && (IsFirstActive(p.jobs, i) <==> first) && Sweeping(p, i, base + lost)
    && (tidy ==> NoStaleLinks(p.jobs, i))
    && n > 0 && lost !! base && |lost| == if first then 0 else 2 * (n - 1)
  }

  lemma {:induction false} StartedOnceMore(before: Sys, i: nat, first: bool, tidy: bool, n: nat, action: TaskAction,
                                           toDisc: bool, a: StartAnswer, base: set<int>, earlier: set<int>)
    returns (lost: set<int>)
    requires StartedTimes(before, i, first, tidy, n, base, earlier)
    requires HandedToStart(before, i, action, toDisc, a).Some?
    ensures StartedTimes(HandedToStart(before, i, action, toDisc, a).value, i, first, tidy, n + 1, base, lost)
  {
    AgainSweeps(before, i, action, toDisc, a, base + earlier);
    if tidy {
      StaysTidy(before, i, action, toDisc, a);
    }
    if first {
      lost := earlier;
    } else {
      lost := earlier + HeldBy(before.jobs[i]);
      assert base + lost == base + earlier + HeldBy(before.jobs[i]);
    }
  }

  lemma {:induction false} StaysTidy(s: Sys, i: nat, action: TaskAction, toDisc: bool, a: StartAnswer)
    requires i < |s.jobs| && s.jobs[i].active && NoStaleLinks(s.jobs, i) && HandedToStart(s, i, action, toDisc, a).Some?
    ensures NoStaleLinks(HandedToStart(s, i, action, toDisc, a).value.jobs, i)
  {
    HandedFrame(s, i, action, toDisc, a);
    assert forall k :: 0 <= k < i ==> !IsLastActive(s.jobs, k);
  }

  lemma {:induction false} StartedTheFirstTime(s: Sys, i: nat, action: TaskAction, toDisc: bool, a: StartAnswer,
                                               base: set<int>)
    requires i < |s.jobs| && s.jobs[i].active && Sweeping(s, i + 1, base)
             && HandedToStart(s, i, action, toDisc, a).Some?
    ensures StartedTimes(HandedToStart(s, i, action, toDisc, a).value, i, IsFirstActive(s.jobs, i),
                         NoStaleLinks(s.jobs, i), 1, base, {})
  {
    HandedSweeps(s, i, action, toDisc, a, base);
    HandedFrame(s, i, action, toDisc, a);
    if NoStaleLinks(s.jobs, i) {
      StaysTidy(s, i, action, toDisc, a);
    }
    assert base + {} == base;
  }

  lemma {:induction false} StartsGoOn(s: Sys, i: nat, first: bool, tidy: bool, action: TaskAction, w: World, k: nat,
                                      n: nat, base: set<int>, earlier: set<int>) returns (lost: set<int>)
    requires StartedTimes(s, i, first, tidy, k, base, earlier) && k <= n && AttemptAt(s, i, action, w, k, n).Some?
    ensures StartedTimes(AttemptAt(s, i, action, w, k, n).value, i, first, tidy, n, base, lost)
    decreases n - k
  {
    lost := earlier;
    if k < n {
      var more := ItemStart(s, i, action, w.toDisc(i), w.answers(i, k)).sys;
      AskingHands(s, i, action, w, k);
      lost := StartedOnceMore(s, i, first, tidy, k, action, w.toDisc(i), w.answers(i, k), base, earlier);
      lost := StartsGoOn(more, i, first, tidy, action, w, k + 1, n, base, lost);
    }
  }

  /** What repeated starts cost: each ::start after the first leaves the two ends of the pipe before it open, for
      every job but the first active one, and a stop of everything leaves exactly those open. The stop is safe unless a
      link left over from an earlier run makes it unsafe. */
  lemma {:induction false} RepeatedStartsLeak(s: Sys, i: nat, action: TaskAction, w: World, n: nat, base: set<int>)
    returns (lost: set<int>)
    requires i < |s.jobs| && s.jobs[i].active && Sweeping(s, i + 1, base)
    requires n > 0 && AttemptAt(s, i, action, w, 0, n).Some?
    ensures lost !! base && |lost| == if IsFirstActive(s.jobs, i) then 0 else 2 * (n - 1)
    ensures var p := AttemptAt(s, i, action, w, 0, n).value;
            && (NoStaleLinks(s.jobs, i) ==> StopSafe(p.jobs, 0))
            && (StopSafe(p.jobs, 0) ==> Quiet(StopFrom(p, 0), base + lost))
  {
    AskingHands(s, i, action, w, 0);
    StartedTheFirstTime(s, i, action, w.toDisc(i), w.answers(i, 0), base);
    lost := StartsGoOn(ItemStart(s, i, action, w.toDisc(i), w.answers(i, 0)).sys, i, IsFirstActive(s.jobs, i),
                       NoStaleLinks(s.jobs, i), action, w, 1, n, base, {});
    var p := AttemptAt(s, i, action, w, 0, n).value;
    SweepingIsSafe(p, i, base + lost);
    if NoStaleLinks(s.jobs, i) {
      SafeBelow(p.jobs, i);
    }
    if StopSafe(p.jobs, 0) {
      StoppedIsQuiet(p, base + lost);
    }
  }

  /** A first job leaving the chain, its pipe to the next one closed on its side. */
  lemma {:induction false} FirstLeaves(s: Sys, i: nat, base: set<int>)
    requires Flowing(s, base) && i < |s.jobs| && IsFirstActive(s.jobs, i)
    ensures Flowing(Deactivate(Disconnect(s, i), i), base)
    ensures var d := Disconnect(s, i);
            Flowing(d.(jobs := d.jobs[i := d.jobs[i].(active := false)]), base)
  {
    FlowingIsSafe(s, base);
    DisconnectOwns(s, i, base);
    var d := Disconnect(s, i);
    DeactivateOwns(d, i, base);
    var left := d.jobs[i := d.jobs[i].(active := false)];
    SameInputsOwn(d, left, base);
    var gone := Deactivate(d, i).jobs;
    forall k | 0 <= k < |s.jobs| ensures Wired(gone, k) && Wired(left, k) {
      if k != i && s.jobs[k].active {
        assert Wired(s.jobs, k) && k > i;
        NextActiveFrame(s.jobs, gone, k);
        NextActiveFrame(s.jobs, left, k);
        assert !IsFirstActive(s.jobs, k);
      }
    }
  }

  lemma {:induction false} RelinkFlows(s: Sys, output: bool, base: set<int>)
    requires Flowing(s, base) && |s.jobs| > 0 && s.jobs[0].active
    ensures Flowing(s.(jobs := s.jobs[0 := s.jobs[0].(linked := NextActive(s.jobs, 0), output := output)]), base)
  {
    var s1 := s.(jobs := s.jobs[0 := s.jobs[0].(linked := NextActive(s.jobs, 0), output := output)]);
    LinkOwns(s, 0, output, base);
    forall k | 0 <= k < |s.jobs| ensures Wired(s1.jobs, k) {
      assert Wired(s.jobs, k);
      NextActiveFrame(s.jobs, s1.jobs, k);
    }
  }

  lemma {:induction false} LastGivesUpFlows(s: Sys, base: set<int>)
    requires Flowing(s, base) && |s.jobs| > 0 && IsLastActive(s.jobs, 0)
    ensures Flowing(Deactivate(s, 0), base)
  {
    DeactivateOwns(s, 0, base);
    assert forall k :: 0 <= k < |s.jobs| ==> !Deactivate(s, 0).jobs[k].active;
  }

  /** Starting the very first job again opens no pipe. */
  lemma {:induction false} RestartFlows(s: Sys, action: TaskAction, toDisc: bool, a: StartAnswer, base: set<int>)
    requires Flowing(s, base) && |s.jobs| > 0
    ensures Flowing(ItemStart(s, 0, action, toDisc, a).sys, base)
  {
    if s.jobs[0].active {
      var output := s.jobs[0].output || (NeedsPreparation(s, 0, action, toDisc) && a.prepare.output);
      var s1 := s.(jobs := s.jobs[0 := s.jobs[0].(linked := NextActive(s.jobs, 0), output := output)]);
      RelinkFlows(s, output, base);
      assert Link(s, 0).jobs[0 := Link(s, 0).jobs[0].(output := true)]
             == s.jobs[0 := s.jobs[0].(linked := NextActive(s.jobs, 0), output := true)];
      if ItemStart(s, 0, action, toDisc, a).result == NotSupported && a.start == NotSupported
        && IsLastActive(s.jobs, 0) {
        LastGivesUpFlows(s1, base);
      }
    }
  }

  lemma {:induction false} StepFlows(r: Run, e: Event, action: TaskAction, w: World, base: set<int>)
    requires if r.looping then Flowing(r.sys, base) else Quiet(r.sys, base)
    ensures var r' := Step(r, e, action, w);
            if r'.looping then Flowing(r'.sys, base) else Quiet(r'.sys, base)
  {
    if r.looping {
      FlowingIsSafe(r.sys, base);
      StoppedIsQuiet(r.sys, base);
      if (e.FinishedTrack? || e.FinishedSession?) && e.job < |r.sys.jobs| && r.sys.jobs[e.job].active {
        var a := if e.FinishedTrack? then e.restart else StartAnswer(Prepared(false), None, BurnOk);
        RestartFlows(r.sys, action, w.toDisc(0), a, base);
        if e.FinishedTrack? && e.moreTracks {
          var st := ItemStart(r.sys, 0, action, w.toDisc(0), e.restart);
          FlowingIsSafe(st.sys, base);
          StoppedIsQuiet(st.sys, base);
        }
        if IsFirstActive(r.sys.jobs, e.job) {
          FirstLeaves(r.sys, e.job, base);
        }
      }
    }
  }

  /** What ends the loop: it goes on after a track only if the first job finished it and is started for the next one, or
      has jobs behind it and leaves the chain; after a session only if the first job leaves the chain so. */
  lemma {:induction false} LoopGoesOnIff(r: Run, e: Event, action: TaskAction, w: World)
    requires r.looping
    ensures var r' := Step(r, e, action, w);
            match e
            case Cancelled => !r'.looping
            case JobFailed(j) => r'.looping <==> !(j < |r.sys.jobs| && r.sys.jobs[j].active)
            case FinishedTrack(j, stopOk, more, restart) =>
              j < |r.sys.jobs| && r.sys.jobs[j].active ==>
                var first, last := IsFirstActive(r.sys.jobs, j), IsLastActive(r.sys.jobs, j);
                && (r'.looping <==>
                      && first && stopOk
                      && if more then ItemStart(r.sys, 0, action, w.toDisc(0), restart).result == BurnOk else !last)
                && (r'.looping && !more ==> !r'.sys.jobs[j].active && r'.sys.jobs[j].input.None?)
            case FinishedSession(j, stopOk) =>
              j < |r.sys.jobs| && r.sys.jobs[j].active ==>
                && (r'.looping <==> IsFirstActive(r.sys.jobs, j) && !IsLastActive(r.sys.jobs, j) && stopOk)
                && (r'.looping ==> !r'.sys.jobs[j].active && r'.sys.jobs[j].input.None?)
  {
  }

  lemma {:induction false} StepsFlow(r: Run, events: seq<Event>, action: TaskAction, w: World, base: set<int>)
    requires if r.looping then Flowing(r.sys, base) else Quiet(r.sys, base)
    ensures var r' := Steps(r, events, action, w);
            if r'.looping then Flowing(r'.sys, base) else Quiet(r'.sys, base)
    decreases |events|
  {
    if events != [] {
      StepFlows(r, events[0], action, w, base);
      StepsFlow(Step(r, events[0], action, w), events[1..], action, w, base);
    }
  }

  /** A task about to be started: nothing went wrong so far and no pipe is open. Links may be left over. */
  predicate NoPipesYet(s: Sys) {
    !s.fault && forall k :: 0 <= k < |s.jobs| ==> s.jobs[k].input.None?
  }

  /** The same without a link left over from an earlier run, except perhaps on the last active job. */
  predicate ReadyToStart(s: Sys) {
    NoPipesYet(s) && NoStaleLinks(s.jobs, |s.jobs|)
  }

  lemma {:induction false} ReadySweeps(s: Sys)
    requires NoPipesYet(s)
    ensures Sweeping(s, |s.jobs|, s.open)
  {
    forall k, l | 0 <= k < l < |s.jobs| ensures Apart(s.jobs, k, l) {
    }
  }

  /** A run comes out even: no descriptor was closed that was not open, no missing input was read, and once all jobs
      are stopped exactly these descriptors are open, so every pipe end was closed once. */
  ghost predicate Balanced(r: Run, base: set<int>) {
    && !r.sys.fault
    && (r.looping ==> Flowing(r.sys, base))
    && (!r.looping ==> Quiet(r.sys, base))
  }

  /** A run, whatever links are left over and whatever finishes, fails or is cancelled, in which no ::start asks for
      another try or claims to be done: it comes out even if the start sweep ends, or if the stop that follows when it
      gives up is safe; and it faults exactly otherwise. */
  lemma {:induction false} RunBalancesIff(s: Sys, action: TaskAction, w: World, events: seq<Event>)
    requires NoPipesYet(s) && Plain(w)
    ensures var r, swept := RunTask(s, action, w, events), Sweep(s, |s.jobs|, action, w, false);
            && (swept.stopped.None? || StopSafe(swept.sys.jobs, 0) ==> Balanced(r, s.open))
            && (LinksForward(s.jobs) ==> (r.sys.fault <==> swept.stopped.Some? && !StopSafe(swept.sys.jobs, 0)))
  {
    ReadySweeps(s);
    SweepOutcome(s, |s.jobs|, action, w, false, s.open);
    var swept := Sweep(s, |s.jobs|, action, w, false);
    if swept.stopped.Some? || !swept.anyStarted {
      if StopSafe(swept.sys.jobs, 0) {
        StoppedIsQuiet(swept.sys, s.open);
      } else if LinksForward(s.jobs) {
        SweepLinksForward(s, |s.jobs|, action, w, false);
        StopFaultsIff(swept.sys, 0, s.open);
      }
    } else {
      StepsFlow(Run(swept.sys, true), events, action, w, s.open);
    }
  }

  /** In every such run of a task without links left over. */
  lemma {:induction false} PipesBalance(s: Sys, action: TaskAction, w: World, events: seq<Event>)
    requires ReadyToStart(s) && Plain(w)
    ensures Balanced(RunTask(s, action, w, events), s.open)
  {
    ReadySweeps(s);
    SweepOutcome(s, |s.jobs|, action, w, false, s.open);
    RunBalancesIff(s, action, w, events);
  }

  // ----- the same task once more -----

  /** No job has a link it did not have before. */
  predicate NoNewLinks(a: Chain, b: Chain) {
    |a| == |b| && forall k :: 0 <= k < |a| ==> b[k].linked == a[k].linked || b[k].linked.None?
  }

  lemma {:induction false} LeavingLinks(s: Sys, i: nat)
    requires i < |s.jobs|
    ensures NoNewLinks(s.jobs, Disconnect(s, i).jobs) && NoNewLinks(s.jobs, Deactivate(s, i).jobs)
    ensures NoNewLinks(s.jobs, ItemStop(s, i).jobs)
  {
  }

  lemma {:induction false} StopLinks(s: Sys, i: nat)
    requires i <= |s.jobs|
    ensures NoNewLinks(s.jobs, StopFrom(s, i).jobs)
    decreases |s.jobs| - i
  {
    if i < |s.jobs| {
      LeavingLinks(s, i);
      StopLinks(ItemStop(s, i), i + 1);
    }
  }

  lemma {:induction false} StepLinksForward(r: Run, e: Event, action: TaskAction, w: World)
    requires LinksForward(r.sys.jobs)
    ensures LinksForward(Step(r, e, action, w).sys.jobs)
  {
    hide StopFrom, ItemStart, Disconnect, Deactivate;
    StopLinks(r.sys, 0);
    if (e.FinishedTrack? || e.FinishedSession?) && e.job < |r.sys.jobs| {
      LeavingLinks(r.sys, e.job);
      LeavingLinks(Disconnect(r.sys, e.job), e.job);
      if e.FinishedTrack? {
        var st := ItemStart(r.sys, 0, action, w.toDisc(0), e.restart);
        RestartLinksForward(r.sys, action, w.toDisc(0), e.restart);
        StopLinks(st.sys, 0);
      }
    }
  }

  lemma {:induction false} RestartLinksForward(s: Sys, action: TaskAction, toDisc: bool, a: StartAnswer)
    requires LinksForward(s.jobs) && |s.jobs| > 0
    ensures LinksForward(ItemStart(s, 0, action, toDisc, a).sys.jobs)
  {
    if s.jobs[0].active {
      StartFrame(s, 0, action, toDisc, a);
      ForwardFrame(s.jobs, ItemStart(s, 0, action, toDisc, a).sys.jobs, 0);
    }
  }

  lemma {:induction false} StepsLinksForward(r: Run, events: seq<Event>, action: TaskAction, w: World)
    requires LinksForward(r.sys.jobs)
    ensures LinksForward(Steps(r, events, action, w).sys.jobs)
    decreases |events|
  {
    if events != [] {
      StepLinksForward(r, events[0], action, w);
      StepsLinksForward(Step(r, events[0], action, w), events[1..], action, w);
    }
  }

  lemma {:induction false} RunLinksForward(s: Sys, action: TaskAction, w: World, events: seq<Event>)
    requires Plain(w) && LinksForward(s.jobs)
    ensures LinksForward(RunTask(s, action, w, events).sys.jobs)
  {
    var swept := Sweep(s, |s.jobs|, action, w, false);
    SweepLinksForward(s, |s.jobs|, action, w, false);
    StopLinks(swept.sys, 0);
    StepsLinksForward(Run(swept.sys, true), events, action, w);
  }

  /** Activation touches nothing but the mark that a job is active. */
  lemma {:induction false} ActivationMarks(jobs: Chain, i: nat, types: seq<TrackType>, input: TrackType,
                                           answers: seq<BurnResult>, soFar: BurnResult)
    requires i <= |jobs| == |types| == |answers|
    ensures var r := ActivateFrom(jobs, i, types, input, answers, soFar).jobs;
            forall k :: 0 <= k < |jobs| ==> r[k] == jobs[k].(active := r[k].active)
    decreases |jobs| - i
  {
    if i < |jobs| {
      var result := ItemActivate(TypeBefore(types, input, i), types[i], answers[i]);
      var jobs' := jobs[i := jobs[i].(active := result == BurnOk)];
      ActivationMarks(jobs', i + 1, types, input, answers, soFar);
      ActivationMarks(jobs', i + 1, types, input, answers, BurnOk);
    }
  }

  /** A task that ran to its end is activated and started once more, as every task is that runs to learn the size first.
      The links of the first run are still there, and yet the second run comes out even if its start sweep ends; if it
      gives up, the run faults exactly if an active job is linked to one that has no input then. */
  lemma {:induction false} StartedOnceMoreBalances(
    s: Sys, action: TaskAction, w: World, events: seq<Event>, types: seq<TrackType>, input: TrackType,
    answers: seq<BurnResult>, action': TaskAction, w': World, events': seq<Event>)
    requires NoPipesYet(s) && LinksForward(s.jobs) && Plain(w) && Plain(w') && |types| == |answers| == |s.jobs|
    requires !RunTask(s, action, w, events).looping && !RunTask(s, action, w, events).sys.fault
    ensures var r := RunTask(s, action, w, events).sys;
            var again := r.(jobs := ActivateFrom(r.jobs, 0, types, input, answers, NotRunning).jobs);
            var swept := Sweep(again, |s.jobs|, action', w', false);
            && NoPipesYet(again) && again.open == s.open
            && (swept.stopped.None? || StopSafe(swept.sys.jobs, 0) ==>
                  Balanced(RunTask(again, action', w', events'), s.open))
            && (RunTask(again, action', w', events').sys.fault <==>
                  swept.stopped.Some? && !StopSafe(swept.sys.jobs, 0))
  {
    hide RunTask, Sweep, ActivateFrom;
    var r := RunTask(s, action, w, events).sys;
    var again := r.(jobs := ActivateFrom(r.jobs, 0, types, input, answers, NotRunning).jobs);
    RunBalancesIff(s, action, w, events);
    RunLinksForward(s, action, w, events);
    ActivationMarks(r.jobs, 0, types, input, answers, NotRunning);
    RunBalancesIff(again, action', w', events');
  }

  /** No world and no events can make a run fault. */
  ghost predicate AlwaysSafe(s: Sys, action: TaskAction) {
    forall w, events :: Plain(w) ==> !RunTask(s, action, w, events).sys.fault
  }

  /** pipe() fails, whoever asks. */
  function NoPipes(): World {
    World((i, a) => StartAnswer(Prepared(false), None, BurnOk), (i, a) => BurnOk, i => false)
  }

  /** With no pipe to be had, the sweep stops at the last active job and touches nothing else. */
  lemma {:induction false} NoPipesStopsAtLast(s: Sys, i: nat, last: nat, action: TaskAction)
    requires last < i <= |s.jobs| && IsLastActive(s.jobs, last) && !IsFirstActive(s.jobs, last)
    ensures var r := Sweep(s, i, action, NoPipes(), false);
            r.stopped == Some(BurnErr) && r.sys == Link(s, last)
    decreases i
  {
    if i - 1 > last {
      NoPipesStopsAtLast(s, i - 1, last, action);
    }
  }

  /** Running a task again is not always safe: stopping a job leaves its link behind (only deactivation clears
      it), and if the next start fails early the stop sweep follows that link to a job that has no input.
      A task without open pipes can be started in every world exactly when no active job but the last one
      has a link left over. */
  lemma {:induction false} SafeToStartIff(s: Sys, action: TaskAction)
    requires NoPipesYet(s) && LinksForward(s.jobs)
    ensures AlwaysSafe(s, action) <==> NoStaleLinks(s.jobs, |s.jobs|)
  {
    if NoStaleLinks(s.jobs, |s.jobs|) {
      forall w, events | Plain(w) ensures !RunTask(s, action, w, events).sys.fault {
        PipesBalance(s, action, w, events);
      }
    } else {
      var k :| 0 <= k < |s.jobs| && s.jobs[k].active && !IsLastActive(s.jobs, k) && s.jobs[k].linked.Some?;
      var first, last := OneFirstAndOneLast(s.jobs, k);
      NoPipesStopsAtLast(s, |s.jobs|, last, action);
      assert !LinkSafe(Link(s, last).jobs, k);
      assert Plain(NoPipes());
      RunBalancesIff(s, action, NoPipes(), []);
    }
  }

  /** Such a link can be left over by a run in which nothing went wrong: two jobs, and the second one reports
      the end of the session first. */
  lemma {:induction false} RunCanLeaveLink(fds: set<int>, ends: Ends, action: TaskAction)
    requires FreshEnds(fds, ends)
    ensures var idle := JobState(true, None, false, None);
            var w := World((i, a) => StartAnswer(Prepared(false), Some(ends), BurnOk), (i, a) => BurnOk, i => false);
            var r := RunTask(Sys([idle, idle], fds, false), action, w, [FinishedSession(1, true)]);
            Plain(w) && !r.sys.fault && !r.looping && r.sys.jobs[0].linked == Some(1) && r.sys.jobs[1].input.None?
  {
    var idle := JobState(true, None, false, None);
    var s := Sys([idle, idle], fds, false);
    var w := World((i, a) => StartAnswer(Prepared(false), Some(ends), BurnOk), (i, a) => BurnOk, i => false);
    var one := ItemStart(s, 1, action, false, w.answers(1, 0)).sys;
    assert s.jobs[0].active && !IsFirstActive(s.jobs, 1);
    assert one.jobs == [idle, JobState(true, Some(ends), false, None)];
    assert one == Sys([idle, JobState(true, Some(ends), false, None)], fds + {ends.read, ends.write}, false);
    var two := ItemStart(one, 0, action, false, w.answers(0, 0)).sys;
    assert two == Sys([JobState(true, None, false, Some(1)), JobState(true, Some(ends), false, None)],
                      fds + {ends.read, ends.write}, false);
    assert Sweep(two, 0, action, w, true) == Swept(two, None, true);
    assert Sweep(one, 1, action, w, true) == Swept(two, None, true);
    assert Sweep(s, 2, action, w, false) == Swept(two, None, true);
    var e := FinishedSession(1, true);
    assert IsLastActive(two.jobs, 1);
    assert Step(Run(two, true), e, action, w) == StopAll(two);
    assert Steps(StopAll(two), [], action, w) == StopAll(two);
    assert Steps(Run(two, true), [e], action, w) == StopAll(two);
    assert ReadyToStart(s);
    PipesBalance(s, action, w, [e]);
    var stopped := ItemStop(two, 0);
    assert stopped.jobs[0].linked == Some(1);
    assert ItemStop(stopped, 1).jobs[0].linked == Some(1);
    assert StopFrom(two, 0) == StopFrom(stopped, 1) == StopFrom(ItemStop(stopped, 1), 2) == ItemStop(stopped, 1);
  }

  /** And started once more with both jobs active, that task can fault. */
  lemma {:induction false} SecondStartCanFault(fds: set<int>, ends: Ends, action: TaskAction)
    requires FreshEnds(fds, ends)
    ensures var idle := JobState(true, None, false, None);
            var w := World((i, a) => StartAnswer(Prepared(false), Some(ends), BurnOk), (i, a) => BurnOk, i => false);
            var r := RunTask(Sys([idle, idle], fds, false), action, w, [FinishedSession(1, true)]).sys;
            && |r.jobs| == 2 && !r.fault && r.open == fds
            && !AlwaysSafe(r.(jobs := [r.jobs[0].(active := true), r.jobs[1].(active := true)]), action)
  {
    hide RunTask;
    var idle := JobState(true, None, false, None);
    var s := Sys([idle, idle], fds, false);
    var w := World((i, a) => StartAnswer(Prepared(false), Some(ends), BurnOk), (i, a) => BurnOk, i => false);
    RunCanLeaveLink(fds, ends, action);
    PipesBalance(s, action, w, [FinishedSession(1, true)]);
    RunLinksForward(s, action, w, [FinishedSession(1, true)]);
    var r := RunTask(s, action, w, [FinishedSession(1, true)]).sys;
    var again := r.(jobs := [r.jobs[0].(active := true), r.jobs[1].(active := true)]);
    assert again.jobs[0].active && again.jobs[1].active && !IsLastActive(again.jobs, 0);
    SafeToStartIff(again, action);
  }
}
