/** Jobs as the objects they are: a doubly linked chain built by the task, walked in both directions, each
    job changed in place (burn-job.c, burn-task.c). Every operation is proved to do to the chain what its
    namesake in module Pipeline does to the sequence of job states. */
module Jobs {
  import opened Flags
  import Caps
  import opened NewTask
  import opened Pipeline

  /** `pos` is the job's place in the chain, by which the world knows it; `linkedPos` the place of the job it is
      linked to. */
  class JobItem {
    var next: JobItem?
    var previous: JobItem?
    var active: bool
    var input: Option<Ends>
    var output: bool
    var linked: JobItem?
    const typ: Caps.TrackType
    var pos: nat
    ghost var linkedPos: Option<nat>

    constructor (typ: Caps.TrackType)
      ensures next == null && previous == null && linked == null && linkedPos.None?
      ensures !active && input.None? && !output && this.typ == typ
    {
      next, previous, linked := null, null, null;
      active, input, output := false, None, false;
      this.typ := typ;
      pos, linkedPos := 0, None;
    }
  }

  class RunningTask {
    var leader: JobItem?
    var first: JobItem?
    var action: TaskAction
    var open: set<int>
    var fault: bool
    ghost var items: seq<JobItem>
    ghost var repr: set<JobItem>
    ghost var st: Sys

    /** next and previous are inverse to each other from first to leader. */
    ghost predicate Chained()
      reads this`items, this`repr, this`first, this`leader, repr`next, repr`previous, repr`pos
    {
      && (forall k {:trigger items[k]} :: 0 <= k < |items| ==> items[k] in repr)
      && (forall k {:trigger items[k].pos} :: 0 <= k < |items| ==> items[k].pos == k)
      && (forall k {:trigger items[k].next} :: 0 <= k < |items| ==>
            items[k].next == (if k + 1 < |items| then items[k + 1] else null))
      && (forall k {:trigger items[k].previous} :: 0 <= k < |items| ==>
            items[k].previous == (if k > 0 then items[k - 1] else null))
      && first == (if items == [] then null else items[0])
      && leader == (if items == [] then null else items[|items| - 1])
    }

    /** st mirrors what the jobs hold. */
    ghost predicate Mirrored()
      reads this`items, this`repr, this`st, this`open, this`fault
      reads repr`pos, repr`active, repr`input, repr`output, repr`linked, repr`linkedPos
    {
      && |st.jobs| == |items| && st.open == open && st.fault == fault
      && (forall k {:trigger items[k]} :: 0 <= k < |items| ==> items[k] in repr)
      && (forall k {:trigger st.jobs[k]} :: 0 <= k < |items| ==>
            && items[k].pos == k
            && st.jobs[k] == JobState(items[k].active, items[k].input, items[k].output, items[k].linkedPos))
      && (forall k {:trigger items[k].linkedPos} :: 0 <= k < |items| ==>
            if items[k].linkedPos.None? then items[k].linked == null
            else items[k].linkedPos.value < |items| && items[k].linked == items[items[k].linkedPos.value])
    }

    ghost predicate Valid()
      reads this, repr
    {
      Chained() && Mirrored()
    }

    ghost predicate Has(job: JobItem)
      reads this, job
    {
      job in repr && job.pos < |items| && items[job.pos] == job
    }

    constructor (action: TaskAction, open: set<int>)
      ensures Valid() && items == [] && repr == {} && this.action == action && this.open == open && !fault
    {
      leader, first := null, null;
      this.action, this.open, fault := action, open, false;
      items, repr, st := [], {}, Sys([], open, false);
    }

    /** Enters the job into the record of the chain. */
    method Enrol(item: JobItem, place: nat)
      requires Mirrored() && item !in repr && place == |items| && item.linked == null && item.linkedPos.None?
      modifies this`items, this`repr, this`st, item`pos
      ensures Mirrored() && items == old(items) + [item] && repr == old(repr) + {item} && item.pos == place
      ensures st.jobs == old(st.jobs) + [JobState(old(item.active), old(item.input), old(item.output), None)]
    {
      item.pos := place;
      items := items + [item];
      repr := repr + {item};
      st := st.(jobs := st.jobs + [JobState(item.active, item.input, item.output, None)]);
      forall k | 0 <= k < place ensures items[k] == old(items)[k] && items[k] != item && st.jobs[k] == old(st).jobs[k] {
        assert old(items)[k] in old(repr) && old(st).jobs[k].active == old(items)[k].active;
      }
    }

    /** rejilla_task_add_item and rejilla_job_item_link: the new job becomes the leader. */
    method AddItem(item: JobItem)
      requires Valid() && item !in repr
      requires item.next == null && item.previous == null && item.linked == null && item.linkedPos.None?
      modifies this, repr`next, item`previous, item`pos
      ensures Valid() && items == old(items) + [item] && repr == old(repr) + {item}
      ensures open == old(open) && fault == old(fault) && action == old(action)
      ensures st.jobs == old(st.jobs) + [JobState(old(item.active), old(item.input), old(item.output), None)]
    {
      ghost var n := |items|;
      var place := 0;
      if leader != null {
        place := leader.pos + 1;
        leader.next := item;
        item.previous := leader;
      }
      if first == null {
        first := item;
      }
      leader := item;
      Enrol(item, place);
      forall k | 0 <= k < n ensures items[k] == old(items)[k] && items[k] != item && items[k].pos == k {
        assert old(items)[k] in old(repr) && old(items)[k].pos == k;
      }
    }

    method JobIsLastActive(job: JobItem) returns (r: bool)
      requires Valid() && Has(job)
      ensures r == IsLastActive(st.jobs, job.pos)
    {
      if !job.active {
        return false;
      }
      var next := job.next;
      ghost var k := job.pos + 1;
      while next != null
        invariant job.pos < k <= |items| && next == (if k < |items| then items[k] else null)
        invariant NoneActive(st.jobs, job.pos + 1, k)
        decreases |items| - k
      {
        if next.active {
          assert st.jobs[k].active;
          return false;
        }
        assert items[k].next == next.next;
        next := next.next;
        k := k + 1;
      }
      return true;
    }

    method JobIsFirstActive(job: JobItem) returns (r: bool)
      requires Valid() && Has(job)
      ensures r == IsFirstActive(st.jobs, job.pos)
    {
      if !job.active {
        return false;
      }
      var prev := job.previous;
      ghost var k := job.pos;
      while prev != null
        invariant 0 <= k <= job.pos && prev == (if k > 0 then items[k - 1] else null)
        invariant NoneActive(st.jobs, k, job.pos)
        decreases k
      {
        if prev.active {
          assert st.jobs[k - 1].active;
          return false;
        }
        assert items[k - 1].previous == prev.previous;
        prev := prev.previous;
        k := k - 1;
      }
      return true;
    }

    method JobNextActive(job: JobItem) returns (r: JobItem?)
      requires Valid() && Has(job)
      ensures r == null ==> NextActive(st.jobs, job.pos).None?
      ensures r != null ==> Has(r) && r.active && NextActive(st.jobs, job.pos) == Some(r.pos)
    {
      r := job.next;
      ghost var k := job.pos + 1;
      while r != null
        invariant job.pos < k <= |items| && r == (if k < |items| then items[k] else null)
        invariant NoneActive(st.jobs, job.pos + 1, k)
        decreases |items| - k
      {
        assert items[k].pos == k;
        if r.active {
          assert st.jobs[k].active;
          NextActiveIs(st.jobs, job.pos, k);
          return;
        }
        assert items[k].next == r.next;
        r := r.next;
        k := k + 1;
      }
    }

    // ----- changing the chain in place -----

    /** close(2); closing what is not open is a fault. */
    method CloseFd(fd: int)
      requires Valid()
      modifies this`open, this`fault, this`st
      ensures Valid() && st == Close(old(st), fd)
    {
      if fd > 0 {
        if fd in open {
          open := open - {fd};
        } else {
          fault := true;
        }
      }
      st := Close(st, fd);
    }

    /** rejilla_job_input_free. */
    method FreeJobInput(job: JobItem)
      requires Valid() && Has(job)
      modifies this`open, this`fault, this`st, job`input
      ensures Valid() && st == FreeInput(old(st), job.pos)
    {
      if job.input.Some? {
        CloseFd(job.input.value.read);
        CloseFd(job.input.value.write);
        SetInput(job, None);
      }
    }

    method SetInput(job: JobItem, input: Option<Ends>)
      requires Valid() && Has(job)
      modifies this`st, job`input
      ensures Valid() && st == old(st).(jobs := old(st.jobs)[job.pos := old(st.jobs)[job.pos].(input := input)])
    {
      job.input := input;
      st := st.(jobs := st.jobs[job.pos := st.jobs[job.pos].(input := input)]);
    }

    /** Closes the writing side of the pipe a job reads from. */
    method CloseWriteEnd(far: JobItem)
      requires Valid() && Has(far) && far.input.Some? && far.input.value.write > 0
      modifies this`open, this`fault, this`st, far`input
      ensures Valid() && st == WriteClosed(old(st), far.pos)
    {
      CloseFd(far.input.value.write);
      SetInput(far, Some(far.input.value.(write := 0)));
    }

    method SetOutput(job: JobItem, output: bool)
      requires Valid() && Has(job)
      modifies this`st, job`output
      ensures Valid() && st == old(st).(jobs := old(st.jobs)[job.pos := old(st.jobs)[job.pos].(output := output)])
    {
      job.output := output;
      st := st.(jobs := st.jobs[job.pos := st.jobs[job.pos].(output := output)]);
    }

    /** rejilla_job_disconnect: tells the next job that nothing more will come, then gives up the own pipe. */
    method DisconnectJob(job: JobItem)
      requires Valid() && Has(job)
      modifies this`open, this`fault, this`st, repr`input, job`output
      ensures Valid() && st == Disconnect(old(st), job.pos)
    {
      assert items[job.pos].linkedPos == job.linkedPos && st.jobs[job.pos].linked == job.linkedPos;
      if job.linked != null {
        var far := job.linked;
        assert st.jobs[job.linkedPos.value].input == far.input && items[far.pos].pos == far.pos;
        if far.input.None? {
          fault := true;
          st := st.(fault := true);
        } else if far.input.value.write > 0 {
          CloseWriteEnd(far);
        }
      } else {
        SetOutput(job, false);
      }
      FreeJobInput(job);
    }

    method DeactivateJob(job: JobItem)
      requires Valid() && Has(job)
      modifies this`open, this`fault, this`st, job`input, job`output, job`active, job`linked, job`linkedPos
      ensures Valid() && st == Deactivate(old(st), job.pos)
    {
      FreeJobInput(job);
      SetOutput(job, false);
      SetLinked(job, null);
      SetActive(job, false);
      assert st.jobs == old(st.jobs)[job.pos := JobState(false, None, false, None)];
    }

    method SetActive(job: JobItem, active: bool)
      requires Valid() && Has(job)
      modifies this`st, job`active
      ensures Valid() && st == old(st).(jobs := old(st.jobs)[job.pos := old(st.jobs)[job.pos].(active := active)])
    {
      job.active := active;
      st := st.(jobs := st.jobs[job.pos := st.jobs[job.pos].(active := active)]);
    }

    method StopJob(job: JobItem)
      requires Valid() && Has(job)
      modifies this`open, this`fault, this`st, repr`input, job`output, job`active
      ensures Valid() && st == ItemStop(old(st), job.pos)
    {
      assert st.jobs[job.pos].active == job.active;
      if !job.active {
        return;
      }
      DisconnectJob(job);
      SetActive(job, false);
    }

    /** rejilla_task_send_stop_signal: down to the first job, then up the chain. */
    method SendStopSignal()
      requires Valid()
      modifies this`open, this`fault, this`st, repr`input, repr`output, repr`active
      ensures Valid() && st == StopFrom(old(st), 0)
    {
      var item := leader;
      if item == null {
        return;
      }
      ghost var k := |items| - 1;
      while item.previous != null
        invariant 0 <= k < |items| && item == items[k]
        decreases k
      {
        assert items[k].previous == item.previous;
        item := item.previous;
        k := k - 1;
      }
      assert items[k].previous == null;
      var at: JobItem? := item;
      while at != null
        invariant 0 <= k <= |items| && at == (if k < |items| then items[k] else null)
        invariant Valid() && StopFrom(st, k) == StopFrom(old(st), 0)
        decreases |items| - k
      {
        assert items[k].pos == k && items[k].next == at.next;
        StopJob(at);
        at := at.next;
        k := k + 1;
      }
    }

    // ----- activating -----

    ghost function Types(): (r: seq<Caps.TrackType>)
      reads this`items
      ensures |r| == |items| && forall k :: 0 <= k < |r| ==> r[k] == items[k].typ
    {
      var all := items;
      seq(|all|, k requires 0 <= k < |all| => all[k].typ)
    }

    /** rejilla_job_item_activate with rejilla_job_allow_deactivation. */
    method ActivateJob(job: JobItem, input: Caps.TrackType, answer: BurnResult) returns (result: BurnResult)
      requires Valid() && Has(job)
      modifies this`st, job`active
      ensures Valid() && job.pos < |old(st.jobs)| == |items|
      ensures result == ItemActivate(TypeBefore(Types(), input, job.pos), Types()[job.pos], answer)
      ensures st == old(st).(jobs := old(st.jobs)[job.pos := old(st.jobs)[job.pos].(active := result == BurnOk)])
      ensures Types() == old(Types())
    {
      assert items[job.pos].previous == job.previous && items[job.pos].typ == job.typ;
      SetActive(job, answer == BurnOk);
      result := answer;
      if result == NotRunning {
        var before := if job.previous != null then job.previous.typ else input;
        if job.typ.Disc? || before != job.typ {
          result := BurnErr;
        }
      }
    }

    /** The k-th job leads to the next one. */
    lemma {:induction false} InChain(k: nat)
      requires Valid() && k < |items|
      ensures Has(items[k]) && items[k].pos == k && items[k] in repr
      ensures items[k].next == if k + 1 < |items| then items[k + 1] else null
    {
    }

    lemma {:induction false} AllRecorded()
      requires Valid()
      ensures |st.jobs| == |items| == |Types()| && first == if items != [] then items[0] else null
    {
    }

    /** rejilla_task_activate_items. */
    method ActivateJobs(input: Caps.TrackType, answers: seq<BurnResult>) returns (result: BurnResult)
      requires Valid() && |answers| == |items|
      modifies this`st, repr`active
      ensures Valid() && st.open == old(st).open && st.fault == old(st).fault
      ensures |old(st).jobs| == |items|
      ensures Activated(st.jobs, result) == ActivateFrom(old(st).jobs, 0, Types(), input, answers, NotRunning)
    {
      hide Chained, Mirrored, Types;
      AllRecorded();
      result := NotRunning;
      ghost var types := Types();
      ghost var goal := ActivateFrom(st.jobs, 0, types, input, answers, NotRunning);
      var item, k := first, 0;
      while item != null
        invariant Valid() && 0 <= k <= |items| && item == (if k < |items| then items[k] else null)
        invariant st.open == old(st).open && st.fault == old(st).fault && types == Types()
        invariant |st.jobs| == |items| && items == old(items)
        invariant ActivateFrom(st.jobs, k, types, input, answers, result) == goal
        decreases |items| - k
      {
        InChain(k);
        var answer := ActivateJob(item, input, answers[k]);
        if answer != NotRunning {
          if answer != BurnOk {
            return answer;
          }
          result := BurnOk;
        }
        item := item.next;
        k := k + 1;
      }
    }

    // ----- starting -----

    method JobGetAction(job: JobItem) returns (r: JobAction)
      requires Valid() && Has(job)
      ensures r == GetAction(st.jobs, job.pos, action, job.typ.Disc?)
    {
      var last := JobIsLastActive(job);
      if !last {
        return JobImage;
      }
      match action {
        case ActionNone => r := JobSize;
        case ActionErase => r := JobErase;
        case ActionNormal => r := if job.typ.Disc? then JobRecord else JobImage;
        case ActionChecksum => r := JobChecksum;
      }
    }

    method SetLinked(job: JobItem, to: JobItem?)
      requires Valid() && Has(job) && (to != null ==> Has(to))
      modifies this`st, job`linked, job`linkedPos
      ensures Valid()
      ensures st == old(st).(jobs := old(st.jobs)[job.pos := old(st.jobs)[job.pos].(
                linked := if to == null then None else Some(to.pos))])
    {
      job.linked := to;
      job.linkedPos := if to == null then None else Some(to.pos);
      st := st.(jobs := st.jobs[job.pos := st.jobs[job.pos].(linked := job.linkedPos)]);
    }

    /** pipe(2). */
    method OpenJobPipe(job: JobItem, ends: Ends)
      requires Valid() && Has(job)
      modifies this`open, this`st, job`input
      ensures Valid() && st == OpenPipe(old(st), job.pos, ends)
    {
      open := open + {ends.read, ends.write};
      job.input := Some(ends);
      st := OpenPipe(st, job.pos, ends);
    }

    /** Links the job to the next active one; says whether there is one, and whether the job is the first. */
    method LinkJob(job: JobItem) returns (alone: bool, first: bool)
      requires Valid() && Has(job)
      modifies this`st, job`linked, job`linkedPos
      ensures Valid() && st == Link(old(st), job.pos)
      ensures alone == NextActive(old(st).jobs, job.pos).None? && first == IsFirstActive(old(st).jobs, job.pos)
    {
      first := JobIsFirstActive(job);
      var next := JobNextActive(job);
      alone := next == null;
      SetLinked(job, next);
    }

    /** Everything item_start does before it calls ::start; not ready, with the result, if it does not get there. */
    method PrepareStart(job: JobItem, kind: JobAction, a: StartAnswer) returns (ready: bool, result: BurnResult)
      requires Valid() && Has(job) && job.active && kind == GetAction(st.jobs, job.pos, action, job.typ.Disc?)
      modifies this`open, this`st, job`linked, job`linkedPos, job`output, job`input
      ensures Valid() && job.pos < |old(st).jobs| && old(st).jobs[job.pos].active
      ensures ready == HandedToStart(old(st), job.pos, action, job.typ.Disc?, a).Some?
      ensures ready ==> st == HandedToStart(old(st), job.pos, action, job.typ.Disc?, a).value
      ensures !ready ==> ItemStart(old(st), job.pos, action, job.typ.Disc?, a) == Started(st, result)
    {
      assert st.jobs[job.pos].active;
      ghost var s := st;
      var alone, first := LinkJob(job);
      var prepare := alone && (kind == JobImage || kind == JobRecord);
      if prepare && a.prepare.output {
        SetOutput(job, true);
      }
      StartStages(s, job.pos, action, job.typ.Disc?, a);
      if prepare && a.prepare.Unprepared? {
        return false, if a.prepare.needsReload then NeedReload else BurnErr;
      }
      if !first {
        if a.ends.None? || !FreshEnds(open, a.ends.value) {
          return false, BurnErr;
        }
        OpenJobPipe(job, a.ends.value);
      }
      return true, BurnOk;
    }

    /** rejilla_job_item_start. */
    method StartJob(job: JobItem, a: StartAnswer) returns (result: BurnResult)
      requires Valid() && Has(job)
      modifies this`open, this`fault, this`st, job`linked, job`linkedPos, job`output, job`input, job`active
      ensures Valid() && job.pos < |old(st).jobs|
      ensures Started(st, result) == ItemStart(old(st), job.pos, action, job.typ.Disc?, a)
    {
      assert st.jobs[job.pos].active == job.active;
      if !job.active {
        return BurnOk;
      }
      ghost var s := st;
      var kind := JobGetAction(job);
      var ready;
      ready, result := PrepareStart(job, kind, a);
      if !ready {
        return;
      }
      StartedIs(s, job.pos, action, job.typ.Disc?, a);
      result := ConcludeStart(job, kind, a.start);
    }

    method ConcludeStart(job: JobItem, kind: JobAction, answer: BurnResult) returns (result: BurnResult)
      requires Valid() && Has(job)
      modifies this`open, this`fault, this`st, job`linked, job`linkedPos, job`output, job`input, job`active
      ensures Valid() && job.pos < |old(st).jobs|
      ensures Started(st, result) == Conclude(old(st), job.pos, kind, answer)
    {
      assert items[job.pos].linkedPos == job.linkedPos && st.jobs[job.pos].linked == job.linkedPos;
      result := answer;
      if result == NotRunning && job.linked != null {
        return BurnErr;
      }
      if result == NotSupported {
        if kind != JobSize {
          return BurnErr;
        }
        DeactivateJob(job);
      }
    }

    /** The world knows where the jobs write. */
    ghost predicate KnownTo(w: World)
      reads this`items
    {
      forall k {:trigger items[k]} :: 0 <= k < |items| ==> w.toDisc(k) == items[k].typ.Disc?
    }

    /** One call of ::start and, if the job asks for another, the pause before it. */
    method StartOnce(job: JobItem, w: World, attempts: nat) returns (again: bool, result: BurnResult)
      requires Valid() && Has(job) && w.toDisc(job.pos) == job.typ.Disc? && attempts <= MAX_JOB_START_ATTEMPTS
      modifies this`open, this`fault, this`st, job`linked, job`linkedPos, job`output, job`input, job`active
      ensures Valid() && job.pos < |old(st).jobs|
      ensures again ==> attempts < 5
      ensures again ==>
              StartItem(st, job.pos, action, w, attempts + 1) == StartItem(old(st), job.pos, action, w, attempts)
      ensures !again ==> Started(st, result) == StartItem(old(st), job.pos, action, w, attempts)
    {
      result := StartJob(job, w.answers(job.pos, attempts));
      if result != Retry {
        return false, result;
      }
      if attempts >= MAX_JOB_START_ATTEMPTS {
        return false, BurnErr;
      }
      result := w.pauses(job.pos, attempts);
      again := result == BurnOk;
    }

    /** rejilla_task_start_item; `starts` counts the calls of ::start. */
    method StartJobPatiently(job: JobItem, w: World) returns (result: BurnResult, starts: nat)
      requires Valid() && Has(job) && w.toDisc(job.pos) == job.typ.Disc?
      modifies this`open, this`fault, this`st, job`linked, job`linkedPos, job`output, job`input, job`active
      ensures Valid() && job.pos < |old(st).jobs|
      ensures Started(st, result) == StartItem(old(st), job.pos, action, w, 0)
      ensures starts <= 6
    {
      assert job.pos < |st.jobs|;
      ghost var goal := StartItem(st, job.pos, action, w, 0);
      starts, result := 0, Retry;
      var again := true;
      while again
        invariant Valid() && starts <= (if again then 5 else 6)
        invariant if again then StartItem(st, job.pos, action, w, starts) == goal else Started(st, result) == goal
        decreases again, 6 - starts
      {
        again, result := StartOnce(job, w, starts);
        starts := starts + 1;
      }
    }

    /** One job of the sweep. */
    method StartNext(job: JobItem, w: World, before: bool) returns (stopped: Option<BurnResult>, started: bool)
      requires Valid() && Has(job) && KnownTo(w)
      modifies this`open, this`fault, this`st, job`linked, job`linkedPos, job`output, job`input, job`active
      ensures Valid() && job.pos < |old(st).jobs|
      ensures Sweep(old(st), job.pos + 1, action, w, before)
              == if stopped.Some? then Swept(st, stopped, started) else Sweep(st, job.pos, action, w, started)
    {
      assert st.jobs[job.pos].active == job.active;
      stopped, started := None, before;
      if job.active {
        var result, starts := StartJobPatiently(job, w);
        if result == BurnOk {
          started := true;
        } else if result != NotSupported {
          stopped := Some(result);
        }
      }
    }

    /** rejilla_task_start_items: from the leader down to the first job. */
    method StartJobs(w: World) returns (stopped: Option<BurnResult>, started: bool)
      requires Valid() && KnownTo(w)
      modifies this`open, this`fault, this`st, repr`linked, repr`linkedPos, repr`output, repr`input, repr`active
      ensures Valid()
      ensures Swept(st, stopped, started) == Sweep(old(st), |old(st.jobs)|, action, w, false)
    {
      stopped, started := None, false;
      ghost var goal := Sweep(st, |st.jobs|, action, w, false);
      var item := leader;
      ghost var k := |items|;
      while item != null
        invariant Valid() && 0 <= k <= |items| && item == (if k > 0 then items[k - 1] else null) && stopped.None?
        invariant Sweep(st, k, action, w, started) == goal
        decreases k
      {
        assert items[k - 1].pos == k - 1 && items[k - 1].previous == item.previous;
        stopped, started := StartNext(item, w, started);
        if stopped.Some? {
          return;
        }
        item := item.previous;
        k := k - 1;
      }
    }

    // ----- reports from the jobs -----

    /** rejilla_task_start after activation: either everything is stopped again, or the main loop runs. */
    method Begin(w: World) returns (looping: bool)
      requires Valid() && KnownTo(w)
      modifies this`open, this`fault, this`st, repr`linked, repr`linkedPos, repr`output, repr`input, repr`active
      ensures Valid()
      ensures Run(st, looping) == RunTask(old(st), action, w, [])
    {
      var stopped, started := StartJobs(w);
      if stopped.Some? || !started {
        SendStopSignal();
        return false;
      }
      return true;
    }

    /** rejilla_task_finished when tracks are left: the first job of all is started again. */
    method RestartFirst(a: StartAnswer, w: World) returns (looping: bool)
      requires Valid() && KnownTo(w) && items != []
      modifies this`open, this`fault, this`st, repr`linked, repr`linkedPos, repr`output, repr`input, repr`active
      ensures Valid() && 0 < |old(st.jobs)|
      ensures var again := ItemStart(old(st), 0, action, w.toDisc(0), a);
              Run(st, looping) == if again.result == BurnOk then Run(again.sys, true) else StopAll(again.sys)
    {
      assert items[0].pos == 0;
      var result := StartJob(first, a);
      looping := result == BurnOk;
      if !looping {
        SendStopSignal();
      }
    }

    /** rejilla_job_finished_track; says whether the main loop goes on. */
    method JobFinishedTrack(job: JobItem, e: Event, w: World) returns (looping: bool)
      requires Valid() && Has(job) && KnownTo(w) && e.FinishedTrack? && e.job == job.pos
      modifies this`open, this`fault, this`st, repr`linked, repr`linkedPos, repr`output, repr`input, repr`active
      ensures Valid()
      ensures Run(st, looping) == OnFinishedTrack(old(st), e, action, w)
    {
      var isFirst := JobIsFirstActive(job);
      var isLast := JobIsLastActive(job);
      if isFirst && e.stopOk {
        if e.moreTracks {
          looping := RestartFirst(e.restart, w);
          return;
        } else if !isLast {
          DisconnectJob(job);
          DeactivateJob(job);
          return true;
        }
      }
      SendStopSignal();
      return false;
    }

    /** rejilla_job_finished_session. */
    method JobFinishedSession(job: JobItem, e: Event) returns (looping: bool)
      requires Valid() && Has(job) && e.FinishedSession? && e.job == job.pos
      modifies this`open, this`fault, this`st, repr`linked, repr`linkedPos, repr`output, repr`input, repr`active
      ensures Valid()
      ensures Run(st, looping) == OnFinishedSession(old(st), e)
    {
      var isLast := JobIsLastActive(job);
      var isFirst := JobIsFirstActive(job);
      if !isLast && isFirst && e.stopOk {
        DisconnectJob(job);
        SetActive(job, false);
        return true;
      }
      SendStopSignal();
      return false;
    }

    /** rejilla_job_add_track. */
    method JobAddTrack(job: JobItem) returns (result: BurnResult)
      requires Valid() && Has(job)
      ensures result == AddTrack(st.jobs, job.pos, action, job.typ.Disc?)
    {
      var kind := JobGetAction(job);
      if kind != JobImage {
        return BurnErr;
      }
      var last := JobIsLastActive(job);
      return if last then BurnOk else BurnErr;
    }
  }

  /** The system once the job is linked and, if need be, has its output. */
  function Staged(s: Sys, i: nat, action: TaskAction, toDisc: bool, a: StartAnswer): (r: Sys)
    requires i < |s.jobs|
    ensures |r.jobs| == |s.jobs|
  {
    var linked := Link(s, i);
    if NeedsPreparation(s, i, action, toDisc) && a.prepare.output
    then linked.(jobs := linked.jobs[i := linked.jobs[i].(output := true)]) else linked
  }

  lemma {:induction false} StartStages(s: Sys, i: nat, action: TaskAction, toDisc: bool, a: StartAnswer)
    requires i < |s.jobs| && s.jobs[i].active
    ensures var s1, prepare := Staged(s, i, action, toDisc, a), NeedsPreparation(s, i, action, toDisc);
            && HandedToStart(s, i, action, toDisc, a)
               == (if prepare && a.prepare.Unprepared? then None
                   else if IsFirstActive(s.jobs, i) then Some(s1)
                   else if a.ends.None? || !FreshEnds(s.open, a.ends.value) then None
                   else Some(OpenPipe(s1, i, a.ends.value)))
            && (prepare && a.prepare.Unprepared? ==>
                  ItemStart(s, i, action, toDisc, a)
                    == Started(s1, if a.prepare.needsReload then NeedReload else BurnErr))
            && (!(prepare && a.prepare.Unprepared?) && !IsFirstActive(s.jobs, i)
                && (a.ends.None? || !FreshEnds(s.open, a.ends.value)) ==>
                  ItemStart(s, i, action, toDisc, a) == Started(s1, BurnErr))
  {
    assert Link(s, i).jobs[i := Link(s, i).jobs[i].(output := true)]
           == s.jobs[i := s.jobs[i].(linked := NextActive(s.jobs, i), output := true)];
  }

  lemma {:induction false} NextActiveIs(jobs: Chain, i: nat, k: nat)
    requires i < k < |jobs| && jobs[k].active && NoneActive(jobs, i + 1, k)
    ensures NextActive(jobs, i) == Some(k)
    decreases k - i
  {
    if i + 1 < k {
      NextActiveIs(jobs, i + 1, k);
    }
  }
}
