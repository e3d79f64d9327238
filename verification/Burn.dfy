/** A burn as the object it is (rejilla-burn.c): its fields are changed in place, and every operation is proved to do
    what its namesake in module Drives or Protocol does to the state. */
module Burn {
  import opened Flags
  import opened MediumFlags
  import opened Consistency
  import opened Drives
  import BurnLaws
  import Protocol
  import Caps
  import FindLink
  import Planning = NewTask

  /** The plans are those made so far. */
  ghost predicate Agrees(plan: Protocol.Plans, made: seq<seq<Planning.TaskAction>>) {
    forall k :: 0 <= k < |made| ==> plan(k) == made[k]
  }

  /** Whatever plans hold those made, running the tasks ends like this. */
  ghost predicate Runs(w: World, s: Drives.St, eraseAllowed: bool, temp: Option<Caps.TrackType>,
                       made: seq<seq<Planning.TaskAction>>, d: Protocol.Done)
    requires Protocol.Fit(w)
  {
    forall plan :: Agrees(plan, made) ==> Protocol.RunTasks(w, s, eraseAllowed, temp, plan) == d
  }

  /** Whatever plans hold those made, running the tasks from here is running them from the start. */
  ghost predicate Continues(w: World, s: Drives.St, now: Drives.St, eraseAllowed: bool, temp: Option<Caps.TrackType>,
                            made: seq<seq<Planning.TaskAction>>)
    requires Protocol.Fit(w)
  {
    forall plan :: Agrees(plan, made) ==>
      Protocol.RunTasksPatiently(w, s, eraseAllowed, temp, plan)
        == Protocol.RunTasksPatiently(w, now, eraseAllowed, temp, plan)
  }

  ghost predicate RunsPatiently(w: World, s: Drives.St, eraseAllowed: bool, temp: Option<Caps.TrackType>,
                                made: seq<seq<Planning.TaskAction>>, d: Protocol.Done)
    requires Protocol.Fit(w)
  {
    forall plan :: Agrees(plan, made) ==> Protocol.RunTasksPatiently(w, s, eraseAllowed, temp, plan) == d
  }

  ghost predicate Records(w: World, s: Drives.St, eraseAllowed: bool, temp: Option<Caps.TrackType>,
                          made: seq<seq<Planning.TaskAction>>, d: Protocol.Done)
    requires Protocol.Fit(w)
  {
    forall plan :: Agrees(plan, made) ==> Protocol.RecordSession(w, s, eraseAllowed, temp, plan) == d
  }

  /** One run of the tasks, and what follows from it for all of them. */
  lemma {:induction false} OneRun(w: World, s: Drives.St, now: Drives.St, eraseAllowed: bool,
                                  temp: Option<Caps.TrackType>, made: seq<seq<Planning.TaskAction>>,
                                  more: seq<seq<Planning.TaskAction>>, d: Protocol.Done)
    requires Protocol.Fit(w) && made <= more
    requires Continues(w, s, now, eraseAllowed, temp, made) && Runs(w, now, eraseAllowed, temp, more, d)
    ensures if d.r == Retry then Continues(w, s, d.s, eraseAllowed, temp, more)
            else RunsPatiently(w, s, eraseAllowed, temp, more, d)
  {
    forall plan | Agrees(plan, more)
      ensures Protocol.RunTasksPatiently(w, s, eraseAllowed, temp, plan) ==
                if d.r == Retry then Protocol.RunTasksPatiently(w, d.s, eraseAllowed, temp, plan) else d
    {
      assert Agrees(plan, made);
    }
  }

  ghost predicate RunsAfter(w: World, s: Drives.St, dummy: bool, temp: Option<Caps.TrackType>,
                            made: seq<seq<Planning.TaskAction>>, d: Protocol.Done)
    requires Protocol.Fit(w)
  {
    forall plan :: Agrees(plan, made) ==> Protocol.AfterTasks(w, s, dummy, temp, plan) == d
  }

  /** The tasks, and what follows them. */
  lemma {:induction false} Recorded(w: World, s: Drives.St, eraseAllowed: bool, temp: Option<Caps.TrackType>,
                                    made: seq<seq<Planning.TaskAction>>, more: seq<seq<Planning.TaskAction>>,
                                    d: Protocol.Done, end: Protocol.Done)
    requires Protocol.Fit(w) && made <= more && RunsPatiently(w, s, eraseAllowed, temp, made, d)
    requires if d.r != BurnOk || w.isDestFile then end == d else RunsAfter(w, d.s, d.dummy, temp, more, end)
    ensures Records(w, s, eraseAllowed, temp, more, end)
  {
    forall plan | Agrees(plan, more) ensures Protocol.RecordSession(w, s, eraseAllowed, temp, plan) == end {
      assert Agrees(plan, made);
    }
  }

  lemma {:induction false} PlanIs(w: World, s: Drives.St, temp: Option<Caps.TrackType>, plan: Protocol.Plans,
                                  made: seq<seq<Planning.TaskAction>>, actions: seq<Planning.TaskAction>)
    requires Protocol.Fit(w) && s.planned == |made| && Agrees(plan, made + [actions])
    requires Protocol.LegalPlan(w, s, temp, First(s).input, actions)
    ensures Protocol.PlanNow(w, s, temp, plan) == actions
  {
    assert (made + [actions])[|made|] == actions;
  }

  /** The checks let the burn go on, and whatever plans hold those made give these actions; or they do not. */
  ghost predicate Prepares(w: World, s: Drives.St, temp: Option<Caps.TrackType>, made: seq<seq<Planning.TaskAction>>,
                           t: Drives.St, r: BurnResult, actions: seq<Planning.TaskAction>)
    requires Protocol.Fit(w) && s.pile != []
  {
    var o := Protocol.CheckBefore(w, s, temp);
    && o.r == r
    && if r != BurnOk then t == o.s
       else
         && t == Protocol.Planned(o.s)
         && forall plan :: Agrees(plan, made) ==> Protocol.PlanNow(w, o.s, temp, plan) == actions
  }

  lemma {:induction false} TasksPlanned(w: World, s: Drives.St, temp: Option<Caps.TrackType>, t: Drives.St,
                                        made: seq<seq<Planning.TaskAction>>, actions: seq<Planning.TaskAction>)
    requires Protocol.Fit(w) && s.pile != [] && Out(t, BurnOk) == Protocol.CheckBefore(w, s, temp)
    requires t.planned == |made| && Protocol.LegalPlan(w, t, temp, First(t).input, actions)
    ensures Prepares(w, s, temp, made + [actions], Protocol.Planned(t), BurnOk, actions)
  {
    forall plan | Agrees(plan, made + [actions]) ensures Protocol.PlanNow(w, t, temp, plan) == actions {
      PlanIs(w, t, temp, plan, made, actions);
    }
  }

  lemma {:induction false} TasksRun(w: World, s: Drives.St, eraseAllowed: bool, temp: Option<Caps.TrackType>,
                                    made: seq<seq<Planning.TaskAction>>, before: Out, actions: seq<Planning.TaskAction>,
                                    d: Protocol.Done)
    requires Protocol.Fit(w) && before.s.pile != []
    requires Prepares(w, Protocol.Push(s), temp, made, before.s, before.r, actions)
    requires d == if before.r != BurnOk then Protocol.Done(Protocol.Pop(before.s), before.r, false, false)
                  else Protocol.RunPlanned(w, before.s, actions, temp, eraseAllowed)
    ensures Runs(w, s, eraseAllowed, temp, made, d)
  {
  }

  ghost predicate Images(w: World, s: Drives.St, made: seq<seq<Planning.TaskAction>>, d: Protocol.Done)
    requires Protocol.Fit(w)
  {
    forall plan :: Agrees(plan, made) ==> Protocol.SameSrcDestImage(w, s, plan) == d
  }

  ghost predicate Readies(w: World, s: Drives.St, made: seq<seq<Planning.TaskAction>>, d: Protocol.Done)
    requires Protocol.Fit(w)
  {
    forall plan :: Agrees(plan, made) ==> Protocol.Prepare(w, s, plan) == d
  }

  ghost predicate RecordsLocked(w: World, s: Drives.St, made: seq<seq<Planning.TaskAction>>, d: Protocol.Done)
    requires Protocol.Fit(w)
  {
    forall plan :: Agrees(plan, made) ==> Protocol.RecordLocked(w, s, plan) == d
  }

  /** An image was made from the locked source, and then the drive is emptied. */
  lemma {:induction false} ImageMade(w: World, s: Drives.St, made: seq<seq<Planning.TaskAction>>, locked: Drives.St,
                                     d: Protocol.Done, end: Protocol.Done)
    requires Protocol.Fit(w) && First(s).result == BurnOk && !First(s).input.Disc?
    requires LockSrc(w, Rest(s)) == Out(locked, BurnOk)
    requires Records(w, locked, true, Some(First(s).input), made, d)
    requires var o := if d.s.src.Some? then EjectDrive(w, d.s, d.s.src.value) else Out(d.s, BurnOk);
             end == if d.r != BurnOk then d
                    else Protocol.Done(if o.r == BurnOk then UnlockSrc(w, o.s) else o.s, o.r, false, false)
    ensures Images(w, s, made, end)
  {
  }

  /** The drives are ready, and then the session is recorded. */
  lemma {:induction false} ReadyRecorded(w: World, s: Drives.St, made: seq<seq<Planning.TaskAction>>,
                                         more: seq<seq<Planning.TaskAction>>, ready: Protocol.Done, end: Protocol.Done)
    requires Protocol.Fit(w) && made <= more && Readies(w, s, made, ready)
    requires if ready.r != BurnOk then end == ready
             else
               var rest := Rest(ready.s);
               var lock := if First(ready.s).input.Disc? then LockSrc(w, rest) else Out(rest, BurnOk);
               if lock.r != BurnOk then end == Protocol.Done(lock.s, lock.r, false, false)
               else Records(w, lock.s, true, None, more, end)
    ensures RecordsLocked(w, s, more, end)
  {
    forall plan | Agrees(plan, more) ensures Protocol.RecordLocked(w, s, plan) == end {
      assert Agrees(plan, made);
    }
  }

  /** What is left to do, and what it comes to in the end. */
  ghost predicate ComesTo(w: World, t: Protocol.Turn, actions: seq<Planning.TaskAction>, i: nat,
                          temp: Option<Caps.TrackType>, eraseAllowed: bool, d: Protocol.Done)
    requires Protocol.Fit(w) && t.s.pile != [] && i <= |actions|
  {
    if t.over || i == |actions| then d == Protocol.Done(t.s, t.r, t.dummy, t.quit)
    else d == Protocol.RunAll(w, t.s, actions, i, temp, eraseAllowed)
  }

  lemma {:induction false} OneTurn(w: World, s: Drives.St, actions: seq<Planning.TaskAction>, i: nat,
                                   temp: Option<Caps.TrackType>, eraseAllowed: bool, t: Protocol.Turn, d: Protocol.Done)
    requires Protocol.Fit(w) && s.pile != [] && i < |actions|
    requires d == Protocol.RunAll(w, s, actions, i, temp, eraseAllowed)
    requires t == Protocol.RunOne(w, s, actions, i, temp, eraseAllowed)
    ensures t.s.pile == s.pile && ComesTo(w, t, actions, i + 1, temp, eraseAllowed, d)
  {
  }

  method ActionsOf(tasks: seq<Planning.Task>) returns (actions: seq<Planning.TaskAction>)
    ensures Protocol.Does(tasks, actions)
  {
    actions := [];
    for i := 0 to |tasks|
      invariant |actions| == i && forall k :: 0 <= k < i ==> actions[k] == tasks[k].action
    {
      actions := actions + [tasks[i].action];
    }
  }

  lemma {:induction false} RunObeys(w: World, s: Drives.St, eraseAllowed: bool, temp: Option<Caps.TrackType>,
                                    made: seq<seq<Planning.TaskAction>>, d: Protocol.Done)
    requires Protocol.Fit(w) && Runs(w, s, eraseAllowed, temp, made, d)
    ensures Protocol.IsNoDisc(temp) ==> BurnLaws.Tells(|s.trace|, s, d.s, d.quit, BurnLaws.SafeTasks(w, s, temp))
    ensures if d.quit then d.r == Cancel && d.s.pile == [s.settings] + s.pile
            else d.s.settings == s.settings && d.s.pile == s.pile
  {
    assert d == Protocol.RunTasks(w, s, eraseAllowed, temp, PlansOf(made));
    if Protocol.IsNoDisc(temp) {
      BurnLaws.TasksTell(w, s, eraseAllowed, temp, PlansOf(made));
    }
  }

  lemma {:induction false} SessionObeys(w: World, s: Drives.St, eraseAllowed: bool, temp: Option<Caps.TrackType>,
                                        made: seq<seq<Planning.TaskAction>>, d: Protocol.Done)
    requires Protocol.Fit(w) && Records(w, s, eraseAllowed, temp, made, d)
    ensures Protocol.IsNoDisc(temp) ==> BurnLaws.Tells(|s.trace|, s, d.s, d.quit, BurnLaws.SafeTasks(w, s, temp))
    ensures BurnLaws.Settles(s, d.s, d.quit)
    ensures Protocol.IsNoDisc(temp) && d.r == BurnOk && !w.isDestFile ==> Protocol.Written(s, d.s, temp, false)
  {
    hide Protocol.RecordSession;
    assert d == Protocol.RecordSession(w, s, eraseAllowed, temp, PlansOf(made));
    BurnLaws.SessionSettles(w, s, eraseAllowed, temp, PlansOf(made));
    if Protocol.IsNoDisc(temp) {
      BurnLaws.SessionTells(w, s, eraseAllowed, temp, PlansOf(made));
      if !w.isDestFile {
        BurnLaws.SessionWrites(w, s, eraseAllowed, temp, PlansOf(made));
      }
    }
  }

  lemma {:induction false} RecordObeys(w: World, s: Drives.St, plan: Protocol.Plans, d: Protocol.Done)
    requires Protocol.Fit(w) && d == Protocol.Record(w, s, plan)
    ensures BurnLaws.Tells(|s.trace|, s, d.s, d.quit, BurnLaws.MayBegin(w, s, plan))
    ensures BurnLaws.Settles(s, d.s, d.quit)
    ensures s.src.None? && s.dest.None? ==> BurnLaws.Unlocks(w, s, d.s)
    ensures d.r == BurnOk && !w.isDestFile ==> Protocol.EndsRecorded(d.s, None, false)
  {
    hide Protocol.Record;
    BurnLaws.RecordTells(w, s, plan);
    BurnLaws.RecordSettles(w, s, plan);
    if s.src.None? && s.dest.None? {
      BurnLaws.RecordUnlocks(w, s, plan);
    }
    if d.r == BurnOk && !w.isDestFile {
      BurnLaws.RecordWrites(w, s, plan);
    }
  }

  /** Plans that hold those made. */
  ghost function PlansOf(made: seq<seq<Planning.TaskAction>>): (plan: Protocol.Plans)
    ensures Agrees(plan, made)
  {
    (k: nat) => if k < |made| then made[k] else []
  }

  class Burn {
    const world: World
    var srcDrive: Option<Drive>
    var src: Option<Drive>
    var dest: Option<Drive>
    var locked: set<Drive>
    var disc: nat
    var settings: Settings
    var pile: seq<Settings>
    var script: seq<Answer>
    ghost var stuck: set<Drive>
    ghost var lost: set<Drive>
    ghost var trace: seq<Event>
    ghost var made: seq<seq<Planning.TaskAction>>

    ghost function State(): Drives.St
      reads this
    {
      Drives.St(srcDrive, src, dest, locked, stuck, lost, disc, settings, pile, script, trace, |made|)
    }

    constructor (world: World, srcDrive: Option<Drive>, settings: Settings, script: seq<Answer>)
      ensures this.world == world && made == []
      ensures State() == Drives.St(srcDrive, None, None, {}, {}, {}, 0, settings, [], script, [], 0)
    {
      this.world, this.srcDrive, this.settings, this.script := world, srcDrive, settings, script;
      src, dest, locked, disc, pile := None, None, {}, 0, [];
      stuck, lost, trace, made := {}, {}, [], [];
    }

    // ----- waiting and asking -----

    method Ask() returns (a: Answer)
      modifies this`script
      ensures a == First(old(State())) && State() == Rest(old(State()))
    {
      if script == [] {
        return SILENCE;
      }
      a := script[0];
      script := script[1..];
    }

    method Sleep() returns (r: BurnResult)
      modifies this`script
      ensures Out(State(), r) == Drives.Sleep(old(State()))
    {
      var a := Ask();
      r := if a.yes then BurnOk else Cancel;
    }

    method WaitWhileBusy() returns (r: BurnResult)
      modifies this`script
      ensures Out(State(), r) == Drives.WaitWhileBusy(old(State()))
    {
      ghost var goal := Drives.WaitWhileBusy(State());
      var busy := true;
      while busy
        invariant Drives.WaitWhileBusy(State()) == goal || (!busy && goal == Out(State(), BurnOk))
        invariant busy ==> Drives.WaitWhileBusy(State()) == goal
        invariant !busy ==> goal == Out(State(), BurnOk)
        decreases |script|, busy
      {
        var a := Ask();
        busy := a.yes;
        if busy {
          r := Sleep();
          if r != BurnOk {
            return;
          }
        }
      }
      return BurnOk;
    }

    method Unmount() returns (r: BurnResult)
      modifies this`script
      ensures Out(State(), r) == Drives.Unmount(old(State()), 0)
    {
      ghost var goal := Drives.Unmount(State(), 0);
      var counter, mounted := 0, true;
      while mounted
        invariant mounted ==> Drives.Unmount(State(), counter) == goal
        invariant !mounted ==> goal == Out(State(), BurnOk)
        decreases |script|, mounted
      {
        var a := Ask();
        mounted := a.yes;
        if mounted {
          counter := counter + 1;
          if counter > MAX_EJECT_ATTEMPTS {
            return BurnErr;
          }
          r := Sleep();
          if r != BurnOk {
            return;
          }
        }
      }
      return BurnOk;
    }

    method Unlock(drive: Drive) returns (ok: bool)
      modifies this`script, this`locked, this`stuck, this`lost
      ensures State() == Drives.Unlock(old(State()), drive) && ok == First(old(State())).yes
    {
      var a := Ask();
      ok := a.yes;
      if ok {
        locked := locked - {drive};
        lost := lost - {drive};
      } else {
        stuck := stuck + {drive};
      }
    }

    method Release(drive: Drive)
      modifies this`script, this`locked, this`stuck, this`lost
      ensures State() == Drives.Release(old(State()), drive)
    {
      if drive in locked {
        var ok := Unlock(drive);
      }
    }

    method DiscChanges(drive: Option<Drive>)
      modifies this`disc
      ensures State() == Drives.DiscChanges(world, old(State()), drive)
    {
      if drive == world.burner && world.burner.Some? {
        disc := disc + 1;
      }
    }

    /** One attempt to eject, or just a pause while the drive is probing. */
    method Attempt(drive: Drive, counter: nat) returns (r: BurnResult, present: bool, attempts: nat)
      modifies this`script, this`disc
      ensures Drives.EjectLoop(world, old(State()), drive, counter) ==
                if r == BurnOk && present then Drives.EjectLoop(world, State(), drive, attempts) else Out(State(), r)
      ensures r == BurnOk && present ==> |script| < |old(script)|
    {
      hide Drives.Sleep, Drives.DiscChanges;
      var medium := Ask();
      if !medium.yes {
        return BurnOk, false, counter;
      }
      var probing := Ask();
      if probing.yes {
        r := Sleep();
        return r, true, counter;
      }
      if counter + 1 > MAX_EJECT_ATTEMPTS {
        var carryOn := Ask();
        return if carryOn.yes then BurnOk else Cancel, true, counter + 1;
      }
      DiscChanges(Some(drive));
      r := Sleep();
      return r, true, counter + 1;
    }

    method EjectLoop(drive: Drive) returns (r: BurnResult)
      modifies this`script, this`disc
      ensures Out(State(), r) == Drives.EjectLoop(world, old(State()), drive, 0)
    {
      ghost var goal := Drives.EjectLoop(world, State(), drive, 0);
      var counter, present := 0, true;
      r := BurnOk;
      while r == BurnOk && present
        invariant goal == if r == BurnOk && present then Drives.EjectLoop(world, State(), drive, counter)
                          else Out(State(), r)
        decreases |script|, r == BurnOk && present
      {
        r, present, counter := Attempt(drive, counter);
      }
    }

    method EjectDrive(drive: Drive) returns (r: BurnResult)
      modifies this`script, this`locked, this`stuck, this`lost, this`disc
      ensures Out(State(), r) == Drives.EjectDrive(world, old(State()), drive)
    {
      r := Unmount();
      if r != BurnOk {
        return;
      }
      if drive in locked {
        var ok := Unlock(drive);
        if !ok {
          return BurnErr;
        }
      }
      r := EjectLoop(drive);
    }

    method AskForMedia(drive: Option<Drive>) returns (r: BurnResult)
      modifies this`script, this`disc
      ensures Out(State(), r) == Drives.AskForMedia(world, old(State()), drive)
    {
      var a := Ask();
      DiscChanges(drive);
      r := if a.yes then BurnOk else Cancel;
    }

    method AskForSrcMedia() returns (r: BurnResult)
      modifies this`script, this`locked, this`stuck, this`lost, this`disc
      ensures Out(State(), r) == Drives.AskForSrcMedia(world, old(State()))
    {
      var present := Ask();
      if src.Some? && present.yes {
        r := EjectDrive(src.value);
        if r != BurnOk {
          return;
        }
      }
      r := AskForMedia(src);
    }

    method AskForDestMedia() returns (r: BurnResult)
      modifies this`script, this`locked, this`stuck, this`lost, this`disc
      ensures Out(State(), r) == Drives.AskForDestMedia(world, old(State()))
    {
      var drive := if dest.None? then world.burner else dest;
      if drive.None? {
        return BurnErr;
      }
      var present := Ask();
      if present.yes {
        r := EjectDrive(drive.value);
        if r != BurnOk {
          return;
        }
      }
      r := AskForMedia(drive);
    }

    // ----- locking and unlocking -----

    method Lock(drive: Drive) returns (ok: bool)
      modifies this`script, this`locked
      ensures State() == Drives.Lock(old(State()), drive) && ok == CanLock(old(State()), drive)
    {
      if drive in locked {
        return true;
      }
      var a := Ask();
      ok := a.yes;
      if ok {
        locked := locked + {drive};
      }
    }

    /** The source is the one the session names now. A drive that is forgotten stays as it is, locked or not. */
    method TakeSource()
      modifies this`src, this`lost, this`trace
      ensures State() == Drives.TakeSource(old(State()))
    {
      ghost var old' := src;
      src := srcDrive;
      if old'.Some? && old' != src {
        if old'.value in locked {
          lost := lost + {old'.value};
        }
        trace := trace + [SourceLost(old'.value, old'.value in locked)];
      }
    }

    method LockSrc() returns (r: BurnResult)
      modifies this`script, this`locked, this`stuck, this`lost, this`disc, this`src, this`trace
      ensures Out(State(), r) == Drives.LockSrc(world, old(State()))
    {
      TakeSource();
      if src.None? {
        return BurnErr;
      }
      ghost var goal := LockSrcLoop(world, State());
      var blank := true;
      while blank
        invariant src.Some?
        invariant blank ==> LockSrcLoop(world, State()) == goal
        invariant !blank ==>
                  goal == Out(Drives.Lock(State(), src.value), if CanLock(State(), src.value) then BurnOk else BurnErr)
        decreases |script|, blank
      {
        r := WaitWhileBusy();
        if r != BurnOk {
          return;
        }
        var medium := Ask();
        blank := medium.yes;
        if blank {
          r := AskForSrcMedia();
          if r != BurnOk {
            return;
          }
        }
      }
      var ok := Lock(src.value);
      return if ok then BurnOk else BurnErr;
    }

    method ReloadSrc() returns (r: BurnResult)
      modifies this`script, this`locked, this`stuck, this`lost, this`disc, this`src, this`trace
      ensures Out(State(), r) == Drives.ReloadSrc(world, old(State()))
    {
      r := AskForSrcMedia();
      if r == BurnOk {
        r := LockSrc();
      }
    }

    method LockRewritable() returns (r: BurnResult)
      modifies this`script, this`locked, this`stuck, this`lost, this`disc, this`dest
      ensures Out(State(), r) == Drives.LockRewritable(world, old(State()))
    {
      dest := world.burner;
      if dest.None? {
        return NotSupported;
      }
      ghost var goal := LockRewritableLoop(world, State());
      var unfit := true;
      while unfit
        invariant dest.Some? && dest == world.burner
        invariant unfit ==> LockRewritableLoop(world, State()) == goal
        invariant !unfit ==>
                  goal == Out(Drives.Lock(State(), dest.value),
                              if CanLock(State(), dest.value) then BurnOk else BurnErr)
        decreases |script|, unfit
      {
        r := WaitWhileBusy();
        if r != BurnOk {
          return;
        }
        var rewritable := Ask();
        if !rewritable.yes {
          return NotSupported;
        }
        var medium := Ask();
        unfit := medium.yes;
        if unfit {
          r := AskForDestMedia();
          if r != BurnOk {
            return;
          }
        }
      }
      var ok := Lock(dest.value);
      return if ok then BurnOk else BurnErr;
    }

    method LockDest() returns (r: BurnResult)
      modifies this`script, this`locked, this`stuck, this`lost, this`dest
      ensures Out(State(), r) == Drives.LockDest(world, old(State()))
    {
      dest := world.burner;
      if dest.None? {
        return BurnErr;
      }
      var canWrite := Ask();
      if !canWrite.yes {
        return NotSupported;
      }
      r := WaitWhileBusy();
      if r != BurnOk {
        return;
      }
      var medium := Ask();
      if medium.yes {
        r := Unmount();
        if r != BurnOk {
          return;
        }
        var fits := Ask();
        if fits.yes {
          var ok := Lock(dest.value);
          return if ok then BurnOk else BurnErr;
        }
      }
      Release(dest.value);
      return NeedReload;
    }

    method ReloadDest() returns (r: BurnResult)
      modifies this`script, this`locked, this`stuck, this`lost, this`disc, this`dest
      ensures Out(State(), r) == Drives.ReloadDest(world, old(State()))
    {
      ghost var goal := Drives.ReloadDest(world, State());
      r := NeedReload;
      while r == NeedReload
        invariant if r == NeedReload then Drives.ReloadDest(world, State()) == goal else goal == Out(State(), r)
        decreases |script|, r == NeedReload
      {
        r := AskForDestMedia();
        if r != BurnOk {
          return;
        }
        r := LockDest();
      }
    }

    method UnlockSrc()
      modifies this`script, this`locked, this`stuck, this`lost, this`src
      ensures State() == Drives.UnlockSrc(world, old(State()))
    {
      if src.None? {
        return;
      }
      var mountedByUs := Ask();
      if mountedByUs.yes {
        var r := Unmount();
      }
      Release(src.value);
      src := None;
    }

    method UnlockDest()
      modifies this`script, this`locked, this`stuck, this`lost, this`disc, this`dest
      ensures State() == Drives.UnlockDest(world, old(State()))
    {
      if dest.None? {
        return;
      }
      Release(dest.value);
      if Eject in settings.flags {
        var r := EjectDrive(dest.value);
      }
      dest := None;
    }

    method UnlockMedias()
      modifies this`script, this`locked, this`stuck, this`lost, this`disc, this`src, this`dest
      ensures State() == Drives.UnlockMedias(world, old(State()))
    {
      UnlockDest();
      UnlockSrc();
    }

    // ----- running tasks -----

    method RunTask() returns (run: Answer)
      modifies this`script
      ensures State() == Rest(old(State())) && run == Protocol.TaskAnswer(old(State()))
    {
      run := Ask();
      if run.result == Retry {
        run := run.(result := BurnErr);
      }
    }

    method RunEraser() returns (r: BurnResult)
      modifies this`script, this`disc
      ensures Out(State(), r) == Protocol.RunEraser(old(State()))
    {
      r := Unmount();
      if r != BurnOk {
        return;
      }
      var run := RunTask();
      disc := disc + 1;
      r := run.result;
      if r == BurnOk {
        r := WaitWhileBusy();
      }
    }

    method MendImager(error: BurnError) returns (r: BurnResult)
      modifies this`script, this`locked, this`stuck, this`lost, this`disc, this`src, this`trace
      ensures Out(State(), r) == Protocol.MendImager(world, old(State()), error)
    {
      r := BurnErr;
      if error == NoDataError {
        r := ReloadSrc();
      } else if error == JolietError || error == PlaceError {
        var user := Ask();
        r := user.result;
      }
    }

    method RunImager() returns (r: BurnResult)
      modifies this`script, this`locked, this`stuck, this`lost, this`disc, this`src, this`trace
      ensures Out(State(), r) == Protocol.RunImager(world, old(State()))
    {
      ghost var goal := Protocol.RunImager(world, State());
      while true
        invariant Protocol.RunImager(world, State()) == goal
        decreases |script|
      {
        r := Unmount();
        if r != BurnOk {
          return;
        }
        var run := RunTask();
        r := run.result;
        if r != BurnErr || run.error == NoError {
          return;
        }
        r := MendImager(run.error);
        if r != BurnOk {
          return;
        }
      }
    }

    method HandBack()
      modifies this`script, this`srcDrive
      ensures State() == Protocol.HandBack(old(State()))
    {
      var handed := Ask();
      if handed.yes {
        srcDrive := None;
      }
    }

    method FreeDrives() returns (r: BurnResult)
      modifies this`script
      ensures Out(State(), r) == Protocol.FreeDrives(old(State()))
    {
      if NoTmpFiles in settings.flags {
        r := Unmount();
        if r != BurnOk {
          return;
        }
      }
      r := Unmount();
      if r == BurnOk {
        r := WaitWhileBusy();
      }
    }

    method MendRecorder(error: BurnError) returns (r: BurnResult)
      modifies this`script, this`locked, this`stuck, this`lost, this`disc, this`src, this`dest, this`settings,
               this`trace
      ensures Out(State(), r) == Protocol.MendRecorder(world, old(State()), error)
    {
      match error {
        case JolietError =>
          var user := Ask();
          r := user.result;
        case NeedReloadingError =>
          r := ReloadSrc();
        case SlowDmaError =>
          r := Sleep();
          if r == BurnOk {
            settings := settings.(rate := Protocol.SlowerRate(settings.rate));
          }
        case SpaceError =>
          if settings.flags * {Append, Merge} != {} {
            return BurnErr;
          }
          r := ReloadDest();
        case NoDataError => r := ReloadDest();
        case NotRewritableError => r := ReloadDest();
        case OtherMediumError => r := ReloadDest();
        case _ => r := BurnErr;
      }
    }

    method RunOnBurner(temp: Option<Caps.TrackType>) returns (run: Answer)
      modifies this`script, this`trace
      ensures run == Protocol.TaskAnswer(old(State()))
      ensures State() == Protocol.Logged(Rest(old(State())), Protocol.Recording(world, old(State()), temp))
    {
      trace := trace + [Protocol.Recording(world, State(), temp)];
      run := RunTask();
    }

    method RunRecorder(temp: Option<Caps.TrackType>) returns (r: BurnResult)
      modifies this`script, this`locked, this`stuck, this`lost, this`disc, this`src, this`dest, this`settings,
               this`trace
      ensures Out(State(), r) == Protocol.RunRecorder(world, old(State()), temp)
    {
      ghost var goal := Protocol.RunRecorder(world, State(), temp);
      while true
        invariant Protocol.RunRecorder(world, State(), temp) == goal
        decreases |script|
      {
        r := FreeDrives();
        if r != BurnOk {
          return;
        }
        var run := RunOnBurner(temp);
        r := run.result;
        if r != BurnErr || run.error == NoError {
          return;
        }
        r := MendRecorder(run.error);
        if r != BurnOk {
          return;
        }
      }
    }

    // ----- the checks before the tasks -----

    /** The flags wanted come back one by one, and then the compulsory ones. */
    method CorrectFlags(q: Session, flags: BurnFlags) returns (r: BurnResult)
      requires FindLink.Ranked(q.graph, q.rank)
      modifies this`settings
      ensures settings.rate == old(settings).rate
      ensures match CheckFlags(Asking(q), flags)
              case Refused(result) => r == result != BurnOk && settings.flags == {}
              case MergeImpossible(reached) => r == BurnErr && settings.flags == reached
              case Corrected(kept, compulsory) => r == BurnOk && settings.flags == kept + compulsory
    {
      ghost var asked := CheckFlags(Asking(q), flags);
      settings := settings.(flags := {});
      var a := AskFlags(q, {});
      if a.result != BurnOk {
        return a.result;
      }
      var supported, compulsory := a.supported, a.compulsory;
      for i := 0 to |CHECKED|
        invariant settings.rate == old(settings).rate
        invariant CheckFrom(Asking(q), flags, i, settings.flags, supported, compulsory) == asked
      {
        var flag := CHECKED[i];
        if flag in flags {
          if flag in supported {
            settings := settings.(flags := settings.flags + {flag});
            a := AskFlags(q, settings.flags);
            if a.result == BurnOk {
              supported, compulsory := a.supported, a.compulsory;
            }
          } else if flag == Merge {
            return BurnErr;
          }
        }
      }
      settings := settings.(flags := settings.flags + compulsory);
      return BurnOk;
    }

    method CheckSessionConsistency(temp: Option<Caps.TrackType>) returns (r: BurnResult)
      requires Protocol.Fit(world)
      modifies this`script, this`settings
      ensures Out(State(), r) == Protocol.CheckSessionConsistency(world, old(State()), temp)
    {
      var empty := Ask();
      if empty.input.NoTrack? {
        return BurnErr;
      }
      var flags := settings.flags;
      var q := Session(world.graph, world.rank, world.isDestFile || (temp.Some? && !temp.value.Disc?), empty.input,
                       if world.burner.Some? && srcDrive == world.burner then Some(world.copying) else None,
                       world.media(disc), world.can(disc));
      assert q == Protocol.SessionOf(world, old(State()), temp, empty.input);
      r := CorrectFlags(q, flags);
      if r == BurnOk {
        var ready := Ask();
        r := ready.result;
      }
    }

    method PushSettings()
      modifies this`pile
      ensures State() == Protocol.Push(old(State()))
    {
      pile := [settings] + pile;
    }

    method PopSettings()
      modifies this`settings, this`pile
      ensures State() == Protocol.Pop(old(State()))
    {
      if pile != [] {
        settings := pile[0];
        pile := pile[1..];
      }
    }

    method Prompt(q: Question) returns (r: BurnResult)
      modifies this`script, this`trace
      ensures Out(State(), r) == Protocol.Prompt(old(State()), q)
    {
      var a := Ask();
      r := a.result;
      trace := trace + [Asked(q, r)];
    }

    method MergeInstead() returns (r: BurnResult)
      requires Protocol.Fit(world) && pile != []
      modifies this`script, this`settings, this`pile
      ensures Out(State(), r) == Protocol.MergeInstead(world, old(State()))
    {
      PopSettings();
      PushSettings();
      settings := settings.(flags := settings.flags + {Merge});
      r := CheckSessionConsistency(None);
    }

    method WarnAboutContent(media: Media, flags: BurnFlags, input: Caps.TrackType) returns (r: BurnResult, reload: bool)
      requires Protocol.Fit(world) && pile != []
      modifies this`script, this`settings, this`pile, this`trace
      ensures Protocol.Warned(State(), r, reload) == Protocol.WarnAboutContent(world, old(State()), media, flags, input)
    {
      reload := false;
      if BlankBeforeWrite in flags {
        r := Prompt(LoseData);
        return r, r == NeedReload;
      }
      r := BurnOk;
      if MediumCd in media && Protocol.OnlyAudio(input) {
        r := Prompt(AppendAudio);
        if r != BurnOk {
          return r, r == NeedReload;
        }
      }
      if MediumHasData in media && input.Data? && Merge !in flags {
        r := Prompt(LosePrevious);
        if r == Retry {
          r := MergeInstead();
          return;
        }
        reload := r == NeedReload;
      }
    }

    method WarnAboutRewritable(input: Caps.TrackType) returns (r: BurnResult)
      modifies this`script, this`trace
      ensures Out(State(), r) == Protocol.WarnAboutRewritable(old(State()), input)
    {
      r := BurnOk;
      if Protocol.OnlyAudio(input) {
        r := Prompt(AudioOnRewritable);
      } else if input.Disc? && MediumHasAudio in input.media {
        r := Prompt(AudioOnRewritable);
      }
    }

    method WarnAboutLoss(media: Media, flags: BurnFlags) returns (r: BurnResult, reload: bool)
      requires Protocol.Fit(world) && pile != []
      modifies this`script, this`settings, this`pile, this`trace
      ensures Protocol.Warned(State(), r, reload) == Protocol.WarnAboutLoss(world, old(State()), media, flags)
    {
      var session := Ask();
      r, reload := BurnOk, false;
      if Protocol.HasContent(media) {
        r, reload := WarnAboutContent(media, flags, session.input);
        if r != BurnOk {
          return;
        }
      }
      if MediumRewritable in media {
        r := WarnAboutRewritable(session.input);
        reload := r == NeedReload;
      }
    }

    method CheckDataLoss() returns (r: BurnResult)
      requires Protocol.Fit(world) && pile != []
      modifies this`script, this`locked, this`stuck, this`lost, this`disc, this`dest, this`settings, this`pile,
               this`trace
      ensures Out(State(), r) == Protocol.CheckDataLoss(world, old(State()))
    {
      if !Protocol.OutputIsDisc(world) {
        return BurnOk;
      }
      var media := world.media(disc);
      trace := trace + [Checked(disc, media, settings.flags)];
      var reload;
      r, reload := WarnAboutLoss(media, settings.flags);
      if reload {
        r := ReloadDest();
        if r == BurnOk {
          r := Retry;
        }
      }
    }

    // ----- the tasks -----

    /** Any plans that hold those made so far make the burn do what it does. */
    method PlanTasks(temp: Option<Caps.TrackType>) returns (actions: seq<Planning.TaskAction>)
      requires Protocol.Fit(world)
      modifies this`script, this`made
      ensures made == old(made) + [actions] && State() == Rest(old(State())).(planned := |made|)
      ensures Protocol.LegalPlan(world, old(State()), temp, First(old(State())).input, actions)
    {
      ghost var s := State();
      var session := Ask();
      var output := if temp.Some? then temp.value
                    else if world.isDestFile then world.imageOutput
                    else if world.burner.Some? then Caps.Disc(world.media(disc))
                    else Caps.NoTrack;
      var driveOk := !Protocol.OutputIsDisc(world) || DriveTakes(world.media(disc), world.can(disc), settings.flags);
      var canBlank := FindBlanker(world.graph, true, world.media(disc), settings.flags);
      var tasks, plan := Planning.NewTask(world.graph, world.group, settings.flags, session.input, output,
                                          driveOk, canBlank, world.eraser(disc));
      actions := ActionsOf(tasks);
      made := made + [actions];
      assert Protocol.RequestOf(world, s, temp, session.input) ==
             Planning.Request(world.group, s.settings.flags, session.input, output, driveOk, canBlank,
                              world.eraser(s.disc));
      assert Planning.Fulfils(world.graph, Protocol.RequestOf(world, s, temp, session.input), tasks, plan)
             && Protocol.Does(tasks, actions);
    }

    method EraseStep(temp: Option<Caps.TrackType>, eraseAllowed: bool) returns (r: BurnResult, over: bool, quit: bool)
      requires Protocol.Fit(world) && pile != []
      modifies this`script, this`locked, this`stuck, this`lost, this`disc, this`dest, this`settings, this`pile,
               this`trace
      ensures Protocol.Turn(State(), r, over, quit, false)
              == Protocol.EraseStep(world, old(State()), temp, eraseAllowed)
    {
      over, quit := true, false;
      var tooLarge := Ask();
      if tooLarge.yes {
        r := ReloadDest();
        if r == BurnOk {
          r := Retry;
        }
        return;
      }
      if !eraseAllowed {
        return BurnOk, false, false;
      }
      ghost var here, safe := disc, BurnerLocked(world, State());
      r := RunEraser();
      trace := trace + [Erased(here, safe, r)];
      if r == Cancel {
        return r, true, true;
      }
      if r != BurnOk {
        var another := Ask();
        if another.result == BurnOk {
          var reloaded := ReloadDest();
          if reloaded == BurnOk {
            r := Retry;
          }
        }
        return;
      }
      PopSettings();
      PushSettings();
      r := CheckSessionConsistency(temp);
      over := r != BurnOk;
    }

    method LastTask(temp: Option<Caps.TrackType>) returns (r: BurnResult, dummy: bool)
      modifies this`script, this`locked, this`stuck, this`lost, this`disc, this`srcDrive, this`src, this`dest,
               this`settings, this`trace
      ensures Protocol.Turn(State(), r, true, false, dummy) == Protocol.LastTask(world, old(State()), temp)
    {
      dummy := false;
      if world.isDestFile {
        r := RunImager();
        if r == BurnOk {
          HandBack();
        }
      } else {
        dummy := Dummy in settings.flags;
        r := RunRecorder(temp);
        if r == BurnOk && temp.Some? {
          HandBack();
        }
      }
    }

    method RunOne(actions: seq<Planning.TaskAction>, i: nat, temp: Option<Caps.TrackType>, eraseAllowed: bool)
      returns (r: BurnResult, over: bool, quit: bool, dummy: bool)
      requires Protocol.Fit(world) && pile != [] && i < |actions|
      modifies this`script, this`locked, this`stuck, this`lost, this`disc, this`srcDrive, this`src, this`dest,
               this`settings, this`pile, this`trace
      ensures Protocol.Turn(State(), r, over, quit, dummy)
              == Protocol.RunOne(world, old(State()), actions, i, temp, eraseAllowed)
    {
      over, quit, dummy := true, false, false;
      if actions[i] == Planning.ActionErase {
        r, over, quit := EraseStep(temp, eraseAllowed);
        return;
      }
      r := RunImager();
      if r != BurnOk {
        return;
      }
      if i + 1 == |actions| {
        r, dummy := LastTask(temp);
        return;
      }
      r := RunImager();
      if r == BurnOk {
        HandBack();
        over := false;
      }
    }

    /** One turn, and what is left to do after it. */
    method TakeTurn(actions: seq<Planning.TaskAction>, i: nat, temp: Option<Caps.TrackType>, eraseAllowed: bool,
                    ghost d: Protocol.Done)
      returns (r: BurnResult, over: bool, quit: bool, dummy: bool)
      requires Protocol.Fit(world) && pile != [] && i < |actions|
      requires ComesTo(world, Protocol.Turn(State(), BurnOk, false, false, false), actions, i, temp, eraseAllowed, d)
      modifies this`script, this`locked, this`stuck, this`lost, this`disc, this`srcDrive, this`src, this`dest,
               this`settings, this`pile, this`trace
      ensures pile != []
      ensures ComesTo(world, Protocol.Turn(State(), r, over, quit, dummy), actions, i + 1, temp, eraseAllowed, d)
      ensures !over ==> r == BurnOk && !quit && !dummy
    {
      hide Protocol.RunOne, Protocol.RunAll;
      ghost var s := State();
      r, over, quit, dummy := RunOne(actions, i, temp, eraseAllowed);
      OneTurn(world, s, actions, i, temp, eraseAllowed, Protocol.Turn(State(), r, over, quit, dummy), d);
    }

    method RunAll(actions: seq<Planning.TaskAction>, temp: Option<Caps.TrackType>, eraseAllowed: bool)
      returns (r: BurnResult, dummy: bool, quit: bool)
      requires Protocol.Fit(world) && pile != [] && actions != []
      modifies this`script, this`locked, this`stuck, this`lost, this`disc, this`srcDrive, this`src, this`dest,
               this`settings, this`pile, this`trace
      ensures Protocol.Done(State(), r, dummy, quit)
              == Protocol.RunAll(world, old(State()), actions, 0, temp, eraseAllowed)
    {
      hide Protocol.RunAll, Protocol.RunOne;
      ghost var d := Protocol.RunAll(world, State(), actions, 0, temp, eraseAllowed);
      var i, over := 0, false;
      r, dummy, quit := BurnOk, false, false;
      while !over && i < |actions|
        invariant i <= |actions| && pile != []
        invariant !over ==> r == BurnOk && !quit && !dummy
        invariant ComesTo(world, Protocol.Turn(State(), r, over, quit, dummy), actions, i, temp, eraseAllowed, d)
        decreases |actions| - i
      {
        r, over, quit, dummy := TakeTurn(actions, i, temp, eraseAllowed, d);
        i := i + 1;
      }
    }

    method CheckBefore(temp: Option<Caps.TrackType>) returns (r: BurnResult)
      requires Protocol.Fit(world) && pile != []
      modifies this`script, this`locked, this`stuck, this`lost, this`disc, this`dest, this`settings, this`pile,
               this`trace
      ensures Out(State(), r) == Protocol.CheckBefore(world, old(State()), temp)
    {
      r := CheckSessionConsistency(temp);
      if r == BurnOk {
        r := CheckDataLoss();
      }
    }

    method RunPlanned(actions: seq<Planning.TaskAction>, temp: Option<Caps.TrackType>, eraseAllowed: bool)
      returns (r: BurnResult, dummy: bool, quit: bool)
      requires Protocol.Fit(world) && pile != []
      modifies this`script, this`locked, this`stuck, this`lost, this`disc, this`srcDrive, this`src, this`dest,
               this`settings, this`pile, this`trace
      ensures Protocol.Done(State(), r, dummy, quit)
              == Protocol.RunPlanned(world, old(State()), actions, temp, eraseAllowed)
    {
      if actions == [] {
        PopSettings();
        return NotSupported, false, false;
      }
      r, dummy, quit := RunAll(actions, temp, eraseAllowed);
      if !quit {
        PopSettings();
      }
    }

    /** Checks and plans the tasks; there are no actions unless all is well. */
    method PrepareTasks(temp: Option<Caps.TrackType>) returns (r: BurnResult, actions: seq<Planning.TaskAction>)
      requires Protocol.Fit(world) && pile != []
      modifies this`script, this`locked, this`stuck, this`lost, this`disc, this`dest, this`settings, this`pile,
               this`trace, this`made
      ensures old(made) <= made && |script| <= |old(script)| && (r == Retry ==> |script| < |old(script)|)
      ensures Prepares(world, old(State()), temp, made, State(), r, actions)
    {
      ghost var s := State();
      r := CheckBefore(temp);
      actions := [];
      if r == BurnOk {
        ghost var before, already := State(), made;
        actions := PlanTasks(temp);
        TasksPlanned(world, s, temp, before, already, actions);
      }
    }

    method RunTasks(eraseAllowed: bool, temp: Option<Caps.TrackType>) returns (r: BurnResult, dummy: bool, quit: bool)
      requires Protocol.Fit(world)
      modifies this
      ensures old(made) <= made && |script| <= |old(script)| && (r == Retry ==> |script| < |old(script)|)
      ensures Runs(world, old(State()), eraseAllowed, temp, made, Protocol.Done(State(), r, dummy, quit))
      ensures Protocol.IsNoDisc(temp) ==>
                BurnLaws.Tells(|old(trace)|, old(State()), State(), quit, BurnLaws.SafeTasks(world, old(State()), temp))
      ensures if quit then r == Cancel && pile == [old(settings)] + old(pile)
              else settings == old(settings) && pile == old(pile)
    {
      PushSettings();
      var actions;
      r, actions := PrepareTasks(temp);
      ghost var before := Out(State(), r);
      if r != BurnOk {
        PopSettings();
        dummy, quit := false, false;
      } else {
        r, dummy, quit := RunPlanned(actions, temp, eraseAllowed);
      }
      TasksRun(world, old(State()), eraseAllowed, temp, made, before, actions, Protocol.Done(State(), r, dummy, quit));
      RunObeys(world, old(State()), eraseAllowed, temp, made, Protocol.Done(State(), r, dummy, quit));
    }

    // ----- recording -----

    method CheckRecorded() returns (r: BurnResult)
      modifies this`script
      ensures Out(State(), r) == Protocol.CheckRecorded(old(State()))
    {
      var hasChecksum := Ask();
      if !hasChecksum.yes {
        return BurnOk;
      }
      r := WaitWhileBusy();
      if r != BurnOk {
        return;
      }
      var run := RunTask();
      r := if run.result == Cancel then BurnOk else run.result;
    }

    method RunTasksPatiently(eraseAllowed: bool, temp: Option<Caps.TrackType>)
      returns (r: BurnResult, dummy: bool, quit: bool)
      requires Protocol.Fit(world)
      modifies this
      ensures old(made) <= made && |script| <= |old(script)|
      ensures RunsPatiently(world, old(State()), eraseAllowed, temp, made, Protocol.Done(State(), r, dummy, quit))
    {
      r, dummy, quit := Retry, false, false;
      while r == Retry
        invariant old(made) <= made && |script| <= |old(script)|
        invariant if r == Retry then Continues(world, old(State()), State(), eraseAllowed, temp, made)
                  else RunsPatiently(world, old(State()), eraseAllowed, temp, made,
                                     Protocol.Done(State(), r, dummy, quit))
        decreases |script|, r == Retry
      {
        ghost var now, before := State(), made;
        r, dummy, quit := RunTasks(eraseAllowed, temp);
        OneRun(world, old(State()), now, eraseAllowed, temp, before, made, Protocol.Done(State(), r, dummy, quit));
      }
    }

    method RecordSession(eraseAllowed: bool, temp: Option<Caps.TrackType>)
      returns (r: BurnResult, dummy: bool, quit: bool)
      requires Protocol.Fit(world)
      modifies this
      ensures old(made) <= made && |script| <= |old(script)|
      ensures Records(world, old(State()), eraseAllowed, temp, made, Protocol.Done(State(), r, dummy, quit))
      ensures Protocol.IsNoDisc(temp) ==>
                BurnLaws.Tells(|old(trace)|, old(State()), State(), quit, BurnLaws.SafeTasks(world, old(State()), temp))
      ensures BurnLaws.Settles(old(State()), State(), quit)
      ensures Protocol.IsNoDisc(temp) && r == BurnOk && !world.isDestFile ==>
                Protocol.Written(old(State()), State(), temp, false)
      decreases |script|, 1
    {
      r, dummy, quit := RunTasksPatiently(eraseAllowed, temp);
      ghost var d, before := Protocol.Done(State(), r, dummy, quit), made;
      if r == BurnOk && !world.isDestFile {
        r, dummy, quit := AfterTasks(dummy, temp);
      }
      Recorded(world, old(State()), eraseAllowed, temp, before, made, d, Protocol.Done(State(), r, dummy, quit));
      SessionObeys(world, old(State()), eraseAllowed, temp, made, Protocol.Done(State(), r, dummy, quit));
    }

    method AfterTasks(simulated: bool, temp: Option<Caps.TrackType>) returns (r: BurnResult, dummy: bool, quit: bool)
      requires Protocol.Fit(world)
      modifies this
      ensures old(made) <= made && |script| <= |old(script)|
      ensures RunsAfter(world, old(State()), simulated, temp, made, Protocol.Done(State(), r, dummy, quit))
      decreases |script|, 0
    {
      hide Protocol.RecordSession;
      dummy, quit := false, false;
      if !simulated {
        r := CheckRecorded();
        return;
      }
      var forReal := Ask();
      if forReal.result != BurnOk {
        return forReal.result, false, false;
      }
      settings := settings.(flags := settings.flags - {Dummy});
      r, dummy, quit := RecordSession(false, temp);
      settings := settings.(flags := settings.flags + {Dummy});
    }

    method SameSrcDestImage() returns (r: BurnResult, dummy: bool, quit: bool)
      requires Protocol.Fit(world)
      modifies this
      ensures old(made) <= made
      ensures Images(world, old(State()), made, Protocol.Done(State(), r, dummy, quit))
    {
      dummy, quit := false, false;
      var format := Ask();
      if format.result != BurnOk {
        return format.result, false, false;
      }
      if format.input.Disc? {
        return BurnErr, false, false;
      }
      r := LockSrc();
      if r != BurnOk {
        return;
      }
      ghost var locked := State();
      r, dummy, quit := RecordSession(true, Some(format.input));
      ghost var d := Protocol.Done(State(), r, dummy, quit);
      if r == BurnOk {
        dummy, quit := false, false;
        if src.Some? {
          r := EjectDrive(src.value);
        }
        if r == BurnOk {
          UnlockSrc();
        }
      }
      ImageMade(world, old(State()), made, locked, d, Protocol.Done(State(), r, dummy, quit));
    }

    method SameSrcDestReload() returns (r: BurnResult)
      modifies this`script, this`locked, this`stuck, this`lost, this`disc, this`dest
      ensures Out(State(), r) == Protocol.SameSrcDestReload(world, old(State()))
    {
      ghost var goal := Protocol.SameSrcDestReload(world, State());
      while true
        invariant Protocol.SameSrcDestReload(world, State()) == goal
        decreases |script|
      {
        r := AskForDestMedia();
        if r != BurnOk {
          return;
        }
        r := LockDest();
        if r == Cancel || r == BurnOk {
          return;
        }
      }
    }

    method LockDestPatiently() returns (r: BurnResult)
      modifies this`script, this`locked, this`stuck, this`lost, this`disc, this`dest
      ensures Out(State(), r) == Protocol.LockDestPatiently(world, old(State()))
    {
      ghost var goal := Protocol.LockDestPatiently(world, State());
      while true
        invariant Protocol.LockDestPatiently(world, State()) == goal
        decreases |script|
      {
        r := LockDest();
        if r != NeedReload {
          return;
        }
        r := AskForDestMedia();
        if r != BurnOk {
          return;
        }
      }
    }

    method Prepare() returns (r: BurnResult, dummy: bool, quit: bool)
      requires Protocol.Fit(world)
      modifies this
      ensures old(made) <= made
      ensures Readies(world, old(State()), made, Protocol.Done(State(), r, dummy, quit))
    {
      dummy, quit := false, false;
      if world.burner.Some? && srcDrive == world.burner {
        r, dummy, quit := SameSrcDestImage();
        if r == BurnOk {
          r := SameSrcDestReload();
          dummy, quit := false, false;
        }
      } else if world.isDestFile {
        r := BurnOk;
      } else {
        r := LockDestPatiently();
      }
    }

    method RecordLocked() returns (r: BurnResult, dummy: bool, quit: bool)
      requires Protocol.Fit(world)
      modifies this
      ensures old(made) <= made
      ensures RecordsLocked(world, old(State()), made, Protocol.Done(State(), r, dummy, quit))
    {
      r, dummy, quit := Prepare();
      ghost var ready, before := Protocol.Done(State(), r, dummy, quit), made;
      if r == BurnOk {
        var session := Ask();
        if session.input.Disc? {
          r := LockSrc();
        }
        dummy, quit := false, false;
        if r == BurnOk {
          r, dummy, quit := RecordSession(true, None);
        }
      }
      ReadyRecorded(world, old(State()), before, made, ready, Protocol.Done(State(), r, dummy, quit));
    }

    /** The whole burn. Discs are written and erased only with the burner locked, and erased only after a check in
        this burn that let the disc pass; the settings come back and the drives are unlocked, with the exceptions
        that module BurnLaws states. */
    method Record() returns (r: BurnResult, dummy: bool, quit: bool)
      requires Protocol.Fit(world)
      modifies this
      ensures old(made) <= made
      ensures forall plan :: Agrees(plan, made) ==>
                Protocol.Done(State(), r, dummy, quit) == Protocol.Record(world, old(State()), plan)
      ensures BurnLaws.Tells(|old(trace)|, old(State()), State(), quit,
                             BurnLaws.MayBegin(world, old(State()), PlansOf(made)))
      ensures BurnLaws.Settles(old(State()), State(), quit)
      ensures old(src).None? && old(dest).None? ==> BurnLaws.Unlocks(world, old(State()), State())
      ensures r == BurnOk && !world.isDestFile ==> Protocol.EndsRecorded(State(), None, false)
    {
      stuck, lost := {}, {};
      r, dummy, quit := RecordLocked();
      UnlockMedias();
      assert forall plan :: Agrees(plan, made) ==>
               Protocol.Done(State(), r, dummy, quit) == Protocol.Record(world, old(State()), plan);
      RecordObeys(world, old(State()), PlansOf(made), Protocol.Done(State(), r, dummy, quit));
    }

    // ----- blanking -----

    method BlankReal() returns (r: BurnResult, error: BurnError)
      modifies this`script, this`disc, this`trace
      ensures Protocol.Blanking(State(), r, error) == Protocol.BlankReal(world, old(State()))
    {
      var task := Ask();
      if !task.yes {
        return NotSupported, NoError;
      }
      trace := trace + [Blanked(disc, world.burner.Some? && world.burner.value in locked)];
      r := RunEraser();
      error := task.error;
    }

    method BlankLoop() returns (r: BurnResult)
      modifies this`script, this`locked, this`stuck, this`lost, this`disc, this`dest, this`trace
      ensures Out(State(), r) == Protocol.BlankLoop(world, old(State()))
    {
      ghost var goal := Protocol.BlankLoop(world, State());
      while true
        invariant Protocol.BlankLoop(world, State()) == goal
        decreases |script|
      {
        var error;
        r, error := BlankReal();
        if r != BurnErr || error != NotRewritableError {
          return;
        }
        r := AskForDestMedia();
        if r != BurnOk {
          return;
        }
        r := LockRewritable();
        if r != BurnOk {
          return;
        }
      }
    }

    method Blank() returns (r: BurnResult)
      modifies this`script, this`locked, this`stuck, this`lost, this`disc, this`src, this`dest, this`trace
      ensures Out(State(), r) == Protocol.Blank(world, old(State()))
      ensures old(src).None? && old(dest).None? ==>
                BurnLaws.Tells(|old(trace)|, old(State()), State(), false, true) && locked <= old(locked) + stuck
    {
      hide Drives.LockRewritable, Protocol.BlankLoop, Drives.UnlockMedias;
      stuck, lost := {}, {};
      r := LockRewritable();
      if r == BurnOk {
        r := BlankLoop();
      }
      UnlockMedias();
      if old(src).None? && old(dest).None? {
        BurnLaws.BlankKeepsAll(world, old(State()));
      }
    }
  }
}
