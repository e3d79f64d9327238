/** Waiting, asking, and the locks on the drives during a burn (rejilla-burn.c), as functions on the state of the
    burn. What drives, plugins and the user answer comes from a script; once the script is used up every wait is
    cancelled and every question declined, so a finite script stands for any run that ends. */
module Drives {
  import opened Flags
  import opened MediumFlags
  import Plugins
  import Caps

  datatype Drive = Drive(id: int)

  datatype BurnError =
    | NoError
    | JolietError
    | NoDataError
    | PlaceError
    | NeedReloadingError
    | SlowDmaError
    | SpaceError
    | NotRewritableError
    | OtherMediumError
    | OtherError

  /** One answer from outside; each reader takes the part it needs. */
  datatype Answer = Answer(result: BurnResult, error: BurnError, yes: bool, input: Caps.TrackType)

  const SILENCE := Answer(Cancel, NoError, false, Caps.NoTrack)

  datatype Settings = Settings(flags: BurnFlags, rate: nat)

  datatype Question = LoseData | AppendAudio | LosePrevious | AudioOnRewritable

  /** What happened to the discs and drives. A disc in the burner gets a new number whenever it may have been changed
      or exchanged; `locked` tells whether the burner was locked; `answer` is what the eraser came to. `Imaged` is the
      recorder making a temporary image, `Burnt` the recorder writing a disc; `simulated` tells whether that was only a
      simulation. */
  datatype Event =
    | Checked(disc: nat, media: Media, flags: BurnFlags)
    | Asked(question: Question, reply: BurnResult)
    | Erased(disc: nat, locked: bool, answer: BurnResult)
    | Burnt(disc: nat, locked: bool, simulated: bool)
    | Imaged(disc: nat, locked: bool, simulated: bool)
    | Blanked(disc: nat, locked: bool)
    | SourceLost(drive: Drive, stillLocked: bool)

  /** What does not change during a burn: the burner, what the discs are, and what the engine knows. */
  datatype World = World(
    burner: Option<Drive>,
    isDestFile: bool,
    media: nat -> Media,
    can: nat -> Ability,
    graph: Caps.Graph,
    rank: seq<nat>,
    group: int,
    eraser: nat -> Option<Plugins.Plugin>,
    copying: BurnFlags -> Reply,
    imageOutput: Caps.TrackType)

  /** `srcDrive` is the drive the session's track names; `src` and `dest` are the drives the burn remembers. `stuck`
      are those that refused to be unlocked, `lost` those that were forgotten while locked. */
  datatype St = St(
    srcDrive: Option<Drive>,
    src: Option<Drive>,
    dest: Option<Drive>,
    locked: set<Drive>,
    stuck: set<Drive>,
    lost: set<Drive>,
    disc: nat,
    settings: Settings,
    pile: seq<Settings>,
    script: seq<Answer>,
    trace: seq<Event>,
    planned: nat)

  datatype Out = Out(s: St, r: BurnResult)

  // ----- what every step keeps -----

  function Only(d: Option<Drive>): set<Drive> {
    if d.Some? then {d.value} else {}
  }

  predicate BurnerLocked(w: World, s: St) {
    w.burner.Some? && w.burner.value in s.locked
  }

  /** The burn remembers no other drives than the session's. */
  predicate Remembers(w: World, s: St) {
    && (s.src.Some? ==> s.src == s.srcDrive || s.srcDrive.None?)
    && (s.dest.Some? ==> s.dest == w.burner)
  }

  /** Locked drives nobody would unlock any more, and that neither refused nor were forgotten. */
  function Loose(s: St): set<Drive> {
    s.locked - s.stuck - s.lost - Only(s.src) - Only(s.dest)
  }

  /** Source and burner are different drives, and after a loss the session has no source. */
  predicate TwoDrives(w: World, s: St) {
    && (w.burner.Some? ==> s.srcDrive != w.burner && s.src != w.burner && w.burner.value !in s.lost)
    && (s.lost != {} ==> s.src.None? && s.srcDrive.None?)
    && (s.src.Some? ==> s.src == s.srcDrive || s.srcDrive.None?)
  }

  /** The source is not in the burner. */
  predicate Apart(w: World, s: St) {
    w.burner.Some? ==> s.srcDrive != w.burner && s.src != w.burner
  }

  predicate IsLoss(e: Event) {
    e.SourceLost? && e.stillLocked
  }

  predicate NoLoss(trace: seq<Event>, from: nat) {
    forall k :: from <= k < |trace| ==> !IsLoss(trace[k])
  }

  /** What every step keeps: answers are used up, the trace only grows, no drive gets loose, forgotten drives are
      locked, and with two drives a source is forgotten exactly when the trace says so. */
  predicate Keeps(w: World, s: St, t: St) {
    && |t.script| <= |s.script| && s.trace <= t.trace && s.stuck <= t.stuck
    && (Remembers(w, s) ==> Remembers(w, t) && Loose(t) <= Loose(s))
    && (s.lost <= s.locked ==> t.lost <= t.locked)
    && (TwoDrives(w, s) ==>
          TwoDrives(w, t) && s.lost <= t.lost && (t.lost == s.lost <==> NoLoss(t.trace, |s.trace|)))
  }

  lemma {:induction false} KeepsTwice(w: World, s: St, t: St, u: St)
    requires Keeps(w, s, t) && Keeps(w, t, u)
    ensures Keeps(w, s, u)
  {
    if TwoDrives(w, s) {
      assert forall k :: 0 <= k < |t.trace| ==> u.trace[k] == t.trace[k];
      assert NoLoss(u.trace, |s.trace|) <==> NoLoss(t.trace, |s.trace|) && NoLoss(u.trace, |t.trace|);
    }
  }

  predicate OnlyAsked(s: St, t: St) {
    t == s.(script := t.script) && |t.script| <= |s.script|
  }

  /** One drive unlocked, or refusing. */
  predicate Unlocked(s: St, t: St, drive: Drive) {
    || (t.locked == s.locked - {drive} && t.lost == s.lost - {drive} && t.stuck == s.stuck)
    || (t.locked == s.locked && t.lost == s.lost && s.stuck <= t.stuck <= s.stuck + {drive})
  }

  /** At most one drive was unlocked, and the disc in it changed. */
  predicate OnlyDrive(w: World, s: St, t: St, drive: Drive) {
    && t == s.(script := t.script, locked := t.locked, stuck := t.stuck, lost := t.lost, disc := t.disc)
    && |t.script| <= |s.script| && Unlocked(s, t, drive)
    && (Some(drive) != w.burner ==> t.disc == s.disc)
  }

  /** Neither the burner's lock nor its disc has changed. */
  predicate BurnerAlone(w: World, s: St, t: St) {
    (BurnerLocked(w, s) <==> BurnerLocked(w, t)) && t.disc == s.disc
  }

  // ----- waiting and asking -----

  function First(s: St): Answer {
    if s.script == [] then SILENCE else s.script[0]
  }

  function Rest(s: St): (t: St)
    ensures OnlyAsked(s, t) && (First(s) != SILENCE ==> |t.script| < |s.script|)
  {
    if s.script == [] then s else s.(script := s.script[1..])
  }

  /** rejilla_burn_sleep. */
  function Sleep(s: St): (o: Out)
    ensures OnlyAsked(s, o.s) && o.r in {BurnOk, Cancel} && (o.r == BurnOk ==> |o.s.script| < |s.script|)
  {
    Out(Rest(s), if First(s).yes then BurnOk else Cancel)
  }

  /** Sleeps as long as a drive is probing, or is used by somebody else. */
  function WaitWhileBusy(s: St): (o: Out)
    ensures OnlyAsked(s, o.s) && o.r in {BurnOk, Cancel}
    decreases |s.script|
  {
    if !First(s).yes then Out(Rest(s), BurnOk)
    else
      var o := Sleep(Rest(s));
      if o.r != BurnOk then o else WaitWhileBusy(o.s)
  }

  const MAX_EJECT_ATTEMPTS: nat := 5

  /** rejilla_burn_unmount. */
  function Unmount(s: St, counter: nat): (o: Out)
    ensures OnlyAsked(s, o.s) && o.r in {BurnOk, BurnErr, Cancel}
    decreases |s.script|
  {
    if !First(s).yes then Out(Rest(s), BurnOk)
    else if counter + 1 > MAX_EJECT_ATTEMPTS then Out(Rest(s), BurnErr)
    else
      var o := Sleep(Rest(s));
      if o.r != BurnOk then o else Unmount(o.s, counter + 1)
  }

  /** How many answers in a row say yes. */
  function Yeses(script: seq<Answer>): (n: nat)
    ensures n <= |script| && (forall k :: 0 <= k < n ==> script[k].yes) && (n < |script| ==> !script[n].yes)
  {
    if script == [] || !script[0].yes then 0 else 1 + Yeses(script[1..])
  }

  lemma {:induction false} YesesFrom(s: St)
    ensures Yeses(s.script) == if First(s).yes then 1 + Yeses(Rest(s).script) else 0
  {
  }

  /** The answers tell in turn whether the drive is busy and whether to sleep on. Waiting ends well once it is free, and
      is cancelled if the sleep is. */
  lemma {:induction false} WaitMeans(s: St)
    ensures WaitWhileBusy(s).r == if Yeses(s.script) % 2 == 0 then BurnOk else Cancel
    decreases |s.script|
  {
    hide Yeses, OnlyAsked;
    YesesFrom(s);
    YesesFrom(Rest(s));
    if First(s).yes && First(Rest(s)).yes {
      WaitMeans(Sleep(Rest(s)).s);
    }
  }

  /** What n times yes come to when at most so many sleeps are allowed. */
  function Outcome(n: nat, sleeps: nat): BurnResult {
    if n > 2 * sleeps then BurnErr else if n % 2 == 0 then BurnOk else Cancel
  }

  lemma {:induction false} OneSleepFewer(n: nat, sleeps: nat)
    ensures Outcome(n + 2, sleeps + 1) == Outcome(n, sleeps)
    ensures Outcome(0, sleeps) == BurnOk && Outcome(1, sleeps + 1) == Cancel && Outcome(n + 1, 0) == BurnErr
  {
  }

  /** Unmounting is given up after five sleeps. */
  lemma {:induction false} UnmountMeans(s: St, counter: nat)
    requires counter <= MAX_EJECT_ATTEMPTS
    ensures Unmount(s, counter).r == Outcome(Yeses(s.script), 5 - counter)
    decreases |s.script|
  {
    hide Yeses, OnlyAsked, Outcome;
    YesesFrom(s);
    YesesFrom(Rest(s));
    var next, sleeps := Rest(Rest(s)), 5 - counter;
    if !First(s).yes {
      OneSleepFewer(0, sleeps);
    } else if sleeps == 0 {
      OneSleepFewer(Yeses(Rest(s).script), 0);
    } else {
      OneSleepFewer(Yeses(next.script), sleeps - 1);
      if First(Rest(s)).yes {
        UnmountMeans(next, counter + 1);
      }
    }
  }

  /** rejilla_drive_unlock, which succeeds if the answer is yes. */
  function Unlock(s: St, drive: Drive): (t: St)
    ensures Unlocked(s, t, drive) && (First(s).yes ==> drive !in t.locked) && (!First(s).yes ==> drive in t.stuck)
    ensures t == s.(script := t.script, locked := t.locked, stuck := t.stuck, lost := t.lost)
    ensures |t.script| <= |s.script|
  {
    if First(s).yes then Rest(s).(locked := s.locked - {drive}, lost := s.lost - {drive})
    else Rest(s).(stuck := s.stuck + {drive})
  }

  /** The disc in this drive may be another one from now on. */
  function DiscChanges(w: World, s: St, drive: Option<Drive>): (t: St)
    ensures t == s.(disc := t.disc) && (drive != w.burner || w.burner.None? ==> t == s)
  {
    if w.burner.Some? && drive == w.burner then s.(disc := s.disc + 1) else s
  }

  /** Ejects until the drive is empty; after five attempts the user is asked each time. */
  function EjectLoop(w: World, s: St, drive: Drive, counter: nat): (o: Out)
    ensures o.s == s.(script := o.s.script, disc := o.s.disc) && |o.s.script| <= |s.script|
    ensures o.r in {BurnOk, Cancel} && (Some(drive) != w.burner ==> o.s.disc == s.disc)
    decreases |s.script|
  {
    if !First(s).yes then Out(Rest(s), BurnOk)
    else
      var s1 := Rest(s);
      var s2 := Rest(s1);
      if !First(s1).yes && counter + 1 > MAX_EJECT_ATTEMPTS then
        if !First(s2).yes then Out(Rest(s2), Cancel) else EjectLoop(w, Rest(s2), drive, counter + 1)
      else
        var o := Sleep(if First(s1).yes then s2 else DiscChanges(w, s2, Some(drive)));
        if o.r != BurnOk then o else EjectLoop(w, o.s, drive, if First(s1).yes then counter else counter + 1)
  }

  /** The last answer used was no, or there were no more. */
  predicate RefusedLast(s: St, t: St) {
    t.script == [] || exists n :: 0 <= n < |s.script| && !s.script[n].yes && t.script == s.script[n + 1..]
  }

  lemma {:induction false} RefusedLater(s: St, t: St, u: St, n: nat)
    requires n <= |s.script| && t.script == s.script[n..] && RefusedLast(t, u)
    ensures RefusedLast(s, u)
  {
    if u.script != [] {
      var m :| 0 <= m < |t.script| && !t.script[m].yes && u.script == t.script[m + 1..];
      assert s.script[n + m] == t.script[m] && s.script[n + m + 1..] == t.script[m + 1..];
    }
  }

  /** Ejecting is never given up but for an answer: the user, or whoever cancels the sleep, says no. */
  lemma {:induction false} EjectNeverGivesUp(w: World, s: St, drive: Drive, counter: nat)
    ensures RefusedLast(s, EjectLoop(w, s, drive, counter).s)
    decreases |s.script|
  {
    var s1 := Rest(s);
    var s2 := Rest(s1);
    if First(s).yes {
      if !First(s1).yes && counter + 1 > MAX_EJECT_ATTEMPTS {
        if First(s2).yes {
          EjectNeverGivesUp(w, Rest(s2), drive, counter + 1);
          RefusedLater(s, Rest(s2), EjectLoop(w, Rest(s2), drive, counter + 1).s, 3);
        } else if |s.script| > 2 {
          assert !s.script[2].yes;
        }
      } else {
        var before := if First(s1).yes then s2 else DiscChanges(w, s2, Some(drive));
        var o, next := Sleep(before), if First(s1).yes then counter else counter + 1;
        if o.r == BurnOk {
          EjectNeverGivesUp(w, o.s, drive, next);
          RefusedLater(s, o.s, EjectLoop(w, o.s, drive, next).s, 3);
        } else if |s.script| > 2 {
          assert !s.script[2].yes;
        }
      }
    } else if |s.script| > 0 {
      assert !s.script[0].yes;
    }
  }

  /** rejilla_burn_eject: on success the drive is empty and not locked. */
  function EjectDrive(w: World, s: St, drive: Drive): (o: Out)
    ensures OnlyDrive(w, s, o.s, drive) && o.r in {BurnOk, BurnErr, Cancel}
    ensures o.r == BurnOk ==> drive !in o.s.locked
    ensures Some(drive) == s.src || Some(drive) == w.burner ==> Keeps(w, s, o.s)
  {
    var o := Unmount(s, 0);
    if o.r != BurnOk then o
    else if drive !in o.s.locked then EjectLoop(w, o.s, drive, 0)
    else if !First(o.s).yes then Out(Unlock(o.s, drive), BurnErr)
    else EjectLoop(w, Unlock(o.s, drive), drive, 0)
  }

  /** rejilla_burn_ask_for_media: asks for another disc. */
  function AskForMedia(w: World, s: St, drive: Option<Drive>): (o: Out)
    ensures o.s == s.(script := o.s.script, disc := o.s.disc) && |o.s.script| <= |s.script|
    ensures o.r in {BurnOk, Cancel} && (o.r == BurnOk ==> |o.s.script| < |s.script|)
    ensures drive != w.burner || w.burner.None? ==> o.s.disc == s.disc
  {
    Out(DiscChanges(w, Rest(s), drive), if First(s).yes then BurnOk else Cancel)
  }

  /** rejilla_burn_ask_for_src_media. */
  function AskForSrcMedia(w: World, s: St): (o: Out)
    ensures if s.src.Some? then OnlyDrive(w, s, o.s, s.src.value) else o.s == s.(script := o.s.script, disc := o.s.disc)
    ensures o.r == BurnOk && s.src.Some? && First(s).yes ==> s.src.value !in o.s.locked
    ensures o.r in {BurnOk, BurnErr, Cancel} && (o.r == BurnOk ==> |o.s.script| < |s.script|)
    ensures Keeps(w, s, o.s) && o.s.trace == s.trace
    ensures s.src != w.burner || w.burner.None? ==> BurnerAlone(w, s, o.s)
  {
    var s1 := Rest(s);
    if s.src.Some? && First(s).yes then
      var o := EjectDrive(w, s1, s.src.value);
      if o.r != BurnOk then o else AskForMedia(w, o.s, s.src)
    else AskForMedia(w, s1, s.src)
  }

  /** The burner, or the drive that was locked for it, is not locked any more. */
  predicate BurnerGone(w: World, s: St, t: St) {
    if s.dest.Some? then s.dest.value !in t.locked else w.burner.Some? ==> w.burner.value !in t.locked
  }

  /** rejilla_burn_ask_for_dest_media. */
  function AskForDestMedia(w: World, s: St): (o: Out)
    ensures o.s == s.(script := o.s.script, locked := o.s.locked, stuck := o.s.stuck, lost := o.s.lost,
                      disc := o.s.disc)
    ensures o.r in {BurnOk, BurnErr, Cancel} && (o.r == BurnOk ==> |o.s.script| < |s.script|)
    ensures o.r == BurnOk && First(s).yes ==> BurnerGone(w, s, o.s)
    ensures Remembers(w, s) ==> Keeps(w, s, o.s)
    ensures |o.s.script| <= |s.script| && o.s.lost <= s.lost
  {
    var drive := if s.dest.None? then w.burner else s.dest;
    if drive.None? then Out(s, BurnErr)
    else
      var s1 := Rest(s);
      if First(s).yes then
        var o := EjectDrive(w, s1, drive.value);
        if o.r != BurnOk then o else AskForMedia(w, o.s, drive)
      else AskForMedia(w, s1, drive)
  }

  // ----- locking and unlocking -----

  /** Only locks, the disc and the script have changed. */
  predicate OnlyLocks(s: St, t: St) {
    t == s.(script := t.script, locked := t.locked, stuck := t.stuck, lost := t.lost, disc := t.disc)
  }

  predicate CanLock(s: St, drive: Drive) {
    drive in s.locked || First(s).yes
  }

  /** Locks a drive unless it is locked already. */
  function Lock(s: St, drive: Drive): (t: St)
    ensures t == s.(script := t.script, locked := if CanLock(s, drive) then s.locked + {drive} else s.locked)
    ensures |t.script| <= |s.script|
  {
    if drive in s.locked then s
    else if First(s).yes then Rest(s).(locked := s.locked + {drive})
    else Rest(s)
  }

  /** Waits for a source medium with data on it, and locks the drive. */
  function LockSrcLoop(w: World, s: St): (o: Out)
    requires s.src.Some?
    ensures OnlyLocks(s, o.s) && Keeps(w, s, o.s) && o.r in {BurnOk, BurnErr, Cancel} && o.s.lost <= s.lost
    ensures o.r == BurnOk ==> s.src.value in o.s.locked
    ensures s.src != w.burner || w.burner.None? ==> BurnerAlone(w, s, o.s)
    decreases |s.script|
  {
    var o := WaitWhileBusy(s);
    if o.r != BurnOk then o
    else if First(o.s).yes then
      var asked := AskForSrcMedia(w, Rest(o.s));
      if asked.r != BurnOk then asked
      else
        KeepsTwice(w, s, asked.s, LockSrcLoop(w, asked.s).s);
        LockSrcLoop(w, asked.s)
    else
      var s1 := Rest(o.s);
      Out(Lock(s1, s.src.value), if CanLock(s1, s.src.value) then BurnOk else BurnErr)
  }

  /** The remembered source is taken from the session anew. If the session has none any more, the old one is
      forgotten, locked or not. */
  function TakeSource(s: St): (t: St)
  {
    if s.src.Some? && s.src != s.srcDrive then
      s.(src := s.srcDrive,
         lost := if s.src.value in s.locked then s.lost + {s.src.value} else s.lost,
         trace := s.trace + [SourceLost(s.src.value, s.src.value in s.locked)])
    else s.(src := s.srcDrive)
  }

  lemma {:induction false} TakeSourceKeeps(w: World, s: St)
    ensures Keeps(w, s, TakeSource(s))
  {
    var t := TakeSource(s);
    if TwoDrives(w, s) && s.src.Some? && s.src != s.srcDrive {
      assert t.trace[|s.trace|] == SourceLost(s.src.value, s.src.value in s.locked);
      assert NoLoss(t.trace, |s.trace|) <==> s.src.value !in s.locked;
    }
  }

  /** rejilla_burn_lock_src_media. */
  function LockSrc(w: World, s: St): (o: Out)
    ensures Apart(w, s) ==> Apart(w, o.s)
    ensures Keeps(w, s, o.s) && o.r in {BurnOk, BurnErr, Cancel}
    ensures o.s.src == s.srcDrive && OnlyLocks(TakeSource(s), o.s)
    ensures o.r == BurnOk ==> o.s.src.Some? && o.s.src.value in o.s.locked
    ensures o.r == BurnOk && Remembers(w, s) ==> o.s.trace == s.trace
    ensures s.srcDrive != w.burner || w.burner.None? ==> BurnerAlone(w, s, o.s)
  {
    TakeSourceKeeps(w, s);
    var s1 := TakeSource(s);
    if s1.src.None? then Out(s1, BurnErr)
    else
      KeepsTwice(w, s, s1, LockSrcLoop(w, s1).s);
      LockSrcLoop(w, s1)
  }

  /** A lock is lost exactly when the session has no longer the source that is remembered and locked. */
  lemma {:induction false} LockSrcLosesIff(w: World, s: St)
    requires Remembers(w, s) && s.lost == {}
    ensures LockSrc(w, s).s.lost != {} <==> s.src.Some? && s.src.value in s.locked && s.srcDrive.None?
  {
  }

  /** rejilla_burn_reload_src_media. */
  function ReloadSrc(w: World, s: St): (o: Out)
    ensures Apart(w, s) ==> Apart(w, o.s)
    ensures Keeps(w, s, o.s) && o.r in {BurnOk, BurnErr, Cancel}
    ensures o.r == BurnOk ==> |o.s.script| < |s.script|
    ensures o.s == s.(script := o.s.script, locked := o.s.locked, stuck := o.s.stuck, lost := o.s.lost,
                      disc := o.s.disc, src := o.s.src, trace := o.s.trace)
    ensures o.r == BurnOk && Remembers(w, s) ==> o.s.trace == s.trace
    ensures o.r == BurnOk ==> o.s.src == s.srcDrive
    ensures o.r == BurnOk && Remembers(w, s) && BurnerLocked(w, s) ==> BurnerLocked(w, o.s)
    ensures (s.srcDrive != w.burner && s.src != w.burner) || w.burner.None? ==> BurnerAlone(w, s, o.s)
  {
    var o := AskForSrcMedia(w, s);
    if o.r != BurnOk then o
    else
      KeepsTwice(w, s, o.s, LockSrc(w, o.s).s);
      LockSrc(w, o.s)
  }

  /** Waits for a rewritable medium in the burner, and locks the drive. */
  function LockRewritableLoop(w: World, s: St): (o: Out)
    requires s.dest.Some? && s.dest == w.burner
    ensures OnlyLocks(s, o.s) && |o.s.script| <= |s.script| && (Remembers(w, s) ==> Keeps(w, s, o.s))
    ensures (o.r == BurnOk ==> BurnerLocked(w, o.s)) && o.s.lost <= s.lost
    decreases |s.script|
  {
    var o := WaitWhileBusy(s);
    if o.r != BurnOk then o
    else if !First(o.s).yes then Out(Rest(o.s), NotSupported)
    else
      var s1 := Rest(o.s);
      if First(s1).yes then
        var asked := AskForDestMedia(w, Rest(s1));
        if asked.r != BurnOk then asked
        else
          if Remembers(w, s) then
            KeepsTwice(w, s, asked.s, LockRewritableLoop(w, asked.s).s);
            LockRewritableLoop(w, asked.s)
          else LockRewritableLoop(w, asked.s)
      else
        var s2 := Rest(s1);
        Out(Lock(s2, s.dest.value), if CanLock(s2, s.dest.value) then BurnOk else BurnErr)
  }

  /** rejilla_burn_lock_rewritable_media. */
  function LockRewritable(w: World, s: St): (o: Out)
    ensures OnlyLocks(s.(dest := w.burner), o.s) && |o.s.script| <= |s.script| && (Remembers(w, s) ==> Keeps(w, s, o.s))
    ensures (o.r == BurnOk ==> BurnerLocked(w, o.s)) && o.s.lost <= s.lost
  {
    var s1 := s.(dest := w.burner);
    if s1.dest.None? then Out(s1, NotSupported)
    else
      var o := LockRewritableLoop(w, s1);
      if Remembers(w, s) then KeepsTwice(w, s, s1, o.s); o else o
  }

  /** A medium in the burner is unmounted and tested, and the drive locked if it will do and unlocked if not. */
  function LockIfFit(w: World, s: St): (o: Out)
    requires w.burner.Some?
    ensures OnlyLocks(s, o.s) && |o.s.script| <= |s.script| && (s.dest == w.burner ==> Keeps(w, s, o.s))
    ensures o.s.disc == s.disc && o.r in {BurnOk, BurnErr, Cancel, NeedReload}
    ensures o.r == BurnOk ==> BurnerLocked(w, o.s)
    ensures o.r == NeedReload && BurnerLocked(w, o.s) ==> w.burner.value in o.s.stuck
  {
    var u := Unmount(s, 0);
    if u.r != BurnOk then u
    else
      var s1 := Rest(u.s);
      if First(u.s).yes then Out(Lock(s1, w.burner.value), if CanLock(s1, w.burner.value) then BurnOk else BurnErr)
      else Out(Release(s1, w.burner.value), NeedReload)
  }

  /** rejilla_burn_lock_dest_media: the drive is locked only after all checks, and unlocked if they fail. */
  function LockDest(w: World, s: St): (o: Out)
    ensures OnlyLocks(s.(dest := w.burner), o.s) && |o.s.script| <= |s.script| && (Remembers(w, s) ==> Keeps(w, s, o.s))
    ensures o.s.disc == s.disc && o.r in {BurnOk, BurnErr, Cancel, NeedReload, NotSupported}
    ensures o.r == NotSupported <==> w.burner.Some? && !First(s).yes
    ensures o.r == BurnOk ==> BurnerLocked(w, o.s)
    ensures o.r == NeedReload && BurnerLocked(w, o.s) ==> w.burner.value in o.s.stuck
  {
    var s1 := s.(dest := w.burner);
    if s1.dest.None? then Out(s1, BurnErr)
    else if !First(s1).yes then Out(Rest(s1), NotSupported)
    else
      var o := WaitWhileBusy(Rest(s1));
      if o.r != BurnOk then o
      else if First(o.s).yes then LockIfFit(w, Rest(o.s))
      else Out(Release(Rest(o.s), w.burner.value), NeedReload)
  }

  /** Unlocks a drive if it is locked. */
  function Release(s: St, drive: Drive): (t: St)
    ensures Unlocked(s, t, drive) && (drive in t.locked ==> drive in t.stuck)
    ensures t == s.(script := t.script, locked := t.locked, stuck := t.stuck, lost := t.lost)
    ensures |t.script| <= |s.script|
  {
    if drive in s.locked then Unlock(s, drive) else s
  }

  /** rejilla_burn_reload_dest_media. */
  function ReloadDest(w: World, s: St): (o: Out)
    ensures OnlyLocks(s.(dest := o.s.dest), o.s) && |o.s.script| <= |s.script| && (Remembers(w, s) ==> Keeps(w, s, o.s))
    ensures o.r in {BurnOk, BurnErr, Cancel, NotSupported} && (o.r == BurnOk ==> |o.s.script| < |s.script|)
    ensures o.r == BurnOk ==> BurnerLocked(w, o.s)
    decreases |s.script|
  {
    var asked := AskForDestMedia(w, s);
    if asked.r != BurnOk then asked
    else
      var o := LockDest(w, asked.s);
      if Remembers(w, s) then
        KeepsTwice(w, s, asked.s, o.s);
        if o.r != NeedReload then o
        else
          KeepsTwice(w, s, o.s, ReloadDest(w, o.s).s);
          ReloadDest(w, o.s)
      else if o.r != NeedReload then o else ReloadDest(w, o.s)
  }

  /** rejilla_burn_unlock_src_media. */
  function UnlockSrc(w: World, s: St): (t: St)
    ensures t.lost <= s.lost
    ensures Keeps(w, s, t) && t.src.None? && OnlyLocks(s.(src := None), t)
  {
    if s.src.None? then s
    else
      var s1 := if First(s).yes then Unmount(Rest(s), 0).s else Rest(s);
      Release(s1, s.src.value).(src := None)
  }

  /** rejilla_burn_unlock_dest_media. */
  function UnlockDest(w: World, s: St): (t: St)
    ensures t.lost <= s.lost
    ensures Remembers(w, s) ==> Keeps(w, s, t)
    ensures t.dest.None? && OnlyLocks(s.(dest := None), t)
  {
    if s.dest.None? then s
    else
      var s1 := Release(s, s.dest.value);
      var s2 := if Eject in s.settings.flags then EjectDrive(w, s1, s.dest.value).s else s1;
      if Remembers(w, s) then KeepsTwice(w, s, s1, s2); s2.(dest := None) else s2.(dest := None)
  }

  /** rejilla_burn_unlock_medias. */
  function UnlockMedias(w: World, s: St): (t: St)
    ensures t.lost <= s.lost
    ensures Remembers(w, s) ==> Keeps(w, s, t)
    ensures t.src.None? && t.dest.None? && OnlyLocks(s.(src := None, dest := None), t)
  {
    var s1 := UnlockDest(w, s);
    var s2 := UnlockSrc(w, s1);
    if Remembers(w, s) then KeepsTwice(w, s, s1, s2); s2 else s2
  }

  /** Once the drives are unlocked, what the burn has locked and left locked has refused or was forgotten: exactly
      that, since a forgotten drive is locked. */
  lemma {:induction false} LeftLocked(w: World, before: St, s: St)
    requires Remembers(w, before) && before.src.None? && before.dest.None? && before.lost == {}
    requires Keeps(w, before, s)
    ensures var t := UnlockMedias(w, s);
            var left := t.locked - before.locked - t.stuck;
            && left == t.lost - before.locked - t.stuck && t.lost <= t.locked
  {
    var t := UnlockMedias(w, s);
    KeepsTwice(w, before, s, t);
    var left := t.locked - before.locked - t.stuck;
    forall d ensures d in left <==> d in t.lost - before.locked - t.stuck {
      assert d in left && d !in t.lost ==> d in Loose(t);
    }
  }
}
