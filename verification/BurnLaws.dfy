/** What holds over whole burns (rejilla-burn.c): discs are written and erased only with the burner locked, erased only
    after a check of that very disc that let it pass, the settings come back unless the eraser was cancelled, and
    nothing stays locked but what refused or was forgotten. */
module BurnLaws {
  import opened Flags
  import opened Drives
  import opened Protocol
  import Caps
  import Planning = NewTask

  // ----- what the trace must tell -----

  /** The n-th event is the last check before the i-th. */
  predicate LatestCheck(trace: seq<Event>, n: nat, i: nat) {
    n < i <= |trace| && trace[n].Checked? && forall k :: n < k < i ==> !trace[k].Checked?
  }

  predicate RetriedSince(trace: seq<Event>, n: nat, i: nat)
    requires i <= |trace|
  {
    exists k :: n < k < i && trace[k] == Asked(LosePrevious, Retry)
  }

  /** Nobody was asked about losing the data. */
  predicate Unasked(trace: seq<Event>, n: nat, i: nat)
    requires i <= |trace|
  {
    forall k :: n < k < i && trace[k].Asked? ==> trace[k].question != LoseData
  }

  /** The disc checked last may be erased. If there is something on it, its owner agreed to lose that, provided it was
      going to be blanked when it was checked. If it was not, nobody was asked about that: blanking came in later, after
      the user chose to merge instead. */
  predicate Agreed(trace: seq<Event>, n: nat, i: nat)
    requires LatestCheck(trace, n, i)
  {
    HasContent(trace[n].media) ==>
      if BlankBeforeWrite in trace[n].flags then n + 1 < i && trace[n + 1] == Asked(LoseData, BurnOk)
      else RetriedSince(trace, n, i) && Unasked(trace, n, i)
  }

  /** Where there is content, the check that justifies erasing was followed by the question about it exactly if the
      disc was going to be blanked then. */
  lemma {:induction false} AgreedUnaskedIff(trace: seq<Event>, n: nat, i: nat)
    requires LatestCheck(trace, n, i) && HasContent(trace[n].media) && Agreed(trace, n, i)
    ensures Unasked(trace, n, i) <==> BlankBeforeWrite !in trace[n].flags
    ensures Unasked(trace, n, i) ==> RetriedSince(trace, n, i)
  {
    assert BlankBeforeWrite in trace[n].flags ==> trace[n + 1].Asked?;
  }

  predicate ErasedRightly(trace: seq<Event>, n: nat, i: nat, disc: nat) {
    LatestCheck(trace, n, i) && trace[n].disc == disc && Agreed(trace, n, i)
  }

  /** Discs are written with the burner locked, and erased after a check made at place `from` or later. */
  predicate Justified(trace: seq<Event>, i: nat, from: nat)
    requires i < |trace|
  {
    match trace[i]
    case Erased(disc, locked, _) => locked && exists n :: from <= n < i && ErasedRightly(trace, n, i, disc)
    case Burnt(_, locked, _) => locked
    case Imaged(_, locked, _) => locked
    case Blanked(_, locked) => locked
    case _ => true
  }

  lemma {:induction false} JustifiedStill(trace: seq<Event>, i: nat, from: nat, longer: seq<Event>, earlier: nat)
    requires i < |trace| && trace <= longer && earlier <= from && Justified(trace, i, from)
    ensures Justified(longer, i, earlier)
  {
    if trace[i].Erased? {
      var n :| from <= n < i && ErasedRightly(trace, n, i, trace[i].disc);
      assert LatestCheck(longer, n, i);
      if RetriedSince(trace, n, i) {
        var k :| n < k < i && trace[k] == Asked(LosePrevious, Retry);
        assert longer[k] == trace[k];
      }
      assert ErasedRightly(longer, n, i, longer[i].disc);
    }
  }

  predicate IsCancel(e: Event) {
    e.Erased? && e.answer == Cancel
  }

  predicate HonestSince(trace: seq<Event>, start: nat, from: nat) {
    forall i :: start <= i < |trace| ==> Justified(trace, i, from)
  }

  /** What happened from s to t: the eraser was cancelled exactly if the burn quits for that, and then that was the
      last thing to happen; and if all was safe to begin with, every event is justified by a check made at place `from`
      or later. */
  predicate Tells(from: nat, s: St, t: St, quit: bool, safe: bool) {
    && from <= |s.trace| && s.trace <= t.trace
    && (quit ==> |s.trace| < |t.trace| && IsCancel(t.trace[|t.trace| - 1]))
    && (forall k :: |s.trace| <= k < |t.trace| && IsCancel(t.trace[k]) ==> quit && k == |t.trace| - 1)
    && (safe ==> HonestSince(t.trace, |s.trace|, from))
  }

  lemma {:induction false} TellsOn(from: nat, s: St, t: St, later: nat, u: St, quit: bool, safe: bool)
    requires Tells(from, s, t, false, safe) && Tells(later, t, u, quit, safe) && from <= later
    ensures Tells(from, s, u, quit, safe)
  {
    if safe {
      forall i | |s.trace| <= i < |u.trace| ensures Justified(u.trace, i, from) {
        if i < |t.trace| {
          JustifiedStill(t.trace, i, from, u.trace, from);
        } else {
          JustifiedStill(u.trace, i, later, u.trace, from);
        }
      }
    }
  }

  lemma {:induction false} SameTells(from: nat, s: St, s1: St, t: St, t1: St, quit: bool, safe: bool)
    requires Tells(from, s, t, quit, safe) && s1.trace == s.trace && t1.trace == t.trace
    ensures Tells(from, s1, t1, quit, safe)
  {
  }

  /** Events that need no justification. */
  predicate Harmless(e: Event) {
    e.Checked? || e.Asked? || e.SourceLost?
  }

  lemma {:induction false} HarmlessTells(from: nat, s: St, t: St, safe: bool)
    requires from <= |s.trace| && s.trace <= t.trace
    requires forall k :: |s.trace| <= k < |t.trace| ==> Harmless(t.trace[k])
    ensures Tells(from, s, t, false, safe)
  {
  }

  // ----- the drives -----

  lemma {:induction false} SrcTells(from: nat, w: World, s: St)
    requires from <= |s.trace|
    ensures Tells(from, s, LockSrc(w, s).s, false, true)
  {
    HarmlessTells(from, s, LockSrc(w, s).s, true);
  }

  lemma {:induction false} ReloadSrcTells(from: nat, w: World, s: St)
    requires from <= |s.trace|
    ensures Tells(from, s, ReloadSrc(w, s).s, false, true)
  {
    var o := AskForSrcMedia(w, s);
    if o.r == BurnOk {
      SrcTells(from, w, o.s);
    }
  }

  lemma {:induction false} ImagerTells(from: nat, w: World, s: St)
    requires from <= |s.trace|
    ensures Tells(from, s, RunImager(w, s).s, false, true)
    decreases |s.script|
  {
    var o := Unmount(s, 0);
    if o.r == BurnOk {
      var a, s1 := TaskAnswer(o.s), Rest(o.s);
      if a.result == BurnErr && a.error != NoError {
        var m := MendImager(w, s1, a.error);
        if a.error == NoDataError {
          ReloadSrcTells(from, w, s1);
        }
        assert Tells(from, s, m.s, false, true);
        if m.r == BurnOk {
          ImagerTells(from, w, m.s);
          TellsOn(from, s, m.s, from, RunImager(w, m.s).s, false, true);
        }
      }
    }
  }

  lemma {:induction false} MendRecorderTells(from: nat, w: World, s: St, error: BurnError)
    requires from <= |s.trace|
    ensures Tells(from, s, MendRecorder(w, s, error).s, false, true)
  {
    if error == NeedReloadingError {
      ReloadSrcTells(from, w, s);
    }
  }

  /** The recorder writes with the burner locked, to any disc it is given. */
  lemma {:induction false} RecorderTells(from: nat, w: World, s: St, temp: Option<Caps.TrackType>)
    requires from <= |s.trace|
    ensures Tells(from, s, RunRecorder(w, s, temp).s, false, Remembers(w, s) && BurnerLocked(w, s))
    decreases |s.script|
  {
    var safe := Remembers(w, s) && BurnerLocked(w, s);
    var o := FreeDrives(s);
    if o.r == BurnOk {
      var a, s1 := TaskAnswer(o.s), Logged(Rest(o.s), Recording(w, s, temp));
      assert Tells(from, s, s1, false, safe);
      if a.result == BurnErr && a.error != NoError {
        var m := MendRecorder(w, s1, a.error);
        MendRecorderTells(from, w, s1, a.error);
        TellsOn(from, s, s1, from, m.s, false, safe);
        if m.r == BurnOk {
          RecorderTells(from, w, m.s, temp);
          TellsOn(from, s, m.s, from, RunRecorder(w, m.s, temp).s, false, safe);
        }
      }
    }
  }

  // ----- the check for loss of data -----

  /** The disc in the burner was checked at place n for these flags, and may be erased as far as that goes. */
  predicate Cleared(w: World, s: St, n: nat, flags: BurnFlags) {
    && LatestCheck(s.trace, n, |s.trace|) && s.trace[n] == Checked(s.disc, w.media(s.disc), flags)
    && (HasContent(w.media(s.disc)) ==>
          if BlankBeforeWrite in flags then n + 1 < |s.trace| && s.trace[n + 1] == Asked(LoseData, BurnOk)
          else Unasked(s.trace, n, |s.trace|))
    && (s.settings.flags == flags || RetriedSince(s.trace, n, |s.trace|))
  }

  /** Another question, but not the one about losing data. */
  lemma {:induction false} StillCleared(w: World, s: St, q: Question, n: nat, flags: BurnFlags)
    requires Cleared(w, s, n, flags) && q != LoseData
    ensures Cleared(w, Prompt(s, q).s, n, flags)
  {
    var t := Prompt(s, q).s;
    if RetriedSince(s.trace, n, |s.trace|) {
      var k :| n < k < |s.trace| && s.trace[k] == Asked(LosePrevious, Retry);
      assert t.trace[k] == s.trace[k];
    }
  }

  lemma {:induction false} ContentCleared(w: World, s: St, media: Media, flags: BurnFlags, input: Caps.TrackType)
    requires Fit(w) && s.pile != [] && s.trace != [] && media == w.media(s.disc) && flags == s.settings.flags
    requires s.trace[|s.trace| - 1] == Checked(s.disc, media, flags)
    ensures var r := WarnAboutContent(w, s, media, flags, input);
            r.r == BurnOk ==> Cleared(w, r.s, |s.trace| - 1, flags)
  {
    var r, n := WarnAboutContent(w, s, media, flags, input), |s.trace| - 1;
    if BlankBeforeWrite !in flags && r.r == BurnOk {
      var audio := if MediumCd in media && OnlyAudio(input) then Prompt(s, AppendAudio) else Out(s, BurnOk);
      if audio.s != s {
        StillCleared(w, s, AppendAudio, n, flags);
      }
      assert Cleared(w, audio.s, n, flags);
      var o := Prompt(audio.s, LosePrevious);
      StillCleared(w, audio.s, LosePrevious, n, flags);
      assert o.r == Retry ==> o.s.trace[|audio.s.trace|] == Asked(LosePrevious, Retry);
    }
  }

  lemma {:induction false} LossCleared(w: World, s: St, media: Media, flags: BurnFlags)
    requires Fit(w) && s.pile != [] && s.trace != [] && media == w.media(s.disc) && flags == s.settings.flags
    requires s.trace[|s.trace| - 1] == Checked(s.disc, media, flags)
    ensures var r := WarnAboutLoss(w, s, media, flags);
            r.r == BurnOk ==> Cleared(w, r.s, |s.trace| - 1, flags)
  {
    var input, s1, n := First(s).input, Rest(s), |s.trace| - 1;
    ContentCleared(w, s1, media, flags, input);
    var content := if HasContent(media) then WarnAboutContent(w, s1, media, flags, input)
                   else Warned(s1, BurnOk, false);
    if content.r == BurnOk {
      assert Cleared(w, content.s, n, flags);
      StillCleared(w, content.s, AudioOnRewritable, n, flags);
    }
  }

  /** If the checks let the burn go on, the disc in the burner is cleared, for the flags it was checked for. */
  lemma {:induction false} CheckedIsCleared(w: World, s: St, temp: Option<Caps.TrackType>)
    requires Fit(w) && s.pile != [] && OutputIsDisc(w) && CheckBefore(w, s, temp).r == BurnOk
    ensures Cleared(w, CheckBefore(w, s, temp).s, |s.trace|, CheckSessionConsistency(w, s, temp).s.settings.flags)
  {
    var c := CheckSessionConsistency(w, s, temp).s;
    var media := w.media(c.disc);
    LossCleared(w, Logged(c, Checked(c.disc, media, c.settings.flags)), media, c.settings.flags);
  }

  lemma {:induction false} CheckTells(from: nat, w: World, s: St, temp: Option<Caps.TrackType>)
    requires Fit(w) && s.pile != [] && from <= |s.trace|
    ensures Tells(from, s, CheckBefore(w, s, temp).s, false, true)
  {
    var c := CheckSessionConsistency(w, s, temp);
    var o := CheckBefore(w, s, temp);
    if c.r == BurnOk && OutputIsDisc(w) {
      var media := w.media(c.s.disc);
      var s1 := Logged(c.s, Checked(c.s.disc, media, c.s.settings.flags));
      var warned := WarnAboutLoss(w, s1, media, c.s.settings.flags);
      assert o.s.trace == warned.s.trace;
      HarmlessTells(from, s, o.s, true);
    }
  }

  // ----- erasing -----

  /** Nothing stands against erasing, if that is to be done. */
  predicate MayErase(w: World, s: St, n: nat, flags: BurnFlags) {
    Cleared(w, s, n, flags) && BlankBeforeWrite in s.settings.flags && BurnerLocked(w, s)
  }

  lemma {:induction false} EraseJustified(w: World, s: St, n: nat, flags: BurnFlags, answer: BurnResult)
    requires MayErase(w, s, n, flags)
    ensures Justified(s.trace + [Erased(s.disc, true, answer)], |s.trace|, n)
  {
    var all := s.trace + [Erased(s.disc, true, answer)];
    assert LatestCheck(all, n, |s.trace|);
    if RetriedSince(s.trace, n, |s.trace|) {
      var k :| n < k < |s.trace| && s.trace[k] == Asked(LosePrevious, Retry);
      assert all[k] == s.trace[k];
    }
    assert ErasedRightly(all, n, |s.trace|, s.disc);
  }

  lemma {:induction false} ErasedTells(from: nat, w: World, s: St, t: St, n: nat, flags: BurnFlags, answer: BurnResult)
    requires from <= n && from <= |s.trace| && t.trace == s.trace + [Erased(s.disc, BurnerLocked(w, s), answer)]
    ensures Tells(from, s, t, answer == Cancel, MayErase(w, s, n, flags))
  {
    if MayErase(w, s, n, flags) {
      EraseJustified(w, s, n, flags, answer);
      JustifiedStill(t.trace, |s.trace|, n, t.trace, from);
    }
  }

  lemma {:induction false} EraseTells(from: nat, w: World, s: St, temp: Option<Caps.TrackType>, eraseAllowed: bool,
                                      n: nat, flags: BurnFlags)
    requires Fit(w) && s.pile != [] && from <= n && from <= |s.trace|
    ensures var t := EraseStep(w, s, temp, eraseAllowed); Tells(from, s, t.s, t.quit, MayErase(w, s, n, flags))
  {
    var t, s1 := EraseStep(w, s, temp, eraseAllowed), Rest(s);
    if !First(s).yes && eraseAllowed {
      ErasedTells(from, w, s, t.s, n, flags, RunEraser(s1).r);
    } else {
      assert t.s.trace == s.trace && !t.quit;
    }
  }

  // ----- the tasks -----

  lemma {:induction false} LastIs(w: World, s: St, temp: Option<Caps.TrackType>)
    ensures LastTask(w, s, temp).s.trace == (if w.isDestFile then RunImager(w, s) else RunRecorder(w, s, temp)).s.trace
  {
  }

  lemma {:induction false} LastTells(from: nat, w: World, s: St, temp: Option<Caps.TrackType>)
    requires from <= |s.trace|
    ensures Tells(from, s, LastTask(w, s, temp).s, false, Remembers(w, s) && (w.isDestFile || BurnerLocked(w, s)))
  {
    var t := LastTask(w, s, temp).s;
    LastIs(w, s, temp);
    if w.isDestFile {
      ImagerTells(from, w, s);
      SameTells(from, s, s, RunImager(w, s).s, t, false, true);
    } else {
      RecorderTells(from, w, s, temp);
      SameTells(from, s, s, RunRecorder(w, s, temp).s, t, false, Remembers(w, s) && BurnerLocked(w, s));
    }
  }

  /** The erasing to come is safe. */
  predicate SafeFrom(w: World, s: St, actions: seq<Planning.TaskAction>, i: nat, n: nat, flags: BurnFlags) {
    && Remembers(w, s) && (w.isDestFile || BurnerLocked(w, s))
    && forall k :: i <= k < |actions| && actions[k] == Planning.ActionErase ==>
         k == |actions| - 2 && Apart(w, s) && MayErase(w, s, n, flags)
  }

  /** A task that makes an image changes nothing that erasing depends on. */
  lemma {:induction false} ImageTells(from: nat, w: World, s: St, n: nat, flags: BurnFlags)
    requires from <= |s.trace|
    ensures var o := RunImager(w, s);
            && Tells(from, s, o.s, false, true)
            && (o.r == BurnOk && Remembers(w, s) && Apart(w, s) && MayErase(w, s, n, flags) ==>
                  MayErase(w, o.s, n, flags))
  {
    ImagerTells(from, w, s);
  }

  lemma {:induction false} ImageTaskTells(from: nat, w: World, s: St, n: nat, flags: BurnFlags)
    requires from <= |s.trace|
    ensures var fake := RunImager(w, s);
            var done := RunImager(w, fake.s);
            && Tells(from, s, done.s, false, true)
            && (fake.r == BurnOk && done.r == BurnOk && Remembers(w, s) && Apart(w, s) && MayErase(w, s, n, flags) ==>
                  MayErase(w, HandBack(done.s), n, flags))
  {
    var fake := RunImager(w, s);
    ImageTells(from, w, s, n, flags);
    ImageTells(from, w, fake.s, n, flags);
    TellsOn(from, s, fake.s, from, RunImager(w, fake.s).s, false, true);
  }

  lemma {:induction false} OneTells(from: nat, w: World, s: St, actions: seq<Planning.TaskAction>, i: nat,
                                    temp: Option<Caps.TrackType>, eraseAllowed: bool, n: nat, flags: BurnFlags)
    requires Fit(w) && s.pile != [] && i < |actions| && from <= n && from <= |s.trace|
    ensures var t, safe := RunOne(w, s, actions, i, temp, eraseAllowed), SafeFrom(w, s, actions, i, n, flags);
            && Tells(from, s, t.s, t.quit, safe)
            && (safe && !t.over ==> SafeFrom(w, t.s, actions, i + 1, n, flags))
  {
    var safe := SafeFrom(w, s, actions, i, n, flags);
    if actions[i] == Planning.ActionErase {
      EraseTells(from, w, s, temp, eraseAllowed, n, flags);
    } else {
      var fake := RunImager(w, s);
      ImageTells(from, w, s, n, flags);
      if fake.r == BurnOk && i + 1 == |actions| {
        LastTells(from, w, fake.s, temp);
        TellsOn(from, s, fake.s, from, LastTask(w, fake.s, temp).s, false, safe);
      } else if fake.r == BurnOk {
        ImageTaskTells(from, w, s, n, flags);
      }
    }
  }

  /** The whole loop over the tasks. */
  lemma {:induction false} AllTells(from: nat, w: World, s: St, actions: seq<Planning.TaskAction>, i: nat,
                                    temp: Option<Caps.TrackType>, eraseAllowed: bool, n: nat, flags: BurnFlags)
    requires Fit(w) && s.pile != [] && i < |actions| && from <= n && from <= |s.trace|
    ensures var d := RunAll(w, s, actions, i, temp, eraseAllowed);
            Tells(from, s, d.s, d.quit, SafeFrom(w, s, actions, i, n, flags))
    decreases |actions| - i
  {
    hide RunOne;
    var t, safe := RunOne(w, s, actions, i, temp, eraseAllowed), SafeFrom(w, s, actions, i, n, flags);
    OneTells(from, w, s, actions, i, temp, eraseAllowed, n, flags);
    if !t.over && i + 1 < |actions| {
      AllTells(from, w, t.s, actions, i + 1, temp, eraseAllowed, n, flags);
      var d := RunAll(w, t.s, actions, i + 1, temp, eraseAllowed);
      TellsOn(from, s, t.s, from, d.s, d.quit, safe);
    }
  }

  // ----- running the tasks -----

  /** What must hold before the tasks are run: the burner is locked, and the source is not in it; or an image is
      made. */
  predicate SafeTasks(w: World, s: St, temp: Option<Caps.TrackType>) {
    && Remembers(w, s) && (w.isDestFile || BurnerLocked(w, s))
    && (temp.None? && OutputIsDisc(w) ==> Apart(w, s))
  }

  lemma {:induction false} PlannedIs(w: World, s: St, actions: seq<Planning.TaskAction>, temp: Option<Caps.TrackType>,
                                     eraseAllowed: bool)
    requires Fit(w) && s.pile != [] && actions != []
    ensures var d, a := RunPlanned(w, s, actions, temp, eraseAllowed), RunAll(w, s, actions, 0, temp, eraseAllowed);
            d.s.trace == a.s.trace && d.quit == a.quit
  {
  }

  /** Once checked, any erasing is safe. */
  lemma {:induction false} SafeOnceChecked(w: World, s: St, before: Out, actions: seq<Planning.TaskAction>,
                                           temp: Option<Caps.TrackType>)
    requires Fit(w) && s.pile != [] && before == CheckBefore(w, s, temp) && before.r == BurnOk
    requires ErasesOnce(w, before.s, temp, actions) && SafeTasks(w, s, temp)
    ensures SafeFrom(w, Planned(before.s), actions, 0, |s.trace|, CheckSessionConsistency(w, s, temp).s.settings.flags)
  {
    if OutputIsDisc(w) {
      CheckedIsCleared(w, s, temp);
    }
  }

  lemma {:induction false} PlannedTells(w: World, s: St, before: Out, actions: seq<Planning.TaskAction>,
                                        temp: Option<Caps.TrackType>, eraseAllowed: bool)
    requires Fit(w) && s.pile != [] && before == CheckBefore(w, s, temp) && before.r == BurnOk && actions != []
    requires ErasesOnce(w, before.s, temp, actions)
    ensures var d := RunPlanned(w, Planned(before.s), actions, temp, eraseAllowed);
            Tells(|s.trace|, s, d.s, d.quit, SafeTasks(w, s, temp))
  {
    var s1, safe, from := Planned(before.s), SafeTasks(w, s, temp), |s.trace|;
    var flags := CheckSessionConsistency(w, s, temp).s.settings.flags;
    CheckTells(from, w, s, temp);
    PlannedIs(w, s1, actions, temp, eraseAllowed);
    AllTells(from, w, s1, actions, 0, temp, eraseAllowed, from, flags);
    if safe {
      SafeOnceChecked(w, s, before, actions, temp);
    }
    TellsPlanned(from, s, before.s, s1, RunAll(w, s1, actions, 0, temp, eraseAllowed).s,
                 RunPlanned(w, s1, actions, temp, eraseAllowed).s, RunAll(w, s1, actions, 0, temp, eraseAllowed).quit,
                 SafeFrom(w, s1, actions, 0, from, flags), safe);
  }

  lemma {:induction false} TellsPlanned(from: nat, s: St, before: St, s1: St, a: St, d: St, quit: bool, now: bool,
                                        safe: bool)
    requires Tells(from, s, before, false, true) && s1.trace == before.trace && Tells(from, s1, a, quit, now)
    requires d.trace == a.trace && (safe ==> now)
    ensures Tells(from, s, d, quit, safe)
  {
    TellsOn(from, s, s1, from, d, quit, safe);
  }

  /** The checks and the tasks, between putting the settings aside and taking them back. */
  lemma {:induction false} CheckedTasksTell(w: World, s: St, eraseAllowed: bool, temp: Option<Caps.TrackType>,
                                            plan: Plans)
    requires Fit(w) && IsNoDisc(temp)
    ensures var d := RunTasks(w, s, eraseAllowed, temp, plan);
            Tells(|s.trace|, Push(s), d.s, d.quit, SafeTasks(w, Push(s), temp))
  {
    var before := CheckBefore(w, Push(s), temp);
    if before.r != BurnOk {
      CheckTells(|s.trace|, w, Push(s), temp);
      SameTells(|s.trace|, Push(s), Push(s), before.s, Pop(before.s), false, true);
    } else {
      var actions := PlanNow(w, before.s, temp, plan);
      if actions == [] {
        CheckTells(|s.trace|, w, Push(s), temp);
        SameTells(|s.trace|, Push(s), Push(s), before.s, Pop(Planned(before.s)), false, true);
      } else {
        PlannedTells(w, Push(s), before, actions, temp, eraseAllowed);
      }
    }
  }

  /** A run over the tasks: the eraser is cancelled exactly if the run quits for that, and a disc is only erased
      after a check made in this very run. */
  lemma {:induction false} TasksTell(w: World, s: St, eraseAllowed: bool, temp: Option<Caps.TrackType>, plan: Plans)
    requires Fit(w) && IsNoDisc(temp)
    ensures var d := RunTasks(w, s, eraseAllowed, temp, plan);
            && Tells(|s.trace|, s, d.s, d.quit, SafeTasks(w, s, temp))
            && (SafeTasks(w, s, temp) && d.r in {BurnOk, Retry} ==> SafeTasks(w, d.s, temp))
  {
    hide RunPlanned, CheckBefore;
    var d := RunTasks(w, s, eraseAllowed, temp, plan);
    CheckedTasksTell(w, s, eraseAllowed, temp, plan);
    SameTells(|s.trace|, Push(s), s, d.s, d.s, d.quit, SafeTasks(w, Push(s), temp));
  }

  /** The disc erased at place i was checked last at place n, not before `from`. If there was something on it, nobody
      was asked about losing that exactly if it was not going to be blanked then; and then merging was chosen since. */
  predicate ErasedAfterCheck(trace: seq<Event>, from: nat, n: nat, i: nat)
    requires i < |trace| && trace[i].Erased?
  {
    && from <= n && LatestCheck(trace, n, i) && trace[n].disc == trace[i].disc
    && (HasContent(trace[n].media) ==>
          && (Unasked(trace, n, i) <==> BlankBeforeWrite !in trace[n].flags)
          && (Unasked(trace, n, i) ==> RetriedSince(trace, n, i)))
  }

  lemma {:induction false} ErasedUnasked(from: nat, s: St, t: St, quit: bool, i: nat)
    requires Tells(from, s, t, quit, true) && |s.trace| <= i < |t.trace| && t.trace[i].Erased?
    ensures exists n :: ErasedAfterCheck(t.trace, from, n, i)
  {
    assert Justified(t.trace, i, from);
    var n :| from <= n < i && ErasedRightly(t.trace, n, i, t.trace[i].disc);
    if HasContent(t.trace[n].media) {
      AgreedUnaskedIff(t.trace, n, i);
    }
    assert ErasedAfterCheck(t.trace, from, n, i);
  }

  /** Every disc erased in a run over the tasks: its last check was made in this run, and with something on it nobody
      was asked about that exactly if that check was not for blanking. */
  lemma {:induction false} TasksEraseUnaskedIff(w: World, s: St, eraseAllowed: bool, temp: Option<Caps.TrackType>,
                                                plan: Plans, i: nat)
    requires Fit(w) && IsNoDisc(temp) && SafeTasks(w, s, temp)
    requires var trace := RunTasks(w, s, eraseAllowed, temp, plan).s.trace; |s.trace| <= i < |trace| && trace[i].Erased?
    ensures exists n :: ErasedAfterCheck(RunTasks(w, s, eraseAllowed, temp, plan).s.trace, |s.trace|, n, i)
  {
    hide RunTasks;
    var d := RunTasks(w, s, eraseAllowed, temp, plan);
    TasksTell(w, s, eraseAllowed, temp, plan);
    ErasedUnasked(|s.trace|, s, d.s, d.quit, i);
  }

  lemma {:induction false} PatientlyTells(w: World, s: St, eraseAllowed: bool, temp: Option<Caps.TrackType>,
                                          plan: Plans)
    requires Fit(w) && IsNoDisc(temp)
    ensures var d := RunTasksPatiently(w, s, eraseAllowed, temp, plan);
            && Tells(|s.trace|, s, d.s, d.quit, SafeTasks(w, s, temp))
            && (SafeTasks(w, s, temp) && d.r == BurnOk ==> SafeTasks(w, d.s, temp))
    decreases |s.script|
  {
    hide RunTasks;
    var d := RunTasks(w, s, eraseAllowed, temp, plan);
    TasksTell(w, s, eraseAllowed, temp, plan);
    if d.r == Retry {
      PatientlyTells(w, d.s, eraseAllowed, temp, plan);
      var more := RunTasksPatiently(w, d.s, eraseAllowed, temp, plan);
      TellsOn(|s.trace|, s, d.s, |d.s.trace|, more.s, more.quit, SafeTasks(w, s, temp));
    }
  }

  // ----- recording -----

  /** A session as it is recorded: what holds for its runs over the tasks holds for all of it. */
  lemma {:induction false} SessionTells(w: World, s: St, eraseAllowed: bool, temp: Option<Caps.TrackType>, plan: Plans)
    requires Fit(w) && IsNoDisc(temp)
    ensures var d := RecordSession(w, s, eraseAllowed, temp, plan);
            Tells(|s.trace|, s, d.s, d.quit, SafeTasks(w, s, temp))
    decreases |s.script|, 1
  {
    hide RunTasksPatiently;
    var d := RunTasksPatiently(w, s, eraseAllowed, temp, plan);
    PatientlyTells(w, s, eraseAllowed, temp, plan);
    if d.r == BurnOk && !w.isDestFile {
      AfterTells(w, d.s, d.dummy, temp, plan);
      var end := AfterTasks(w, d.s, d.dummy, temp, plan);
      TellsOn(|s.trace|, s, d.s, |d.s.trace|, end.s, end.quit, SafeTasks(w, s, temp));
    }
  }

  lemma {:induction false} AfterTells(w: World, s: St, dummy: bool, temp: Option<Caps.TrackType>, plan: Plans)
    requires Fit(w) && IsNoDisc(temp)
    ensures var d := AfterTasks(w, s, dummy, temp, plan); Tells(|s.trace|, s, d.s, d.quit, SafeTasks(w, s, temp))
    decreases |s.script|, 0
  {
    hide RunTasksPatiently;
    var s1 := Rest(s);
    if dummy && First(s).result == BurnOk {
      SessionTells(w, Simulating(s1, false), false, temp, plan);
      var d := RecordSession(w, Simulating(s1, false), false, temp, plan);
      SameTells(|s.trace|, Simulating(s1, false), s, d.s, Simulating(d.s, true), d.quit, SafeTasks(w, s, temp));
    }
  }

  /** A session that went well ends with the recorder having run for real, simulated or not what went before. */
  lemma {:induction false} SessionWrites(w: World, s: St, eraseAllowed: bool, temp: Option<Caps.TrackType>, plan: Plans)
    requires Fit(w) && IsNoDisc(temp) && !w.isDestFile
    ensures var d := RecordSession(w, s, eraseAllowed, temp, plan); d.r == BurnOk ==> Written(s, d.s, temp, false)
    decreases |s.script|, 1
  {
    hide RunTasksPatiently;
    var d := RunTasksPatiently(w, s, eraseAllowed, temp, plan);
    if d.r == BurnOk {
      AfterWrites(w, d.s, d.dummy, temp, plan);
      assert RecordSession(w, s, eraseAllowed, temp, plan) == AfterTasks(w, d.s, d.dummy, temp, plan);
    }
  }

  /** What follows tasks that went well: after a simulation all is done once more, for real, or the session does not end
      well. */
  lemma {:induction false} AfterWrites(w: World, s: St, dummy: bool, temp: Option<Caps.TrackType>, plan: Plans)
    requires Fit(w) && IsNoDisc(temp) && !w.isDestFile
    requires EndsRecorded(s, temp, dummy)
    ensures var d := AfterTasks(w, s, dummy, temp, plan);
            d.r == BurnOk ==> EndsRecorded(d.s, temp, false) && (dummy ==> Written(s, d.s, temp, false))
    decreases |s.script|, 0
  {
    hide RunTasksPatiently;
    if !dummy {
      assert AfterTasks(w, s, dummy, temp, plan).s.trace == s.trace;
    } else if First(s).result == BurnOk {
      var s1 := Simulating(Rest(s), false);
      SessionWrites(w, s1, false, temp, plan);
    }
  }

  /** After a simulation that went well, the session ends well only once the recorder has run again, for real. */
  lemma {:induction false} SimulationIsNotAll(w: World, s: St, eraseAllowed: bool, temp: Option<Caps.TrackType>,
                                              plan: Plans)
    requires Fit(w) && IsNoDisc(temp) && !w.isDestFile
    requires var d := RunTasksPatiently(w, s, eraseAllowed, temp, plan); d.r == BurnOk && d.dummy
    ensures var d, e := RunTasksPatiently(w, s, eraseAllowed, temp, plan),
            RecordSession(w, s, eraseAllowed, temp, plan);
            && EndsRecorded(d.s, temp, true) && (e.r == BurnOk ==> Written(d.s, e.s, temp, false))
  {
    hide RunTasksPatiently;
    var d := RunTasksPatiently(w, s, eraseAllowed, temp, plan);
    AfterWrites(w, d.s, true, temp, plan);
    assert RecordSession(w, s, eraseAllowed, temp, plan) == AfterTasks(w, d.s, d.dummy, temp, plan);
  }

  // ----- nothing is erased where that is not allowed -----

  /** No disc was erased from s to t. */
  predicate Spares(s: St, t: St) {
    s.trace <= t.trace && forall k :: |s.trace| <= k < |t.trace| ==> !t.trace[k].Erased?
  }

  lemma {:induction false} SparesTwice(s: St, t: St, u: St)
    requires Spares(s, t) && Spares(t, u)
    ensures Spares(s, u)
  {
  }

  lemma {:induction false} ReloadSrcSpares(w: World, s: St)
    ensures Spares(s, ReloadSrc(w, s).s)
  {
    hide LockSrcLoop, Keeps, Apart, BurnerAlone;
  }

  lemma {:induction false} MendImagerSpares(w: World, s: St, error: BurnError)
    ensures Spares(s, MendImager(w, s, error).s)
  {
    hide ReloadSrc, Keeps, Apart, BurnerAlone;
    ReloadSrcSpares(w, s);
  }

  lemma {:induction false} MendRecorderSpares(w: World, s: St, error: BurnError)
    ensures Spares(s, MendRecorder(w, s, error).s)
  {
    hide ReloadSrc, ReloadDest, Keeps, Apart, BurnerAlone;
    ReloadSrcSpares(w, s);
  }

  lemma {:induction false} ImagerSpares(w: World, s: St)
    ensures Spares(s, RunImager(w, s).s)
    decreases |s.script|
  {
    hide MendImager, Apart, BurnerAlone, Remembers, TwoDrives, NoLoss;
    var o := Unmount(s, 0);
    if o.r == BurnOk {
      var a, s1 := TaskAnswer(o.s), Rest(o.s);
      if a.result == BurnErr && a.error != NoError {
        var m := MendImager(w, s1, a.error);
        MendImagerSpares(w, s1, a.error);
        if m.r == BurnOk {
          ImagerSpares(w, m.s);
          SparesTwice(s, m.s, RunImager(w, m.s).s);
        }
      }
    }
  }

  lemma {:induction false} RecorderSpares(w: World, s: St, temp: Option<Caps.TrackType>)
    ensures Spares(s, RunRecorder(w, s, temp).s)
    decreases |s.script|
  {
    hide MendRecorder, Keeps, Apart, BurnerAlone, Remembers, BurnerLocked;
    var o := FreeDrives(s);
    if o.r == BurnOk {
      var a, s1 := TaskAnswer(o.s), Logged(Rest(o.s), Recording(w, s, temp));
      assert Spares(s, s1);
      if a.result == BurnErr && a.error != NoError {
        var m := MendRecorder(w, s1, a.error);
        MendRecorderSpares(w, s1, a.error);
        SparesTwice(s, s1, m.s);
        if m.r == BurnOk {
          RecorderSpares(w, m.s, temp);
          SparesTwice(s, m.s, RunRecorder(w, m.s, temp).s);
        }
      }
    }
  }

  lemma {:induction false} OneSpares(w: World, s: St, actions: seq<Planning.TaskAction>, i: nat,
                                     temp: Option<Caps.TrackType>)
    requires Fit(w) && s.pile != [] && i < |actions|
    ensures Spares(s, RunOne(w, s, actions, i, temp, false).s)
  {
    hide RunImager, RunRecorder;
    if actions[i] != Planning.ActionErase {
      var fake := RunImager(w, s);
      ImagerSpares(w, s);
      ImagerSpares(w, fake.s);
      RecorderSpares(w, fake.s, temp);
      SparesTwice(s, fake.s, RunImager(w, fake.s).s);
      SparesTwice(s, fake.s, RunRecorder(w, fake.s, temp).s);
    }
  }

  lemma {:induction false} AllSpares(w: World, s: St, actions: seq<Planning.TaskAction>, i: nat,
                                     temp: Option<Caps.TrackType>)
    requires Fit(w) && s.pile != [] && i < |actions|
    ensures Spares(s, RunAll(w, s, actions, i, temp, false).s)
    decreases |actions| - i
  {
    hide RunOne;
    var t := RunOne(w, s, actions, i, temp, false);
    OneSpares(w, s, actions, i, temp);
    if !t.over && i + 1 < |actions| {
      AllSpares(w, t.s, actions, i + 1, temp);
      SparesTwice(s, t.s, RunAll(w, t.s, actions, i + 1, temp, false).s);
    }
  }

  lemma {:induction false} CheckSpares(w: World, s: St, temp: Option<Caps.TrackType>)
    requires Fit(w) && s.pile != []
    ensures Spares(s, CheckBefore(w, s, temp).s)
  {
    var c := CheckSessionConsistency(w, s, temp);
    if c.r == BurnOk && OutputIsDisc(w) {
      var media := w.media(c.s.disc);
      var s1 := Logged(c.s, Checked(c.s.disc, media, c.s.settings.flags));
      var warned := WarnAboutLoss(w, s1, media, c.s.settings.flags);
      assert Spares(s, warned.s);
    }
  }

  lemma {:induction false} TasksSpare(w: World, s: St, temp: Option<Caps.TrackType>, plan: Plans)
    requires Fit(w)
    ensures Spares(s, RunTasks(w, s, false, temp, plan).s)
  {
    hide RunAll, CheckBefore;
    var before := CheckBefore(w, Push(s), temp);
    CheckSpares(w, Push(s), temp);
    if before.r == BurnOk {
      var actions, s1 := PlanNow(w, before.s, temp, plan), Planned(before.s);
      if actions != [] {
        AllSpares(w, s1, actions, 0, temp);
        PlannedIs(w, s1, actions, temp, false);
        SparesTwice(s, s1, RunAll(w, s1, actions, 0, temp, false).s);
      }
    }
  }

  lemma {:induction false} PatientlySpares(w: World, s: St, temp: Option<Caps.TrackType>, plan: Plans)
    requires Fit(w)
    ensures Spares(s, RunTasksPatiently(w, s, false, temp, plan).s)
    decreases |s.script|
  {
    hide RunTasks;
    var d := RunTasks(w, s, false, temp, plan);
    TasksSpare(w, s, temp, plan);
    if d.r == Retry {
      PatientlySpares(w, d.s, temp, plan);
      SparesTwice(s, d.s, RunTasksPatiently(w, d.s, false, temp, plan).s);
    }
  }

  lemma {:induction false} SessionSpares(w: World, s: St, temp: Option<Caps.TrackType>, plan: Plans)
    requires Fit(w)
    ensures Spares(s, RecordSession(w, s, false, temp, plan).s)
    decreases |s.script|, 1
  {
    hide RunTasksPatiently;
    var d := RunTasksPatiently(w, s, false, temp, plan);
    PatientlySpares(w, s, temp, plan);
    if d.r == BurnOk && !w.isDestFile {
      AfterSpares(w, d.s, d.dummy, temp, plan);
      SparesTwice(s, d.s, AfterTasks(w, d.s, d.dummy, temp, plan).s);
    }
  }

  /** What the simulation erased is not erased again. */
  lemma {:induction false} AfterSpares(w: World, s: St, dummy: bool, temp: Option<Caps.TrackType>, plan: Plans)
    requires Fit(w)
    ensures Spares(s, AfterTasks(w, s, dummy, temp, plan).s)
    decreases |s.script|, 0
  {
    hide RunTasksPatiently;
    if dummy && First(s).result == BurnOk {
      SessionSpares(w, Simulating(Rest(s), false), temp, plan);
    }
  }

  lemma {:induction false} OwnImageTells(w: World, s: St, plan: Plans)
    requires Fit(w)
    ensures var d, safe := SameSrcDestImage(w, s, plan), Remembers(w, s) && w.burner.Some? && s.srcDrive == w.burner;
            Tells(|s.trace|, s, d.s, d.quit, safe)
  {
    hide RecordSession;
    var format, s1, safe := First(s), Rest(s), Remembers(w, s) && w.burner.Some? && s.srcDrive == w.burner;
    if format.result == BurnOk && !format.input.Disc? {
      var lock := LockSrc(w, s1);
      SrcTells(|s.trace|, w, s1);
      SameTells(|s.trace|, s1, s, lock.s, lock.s, false, safe);
      if lock.r == BurnOk {
        var d := RecordSession(w, lock.s, true, Some(format.input), plan);
        SessionTells(w, lock.s, true, Some(format.input), plan);
        TellsOn(|s.trace|, s, lock.s, |lock.s.trace|, d.s, d.quit, safe);
        SameTells(|s.trace|, s, s, d.s, SameSrcDestImage(w, s, plan).s, d.quit, safe);
      }
    }
  }

  /** Where the disc to copy is in the burner: once an image of it is made, the image stands for it in the session. */
  ghost predicate ImageReplaces(w: World, s: St, plan: Plans)
    requires Fit(w)
  {
    w.burner.Some? && s.srcDrive == w.burner && !w.isDestFile && SameSrcDestImage(w, s, plan).r == BurnOk ==>
      SameSrcDestImage(w, s, plan).s.srcDrive.None?
  }

  /** A copy with one drive goes on only after its source has been ejected and forgotten; the session names it still
      exactly if the image did not replace it. */
  lemma {:induction false} OwnImageLeaves(w: World, s: St, plan: Plans)
    requires Fit(w) && w.burner.Some? && s.srcDrive == w.burner && !w.isDestFile
    ensures var d := SameSrcDestImage(w, s, plan);
            d.r == BurnOk ==> d.s.src.None? && (Apart(w, d.s) <==> ImageReplaces(w, s, plan))
  {
    hide RecordSession;
  }

  /** Once the drives are ready, the burner is locked; and the source is not in it exactly if the image made of it, if
      one was made, replaced it. */
  lemma {:induction false} PrepareTells(w: World, s: St, plan: Plans)
    requires Fit(w)
    ensures var d, safe := Prepare(w, s, plan), Remembers(w, s) && s.src.None?;
            && Tells(|s.trace|, s, d.s, d.quit, safe)
            && (safe && d.r == BurnOk ==> (SafeTasks(w, d.s, None) <==> ImageReplaces(w, s, plan)))
  {
    hide SameSrcDestImage;
    var d, safe := Prepare(w, s, plan), Remembers(w, s) && s.src.None?;
    if w.burner.Some? && s.srcDrive == w.burner {
      var image := SameSrcDestImage(w, s, plan);
      OwnImageTells(w, s, plan);
      SameTells(|s.trace|, s, s, image.s, d.s, image.quit, safe);
      if !w.isDestFile {
        OwnImageLeaves(w, s, plan);
      }
    }
  }

  /** What must hold before a burn: no drive is remembered wrongly, and an image of the disc in the burner replaces
      it. */
  ghost predicate SafeToRecord(w: World, s: St, plan: Plans)
    requires Fit(w)
  {
    Remembers(w, s) && s.src.None? && ImageReplaces(w, s, plan)
  }

  /** Locking the source, or using up an answer, leaves the tasks as safe as they were. */
  lemma {:induction false} StillSafe(w: World, s: St)
    requires SafeTasks(w, s, None)
    ensures SafeTasks(w, Rest(s), None) && SafeTasks(w, LockSrc(w, Rest(s)).s, None)
  {
  }

  lemma {:induction false} LockedTells(w: World, s: St, plan: Plans)
    requires Fit(w)
    ensures var d := RecordLocked(w, s, plan); Tells(|s.trace|, s, d.s, d.quit, SafeToRecord(w, s, plan))
  {
    hide RecordSession, Prepare, LockSrc, SafeTasks, ImageReplaces, First, Rest;
    var ready, safe := Prepare(w, s, plan), SafeToRecord(w, s, plan);
    PrepareTells(w, s, plan);
    if ready.r == BurnOk {
      if safe {
        StillSafe(w, ready.s);
      }
      var s1 := Rest(ready.s);
      var lock := if First(ready.s).input.Disc? then LockSrc(w, s1) else Out(s1, BurnOk);
      SameTells(|s.trace|, s, s, ready.s, s1, false, safe);
      SrcTells(|s.trace|, w, s1);
      TellsOn(|s.trace|, s, s1, |s.trace|, lock.s, false, safe);
      if lock.r == BurnOk {
        SessionTells(w, lock.s, true, None, plan);
        var d := RecordSession(w, lock.s, true, None, plan);
        TellsOn(|s.trace|, s, lock.s, |lock.s.trace|, d.s, d.quit, safe);
      }
    }
  }

  /** A burn that remembers no drives when it begins, and whose image, if the disc to copy is in the burner, replaces
      that disc. */
  ghost predicate MayBegin(w: World, s: St, plan: Plans)
    requires Fit(w)
  {
    s.src.None? && s.dest.None? && ImageReplaces(w, Begin(s), plan)
  }

  /** The whole burn: discs are written and erased only with the burner locked, and a disc is erased only after a check
      of that disc in this burn that let it pass; the burn quits at once exactly if the eraser was cancelled. */
  lemma {:induction false} RecordTells(w: World, s: St, plan: Plans)
    requires Fit(w)
    ensures var d := Record(w, s, plan); Tells(|s.trace|, s, d.s, d.quit, MayBegin(w, s, plan))
  {
    hide RecordLocked, ImageReplaces;
    var d := RecordLocked(w, Begin(s), plan);
    LockedTells(w, Begin(s), plan);
    SameTells(|s.trace|, Begin(s), s, d.s, UnlockMedias(w, d.s), d.quit, SafeToRecord(w, Begin(s), plan));
  }

  /** And the same of every disc erased in a whole burn. */
  lemma {:induction false} BurnErasesUnaskedIff(w: World, s: St, plan: Plans, i: nat)
    requires Fit(w) && MayBegin(w, s, plan)
    requires var trace := Record(w, s, plan).s.trace; |s.trace| <= i < |trace| && trace[i].Erased?
    ensures exists n :: ErasedAfterCheck(Record(w, s, plan).s.trace, |s.trace|, n, i)
  {
    hide Record, MayBegin;
    var d := Record(w, s, plan);
    RecordTells(w, s, plan);
    ErasedUnasked(|s.trace|, s, d.s, d.quit, i);
  }

  /** A burn that went well has written a disc, and that was the last thing to happen. */
  lemma {:induction false} RecordWrites(w: World, s: St, plan: Plans)
    requires Fit(w) && !w.isDestFile && Record(w, s, plan).r == BurnOk
    ensures EndsRecorded(Record(w, s, plan).s, None, false)
  {
    hide RecordSession, Prepare;
    var ready := Prepare(w, Begin(s), plan);
    if ready.r == BurnOk {
      var s1 := Rest(ready.s);
      var lock := if First(ready.s).input.Disc? then LockSrc(w, s1) else Out(s1, BurnOk);
      SessionWrites(w, lock.s, true, None, plan);
    }
  }

  // ----- the settings -----

  /** The settings from before, with at most the dummy flag added. */
  predicate Restored(s: St, t: St) {
    && t.pile == s.pile && t.settings.rate == s.settings.rate
    && s.settings.flags <= t.settings.flags <= s.settings.flags + {Dummy}
  }

  /** The burn quits with one more entry on the pile, or the settings are restored. */
  predicate Settles(s: St, t: St, quit: bool) {
    if quit then |t.pile| == |s.pile| + 1 && t.pile[1..] == s.pile else Restored(s, t)
  }

  lemma {:induction false} SessionSettles(w: World, s: St, eraseAllowed: bool, temp: Option<Caps.TrackType>,
                                          plan: Plans)
    requires Fit(w)
    ensures var d := RecordSession(w, s, eraseAllowed, temp, plan); Settles(s, d.s, d.quit)
    decreases |s.script|, 1
  {
    hide RunTasksPatiently;
    var d := RunTasksPatiently(w, s, eraseAllowed, temp, plan);
    if d.r == BurnOk && !w.isDestFile {
      AfterSettles(w, d.s, d.dummy, temp, plan);
    }
  }

  lemma {:induction false} AfterSettles(w: World, s: St, dummy: bool, temp: Option<Caps.TrackType>, plan: Plans)
    requires Fit(w)
    ensures var d := AfterTasks(w, s, dummy, temp, plan); Settles(s, d.s, d.quit)
    decreases |s.script|, 0
  {
    hide RunTasksPatiently;
    if dummy && First(s).result == BurnOk {
      SessionSettles(w, Simulating(Rest(s), false), false, temp, plan);
    }
  }

  lemma {:induction false} PrepareSettles(w: World, s: St, plan: Plans)
    requires Fit(w)
    ensures var d := Prepare(w, s, plan); Settles(s, d.s, d.quit)
  {
    hide RecordSession;
    var format, lock := First(s), LockSrc(w, Rest(s));
    if w.burner.Some? && s.srcDrive == w.burner && format.result == BurnOk && !format.input.Disc? && lock.r == BurnOk {
      SessionSettles(w, lock.s, true, Some(format.input), plan);
    }
  }

  /** After a burn the settings are those from before, save for the dummy flag; not if the eraser was cancelled, and
      then one more entry is left on the pile. */
  lemma {:induction false} RecordSettles(w: World, s: St, plan: Plans)
    requires Fit(w)
    ensures var d := Record(w, s, plan); Settles(s, d.s, d.quit)
  {
    hide RecordSession, Prepare;
    var ready := Prepare(w, Begin(s), plan);
    PrepareSettles(w, Begin(s), plan);
    if ready.r == BurnOk {
      var s1 := Rest(ready.s);
      var lock := if First(ready.s).input.Disc? then LockSrc(w, s1) else Out(s1, BurnOk);
      SessionSettles(w, lock.s, true, None, plan);
    }
  }

  // ----- the locks -----

  /** Once the drives are unlocked: what was locked on the way and still is has refused to be unlocked or was forgotten.
      With a source of its own, no drive is forgotten while locked exactly if the trace tells of none; it tells so
      where the burn takes the source from a session that has none any more. */
  predicate Unlocks(w: World, s: St, t: St) {
    && t.src.None? && t.dest.None?
    && t.locked - s.locked - t.stuck == t.lost - s.locked - t.stuck
    && (w.burner.None? || s.srcDrive != w.burner ==>
          && (t.lost == {} <==> NoLoss(t.trace, |s.trace|))
          && (NoLoss(t.trace, |s.trace|) ==> t.locked <= s.locked + t.stuck))
  }

  lemma {:induction false} RecordUnlocks(w: World, s: St, plan: Plans)
    requires Fit(w) && s.src.None? && s.dest.None?
    ensures Unlocks(w, s, Record(w, s, plan).s)
  {
    hide RecordLocked;
    var d := RecordLocked(w, Begin(s), plan);
    var t := UnlockMedias(w, d.s);
    LeftLocked(w, Begin(s), d.s);
    KeepsTwice(w, Begin(s), d.s, t);
    forall d | d in t.locked && t.lost == {} ensures d in s.locked + t.stuck {
      assert d !in t.locked - s.locked - t.stuck;
    }
  }

  // ----- blanking -----

  lemma {:induction false} BlankingTells(w: World, s: St)
    ensures Tells(|s.trace|, s, BlankLoop(w, s).s, false, Remembers(w, s) && BurnerLocked(w, s))
    decreases |s.script|
  {
    var b, safe := BlankReal(w, s), Remembers(w, s) && BurnerLocked(w, s);
    assert Tells(|s.trace|, s, b.s, false, safe);
    if b.r == BurnErr && b.error == NotRewritableError {
      var asked := AskForDestMedia(w, b.s);
      var lock := LockRewritable(w, asked.s);
      if asked.r == BurnOk && lock.r == BurnOk {
        BlankingTells(w, lock.s);
        SameTells(|s.trace|, s, s, b.s, lock.s, false, safe);
        TellsOn(|s.trace|, s, lock.s, |lock.s.trace|, BlankLoop(w, lock.s).s, false, safe);
      } else {
        SameTells(|s.trace|, s, s, b.s, BlankLoop(w, s).s, false, safe);
      }
    }
  }

  /** Blanking: only with the burner locked, the settings stay as they are, and nothing is left locked but what
      refused. */
  lemma {:induction false} BlankKeepsAll(w: World, s: St)
    requires s.src.None? && s.dest.None?
    ensures var t := Blank(w, s).s;
            && Tells(|s.trace|, s, t, false, true)
            && t.settings == s.settings && t.pile == s.pile
            && t.src.None? && t.dest.None? && t.locked <= s.locked + t.stuck
  {
    hide BlankLoop;
    var lock := LockRewritable(w, Begin(s));
    var o := if lock.r == BurnOk then BlankLoop(w, lock.s) else lock;
    KeepsThrice(w, Begin(s), lock.s, o.s, o.s);
    LeftLocked(w, Begin(s), o.s);
    if lock.r == BurnOk {
      BlankingTells(w, lock.s);
    }
    SameTells(|s.trace|, lock.s, s, o.s, UnlockMedias(w, o.s), false, true);
    var t := UnlockMedias(w, o.s);
    assert t.lost == {};
    forall d | d in t.locked ensures d in s.locked + t.stuck {
      assert d !in t.locked - s.locked - t.stuck;
    }
  }
}
