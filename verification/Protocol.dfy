/** A burn from the first check to the last unlock (rejilla-burn.c), as functions on the state of the burn, and what
    holds over whole runs. The plans new_task makes are handed in: `plan(k)` is the k-th, and one that new_task
    cannot have made counts as none. */
module Protocol {
  import opened Flags
  import opened MediumFlags
  import opened Consistency
  import opened Drives
  import Caps
  import FindLink
  import Planning = NewTask

  type Plans = nat -> seq<Planning.TaskAction>

  /** What the engine needs to know its way: a graph without circles, and images that are no discs. */
  predicate Fit(w: World) {
    FindLink.Ranked(w.graph, w.rank) && !w.imageOutput.Disc?
  }

  function Logged(s: St, e: Event): (t: St)
    ensures t == s.(trace := s.trace + [e])
  {
    s.(trace := s.trace + [e])
  }

  lemma {:induction false} LoggingKeeps(w: World, s: St, e: Event)
    requires !IsLoss(e)
    ensures Keeps(w, s, Logged(s, e))
  {
  }

  /** The last thing to happen was that the recorder ran, for real or not: on a disc, or for the image that is to be
      made first. */
  predicate EndsRecorded(s: St, temp: Option<Caps.TrackType>, simulated: bool) {
    && s.trace != []
    && var last := s.trace[|s.trace| - 1];
       if temp.None? then last.Burnt? && last.simulated == simulated
       else last.Imaged? && last.simulated == simulated
  }

  predicate Written(s: St, t: St, temp: Option<Caps.TrackType>, simulated: bool) {
    |s.trace| < |t.trace| && EndsRecorded(t, temp, simulated)
  }

  // ----- running tasks -----

  /** rejilla_task_run. It does not end in RETRY: a job that asks for another try gets it within the task. */
  function TaskAnswer(s: St): (a: Answer)
    ensures a.result != Retry && (a.result == BurnOk <==> First(s).result == BurnOk)
    ensures a != SILENCE ==> |Rest(s).script| < |s.script|
  {
    var a := First(s);
    if a.result == Retry then a.(result := BurnErr) else a
  }

  /** rejilla_burn_run_eraser. */
  function RunEraser(s: St): (o: Out)
    ensures o.s == s.(script := o.s.script, disc := o.s.disc) && |o.s.script| <= |s.script| && o.r != Retry
  {
    var o := Unmount(s, 0);
    if o.r != BurnOk then o
    else
      var s1 := Rest(o.s).(disc := s.disc + 1);
      if TaskAnswer(o.s).result != BurnOk then Out(s1, TaskAnswer(o.s).result) else WaitWhileBusy(s1)
  }

  /** Some errors of an imager can be mended. */
  function MendImager(w: World, s: St, error: BurnError): (o: Out)
    ensures Apart(w, s) ==> Apart(w, o.s)
    ensures |s.trace| <= |o.s.trace|
    ensures Keeps(w, s, o.s) && (o.r == Retry ==> |o.s.script| < |s.script|)
    ensures o.s == s.(script := o.s.script, locked := o.s.locked, stuck := o.s.stuck, lost := o.s.lost,
                      disc := o.s.disc, src := o.s.src, trace := o.s.trace)
    ensures Remembers(w, s) && o.r in {BurnOk, Retry} ==>
            o.s.trace == s.trace && (BurnerLocked(w, s) ==> BurnerLocked(w, o.s))
    ensures (s.srcDrive != w.burner && s.src != w.burner) || w.burner.None? ==> BurnerAlone(w, s, o.s)
  {
    match error
    case NoDataError => ReloadSrc(w, s)
    case JolietError => Out(Rest(s), First(s).result)
    case PlaceError => Out(Rest(s), First(s).result)
    case _ => Out(s, BurnErr)
  }

  /** An imager that failed runs again for lack of data once the source drive of the session is ready, for a place or
      for names that are too long if the user has seen to it, and otherwise not. */
  lemma {:induction false} ImagerGoesOnFor(w: World, s: St, error: BurnError)
    ensures var o := MendImager(w, s, error);
            && (o.r == BurnOk ==> error in {NoDataError, JolietError, PlaceError})
            && (o.r == BurnOk && error == NoDataError ==> o.s.src == s.srcDrive)
            && (error in {JolietError, PlaceError} ==> (o.r == BurnOk <==> First(s).result == BurnOk))
  {
  }

  /** rejilla_burn_run_imager, in fake mode or not. */
  function RunImager(w: World, s: St): (o: Out)
    ensures Apart(w, s) ==> Apart(w, o.s)
    ensures |s.trace| <= |o.s.trace|
    ensures Keeps(w, s, o.s) && (o.r == Retry ==> |o.s.script| < |s.script|)
    ensures o.s == s.(script := o.s.script, locked := o.s.locked, stuck := o.s.stuck, lost := o.s.lost,
                      disc := o.s.disc, src := o.s.src, trace := o.s.trace)
    ensures Remembers(w, s) && o.r in {BurnOk, Retry} ==>
            o.s.trace == s.trace && (BurnerLocked(w, s) ==> BurnerLocked(w, o.s))
    ensures (s.srcDrive != w.burner && s.src != w.burner) || w.burner.None? ==> BurnerAlone(w, s, o.s)
    decreases |s.script|
  {
    var o := Unmount(s, 0);
    if o.r != BurnOk then o
    else
      var a, s1 := TaskAnswer(o.s), Rest(o.s);
      if a.result != BurnErr || a.error == NoError then Out(s1, a.result)
      else
        var m := MendImager(w, s1, a.error);
        if m.r != BurnOk then m
        else
          KeepsTwice(w, s, m.s, RunImager(w, m.s).s);
          RunImager(w, m.s)
  }

  /** Where a task that has run handed tracks back, they replace the session's, which then names no drive. */
  function HandBack(s: St): (t: St)
    ensures t == s.(script := t.script, srcDrive := t.srcDrive) && |t.script| <= |s.script|
    ensures t.srcDrive == s.srcDrive || t.srcDrive.None?
  {
    if First(s).yes then Rest(s).(srcDrive := None) else Rest(s)
  }

  lemma {:induction false} HandBackKeeps(w: World, s: St, t: St)
    requires t == s.(script := t.script, srcDrive := t.srcDrive) && |t.script| <= |s.script|
    requires t.srcDrive == s.srcDrive || t.srcDrive.None?
    ensures Keeps(w, s, t)
  {
  }

  const CD_RATE: nat := 176400

  /** The speed to try next when the system could not keep up. */
  function SlowerRate(rate: nat): nat {
    if rate > 8 * CD_RATE then 8 * CD_RATE
    else if rate * 3 / 4 < CD_RATE then CD_RATE
    else rate * 3 / 4
  }

  /** It never falls below one time the speed of a CD, nor rises unless it was below that; and as long as it does not
      come from above eight times, no more than a quarter is given up. */
  lemma SlowerStep(rate: nat)
    ensures var slower := SlowerRate(rate);
            && CD_RATE <= slower <= 8 * CD_RATE && (slower < rate <==> CD_RATE < rate)
            && (rate <= 8 * CD_RATE ==> rate * 3 <= slower * 4 + 3 && (slower == rate * 3 / 4 || slower == CD_RATE))
            && (rate > 8 * CD_RATE ==> slower == 8 * CD_RATE)
  {
  }

  /** Before the recorder starts: unmounts the discs, and waits until the burner can be used exclusively. */
  function FreeDrives(s: St): (o: Out)
    ensures OnlyAsked(s, o.s) && o.r in {BurnOk, BurnErr, Cancel}
  {
    var o := if NoTmpFiles in s.settings.flags then Unmount(s, 0) else Out(s, BurnOk);
    if o.r != BurnOk then o
    else
      var u := Unmount(o.s, 0);
      if u.r != BurnOk then u else WaitWhileBusy(u.s)
  }

  /** What the recorder does about an error before it tries again. */
  function MendRecorder(w: World, s: St, error: BurnError): (o: Out)
    ensures Apart(w, s) ==> Apart(w, o.s)
    ensures |s.trace| <= |o.s.trace|
    ensures (Remembers(w, s) ==> Keeps(w, s, o.s)) && |o.s.script| <= |s.script|
    ensures o.s == s.(script := o.s.script, locked := o.s.locked, stuck := o.s.stuck, lost := o.s.lost,
                      disc := o.s.disc, src := o.s.src, dest := o.s.dest, settings := o.s.settings, trace := o.s.trace)
    ensures o.s.settings.flags == s.settings.flags
    ensures Remembers(w, s) && BurnerLocked(w, s) && o.r in {BurnOk, Retry} ==> BurnerLocked(w, o.s)
  {
    match error
    case JolietError => Out(Rest(s), First(s).result)
    case NeedReloadingError => ReloadSrc(w, s)
    case SlowDmaError =>
      var o := Sleep(s);
      if o.r != BurnOk then o else Out(o.s.(settings := s.settings.(rate := SlowerRate(s.settings.rate))), BurnOk)
    case SpaceError => if s.settings.flags * {Append, Merge} != {} then Out(s, BurnErr) else ReloadDest(w, s)
    case NoDataError => ReloadDest(w, s)
    case NotRewritableError => ReloadDest(w, s)
    case OtherMediumError => ReloadDest(w, s)
    case _ => Out(s, BurnErr)
  }

  const NEEDS_OTHER_DISC: set<BurnError> := {SpaceError, NoDataError, NotRewritableError, OtherMediumError}

  /** A recorder that failed starts once more only with something changed: with another disc in a locked burner, which
      is out of the question where the disc is to be gone on with, with the source drive ready, at another rate, or
      after the user gave up long names. Nothing is gone on with after any other error. */
  lemma {:induction false} RecorderGoesOnFor(w: World, s: St, error: BurnError)
    ensures var o := MendRecorder(w, s, error);
            && (o.r == BurnOk ==> error in NEEDS_OTHER_DISC + {NeedReloadingError, SlowDmaError, JolietError})
            && (o.r == BurnOk && error in NEEDS_OTHER_DISC ==> BurnerLocked(w, o.s))
            && (o.r == BurnOk && error == SpaceError ==> Append !in s.settings.flags && Merge !in s.settings.flags)
            && (o.r == BurnOk && error == NeedReloadingError ==> o.s.src == s.srcDrive)
            && (error == JolietError ==> (o.r == BurnOk <==> First(s).result == BurnOk))
            && (o.r == BurnOk ==>
                  o.s.settings.rate == if error == SlowDmaError then SlowerRate(s.settings.rate) else s.settings.rate)
  {
    hide ReloadDest, ReloadSrc, SlowerRate;
    var next := {Append, Merge};
    assert forall f :: f in next && f in s.settings.flags ==> f in s.settings.flags * next;
  }

  /** What the recorder does: it writes the disc, or makes an image of it. */
  function Recording(w: World, s: St, temp: Option<Caps.TrackType>): Event {
    var simulated := Dummy in s.settings.flags;
    if temp.None? then Burnt(s.disc, BurnerLocked(w, s), simulated)
    else Imaged(s.disc, BurnerLocked(w, s), simulated)
  }

  /** rejilla_burn_run_recorder. */
  function RunRecorder(w: World, s: St, temp: Option<Caps.TrackType>): (o: Out)
    ensures Apart(w, s) ==> Apart(w, o.s)
    ensures |s.trace| <= |o.s.trace| && (o.r == BurnOk ==> Written(s, o.s, temp, Dummy in s.settings.flags))
    ensures Remembers(w, s) ==> Keeps(w, s, o.s)
    ensures |o.s.script| <= |s.script| && (o.r == Retry ==> |o.s.script| < |s.script|)
    ensures o.s == s.(script := o.s.script, locked := o.s.locked, stuck := o.s.stuck, lost := o.s.lost,
                      disc := o.s.disc, src := o.s.src, dest := o.s.dest, settings := o.s.settings, trace := o.s.trace)
    ensures o.s.settings.flags == s.settings.flags
    ensures Remembers(w, s) && BurnerLocked(w, s) && o.r in {BurnOk, Retry} ==> BurnerLocked(w, o.s)
    decreases |s.script|
  {
    hide MendRecorder, FreeDrives;
    var o := FreeDrives(s);
    if o.r != BurnOk then o
    else
      var a, s1 := TaskAnswer(o.s), Logged(Rest(o.s), Recording(w, s, temp));
      LoggingKeeps(w, Rest(o.s), Recording(w, s, temp));
      if a.result != BurnErr || a.error == NoError then Out(s1, a.result)
      else
        var m := MendRecorder(w, s1, a.error);
        if Remembers(w, s) then
          KeepsTwice(w, s, s1, m.s);
          if m.r != BurnOk then m
          else
            KeepsTwice(w, s, m.s, RunRecorder(w, m.s, temp).s);
            RunRecorder(w, m.s, temp)
        else if m.r != BurnOk then m else RunRecorder(w, m.s, temp)
  }

  // ----- the checks before the tasks -----

  function WithFlags(s: St, flags: BurnFlags): St {
    s.(settings := s.settings.(flags := flags))
  }

  function Push(s: St): St {
    s.(pile := [s.settings] + s.pile)
  }

  function Pop(s: St): St {
    if s.pile == [] then s else s.(settings := s.pile[0], pile := s.pile[1..])
  }

  /** What the engine is asked about; `temp` is the image to be made first, if any. */
  function SessionOf(w: World, s: St, temp: Option<Caps.TrackType>, input: Caps.TrackType): Session {
    Session(w.graph, w.rank, w.isDestFile || (temp.Some? && !temp.value.Disc?), input,
            if w.burner.Some? && s.srcDrive == w.burner then Some(w.copying) else None, w.media(s.disc), w.can(s.disc))
  }

  /** rejilla_burn_check_session_consistency: the flags are those the check of module Consistency leaves, with the
      compulsory ones added. */
  function CheckSessionConsistency(w: World, s: St, temp: Option<Caps.TrackType>): (o: Out)
    requires Fit(w)
    ensures o.s == s.(script := o.s.script, settings := s.settings.(flags := o.s.settings.flags))
    ensures |o.s.script| <= |s.script| && (o.r in {BurnOk, Retry} ==> |o.s.script| < |s.script|)
  {
    var input, s1 := First(s).input, Rest(s);
    if input.NoTrack? then Out(s1, BurnErr)
    else
      match CheckFlags(Asking(SessionOf(w, s, temp, input)), s.settings.flags)
      case Refused(r) => Out(WithFlags(s1, {}), r)
      case MergeImpossible(reached) => Out(WithFlags(s1, reached), BurnErr)
      case Corrected(kept, compulsory) => Out(Rest(WithFlags(s1, kept + compulsory)), First(s1).result)
  }

  /** Puts a warning to the user. */
  function Prompt(s: St, q: Question): (o: Out)
    ensures o.s == s.(script := o.s.script, trace := s.trace + [Asked(q, o.r)])
    ensures |o.s.script| <= |s.script| && (o.r != Cancel ==> |o.s.script| < |s.script|)
  {
    Out(Logged(Rest(s), Asked(q, First(s).result)), First(s).result)
  }

  /** The user chose to merge: the flags the session came with, and merging, are checked again. */
  function MergeInstead(w: World, s: St): (o: Out)
    requires Fit(w) && s.pile != []
    ensures o.s == s.(script := o.s.script, settings := o.s.settings)
    ensures |o.s.script| <= |s.script| && (o.r in {BurnOk, Retry} ==> |o.s.script| < |s.script|)
  {
    var s1 := Push(Pop(s));
    CheckSessionConsistency(w, WithFlags(s1, s1.settings.flags + {Merge}), None)
  }

  predicate OutputIsDisc(w: World) {
    w.burner.Some? && !w.isDestFile
  }

  predicate HasContent(media: Media) {
    MediumHasData in media || MediumHasAudio in media
  }

  predicate OnlyAudio(t: Caps.TrackType) {
    t.Stream? && t.stream * Caps.VIDEO_BITS == {}
  }

  /** `reload` if the user wants to put in another disc. */
  datatype Warned = Warned(s: St, r: BurnResult, reload: bool)

  /** Only answers were used up, questions put, and flags changed. */
  predicate OnlyTalked(s: St, t: St) {
    && t == s.(script := t.script, settings := t.settings, trace := t.trace)
    && |t.script| <= |s.script| && s.trace <= t.trace
    && forall k :: |s.trace| <= k < |t.trace| ==> t.trace[k].Asked?
  }

  /** What a disc with something on it asks for. */
  function WarnAboutContent(w: World, s: St, media: Media, flags: BurnFlags, input: Caps.TrackType): (r: Warned)
    requires Fit(w) && s.pile != []
    ensures OnlyTalked(s, r.s) && (r.reload ==> r.r == NeedReload) && (r.r == Retry ==> |r.s.script| < |s.script|)
  {
    if BlankBeforeWrite in flags then
      var o := Prompt(s, LoseData);
      Warned(o.s, o.r, o.r == NeedReload)
    else
      var audio := if MediumCd in media && OnlyAudio(input) then Prompt(s, AppendAudio) else Out(s, BurnOk);
      if audio.r != BurnOk then Warned(audio.s, audio.r, audio.r == NeedReload)
      else if MediumHasData in media && input.Data? && Merge !in flags then
        var o := Prompt(audio.s, LosePrevious);
        if o.r == Retry then
          var m := MergeInstead(w, o.s);
          Warned(m.s, m.r, false)
        else Warned(o.s, o.r, o.r == NeedReload)
      else Warned(audio.s, BurnOk, false)
  }

  /** What a rewritable disc asks for when only audio is to be put on it. */
  function WarnAboutRewritable(s: St, input: Caps.TrackType): (o: Out)
    ensures OnlyTalked(s, o.s) && o.s.settings == s.settings && (o.r == Retry ==> |o.s.script| < |s.script|)
  {
    if OnlyAudio(input) || (input.Disc? && MediumHasAudio in input.media) then Prompt(s, AudioOnRewritable)
    else Out(s, BurnOk)
  }

  /** All the warnings. */
  function WarnAboutLoss(w: World, s: St, media: Media, flags: BurnFlags): (r: Warned)
    requires Fit(w) && s.pile != []
    ensures OnlyTalked(s, r.s) && (r.reload ==> r.r == NeedReload) && (r.r == Retry ==> |r.s.script| < |s.script|)
  {
    var input, s1 := First(s).input, Rest(s);
    var content := if HasContent(media) then WarnAboutContent(w, s1, media, flags, input)
                   else Warned(s1, BurnOk, false);
    if content.r != BurnOk || MediumRewritable !in media then content
    else
      var o := WarnAboutRewritable(content.s, input);
      Warned(o.s, o.r, o.r == NeedReload)
  }

  lemma {:induction false} TalkingKeeps(w: World, s: St, t: St)
    requires OnlyTalked(s, t)
    ensures Keeps(w, s, t)
  {
  }

  /** rejilla_burn_check_data_loss. */
  function CheckDataLoss(w: World, s: St): (o: Out)
    requires Fit(w) && s.pile != []
    ensures Remembers(w, s) ==> Keeps(w, s, o.s)
    ensures |o.s.script| <= |s.script| && (o.r == Retry ==> |o.s.script| < |s.script|)
    ensures o.s == s.(script := o.s.script, locked := o.s.locked, stuck := o.s.stuck, lost := o.s.lost,
                      disc := o.s.disc, dest := o.s.dest, settings := o.s.settings, trace := o.s.trace)
    ensures o.r in {BurnOk, Retry} && BurnerLocked(w, s) ==> BurnerLocked(w, o.s)
  {
    if !OutputIsDisc(w) then Out(s, BurnOk)
    else
      var media := w.media(s.disc);
      var s1 := Logged(s, Checked(s.disc, media, s.settings.flags));
      LoggingKeeps(w, s, Checked(s.disc, media, s.settings.flags));
      var warned := WarnAboutLoss(w, s1, media, s.settings.flags);
      TalkingKeeps(w, s1, warned.s);
      KeepsTwice(w, s, s1, warned.s);
      if !warned.reload then Out(warned.s, warned.r)
      else
        var d := ReloadDest(w, warned.s);
        if Remembers(w, s) then
          KeepsTwice(w, s, warned.s, d.s); Out(d.s, if d.r == BurnOk then Retry else d.r)
        else Out(d.s, if d.r == BurnOk then Retry else d.r)
  }

  /** The question was put to the user. */
  predicate WasAsked(s: St, t: St, q: Question)
    requires |s.trace| <= |t.trace|
  {
    exists k :: |s.trace| <= k < |t.trace| && t.trace[k].Asked? && t.trace[k].question == q
  }

  /** Nothing asked so far stands against going on. */
  predicate AllAgreed(s: St, t: St)
    requires |s.trace| <= |t.trace|
  {
    forall k :: |s.trace| <= k < |t.trace| && t.trace[k].Asked? ==> t.trace[k].reply == BurnOk
  }

  /** When there is content: which of the three questions is put. */
  lemma {:induction false} ContentQuestions(w: World, s: St, media: Media, flags: BurnFlags, input: Caps.TrackType)
    requires Fit(w) && s.pile != []
    ensures var r := WarnAboutContent(w, s, media, flags, input);
            && (WasAsked(s, r.s, LoseData) <==> BlankBeforeWrite in flags)
            && (WasAsked(s, r.s, AppendAudio) <==>
                  BlankBeforeWrite !in flags && MediumCd in media && OnlyAudio(input))
            && (WasAsked(s, r.s, LosePrevious) <==>
                  BlankBeforeWrite !in flags && MediumHasData in media && input.Data? && Merge !in flags)
            && !WasAsked(s, r.s, AudioOnRewritable)
            && (AllAgreed(s, r.s) ==> r.r == BurnOk)
  {
    var r, n := WarnAboutContent(w, s, media, flags, input), |s.trace|;
    if |r.s.trace| > n {
      var first := r.s.trace[n];
      assert WasAsked(s, r.s, first.question);
    }
  }

  /** What does not put a question changes nothing about what was asked since. */
  lemma {:induction false} AskedBehind(s: St, s1: St, t: St, e: Event, q: Question)
    requires s1.trace == s.trace + [e] && !e.Asked? && s1.trace <= t.trace
    ensures WasAsked(s, t, q) <==> WasAsked(s1, t, q)
    ensures AllAgreed(s, t) ==> AllAgreed(s1, t)
  {
    assert t.trace[|s.trace|] == e;
  }

  lemma {:induction false} OneMoreAsked(s: St, t: St, u: St, last: Question, reply: BurnResult, q: Question)
    requires s.trace <= t.trace && u.trace == t.trace + [Asked(last, reply)]
    ensures WasAsked(s, u, q) <==> WasAsked(s, t, q) || q == last
    ensures AllAgreed(s, u) ==> AllAgreed(s, t)
  {
    assert u.trace[|t.trace|].question == last;
    assert forall k :: 0 <= k < |t.trace| ==> u.trace[k] == t.trace[k];
  }

  /** The warnings about content come first, and then, unless they end the check, the one about rewritable discs. */
  lemma {:induction false} LossQuestions(w: World, s: St, media: Media, flags: BurnFlags, q: Question)
    requires Fit(w) && s.pile != []
    ensures var r, input := WarnAboutLoss(w, s, media, flags), First(s).input;
            var content := if HasContent(media) then WarnAboutContent(w, Rest(s), media, flags, input)
                           else Warned(Rest(s), BurnOk, false);
            && (WasAsked(s, r.s, q) <==>
                  || WasAsked(s, content.s, q)
                  || (q == AudioOnRewritable && content.r == BurnOk && MediumRewritable in media && PutsAudio(input)))
            && (AllAgreed(s, r.s) ==> AllAgreed(s, content.s))
  {
    hide WarnAboutContent, WasAsked, AllAgreed, HasContent;
    var r, input := WarnAboutLoss(w, s, media, flags), First(s).input;
    var content := if HasContent(media) then WarnAboutContent(w, Rest(s), media, flags, input)
                   else Warned(Rest(s), BurnOk, false);
    if content.r == BurnOk && MediumRewritable in media && PutsAudio(input) {
      OneMoreAsked(s, content.s, r.s, AudioOnRewritable, First(content.s).result, q);
    }
  }

  lemma {:induction false} CheckQuestions(w: World, s: St, q: Question)
    requires Fit(w) && s.pile != [] && OutputIsDisc(w)
    ensures var media, flags := w.media(s.disc), s.settings.flags;
            var s1 := Logged(s, Checked(s.disc, media, flags));
            var t, r := CheckDataLoss(w, s).s, WarnAboutLoss(w, s1, media, flags).s;
            (WasAsked(s, t, q) <==> WasAsked(s1, r, q)) && (AllAgreed(s, t) ==> AllAgreed(s1, r))
  {
    hide WarnAboutLoss, ReloadDest, Keeps, WasAsked, AllAgreed;
    var media, flags := w.media(s.disc), s.settings.flags;
    var e := Checked(s.disc, media, flags);
    AskedBehind(s, Logged(s, e), CheckDataLoss(w, s).s, e, q);
    SameTraceAsked(Logged(s, e), CheckDataLoss(w, s).s, WarnAboutLoss(w, Logged(s, e), media, flags).s, q);
  }

  lemma {:induction false} SameTraceAsked(s: St, t: St, u: St, q: Question)
    requires s.trace <= t.trace && t.trace == u.trace
    ensures WasAsked(s, t, q) <==> WasAsked(s, u, q)
    ensures AllAgreed(s, t) <==> AllAgreed(s, u)
  {
  }

  /** The check before a disc is written puts each question exactly where it has reason to: before data is blanked away,
      before audio is added to a CD with something on it, before data hides an earlier session it is not merged with;
      and before audio goes on a rewritable disc, unless an earlier answer ended the check. */
  lemma {:induction false} QuestionsAsked(w: World, s: St)
    requires Fit(w) && s.pile != [] && OutputIsDisc(w)
    ensures var t, media, flags, input := CheckDataLoss(w, s).s, w.media(s.disc), s.settings.flags, First(s).input;
            && (WasAsked(s, t, LoseData) <==> HasContent(media) && BlankBeforeWrite in flags)
            && (WasAsked(s, t, AppendAudio) <==>
                  && HasContent(media) && BlankBeforeWrite !in flags && MediumCd in media && OnlyAudio(input))
            && (WasAsked(s, t, LosePrevious) <==>
                  && HasContent(media) && BlankBeforeWrite !in flags && MediumHasData in media && input.Data?
                  && Merge !in flags)
            && (WasAsked(s, t, AudioOnRewritable) ==> MediumRewritable in media && PutsAudio(input))
            && (MediumRewritable in media && PutsAudio(input) && AllAgreed(s, t) ==>
                  WasAsked(s, t, AudioOnRewritable))
  {
    hide WarnAboutLoss, WarnAboutContent, CheckDataLoss, HasContent;
    var media, flags, input := w.media(s.disc), s.settings.flags, First(s).input;
    var s1 := Logged(s, Checked(s.disc, media, flags));
    CheckQuestions(w, s, LoseData);
    LossQuestions(w, s1, media, flags, LoseData);
    CheckQuestions(w, s, AppendAudio);
    LossQuestions(w, s1, media, flags, AppendAudio);
    CheckQuestions(w, s, LosePrevious);
    LossQuestions(w, s1, media, flags, LosePrevious);
    CheckQuestions(w, s, AudioOnRewritable);
    LossQuestions(w, s1, media, flags, AudioOnRewritable);
    ContentQuestions(w, Rest(s1), media, flags, input);
  }

  predicate PutsAudio(input: Caps.TrackType) {
    OnlyAudio(input) || (input.Disc? && MediumHasAudio in input.media)
  }

  // ----- the tasks -----

  function OutputOf(w: World, s: St, temp: Option<Caps.TrackType>): Caps.TrackType {
    if temp.Some? then temp.value
    else if w.isDestFile then w.imageOutput
    else if w.burner.Some? then Caps.Disc(w.media(s.disc))
    else Caps.NoTrack
  }

  /** What new_task is asked for. */
  function RequestOf(w: World, s: St, temp: Option<Caps.TrackType>, input: Caps.TrackType): Planning.Request {
    Planning.Request(w.group, s.settings.flags, input, OutputOf(w, s, temp),
                     !OutputIsDisc(w) || DriveTakes(w.media(s.disc), w.can(s.disc), s.settings.flags),
                     CanBlank(w.graph, true, w.media(s.disc), s.settings.flags), w.eraser(s.disc))
  }

  /** What is planned is what the flags were checked for: the same medium or an image, in a drive that takes the flags
      exactly where the check was not refused outright; an image that is kept is of the kind the session names. */
  lemma {:induction false} PlannedAsChecked(w: World, s: St, temp: Option<Caps.TrackType>, input: Caps.TrackType)
    requires Fit(w) && w.burner.Some? && (w.isDestFile ==> temp.None?) && (temp.Some? ==> !temp.value.Disc?)
    ensures var q, r := SessionOf(w, s, temp, input), RequestOf(w, s, temp, input);
            && r.input == q.input && r.flags == s.settings.flags && (q.toImage <==> !r.output.Disc?)
            && (!q.toImage ==> r.output.media == q.media)
            && (w.isDestFile ==> r.output == w.imageOutput && r.driveOk) && (temp.Some? ==> r.output == temp.value)
            && (!q.toImage && q.copying.None? ==>
                  (r.driveOk <==> AskFlags(q, s.settings.flags).result != BurnErr))
  {
    hide ForMedium, ForDrive, CanBlank;
    var q := SessionOf(w, s, temp, input);
    if !q.toImage && q.copying.None? {
      DriveRefusesIff(q, s.settings.flags);
    }
  }

  /** What new_task can have planned. */
  ghost predicate LegalPlan(w: World, s: St, temp: Option<Caps.TrackType>, input: Caps.TrackType,
                            actions: seq<Planning.TaskAction>)
    requires Fit(w)
  {
    exists tasks, p :: Planning.Fulfils(w.graph, RequestOf(w, s, temp, input), tasks, p) && Does(tasks, actions)
  }

  /** These tasks do these things. */
  predicate Does(tasks: seq<Planning.Task>, actions: seq<Planning.TaskAction>) {
    |tasks| == |actions| && forall k :: 0 <= k < |tasks| ==> tasks[k].action == actions[k]
  }

  /** Erasing comes last but one, and only where blanking is wanted and the output is a disc. */
  predicate ErasesOnce(w: World, s: St, temp: Option<Caps.TrackType>, actions: seq<Planning.TaskAction>) {
    forall k :: 0 <= k < |actions| && actions[k] == Planning.ActionErase ==>
      k == |actions| - 2 && BlankBeforeWrite in s.settings.flags && OutputIsDisc(w) && temp.None?
  }

  lemma {:induction false} LegalErase(w: World, s: St, temp: Option<Caps.TrackType>, input: Caps.TrackType,
                                      actions: seq<Planning.TaskAction>)
    requires Fit(w) && LegalPlan(w, s, temp, input, actions) && IsNoDisc(temp)
    ensures ErasesOnce(w, s, temp, actions)
  {
    var tasks: seq<Planning.Task>, p :| Planning.Fulfils(w.graph, RequestOf(w, s, temp, input), tasks, p)
      && Does(tasks, actions);
    forall k | 0 <= k < |actions| && actions[k] == Planning.ActionErase
      ensures k == |actions| - 2 && BlankBeforeWrite in s.settings.flags && OutputIsDisc(w) && temp.None?
    {
      assert tasks[k].action == Planning.ActionErase;
      assert Planning.HasErase(tasks);
    }
  }

  ghost function PlanNow(w: World, s: St, temp: Option<Caps.TrackType>,
                         plan: Plans): (actions: seq<Planning.TaskAction>)
    requires Fit(w)
    ensures IsNoDisc(temp) ==> ErasesOnce(w, s, temp, actions)
  {
    if LegalPlan(w, s, temp, First(s).input, plan(s.planned)) then
      if temp.Some? && temp.value.Disc? then plan(s.planned)
      else
        LegalErase(w, s, temp, First(s).input, plan(s.planned));
        plan(s.planned)
    else []
  }

  /** How a turn of the loop over the tasks ends. `quit` if the burn must end at once, `over` if no further task is
      to run. */
  datatype Turn = Turn(s: St, r: BurnResult, over: bool, quit: bool, dummy: bool)

  /** Erasing in the middle of a burn. */
  function EraseStep(w: World, s: St, temp: Option<Caps.TrackType>, eraseAllowed: bool): (t: Turn)
    requires Fit(w) && s.pile != []
    ensures |s.trace| <= |t.s.trace|
    ensures Remembers(w, s) ==> Keeps(w, s, t.s)
    ensures |t.s.script| <= |s.script| && (t.r == Retry ==> |t.s.script| < |s.script|)
    ensures t.s == s.(script := t.s.script, locked := t.s.locked, stuck := t.s.stuck, lost := t.s.lost,
                      disc := t.s.disc, dest := t.s.dest, settings := t.s.settings, trace := t.s.trace)
    ensures t.r in {BurnOk, Retry} && BurnerLocked(w, s) ==> BurnerLocked(w, t.s)
    ensures (t.over <==> t.r != BurnOk) && (t.quit ==> t.r == Cancel)
  {
    var s1 := Rest(s);
    if First(s).yes then
      var o := ReloadDest(w, s1);
      Turn(o.s, if o.r == BurnOk then Retry else o.r, true, false, false)
    else if !eraseAllowed then Turn(s1, BurnOk, false, false, false)
    else
      var o := RunEraser(s1);
      var e := Erased(s.disc, BurnerLocked(w, s), o.r);
      LoggingKeeps(w, o.s, e);
      AfterErasing(w, Logged(o.s, e), o.r, temp)
  }

  /** What follows the eraser's answer. */
  function AfterErasing(w: World, s: St, answer: BurnResult, temp: Option<Caps.TrackType>): (t: Turn)
    requires Fit(w) && s.pile != [] && answer != Retry
    ensures Remembers(w, s) ==> Keeps(w, s, t.s)
    ensures |t.s.script| <= |s.script| && (t.r == Retry ==> |t.s.script| < |s.script|)
    ensures t.s == s.(script := t.s.script, locked := t.s.locked, stuck := t.s.stuck, lost := t.s.lost,
                      disc := t.s.disc, dest := t.s.dest, settings := t.s.settings) && t.s.trace == s.trace
    ensures t.r in {BurnOk, Retry} && BurnerLocked(w, s) ==> BurnerLocked(w, t.s)
    ensures (t.over <==> t.r != BurnOk) && (t.quit <==> answer == Cancel) && (t.quit ==> t.r == Cancel && t.s == s)
  {
    if answer == Cancel then Turn(s, Cancel, true, true, false)
    else if answer != BurnOk then
      if First(s).result != BurnOk then Turn(Rest(s), answer, true, false, false)
      else
        var o := ReloadDest(w, Rest(s));
        Turn(o.s, if o.r == BurnOk then Retry else answer, true, false, false)
    else
      var o := CheckSessionConsistency(w, Push(Pop(s)), temp);
      Turn(o.s, o.r, o.r != BurnOk, false, false)
  }

  /** The burn goes on only behind an eraser that succeeded, with the flags the burn was started with checked again for
      the disc that is in the burner now; it begins anew only behind one that failed, with another disc. */
  lemma {:induction false} AfterEraser(w: World, s: St, answer: BurnResult, temp: Option<Caps.TrackType>)
    requires Fit(w) && s.pile != [] && answer != Retry
    ensures var t := AfterErasing(w, s, answer, temp);
            && (t.r == BurnOk ==> answer == BurnOk && t.s.pile == s.pile && t.s.settings.rate == s.pile[0].rate)
            && (answer == BurnOk && !First(s).input.NoTrack? ==>
                  match CheckFlags(Asking(SessionOf(w, s, temp, First(s).input)), s.pile[0].flags)
                  case Corrected(kept, compulsory) => t.s.settings.flags == kept + compulsory
                  case Refused(r) => t.r == r && t.s.settings.flags == {}
                  case MergeImpossible(_) => t.r == BurnErr)
            && (answer !in {BurnOk, Cancel} && t.r == Retry ==> First(s).result == BurnOk && BurnerLocked(w, t.s))
            && (answer !in {BurnOk, Cancel} && t.r != Retry ==> t.r == answer)
            && (answer !in {BurnOk, Cancel} && First(s).result == BurnOk && ReloadDest(w, Rest(s)).r == BurnOk ==>
                  t.r == Retry)
  {
    hide CheckFlags, Asking, ReloadDest;
  }

  /** The last task: the recording itself, or the writing of an image. */
  function LastTask(w: World, s: St, temp: Option<Caps.TrackType>): (t: Turn)
    ensures Apart(w, s) ==> Apart(w, t.s)
    ensures |s.trace| <= |t.s.trace| && (t.r == BurnOk && !w.isDestFile ==> Written(s, t.s, temp, t.dummy))
    ensures Remembers(w, s) ==> Keeps(w, s, t.s)
    ensures |t.s.script| <= |s.script| && (t.r == Retry ==> |t.s.script| < |s.script|)
    ensures t.s == s.(script := t.s.script, locked := t.s.locked, stuck := t.s.stuck, lost := t.s.lost,
                      disc := t.s.disc, srcDrive := t.s.srcDrive, src := t.s.src, dest := t.s.dest,
                      settings := t.s.settings, trace := t.s.trace)
    ensures t.s.srcDrive == s.srcDrive || t.s.srcDrive.None?
    ensures Remembers(w, s) && BurnerLocked(w, s) && t.r in {BurnOk, Retry} ==> BurnerLocked(w, t.s)
    ensures t.over && !t.quit
  {
    hide RunImager, RunRecorder;
    if w.isDestFile then
      var o := RunImager(w, s);
      if o.r != BurnOk then Turn(o.s, o.r, true, false, false)
      else
        HandBackKeeps(w, o.s, HandBack(o.s));
        KeepsTwice(w, s, o.s, HandBack(o.s));
        Turn(HandBack(o.s), BurnOk, true, false, false)
    else
      var o, dummy := RunRecorder(w, s, temp), Dummy in s.settings.flags;
      if o.r != BurnOk || temp.None? then Turn(o.s, o.r, true, false, dummy)
      else
        var s1 := HandBack(o.s);
        HandBackKeeps(w, o.s, s1);
        if Remembers(w, s) then KeepsTwice(w, s, o.s, s1); Turn(s1, BurnOk, true, false, dummy)
        else Turn(s1, BurnOk, true, false, dummy)
  }

  /** One turn of the loop over the tasks: first in fake mode, to learn the size, then for real. */
  function RunOne(w: World, s: St, actions: seq<Planning.TaskAction>, i: nat, temp: Option<Caps.TrackType>,
                  eraseAllowed: bool): (t: Turn)
    requires Fit(w) && s.pile != [] && i < |actions|
    ensures Apart(w, s) ==> Apart(w, t.s)
    ensures |s.trace| <= |t.s.trace| && (t.over && t.r == BurnOk && !w.isDestFile ==> Written(s, t.s, temp, t.dummy))
    ensures i + 1 == |actions| && actions[i] != Planning.ActionErase ==> t.over
    ensures Remembers(w, s) ==> Keeps(w, s, t.s)
    ensures |t.s.script| <= |s.script| && (t.r == Retry ==> |t.s.script| < |s.script|)
    ensures t.s == s.(script := t.s.script, locked := t.s.locked, stuck := t.s.stuck, lost := t.s.lost,
                      disc := t.s.disc, srcDrive := t.s.srcDrive, src := t.s.src, dest := t.s.dest,
                      settings := t.s.settings, trace := t.s.trace)
    ensures t.s.srcDrive == s.srcDrive || t.s.srcDrive.None?
    ensures Remembers(w, s) && BurnerLocked(w, s) && t.r in {BurnOk, Retry} ==> BurnerLocked(w, t.s)
    ensures (!t.over ==> t.r == BurnOk && !t.dummy) && (t.quit ==> t.over && t.r == Cancel)
  {
    hide RunImager, LastTask, EraseStep;
    if actions[i] == Planning.ActionErase then EraseStep(w, s, temp, eraseAllowed)
    else
      var fake := RunImager(w, s);
      if fake.r != BurnOk then Turn(fake.s, fake.r, true, false, false)
      else if i + 1 == |actions| then
        var t := LastTask(w, fake.s, temp);
        if Remembers(w, s) then KeepsTwice(w, s, fake.s, t.s); t else t
      else
        var done := RunImager(w, fake.s);
        KeepsTwice(w, s, fake.s, done.s);
        if done.r != BurnOk then Turn(done.s, done.r, true, false, false)
        else
          HandBackKeeps(w, done.s, HandBack(done.s));
          KeepsTwice(w, s, done.s, HandBack(done.s));
          Turn(HandBack(done.s), BurnOk, false, false, false)
  }

  /** How a run over tasks, and a burn, ends. */
  datatype Done = Done(s: St, r: BurnResult, dummy: bool, quit: bool)

  /** A run that went well has written a disc, or made the image that is to be made first; `dummy` tells whether that
      was only simulated. */
  predicate Wrote(w: World, s: St, temp: Option<Caps.TrackType>, d: Done) {
    d.r == BurnOk && !w.isDestFile ==> Written(s, d.s, temp, d.dummy)
  }

  predicate IsNoDisc(temp: Option<Caps.TrackType>) {
    temp.Some? ==> !temp.value.Disc?
  }

  /** The loop over the tasks from the i-th on. */
  function RunAll(w: World, s: St, actions: seq<Planning.TaskAction>, i: nat, temp: Option<Caps.TrackType>,
                  eraseAllowed: bool): (d: Done)
    requires Fit(w) && s.pile != [] && i < |actions|
    ensures Apart(w, s) ==> Apart(w, d.s)
    ensures |s.trace| <= |d.s.trace|
    ensures actions[|actions| - 1] != Planning.ActionErase ==> Wrote(w, s, temp, d)
    ensures Remembers(w, s) ==> Keeps(w, s, d.s)
    ensures |d.s.script| <= |s.script| && (d.r == Retry ==> |d.s.script| < |s.script|)
    ensures d.s == s.(script := d.s.script, locked := d.s.locked, stuck := d.s.stuck, lost := d.s.lost,
                      disc := d.s.disc, srcDrive := d.s.srcDrive, src := d.s.src, dest := d.s.dest,
                      settings := d.s.settings, trace := d.s.trace)
    ensures d.s.srcDrive == s.srcDrive || d.s.srcDrive.None?
    ensures Remembers(w, s) && BurnerLocked(w, s) && d.r in {BurnOk, Retry} ==> BurnerLocked(w, d.s)
    ensures d.quit ==> d.r == Cancel
    decreases |actions| - i
  {
    var t := RunOne(w, s, actions, i, temp, eraseAllowed);
    if t.over || i + 1 == |actions| then Done(t.s, t.r, t.dummy, t.quit)
    else
      var d := RunAll(w, t.s, actions, i + 1, temp, eraseAllowed);
      if Remembers(w, s) then KeepsTwice(w, s, t.s, d.s); d else d
  }

  lemma {:induction false} KeepsSelf(w: World, s: St)
    ensures Keeps(w, s, s)
  {
  }

  lemma {:induction false} SettingsKeep(w: World, s: St, t: St)
    requires t == s.(settings := t.settings, pile := t.pile, script := t.script, planned := t.planned)
    requires |t.script| <= |s.script|
    ensures Keeps(w, s, t)
  {
  }

  /** The two checks before the tasks are planned. */
  function CheckBefore(w: World, s: St, temp: Option<Caps.TrackType>): (o: Out)
    requires Fit(w) && s.pile != []
    ensures |s.trace| <= |o.s.trace|
    ensures Remembers(w, s) ==> Keeps(w, s, o.s)
    ensures |o.s.script| <= |s.script| && (o.r == Retry ==> |o.s.script| < |s.script|)
    ensures o.s == s.(script := o.s.script, locked := o.s.locked, stuck := o.s.stuck, lost := o.s.lost,
                      disc := o.s.disc, dest := o.s.dest, settings := o.s.settings, trace := o.s.trace)
    ensures o.r in {BurnOk, Retry} && BurnerLocked(w, s) ==> BurnerLocked(w, o.s)
  {
    var c := CheckSessionConsistency(w, s, temp);
    if c.r != BurnOk then c
    else
      var o := CheckDataLoss(w, c.s);
      if Remembers(w, s) then
        SettingsKeep(w, s, c.s);
        KeepsTwice(w, s, c.s, o.s); o
      else o
  }

  /** Taking the settings back after what left the pile as it was. */
  lemma {:induction false} Returned(w: World, s: St, t: St)
    requires s.pile != [] && t.pile == s.pile && (Remembers(w, s) ==> Keeps(w, s, t))
    ensures var u := Pop(t);
            && u == t.(settings := s.pile[0], pile := s.pile[1..])
            && (Remembers(w, s) ==> Keeps(w, s, u)) && (BurnerLocked(w, t) ==> BurnerLocked(w, u))
            && (Apart(w, t) ==> Apart(w, u))
  {
    SettingsKeep(w, t, Pop(t));
    KeepsThrice(w, s, s, t, Pop(t));
  }

  lemma {:induction false} StillWrote(w: World, s: St, temp: Option<Caps.TrackType>, d: Done, u: St)
    requires u.trace == d.s.trace
    ensures Wrote(w, s, temp, d) <==> Wrote(w, s, temp, d.(s := u))
    ensures d.r == NotSupported ==> Wrote(w, s, temp, d)
  {
  }

  /** Runs the tasks planned, if there are any, and takes the settings back; not if the eraser was cancelled. */
  function RunPlanned(w: World, s: St, actions: seq<Planning.TaskAction>, temp: Option<Caps.TrackType>,
                      eraseAllowed: bool): (d: Done)
    requires Fit(w) && s.pile != []
    ensures |s.trace| <= |d.s.trace|
    ensures actions != [] ==> actions[|actions| - 1] != Planning.ActionErase ==> Wrote(w, s, temp, d)
    ensures Apart(w, s) ==> Apart(w, d.s)
    ensures Remembers(w, s) ==> Keeps(w, s, d.s)
    ensures |d.s.script| <= |s.script| && (d.r == Retry ==> |d.s.script| < |s.script|)
    ensures d.s.srcDrive == s.srcDrive || d.s.srcDrive.None?
    ensures Remembers(w, s) && BurnerLocked(w, s) && d.r in {BurnOk, Retry} ==> BurnerLocked(w, d.s)
    ensures if d.quit then d.r == Cancel && d.s.pile == s.pile
            else d.s.settings == s.pile[0] && d.s.pile == s.pile[1..]
    ensures actions == [] ==> d.r == NotSupported && d.s.trace == s.trace
  {
    hide RunAll, Keeps, Pop, Wrote;
    if actions == [] then
      KeepsSelf(w, s);
      Returned(w, s, s);
      Done(Pop(s), NotSupported, false, false)
    else
      var d := RunAll(w, s, actions, 0, temp, eraseAllowed);
      if d.quit then d
      else
        Returned(w, s, d.s);
        StillWrote(w, s, temp, d, Pop(d.s));
        d.(s := Pop(d.s))
  }

  /** rejilla_burn_run_tasks. */
  ghost function RunTasks(w: World, s: St, eraseAllowed: bool, temp: Option<Caps.TrackType>, plan: Plans): (d: Done)
    requires Fit(w)
    ensures |s.trace| <= |d.s.trace| && (IsNoDisc(temp) ==> Wrote(w, s, temp, d))
    ensures Apart(w, s) ==> Apart(w, d.s)
    ensures Remembers(w, s) ==> Keeps(w, s, d.s)
    ensures |d.s.script| <= |s.script| && (d.r == Retry ==> |d.s.script| < |s.script|)
    ensures d.s.srcDrive == s.srcDrive || d.s.srcDrive.None?
    ensures Remembers(w, s) && BurnerLocked(w, s) && d.r in {BurnOk, Retry} ==> BurnerLocked(w, d.s)
    ensures if d.quit then d.r == Cancel && d.s.pile == [s.settings] + s.pile
            else d.s.settings == s.settings && d.s.pile == s.pile
  {
    var before := CheckBefore(w, Push(s), temp);
    SettingsKeep(w, s, Push(s));
    if before.r != BurnOk then
      SettingsKeep(w, before.s, Pop(before.s));
      KeepsThrice(w, s, Push(s), before.s, Pop(before.s));
      Done(Pop(before.s), before.r, false, false)
    else
      var s1 := Planned(before.s);
      SettingsKeep(w, before.s, s1);
      KeepsThrice(w, s, Push(s), before.s, s1);
      var d := RunPlanned(w, s1, PlanNow(w, before.s, temp, plan), temp, eraseAllowed);
      KeepsThrice(w, s, s, s1, d.s);
      d
  }

  /** Once the tasks are planned. */
  function Planned(s: St): St {
    Rest(s).(planned := s.planned + 1)
  }

  lemma {:induction false} KeepsThrice(w: World, s: St, t: St, u: St, v: St)
    ensures (Remembers(w, s) ==> Keeps(w, s, t)) && (Remembers(w, t) ==> Keeps(w, t, u))
            && (Remembers(w, u) ==> Keeps(w, u, v))
            ==> (Remembers(w, s) ==> Keeps(w, s, v))
  {
    if Remembers(w, s) && Keeps(w, s, t) && Keeps(w, t, u) && Keeps(w, u, v) {
      KeepsTwice(w, s, t, u);
      KeepsTwice(w, s, u, v);
    }
  }

  // ----- recording -----

  /** Compares the disc with the checksum of the session, if there is one. */
  function CheckRecorded(s: St): (o: Out)
    ensures OnlyAsked(s, o.s)
  {
    if !First(s).yes then Out(Rest(s), BurnOk)
    else
      var o := WaitWhileBusy(Rest(s));
      if o.r != BurnOk then o
      else Out(Rest(o.s), if TaskAnswer(o.s).result == Cancel then BurnOk else TaskAnswer(o.s).result)
  }

  /** A disc that is not what the checksum says fails the burn; giving the comparison up does not. */
  lemma {:induction false} CheckMeans(s: St)
    ensures var o := WaitWhileBusy(Rest(s));
            && (!First(s).yes ==> CheckRecorded(s).r == BurnOk)
            && (First(s).yes && o.r == BurnOk ==>
                  && CheckRecorded(s).r != Cancel
                  && (CheckRecorded(s).r == BurnOk <==> First(o.s).result in {BurnOk, Cancel}))
            && (First(s).yes && o.r != BurnOk ==> CheckRecorded(s) == o)
  {
    hide WaitWhileBusy;
  }

  /** Runs the tasks again as long as that is asked for. */
  ghost function RunTasksPatiently(w: World, s: St, eraseAllowed: bool, temp: Option<Caps.TrackType>,
                                   plan: Plans): (d: Done)
    requires Fit(w)
    ensures |s.trace| <= |d.s.trace| && (IsNoDisc(temp) ==> Wrote(w, s, temp, d))
    ensures Apart(w, s) ==> Apart(w, d.s)
    ensures (Remembers(w, s) ==> Keeps(w, s, d.s)) && |d.s.script| <= |s.script| && d.r != Retry
    ensures d.s.srcDrive == s.srcDrive || d.s.srcDrive.None?
    ensures if d.quit then d.r == Cancel && d.s.pile == [s.settings] + s.pile
            else d.s.settings == s.settings && d.s.pile == s.pile
    decreases |s.script|
  {
    hide RunTasks;
    var d := RunTasks(w, s, eraseAllowed, temp, plan);
    if d.r != Retry then d
    else
      var more := RunTasksPatiently(w, d.s, eraseAllowed, temp, plan);
      KeepsThrice(w, s, s, d.s, more.s);
      more
  }

  /** It ends like a run that does not ask for another one, made from the same settings. */
  lemma {:induction false} EndsLikeTheLast(w: World, s: St, eraseAllowed: bool, temp: Option<Caps.TrackType>,
                                           plan: Plans) returns (t: St)
    requires Fit(w)
    ensures t.settings == s.settings && t.pile == s.pile
    ensures RunTasks(w, t, eraseAllowed, temp, plan).r != Retry
    ensures RunTasksPatiently(w, s, eraseAllowed, temp, plan) == RunTasks(w, t, eraseAllowed, temp, plan)
    decreases |s.script|
  {
    hide RunTasks;
    t := s;
    var d := RunTasks(w, s, eraseAllowed, temp, plan);
    if d.r == Retry {
      t := EndsLikeTheLast(w, d.s, eraseAllowed, temp, plan);
    }
  }

  /** rejilla_burn_record_session. */
  ghost function RecordSession(w: World, s: St, eraseAllowed: bool, temp: Option<Caps.TrackType>,
                               plan: Plans): (d: Done)
    requires Fit(w)
    ensures d.quit ==> d.r == Cancel
    ensures |s.trace| <= |d.s.trace|
    ensures (Remembers(w, s) ==> Keeps(w, s, d.s)) && |d.s.script| <= |s.script|
    ensures d.s.srcDrive == s.srcDrive || d.s.srcDrive.None?
    decreases |s.script|, 1
  {
    hide RunTasksPatiently;
    var d := RunTasksPatiently(w, s, eraseAllowed, temp, plan);
    if d.r != BurnOk || w.isDestFile then d
    else
      var end := AfterTasks(w, d.s, d.dummy, temp, plan);
      KeepsThrice(w, s, s, d.s, end.s);
      end
  }

  /** What follows the tasks. After a simulation the user is asked, and then it is done for real, without erasing
      again. */
  ghost function AfterTasks(w: World, s: St, dummy: bool, temp: Option<Caps.TrackType>, plan: Plans): (d: Done)
    requires Fit(w)
    ensures d.quit ==> d.r == Cancel
    ensures |s.trace| <= |d.s.trace|
    ensures (Remembers(w, s) ==> Keeps(w, s, d.s)) && |d.s.script| <= |s.script|
    ensures d.s.srcDrive == s.srcDrive || d.s.srcDrive.None?
    decreases |s.script|, 0
  {
    if !dummy then
      var o := CheckRecorded(s);
      SettingsKeep(w, s, o.s);
      Done(o.s, o.r, false, false)
    else
      var s1 := Rest(s);
      SettingsKeep(w, s, s1);
      if First(s).result != BurnOk then Done(s1, First(s).result, false, false)
      else
        var d := RecordSession(w, Simulating(s1, false), false, temp, plan);
        SettingsKeep(w, s, Simulating(s1, false));
        SettingsKeep(w, d.s, Simulating(d.s, true));
        KeepsThrice(w, s, Simulating(s1, false), d.s, Simulating(d.s, true));
        d.(s := Simulating(d.s, true))
  }

  function Simulating(s: St, dummy: bool): (t: St)
    ensures t == s.(settings := t.settings)
  {
    WithFlags(s, if dummy then s.settings.flags + {Dummy} else s.settings.flags - {Dummy})
  }

  /** rejilla_burn_same_src_dest_image: makes an image of the disc first. */
  ghost function SameSrcDestImage(w: World, s: St, plan: Plans): (d: Done)
    requires Fit(w)
    ensures d.quit ==> d.r == Cancel
    ensures Remembers(w, s) ==> Keeps(w, s, d.s)
    ensures d.s.srcDrive == s.srcDrive || d.s.srcDrive.None?
  {
    hide RecordSession;
    var format, s1 := First(s), Rest(s);
    SettingsKeep(w, s, s1);
    if format.result != BurnOk then Done(s1, format.result, false, false)
    else if format.input.Disc? then Done(s1, BurnErr, false, false)
    else
      var lock := LockSrc(w, s1);
      KeepsThrice(w, s, s, s1, lock.s);
      if lock.r != BurnOk then Done(lock.s, lock.r, false, false)
      else
        var d := RecordSession(w, lock.s, true, Some(format.input), plan);
        KeepsThrice(w, s, lock.s, lock.s, d.s);
        if d.r != BurnOk then d
        else
          var o := if d.s.src.Some? then EjectDrive(w, d.s, d.s.src.value) else Out(d.s, BurnOk);
          KeepsThrice(w, s, d.s, d.s, o.s);
          if o.r != BurnOk then Done(o.s, o.r, false, false)
          else
            KeepsThrice(w, s, o.s, o.s, UnlockSrc(w, o.s));
            Done(UnlockSrc(w, o.s), BurnOk, false, false)
  }

  /** rejilla_burn_same_src_dest_reload_medium. */
  function SameSrcDestReload(w: World, s: St): (o: Out)
    ensures (Remembers(w, s) ==> Keeps(w, s, o.s)) && OnlyLocks(s.(dest := o.s.dest), o.s) && |o.s.script| <= |s.script|
    ensures o.r in {BurnOk, BurnErr, Cancel} && (o.r == BurnOk ==> BurnerLocked(w, o.s))
    decreases |s.script|
  {
    var asked := AskForDestMedia(w, s);
    if asked.r != BurnOk then asked
    else
      var o := LockDest(w, asked.s);
      KeepsThrice(w, s, s, asked.s, o.s);
      if o.r == Cancel || o.r == BurnOk then o
      else
        KeepsThrice(w, s, o.s, o.s, SameSrcDestReload(w, o.s).s);
        SameSrcDestReload(w, o.s)
  }

  /** Locks the burner, asking for other discs until one will do. */
  function LockDestPatiently(w: World, s: St): (o: Out)
    ensures (Remembers(w, s) ==> Keeps(w, s, o.s)) && OnlyLocks(s.(dest := o.s.dest), o.s) && |o.s.script| <= |s.script|
    ensures o.r == BurnOk ==> BurnerLocked(w, o.s)
    decreases |s.script|
  {
    var o := LockDest(w, s);
    if o.r != NeedReload then o
    else
      var asked := AskForDestMedia(w, o.s);
      KeepsThrice(w, s, s, o.s, asked.s);
      if asked.r != BurnOk then asked
      else
        KeepsThrice(w, s, asked.s, asked.s, LockDestPatiently(w, asked.s).s);
        LockDestPatiently(w, asked.s)
  }

  /** The drives that must be locked before a session is recorded. */
  ghost function Prepare(w: World, s: St, plan: Plans): (d: Done)
    requires Fit(w)
    ensures d.quit ==> d.r == Cancel
    ensures Remembers(w, s) ==> Keeps(w, s, d.s)
  {
    if w.burner.Some? && s.srcDrive == w.burner then
      var image := SameSrcDestImage(w, s, plan);
      if image.r != BurnOk then image
      else
        var o := SameSrcDestReload(w, image.s);
        KeepsThrice(w, s, s, image.s, o.s);
        Done(o.s, o.r, false, false)
    else if w.isDestFile then Done(s, BurnOk, false, false)
    else
      var o := LockDestPatiently(w, s);
      Done(o.s, o.r, false, false)
  }

  /** What rejilla_burn_record does before it unlocks the drives. */
  ghost function RecordLocked(w: World, s: St, plan: Plans): (d: Done)
    requires Fit(w)
    ensures d.quit ==> d.r == Cancel
    ensures Remembers(w, s) ==> Keeps(w, s, d.s)
  {
    hide Prepare, RecordSession;
    var ready := Prepare(w, s, plan);
    if ready.r != BurnOk then ready
    else
      var s1 := Rest(ready.s);
      SettingsKeep(w, ready.s, s1);
      KeepsThrice(w, s, s, ready.s, s1);
      var lock := if First(ready.s).input.Disc? then LockSrc(w, s1) else Out(s1, BurnOk);
      KeepsThrice(w, s, s1, s1, lock.s);
      if lock.r != BurnOk then Done(lock.s, lock.r, false, false)
      else
        var d := RecordSession(w, lock.s, true, None, plan);
        KeepsThrice(w, s, lock.s, lock.s, d.s);
        d
  }

  /** A burn begins with nothing refused or forgotten. */
  function Begin(s: St): St {
    s.(stuck := {}, lost := {})
  }

  /** rejilla_burn_record, once the session is ready. */
  ghost function Record(w: World, s: St, plan: Plans): Done
    requires Fit(w)
  {
    var d := RecordLocked(w, Begin(s), plan);
    d.(s := UnlockMedias(w, d.s))
  }

  // ----- blanking -----

  datatype Blanking = Blanking(s: St, r: BurnResult, error: BurnError)

  /** rejilla_burn_blank_real. */
  function BlankReal(w: World, s: St): (b: Blanking)
    ensures Keeps(w, s, b.s) && b.s == s.(script := b.s.script, disc := b.s.disc, trace := b.s.trace)
    ensures b.r == BurnErr ==> |b.s.script| < |s.script|
  {
    var task, s1 := First(s), Rest(s);
    if !task.yes then Blanking(s1, NotSupported, NoError)
    else
      var e := Blanked(s.disc, BurnerLocked(w, s));
      var o := RunEraser(Logged(s1, e));
      LoggingKeeps(w, s1, e);
      KeepsTwice(w, s1, Logged(s1, e), o.s);
      Blanking(o.s, o.r, task.error)
  }

  /** Blanks until it works or the user gives up; s is the state with the burner locked. */
  function BlankLoop(w: World, s: St): (o: Out)
    ensures Remembers(w, s) ==> Keeps(w, s, o.s)
    ensures o.s.settings == s.settings && o.s.pile == s.pile && o.s.lost <= s.lost
    decreases |s.script|
  {
    var b := BlankReal(w, s);
    if b.r != BurnErr || b.error != NotRewritableError then Out(b.s, b.r)
    else
      var asked := AskForDestMedia(w, b.s);
      KeepsThrice(w, s, s, b.s, asked.s);
      if asked.r != BurnOk then asked
      else
        var lock := LockRewritable(w, asked.s);
        KeepsThrice(w, s, asked.s, asked.s, lock.s);
        if lock.r != BurnOk then lock
        else
          KeepsThrice(w, s, lock.s, lock.s, BlankLoop(w, lock.s).s);
          BlankLoop(w, lock.s)
  }

  predicate TakesNoBlanking(b: Blanking) {
    b.r == BurnErr && b.error == NotRewritableError
  }

  /** A disc that cannot be rewritten is not the end of it: either another disc was blanked, or failed for another
      reason, or none could be had or locked. */
  lemma {:induction false} BlankingEnds(w: World, s: St) returns (t: St)
    ensures var b, o := BlankReal(w, t), BlankLoop(w, s);
            var asked := AskForDestMedia(w, b.s);
            if !TakesNoBlanking(b) then o == Out(b.s, b.r)
            else o.r != BurnOk && o == if asked.r != BurnOk then asked else LockRewritable(w, asked.s)
    decreases |s.script|
  {
    hide BlankReal, AskForDestMedia, LockRewritable;
    t := s;
    var b := BlankReal(w, s);
    if TakesNoBlanking(b) {
      var asked := AskForDestMedia(w, b.s);
      if asked.r == BurnOk && LockRewritable(w, asked.s).r == BurnOk {
        t := BlankingEnds(w, LockRewritable(w, asked.s).s);
      }
    }
  }

  /** rejilla_burn_blank. */
  function Blank(w: World, s: St): Out {
    var lock := LockRewritable(w, Begin(s));
    var o := if lock.r == BurnOk then BlankLoop(w, lock.s) else lock;
    Out(UnlockMedias(w, o.s), o.r)
  }
}
