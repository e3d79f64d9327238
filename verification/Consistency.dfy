/** How a burn corrects the flags of its session before it starts (rejilla-burn.c, rejilla-caps-session.c): one
    flag after the other, each only if it is supported together with those before it. */
module Consistency {
  import opened Flags
  import opened MediumFlags
  import FindLink
  import GetFlags

  type Oracle = BurnFlags -> Reply

  /** In the order of their bits; the highest bit of all lies beyond REJILLA_BURN_FLAG_LAST. */
  const CHECKED: seq<Flag> :=
    [CheckSize, NoGrace, Eject, Merge, Multi, Append, BurnProof, NoTmpFiles, Dummy, Overburn, BlankBeforeWrite,
     FastBlank, Bit12, Dao, Raw]

  /** The engine, asked about one session. */
  function Asking(q: Session): Oracle
    requires FindLink.Ranked(q.graph, q.rank)
  {
    flags => AskFlags(q, flags)
  }

  datatype Checking =
    | Corrected(kept: BurnFlags, compulsory: BurnFlags)
    | MergeImpossible(reached: BurnFlags)
    | Refused(result: BurnResult)

  /** The flags from the i-th on. An answer that is a failure leaves the previous one in force. */
  function CheckFrom(ask: Oracle, flags: BurnFlags, i: nat, kept: BurnFlags, supported: BurnFlags,
                     compulsory: BurnFlags)
    : Checking
    requires i <= |CHECKED|
    decreases |CHECKED| - i
  {
    if i == |CHECKED| then Corrected(kept, compulsory)
    else
      var flag := CHECKED[i];
      if flag in flags && flag in supported then
        var a := ask(kept + {flag});
        if a.result == BurnOk then CheckFrom(ask, flags, i + 1, kept + {flag}, a.supported, a.compulsory)
        else CheckFrom(ask, flags, i + 1, kept + {flag}, supported, compulsory)
      else if flag in flags && flag == Merge then MergeImpossible(kept)
      else CheckFrom(ask, flags, i + 1, kept, supported, compulsory)
  }

  function CheckFlags(ask: Oracle, flags: BurnFlags): Checking {
    var a := ask({});
    if a.result != BurnOk then Refused(a.result) else CheckFrom(ask, flags, 0, {}, a.supported, a.compulsory)
  }

  // ----- what correcting means -----

  /** The answer for some of the kept flags. */
  ghost predicate AnswerWithin(ask: Oracle, kept: BurnFlags, some: BurnFlags) {
    some <= kept && ask(some).result == BurnOk
  }

  /** The flag was supported together with some of the others that were kept. */
  ghost predicate SupportedAmong(ask: Oracle, kept: BurnFlags, flag: Flag) {
    exists some :: AnswerWithin(ask, kept, some) && flag !in some && flag in ask(some).supported
  }

  ghost predicate Trusted(ask: Oracle, kept: BurnFlags, supported: BurnFlags, compulsory: BurnFlags) {
    exists some :: AnswerWithin(ask, kept, some) && supported == ask(some).supported
      && compulsory == ask(some).compulsory
  }

  predicate Ahead(kept: BurnFlags, i: nat)
    requires i <= |CHECKED|
  {
    forall k :: i <= k < |CHECKED| ==> CHECKED[k] !in kept
  }

  lemma {:induction false} CheckedOnce(i: nat, k: nat)
    requires i < k < |CHECKED|
    ensures CHECKED[i] != CHECKED[k]
  {
  }

  lemma {:induction false} KeepOne(ask: Oracle, kept: BurnFlags, supported: BurnFlags, compulsory: BurnFlags,
                                   flag: Flag)
    requires Trusted(ask, kept, supported, compulsory) && flag in supported && flag !in kept
    requires forall f :: f in kept ==> SupportedAmong(ask, kept, f)
    ensures forall f :: f in kept + {flag} ==> SupportedAmong(ask, kept + {flag}, f)
    ensures Trusted(ask, kept + {flag}, supported, compulsory)
  {
    var with := kept + {flag};
    var some :| AnswerWithin(ask, kept, some) && supported == ask(some).supported && compulsory == ask(some).compulsory;
    assert AnswerWithin(ask, with, some);
    forall f | f in with ensures SupportedAmong(ask, with, f) {
      if f in kept {
        var s :| AnswerWithin(ask, kept, s) && f !in s && f in ask(s).supported;
        assert AnswerWithin(ask, with, s);
      }
    }
  }

  /** Everything known when the i-th flag comes up. */
  ghost predicate SoFar(ask: Oracle, flags: BurnFlags, i: nat, kept: BurnFlags, supported: BurnFlags,
                        compulsory: BurnFlags) {
    && i <= |CHECKED| && kept <= flags && Ahead(kept, i)
    && (Merge in flags && i > 3 ==> Merge in kept)
    && Trusted(ask, kept, supported, compulsory)
    && (forall f :: f in kept ==> SupportedAmong(ask, kept, f))
    && (ask(kept).result == BurnOk ==> supported == ask(kept).supported && compulsory == ask(kept).compulsory)
  }

  /** What correcting promises. */
  ghost predicate Sound(ask: Oracle, flags: BurnFlags, c: Checking) {
    match c
    case Corrected(kept, compulsory) =>
      && kept <= flags && (Merge in flags ==> Merge in kept)
      && (forall f :: f in kept ==> SupportedAmong(ask, kept, f))
      && (exists some :: AnswerWithin(ask, kept, some) && compulsory == ask(some).compulsory)
      && (ask(kept).result == BurnOk ==> compulsory == ask(kept).compulsory)
    case MergeImpossible(reached) =>
      && Merge in flags && reached <= flags && Merge !in reached
      && (exists some :: AnswerWithin(ask, reached, some) && Merge !in ask(some).supported)
    case Refused(result) => result == ask({}).result != BurnOk
  }

  lemma {:induction false} OneFlag(ask: Oracle, flags: BurnFlags, i: nat, kept: BurnFlags, supported: BurnFlags,
                                   compulsory: BurnFlags)
    requires i < |CHECKED| && SoFar(ask, flags, i, kept, supported, compulsory)
    ensures CHECKED[i] !in kept
    ensures CHECKED[i] in flags && CHECKED[i] in supported ==>
              var a := ask(kept + {CHECKED[i]});
              if a.result == BurnOk then SoFar(ask, flags, i + 1, kept + {CHECKED[i]}, a.supported, a.compulsory)
              else SoFar(ask, flags, i + 1, kept + {CHECKED[i]}, supported, compulsory)
    ensures !(CHECKED[i] in flags && CHECKED[i] in supported) && !(CHECKED[i] in flags && CHECKED[i] == Merge) ==>
              SoFar(ask, flags, i + 1, kept, supported, compulsory)
  {
    var flag := CHECKED[i];
    assert flag !in kept;
    forall k | i + 1 <= k < |CHECKED| ensures CHECKED[k] !in kept + {flag} {
      CheckedOnce(i, k);
    }
    assert CHECKED[3] == Merge;
    if flag in flags && flag in supported {
      KeepOne(ask, kept, supported, compulsory, flag);
      assert ask(kept + {flag}).result == BurnOk ==> AnswerWithin(ask, kept + {flag}, kept + {flag});
    }
  }

  lemma {:induction false} CheckFromIs(ask: Oracle, flags: BurnFlags, i: nat, kept: BurnFlags, supported: BurnFlags,
                                       compulsory: BurnFlags)
    requires SoFar(ask, flags, i, kept, supported, compulsory)
    ensures Sound(ask, flags, CheckFrom(ask, flags, i, kept, supported, compulsory))
    ensures !CheckFrom(ask, flags, i, kept, supported, compulsory).Refused?
    decreases |CHECKED| - i
  {
    if i < |CHECKED| {
      OneFlag(ask, flags, i, kept, supported, compulsory);
      var flag := CHECKED[i];
      if flag in flags && flag in supported {
        var a := ask(kept + {flag});
        if a.result == BurnOk {
          CheckFromIs(ask, flags, i + 1, kept + {flag}, a.supported, a.compulsory);
        } else {
          CheckFromIs(ask, flags, i + 1, kept + {flag}, supported, compulsory);
        }
      } else if !(flag in flags && flag == Merge) {
        CheckFromIs(ask, flags, i + 1, kept, supported, compulsory);
      }
    }
  }

  /** Correcting only ever drops flags, each one kept is supported together with some of the others, the
      compulsory flags are those of an answer for kept flags, for all of them if they are answered together, and
      merging is kept or the burn is given up. */
  lemma {:induction false} CorrectedFlags(ask: Oracle, flags: BurnFlags)
    ensures Sound(ask, flags, CheckFlags(ask, flags))
  {
    var a := ask({});
    if a.result == BurnOk {
      assert AnswerWithin(ask, {}, {});
      CheckFromIs(ask, flags, 0, {}, a.supported, a.compulsory);
    }
  }

  // ----- exactly what is kept -----

  /** All flags are looked at but the highest bit, each once. */
  lemma {:induction false} AllAreChecked(flag: Flag)
    ensures flag in CHECKED <==> flag != Bit15
    ensures forall i, k :: 0 <= i < k < |CHECKED| ==> CHECKED[i] != CHECKED[k]
  {
    assert CHECKED[0] == CheckSize && CHECKED[1] == NoGrace && CHECKED[2] == Eject && CHECKED[3] == Merge;
    assert CHECKED[4] == Multi && CHECKED[5] == Append && CHECKED[6] == BurnProof && CHECKED[7] == NoTmpFiles;
    assert CHECKED[8] == Dummy && CHECKED[9] == Overburn && CHECKED[10] == BlankBeforeWrite;
    assert CHECKED[11] == FastBlank && CHECKED[12] == Bit12 && CHECKED[13] == Dao && CHECKED[14] == Raw;
  }

  /** The kept flags among the first i. */
  function KeptBefore(kept: BurnFlags, i: nat): (r: BurnFlags)
    requires i <= |CHECKED|
    ensures r <= kept
  {
    if i == 0 then {}
    else KeptBefore(kept, i - 1) + if CHECKED[i - 1] in kept then {CHECKED[i - 1]} else {}
  }

  /** The flags whose answer is in force when the i-th flag comes up: the last ones that were answered. */
  function InForce(ask: Oracle, kept: BurnFlags, i: nat): (r: BurnFlags)
    requires i <= |CHECKED|
    ensures r <= KeptBefore(kept, i)
  {
    if i == 0 then {}
    else if CHECKED[i - 1] in kept && ask(KeptBefore(kept, i)).result == BurnOk then KeptBefore(kept, i)
    else InForce(ask, kept, i - 1)
  }

  /** A flag is kept exactly if it was asked for and the answer in force at its turn supports it. */
  predicate IsKept(ask: Oracle, flags: BurnFlags, kept: BurnFlags, i: nat)
    requires i < |CHECKED|
  {
    CHECKED[i] in kept <==> CHECKED[i] in flags && CHECKED[i] in ask(InForce(ask, kept, i)).supported
  }

  predicate SameBefore(a: BurnFlags, b: BurnFlags, i: nat)
    requires i <= |CHECKED|
  {
    forall k :: 0 <= k < i ==> (CHECKED[k] in a <==> CHECKED[k] in b)
  }

  lemma {:induction false} SameInForce(ask: Oracle, a: BurnFlags, b: BurnFlags, i: nat)
    requires i <= |CHECKED| && SameBefore(a, b, i)
    ensures KeptBefore(a, i) == KeptBefore(b, i) && InForce(ask, a, i) == InForce(ask, b, i)
  {
    if i > 0 {
      SameInForce(ask, a, b, i - 1);
    }
  }

  predicate OnlyBefore(kept: BurnFlags, i: nat)
    requires i <= |CHECKED|
  {
    forall f :: f in kept ==> f in CHECKED[..i]
  }

  lemma {:induction false} KeptBeforeIs(kept: BurnFlags, i: nat)
    requires i <= |CHECKED| && OnlyBefore(kept, i)
    ensures KeptBefore(kept, i) == kept
  {
    KeptBeforeHolds(kept, i);
    forall f | f in kept ensures f in KeptBefore(kept, i) {
      var k :| 0 <= k < i && CHECKED[k] == f;
    }
  }

  lemma {:induction false} KeptBeforeHolds(kept: BurnFlags, i: nat)
    requires i <= |CHECKED|
    ensures forall k :: 0 <= k < i && CHECKED[k] in kept ==> CHECKED[k] in KeptBefore(kept, i)
  {
    if i > 0 {
      KeptBeforeHolds(kept, i - 1);
    }
  }

  predicate AreKept(ask: Oracle, flags: BurnFlags, kept: BurnFlags, i: nat, j: nat) {
    i <= j <= |CHECKED| && forall k :: i <= k < j ==> IsKept(ask, flags, kept, k)
  }

  /** What checking from the i-th flag on comes to, given what was kept before. */
  predicate ChecksFrom(ask: Oracle, flags: BurnFlags, i: nat, kept: BurnFlags, c: Checking)
    requires i <= |CHECKED|
  {
    match c
    case Refused(r) => false
    case Corrected(all, compulsory) =>
      && SameBefore(kept, all, i) && OnlyBefore(all, |CHECKED|) && AreKept(ask, flags, all, i, |CHECKED|)
      && compulsory == ask(InForce(ask, all, |CHECKED|)).compulsory
    case MergeImpossible(reached) =>
      && i <= 3 && SameBefore(kept, reached, i) && OnlyBefore(reached, 3) && AreKept(ask, flags, reached, i, 3)
      && Merge in flags && Merge !in ask(InForce(ask, reached, 3)).supported
  }

  /** One flag more. */
  lemma {:induction false} ChecksOneMore(ask: Oracle, flags: BurnFlags, i: nat, kept: BurnFlags, c: Checking)
    requires i < |CHECKED| && OnlyBefore(kept, i)
    requires var flag := CHECKED[i];
             ChecksFrom(ask, flags, i + 1, if flag in flags && flag in ask(InForce(ask, kept, i)).supported
                                           then kept + {flag} else kept, c)
    ensures ChecksFrom(ask, flags, i, kept, c)
  {
    hide KeptBefore, InForce;
    var flag := CHECKED[i];
    NotBefore(kept, i);
    var all := if c.Corrected? then c.kept else c.reached;
    forall k | 0 <= k < i ensures CHECKED[k] in kept <==> CHECKED[k] in all {
      CheckedOnce(k, i);
    }
    SameInForce(ask, kept, all, i);
  }

  lemma {:induction false} NotBefore(kept: BurnFlags, i: nat)
    requires i < |CHECKED| && OnlyBefore(kept, i)
    ensures CHECKED[i] !in kept && OnlyBefore(kept, i + 1) && OnlyBefore(kept + {CHECKED[i]}, i + 1)
  {
    AllAreChecked(CHECKED[i]);
    assert CHECKED[..i + 1] == CHECKED[..i] + [CHECKED[i]];
  }

  lemma {:induction false} ChecksEnd(ask: Oracle, flags: BurnFlags, kept: BurnFlags)
    requires OnlyBefore(kept, |CHECKED|)
    ensures ChecksFrom(ask, flags, |CHECKED|, kept, Corrected(kept, ask(InForce(ask, kept, |CHECKED|)).compulsory))
  {
  }

  lemma {:induction false} MergeEnds(ask: Oracle, flags: BurnFlags, i: nat, kept: BurnFlags)
    requires i < |CHECKED| && CHECKED[i] == Merge && OnlyBefore(kept, i)
    requires Merge in flags && Merge !in ask(InForce(ask, kept, i)).supported
    ensures ChecksFrom(ask, flags, i, kept, MergeImpossible(kept))
  {
    AllAreChecked(Merge);
    assert CHECKED[3] == Merge;
  }

  /** What is in force after the i-th flag. */
  lemma {:induction false} NextInForce(ask: Oracle, kept: BurnFlags, i: nat, with: bool)
    requires i < |CHECKED| && OnlyBefore(kept, i)
    ensures var kept' := if with then kept + {CHECKED[i]} else kept;
            InForce(ask, kept', i + 1)
            == if with && ask(kept').result == BurnOk then kept' else InForce(ask, kept, i)
  {
    var kept' := if with then kept + {CHECKED[i]} else kept;
    NotBefore(kept, i);
    KeptBeforeIs(kept', i + 1);
    forall k | 0 <= k < i ensures CHECKED[k] in kept <==> CHECKED[k] in kept' {
      CheckedOnce(k, i);
    }
    SameInForce(ask, kept, kept', i);
  }

  /** The flags from the i-th on, given what was kept before. */
  lemma {:induction false} KeptFrom(ask: Oracle, flags: BurnFlags, i: nat, kept: BurnFlags, supported: BurnFlags,
                                    compulsory: BurnFlags)
    requires i <= |CHECKED| && OnlyBefore(kept, i)
    requires supported == ask(InForce(ask, kept, i)).supported
    requires compulsory == ask(InForce(ask, kept, i)).compulsory
    ensures ChecksFrom(ask, flags, i, kept, CheckFrom(ask, flags, i, kept, supported, compulsory))
    decreases |CHECKED| - i
  {
    hide CHECKED, KeptBefore, InForce, ChecksFrom, OnlyBefore;
    if i == |CHECKED| {
      ChecksEnd(ask, flags, kept);
    } else {
      var flag, c := CHECKED[i], CheckFrom(ask, flags, i, kept, supported, compulsory);
      NotBefore(kept, i);
      if flag in flags && flag in supported {
        var a := ask(kept + {flag});
        NextInForce(ask, kept, i, true);
        if a.result == BurnOk {
          KeptFrom(ask, flags, i + 1, kept + {flag}, a.supported, a.compulsory);
        } else {
          KeptFrom(ask, flags, i + 1, kept + {flag}, supported, compulsory);
        }
        ChecksOneMore(ask, flags, i, kept, c);
      } else if flag in flags && flag == Merge {
        MergeEnds(ask, flags, i, kept);
      } else {
        NextInForce(ask, kept, i, false);
        KeptFrom(ask, flags, i + 1, kept, supported, compulsory);
        ChecksOneMore(ask, flags, i, kept, c);
      }
    }
  }

  /** What is kept, exactly: one flag after the other, each if it was asked for and is supported by the last answer that
      was no failure; the compulsory flags are those of the answer in force in the end. Merging ends it all if it was
      asked for and is not supported when its turn comes. */
  lemma {:induction false} KeptExactly(ask: Oracle, flags: BurnFlags)
    requires ask({}).result == BurnOk
    ensures match CheckFlags(ask, flags)
            case Refused(r) => false
            case Corrected(kept, compulsory) =>
              && Bit15 !in kept && (forall k :: 0 <= k < |CHECKED| ==> IsKept(ask, flags, kept, k))
              && compulsory == ask(InForce(ask, kept, |CHECKED|)).compulsory
            case MergeImpossible(reached) =>
              && OnlyBefore(reached, 3) && (forall k :: 0 <= k < 3 ==> IsKept(ask, flags, reached, k))
              && Merge in flags && Merge !in ask(InForce(ask, reached, 3)).supported
  {
    KeptFrom(ask, flags, 0, {}, ask({}).supported, ask({}).compulsory);
    AllAreChecked(Bit15);
  }

  lemma {:induction false} HarmlessComeFirst(flags: BurnFlags, possible: BurnFlags, i: nat, kept: BurnFlags)
    requires 3 <= i <= |CHECKED| && possible <= {CheckSize, NoGrace, Eject} && kept <= flags * possible
    requires forall k :: 0 <= k < i && CHECKED[k] in flags * possible ==> CHECKED[k] in kept
    ensures kept == flags * possible
  {
    assert CHECKED[0] == CheckSize && CHECKED[1] == NoGrace && CHECKED[2] == Eject;
  }

  /** What an image supports. */
  function Harmless(q: Session): BurnFlags {
    {CheckSize, NoGrace} + if q.input.Disc? then {Eject} else {}
  }

  lemma {:induction false} ImageFrom(q: Session, flags: BurnFlags, i: nat, kept: BurnFlags)
    requires FindLink.Ranked(q.graph, q.rank) && q.toImage
    requires i <= |CHECKED| && kept <= flags * Harmless(q)
    requires forall k :: 0 <= k < i && CHECKED[k] in flags * Harmless(q) ==> CHECKED[k] in kept
    requires Merge in flags ==> i <= 3
    ensures CheckFrom(Asking(q), flags, i, kept, Harmless(q), {}) ==
              if Merge in flags then MergeImpossible(flags * Harmless(q)) else Corrected(flags * Harmless(q), {})
    decreases |CHECKED| - i
  {
    assert CHECKED[3] == Merge;
    if i == |CHECKED| {
      HarmlessComeFirst(flags, Harmless(q), i, kept);
    } else if CHECKED[i] in flags * Harmless(q) {
      assert Asking(q)(kept + {CHECKED[i]}) == Reply(BurnOk, Harmless(q), {});
      ImageFrom(q, flags, i + 1, kept + {CHECKED[i]});
    } else if CHECKED[i] == Merge && Merge in flags {
      CheckedOnce(0, 3);
      CheckedOnce(1, 3);
      CheckedOnce(2, 3);
      HarmlessComeFirst(flags, Harmless(q), i, kept);
    } else {
      ImageFrom(q, flags, i + 1, kept);
    }
  }

  /** For an image the outcome is plain: nothing but the three harmless flags is kept, and asking to merge is an
      error. */
  lemma {:induction false} ImageFlags(q: Session, flags: BurnFlags)
    requires FindLink.Ranked(q.graph, q.rank) && q.toImage
    ensures CheckFlags(Asking(q), flags) ==
              if Merge in flags then MergeImpossible(flags * Harmless(q)) else Corrected(flags * Harmless(q), {})
  {
    assert Asking(q)({}) == Reply(BurnOk, Harmless(q), {});
    ImageFrom(q, flags, 0, {});
  }

  /** A flag is kept only where the drive can do it. */
  lemma {:induction false} KeptSuitsDrive(q: Session, flags: BurnFlags, kept: BurnFlags, compulsory: BurnFlags)
    requires FindLink.Ranked(q.graph, q.rank) && !q.toImage && q.copying.None?
    requires CheckFlags(Asking(q), flags) == Corrected(kept, compulsory)
    ensures BurnProof in kept ==> q.can.burnFree
    ensures Dummy in kept ==> MediumPlus !in q.media && (q.can.dummySao || q.can.dummyTao)
  {
    CorrectedFlags(Asking(q), flags);
    forall flag | flag in kept && (flag == BurnProof || flag == Dummy)
      ensures if flag == BurnProof then q.can.burnFree
              else MediumPlus !in q.media && (q.can.dummySao || q.can.dummyTao)
    {
      assert SupportedAmong(Asking(q), kept, flag);
      var some :| AnswerWithin(Asking(q), kept, some) && flag !in some && flag in Asking(q)(some).supported;
      DriveSupports(q, some, flag);
    }
  }

  lemma {:induction false} DriveSupports(q: Session, some: BurnFlags, flag: Flag)
    requires FindLink.Ranked(q.graph, q.rank) && !q.toImage && q.copying.None?
    requires AskFlags(q, some).result == BurnOk && flag in AskFlags(q, some).supported
    ensures flag == BurnProof ==> q.can.burnFree
    ensures flag == Dummy ==> MediumPlus !in q.media && (q.can.dummySao || q.can.dummyTao)
  {
    hide ForMedium;
  }

  /** The flags that correcting keeps are answered together exactly if simulating suits the way of writing that is kept,
      merging or appending is not kept along with blanking, and the engine knows a way for them all. A failed answer
      does not take a flag back, so each can fail; that the drive can do without underruns needs no test any more. */
  lemma {:induction false} KeptTogetherIff(q: Session, flags: BurnFlags, kept: BurnFlags, compulsory: BurnFlags)
    requires FindLink.Ranked(q.graph, q.rank) && !q.toImage && q.copying.None?
    requires CheckFlags(Asking(q), flags) == Corrected(kept, compulsory)
    ensures Asking(q)(kept).result == BurnOk <==>
              && (Dummy in kept ==> if MediumDvd in q.media || Dao in kept then q.can.dummySao else q.can.dummyTao)
              && (kept * {Merge, Append} == {} || BlankBeforeWrite !in kept)
              && KnowsWay(q.graph, q.rank, true, q.media, kept, q.input)
    ensures Asking(q)(kept).result == BurnOk ==> compulsory == Asking(q)(kept).compulsory
  {
    hide ForMedium, KnowsWay, CheckFlags;
    KeptSuitsDrive(q, flags, kept, compulsory);
    CorrectedFlags(Asking(q), flags);
    AnsweredIff(q.graph, q.rank, true, q.media, kept, q.input, GetFlags.LinkAnswer({CheckSize, NoGrace, Eject}, {}));
  }

  /** Merging and blanking are both kept where each is supported, although the engine never takes them together. */
  lemma {:induction false} BothKept(ask: Oracle)
    requires ask({}).result == BurnOk && {Merge, BlankBeforeWrite} <= ask({}).supported
    requires ask({Merge}).result == BurnOk && BlankBeforeWrite in ask({Merge}).supported
    requires ask({Merge, BlankBeforeWrite}).result != BurnOk
    ensures CheckFlags(ask, {Merge, BlankBeforeWrite}) == Corrected({Merge, BlankBeforeWrite}, ask({Merge}).compulsory)
  {
    var a, b, both := ask({}), ask({Merge}), {Merge, BlankBeforeWrite};
    assert CHECKED[3] == Merge && CHECKED[10] == BlankBeforeWrite;
    forall k | 0 <= k < |CHECKED| && k != 3 && k != 10 ensures CHECKED[k] !in both {
      if k < 3 {
        CheckedOnce(k, 3);
      } else {
        CheckedOnce(3, k);
      }
      if k < 10 {
        CheckedOnce(k, 10);
      } else {
        CheckedOnce(10, k);
      }
    }
    NotAskedBefore(ask, both, 0, 3, {}, a.supported, a.compulsory);
    assert {} + {Merge} == {Merge} && {Merge} + {BlankBeforeWrite} == both;
    NotAskedBefore(ask, both, 4, 10, {Merge}, b.supported, b.compulsory);
    NothingAsked(ask, both, 11, both, b.supported, b.compulsory);
  }

  /** Flags that were not asked for change nothing. */
  lemma {:induction false} NothingAsked(ask: Oracle, flags: BurnFlags, i: nat, kept: BurnFlags, supported: BurnFlags,
                                        compulsory: BurnFlags)
    requires i <= |CHECKED| && forall k :: i <= k < |CHECKED| ==> CHECKED[k] !in flags
    ensures CheckFrom(ask, flags, i, kept, supported, compulsory) == Corrected(kept, compulsory)
    decreases |CHECKED| - i
  {
    if i < |CHECKED| {
      NothingAsked(ask, flags, i + 1, kept, supported, compulsory);
    }
  }

  /** Flags in front that were not asked for change nothing either. */
  lemma {:induction false} NotAskedBefore(ask: Oracle, flags: BurnFlags, i: nat, j: nat, kept: BurnFlags,
                                          supported: BurnFlags, compulsory: BurnFlags)
    requires i <= j <= |CHECKED| && forall k :: i <= k < j ==> CHECKED[k] !in flags
    ensures CheckFrom(ask, flags, i, kept, supported, compulsory)
            == CheckFrom(ask, flags, j, kept, supported, compulsory)
    decreases j - i
  {
    if i < j {
      NotAskedBefore(ask, flags, i + 1, j, kept, supported, compulsory);
    }
  }

  /** A session that asks for nothing gets what is compulsory for nothing. */
  lemma {:induction false} AskingNothing(ask: Oracle)
    requires ask({}).result == BurnOk
    ensures CheckFlags(ask, {}) == Corrected({}, ask({}).compulsory)
  {
    NothingAsked(ask, {}, 0, {}, ask({}).supported, ask({}).compulsory);
  }

  /** A session that asks to merge only. */
  lemma {:induction false} AskingToMerge(ask: Oracle)
    requires ask({}).result == BurnOk && Merge in ask({}).supported && ask({Merge}).result == BurnOk
    ensures CheckFlags(ask, {Merge}) == Corrected({Merge}, ask({Merge}).compulsory)
  {
    var a, b := ask({}), ask({Merge});
    forall k | 0 <= k < |CHECKED| && k != 3 ensures CHECKED[k] !in {Merge} {
      if k < 3 {
        CheckedOnce(k, 3);
      } else {
        CheckedOnce(3, k);
      }
    }
    NotAskedBefore(ask, {Merge}, 0, 3, {}, a.supported, a.compulsory);
    assert CHECKED[3] == Merge && {} + {Merge} == {Merge};
    NothingAsked(ask, {Merge}, 4, {Merge}, b.supported, b.compulsory);
  }
}
