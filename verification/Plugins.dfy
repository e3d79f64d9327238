/** Plugins and the flag pairs they register for each medium (burn-plugin.c). */
module Plugins {
  import opened Flags

  datatype FlagPair = FlagPair(supported: BurnFlags, compulsory: BurnFlags)

  datatype MediaFlags = MediaFlags(media: Media, pairs: seq<FlagPair>)

  datatype Plugin = Plugin(
    id: nat,
    hasType: bool,
    active: bool,
    hasErrors: bool,
    priority: int,
    group: nat,
    flags: seq<MediaFlags>,
    blankFlags: seq<MediaFlags>,
    processFlags: set<Position>)

  /** A negative priority turns a plugin off; errors do so unless they are ignored. */
  predicate GetActive(plugin: Plugin, ignoreErrors: bool) {
    plugin.hasType && plugin.priority >= 0 && (plugin.hasErrors ==> ignoreErrors) && plugin.active
  }

  // ----- lookup of the entry registered for a medium -----

  /** Index of the first entry covering the medium, |list| when there is none. */
  function EntryFor(list: seq<MediaFlags>, media: Media): (i: nat)
    ensures i <= |list|
    ensures i < |list| ==> media <= list[i].media
    ensures forall k :: 0 <= k < i ==> !(media <= list[k].media)
  {
    if list == [] || media <= list[0].media then 0 else 1 + EntryFor(list[1..], media)
  }

  method GetFlags(list: seq<MediaFlags>, media: Media) returns (i: nat)
    ensures i == EntryFor(list, media)
  {
    i := 0;
    while i < |list|
      invariant i <= |list|
      invariant forall k :: 0 <= k < i ==> !(media <= list[k].media)
    {
      if media <= list[i].media {
        return;
      }
      i := i + 1;
    }
  }

  predicate CheckMediaRestrictions(plugin: Plugin, media: Media) {
    plugin.flags == [] || EntryFor(plugin.flags, media) < |plugin.flags|
  }

  // ----- querying the pairs -----

  /** The pair supports all current flags and, when asked, its own compulsory flags are set. */
  predicate PairMatches(pair: FlagPair, check: bool, mask: BurnFlags, current: BurnFlags) {
    current <= pair.supported && (check ==> pair.compulsory * mask <= current)
  }

  function Matching(pairs: seq<FlagPair>, check: bool, mask: BurnFlags, current: BurnFlags): (r: seq<FlagPair>)
    ensures forall p :: p in r <==> p in pairs && PairMatches(p, check, mask, current)
  {
    if pairs == [] then []
    else
      var last := pairs[|pairs| - 1];
      var r := Matching(pairs[..|pairs| - 1], check, mask, current);
      assert pairs == pairs[..|pairs| - 1] + [last];
      if PairMatches(last, check, mask, current) then r + [last] else r
  }

  function UnionSupported(pairs: seq<FlagPair>): BurnFlags {
    if pairs == [] then {}
    else UnionSupported(pairs[..|pairs| - 1]) + pairs[|pairs| - 1].supported
  }

  function MeetCompulsory(pairs: seq<FlagPair>, mask: BurnFlags): BurnFlags {
    if pairs == [] then FLAG_ALL * mask
    else MeetCompulsory(pairs[..|pairs| - 1], mask) * (pairs[|pairs| - 1].compulsory * mask)
  }

  datatype FlagAnswer = FlagAnswer(found: bool, supported: BurnFlags, compulsory: BurnFlags)

  function PairsFor(list: seq<MediaFlags>, media: Media): seq<FlagPair> {
    var i := EntryFor(list, media);
    if i == |list| then [] else list[i].pairs
  }

  function AllFlags(list: seq<MediaFlags>, check: bool, media: Media, mask: BurnFlags, current: BurnFlags): FlagAnswer {
    var matches := Matching(PairsFor(list, media), check, mask, current);
    if matches == [] then FlagAnswer(false, {}, {})
    else FlagAnswer(true, UnionSupported(matches), MeetCompulsory(matches, mask))
  }

  lemma {:induction false} OneMorePair(pairs: seq<FlagPair>, i: nat, check: bool, mask: BurnFlags, current: BurnFlags)
    requires i < |pairs|
    ensures var before, after := Matching(pairs[..i], check, mask, current),
            Matching(pairs[..i + 1], check, mask, current);
            if PairMatches(pairs[i], check, mask, current) then
              && after != []
              && UnionSupported(after) == UnionSupported(before) + pairs[i].supported
              && MeetCompulsory(after, mask) == MeetCompulsory(before, mask) * (pairs[i].compulsory * mask)
            else after == before
  {
    assert pairs[..i + 1][..i] == pairs[..i] && pairs[..i + 1][i] == pairs[i];
    var before := Matching(pairs[..i], check, mask, current);
    assert (before + [pairs[i]])[..|before|] == before;
  }

  method GetAllFlags(list: seq<MediaFlags>, check: bool, media: Media, mask: BurnFlags, current: BurnFlags)
    returns (answer: FlagAnswer)
    ensures answer == AllFlags(list, check, media, mask, current)
  {
    var entry := GetFlags(list, media);
    if entry == |list| {
      return FlagAnswer(false, {}, {});
    }
    var pairs := list[entry].pairs;
    var found, supported, compulsory := false, {}, FLAG_ALL * mask;
    var i := 0;
    while i < |pairs|
      invariant i <= |pairs|
      invariant found == (Matching(pairs[..i], check, mask, current) != [])
      invariant supported == UnionSupported(Matching(pairs[..i], check, mask, current))
      invariant compulsory == MeetCompulsory(Matching(pairs[..i], check, mask, current), mask)
    {
      OneMorePair(pairs, i, check, mask, current);
      var masked := pairs[i].compulsory * mask;
      if current <= pairs[i].supported && (!check || masked <= current) {
        supported := supported + pairs[i].supported;
        compulsory := compulsory * masked;
        found := true;
      }
      i := i + 1;
    }
    assert pairs[..i] == pairs;
    if !found {
      return FlagAnswer(false, {}, {});
    }
    return FlagAnswer(true, supported, compulsory);
  }

  /** The union is the least flag set holding every supported set. */
  lemma {:induction false} UnionIsLeast(pairs: seq<FlagPair>)
    ensures forall p :: p in pairs ==> p.supported <= UnionSupported(pairs)
    ensures forall bound ::
              (forall p :: p in pairs ==> p.supported <= bound) ==> UnionSupported(pairs) <= bound
  {
    if pairs != [] {
      var init, last := pairs[..|pairs| - 1], pairs[|pairs| - 1];
      UnionIsLeast(init);
      assert pairs == init + [last] && last in pairs;
      forall bound | forall p :: p in pairs ==> p.supported <= bound
        ensures UnionSupported(pairs) <= bound
      {
        assert forall p :: p in init ==> p.supported <= bound;
        assert UnionSupported(init) <= bound;
      }
    }
  }

  /** The intersection is the greatest flag set inside the mask and every compulsory set. */
  lemma {:induction false} MeetIsGreatest(pairs: seq<FlagPair>, mask: BurnFlags)
    ensures MeetCompulsory(pairs, mask) <= mask
    ensures forall p :: p in pairs ==> MeetCompulsory(pairs, mask) <= p.compulsory
    ensures forall bound ::
              bound <= mask && (forall p :: p in pairs ==> bound <= p.compulsory)
              ==> bound <= MeetCompulsory(pairs, mask)
  {
    if pairs == [] {
      assert forall flag: Flag :: flag in FLAG_ALL;
    } else {
      var init, last := pairs[..|pairs| - 1], pairs[|pairs| - 1];
      MeetIsGreatest(init, mask);
      assert pairs == init + [last] && last in pairs;
      forall bound | bound <= mask && forall p :: p in pairs ==> bound <= p.compulsory
        ensures bound <= MeetCompulsory(pairs, mask)
      {
        assert forall p :: p in init ==> bound <= p.compulsory;
        assert bound <= MeetCompulsory(init, mask);
      }
    }
  }

  /** A query is answered exactly when some registered pair matches, with the union of what the matching
      pairs support and the intersection of what they require. */
  lemma AllFlagsExact(list: seq<MediaFlags>, check: bool, media: Media, mask: BurnFlags, current: BurnFlags)
    ensures var a := AllFlags(list, check, media, mask, current);
            var pairs := PairsFor(list, media);
            && (a.found <==> exists p :: p in pairs && PairMatches(p, check, mask, current))
            && (forall p :: p in pairs && PairMatches(p, check, mask, current) ==>
                  p.supported <= a.supported && a.compulsory <= p.compulsory)
            && (a.found ==> current <= a.supported && a.compulsory <= mask)
            && (forall bound ::
                  (forall p :: p in pairs && PairMatches(p, check, mask, current) ==> p.supported <= bound)
                  ==> a.supported <= bound)
            && (forall bound ::
                  a.found && bound <= mask
                  && (forall p :: p in pairs && PairMatches(p, check, mask, current) ==> bound <= p.compulsory)
                  ==> bound <= a.compulsory)
  {
    var matches := Matching(PairsFor(list, media), check, mask, current);
    UnionIsLeast(matches);
    MeetIsGreatest(matches, mask);
    if matches != [] {
      assert matches[0] in matches;
    }
  }

  /** Asking for fewer flags never loses a match: more is supported and less is compulsory. */
  lemma FewerFlagsAnswerMore(list: seq<MediaFlags>, media: Media, mask: BurnFlags, few: BurnFlags, many: BurnFlags)
    requires few <= many
    ensures var a, b := AllFlags(list, false, media, mask, few), AllFlags(list, false, media, mask, many);
            b.found ==> a.found && b.supported <= a.supported && a.compulsory <= b.compulsory
  {
    AllFlagsExact(list, false, media, mask, few);
    AllFlagsExact(list, false, media, mask, many);
    var pairs := PairsFor(list, media);
    assert forall p :: p in pairs && PairMatches(p, false, mask, many) ==> PairMatches(p, false, mask, few);
  }

  function RecordFlags(plugin: Plugin, media: Media, current: BurnFlags): FlagAnswer {
    AllFlags(plugin.flags, false, media, BURN_FLAG_MASK, current * BURN_FLAG_MASK)
  }

  function ImageFlags(plugin: Plugin, media: Media, current: BurnFlags): FlagAnswer {
    AllFlags(plugin.flags, false, media, IMAGE_FLAG_MASK, current * IMAGE_FLAG_MASK)
  }

  /** get_record_flags: both answers are cut down to the record flags. */
  function GetRecordFlags(plugin: Plugin, media: Media, current: BurnFlags): FlagAnswer {
    var a := RecordFlags(plugin, media, current);
    if a.found then FlagAnswer(true, a.supported * BURN_FLAG_MASK, a.compulsory * BURN_FLAG_MASK) else a
  }

  function GetImageFlags(plugin: Plugin, media: Media, current: BurnFlags): FlagAnswer {
    var a := ImageFlags(plugin, media, current);
    if a.found then FlagAnswer(true, a.supported * IMAGE_FLAG_MASK, a.compulsory * IMAGE_FLAG_MASK) else a
  }

  predicate CheckRecordFlags(plugin: Plugin, media: Media, current: BurnFlags) {
    AllFlags(plugin.flags, true, media, BURN_FLAG_MASK, current * BURN_FLAG_MASK).found
  }

  /** Without APPEND or MERGE an image plugin accepts every medium. */
  predicate CheckImageFlags(plugin: Plugin, media: Media, current: BurnFlags) {
    current * IMAGE_FLAG_MASK == {}
    || AllFlags(plugin.flags, true, media, IMAGE_FLAG_MASK, current * IMAGE_FLAG_MASK).found
  }

  predicate CheckBlankFlags(plugin: Plugin, media: Media, current: BurnFlags) {
    AllFlags(plugin.blankFlags, true, media, BLANK_FLAG_MASK, current * BLANK_FLAG_MASK).found
  }

  /** get_blank_flags. */
  function GetBlankFlags(plugin: Plugin, media: Media, current: BurnFlags): FlagAnswer {
    var a := AllFlags(plugin.blankFlags, false, media, BLANK_FLAG_MASK, current * BLANK_FLAG_MASK);
    if a.found then FlagAnswer(true, a.supported * BLANK_FLAG_MASK, a.compulsory * BLANK_FLAG_MASK) else a
  }

  // ----- registration -----

  /** The pair is covered by one that supports at least as much and requires at least as much. */
  predicate Redundant(pairs: seq<FlagPair>, pair: FlagPair) {
    exists p :: p in pairs && pair.supported <= p.supported && pair.compulsory <= p.compulsory
  }

  /** Registration without the redundancy test. */
  function Added(list: seq<MediaFlags>, media: Media, pair: FlagPair): seq<MediaFlags> {
    var i := EntryFor(list, media);
    if i == |list| then [MediaFlags(media, [pair])] + list
    else list[i := MediaFlags(list[i].media, [pair] + list[i].pairs)]
  }

  function Registered(list: seq<MediaFlags>, media: Media, pair: FlagPair): seq<MediaFlags> {
    if Redundant(PairsFor(list, media), pair) then list else Added(list, media, pair)
  }

  method SetFlagsReal(list: seq<MediaFlags>, media: Media, supported: BurnFlags, compulsory: BurnFlags)
    returns (r: seq<MediaFlags>)
    ensures r == Registered(list, media, FlagPair(supported, compulsory))
  {
    var entry := GetFlags(list, media);
    var pair := FlagPair(supported, compulsory);
    if entry == |list| {
      return [MediaFlags(media, [pair])] + list;
    }
    var pairs := list[entry].pairs;
    var i := 0;
    while i < |pairs|
      invariant i <= |pairs|
      invariant !Redundant(pairs[..i], pair)
    {
      if supported <= pairs[i].supported && compulsory <= pairs[i].compulsory {
        assert pairs[i] in pairs;
        return list;
      }
      assert pairs[..i + 1] == pairs[..i] + [pairs[i]];
      i := i + 1;
    }
    assert pairs[..i] == pairs;
    return list[entry := MediaFlags(list[entry].media, [pair] + pairs)];
  }

  lemma AddedEntry(list: seq<MediaFlags>, media: Media, pair: FlagPair, asked: Media)
    ensures PairsFor(Added(list, media, pair), asked)
            == if EntryFor(list, media) == |list|
               then if asked <= media then [pair] else PairsFor(list, asked)
               else if EntryFor(list, asked) == EntryFor(list, media)
                    then [pair] + PairsFor(list, asked) else PairsFor(list, asked)
  {
    var i := EntryFor(list, media);
    if i < |list| {
      SameMediaSameEntry(list, Added(list, media, pair), asked);
    } else {
      assert Added(list, media, pair)[1..] == list;
    }
  }

  lemma {:induction false} SameMediaSameEntry(a: seq<MediaFlags>, b: seq<MediaFlags>, media: Media)
    requires |a| == |b| && forall k :: 0 <= k < |a| ==> a[k].media == b[k].media
    ensures EntryFor(a, media) == EntryFor(b, media)
  {
    if a != [] {
      SameMediaSameEntry(a[1..], b[1..], media);
    }
  }

  /** What was registered for a medium answers every later query within its supported flags. */
  lemma RegisteredIsFound(list: seq<MediaFlags>, media: Media, pair: FlagPair, mask: BurnFlags, current: BurnFlags)
    requires current <= pair.supported
    ensures var a := AllFlags(Registered(list, media, pair), false, media, mask, current);
            a.found && pair.supported <= a.supported
  {
    var after := Registered(list, media, pair);
    AllFlagsExact(after, false, media, mask, current);
    if Redundant(PairsFor(list, media), pair) {
      var p :| p in PairsFor(list, media) && pair.supported <= p.supported && pair.compulsory <= p.compulsory;
      assert PairMatches(p, false, mask, current);
    } else {
      AddedEntry(list, media, pair, media);
      assert PairMatches(pair, false, mask, current) && pair in PairsFor(after, media);
    }
  }

  /** Dropping a redundant registration is invisible to every query that does not check compulsory flags:
      the same queries are answered, with the same supported flags. */
  lemma RedundantDropIsInvisible(
    list: seq<MediaFlags>, media: Media, pair: FlagPair, asked: Media, mask: BurnFlags, current: BurnFlags)
    requires Redundant(PairsFor(list, media), pair)
    ensures var kept := AllFlags(Registered(list, media, pair), false, asked, mask, current);
            var full := AllFlags(Added(list, media, pair), false, asked, mask, current);
            kept.found == full.found && kept.supported == full.supported
  {
    AllFlagsExact(list, false, asked, mask, current);
    AllFlagsExact(Added(list, media, pair), false, asked, mask, current);
    AddedEntry(list, media, pair, asked);
    var kept := AllFlags(list, false, asked, mask, current);
    var full := AllFlags(Added(list, media, pair), false, asked, mask, current);
    var pairs, more := PairsFor(list, asked), PairsFor(Added(list, media, pair), asked);
    if more != pairs {
      var p :| p in PairsFor(list, media) && pair.supported <= p.supported && pair.compulsory <= p.compulsory;
      assert more == [pair] + pairs;
      assert forall x :: x in more <==> x == pair || x in pairs;
      assert PairMatches(pair, false, mask, current) ==> PairMatches(p, false, mask, current);
      assert kept.supported <= full.supported;
      assert full.supported <= kept.supported;
    }
  }

  /** A query that does check compulsory flags, for whatever medium, loses its answer to the drop exactly when the
      same entry serves it, the dropped pair matched it, and no older pair of that entry does. */
  lemma RedundantDropHidesExactly(
    list: seq<MediaFlags>, media: Media, pair: FlagPair, asked: Media, mask: BurnFlags, current: BurnFlags)
    requires Redundant(PairsFor(list, media), pair)
    ensures AllFlags(Registered(list, media, pair), true, asked, mask, current).found
            == AllFlags(Added(list, media, pair), true, asked, mask, current).found
            <==> !(EntryFor(list, asked) == EntryFor(list, media)
                   && PairMatches(pair, true, mask, current)
                   && forall p :: p in PairsFor(list, asked) ==> !PairMatches(p, true, mask, current))
  {
    AllFlagsExact(list, true, asked, mask, current);
    AllFlagsExact(Added(list, media, pair), true, asked, mask, current);
    AddedEntry(list, media, pair, asked);
    var pairs := PairsFor(list, asked);
    assert forall x :: x in [pair] + pairs <==> x == pair || x in pairs;
  }

  /** The drop can indeed hide a plugin: once "supports and requires DAO" is registered for a medium,
      registering "supports DAO, requires nothing" is dropped, and a session without DAO finds no pair. */
  lemma RedundantDropCanHide(media: Media)
    ensures var strict, lax := FlagPair({Dao}, {Dao}), FlagPair({Dao}, {});
            var before := [MediaFlags(media, [strict])];
            && !AllFlags(Registered(before, media, lax), true, media, BURN_FLAG_MASK, {}).found
            && AllFlags(Added(before, media, lax), true, media, BURN_FLAG_MASK, {}).found
  {
    var strict, lax := FlagPair({Dao}, {Dao}), FlagPair({Dao}, {});
    var before := [MediaFlags(media, [strict])];
    var pairs := PairsFor(before, media);
    assert pairs == [strict] && strict in pairs;
    assert PairMatches(lax, true, BURN_FLAG_MASK, {});
    assert Dao in strict.compulsory * BURN_FLAG_MASK && !PairMatches(strict, true, BURN_FLAG_MASK, {});
    RedundantDropHidesExactly(before, media, lax, media, BURN_FLAG_MASK, {});
    AllFlagsExact(before, true, media, BURN_FLAG_MASK, {});
  }
}
