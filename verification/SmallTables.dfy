/** What plugins and links with a single entry answer, for the runs that are worked out. */
module SmallTables {
  import opened Flags
  import opened Plugins
  import GetFlags

  lemma {:induction false} OnePairAdds(pair: FlagPair, mask: BurnFlags)
    ensures UnionSupported([pair]) == pair.supported
    ensures pair.compulsory == {} ==> MeetCompulsory([pair], mask) == {}
  {
    assert [pair][..0] == [] && [pair][|[pair]| - 1] == pair;
    assert UnionSupported([pair]) == {} + pair.supported;
  }

  lemma {:induction false} OnePairMatches(pair: FlagPair, check: bool, mask: BurnFlags, current: BurnFlags)
    requires pair.compulsory == {}
    ensures Matching([pair], check, mask, current) == if current <= pair.supported then [pair] else []
  {
    assert [pair][..0] == [] && [pair][|[pair]| - 1] == pair;
    assert Matching([], check, mask, current) == [];
    assert [] + [pair] == [pair];
    assert PairMatches(pair, check, mask, current) <==> current <= pair.supported;
  }

  lemma {:induction false} OnePair(list: seq<MediaFlags>, check: bool, media: Media, mask: BurnFlags,
                                   current: BurnFlags, supported: BurnFlags)
    requires PairsFor(list, media) == [FlagPair(supported, {})]
    ensures AllFlags(list, check, media, mask, current) ==
              if current <= supported then FlagAnswer(true, supported, {}) else FlagAnswer(false, {}, {})
  {
    hide Matching, UnionSupported, MeetCompulsory, PairsFor;
    OnePairMatches(FlagPair(supported, {}), check, mask, current);
    OnePairAdds(FlagPair(supported, {}), mask);
  }

  /** What a link with one plugin answers. */
  lemma {:induction false} OnePlugin(p: Plugin, w: GetFlags.Walk)
    requires GetActive(p, w.ignoreErrors)
    ensures var a := GetRecordFlags(p, w.media, w.flags);
            GetFlags.RecordAnswer([p], w)
            == if a.found then GetFlags.LinkAnswer(a.supported, FLAG_ALL * a.compulsory)
               else GetFlags.LinkAnswer({}, FLAG_ALL)
    ensures GetFlags.DataAnswer([p], w) == GetImageFlags(p, w.media, w.flags).supported
  {
    hide GetRecordFlags, GetImageFlags;
    assert [p][..0] == [] && [p][|[p]| - 1] == p;
    assert GetFlags.RecordAnswer([], w) == GetFlags.LinkAnswer({}, FLAG_ALL) && GetFlags.DataAnswer([], w) == {};
    var a := GetRecordFlags(p, w.media, w.flags);
    assert {} + a.supported == a.supported;
  }
}
