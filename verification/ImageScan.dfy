/** The scan of rejilla_caps_image_new: it walks the caps list looking for image caps the request overlaps
    and splits those it only partly covers, re-sorting the list under its own cursor. */
module ImageScan {
  import opened Flags
  import opened Caps
  import opened Registration

  /** The request overlaps this caps. */
  predicate Touches(caps: Caps, io: IoFlags, format: set<ImageFormat>) {
    caps.typ.Image? && caps.io * io != {} && caps.typ.format * format != {}
  }

  /** It overlaps it, but the caps stands for more than was asked for. */
  predicate Partly(caps: Caps, io: IoFlags, format: set<ImageFormat>) {
    Touches(caps, io, format) && !(caps.typ.format <= format)
  }

  function PartlyTouched(nodes: map<nat, Caps>, io: IoFlags, format: set<ImageFormat>): set<nat> {
    set c | c in nodes && Partly(nodes[c], io, format)
  }

  predicate Covers(nodes: map<nat, Caps>, io: IoFlags, bit: ImageFormat) {
    exists c :: c in nodes && nodes[c].typ.Image? && nodes[c].io * io != {} && bit in nodes[c].typ.format
  }

  predicate ImagesOrdered(nodes: map<nat, Caps>, list: seq<nat>) {
    forall i, j :: 0 <= i < j < |list| && list[i] in nodes && list[j] in nodes
                   && nodes[list[i]].typ.Image? && nodes[list[j]].typ.Image?
                   ==> FormatNumber(nodes[list[i]].typ.format) <= FormatNumber(nodes[list[j]].typ.format)
  }

  /** Everything the returned caps stand for. */
  function FormatsOf(nodes: map<nat, Caps>, list: seq<nat>): set<ImageFormat> {
    if list == [] then {}
    else (if list[0] in nodes && nodes[list[0]].typ.Image? then nodes[list[0]].typ.format else {})
         + FormatsOf(nodes, list[1..])
  }

  lemma {:induction false} FormatsOfFrame(a: map<nat, Caps>, b: map<nat, Caps>, list: seq<nat>)
    requires forall c :: c in list ==> c in a && c in b && a[c].typ == b[c].typ
    ensures FormatsOf(a, list) == FormatsOf(b, list)
  {
    if list != [] {
      FormatsOfFrame(a, b, list[1..]);
    }
  }

  /** The caps is (part of) one that was there on entry. */
  predicate HasAncestor(entry: map<nat, Caps>, caps: Caps) {
    caps.typ.Image? ==>
      exists e :: e in entry && entry[e].typ.Image? && entry[e].io == caps.io && caps.typ.format <= entry[e].typ.format
  }

  predicate DescendsFrom(entry: map<nat, Caps>, nodes: map<nat, Caps>) {
    forall c {:trigger HasAncestor(entry, nodes[c])} :: c in nodes ==> HasAncestor(entry, nodes[c])
  }

  /** An entry caps is either accounted for or still ahead of the cursor, as it was. */
  predicate StillAhead(entry: map<nat, Caps>, nodes: map<nat, Caps>, ahead: seq<nat>, io: IoFlags,
                       remaining: set<ImageFormat>, e: nat)
    requires e in entry && entry[e].typ.Image?
  {
    || entry[e].io * io == {}
    || entry[e].typ.format * remaining == {}
    || (e in ahead && e in nodes && nodes[e].typ == entry[e].typ && nodes[e].io == entry[e].io)
  }

  predicate AllAhead(entry: map<nat, Caps>, nodes: map<nat, Caps>, ahead: seq<nat>, io: IoFlags,
                     remaining: set<ImageFormat>)
  {
    forall e {:trigger StillAhead(entry, nodes, ahead, io, remaining, e)} ::
      e in entry && entry[e].typ.Image? ==> StillAhead(entry, nodes, ahead, io, remaining, e)
  }

  /** What a split does to the types: src loses the common formats to the new caps. */
  predicate Retyped(nodes: map<nat, Caps>, nodes': map<nat, Caps>, src: nat, dest: nat, common: set<ImageFormat>) {
    && src in nodes && nodes[src].typ.Image? && dest !in nodes && nodes'.Keys == nodes.Keys + {dest}
    && nodes'[src].typ == Image(nodes[src].typ.format - common) && nodes'[src].io == nodes[src].io
    && nodes'[dest].typ == Image(common) && nodes'[dest].io == nodes[src].io
    && forall c :: c in nodes && c != src ==> nodes'[c].typ == nodes[c].typ && nodes'[c].io == nodes[c].io
  }

  /** After a split one caps fewer is partly touched. */
  lemma {:induction false} SplitTouchesFewer(nodes: map<nat, Caps>, nodes': map<nat, Caps>, src: nat, dest: nat,
                                             io: IoFlags, format: set<ImageFormat>)
    requires src in nodes && Partly(nodes[src], io, format)
    requires Retyped(nodes, nodes', src, dest, nodes[src].typ.format * format)
    ensures PartlyTouched(nodes', io, format) < PartlyTouched(nodes, io, format)
  {
    assert nodes'[src].typ.format * format == {};
    assert src in PartlyTouched(nodes, io, format) && src !in PartlyTouched(nodes', io, format);
  }

  lemma {:induction false} SplitDescends(entry: map<nat, Caps>, nodes: map<nat, Caps>, nodes': map<nat, Caps>,
                                         src: nat, dest: nat, common: set<ImageFormat>)
    requires DescendsFrom(entry, nodes) && Retyped(nodes, nodes', src, dest, common) && common <= nodes[src].typ.format
    ensures DescendsFrom(entry, nodes')
  {
    forall c | c in nodes' ensures HasAncestor(entry, nodes'[c]) {
      var was := if c == dest then src else c;
      assert HasAncestor(entry, nodes[was]);
    }
  }

  /** Re-sorting under the cursor loses nothing when the image caps were in order: the caps at the cursor gets
      a smaller format and moves forward, everything behind it stays behind it. */
  lemma {:induction false} SplitKeepsAhead(entry: map<nat, Caps>, nodes: map<nat, Caps>, list: seq<nat>, i: nat,
                                           nodes': map<nat, Caps>, list': seq<nat>, dest: nat,
                                           io: IoFlags, format: set<ImageFormat>, remaining: set<ImageFormat>)
    requires i < |list| && list[i] in nodes && Partly(nodes[list[i]], io, format)
    requires remaining <= format
    requires Retyped(nodes, nodes', list[i], dest, nodes[list[i]].typ.format * format)
    requires Distinct(list) && ImagesOrdered(nodes, list) && AllAhead(entry, nodes, list[i..], io, remaining)
    requires (forall c :: c in nodes' ==> c in list') && ImagesOrdered(nodes', list')
    ensures AllAhead(entry, nodes', list'[IndexOf(list', list[i]) + 1..], io,
                     remaining - nodes[list[i]].typ.format * format)
  {
    var src := list[i];
    var common := nodes[src].typ.format * format;
    var at := IndexOf(list', src);
    forall e | e in entry && entry[e].typ.Image?
      ensures StillAhead(entry, nodes', list'[at + 1..], io, remaining - common, e)
    {
      assert StillAhead(entry, nodes, list[i..], io, remaining, e);
      if entry[e].io * io != {} && entry[e].typ.format * remaining != {} {
        if e == src {
          assert entry[e].typ.format * (remaining - common) == {};
        } else {
          var k :| i <= k < |list| && list[k] == e;
          SmallerFormatSmallerNumber(nodes'[src].typ.format, nodes[src].typ.format);
          var m := IndexOf(list', e);
          assert m > at;
          assert list'[at + 1..][m - at - 1] == e;
        }
      }
    }
  }

  lemma {:induction false} PassKeepsAhead(entry: map<nat, Caps>, nodes: map<nat, Caps>, list: seq<nat>, i: nat,
                                          io: IoFlags, format: set<ImageFormat>, remaining: set<ImageFormat>)
    requires i < |list| && list[i] in nodes && remaining <= format
    requires AllAhead(entry, nodes, list[i..], io, remaining)
    ensures !Touches(nodes[list[i]], io, format) ==> AllAhead(entry, nodes, list[i + 1..], io, remaining)
    ensures Touches(nodes[list[i]], io, format) ==>
              AllAhead(entry, nodes, list[i + 1..], io, remaining - nodes[list[i]].typ.format * format)
  {
    assert list[i..] == [list[i]] + list[i + 1..];
    var caps := nodes[list[i]];
    var rest := if Touches(caps, io, format) then remaining - caps.typ.format * format else remaining;
    forall e | e in entry && entry[e].typ.Image?
      ensures StillAhead(entry, nodes, list[i + 1..], io, rest, e)
    {
      assert StillAhead(entry, nodes, list[i..], io, remaining, e);
    }
  }

  /** What the scan knows about what it has taken so far. */
  ghost predicate Taken(entry: map<nat, Caps>, nodes: map<nat, Caps>, io: IoFlags, format: set<ImageFormat>,
                        remaining: set<ImageFormat>, retval: seq<nat>)
  {
    && remaining <= format
    && (forall bit :: bit in format - remaining ==> Covers(entry, io, bit))
    && (forall r :: r in retval ==> r in nodes && Touches(nodes[r], io, format) && nodes[r].typ.format <= format)
    && FormatsOf(nodes, retval) == format - remaining
  }

  lemma {:induction false} TakeOne(entry: map<nat, Caps>, nodes: map<nat, Caps>, io: IoFlags, format: set<ImageFormat>,
                                   remaining: set<ImageFormat>, retval: seq<nat>, c: nat)
    requires DescendsFrom(entry, nodes) && Taken(entry, nodes, io, format, remaining, retval)
    requires c in nodes && Touches(nodes[c], io, format) && nodes[c].typ.format <= format
    ensures Taken(entry, nodes, io, format, remaining - nodes[c].typ.format, [c] + retval)
  {
    assert ([c] + retval)[1..] == retval;
    assert HasAncestor(entry, nodes[c]);
  }

  lemma {:induction false} SplitKeepsTaken(entry: map<nat, Caps>, nodes: map<nat, Caps>, nodes': map<nat, Caps>,
                                           src: nat, dest: nat, io: IoFlags, format: set<ImageFormat>,
                                           remaining: set<ImageFormat>, retval: seq<nat>)
    requires Taken(entry, nodes, io, format, remaining, retval)
    requires src in nodes && Partly(nodes[src], io, format)
    requires Retyped(nodes, nodes', src, dest, nodes[src].typ.format * format)
    ensures Taken(entry, nodes', io, format, remaining, retval)
  {
    FormatsOfFrame(nodes, nodes', retval);
  }

  lemma {:induction false} SplitRetypes(st: State, src: nat, dest: nat, common: set<ImageFormat>)
    requires src in st.nodes && dest !in st.nodes && st.nodes[src].typ.Image?
    ensures var caps := st.nodes[src];
            Retyped(st.nodes, Split(st, src, dest, caps.(typ := Image(caps.typ.format - common)),
                                    caps.(typ := Image(common))).nodes, src, dest, common)
  {
  }

  lemma {:induction false} SplitMeans(st: State, src: nat, dest: nat, common: set<ImageFormat>)
    requires src in st.nodes && dest !in st.nodes && st.nodes[src].typ.Image? && common <= st.nodes[src].typ.format
    requires Closed(st) && NoSelfLinks(st)
    ensures var caps := st.nodes[src];
            var after := Split(st, src, dest, caps.(typ := Image(caps.typ.format - common)),
                               caps.(typ := Image(common)));
            NoSelfLinks(after) && SameMeaning(st, after)
  {
    var caps := st.nodes[src];
    var kept, given := caps.(typ := Image(caps.typ.format - common)), caps.(typ := Image(common));
    FormatSplitIsPartition(caps, common);
    SplitKeepsEdges(st, src, dest, kept, given);
    SplitKeepsTests(st, src, dest, kept, given);
    SplitKeepsModifiers(st, src, dest, kept, given);
    SplitAddsNoSelfLink(st, src, dest, kept, given);
  }

  lemma {:induction false} MeaningIsTransitive(a: State, b: State, c: State)
    requires SameMeaning(a, b) && SameMeaning(b, c)
    ensures SameMeaning(a, c)
  {
  }

  /** The loop state: entry is the registry as it was, list and i the list and the cursor. */
  ghost predicate Scanning(entry: State, ordered: bool, st: State, list: seq<nat>, i: nat, io: IoFlags,
                           format: set<ImageFormat>, remaining: set<ImageFormat>, retval: seq<nat>)
  {
    && i <= |list|
    && (NoSelfLinks(entry) ==> NoSelfLinks(st) && SameMeaning(entry, st))
    && DescendsFrom(entry.nodes, st.nodes)
    && Taken(entry.nodes, st.nodes, io, format, remaining, retval)
    && (ordered ==> ImagesOrdered(st.nodes, list) && AllAhead(entry.nodes, st.nodes, list[i..], io, remaining))
  }

  lemma {:induction false} ScanStarts(st: State, list: seq<nat>, io: IoFlags, format: set<ImageFormat>)
    requires forall c :: c in st.nodes ==> c in list
    ensures Scanning(st, ImagesOrdered(st.nodes, list), st, list, 0, io, format, format, [])
  {
    assert list[0..] == list;
    forall e | e in st.nodes && st.nodes[e].typ.Image?
      ensures StillAhead(st.nodes, st.nodes, list[0..], io, format, e)
    {
    }
  }

  lemma {:induction false} ScanPasses(entry: State, ordered: bool, st: State, list: seq<nat>, i: nat, io: IoFlags,
                                      format: set<ImageFormat>, remaining: set<ImageFormat>, retval: seq<nat>)
    requires Scanning(entry, ordered, st, list, i, io, format, remaining, retval)
    requires i < |list| && list[i] in st.nodes && !Touches(st.nodes[list[i]], io, format)
    ensures Scanning(entry, ordered, st, list, i + 1, io, format, remaining, retval)
  {
    if ordered {
      PassKeepsAhead(entry.nodes, st.nodes, list, i, io, format, remaining);
    }
  }

  lemma {:induction false} ScanTakes(entry: State, ordered: bool, st: State, list: seq<nat>, i: nat, io: IoFlags,
                                     format: set<ImageFormat>, remaining: set<ImageFormat>, retval: seq<nat>)
    requires Scanning(entry, ordered, st, list, i, io, format, remaining, retval)
    requires i < |list| && list[i] in st.nodes && Touches(st.nodes[list[i]], io, format)
    requires st.nodes[list[i]].typ.format <= format
    ensures Scanning(entry, ordered, st, list, i + 1, io, format, remaining - st.nodes[list[i]].typ.format * format,
                     [list[i]] + retval)
  {
    var caps := st.nodes[list[i]];
    assert caps.typ.format * format == caps.typ.format;
    TakeOne(entry.nodes, st.nodes, io, format, remaining, retval, list[i]);
    if ordered {
      PassKeepsAhead(entry.nodes, st.nodes, list, i, io, format, remaining);
    }
  }

  lemma {:induction false} ScanEnds(entry: State, st: State, list: seq<nat>, io: IoFlags,
                                    format: set<ImageFormat>, remaining: set<ImageFormat>, retval: seq<nat>)
    requires Scanning(entry, true, st, list, |list|, io, format, remaining, retval)
    ensures forall bit :: bit in format ==> (bit in remaining <==> !Covers(entry.nodes, io, bit))
  {
    forall bit | bit in remaining ensures !Covers(entry.nodes, io, bit) {
      forall e | e in entry.nodes && entry.nodes[e].typ.Image? && entry.nodes[e].io * io != {}
        ensures bit !in entry.nodes[e].typ.format
      {
        assert StillAhead(entry.nodes, st.nodes, list[|list|..], io, remaining, e);
        assert bit !in entry.nodes[e].typ.format * remaining;
      }
    }
  }

  lemma {:induction false} ScanConcludes(entry: State, ordered: bool, st: State, list: seq<nat>, io: IoFlags,
                                         format: set<ImageFormat>, remaining: set<ImageFormat>, retval: seq<nat>)
    requires Scanning(entry, ordered, st, list, |list|, io, format, remaining, retval)
    ensures NoSelfLinks(entry) ==> NoSelfLinks(st) && SameMeaning(entry, st)
    ensures Taken(entry.nodes, st.nodes, io, format, remaining, retval)
    ensures ordered ==> ImagesOrdered(st.nodes, list)
    ensures ordered ==> forall bit :: bit in format ==> (bit in remaining <==> !Covers(entry.nodes, io, bit))
  {
    if ordered {
      ScanEnds(entry, st, list, io, format, remaining, retval);
    }
  }

  lemma {:induction false} ScanSplits(entry: State, ordered: bool, st: State, list: seq<nat>, i: nat, after: State,
                                      list': seq<nat>, dest: nat, io: IoFlags, format: set<ImageFormat>,
                                      remaining: set<ImageFormat>, retval: seq<nat>)
    requires Scanning(entry, ordered, st, list, i, io, format, remaining, retval) && Closed(st)
    requires i < |list| && list[i] in st.nodes && Partly(st.nodes[list[i]], io, format) && dest !in st.nodes
    requires var caps, common := st.nodes[list[i]], st.nodes[list[i]].typ.format * format;
             after == Split(st, list[i], dest, caps.(typ := Image(caps.typ.format - common)),
                            caps.(typ := Image(common)))
    requires Distinct(list) && (forall c :: c in after.nodes ==> c in list') && ImagesOrdered(after.nodes, list')
    ensures list[i] in list'
    ensures Scanning(entry, ordered, after, list', IndexOf(list', list[i]) + 1, io, format,
                     remaining - st.nodes[list[i]].typ.format * format, [dest] + retval)
    ensures PartlyTouched(after.nodes, io, format) < PartlyTouched(st.nodes, io, format)
  {
    var src, common := list[i], st.nodes[list[i]].typ.format * format;
    SplitRetypes(st, src, dest, common);
    if NoSelfLinks(entry) {
      SplitMeans(st, src, dest, common);
      MeaningIsTransitive(entry, st, after);
    }
    SplitDescends(entry.nodes, st.nodes, after.nodes, src, dest, common);
    SplitTouchesFewer(st.nodes, after.nodes, src, dest, io, format);
    SplitKeepsTaken(entry.nodes, st.nodes, after.nodes, src, dest, io, format, remaining, retval);
    TakeOne(entry.nodes, after.nodes, io, format, remaining, retval, dest);
    if ordered {
      SplitKeepsAhead(entry.nodes, st.nodes, list, i, after.nodes, list', dest, io, format, remaining);
    }
  }

  lemma {:induction false} ListOrderOrdersImages(rank: TrackType -> int, nodes: map<nat, Caps>, list: seq<nat>)
    requires Named(list, nodes) && Ordered(rank, nodes, list)
    ensures ImagesOrdered(nodes, list)
  {
  }

  /** One split: the part asked for is taken, and the cursor moves on from wherever its caps now sits. */
  method SplitAtCursor(reg: BurnCaps, i: nat, io: IoFlags, format: set<ImageFormat>, ghost entry: State,
                       ghost ordered: bool, retval: seq<nat>, remaining: set<ImageFormat>)
    returns (next: nat, taken: seq<nat>, rest: set<ImageFormat>)
    requires reg.Valid() && i < |reg.capsList| && Partly(reg.nodes[reg.capsList[i]], io, format)
    requires Scanning(entry, ordered, reg.St(), reg.capsList, i, io, format, remaining, retval)
    modifies reg
    ensures reg.Valid()
    ensures Scanning(entry, ordered, reg.St(), reg.capsList, next, io, format, rest, taken)
    ensures PartlyTouched(reg.nodes, io, format) < PartlyTouched(old(reg.nodes), io, format)
  {
    ghost var st, list := reg.St(), reg.capsList;
    var src := reg.capsList[i];
    var common := reg.nodes[src].typ.format * format;
    var dest := reg.SplitFormat(src, common);
    next, taken, rest := IndexOf(reg.capsList, src) + 1, [dest] + retval, remaining - common;
    ListOrderOrdersImages(reg.rank, reg.nodes, reg.capsList);
    ScanSplits(entry, ordered, st, list, i, reg.St(), reg.capsList, dest, io, format, remaining, retval);
  }

  /** One turn of the loop: either a caps fewer is partly touched, or the list is as it was and the cursor moves. */
  method ScanTurn(reg: BurnCaps, i: nat, io: IoFlags, format: set<ImageFormat>, ghost entry: State,
                  ghost ordered: bool, retval: seq<nat>, remaining: set<ImageFormat>)
    returns (next: nat, taken: seq<nat>, rest: set<ImageFormat>)
    requires reg.Valid() && i < |reg.capsList|
    requires Scanning(entry, ordered, reg.St(), reg.capsList, i, io, format, remaining, retval)
    modifies reg
    ensures reg.Valid()
    ensures Scanning(entry, ordered, reg.St(), reg.capsList, next, io, format, rest, taken)
    ensures PartlyTouched(reg.nodes, io, format) < PartlyTouched(old(reg.nodes), io, format)
            || (reg.nodes == old(reg.nodes) && reg.capsList == old(reg.capsList) && next == i + 1)
  {
    var c := reg.capsList[i];
    var caps := reg.nodes[c];
    if !caps.typ.Image? || caps.io * io == {} || caps.typ.format * format == {} {
      ScanPasses(entry, ordered, reg.St(), reg.capsList, i, io, format, remaining, retval);
      return i + 1, retval, remaining;
    }
    var common := caps.typ.format * format;
    if common != caps.typ.format {
      next, taken, rest := SplitAtCursor(reg, i, io, format, entry, ordered, retval, remaining);
    } else {
      ScanTakes(entry, ordered, reg.St(), reg.capsList, i, io, format, remaining, retval);
      next, taken, rest := i + 1, [c] + retval, remaining - common;
    }
  }

  /** The loop of rejilla_caps_image_new. It ends although the list moves under the cursor; splitting never
      changes what the graph means as long as no caps links to itself; the caps it returns stand together for
      exactly what it took off the request; and if the image caps were in order on entry, what remains is
      exactly what none of them covered. */
  method ScanImages(reg: BurnCaps, io: IoFlags, format: set<ImageFormat>)
    returns (retval: seq<nat>, remaining: set<ImageFormat>)
    requires reg.Valid()
    modifies reg
    ensures reg.Valid()
    ensures NoSelfLinks(old(reg.St())) ==> NoSelfLinks(reg.St()) && SameMeaning(old(reg.St()), reg.St())
    ensures Taken(old(reg.nodes), reg.nodes, io, format, remaining, retval)
    ensures ImagesOrdered(old(reg.nodes), old(reg.capsList)) ==>
              && ImagesOrdered(reg.nodes, reg.capsList)
              && forall bit :: bit in format ==> (bit in remaining <==> !Covers(old(reg.nodes), io, bit))
  {
    ghost var entry, ordered := reg.St(), ImagesOrdered(reg.nodes, reg.capsList);
    remaining, retval := format, [];
    var i := 0;
    ScanStarts(entry, reg.capsList, io, format);
    while i < |reg.capsList|
      invariant 0 <= i && reg.Valid()
      invariant Scanning(entry, ordered, reg.St(), reg.capsList, i, io, format, remaining, retval)
      decreases PartlyTouched(reg.nodes, io, format), |reg.capsList| - i
    {
      i, retval, remaining := ScanTurn(reg, i, io, format, entry, ordered, retval, remaining);
    }
    ScanConcludes(entry, ordered, reg.St(), reg.capsList, io, format, remaining, retval);
  }
}
