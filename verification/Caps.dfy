/** The capability graph: track types, caps, and the links between them (burn-caps.c). */
module Caps {
  import opened Flags
  import opened Plugins

  datatype ImageFormat = Bin | Cue | Clone | Cdrdao

  datatype FsBit = Iso | Udf | Joliet | VideoFs | Symlink | IsoLevel3 | DeepDirectory

  datatype StreamBit =
    | AudioUndefined
    | AudioDts
    | AudioRaw
    | AudioAc3
    | AudioMp2
    | Audio44100
    | Audio48000
    | VideoUndefined
    | VideoVcd
    | VideoDvd
    | MetadataInfo
    | AudioRawLittleEndian

  const VIDEO_BITS: set<StreamBit> := {VideoUndefined, VideoVcd, VideoDvd}

  datatype TrackType =
    | NoTrack
    | Data(fs: set<FsBit>)
    | Image(format: set<ImageFormat>)
    | Stream(stream: set<StreamBit>)
    | Disc(media: Media)

  /** A link leads from the caps that owns it (the output) to the caps it takes as input; a blanking link
      leads nowhere. */
  datatype Link = Link(target: Option<nat>, plugins: seq<Plugin>)

  datatype Caps = Caps(links: seq<Link>, modifiers: seq<Plugin>, typ: TrackType, io: IoFlags)

  /** The caps list, in list order; links name caps by position. */
  type Graph = seq<Caps>

  predicate WellFormed(g: Graph) {
    forall c, k :: 0 <= c < |g| && 0 <= k < |g[c].links| && g[c].links[k].target.Some?
                   ==> g[c].links[k].target.value < |g|
  }

  predicate CompatibleType(have: TrackType, want: TrackType) {
    match want
    case NoTrack => have.NoTrack?
    case Data(fs) => have.Data? && fs <= have.fs
    case Image(format) => have.Image? && format != {} && format <= have.format
    case Stream(stream) =>
      && have.Stream?
      && (have.stream * VIDEO_BITS != {} ==> stream * VIDEO_BITS != {})
      && stream <= have.stream
    case Disc(media) => have.Disc? && media != {} && have.media == media
  }

  lemma SomeInBoth<T>(a: set<T>, b: set<T>)
    ensures a * b != {} <==> exists x :: x in a && x in b
  {
    if a * b != {} {
      var x :| x in a * b;
      assert x in a && x in b;
    }
    if x :| x in a && x in b {
      assert x in a * b;
    }
  }

  /** What is wanted is had: nothing wanted is missing, a disc is the very one, and a caps for video takes no stream
      without. */
  lemma CompatibleMeans(have: TrackType, want: TrackType)
    ensures want.Data? ==>
              (CompatibleType(have, want) <==> have.Data? && forall bit :: bit in want.fs ==> bit in have.fs)
    ensures want.Image? ==>
              (CompatibleType(have, want) <==>
                 have.Image? && want.format != {} && forall bit :: bit in want.format ==> bit in have.format)
    ensures want.Disc? ==> (CompatibleType(have, want) <==> have == want && want.media != {})
    ensures want.Stream? ==>
              (CompatibleType(have, want) <==>
                 && have.Stream? && (forall bit :: bit in want.stream ==> bit in have.stream)
                 && ((exists bit :: bit in have.stream && bit in VIDEO_BITS) ==>
                       exists bit :: bit in want.stream && bit in VIDEO_BITS))
  {
    if want.Stream? && have.Stream? {
      SomeInBoth(have.stream, VIDEO_BITS);
      SomeInBoth(want.stream, VIDEO_BITS);
    }
  }

  /** Being compatible is passed on, so whatever a caps takes, every caps that takes it takes as well. */
  lemma CompatibleTransitive(a: TrackType, b: TrackType, c: TrackType)
    requires CompatibleType(a, b) && CompatibleType(b, c)
    ensures CompatibleType(a, c)
  {
  }

  /** A chain for this output can end at caps c. */
  predicate EndsChain(g: Graph, c: nat, output: TrackType)
    requires c < |g|
  {
    CompatibleType(g[c].typ, output) && (g[c].typ.Disc? || File in g[c].io)
  }

  /** First caps in list order that can end a chain for this output; |g| when there is none. */
  method FindStartCaps(g: Graph, output: TrackType) returns (start: nat)
    ensures start == StartFor(g, output, 0)
  {
    start := 0;
    while start < |g|
      invariant start <= |g|
      invariant StartFor(g, output, start) == StartFor(g, output, 0)
    {
      if EndsChain(g, start, output) {
        return;
      }
      start := start + 1;
    }
  }

  function StartFor(g: Graph, output: TrackType, from: nat): (start: nat)
    requires from <= |g|
    ensures from <= start <= |g|
    ensures start < |g| ==> EndsChain(g, start, output)
    ensures forall c :: from <= c < start ==> !EndsChain(g, c, output)
    decreases |g| - from
  {
    if from == |g| || EndsChain(g, from, output) then from else StartFor(g, output, from + 1)
  }

  /** Where a chain ends: the first caps in the list that is compatible with the output and, unless it is a disc, takes
      files. */
  lemma {:induction false} StartForMeans(g: Graph, output: TrackType)
    ensures var start := StartFor(g, output, 0);
            && (start < |g| ==> CompatibleType(g[start].typ, output) && (g[start].typ.Disc? || File in g[start].io))
            && forall c :: 0 <= c < start && CompatibleType(g[c].typ, output) ==>
                 !g[c].typ.Disc? && File !in g[c].io
  {
    var start := StartFor(g, output, 0);
    forall c | 0 <= c < start && CompatibleType(g[c].typ, output) ensures !g[c].typ.Disc? && File !in g[c].io {
      assert !EndsChain(g, c, output);
    }
  }

  /** What the recorder's input type asks of the session flags (CUE and CDRDAO need DAO, CLONE needs RAW). */
  predicate RecorderInputOk(input: TrackType, flags: BurnFlags) {
    input.Image? ==>
      if input.format == {Cue} || input.format == {Cdrdao} then Dao in flags
      else if input.format == {Clone} then Raw in flags
      else true
  }

  predicate LinkIsActive(link: Link, ignoreErrors: bool) {
    exists p :: p in link.plugins && GetActive(p, ignoreErrors)
  }

  method LinkActive(link: Link, ignoreErrors: bool) returns (r: bool)
    ensures r == LinkIsActive(link, ignoreErrors)
  {
    var i := 0;
    while i < |link.plugins|
      invariant i <= |link.plugins|
      invariant forall k :: 0 <= k < i ==> !GetActive(link.plugins[k], ignoreErrors)
    {
      if GetActive(link.plugins[i], ignoreErrors) {
        return true;
      }
      i := i + 1;
    }
    return false;
  }

  /** The plugin whose missing parts must be fetched before the link works: none when some plugin already
      works, otherwise one of highest priority among those that only their errors hold back. */
  method LinkNeedDownload(link: Link) returns (r: Option<Plugin>)
    ensures r.None? <==> LinkIsActive(link, false) || !LinkIsActive(link, true)
    ensures r.Some? ==>
              && r.value in link.plugins && GetActive(r.value, true) && r.value.hasErrors
              && forall p :: p in link.plugins && GetActive(p, true) ==> p.priority <= r.value.priority
  {
    r := None;
    var i := 0;
    while i < |link.plugins|
      invariant i <= |link.plugins|
      invariant forall k :: 0 <= k < i ==> !GetActive(link.plugins[k], false)
      invariant r.None? ==> forall k :: 0 <= k < i ==> !GetActive(link.plugins[k], true)
      invariant r.Some? ==>
                  && r.value in link.plugins && GetActive(r.value, true) && r.value.hasErrors
                  && forall k :: 0 <= k < i && GetActive(link.plugins[k], true)
                                 ==> link.plugins[k].priority <= r.value.priority
    {
      var plugin := link.plugins[i];
      if GetActive(plugin, false) {
        return None;
      }
      if GetActive(plugin, true) {
        if r.None? || plugin.priority > r.value.priority {
          r := Some(plugin);
        }
      }
      i := i + 1;
    }
  }

  /** No processing plugin is switched on anywhere in the graph. */
  predicate NoActiveModifiers(g: Graph) {
    forall c, k :: 0 <= c < |g| && 0 <= k < |g[c].modifiers| ==> !GetActive(g[c].modifiers[k], false)
  }
}
