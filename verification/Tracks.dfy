/** The tracks of a session, and the cursor with which a task goes through them (burn-task-ctx.c,
    rejilla-session.c). */
module Tracks {
  import opened Flags
  import opened NewTask

  /** Two tracks are the same when they are the same object; `id` is that identity. */
  datatype Track = Track(id: int, isStream: bool)

  predicate Distinct(tracks: seq<Track>) {
    forall i, j :: 0 <= i < j < |tracks| ==> tracks[i] != tracks[j]
  }

  // ----- the session's list -----

  /** What adding a track makes of the list: nothing twice, and several tracks only if they are streams. */
  function Added(tracks: seq<Track>, t: Track): seq<Track> {
    if t in tracks then tracks
    else if tracks == [] || !t.isStream || !tracks[0].isStream then [t]
    else tracks + [t]
  }

  function AddedAll(ts: seq<Track>): seq<Track> {
    if ts == [] then [] else Added(AddedAll(ts[..|ts| - 1]), ts[|ts| - 1])
  }

  lemma {:induction false} AddedAllOrLess(ts: seq<Track>)
    ensures |AddedAll(ts)| <= |ts| && (|AddedAll(ts)| == |ts| ==> AddedAll(ts) == ts)
  {
    if ts != [] {
      AddedAllOrLess(ts[..|ts| - 1]);
      assert ts == ts[..|ts| - 1] + [ts[|ts| - 1]];
    }
  }

  predicate AllStreams(ts: seq<Track>) {
    forall t :: t in ts ==> t.isStream
  }

  lemma {:induction false} DistinctWith(init: seq<Track>, last: Track)
    ensures Distinct(init + [last]) <==> Distinct(init) && last !in init
  {
    assert forall i :: 0 <= i < |init| ==> (init + [last])[i] == init[i];
    assert (init + [last])[|init|] == last;
  }

  predicate Arrive(ts: seq<Track>) {
    Distinct(ts) && (|ts| <= 1 || AllStreams(ts))
  }

  lemma {:induction false} ArriveWith(init: seq<Track>, last: Track)
    ensures Arrive(init + [last]) <==> Arrive(init) && Added(init, last) == init + [last]
  {
    DistinctWith(init, last);
    assert AllStreams(init + [last]) <==> AllStreams(init) && last.isStream;
    assert |init| == 1 ==> init == [init[0]];
  }

  /** The tracks handed over one by one all arrive, in order, exactly when none comes twice and, if there are
      several, all are streams. */
  lemma {:induction false} AllArriveIff(ts: seq<Track>)
    ensures AddedAll(ts) == ts <==> Distinct(ts) && (|ts| <= 1 || AllStreams(ts))
  {
    if ts != [] {
      var init, last := ts[..|ts| - 1], ts[|ts| - 1];
      assert ts == init + [last];
      AllArriveIff(init);
      AddedAllOrLess(init);
      ArriveWith(init, last);
      if AddedAll(init) != init {
        assert |AddedAll(ts)| <= |AddedAll(init)| + 1 < |ts|;
      }
    }
  }

  class Session {
    var tracks: seq<Track>
    var pile: seq<seq<Track>>

    constructor (tracks: seq<Track>)
      ensures this.tracks == tracks && pile == []
    {
      this.tracks, pile := tracks, [];
    }

    method PushTracks()
      modifies this
      ensures tracks == [] && pile == [old(tracks)] + old(pile)
    {
      pile := [tracks] + pile;
      tracks := [];
    }

    /** What was pushed comes back. */
    method PopTracks() returns (result: BurnResult)
      modifies this
      ensures old(pile) == [] ==> result == BurnOk && tracks == old(tracks) && pile == []
      ensures old(pile) != [] ==> result == Retry && [tracks] + pile == old(pile)
    {
      if pile == [] {
        return BurnOk;
      }
      tracks := pile[0];
      pile := pile[1..];
      return Retry;
    }

    /** rejilla_burn_session_add_track without a sibling. */
    method AddTrack(t: Track)
      modifies this
      ensures tracks == Added(old(tracks), t) && pile == old(pile)
    {
      if t in tracks {
        return;
      }
      if tracks == [] {
        tracks := [t];
        return;
      }
      if !t.isStream || !tracks[0].isStream {
        tracks := [];
      }
      tracks := tracks + [t];
    }
  }

  // ----- the cursor -----

  /** g_slist_find: the first place of a track. */
  function Find(tracks: seq<Track>, t: Track): (r: Option<nat>)
    ensures r.Some? ==> r.value < |tracks| && tracks[r.value] == t && t !in tracks[..r.value]
    ensures r.None? ==> t !in tracks
  {
    if tracks == [] then None
    else if tracks[0] == t then Some(0)
    else
      var rest := Find(tracks[1..], t);
      if rest.None? then None
      else
        assert tracks[..rest.value + 1] == [tracks[0]] + tracks[1..][..rest.value];
        Some(rest.value + 1)
  }

  /** The track after the current one. */
  function Next(tracks: seq<Track>, current: Option<Track>): (r: Option<Track>)
    ensures r.Some? ==> r.value in tracks
  {
    if current.None? then None
    else
      var at := Find(tracks, current.value);
      if at.None? || at.value + 1 == |tracks| then None else Some(tracks[at.value + 1])
  }

  /** Where the cursor stands after n moves from the first track; nowhere once it could not move. */
  function Walk(tracks: seq<Track>, n: nat): Option<Track> {
    if n == 0 then if tracks == [] then None else Some(tracks[0])
    else Next(tracks, Walk(tracks, n - 1))
  }

  /** Distinct tracks are visited in list order, each once. */
  lemma {:induction false} WalkInListOrder(tracks: seq<Track>, n: nat)
    requires Distinct(tracks)
    ensures Walk(tracks, n) == if n < |tracks| then Some(tracks[n]) else None
  {
    if n > 0 {
      WalkInListOrder(tracks, n - 1);
      if n - 1 < |tracks| {
        var at := Find(tracks, tracks[n - 1]);
      }
    }
  }

  lemma {:induction false} WalkStaysEnded(tracks: seq<Track>, m: nat, n: nat)
    requires m <= n && Walk(tracks, m).None?
    ensures Walk(tracks, n).None?
  {
    if m < n {
      WalkStaysEnded(tracks, m, n - 1);
    }
  }

  lemma {:induction false} FoundThere(tracks: seq<Track>, k: nat, j: nat)
    requires k < j <= |tracks| && Distinct(tracks[..j])
    ensures Find(tracks, tracks[k]) == Some(k)
  {
    var at := Find(tracks, tracks[k]).value;
    assert forall m :: 0 <= m < at ==> tracks[..at][m] == tracks[m];
    assert at <= k;
    assert tracks[..j][at] == tracks[..j][k];
  }

  /** Up to the second copy of a track, the walk goes in list order; from there it goes round for ever. */
  lemma {:induction false} WalkGoesRound(tracks: seq<Track>, i: nat, j: nat, n: nat)
    requires i < j < |tracks| && tracks[i] == tracks[j] && Distinct(tracks[..j])
    ensures exists k :: 0 <= k < j && Walk(tracks, n) == Some(tracks[k])
    ensures n < j ==> Walk(tracks, n) == Some(tracks[n])
  {
    if n > 0 {
      WalkGoesRound(tracks, i, j, n - 1);
      var k :| 0 <= k < j && Walk(tracks, n - 1) == Some(tracks[k]) && (n <= j ==> k == n - 1);
      FoundThere(tracks, k, j);
      assert Walk(tracks, n) == Some(tracks[k + 1]);
      if k + 1 == j {
        assert tracks[k + 1] == tracks[i];
      }
    }
  }

  lemma {:induction false} FirstCopy(tracks: seq<Track>) returns (i: nat, j: nat)
    requires !Distinct(tracks)
    ensures i < j < |tracks| && tracks[i] == tracks[j] && Distinct(tracks[..j])
  {
    i, j :| 0 <= i < j < |tracks| && tracks[i] == tracks[j];
    while !Distinct(tracks[..j])
      invariant i < j < |tracks| && tracks[i] == tracks[j]
      decreases j
    {
      var a, b :| 0 <= a < b < |tracks[..j]| && tracks[..j][a] == tracks[..j][b];
      i, j := a, b;
    }
  }

  /** Going through the tracks comes to an end exactly when no track is in the list twice. */
  lemma {:induction false} WalkEndsIff(tracks: seq<Track>)
    ensures (exists n: nat :: Walk(tracks, n).None?) <==> Distinct(tracks)
  {
    if Distinct(tracks) {
      WalkInListOrder(tracks, |tracks|);
    } else {
      var i, j := FirstCopy(tracks);
      forall n: nat ensures Walk(tracks, n).Some? {
        WalkGoesRound(tracks, i, j, n);
      }
    }
  }

  /** One sweep of rejilla_task_start: what it returned, and how many times a job asked for the next track. */
  datatype SweepAnswer = SweepAnswer(result: BurnResult, tracksDone: nat)

  class TaskCtx {
    const session: Session
    const action: TaskAction
    var current: Option<Track>
    var stored: seq<Track>
    var trackBytes: int
    var sessionBytes: int
    var lastWritten: int
    var progress: real

    constructor (session: Session, action: TaskAction)
      ensures this.session == session && this.action == action && current.None? && stored == []
    {
      this.session, this.action := session, action;
      current, stored := None, [];
      trackBytes, sessionBytes, lastWritten, progress := 0, 0, 0, 0.0;
    }

    /** Without tracks the cursor stays where it was. */
    method Reset()
      modifies this
      ensures stored == []
      ensures session.tracks != [] ==> current == Walk(session.tracks, 0)
      ensures session.tracks == [] ==> current == old(current)
      ensures trackBytes == -1 && sessionBytes == -1 && lastWritten == 0 && progress == -1.0
    {
      stored := [];
      if session.tracks != [] {
        current := Some(session.tracks[0]);
      }
      progress, trackBytes, sessionBytes, lastWritten := -1.0, -1, -1, 0;
    }

    /** The newest track is kept first. */
    method AddTrack(t: Track)
      modifies this`stored
      ensures stored == [t] + old(stored)
    {
      stored := [t] + stored;
    }

    /** Moves on to the next track, if the task goes through tracks and there is one. The number of bytes
        written so far does not change. */
    method SetNextTrack() returns (result: BurnResult)
      modifies this
      ensures stored == old(stored)
      ensures result == Retry <==>
                action in {ActionNormal, ActionChecksum} && Next(session.tracks, old(current)).Some?
      ensures result == Retry ==> current == Next(session.tracks, old(current))
      ensures result == Retry ==> trackBytes == 0 && lastWritten == 0 && progress == 0.0
      ensures result != Retry ==> result == BurnOk && current == old(current) && trackBytes == old(trackBytes)
                                  && lastWritten == old(lastWritten) && progress == old(progress)
      ensures sessionBytes + trackBytes == old(sessionBytes) + old(trackBytes)
    {
      if action != ActionNormal && action != ActionChecksum {
        return BurnOk;
      }
      var node := if current.None? then None else Find(session.tracks, current.value);
      if node.None? || node.value + 1 == |session.tracks| {
        return BurnOk;
      }
      sessionBytes := sessionBytes + trackBytes;
      trackBytes, lastWritten, progress := 0, 0, 0.0;
      current := Some(session.tracks[node.value + 1]);
      return Retry;
    }

    /** rejilla_task_ctx_finished: the stored tracks replace the session's, oldest first; the session's own wait
        on the pile. */
    method Finished()
      modifies this`stored, session
      ensures stored == []
      ensures old(stored) == [] ==> session.tracks == old(session.tracks) && session.pile == old(session.pile)
      ensures old(stored) != [] ==> session.tracks == AddedAll(Backwards(old(stored)))
                                    && session.pile == [old(session.tracks)] + old(session.pile)
    {
      if stored != [] {
        session.PushTracks();
        var all := ReverseList(stored);
        var i := 0;
        while i < |all|
          invariant i <= |all| && session.tracks == AddedAll(all[..i])
          invariant session.pile == [old(session.tracks)] + old(session.pile)
        {
          assert all[..i + 1][..i] == all[..i];
          session.AddTrack(all[i]);
          i := i + 1;
        }
        assert all[..i] == all;
        stored := [];
      }
    }

    /** Lets the jobs ask for the next track as often as they do during one sweep. */
    method Advance(times: nat, seen: seq<Track>) returns (visited: seq<Track>)
      requires Distinct(session.tracks) && seen <= session.tracks
      requires if seen == [] then session.tracks == [] else current == Some(seen[|seen| - 1])
      modifies this
      ensures seen <= visited <= session.tracks && stored == old(stored)
      ensures if visited == [] then session.tracks == [] else current == Some(visited[|visited| - 1])
      ensures |visited| == |seen| ==> current == old(current)
    {
      visited := seen;
      var n := 0;
      while n < times
        invariant seen <= visited <= session.tracks && stored == old(stored)
        invariant if visited == [] then session.tracks == [] else current == Some(visited[|visited| - 1])
        invariant |visited| == |seen| ==> current == old(current)
      {
        var result := SetNextTrack();
        if result == Retry {
          if visited != [] {
            WalkInListOrder(session.tracks, |visited| - 1);
            WalkInListOrder(session.tracks, |visited|);
          }
          visited := visited + [current.value];
        }
        n := n + 1;
      }
    }

    /** The loop of rejilla_task_start over skipped tracks; `sweeps` tells how each sweep of the jobs goes. With
        distinct tracks it ends, and the tracks are visited in list order, each at most once. */
    method GoThrough(sweeps: nat -> SweepAnswer) returns (result: BurnResult, visited: seq<Track>)
      requires Distinct(session.tracks)
      modifies this
      ensures visited <= session.tracks && result != NotRunning && (session.tracks != [] ==> visited != [])
      ensures visited != [] ==> current == Some(visited[|visited| - 1])
    {
      Reset();
      visited := session.tracks[..if session.tracks == [] then 0 else 1];
      var n := 0;
      visited := Advance(sweeps(n).tracksDone, visited);
      result := sweeps(n).result;
      while result == NotRunning
        invariant visited <= session.tracks && (session.tracks != [] ==> visited != [])
        invariant if visited == [] then session.tracks == [] else current == Some(visited[|visited| - 1])
        decreases |session.tracks| - |visited|, result == NotRunning
      {
        var before := visited;
        visited := Advance(1, visited);
        if visited == before {
          return BurnOk, visited;
        }
        n := n + 1;
        visited := Advance(sweeps(n).tracksDone, visited);
        result := sweeps(n).result;
      }
    }
  }

  function Backwards(s: seq<Track>): (r: seq<Track>)
    ensures |r| == |s| && forall i :: 0 <= i < |s| ==> r[i] == s[|s| - 1 - i]
  {
    if s == [] then [] else Backwards(s[1..]) + [s[0]]
  }

  /** g_slist_reverse. */
  method ReverseList(s: seq<Track>) returns (r: seq<Track>)
    ensures r == Backwards(s)
  {
    r := [];
    var i := 0;
    while i < |s|
      invariant i <= |s| && |r| == i && forall k :: 0 <= k < i ==> r[k] == s[i - 1 - k]
    {
      r := [s[i]] + r;
      i := i + 1;
    }
  }

  /** Prepending one track after the other and turning the list round at the end gives the order in which they
      were added. */
  lemma {:induction false} StoredComeOutInOrder(added: seq<Track>, t: Track)
    ensures Backwards(added + [t]) == [t] + Backwards(added)
    ensures Backwards(Backwards(added)) == added
  {
    var there, back := Backwards(added), Backwards(Backwards(added));
    forall i | 0 <= i < |added| ensures back[i] == added[i] {
      assert there[|added| - 1 - i] == added[i];
    }
    var longer := Backwards(added + [t]);
    forall i | 0 <= i < |longer| ensures longer[i] == ([t] + there)[i] {
      assert longer[i] == (added + [t])[|added| - i];
    }
  }
}
