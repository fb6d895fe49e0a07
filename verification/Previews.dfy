/**
  The client's preview against the relay's own starts: a turn of the preview clears one cell, while a
  start switches off every copy of the video in its DJ's queue, keeps the video out of the other
  queues while it plays, and lets the previous one back in.
 */
module Previews {
  import opened Wrappers
  import opened QueueTags
  import opened Playback
  import opened Drain
  import opened Replays
  import PlaybackRuns
  import RoundRobin
  import Credibility

  type Matrix = RoundRobin.Matrix

  /** Nothing but the active flags and the running track decides: no stale marks, nothing broken. */
  ghost predicate Calm(s: Club, inp: Input) {
    && (forall dj | dj in inp.djs ::
          Managed(s, dj) || forall t | t in Tracks(s, dj) && t.active :: !Stale(s, dj, t.videoID))
    && (forall v :: !Broken(s, v, inp.now))
  }

  /** On a calm stage the relay's cells are the ones the client sees: active and not the running track. */
  lemma CalmCell(s: Club, p: Play, inp: Input, dj: string, t: CondTrack)
    requires Calm(s, inp) && dj in inp.djs && t in Tracks(s, dj)
    ensures CellOpen(s, p, dj, t, inp) <==> Offered(p, t)
  {
    hide Tracks, Stale, Broken;
  }

  // ── what a start does to the queues ─────────────────────────────────────────

  /** The tracks after every copy of the video was switched off. */
  predicate SwitchedOff(ts: seq<CondTrack>, us: seq<CondTrack>, v: string) {
    |us| == |ts| && forall i | 0 <= i < |ts| ::
      us[i].videoID == ts[i].videoID && us[i].active == (ts[i].active && ts[i].videoID != v)
  }

  ghost predicate Untouched(s: Club, r: Club, d: string) {
    && (d in r.queues <==> d in s.queues) && (d in s.queues ==> r.queues[d] == s.queues[d])
    && (forall v :: PlayedAt(r, d, v) == PlayedAt(s, d, v))
  }

  lemma UntouchedMeans(s: Club, r: Club, d: string)
    requires Untouched(s, r, d)
    ensures Tracks(r, d) == Tracks(s, d) && (Managed(r, d) <==> Managed(s, d))
    ensures forall v :: Stale(r, d, v) <==> Stale(s, d, v)
  {
  }

  /** The club after a start whose patch falls into a later second than the DJ's queue. */
  ghost predicate StartedHere(s: Club, r: Club, inp: Input, dj: string, v: string) {
    && dj in r.queues && Managed(r, dj) && r.queues[dj].createdAt == inp.patchSecond
    && SwitchedOff(Tracks(s, dj), Tracks(r, dj), v)
    && (forall d | d in inp.djs && d != dj :: Untouched(s, r, d))
    && r.brokenVids == s.brokenVids
  }

  lemma PatchSwitchesOff(s: Club, club: string, dj: string, v: string, second: int)
    requires v in Ids(s, dj) && dj in s.queues && second > s.queues[dj].createdAt
    ensures var r := MarkedOff(s, club, dj, v, second);
            && dj in r.queues && Managed(r, dj) && r.queues[dj].createdAt == second
            && SwitchedOff(Tracks(s, dj), Tracks(r, dj), v)
            && r.brokenVids == s.brokenVids
            && (forall d | d != dj :: Untouched(s, r, d))
  {
    hide Parse, Patched, SwitchOff, AnyHit, AnyActive, SameButTitles;
    var tags := s.queues[dj].tags;
    PatchCommutes(club, dj, tags, v);
    if !AnyHit(tags, v) {
      NoHitNoChange(tags, v);
      SwitchOffIds(Parse(tags), v);
    }
    SwitchedBySeq(Parse(tags), Parse(Patched(club, dj, tags, v)), v);
  }

  lemma SwitchedBySeq(ts: seq<CondTrack>, us: seq<CondTrack>, v: string)
    requires SameButTitles(us, SwitchOff(ts, v))
    ensures SwitchedOff(ts, us, v)
  {
  }

  lemma NoResets(s: Club, p: Play, inp: Input)
    requires Calm(s, inp)
    ensures KeptMarks(s, p, inp) == s.played
  {
    hide Tracks, Stale, Broken;
  }

  /** A start on a calm stage. */
  lemma TurnStarts(s: Club, club: string, p: Play, inp: Input, outcome: Credibility.Outcome, i: nat, j: nat)
    requires Calm(s, inp) && Turn(s, p, inp, i, j)
    requires inp.djs[i] in s.queues ==> inp.patchSecond > s.queues[inp.djs[i]].createdAt
    ensures var e := Advance(s, club, p, inp, outcome);
            var dj := inp.djs[i];
            var q := Started(p, dj, Tracks(s, dj)[j], inp.now, false);
            e.starts == [StartOf(club, q)] && e.club.play == Some(q) && StartedHere(s, e.club, inp, dj, q.videoID)
  {
    hide Advance, MarkedOff, Calm, Parse, CellOpen;
    var dj := inp.djs[i];
    var t := Tracks(s, dj)[j];
    AdvanceTakes(s, club, p, inp, outcome, i, j);
    NoResets(s, p, inp);
    var marked := s.(played := WithMark(s.played, dj, t.videoID, inp.now));
    OpenIsActive(s, p, dj, t, inp);
    assert t in Tracks(s, dj) && t.videoID in Ids(s, dj);
    assert Tracks(marked, dj) == Tracks(s, dj);
    PatchSwitchesOff(marked, club, dj, t.videoID, inp.patchSecond);
    var r := MarkedOff(marked, club, dj, t.videoID, inp.patchSecond);
    var e := Advance(s, club, p, inp, outcome);
    forall d | d in inp.djs && d != dj ensures Untouched(s, e.club, d) {
      assert Untouched(marked, r, d);
      forall v ensures PlayedAt(e.club, d, v) == PlayedAt(s, d, v) {
        assert PlayedAt(r, d, v) == PlayedAt(marked, d, v);
      }
    }
  }

  lemma OpenIsActive(s: Club, p: Play, dj: string, t: CondTrack, inp: Input)
    requires CellOpen(s, p, dj, t, inp)
    ensures t.active && NotCurrent(p, t.videoID)
  {
    hide LoopResets;
  }

  // ── one turn of the preview ─────────────────────────────────────────────────

  predicate InRange(s: Club, djs: seq<string>, i: nat, j: nat) {
    i < |djs| && j < |Tracks(s, djs[i])|
  }

  predicate ActiveAt(s: Club, djs: seq<string>, i: nat, j: nat, v: string) {
    InRange(s, djs, i, j) && Tracks(s, djs[i])[j].active && Tracks(s, djs[i])[j].videoID == v
  }

  /** No queue offers another copy of the video that starts, or a copy of the one that makes way. */
  ghost predicate NoOtherCopy(s: Club, p: Play, djs: seq<string>, i: nat, j: nat)
    requires InRange(s, djs, i, j)
  {
    && (forall k: nat, l: nat | ActiveAt(s, djs, k, l, Tracks(s, djs[i])[j].videoID) :: k == i && l == j)
    && (p.playing ==> forall k: nat, l: nat :: !ActiveAt(s, djs, k, l, p.videoID))
  }

  predicate Distinct(djs: seq<string>) {
    forall a, b | 0 <= a < b < |djs| :: djs[a] != djs[b]
  }

  lemma CalmRow(s: Club, p: Play, inp: Input, k: nat)
    requires Calm(s, inp) && k < |inp.djs|
    ensures var m := MatrixOf(s, p, inp);
            && |m| == |inp.djs| && |m[k]| == |Tracks(s, inp.djs[k])|
            && forall l: nat | l < |m[k]| :: m[k][l] <==> Offered(p, Tracks(s, inp.djs[k])[l])
  {
    hide Tracks, CellOpen, Offered, Calm;
    var dj := inp.djs[k];
    assert MatrixOf(s, p, inp)[k] == RowOf(s, p, dj, inp);
    forall l: nat | l < |Tracks(s, dj)| ensures CellOpen(s, p, dj, Tracks(s, dj)[l], inp)
        <==> Offered(p, Tracks(s, dj)[l]) {
      CalmCell(s, p, inp, dj, Tracks(s, dj)[l]);
    }
  }

  // ── what the client sees ────────────────────────────────────────────────────

  function ClientTracks(s: Club, dj: string): seq<QueueTrack> {
    if dj in s.queues then ParseTracks(s.queues[dj].tags) else []
  }

  function ClientRow(s: Club, p: Play, dj: string): seq<bool> {
    var ts := ClientTracks(s, dj);
    seq(|ts|, j requires 0 <= j < |ts| => ts[j].active != Some(false) && ts[j].videoId != p.videoID)
  }

  /** The client's playable matrix: it leaves the last announced video out, playing or stopped. */
  function ClientMatrix(s: Club, p: Play, djs: seq<string>): Matrix {
    seq(|djs|, k requires 0 <= k < |djs| => ClientRow(s, p, djs[k]))
  }

  predicate ValidIds(s: Club, djs: seq<string>) {
    forall dj, t | dj in djs && t in Tracks(s, dj) :: IsValidVideoId(t.videoID)
  }

  lemma {:induction false} ClientParsesAlike(tags: seq<Tag>)
    requires forall t | t in Parse(tags) :: IsValidVideoId(t.videoID)
    ensures |ParseTracks(tags)| == |Parse(tags)|
    ensures forall j | 0 <= j < |Parse(tags)| ::
              && ParseTracks(tags)[j].videoId == Parse(tags)[j].videoID
              && (ParseTracks(tags)[j].active != Some(false)) == Parse(tags)[j].active
  {
    hide IsValidVideoId, IsVideoTag, TsTrack, Track;
    if tags != [] {
      var t, rest := tags[0], tags[1..];
      if IsVideoTag(t) {
        assert Parse(tags) == [Track(t)] + Parse(rest);
        assert Track(t) in Parse(tags) && forall x | x in Parse(rest) :: x in Parse(tags);
        TrackParsesAlike(t);
        assert ParseTracks(tags) == [TsTrack(t)] + ParseTracks(rest);
      }
      ClientParsesAlike(rest);
    }
  }

  lemma TrackParsesAlike(t: Tag)
    requires IsVideoTag(t)
    ensures TsTrack(t).videoId == Track(t).videoID == t[1][3..] && (TsTrack(t).active != Some(false)) == Track(t).active
  {
    hide IsOff;
  }

  lemma ClientCells(s: Club, p: Play, djs: seq<string>, k: nat)
    requires ValidIds(s, djs) && k < |djs|
    ensures var row, ts := ClientMatrix(s, p, djs)[k], Tracks(s, djs[k]);
            |row| == |ts| && forall l: nat | l < |ts| :: row[l] <==> ts[l].active && ts[l].videoID != p.videoID
  {
    hide Parse, ParseTracks, IsValidVideoId;
    if djs[k] in s.queues {
      assert forall t | t in Tracks(s, djs[k]) :: IsValidVideoId(t.videoID);
      ClientParsesAlike(s.queues[djs[k]].tags);
    }
  }

  /**
    The client and a calm relay see the same matrix exactly if the club is playing, or no queue still
    offers the video it stopped on: the client goes on hiding that one, the relay does not.
   */
  lemma ClientMatrixExact(s: Club, p: Play, inp: Input)
    requires Calm(s, inp) && ValidIds(s, inp.djs)
    ensures ClientMatrix(s, p, inp.djs) == MatrixOf(s, p, inp)
       <==> p.playing || forall k: nat, l: nat :: !ActiveAt(s, inp.djs, k, l, p.videoID)
  {
    hide Tracks, Calm, ValidIds, MatrixOf, ClientMatrix;
    var djs, c, m := inp.djs, ClientMatrix(s, p, inp.djs), MatrixOf(s, p, inp);
    ClientHeight(s, p, djs);
    forall k: nat | k < |djs|
      ensures |c[k]| == |m[k]| == |Tracks(s, djs[k])|
      ensures forall l: nat | l < |m[k]| :: (c[k][l] == m[k][l]) <==> p.playing || !ActiveAt(s, djs, k, l, p.videoID)
    {
      CalmRow(s, p, inp, k);
      ClientCells(s, p, djs, k);
    }
    forall k: nat | k < |djs|
      ensures c[k] == m[k] <==> p.playing || forall l: nat :: !ActiveAt(s, djs, k, l, p.videoID)
    {
      if c[k] == m[k] {
        forall l: nat ensures p.playing || !ActiveAt(s, djs, k, l, p.videoID) {
          if InRange(s, djs, k, l) { assert c[k][l] == m[k][l]; }
        }
      }
    }
    if c == m {
      forall k: nat, l: nat ensures p.playing || !ActiveAt(s, djs, k, l, p.videoID) {
        if k < |djs| { assert c[k] == m[k]; }
      }
    }
  }

  lemma ClientHeight(s: Club, p: Play, djs: seq<string>)
    ensures |ClientMatrix(s, p, djs)| == |djs|
  {
  }

  /** The tracks of a DJ after the start: the same ids, the started video switched off in its own queue. */
  lemma TracksAfter(s: Club, r: Club, inp: Input, i: nat, k: nat, v: string)
    requires Distinct(inp.djs) && i < |inp.djs| && k < |inp.djs| && StartedHere(s, r, inp, inp.djs[i], v)
    ensures var ts, us := Tracks(s, inp.djs[k]), Tracks(r, inp.djs[k]);
            |us| == |ts| && forall l: nat | l < |ts| ::
              us[l].videoID == ts[l].videoID && us[l].active == (ts[l].active && !(k == i && ts[l].videoID == v))
  {
    hide Tracks;
    if k != i {
      assert inp.djs[k] in inp.djs && inp.djs[k] != inp.djs[i];
      UntouchedMeans(s, r, inp.djs[k]);
    }
  }

  lemma NextMatrix(s: Club, r: Club, p: Play, q: Play, inp: Input, next: Input, i: nat, j: nat)
    requires Calm(s, inp) && Calm(r, next) && Distinct(inp.djs) && next.djs == inp.djs && Turn(s, p, inp, i, j)
    requires q.playing && q.videoID == Tracks(s, inp.djs[i])[j].videoID && StartedHere(s, r, inp, inp.djs[i], q.videoID)
    ensures RoundRobin.Playable(MatrixOf(s, p, inp), RoundRobin.Slot(i, j))
    ensures MatrixOf(r, q, next) == RoundRobin.Clear(MatrixOf(s, p, inp), RoundRobin.Slot(i, j))
       <==> NoOtherCopy(s, p, inp.djs, i, j)
  {
    hide Tracks, StartedHere, Calm, Turn, MatrixOf;
    TurnRange(s, p, inp, i, j);
    var djs, m, m2 := inp.djs, MatrixOf(s, p, inp), MatrixOf(r, q, next);
    CalmRow(s, p, inp, i);
    var c := RoundRobin.Clear(m, RoundRobin.Slot(i, j));
    forall k: nat | k < |djs|
      ensures |m2| == |c| == |djs| && |m2[k]| == |c[k]| == |Tracks(s, djs[k])|
      ensures forall l: nat | l < |c[k]| ::
                && (c[k][l] <==> Offered(p, Tracks(s, djs[k])[l]) && !(k == i && l == j))
                && (m2[k][l] <==> Tracks(s, djs[k])[l].active && Tracks(s, djs[k])[l].videoID != q.videoID)
    {
      CalmRow(s, p, inp, k);
      CalmRow(r, q, next, k);
      TracksAfter(s, r, inp, i, k, q.videoID);
      ClearedRow(m, i, j, k);
    }
    SameCells(s, p, q, djs, i, j, c, m2);
  }

  lemma ClearedRow(m: Matrix, i: nat, j: nat, k: nat)
    requires RoundRobin.Playable(m, RoundRobin.Slot(i, j)) && k < |m|
    ensures var c := RoundRobin.Clear(m, RoundRobin.Slot(i, j));
            |c| == |m| && |c[k]| == |m[k]| && forall l: nat | l < |m[k]| :: c[k][l] == (m[k][l] && !(k == i && l == j))
  {
  }

  lemma TurnRange(s: Club, p: Play, inp: Input, i: nat, j: nat)
    requires Turn(s, p, inp, i, j)
    ensures InRange(s, inp.djs, i, j)
    ensures Tracks(s, inp.djs[i])[j].active && NotCurrent(p, Tracks(s, inp.djs[i])[j].videoID)
    ensures RoundRobin.Playable(MatrixOf(s, p, inp), RoundRobin.Slot(i, j))
  {
    hide Tracks, CellOpen;
    OpenIsActive(s, p, inp.djs[i], Tracks(s, inp.djs[i])[j], inp);
    assert MatrixOf(s, p, inp)[i] == RowOf(s, p, inp.djs[i], inp);
  }

  lemma SameCells(s: Club, p: Play, q: Play, djs: seq<string>, i: nat, j: nat, c: Matrix, m2: Matrix)
    requires InRange(s, djs, i, j) && q.videoID == Tracks(s, djs[i])[j].videoID
    requires Tracks(s, djs[i])[j].active && NotCurrent(p, q.videoID)
    requires |m2| == |c| == |djs| && forall k: nat | k < |djs| :: |m2[k]| == |c[k]| == |Tracks(s, djs[k])|
    requires forall k: nat, l: nat | k < |djs| && l < |c[k]| ::
               && (c[k][l] <==> Offered(p, Tracks(s, djs[k])[l]) && !(k == i && l == j))
               && (m2[k][l] <==> Tracks(s, djs[k])[l].active && Tracks(s, djs[k])[l].videoID != q.videoID)
    ensures m2 == c <==> NoOtherCopy(s, p, djs, i, j)
  {
    hide Tracks;
    if m2 == c {
      forall k: nat, l: nat | ActiveAt(s, djs, k, l, q.videoID) ensures k == i && l == j {
        assert m2[k][l] == c[k][l];
      }
      forall k: nat, l: nat ensures p.playing ==> !ActiveAt(s, djs, k, l, p.videoID) {
        if InRange(s, djs, k, l) { assert m2[k][l] == c[k][l]; }
      }
    }
    if NoOtherCopy(s, p, djs, i, j) {
      forall k: nat | k < |djs| ensures m2[k] == c[k] {
        forall l: nat | l < |c[k]| ensures m2[k][l] == c[k][l] {
          var t := Tracks(s, djs[k])[l];
          assert ActiveAt(s, djs, k, l, q.videoID) <==> t.active && t.videoID == q.videoID;
          assert ActiveAt(s, djs, k, l, p.videoID) <==> t.active && t.videoID == p.videoID;
        }
      }
    }
  }

  // ── a whole preview ─────────────────────────────────────────────────────────

  /** The starts of repeated advances on one stage; the outcome of a track concerns only the ledger. */
  ghost function Turns(s: Club, club: string, p: Play, inps: seq<Input>): seq<Start>
    decreases |inps|
  {
    if inps == [] then []
    else
      PlaybackRuns.AdvanceKeepsLoaded(s, club, p, inps[0], Credibility.Discarded);
      var e := Advance(s, club, p, inps[0], Credibility.Discarded);
      e.starts + Turns(e.club, club, e.club.play.value, inps[1..])
  }

  /** Same stage throughout, every patch in a later second than the queues and the patches before it. */
  ghost predicate SameStage(s: Club, djs: seq<string>, inps: seq<Input>) {
    && (forall k | 0 <= k < |inps| :: inps[k].djs == djs)
    && (forall k, dj | 0 <= k < |inps| && dj in djs && dj in s.queues :: inps[k].patchSecond > s.queues[dj].createdAt)
    && (forall k, l | 0 <= k < l < |inps| :: inps[k].patchSecond < inps[l].patchSecond)
  }

  ghost predicate AllCalm(s: Club, inps: seq<Input>) {
    forall k | 0 <= k < |inps| :: Calm(s, inps[k])
  }

  /** No video is active twice on the stage, and the running one is active nowhere. */
  ghost predicate Unique(s: Club, p: Play, djs: seq<string>) {
    && (forall i: nat, j: nat, k: nat, l: nat, v |
          ActiveAt(s, djs, i, j, v) && ActiveAt(s, djs, k, l, v) :: i == k && j == l)
    && (p.playing ==> forall k: nat, l: nat :: !ActiveAt(s, djs, k, l, p.videoID))
  }

  ghost predicate Staged(s: Club, p: Play, djs: seq<string>, inps: seq<Input>) {
    Distinct(djs) && SameStage(s, djs, inps) && AllCalm(s, inps) && Unique(s, p, djs)
  }

  /** The starts are the previewed cells of these queues, one by one. */
  ghost predicate Matches(starts: seq<Start>, picks: seq<RoundRobin.Slot>, s: Club, djs: seq<string>) {
    && |starts| == |picks|
    && forall n | 0 <= n < |picks| ::
         && InRange(s, djs, picks[n].dj, picks[n].track)
         && starts[n].dj == djs[picks[n].dj]
         && starts[n].videoID == Tracks(s, djs[picks[n].dj])[picks[n].track].videoID
  }

  lemma CalmAfter(s: Club, r: Club, inp: Input, next: Input, i: nat, v: string)
    requires Calm(s, next) && next.djs == inp.djs && i < |inp.djs| && StartedHere(s, r, inp, inp.djs[i], v)
    ensures Calm(r, next)
  {
    hide Tracks, Stale;
    forall dj | dj in next.djs
      ensures Managed(r, dj) || forall t | t in Tracks(r, dj) && t.active :: !Stale(r, dj, t.videoID)
    {
      if dj != inp.djs[i] { UntouchedMeans(s, r, dj); }
    }
    forall x ensures !Broken(r, x, next.now) {
      assert !Broken(s, x, next.now);
    }
  }

  /**
    After a start, the relay's next matrix is the preview's, the old one with the taken cell cleared,
    exactly if no queue holds another active copy of the started video or one of the outgoing video.
   */
  lemma NextMatrixExact(s: Club, club: string, p: Play, inp: Input, next: Input, outcome: Credibility.Outcome, i: nat,
          j: nat)
    requires Calm(s, inp) && Calm(s, next) && Distinct(inp.djs) && next.djs == inp.djs && Turn(s, p, inp, i, j)
    requires inp.djs[i] in s.queues ==> inp.patchSecond > s.queues[inp.djs[i]].createdAt
    ensures RoundRobin.Playable(MatrixOf(s, p, inp), RoundRobin.Slot(i, j)) && InRange(s, inp.djs, i, j)
    ensures var r := Advance(s, club, p, inp, outcome).club;
            r.play.Some? &&
            (MatrixOf(r, r.play.value, next) == RoundRobin.Clear(MatrixOf(s, p, inp), RoundRobin.Slot(i, j))
             <==> NoOtherCopy(s, p, inp.djs, i, j))
  {
    hide Advance, Calm, MatrixOf, StartedHere, NoOtherCopy, Tracks;
    TurnRange(s, p, inp, i, j);
    TurnStarts(s, club, p, inp, outcome, i, j);
    var r := Advance(s, club, p, inp, outcome).club;
    CalmAfter(s, r, inp, next, i, r.play.value.videoID);
    NextMatrix(s, r, p, r.play.value, inp, next, i, j);
  }

  lemma UniqueAfter(s: Club, r: Club, p: Play, q: Play, inp: Input, i: nat, j: nat)
    requires Unique(s, p, inp.djs) && Distinct(inp.djs) && ActiveAt(s, inp.djs, i, j, q.videoID)
    requires StartedHere(s, r, inp, inp.djs[i], q.videoID)
    ensures Unique(r, q, inp.djs) && NoOtherCopy(s, p, inp.djs, i, j)
  {
    hide Tracks, StartedHere;
    var djs := inp.djs;
    forall k: nat, l: nat, x | ActiveAt(r, djs, k, l, x) ensures ActiveAt(s, djs, k, l, x) && x != q.videoID {
      TracksAfter(s, r, inp, i, k, q.videoID);
      assert x == q.videoID ==> ActiveAt(s, djs, k, l, x) && k != i;
    }
  }

  lemma SecondsAfter(s: Club, r: Club, djs: seq<string>, inps: seq<Input>, i: nat, v: string)
    requires SameStage(s, djs, inps) && inps != [] && i < |djs| && StartedHere(s, r, inps[0], djs[i], v)
    ensures SameStage(r, djs, inps[1..])
  {
    hide SwitchedOff;
    forall k, dj | 0 <= k < |inps[1..]| && dj in djs && dj in r.queues
      ensures inps[1..][k].patchSecond > r.queues[dj].createdAt
    {
      assert inps[1..][k] == inps[k + 1];
      if dj != djs[i] { assert Untouched(s, r, dj); }
    }
  }

  /** After a start the same stage is set for the rest. */
  lemma StagedAfter(s: Club, r: Club, p: Play, q: Play, djs: seq<string>, inps: seq<Input>, i: nat, j: nat)
    requires Staged(s, p, djs, inps) && inps != [] && ActiveAt(s, djs, i, j, q.videoID)
    requires StartedHere(s, r, inps[0], djs[i], q.videoID)
    ensures Staged(r, q, djs, inps[1..]) && NoOtherCopy(s, p, djs, i, j)
  {
    hide Tracks, StartedHere, Calm, Unique;
    UniqueAfter(s, r, p, q, inps[0], i, j);
    SecondsAfter(s, r, djs, inps, i, q.videoID);
    forall k | 0 <= k < |inps[1..]| ensures Calm(r, inps[1..][k]) {
      assert inps[1..][k] == inps[k + 1];
      CalmAfter(s, r, inps[0], inps[k + 1], i, q.videoID);
    }
  }

  lemma StagedStopped(s: Club, r: Club, p: Play, q: Play, djs: seq<string>, inps: seq<Input>)
    requires Staged(s, p, djs, inps) && inps != [] && !q.playing
    requires r.queues == s.queues && r.played == s.played && r.brokenVids == s.brokenVids
    ensures Staged(r, q, djs, inps[1..])
  {
    hide Parse;
    forall k | 0 <= k < |inps[1..]| ensures Calm(r, inps[1..][k]) {
      assert inps[1..][k] == inps[k + 1];
      SameCalm(s, r, inps[k + 1]);
    }
    forall i: nat, j: nat, v ensures ActiveAt(r, djs, i, j, v) <==> ActiveAt(s, djs, i, j, v) {
    }
  }

  lemma SameCalm(s: Club, r: Club, inp: Input)
    requires Calm(s, inp) && r.queues == s.queues && r.played == s.played && r.brokenVids == s.brokenVids
    ensures Calm(r, inp)
  {
    hide Parse;
    forall dj, v ensures Stale(r, dj, v) <==> Stale(s, dj, v) {
    }
    forall dj ensures Tracks(r, dj) == Tracks(s, dj) {
    }
    forall v ensures !Broken(r, v, inp.now) {
      assert !Broken(s, v, inp.now);
    }
  }

  /** A staged club offers its active tracks and nothing else, whatever is playing. */
  lemma StagedOffers(s: Club, p: Play, djs: seq<string>, inp: Input)
    requires Calm(s, inp) && Unique(s, p, djs) && inp.djs == djs
    ensures NothingOpen(s, p, inp) <==> forall k: nat, l: nat | InRange(s, djs, k, l) :: !Tracks(s, djs[k])[l].active
  {
    hide Tracks, CellOpen, Calm;
    forall k: nat, l: nat | InRange(s, djs, k, l)
      ensures CellOpen(s, p, djs[k], Tracks(s, djs[k])[l], inp) <==> Tracks(s, djs[k])[l].active
    {
      var t := Tracks(s, djs[k])[l];
      CalmCell(s, p, inp, djs[k], t);
      assert ActiveAt(s, djs, k, l, t.videoID) <==> t.active;
    }
    forall dj, t | dj in inp.djs && t in Tracks(s, dj)
      ensures exists k: nat, l: nat :: InRange(s, djs, k, l) && djs[k] == dj && Tracks(s, djs[k])[l] == t
    {
      var k: nat :| k < |djs| && djs[k] == dj;
      var l: nat :| l < |Tracks(s, dj)| && Tracks(s, dj)[l] == t;
      assert InRange(s, djs, k, l);
    }
  }

  lemma NothingOpenNoPick(s: Club, p: Play, inp: Input, count: nat)
    requires NothingOpen(s, p, inp)
    ensures RoundRobin.RelayPicks(inp.djs, p.dj, MatrixOf(s, p, inp), count) == []
  {
    hide CellOpen, MatrixOf, RoundRobin.Pick;
    OpenCells(s, p, inp);
    RoundRobin.PickMeets(|inp.djs|, RoundRobin.Index(inp.djs, p.dj), MatrixOf(s, p, inp));
  }

  lemma StageOf(s: Club, djs: seq<string>, inps: seq<Input>)
    requires SameStage(s, djs, inps) && inps != []
    ensures inps[0].djs == djs && forall k | 0 <= k < |inps[1..]| :: inps[1..][k].djs == djs
    ensures forall dj | dj in djs && dj in s.queues :: inps[0].patchSecond > s.queues[dj].createdAt
  {
    forall k | 0 <= k < |inps[1..]| ensures inps[1..][k].djs == djs {
      assert inps[1..][k] == inps[k + 1];
    }
  }

  /** Without DJs on stage nothing starts. */
  lemma {:induction false} EmptyStage(s: Club, club: string, p: Play, inps: seq<Input>)
    requires forall k | 0 <= k < |inps| :: inps[k].djs == []
    ensures Turns(s, club, p, inps) == []
    decreases |inps|
  {
    hide Settle;
    if inps != [] {
      PlaybackRuns.AdvanceKeepsLoaded(s, club, p, inps[0], Credibility.Discarded);
      var r := Advance(s, club, p, inps[0], Credibility.Discarded).club;
      EmptyStage(r, club, r.play.value, inps[1..]);
    }
  }

  /** Once nothing is open, nothing starts any more. */
  lemma {:induction false} NothingMore(s: Club, club: string, p: Play, djs: seq<string>, inps: seq<Input>)
    requires Staged(s, p, djs, inps) && djs != []
    requires forall k: nat, l: nat | InRange(s, djs, k, l) :: !Tracks(s, djs[k])[l].active
    ensures Turns(s, club, p, inps) == []
    decreases |inps|
  {
    hide Tracks, Advance, Calm, Unique, SameStage, NothingOpen;
    if inps != [] {
      StageOf(s, djs, inps);
      StagedOffers(s, p, djs, inps[0]);
      AdvanceChooses(s, club, p, inps[0], Credibility.Discarded);
      StopLeaves(s, club, p, inps[0]);
      PlaybackRuns.AdvanceKeepsLoaded(s, club, p, inps[0], Credibility.Discarded);
      var r := Advance(s, club, p, inps[0], Credibility.Discarded).club;
      StagedStopped(s, r, p, r.play.value, djs, inps);
      SameTracks(s, r);
      NothingMore(r, club, r.play.value, djs, inps[1..]);
    }
  }

  lemma SameTracks(s: Club, r: Club)
    requires r.queues == s.queues
    ensures forall dj :: Tracks(r, dj) == Tracks(s, dj)
  {
  }

  lemma StopLeaves(s: Club, club: string, p: Play, inp: Input)
    requires Calm(s, inp) && inp.djs != [] && Advance(s, club, p, inp, Credibility.Discarded).starts == []
    ensures var r := Advance(s, club, p, inp, Credibility.Discarded).club;
            r.queues == s.queues && r.played == s.played && r.brokenVids == s.brokenVids
            && r.play == Some(Stopped(p, inp.now))
  {
    hide Calm, KeptMarks, MatrixOf, RoundRobin.Pick, MarkedOff, Tracks;
    NoResets(s, p, inp);
  }

  /** The preview's first cell is the rotation's turn. */
  lemma PickIsTurn(s: Club, p: Play, inp: Input, c: RoundRobin.Slot)
    requires RoundRobin.IsPick(|inp.djs|, RoundRobin.Index(inp.djs, p.dj), MatrixOf(s, p, inp), c)
    ensures Turn(s, p, inp, c.dj, c.track)
  {
    TurnIsPick(s, p, inp, c.dj, c.track);
  }

  /** Cells that name the same ids in the later club name them in the earlier one. */
  lemma MatchesBefore(starts: seq<Start>, picks: seq<RoundRobin.Slot>, s: Club, r: Club, inp: Input, i: nat, v: string)
    requires Distinct(inp.djs) && i < |inp.djs| && StartedHere(s, r, inp, inp.djs[i], v)
    requires Matches(starts, picks, r, inp.djs)
    ensures Matches(starts, picks, s, inp.djs)
  {
    hide Tracks, StartedHere;
    forall n | 0 <= n < |picks|
      ensures InRange(s, inp.djs, picks[n].dj, picks[n].track)
      ensures starts[n].videoID == Tracks(s, inp.djs[picks[n].dj])[picks[n].track].videoID
    {
      TracksAfter(s, r, inp, i, picks[n].dj, v);
    }
  }

  lemma MatchesCons(st: Start, c: RoundRobin.Slot, starts: seq<Start>, picks: seq<RoundRobin.Slot>, s: Club,
          djs: seq<string>)
    requires InRange(s, djs, c.dj, c.track) && st.dj == djs[c.dj] && st.videoID == Tracks(s, djs[c.dj])[c.track].videoID
    requires Matches(starts, picks, s, djs)
    ensures Matches([st] + starts, [c] + picks, s, djs)
  {
    hide Tracks;
  }

  lemma StagedNow(s: Club, p: Play, djs: seq<string>, inps: seq<Input>)
    requires Staged(s, p, djs, inps) && inps != []
    ensures inps[0].djs == djs && Calm(s, inps[0]) && Distinct(djs) && Unique(s, p, djs)
    ensures forall dj | dj in djs && dj in s.queues :: inps[0].patchSecond > s.queues[dj].createdAt
    ensures |inps| > 1 ==> inps[1].djs == djs
  {
    hide Calm, Unique;
  }

  /** Where the preview stops, the relay stops. */
  lemma NothingPreviewed(s: Club, club: string, p: Play, djs: seq<string>, inps: seq<Input>)
    requires Staged(s, p, djs, inps) && inps != []
    requires forall i: nat | i < |djs| :: !RoundRobin.HasTrack(MatrixOf(s, p, inps[0]), i)
    ensures Turns(s, club, p, inps) == [] && Matches([], [], s, djs)
    ensures forall count: nat :: RoundRobin.RelayPicks(djs, p.dj, MatrixOf(s, p, inps[0]), count) == []
  {
    hide Turns, RoundRobin.RelayPicks, Staged, MatrixOf, NothingOpen, Tracks, Calm, Unique;
    StagedNow(s, p, djs, inps);
    OpenCells(s, p, inps[0]);
    forall count: nat ensures RoundRobin.RelayPicks(djs, p.dj, MatrixOf(s, p, inps[0]), count) == [] {
      NothingOpenNoPick(s, p, inps[0], count);
    }
    if djs == [] {
      StageIsEmpty(s, p, inps);
      EmptyStage(s, club, p, inps);
    } else {
      StagedOffers(s, p, djs, inps[0]);
      NothingMore(s, club, p, djs, inps);
    }
  }

  lemma StageIsEmpty(s: Club, p: Play, inps: seq<Input>)
    requires Staged(s, p, [], inps)
    ensures forall k | 0 <= k < |inps| :: inps[k].djs == []
  {
    hide Calm, Unique;
  }

  lemma RelayTurn(djs: seq<string>, lastDJ: string, m: Matrix, count: nat, c: RoundRobin.Slot)
    requires count > 0 && RoundRobin.Pick(|djs|, RoundRobin.Index(djs, lastDJ), m) == Some(c)
    ensures c.dj < |djs| && RoundRobin.Playable(m, c)
    ensures RoundRobin.RelayPicks(djs, lastDJ, m, count)
         == [c] + RoundRobin.RelayPicks(djs, djs[c.dj], RoundRobin.Clear(m, c), count - 1)
  {
    RoundRobin.PickMeets(|djs|, RoundRobin.Index(djs, lastDJ), m);
  }

  /** A turn of the relay on the staged club, and what is left for the next one. */
  lemma NextTurn(s: Club, club: string, p: Play, djs: seq<string>, inps: seq<Input>,
          c: RoundRobin.Slot) returns (q: Play, r: Club)
    requires Staged(s, p, djs, inps) && inps != [] && Turn(s, p, inps[0], c.dj, c.track)
    ensures InRange(s, djs, c.dj, c.track) && q.dj == djs[c.dj] && q.videoID == Tracks(s, djs[c.dj])[c.track].videoID
    ensures StartedHere(s, r, inps[0], djs[c.dj], q.videoID) && Staged(r, q, djs, inps[1..])
    ensures Turns(s, club, p, inps) == [StartOf(club, q)] + Turns(r, club, q, inps[1..])
    ensures RoundRobin.Playable(MatrixOf(s, p, inps[0]), c)
    ensures |inps| > 1 ==> MatrixOf(r, q, inps[1]) == RoundRobin.Clear(MatrixOf(s, p, inps[0]), c)
  {
    hide Staged, Turn, StartedHere, MatrixOf, Tracks, Calm, Unique, Advance, NoOtherCopy;
    StagedNow(s, p, djs, inps);
    TurnRange(s, p, inps[0], c.dj, c.track);
    TurnStarts(s, club, p, inps[0], Credibility.Discarded, c.dj, c.track);
    PlaybackRuns.AdvanceKeepsLoaded(s, club, p, inps[0], Credibility.Discarded);
    q := Started(p, djs[c.dj], Tracks(s, djs[c.dj])[c.track], inps[0].now, false);
    r := Advance(s, club, p, inps[0], Credibility.Discarded).club;
    StagedAfter(s, r, p, q, djs, inps, c.dj, c.track);
    if |inps| > 1 {
      assert inps[1..][0] == inps[1];
      StagedNow(r, q, djs, inps[1..]);
      NextMatrix(s, r, p, q, inps[0], inps[1], c.dj, c.track);
    }
  }

  lemma NoTurnLeft(s: Club, club: string, p: Play, djs: seq<string>, inps: seq<Input>, m: Matrix)
    requires inps == []
    ensures Matches(Turns(s, club, p, inps), RoundRobin.RelayPicks(djs, p.dj, m, 0), s, djs)
  {
  }

  /** Repeated advances start the cells of the relay's turns on the first matrix. */
  lemma {:induction false} TurnsAreRelayed(s: Club, club: string, p: Play, djs: seq<string>, inps: seq<Input>)
    requires Staged(s, p, djs, inps) && inps != []
    ensures Matches(Turns(s, club, p, inps), RoundRobin.RelayPicks(djs, p.dj, MatrixOf(s, p, inps[0]), |inps|), s, djs)
    decreases |inps|
  {
    hide Turns, RoundRobin.RelayPicks, Staged, MatrixOf, StartedHere, Matches, InRange, Tracks, RoundRobin.IsPick, Turn;
    var m, last, n := MatrixOf(s, p, inps[0]), RoundRobin.Index(djs, p.dj), |inps|;
    StagedNow(s, p, djs, inps);
    RoundRobin.PickMeets(|djs|, last, m);
    match RoundRobin.Pick(|djs|, last, m)
    case None => NothingPreviewed(s, club, p, djs, inps);
    case Some(c) =>
      PickIsTurn(s, p, inps[0], c);
      var q, r := NextTurn(s, club, p, djs, inps, c);
      RelayTurn(djs, p.dj, m, n, c);
      var rest := RoundRobin.RelayPicks(djs, q.dj, RoundRobin.Clear(m, c), n - 1);
      if n == 1 {
        NoTurnLeft(r, club, q, djs, inps[1..], RoundRobin.Clear(m, c));
      } else {
        TurnsAreRelayed(r, club, q, djs, inps[1..]);
      }
      MatchesBefore(Turns(r, club, q, inps[1..]), rest, s, r, inps[0], c.dj, q.videoID);
      MatchesCons(StartOf(club, q), c, Turns(r, club, q, inps[1..]), rest, s, djs);
  }

  /**
    The preview is played: on a calm stage whose active ids are all distinct, repeated advances start
    the previewed tracks one by one, and stop where the preview stops.
   */
  lemma {:induction false} PreviewIsPlayed(s: Club, club: string, p: Play, djs: seq<string>, inps: seq<Input>)
    requires Staged(s, p, djs, inps) && inps != []
    ensures Matches(Turns(s, club, p, inps),
                    RoundRobin.Picks(|djs|, RoundRobin.Index(djs, p.dj), MatrixOf(s, p, inps[0]), |inps|), s, djs)
  {
    hide Turns, SameStage, AllCalm, Unique, MatrixOf, Matches;
    TurnsAreRelayed(s, club, p, djs, inps);
    RoundRobin.PreviewRefinesConductor(djs, p.dj, MatrixOf(s, p, inps[0]), |inps|);
  }

  /** Hence the client's look-ahead over its own parse of the queues names what the relay starts. */
  lemma {:induction false} AnnouncedIsPlayed(s: Club, club: string, p: Play, djs: seq<string>, inps: seq<Input>)
    requires Staged(s, p, djs, inps) && inps != [] && ValidIds(s, djs)
    requires p.playing || forall k: nat, l: nat :: !ActiveAt(s, djs, k, l, p.videoID)
    ensures Matches(Turns(s, club, p, inps),
                    RoundRobin.Picks(|djs|, RoundRobin.Index(djs, p.dj), ClientMatrix(s, p, djs), |inps|), s, djs)
  {
    hide Turns, Staged, Calm, ValidIds, Unique, MatrixOf, ClientMatrix, Matches, ActiveAt;
    PreviewIsPlayed(s, club, p, djs, inps);
    StagedNow(s, p, djs, inps);
    ClientMatrixExact(s, p, inps[0]);
  }

  // ── where the preview is wrong ──────────────────────────────────────────────

  lemma OneCellRow(m: Matrix, last: int, row: seq<bool>, count: nat)
    requires m == [row] && (forall j | 0 <= j < |row| :: !row[j])
    ensures RoundRobin.Picks(1, last, m, count) == []
  {
    hide RoundRobin.Pick;
    RoundRobin.PickMeets(1, last, m);
  }

  lemma NextOfOne(m: Matrix, last: int, t: nat, count: nat)
    requires |m| == 1 && t < |m[0]| && m[0][t] && (forall j: nat | j < t :: !m[0][j]) && count > 0
    ensures RoundRobin.Picks(1, last, m, count)
         == [RoundRobin.Slot(0, t)] + RoundRobin.Picks(1, 0, RoundRobin.Clear(m, RoundRobin.Slot(0, t)), count - 1)
  {
    hide RoundRobin.Pick;
    RoundRobin.PickMeets(1, last, m);
    assert m[0] == RoundRobin.Row(m, 0) && true in m[0];
    assert RoundRobin.HasTrack(m, 0);
  }

  /**
    A club reached by a run (`Replays.LastSongLoops`) has stopped on its only video. The client
    announces nothing, however far it looks ahead, and the next tick starts that video.
   */
  lemma StoppedPreviewIsEmpty(max: nat)
    ensures ValidIds(STOPPED, ["dj"]) && IsValidVideoId(SONG) && SONG in Ids(STOPPED, "dj")
    ensures RoundRobin.Picks(1, RoundRobin.Index(["dj"], PAUSED.dj), ClientMatrix(STOPPED, PAUSED, ["dj"]), max) == []
    ensures StartsVideo(Tick(STOPPED, "club", AT_RETRY), SONG)
  {
    hide Tick, Parse, RoundRobin.Picks, RoundRobin.Index, IsValidVideoId;
    StoppedStartsAgain();
    OneTrackParses();
    SongIsValid();
    assert Tracks(STOPPED, "dj") == [A];
    assert A in Tracks(STOPPED, "dj") && A.active;
    ClientCells(STOPPED, PAUSED, ["dj"], 0);
    OneCellRow(ClientMatrix(STOPPED, PAUSED, ["dj"]), RoundRobin.Index(["dj"], PAUSED.dj),
        ClientRow(STOPPED, PAUSED, "dj"), max);
  }

  lemma SongIsValid()
    ensures IsValidVideoId(SONG)
  {
  }

  const TWICE := [["h", "club"], ["d", "club"], ["track", "yt:" + SONG, "A"], ["track", "yt:" + SONG, "A"]]
  const DOUBLED := FRESH.(queues := map["dj" := QueueEvent(false, 200, TWICE)], woken := true)
  const SOON := SAME_SECOND.(now := 210_500, patchSecond := 210)
  const LATER := SAME_SECOND.(now := 810_500, patchSecond := 810)

  lemma TwiceParses()
    ensures Parse(TWICE) == [A, A] && SONG in Ids(DOUBLED, "dj") && ValidIds(DOUBLED, ["dj"])
    ensures QueueIndexed(FRESH, "dj", QueueEvent(false, 200, TWICE)) == DOUBLED
  {
    hide IsValidVideoId;
    var t := TWICE[2];
    assert ("yt:" + SONG)[3..] == SONG && t in TWICE;
    assert TWICE == [["h", "club"], ["d", "club"]] + [t, t];
    ClubTagsSkipped([t, t], SONG);
    assert [t, t][1..] == [t] && [t][1..] == [];
    assert Parse([t]) == [A];
    SongIsValid();
    assert Tracks(DOUBLED, "dj") == [A, A];
    assert A in Tracks(DOUBLED, "dj");
  }

  lemma NewIsCalm(s: Club, inp: Input)
    requires s.played == map[] && s.brokenVids == map[]
    ensures Calm(s, inp)
  {
    hide Tracks;
  }

  /**
    A queue that holds a video twice: the client announces it twice, the relay starts it once, at the
    first copy, and has nothing left for its next turn.
   */
  lemma TwiceAnnouncedOncePlayed()
    ensures QueueIndexed(FRESH, "dj", QueueEvent(false, 200, TWICE)) == DOUBLED
    ensures Tracks(DOUBLED, "dj") == [A, A] && ValidIds(DOUBLED, ["dj"])
    ensures RoundRobin.Picks(1, RoundRobin.Index(["dj"], IDLE.dj), ClientMatrix(DOUBLED, IDLE, ["dj"]), 2)
         == [RoundRobin.Slot(0, 0), RoundRobin.Slot(0, 1)]
    ensures var starts := Turns(DOUBLED, "club", IDLE, [SOON, LATER]);
            |starts| == 1 && starts[0].dj == "dj" && starts[0].videoID == SONG
  {
    hide Parse, Advance, StartedHere, QueueIndexed, RoundRobin.Picks, RoundRobin.Index, RoundRobin.Clear, ValidIds;
    TwiceParses();
    TwiceAnnounced();
    NewIsCalm(DOUBLED, SOON);
    NewIsCalm(DOUBLED, LATER);
    FirstCopyOpens();
    TurnStarts(DOUBLED, "club", IDLE, SOON, Credibility.Discarded, 0, 0);
    var e := Advance(DOUBLED, "club", IDLE, SOON, Credibility.Discarded);
    CalmAfter(DOUBLED, e.club, SOON, LATER, 0, SONG);
    BothCopiesOff(e.club);
    AdvanceChooses(e.club, "club", e.club.play.value, LATER, Credibility.Discarded);
    TwoTurns(DOUBLED, "club", IDLE, SOON, LATER);
  }

  lemma TwoTurns(s: Club, club: string, p: Play, a: Input, b: Input)
    ensures var e := Advance(s, club, p, a, Credibility.Discarded);
            && e.club.play.Some?
            && Turns(s, club, p, [a, b])
                == e.starts + Advance(e.club, club, e.club.play.value, b, Credibility.Discarded).starts
  {
    hide Advance;
    PlaybackRuns.AdvanceKeepsLoaded(s, club, p, a, Credibility.Discarded);
    var e := Advance(s, club, p, a, Credibility.Discarded);
    PlaybackRuns.AdvanceKeepsLoaded(e.club, club, e.club.play.value, b, Credibility.Discarded);
    var f := Advance(e.club, club, e.club.play.value, b, Credibility.Discarded);
    assert [a, b][1..] == [b] && [b][1..] == [];
    assert Turns(e.club, club, e.club.play.value, [b]) == f.starts + Turns(f.club, club, f.club.play.value, []);
  }

  lemma FirstCopyOpens()
    requires Parse(TWICE) == [A, A]
    ensures Turn(DOUBLED, IDLE, SOON, 0, 0)
  {
    hide Parse, RoundRobin.Index;
    assert Tracks(DOUBLED, "dj") == [A, A];
    assert CellOpen(DOUBLED, IDLE, "dj", A, SOON) by {
      NewIsCalm(DOUBLED, SOON);
      assert A in Tracks(DOUBLED, "dj");
      CalmCell(DOUBLED, IDLE, SOON, "dj", A);
    }
  }

  lemma BothCopiesOff(r: Club)
    requires Parse(TWICE) == [A, A] && StartedHere(DOUBLED, r, SOON, "dj", SONG) && r.play.Some? && Calm(r, LATER)
    ensures NothingOpen(r, r.play.value, LATER)
  {
    hide Parse, CellOpen;
    assert Tracks(DOUBLED, "dj") == [A, A];
    forall dj, t | dj in LATER.djs && t in Tracks(r, dj) ensures !CellOpen(r, r.play.value, dj, t, LATER) {
      CalmCell(r, r.play.value, LATER, dj, t);
    }
  }

  lemma TwiceAnnounced()
    requires Parse(TWICE) == [A, A] && ValidIds(DOUBLED, ["dj"])
    ensures RoundRobin.Picks(1, RoundRobin.Index(["dj"], IDLE.dj), ClientMatrix(DOUBLED, IDLE, ["dj"]), 2)
         == [RoundRobin.Slot(0, 0), RoundRobin.Slot(0, 1)]
  {
    hide Parse, ValidIds, RoundRobin.Picks, RoundRobin.Index, RoundRobin.Clear;
    var m := ClientMatrix(DOUBLED, IDLE, ["dj"]);
    assert Tracks(DOUBLED, "dj") == [A, A];
    ClientCells(DOUBLED, IDLE, ["dj"], 0);
    ClientHeight(DOUBLED, IDLE, ["dj"]);
    NextOfOne(m, RoundRobin.Index(["dj"], IDLE.dj), 0, 2);
    var c := RoundRobin.Clear(m, RoundRobin.Slot(0, 0));
    ClearedRow(m, 0, 0, 0);
    NextOfOne(c, 0, 1, 1);
    NothingCounted(RoundRobin.Clear(c, RoundRobin.Slot(0, 1)));
  }

  lemma NothingCounted(m: Matrix)
    ensures RoundRobin.Picks(1, 0, m, 0) == []
  {
  }
}
