/**
  The Auto-DJ over many ticks: the tracks it starts are the ones its publications announced, through
  skips, broken reports, mood skips and cycle boundaries.
 */
module AutoRuns {
  import opened Wrappers
  import opened AutoOrder
  import opened QueueTags
  import opened Playback
  import PlaybackRuns
  import RoundRobin
  import Openings
  import Verdicts

  /** The Auto-DJ is playing this playlist in a settled order. */
  ghost predicate OnAir(s: Club, a: Armed) {
    a.tracks != [] && s.play.Some? && s.play.value.playing && Ready(s.play.value.order, |a.tracks|)
  }

  predicate Plays(st: Start, club: string, owner: string, t: CondTrack) {
    st.club == club && st.dj == owner && st.videoID == t.videoID && st.duration == t.duration && st.auto
  }

  lemma FutureInRange(o: Auto, n: nat)
    requires Ready(o, n)
    ensures InRange(Future(o, n), n) && 0 <= Current(o) < n
  {
  }

  /** One tick keeps the promised future, taking its head when it starts a track. */
  lemma TickKeepsPromise(s: Club, club: string, a: Armed, inp: Input)
    requires OnAir(s, a)
    ensures OrderOk(s.play.value.order)
    ensures var e := DriveAuto(s, club, a, inp);
            var n := |a.tracks|;
            && OnAir(e.club, a) && |e.starts| <= 1
            && (var was, now := Future(s.play.value.order, n), Future(e.club.play.value.order, n);
                if e.starts == [] then was <= now
                else
                  exists k: int :: 0 <= k < n && Plays(e.starts[0], club, a.owner, a.tracks[k])
                                   && (was != [] ==> was <= [k] + now))
  {
    hide Future, Ended, Ready, Announce, AutoOrder.Advance, Settle;
    var p, n := s.play.value, |a.tracks|;
    ReadyLength(p.order, n);
    var e := DriveAuto(s, club, a, inp);
    var t := Turned(p, n, inp);
    TurnedReady(p, n, inp);
    ReadyLength(t, n);
    NextTakesFuture(p.order, n, inp.nextSwaps);
    ShowKeepsFuture(t, n, PREVIEW_MAX, inp.showSwaps);
    ShowKeepsFuture(p.order, n, PREVIEW_MAX, inp.showSwaps);
    ApplyReady(t, n, Show(PREVIEW_MAX, inp.showSwaps));
    ApplyReady(p.order, n, Show(PREVIEW_MAX, inp.showSwaps));
    if e.starts != [] {
      FutureInRange(t, n);
      assert Plays(e.starts[0], club, a.owner, a.tracks[Current(t)]);
    }
  }

  lemma ReadyLength(o: Auto, n: nat)
    requires Ready(o, n)
    ensures |o.order| == n && 0 <= o.idx < n && OrderOk(o)
  {
  }

  /** The starts of consecutive ticks with one armed playlist and no real DJ. */
  ghost function Starts(s: Club, club: string, a: Armed, inps: seq<Input>): seq<Start>
    requires OnAir(s, a)
    decreases |inps|
  {
    if inps == [] then []
    else
      TickKeepsPromise(s, club, a, inps[0]);
      var e := DriveAuto(s, club, a, inps[0]);
      e.starts + Starts(e.club, club, a, inps[1..])
  }

  /** The committed future comes true, start by start. */
  lemma {:induction false} FutureComesTrue(s: Club, club: string, a: Armed, inps: seq<Input>, i: nat)
    requires OnAir(s, a) && i < |Starts(s, club, a, inps)|
    ensures |s.play.value.order.order| == |a.tracks| && 0 <= s.play.value.order.idx < |a.tracks|
    ensures var f := Future(s.play.value.order, |a.tracks|);
            i < |f| ==> 0 <= f[i] < |a.tracks| && Plays(Starts(s, club, a, inps)[i], club, a.owner, a.tracks[f[i]])
    decreases |inps|
  {
    hide Future, DriveAuto, Ready, Plays;
    var n := |a.tracks|;
    ReadyLength(s.play.value.order, n);
    FutureInRange(s.play.value.order, n);
    if inps != [] {
      TickKeepsPromise(s, club, a, inps[0]);
      var e := DriveAuto(s, club, a, inps[0]);
      ReadyLength(e.club.play.value.order, n);
      if i >= |e.starts| { FutureComesTrue(e.club, club, a, inps[1..], i - |e.starts|); }
    }
  }

  /**
    What the relay announced is what it plays: the i-th track started after a publication is entry i
    of the preview that publication carried, whatever makes the relay move on in between.
   */
  lemma AnnouncedTracksPlay(s: Club, club: string, a: Armed, inps: seq<Input>, i: nat)
    requires OnAir(s, a) && i < |Starts(s, club, a, inps)|
    ensures var preview := Upcoming(s.play.value.order, |a.tracks|, PREVIEW_MAX);
            i < |preview| ==>
              && 0 <= preview[i] < |a.tracks|
              && Plays(Starts(s, club, a, inps)[i], club, a.owner, a.tracks[preview[i]])
  {
    hide Starts, Plays, Ready;
    FutureComesTrue(s, club, a, inps, i);
  }

  // ── tracks end, and the next ones start ─────────────────────────────────────

  /** Ticks of the Auto DJ alone, none of them more than `gap` after the one before. */
  predicate Regular(a: Armed, inps: seq<Input>, t: int, gap: int) {
    inps != [] ==>
      && inps[0].djs == [] && inps[0].auto == Some(a) && t <= inps[0].now <= t + gap
      && Regular(a, inps[1..], inps[0].now, gap)
  }

  function LastTick(inps: seq<Input>, t: int): int {
    if inps == [] then t else inps[|inps| - 1].now
  }

  predicate NoLonger(p: Play, a: Armed, full: int) {
    && 1000 * FullLength(p.duration) <= full
    && forall t | t in a.tracks :: 1000 * FullLength(t.duration) <= full
  }

  lemma Later(n: nat, f: int, a: int, b: int, c: int)
    requires c - b < (n + 1) * f && b - a <= f
    ensures c - a < (n + 2) * f
  {
    assert (n + 2) * f == (n + 1) * f + f;
  }

  /** A tick that starts a track does so now; one that starts none leaves the track running. */
  lemma AutoTickClock(s: Club, club: string, a: Armed, inp: Input)
    requires OnAir(s, a) && PlaybackRuns.ClubOk(s) && inp.djs == [] && inp.auto == Some(a)
    ensures OrderOk(s.play.value.order)
    ensures var e := DriveAuto(s, club, a, inp);
            && OnAir(e.club, a) && PlaybackRuns.ClubOk(e.club) && |e.starts| <= 1
            && (e.starts == [] ==>
                  && e.club.play.value.startedAt == s.play.value.startedAt
                  && e.club.play.value.duration == s.play.value.duration
                  && inp.now - s.play.value.startedAt < 1000 * FullLength(s.play.value.duration))
            && (e.starts != [] ==>
                  && e.club.play.value.startedAt == inp.now
                  && exists t :: t in a.tracks && e.club.play.value.duration == t.duration)
  {
    hide Ready, OrderOk, Announce, Turned, Settle, PlaybackRuns.SettlesAir, PlaybackRuns.Parked, JudgeAuto;
    TickKeepsPromise(s, club, a, inp);
    Verdicts.AutoJudges(s, club, inp);
    PlaybackRuns.DriveAutoShape(s, club, a, inp);
    var e := DriveAuto(s, club, a, inp);
    if e.starts != [] {
      var k: int :| 0 <= k < |a.tracks| && Plays(e.starts[0], club, a.owner, a.tracks[k]);
      assert a.tracks[k] in a.tracks;
    }
  }

  /**
    The Auto DJ never stalls: while it is ticked at least every `gap` and no track is longer than
    `full`, the time since the running track began is less than `full + gap` per start, and one more.
   */
  lemma {:induction false} AutoNeverStalls(
    s: Club, club: string, a: Armed, inps: seq<Input>, t: int, gap: nat, full: nat)
    requires OnAir(s, a) && PlaybackRuns.ClubOk(s) && Regular(a, inps, t, gap) && NoLonger(s.play.value, a, full)
    requires t - s.play.value.startedAt < full
    ensures LastTick(inps, t) - s.play.value.startedAt < (|Starts(s, club, a, inps)| + 1) * (full + gap)
    decreases |inps|
  {
    hide DriveAuto, Ready, PlaybackRuns.ClubOk, OrderOk;
    if inps == [] {
      assert 1 * (full + gap) == full + gap;
    } else {
      AutoTickClock(s, club, a, inps[0]);
      TickKeepsPromise(s, club, a, inps[0]);
      var e := DriveAuto(s, club, a, inps[0]);
      AutoNeverStalls(e.club, club, a, inps[1..], inps[0].now, gap, full);
      if e.starts != [] {
        Later(|Starts(e.club, club, a, inps[1..])|, full + gap, s.play.value.startedAt, inps[0].now, LastTick(inps, t));
      }
    }
  }

  lemma EnoughTime(n: nat, i: nat, f: nat, d: int)
    requires d < (n + 1) * f && d >= (i + 1) * f
    ensures i < n
  {
    MoreTakesLonger(n, i, f);
  }

  lemma MoreTakesLonger(n: nat, i: nat, f: nat)
    ensures n <= i ==> (n + 1) * f <= (i + 1) * f
  {
    if n <= i { assert (i + 1) * f == (n + 1) * f + (i - n) * f; }
  }

  /** Every announced track is started, in time for its place in the preview. */
  lemma {:induction false} EveryAnnouncedTrackStarts(
    s: Club, club: string, a: Armed, inps: seq<Input>, t: int, gap: nat, full: nat, i: nat)
    requires OnAir(s, a) && PlaybackRuns.ClubOk(s) && Regular(a, inps, t, gap) && NoLonger(s.play.value, a, full)
    requires t - s.play.value.startedAt < full
    requires LastTick(inps, t) - s.play.value.startedAt >= (i + 1) * (full + gap)
    ensures i < |Starts(s, club, a, inps)|
    ensures var preview := Upcoming(s.play.value.order, |a.tracks|, PREVIEW_MAX);
            i < |preview| ==>
              && 0 <= preview[i] < |a.tracks|
              && Plays(Starts(s, club, a, inps)[i], club, a.owner, a.tracks[preview[i]])
  {
    hide Starts, Plays, Ready, PlaybackRuns.ClubOk, FullLength, NoLonger, Regular;
    AutoNeverStalls(s, club, a, inps, t, gap, full);
    EnoughTime(|Starts(s, club, a, inps)|, i, full + gap, LastTick(inps, t) - s.play.value.startedAt);
    AnnouncedTracksPlay(s, club, a, inps, i);
  }

  // ── what a start announces ──────────────────────────────────────────────────

  lemma PreviewSize(o: Auto, n: nat, swaps: Swaps)
    requires Ready(o, n)
    ensures var t := Announce(o, n, PREVIEW_MAX, swaps);
            && t.order == o.order && t.idx == o.idx
            && |Upcoming(t, n, PREVIEW_MAX)| == if 2 * n - 1 - o.idx < 6 then 2 * n - 1 - o.idx else 6
  {
    ShuffledIsOrder(n, swaps);
  }

  lemma StartedIs(p: Play, owner: string, t: CondTrack, now: int, club: string, n: nat, inp: Input)
    ensures var q := Playback.Shown(Started(p, owner, t, now, true), n, inp);
            && StartOf(club, q) == Start(club, p.pos + 1, owner, t.videoID, t.duration, now, true)
            && q.playing && q.title == t.title && q.auto && q.lastBeat == inp.now
            && q.order == Announce(p.order, n, PREVIEW_MAX, inp.showSwaps)
  {
    hide Announce;
  }

  /**
    The track the Auto DJ starts: the one its order now stands at, for the owner, as the next position
    with that track's title and length; and the preview published with it holds six tracks, or as many
    as are left of this cycle and the next.
   */
  lemma {:induction false} AutoStartIsExact(s: Club, club: string, a: Armed, inp: Input)
    requires PlaybackRuns.ClubOk(s) && a.tracks != []
    ensures s.play.Some? ==> OrderOk(s.play.value.order)
    ensures var e, p, n := DriveAuto(s, club, a, inp), Loaded(s, inp).play.value, |a.tracks|;
            e.starts != [] ==>
              && e.club.play.Some? && Ready(e.club.play.value.order, n)
              && var o := e.club.play.value.order;
                 && 0 <= o.idx < |o.order| && 0 <= Current(o) < n
                 && var t := a.tracks[Current(o)];
                    && e.starts == [Start(club, p.pos + 1, a.owner, t.videoID, t.duration, inp.now, true)]
                    && Openings.OnTheAir(e.club, club, p.pos + 1, a.owner, t, inp.now, true)
                    && |Upcoming(o, n, PREVIEW_MAX)| == if 2 * n - 1 - o.idx < 6 then 2 * n - 1 - o.idx else 6
  {
    hide Ready, Announce, Turned, Settle, Playback.Shown, Started, Resumed, Ended, Upcoming, Prepared, Loaded, OrderOk;
    PlaybackRuns.LoadedShape(s, club, inp);
    Verdicts.OrderOfClub(s);
    var l, n := Loaded(s, inp), |a.tracks|;
    Verdicts.OrderOfClub(l);
    PreparedReady(l.play.value.order, n, inp.initSwaps);
    var p := l.play.value.(order := Prepared(l.play.value.order, n, inp.initSwaps));
    TurnedReady(p, n, inp);
    var o := Turned(p, n, inp);
    ReadyLength(o, n);
    FutureInRange(o, n);
    PreviewSize(o, n, inp.showSwaps);
    ApplyReady(o, n, Show(PREVIEW_MAX, inp.showSwaps));
    StartedIs(p.(order := o), a.owner, a.tracks[Current(o)], inp.now, club, n, inp);
  }

  // ── across a set of real DJs ────────────────────────────────────────────────

  /** The club is loaded, with a settled order for this playlist, playing or not. */
  ghost predicate Settled(s: Club, a: Armed) {
    a.tracks != [] && s.play.Some? && Ready(s.play.value.order, |a.tracks|)
  }

  /** A tick with real DJs on stage leaves the Auto DJ's order alone. */
  lemma DJsKeepOrder(s: Club, club: string, a: Armed, inp: Input)
    requires Settled(s, a) && inp.djs != [] && Sensible(inp)
    ensures OrderOk(s.play.value.order)
    ensures var r := Tick(s, club, inp).club; Settled(r, a) && r.play.value.order == s.play.value.order
  {
    hide Ready, MatrixOf, RoundRobin.Pick, RoundRobin.Index, MarkedOff, KeptMarks, WithMark, Ended, Settle;
    ReadyLength(s.play.value.order, |a.tracks|);
    MarksKeepPlay(s, club);
  }

  lemma MarksKeepPlay(s: Club, club: string)
    ensures forall r: Club, dj, v, second :: MarkedOff(r, club, dj, v, second).play == r.play
  {
    hide AnyHit, Patched, AnyActive;
  }

  /** The club after a set of real DJs. */
  ghost function AfterSet(s: Club, club: string, a: Armed, inps: seq<Input>): (r: Club)
    requires Settled(s, a) && forall k | 0 <= k < |inps| :: inps[k].djs != [] && Sensible(inps[k])
    ensures Settled(r, a) && r.play.value.order == s.play.value.order
    decreases |inps|
  {
    if inps == [] then s
    else
      DJsKeepOrder(s, club, a, inps[0]);
      AfterSet(Tick(s, club, inps[0]).club, club, a, inps[1..])
  }

  predicate OnlyAuto(a: Armed, inps: seq<Input>) {
    forall k | 0 <= k < |inps| :: inps[k].djs == [] && inps[k].auto == Some(a)
  }

  lemma AutoTick(s: Club, club: string, a: Armed, inp: Input)
    requires Settled(s, a) && inp.djs == [] && inp.auto == Some(a)
    ensures OrderOk(s.play.value.order) && Sensible(inp) && Tick(s, club, inp) == DriveAuto(s, club, a, inp)
    ensures Tick(s, club, inp).starts == [] ==> OnAir(s, a) && OnAir(Tick(s, club, inp).club, a)
  {
    hide DriveAuto, Ready;
    ReadyLength(s.play.value.order, |a.tracks|);
    if s.play.value.playing {
      TickKeepsPromise(s, club, a, inp);
    } else {
      RestStartsCurrent(s, club, a, inp);
    }
  }

  /** A club that is not playing starts the current slot, whatever was announced. */
  lemma RestStartsCurrent(s: Club, club: string, a: Armed, inp: Input)
    requires Settled(s, a) && !s.play.value.playing
    ensures OrderOk(s.play.value.order) && 0 <= Current(s.play.value.order) < |a.tracks|
    ensures var e := DriveAuto(s, club, a, inp);
            |e.starts| == 1 && Plays(e.starts[0], club, a.owner, a.tracks[Current(s.play.value.order)])
  {
    hide Ended, Ready, Announce, AutoOrder.Advance, Settle;
    ReadyLength(s.play.value.order, |a.tracks|);
    FutureInRange(s.play.value.order, |a.tracks|);
  }

  /** The first track the Auto DJ starts. */
  ghost function FirstStart(s: Club, club: string, a: Armed, inps: seq<Input>): Option<Start>
    requires Settled(s, a) && OnlyAuto(a, inps)
    decreases |inps|
  {
    if inps == [] then None
    else
      AutoTick(s, club, a, inps[0]);
      var e := Tick(s, club, inps[0]);
      if e.starts != [] then Some(e.starts[0]) else FirstStart(e.club, club, a, inps[1..])
  }

  /** While a track is playing, it is the first of the starts followed above. */
  lemma {:induction false} FirstIsFirst(s: Club, club: string, a: Armed, inps: seq<Input>)
    requires OnAir(s, a) && OnlyAuto(a, inps) && FirstStart(s, club, a, inps).Some?
    ensures Starts(s, club, a, inps) != [] && FirstStart(s, club, a, inps) == Some(Starts(s, club, a, inps)[0])
    decreases |inps|
  {
    hide Tick, DriveAuto, Ready, Future;
    AutoTick(s, club, a, inps[0]);
    TickKeepsPromise(s, club, a, inps[0]);
    var e := Tick(s, club, inps[0]);
    if e.starts == [] { FirstIsFirst(e.club, club, a, inps[1..]); }
  }

  predicate SameTrack(t: CondTrack, u: CondTrack) {
    t.videoID == u.videoID && t.duration == u.duration
  }

  /**
    The Auto DJ comes back after a set of real DJs. Its first start is the first track of its last
    preview exactly if something was playing when it took over; otherwise it starts its current slot
    again, which is that track only if the playlist repeats it there.
   */
  lemma {:induction false} ReturnExact(s: Club, club: string, a: Armed, djTicks: seq<Input>, inps: seq<Input>)
    requires Settled(s, a) && Upcoming(s.play.value.order, |a.tracks|, PREVIEW_MAX) != []
    requires forall k | 0 <= k < |djTicks| :: djTicks[k].djs != [] && Sensible(djTicks[k])
    requires OnlyAuto(a, inps) && FirstStart(AfterSet(s, club, a, djTicks), club, a, inps).Some?
    ensures |s.play.value.order.order| == |a.tracks| && 0 <= Current(s.play.value.order) < |a.tracks|
    ensures var preview := Upcoming(s.play.value.order, |a.tracks|, PREVIEW_MAX);
            var r := AfterSet(s, club, a, djTicks);
            && 0 <= preview[0] < |a.tracks|
            && (Plays(FirstStart(r, club, a, inps).value, club, a.owner, a.tracks[preview[0]])
                <==> r.play.value.playing || SameTrack(a.tracks[Current(s.play.value.order)], a.tracks[preview[0]]))
  {
    hide Tick, DriveAuto, Ready, Plays, Starts, FirstStart;
    var n := |a.tracks|;
    var r := AfterSet(s, club, a, djTicks);
    ReadyLength(s.play.value.order, n);
    FutureInRange(s.play.value.order, n);
    if r.play.value.playing {
      FirstIsFirst(r, club, a, inps);
      AnnouncedTracksPlay(r, club, a, inps, 0);
    } else {
      FirstFromRest(r, club, a, inps);
      SamePlays(FirstStart(r, club, a, inps).value, club, a.owner, a.tracks[Current(r.play.value.order)],
                a.tracks[Upcoming(s.play.value.order, n, PREVIEW_MAX)[0]]);
    }
  }

  lemma FirstFromRest(s: Club, club: string, a: Armed, inps: seq<Input>)
    requires Settled(s, a) && !s.play.value.playing && OnlyAuto(a, inps) && FirstStart(s, club, a, inps).Some?
    ensures |s.play.value.order.order| == |a.tracks| && 0 <= Current(s.play.value.order) < |a.tracks|
    ensures Plays(FirstStart(s, club, a, inps).value, club, a.owner, a.tracks[Current(s.play.value.order)])
  {
    hide Tick, DriveAuto, Ready;
    ReadyLength(s.play.value.order, |a.tracks|);
    AutoTick(s, club, a, inps[0]);
    RestStartsCurrent(s, club, a, inps[0]);
  }

  lemma SamePlays(st: Start, club: string, owner: string, t: CondTrack, u: CondTrack)
    requires Plays(st, club, owner, t)
    ensures Plays(st, club, owner, u) <==> SameTrack(t, u)
  {
  }
}
