/**
  When a video starts again: exactly which track an advance takes, when that is a video reported
  broken, when it is the one the club has just stopped on, and runs in which each of them happens.
 */
module Replays {
  import opened Wrappers
  import opened QueueTags
  import opened Playback
  import opened PlaybackRuns
  import opened Drain
  import RoundRobin
  import Credibility

  // ── which track an advance takes ────────────────────────────────────────────

  /** No track of the DJ is open. */
  ghost predicate OffersNothing(s: Club, p: Play, inp: Input, dj: string) {
    forall t | t in Tracks(s, dj) :: !CellOpen(s, p, dj, t, inp)
  }

  ghost predicate EarlierOfferNothing(s: Club, p: Play, inp: Input, i: nat)
    requires i < |inp.djs|
  {
    var n, last := |inp.djs|, RoundRobin.Index(inp.djs, p.dj);
    forall k: nat | k < n && RoundRobin.Turns(n, last, k) < RoundRobin.Turns(n, last, i) ::
      OffersNothing(s, p, inp, inp.djs[k])
  }

  /** The rotation's turn falls on track j of DJ i. */
  ghost predicate Turn(s: Club, p: Play, inp: Input, i: nat, j: nat) {
    && i < |inp.djs| && j < |Tracks(s, inp.djs[i])|
    && CellOpen(s, p, inp.djs[i], Tracks(s, inp.djs[i])[j], inp)
    && (forall k: nat | k < j :: !CellOpen(s, p, inp.djs[i], Tracks(s, inp.djs[i])[k], inp))
    && EarlierOfferNothing(s, p, inp, i)
  }

  lemma RowOpen(s: Club, p: Play, inp: Input, i: nat)
    requires i < |inp.djs|
    ensures MatrixOf(s, p, inp)[i] == RowOf(s, p, inp.djs[i], inp)
    ensures RoundRobin.HasTrack(MatrixOf(s, p, inp), i) <==> !OffersNothing(s, p, inp, inp.djs[i])
  {
    hide CellOpen, Tracks;
    var row, ts := RowOf(s, p, inp.djs[i], inp), Tracks(s, inp.djs[i]);
    if true in row {
      var j: nat :| j < |row| && row[j];
      assert ts[j] in ts;
    }
    if t :| t in ts && CellOpen(s, p, inp.djs[i], t, inp) {
      var j: nat :| j < |ts| && ts[j] == t;
      assert row[j];
    }
  }

  lemma TurnIsPick(s: Club, p: Play, inp: Input, i: nat, j: nat)
    ensures Turn(s, p, inp, i, j)
       <==> RoundRobin.IsPick(|inp.djs|, RoundRobin.Index(inp.djs, p.dj), MatrixOf(s, p, inp), RoundRobin.Slot(i, j))
  {
    hide CellOpen, Tracks, RoundRobin.Turns, RoundRobin.Index, RoundRobin.HasTrack, OffersNothing;
    if i < |inp.djs| {
      RowOpen(s, p, inp, i);
      forall k: nat | k < |inp.djs|
        ensures RoundRobin.HasTrack(MatrixOf(s, p, inp), k) <==> !OffersNothing(s, p, inp, inp.djs[k])
      {
        RowOpen(s, p, inp, k);
      }
      var m, ts := MatrixOf(s, p, inp), Tracks(s, inp.djs[i]);
      assert m[i] == RowOf(s, p, inp.djs[i], inp);
      forall k: nat | k < |ts| ensures m[i][k] <==> CellOpen(s, p, inp.djs[i], ts[k], inp) {
      }
    }
  }

  /** `advance` starts exactly the track the rotation's turn falls on. */
  lemma AdvanceTakes(s: Club, club: string, p: Play, inp: Input, outcome: Credibility.Outcome, i: nat, j: nat)
    requires Turn(s, p, inp, i, j)
    ensures var e := Advance(s, club, p, inp, outcome);
            var dj := inp.djs[i];
            var q := Started(p, dj, Tracks(s, dj)[j], inp.now, false);
            && e.starts == [StartOf(club, q)]
            && e.club == MarkedOff(s.(played := WithMark(KeptMarks(s, p, inp), dj, q.videoID, inp.now)),
                                   club, dj, q.videoID, inp.patchSecond).(play := Some(q), row := Some(Save(q)))
  {
    hide Turn, MatrixOf, MarkedOff, KeptMarks, WithMark, Tracks, RoundRobin.Index, RoundRobin.Pick, RoundRobin.IsPick,
         Settle;
    var n, last, m := |inp.djs|, RoundRobin.Index(inp.djs, p.dj), MatrixOf(s, p, inp);
    TurnIsPick(s, p, inp, i, j);
    RoundRobin.PickMeets(n, last, m);
    TurnHasTrack(s, p, inp, i, j);
    RoundRobin.PickIsUnique(n, last, m, RoundRobin.Slot(i, j), RoundRobin.Pick(n, last, m).value);
  }

  lemma TurnHasTrack(s: Club, p: Play, inp: Input, i: nat, j: nat)
    requires Turn(s, p, inp, i, j)
    ensures i < |inp.djs| && j < |Tracks(s, inp.djs[i])| && RoundRobin.HasTrack(MatrixOf(s, p, inp), i)
  {
    hide CellOpen, Tracks;
    RowOpen(s, p, inp, i);
  }

  /** Every start comes from such a turn. */
  lemma StartHasTurn(s: Club, club: string, p: Play, inp: Input, outcome: Credibility.Outcome) returns (i: nat, j: nat)
    requires Advance(s, club, p, inp, outcome).starts != []
    ensures Turn(s, p, inp, i, j)
    ensures var st := Advance(s, club, p, inp, outcome).starts[0];
            st.dj == inp.djs[i] && st.videoID == Tracks(s, st.dj)[j].videoID
  {
    hide Turn, MatrixOf, MarkedOff, KeptMarks, WithMark, Tracks, RoundRobin.Index, RoundRobin.Pick, RoundRobin.IsPick,
         Settle;
    var n, last, m := |inp.djs|, RoundRobin.Index(inp.djs, p.dj), MatrixOf(s, p, inp);
    RoundRobin.PickMeets(n, last, m);
    var k := RoundRobin.Pick(n, last, m).value;
    i, j := k.dj, k.track;
    TurnIsPick(s, p, inp, i, j);
    TurnHasTrack(s, p, inp, i, j);
  }

  ghost predicate StartsVideo(e: Effect, v: string) {
    e.starts != [] && e.starts[0].videoID == v
  }

  /** The turn falls on a copy of the video. */
  ghost predicate VideoTurn(s: Club, p: Play, inp: Input, v: string, i: nat, j: nat) {
    Turn(s, p, inp, i, j) && Tracks(s, inp.djs[i])[j].videoID == v
  }

  /** An advance starts a video exactly when the rotation's turn falls on a copy of it. */
  lemma AdvanceStartsVideo(s: Club, club: string, p: Play, inp: Input, outcome: Credibility.Outcome, v: string)
    ensures StartsVideo(Advance(s, club, p, inp, outcome), v)
       <==> exists i: nat, j: nat :: VideoTurn(s, p, inp, v, i, j)
  {
    hide CellOpen, Advance, Tracks, EarlierOfferNothing;
    if StartsVideo(Advance(s, club, p, inp, outcome), v) {
      var i, j := StartHasTurn(s, club, p, inp, outcome);
      assert VideoTurn(s, p, inp, v, i, j);
    }
    if i: nat, j: nat :| VideoTurn(s, p, inp, v, i, j) {
      AdvanceTakes(s, club, p, inp, outcome, i, j);
    }
  }

  // ── a blocked video ─────────────────────────────────────────────────────────

  /** Reported broken within six hours, or played since every stage DJ's own queue was written. */
  predicate Blocked(s: Club, inp: Input, v: string) {
    Broken(s, v, inp.now) || forall dj | dj in inp.djs :: !Managed(s, dj) && Stale(s, dj, v)
  }

  /** The turn of an absent DJ whose list starts over, on the first copy of v he offers. */
  ghost predicate ResetTurn(s: Club, p: Play, inp: Input, v: string, i: nat, j: nat) {
    && i < |inp.djs| && j < |Tracks(s, inp.djs[i])| && Tracks(s, inp.djs[i])[j].videoID == v
    && LoopResets(s, p, inp.djs[i], inp.online)
    && Offered(p, Tracks(s, inp.djs[i])[j])
    && (forall k: nat | k < j :: !Offered(p, Tracks(s, inp.djs[i])[k]))
    && EarlierOfferNothing(s, p, inp, i)
  }

  lemma BlockedTurn(s: Club, p: Play, inp: Input, v: string, i: nat, j: nat)
    requires Blocked(s, inp, v)
    ensures ResetTurn(s, p, inp, v, i, j) <==> VideoTurn(s, p, inp, v, i, j)
  {
    hide EarlierOfferNothing, LoopResets, Tracks, Broken, Stale;
    if i < |inp.djs| { assert inp.djs[i] in inp.djs; }
  }

  /**
    A block holds exactly until the rotation's turn falls on an absent DJ whose played-through list
    starts over with the video.
   */
  lemma BlockedStartsExactly(s: Club, club: string, p: Play, inp: Input, outcome: Credibility.Outcome, v: string)
    requires Blocked(s, inp, v)
    ensures StartsVideo(Advance(s, club, p, inp, outcome), v)
       <==> exists i: nat, j: nat :: ResetTurn(s, p, inp, v, i, j)
  {
    hide Advance, VideoTurn, ResetTurn, StartsVideo, Blocked;
    AdvanceStartsVideo(s, club, p, inp, outcome, v);
    forall i: nat, j: nat ensures ResetTurn(s, p, inp, v, i, j) <==> VideoTurn(s, p, inp, v, i, j) {
      BlockedTurn(s, p, inp, v, i, j);
    }
  }

  // ── the video a club has stopped on ─────────────────────────────────────────

  /** At rest the stopped video is judged like any other. */
  lemma RestIgnoresVideo(s: Club, p: Play, w: string, dj: string, t: CondTrack, inp: Input)
    requires !p.playing
    ensures CellOpen(s, p.(videoID := w), dj, t, inp) <==> CellOpen(s, p, dj, t, inp)
  {
    hide Tracks, Stale, Guarded, LoopResets;
    var q := p.(videoID := w);
    forall x ensures Offered(q, x) <==> Offered(p, x) {
    }
    RestReset(s, p, q, dj, inp);
    RestGuard(s, p, q, dj, t, inp);
  }

  lemma RestReset(s: Club, p: Play, q: Play, dj: string, inp: Input)
    requires forall x :: Offered(q, x) <==> Offered(p, x)
    ensures LoopResets(s, q, dj, inp.online) <==> LoopResets(s, p, dj, inp.online)
  {
    hide Tracks, Stale, Offered;
  }

  lemma RestGuard(s: Club, p: Play, q: Play, dj: string, t: CondTrack, inp: Input)
    requires Offered(q, t) <==> Offered(p, t)
    ensures Guarded(s, q, dj, t, inp) <==> Guarded(s, p, dj, t, inp)
  {
    hide Offered;
  }

  predicate OpenAtRest(s: Club, p: Play, dj: string, t: CondTrack, inp: Input) {
    && t.active
    && (LoopResets(s, p, dj, inp.online)
        || ((Managed(s, dj) || !Stale(s, dj, t.videoID)) && !Broken(s, t.videoID, inp.now)))
  }

  /**
    The stopped video is open again exactly if a queue offers it and either the list starts over, or
    it is not broken and the relay manages the queue or the queue is newer than its last play.
   */
  lemma StoppedVideoReopens(s: Club, p: Play, dj: string, t: CondTrack, inp: Input)
    requires !p.playing
    ensures CellOpen(s, p, dj, t, inp) <==> OpenAtRest(s, p, dj, t, inp)
  {
    hide Stale, LoopResets, Broken;
  }

  /** The turn falls on a copy of the video, spelled out for a club at rest. */
  ghost predicate RestTurn(s: Club, p: Play, inp: Input, v: string, i: nat, j: nat) {
    && i < |inp.djs| && j < |Tracks(s, inp.djs[i])| && Tracks(s, inp.djs[i])[j].videoID == v
    && OpenAtRest(s, p, inp.djs[i], Tracks(s, inp.djs[i])[j], inp)
    && (forall k: nat | k < j :: !OpenAtRest(s, p, inp.djs[i], Tracks(s, inp.djs[i])[k], inp))
    && EarlierOfferNothing(s, p, inp, i)
  }

  predicate BootstrapDue(s: Club, inp: Input) {
    inp.now - (if s.woken then 0 else s.bootstrapAt) >= HEARTBEAT_MS
  }

  lemma RestTurnIsTurn(s: Club, p: Play, inp: Input, v: string, i: nat, j: nat)
    requires !p.playing
    ensures RestTurn(s, p, inp, v, i, j) <==> VideoTurn(s, p, inp, v, i, j)
  {
    hide OpenAtRest, CellOpen, Tracks, EarlierOfferNothing;
    if i < |inp.djs| {
      forall k: nat | k < |Tracks(s, inp.djs[i])|
        ensures CellOpen(s, p, inp.djs[i], Tracks(s, inp.djs[i])[k], inp)
           <==> OpenAtRest(s, p, inp.djs[i], Tracks(s, inp.djs[i])[k], inp)
      {
        StoppedVideoReopens(s, p, inp.djs[i], Tracks(s, inp.djs[i])[k], inp);
      }
    }
  }

  /**
    The next tick starts the stopped video again exactly when the bootstrap is due and the rotation's
    turn falls on a copy of it that is open at rest; nothing holds it back for having just played.
   */
  lemma StoppedStartsExactly(s: Club, club: string, inp: Input)
    requires s.play.Some? && !s.play.value.playing && inp.djs != [] && Sensible(inp) && ClubOk(s)
    ensures StartsVideo(Tick(s, club, inp), s.play.value.videoID)
       <==> BootstrapDue(s, inp)
            && exists i: nat, j: nat ::
                RestTurn(s.(woken := false, bootstrapAt := inp.now), s.play.value, inp, s.play.value.videoID, i, j)
  {
    hide Advance, VideoTurn, RestTurn, OrderOk;
    var p, s2 := s.play.value, s.(woken := false, bootstrapAt := inp.now);
    AdvanceStartsVideo(s2, club, p, inp, Credibility.Discarded, p.videoID);
    forall i: nat, j: nat
      ensures RestTurn(s2, p, inp, p.videoID, i, j) <==> VideoTurn(s2, p, inp, p.videoID, i, j)
    {
      RestTurnIsTurn(s2, p, inp, p.videoID, i, j);
    }
  }

  // ── runs in which a video starts again ──────────────────────────────────────

  lemma RunStep(w: World, e: Event, es: seq<Event>)
    requires ClubsOk(w) && Legal(w, e) && ClubsOk(Do(w, e)) && LegalRun(Do(w, e), es)
    ensures LegalRun(w, [e] + es) && Run(w, [e] + es) == Run(Do(w, e), es)
  {
    hide Do, ClubsOk, Legal;
    assert ([e] + es)[1..] == es;
  }

  /** A patch in the queue's own second leaves the club as it was, but for marks of a spent queue. */
  lemma LostPatch(s: Club, club: string, dj: string, v: string, second: int)
    requires dj in s.queues && second <= s.queues[dj].createdAt && AnyHit(s.queues[dj].tags, v)
    ensures MarkedOff(s, club, dj, v, second)
         == if AnyActive(Patched(club, dj, s.queues[dj].tags, v)) then s else s.(played := s.played - {dj})
  {
    hide AnyHit, Patched, AnyActive;
  }

  // The last song loops: one DJ, one video, a patch that is lost in the second of the queue.

  const A := CondTrack(SONG, "A", 0, true)
  const AT_END := SAME_SECOND.(now := 800_500, patchSecond := 800)
  const AT_RETRY := SAME_SECOND.(now := 860_500, patchSecond := 860)

  const FIRST := Play(1, SONG, "dj", "A", 0, 200_500, 200_500, true, false, NO_ORDER)
  const PLAYING := WAITING.(play := Some(FIRST), row := Some(Save(FIRST)), bootstrapAt := 200_500, woken := false)
  const PAUSED := Stopped(FIRST, 800_500)
  const STOPPED := PLAYING.(play := Some(PAUSED), row := Some(Save(PAUSED)), bootstrapAt := 845_500)

  lemma OneTrackIsSpent()
    ensures AnyHit(ONE_TRACK, SONG) && !AnyActive(Patched("club", "dj", ONE_TRACK, SONG))
  {
    var t := ONE_TRACK[2];
    assert ("yt:" + SONG)[3..] == SONG && t in ONE_TRACK && Hit(t, SONG);
    var m := MarkTag(t, SONG);
    assert IsOff(m) && ONE_TRACK[0][0] == "h" && ONE_TRACK[1][0] == "d";
    assert ONE_TRACK[1..][1..] == [t] && [t][1..] == [];
    assert MarkTags([t], SONG) == [m];
    assert MarkTags(ONE_TRACK, SONG) == MarkTags(ONE_TRACK[1..], SONG) == MarkTags(ONE_TRACK[1..][1..], SONG);
    assert Patched("club", "dj", ONE_TRACK, SONG) == Header("club", "dj") + [m];
    assert forall h | h in Header("club", "dj") :: !IsTrackTag(h);
  }

  /** At the first track of the only DJ the turn falls exactly if it is open. */
  lemma OnlyTurn(s: Club, p: Play, inp: Input)
    requires inp.djs == ["dj"] && Tracks(s, "dj") == [A] && CellOpen(s, p, "dj", A, inp)
    ensures Turn(s, p, inp, 0, 0)
  {
    hide CellOpen, RoundRobin.Index;
    assert inp.djs[0] == "dj" && Tracks(s, "dj")[0] == A;
  }

  lemma WaitingStarts()
    ensures Tick(WAITING, "club", SAME_SECOND) == Effect(PLAYING, [], [StartOf("club", FIRST)])
  {
    hide Advance, MarkedOff, Turn, Patched, AnyHit, AnyActive, Parse;
    var s := WAITING.(play := Some(IDLE), bootstrapAt := 200_500, woken := false);
    assert Tick(WAITING, "club", SAME_SECOND) == Advance(s, "club", IDLE, SAME_SECOND, Credibility.Discarded);
    OneTrackParses();
    OnlyTurn(s, IDLE, SAME_SECOND);
    AdvanceTakes(s, "club", IDLE, SAME_SECOND, Credibility.Discarded, 0, 0);
    var marked := s.(played := WithMark(KeptMarks(s, IDLE, SAME_SECOND), "dj", SONG, 200_500));
    OneTrackIsSpent();
    LostPatch(marked, "club", "dj", SONG, 200);
    assert marked.played - {"dj"} == map[];
    NothingSettled(s, "club", IDLE, SAME_SECOND, Credibility.Discarded);
  }

  lemma NothingSettled(s: Club, club: string, p: Play, inp: Input, outcome: Credibility.Outcome)
    requires !p.playing
    ensures Advance(s, club, p, inp, outcome).attempts == []
  {
    hide MarkedOff, MatrixOf, KeptMarks, RoundRobin.Pick;
  }

  lemma PlayingStops()
    ensures var e := Tick(PLAYING, "club", AT_END); e.club == STOPPED && e.starts == []
  {
    hide Parse, MatrixOf, RoundRobin.Pick, CellOpen;
    OneTrackParses();
    assert Tick(PLAYING, "club", AT_END) == Advance(PLAYING, "club", FIRST, AT_END, Credibility.Played);
    forall dj, t | dj in AT_END.djs && t in Tracks(PLAYING, dj) ensures !CellOpen(PLAYING, FIRST, dj, t, AT_END) {
      CurrentIsClosed(PLAYING, FIRST, dj, t, AT_END);
    }
    AdvanceChooses(PLAYING, "club", FIRST, AT_END, Credibility.Played);
    assert KeptMarks(PLAYING, FIRST, AT_END) == map[];
  }

  lemma CurrentIsClosed(s: Club, p: Play, dj: string, t: CondTrack, inp: Input)
    requires p.playing && t.videoID == p.videoID
    ensures !CellOpen(s, p, dj, t, inp)
  {
    hide LoopResets;
  }

  lemma StoppedStartsAgain()
    ensures StartsVideo(Tick(STOPPED, "club", AT_RETRY), SONG) && Tick(STOPPED, "club", AT_RETRY).starts[0].dj == "dj"
    ensures |Tick(STOPPED, "club", AT_RETRY).starts| == 1 && !Tick(STOPPED, "club", AT_RETRY).starts[0].auto
    ensures Tick(STOPPED, "club", AT_RETRY).starts[0].club == "club"
  {
    hide Advance, Turn, Parse;
    var s := STOPPED.(bootstrapAt := 860_500);
    assert Tick(STOPPED, "club", AT_RETRY) == Advance(s, "club", PAUSED, AT_RETRY, Credibility.Discarded);
    OneTrackParses();
    OnlyTurn(s, PAUSED, AT_RETRY);
    AdvanceTakes(s, "club", PAUSED, AT_RETRY, Credibility.Discarded, 0, 0);
  }

  const NEW_CLUB := World(map["club" := FRESH], map["club" := 0], [], [])

  ghost function Ticks(a: Input, b: Input, c: Input): seq<Event> {
    [Ticked("club", a)] + ([Ticked("club", b)] + ([Ticked("club", c)] + []))
  }

  /** In a new club the DJ signs his queue, and three ticks follow. */
  ghost function LoopRun(): seq<Event> {
    [Queued("club", "dj", QueueEvent(false, 200, ONE_TRACK))] + Ticks(SAME_SECOND, AT_END, AT_RETRY)
  }

  /**
    The song a club has just stopped on can be the next one it plays: a run from a new club, in which
    a DJ signs one queue, starts the same video twice with a stop in between.
   */
  lemma LastSongLoops()
    ensures Boot(NEW_CLUB) && ClubsOk(NEW_CLUB) && LegalRun(NEW_CLUB, LoopRun())
    ensures |Run(NEW_CLUB, LoopRun()).starts| == 2
        && Videos(Run(NEW_CLUB, LoopRun()).starts, "club", "dj") == [SONG, SONG]
    ensures Tick(WAITING, "club", SAME_SECOND).club == PLAYING
    ensures ClubOk(PLAYING) && Tick(PLAYING, "club", AT_END).club == STOPPED
    ensures STOPPED.play.value.videoID == SONG && !STOPPED.play.value.playing
  {
    hide Tick, ClubOk, QueueIndexed;
    ClubOkAtRest(FRESH);
    ClubOkAtRest(WAITING);
    WaitingIsIndexed();
    WaitingStarts();
    PlayingStops();
    StoppedStartsAgain();
    var w := World(map["club" := WAITING], map["club" := 0], [], []);
    var q := Queued("club", "dj", QueueEvent(false, 200, ONE_TRACK));
    assert Do(NEW_CLUB, q) == w;
    ThreeTicks(w, SAME_SECOND, AT_END, AT_RETRY);
    RunStep(NEW_CLUB, q, Ticks(SAME_SECOND, AT_END, AT_RETRY));
    var last := Tick(STOPPED, "club", AT_RETRY).starts[0];
    TwoVideos(StartOf("club", FIRST), last, "club", "dj");
    assert Run(NEW_CLUB, LoopRun()).starts == [StartOf("club", FIRST), last];
  }

  lemma TwoVideos(a: Start, b: Start, club: string, dj: string)
    requires a.club == club && a.dj == dj && !a.auto && b.club == club && b.dj == dj && !b.auto
    ensures Videos([a, b], club, dj) == [a.videoID, b.videoID]
  {
    assert [a, b] == [a] + ([b] + []);
    VideosAppend([a], [b], club, dj);
    VideosAppend([b], [], club, dj);
    OneVideo(a, club, dj);
    OneVideo(b, club, dj);
  }

  lemma OneVideo(a: Start, club: string, dj: string)
    ensures Videos([a], club, dj) == if a.club == club && a.dj == dj && !a.auto then [a.videoID] else []
    ensures Videos([], club, dj) == []
  {
    assert [a][1..] == [];
  }

  lemma ClubOkAtRest(s: Club)
    requires s.play.None?
    ensures ClubOk(s)
  {
  }

  /** Three ticks of the one club, spelled out. */
  lemma ThreeTicks(w: World, a: Input, b: Input, c: Input)
    requires ClubsOk(w) && w.clubs.Keys == {"club"} == w.clock.Keys && w.clock["club"] < a.now < b.now < c.now
    requires Sensible(a) && Sensible(b) && Sensible(c)
    ensures LegalRun(w, Ticks(a, b, c))
    ensures var e1 := Tick(w.clubs["club"], "club", a);
            && ClubOk(e1.club)
            && var e2 := Tick(e1.club, "club", b);
            && ClubOk(e2.club)
            && var e3 := Tick(e2.club, "club", c);
            && Run(w, Ticks(a, b, c)).starts == w.starts + e1.starts + e2.starts + e3.starts
  {
    hide Tick, ClubOk, Sensible;
    var t1, t2, t3 := Ticked("club", a), Ticked("club", b), Ticked("club", c);
    DoKeepsClubs(w, t1);
    var w1 := Do(w, t1);
    DoKeepsClubs(w1, t2);
    var w2 := Do(w1, t2);
    DoKeepsClubs(w2, t3);
    RunStep(w2, t3, []);
    RunStep(w1, t2, [t3] + []);
    RunStep(w, t1, [t2] + ([t3] + []));
  }

  // A broken video starts again: two absent DJs, the first one's list reduced to the broken video
  // because the other DJ is playing the rest of it.

  const OTHER := "bbbbbbbbbbb"

  const TWO_TRACKS := [["h", "club"], ["d", "club"], ["track", "yt:" + SONG, "A"], ["track", "yt:" + OTHER, "B"]]
  const OTHER_TRACK := [["h", "club"], ["d", "club"], ["track", "yt:" + OTHER, "B"]]
  const B := CondTrack(OTHER, "B", 0, true)

  const PAIR := FRESH.(
    queues := map["d1" := QueueEvent(false, 200, TWO_TRACKS), "d2" := QueueEvent(false, 150, OTHER_TRACK)],
        woken := true)

  const OPENING := SAME_SECOND.(djs := ["d1", "d2"])
  const REPORTED := OPENING.(now := 215_500, patchSecond := 215, broken := true)
  const SKIPPED := OPENING.(now := 230_500, patchSecond := 230, skip := true)

  const OF_D1 := Play(1, SONG, "d1", "A", 0, 200_500, 200_500, true, false, NO_ORDER)
  const OF_D2 := Play(2, OTHER, "d2", "B", 0, 215_500, 215_500, true, false, NO_ORDER)

  const PLAYS_A := PAIR.(
    play := Some(OF_D1), row := Some(Save(OF_D1)), played := map["d1" := map[SONG := 200_500]],
    bootstrapAt := 200_500, woken := false)

  /** The two tags in front of a DJ's tracks name the club. */
  lemma ClubTagsSkipped(ts: seq<Tag>, v: string)
    ensures var tags := [["h", "club"], ["d", "club"]] + ts;
         Parse(tags) == Parse(ts) && MarkTags(tags, v) == MarkTags(ts, v)
  {
    var tags := [["h", "club"], ["d", "club"]] + ts;
    assert tags[0][0] == "h" && tags[1][0] == "d" && tags[1..][1..] == ts;
    assert Parse(tags[1..]) == Parse(tags[1..][1..]) && MarkTags(tags[1..], v) == MarkTags(tags[1..][1..], v);
  }

  lemma OtherIsOther()
    ensures SONG != OTHER && ("yt:" + SONG)[3..] == SONG && ("yt:" + OTHER)[3..] == OTHER
  {
    assert SONG[0] != OTHER[0];
  }

  lemma PairParses()
    ensures Parse(TWO_TRACKS) == [A, B] && Parse(OTHER_TRACK) == [B]
  {
    var t, u := TWO_TRACKS[2], TWO_TRACKS[3];
    OtherIsOther();
    assert TWO_TRACKS == [["h", "club"], ["d", "club"]] + [t, u] && OTHER_TRACK == [["h", "club"], ["d", "club"]] + [u];
    ClubTagsSkipped([t, u], SONG);
    ClubTagsSkipped([u], SONG);
    assert [t, u][1..] == [u] && [u][1..] == [];
    assert Parse([u]) == [B];
  }

  /** The pair's queues arrive one after the other in a new club. */
  lemma PairIsIndexed()
    ensures QueueIndexed(QueueIndexed(FRESH, "d2", PAIR.queues["d2"]), "d1", PAIR.queues["d1"]) == PAIR
  {
    assert OTHER_TRACK[2] in OTHER_TRACK && TWO_TRACKS[2] in TWO_TRACKS;
    assert FRESH.queues["d2" := PAIR.queues["d2"]]["d1" := PAIR.queues["d1"]] == PAIR.queues;
  }

  lemma FirstOfTwoIsOpen(s: Club, p: Play, inp: Input)
    requires inp.djs == ["d1", "d2"] && p.dj != "d1"
    requires Tracks(s, "d1") == [A, B] && CellOpen(s, p, "d1", A, inp)
    ensures Turn(s, p, inp, 0, 0)
  {
    hide CellOpen;
    assert inp.djs[0] == "d1" && inp.djs[1] == "d2";
    assert RoundRobin.Turns(2, RoundRobin.Index(inp.djs, p.dj), 0) == 0;
  }

  lemma SecondIsOpen(s: Club, p: Play, inp: Input)
    requires inp.djs == ["d1", "d2"] && p.dj == "d1"
    requires Tracks(s, "d2") == [B] && CellOpen(s, p, "d2", B, inp)
    ensures Turn(s, p, inp, 1, 0)
  {
    hide CellOpen;
    assert inp.djs[0] == "d1" && inp.djs[1] == "d2";
    assert RoundRobin.Turns(2, RoundRobin.Index(inp.djs, p.dj), 1) == 0;
  }

  lemma TwoTracksStayActive()
    ensures AnyHit(TWO_TRACKS, SONG) && AnyActive(Patched("club", "d1", TWO_TRACKS, SONG))
  {
    var t, u := TWO_TRACKS[2], TWO_TRACKS[3];
    OtherIsOther();
    assert t in TWO_TRACKS && Hit(t, SONG) && !Hit(u, SONG);
    assert TWO_TRACKS == [["h", "club"], ["d", "club"]] + [t, u];
    ClubTagsSkipped([t, u], SONG);
    assert [t, u][1..] == [u] && [u][1..] == [];
    assert MarkTags([u], SONG) == [u];
    assert MarkTags([t, u], SONG) == [MarkTag(t, SONG)] + [u];
    var patched := Patched("club", "d1", TWO_TRACKS, SONG);
    assert patched == Header("club", "d1") + [MarkTag(t, SONG), u];
    assert patched[4] == u;
  }

  lemma PairStarts()
    ensures var e := Tick(PAIR, "club", OPENING); e.club == PLAYS_A && e.starts == [StartOf("club", OF_D1)]
  {
    hide Advance, MarkedOff, Turn, Patched, AnyHit, AnyActive, Parse;
    var s := PAIR.(play := Some(IDLE), bootstrapAt := 200_500, woken := false);
    assert Tick(PAIR, "club", OPENING) == Advance(s, "club", IDLE, OPENING, Credibility.Discarded);
    PairParses();
    FirstOfTwoIsOpen(s, IDLE, OPENING);
    AdvanceTakes(s, "club", IDLE, OPENING, Credibility.Discarded, 0, 0);
    var marked := s.(played := WithMark(KeptMarks(s, IDLE, OPENING), "d1", SONG, 200_500));
    assert KeptMarks(s, IDLE, OPENING) == map[];
    TwoTracksStayActive();
    LostPatch(marked, "club", "d1", SONG, 200);
  }

  /** What the second tick leaves of the first DJ: his queue, his mark, and the report. */
  lemma PairGoesOn()
    ensures var e := Tick(PLAYS_A, "club", REPORTED);
            && e.starts == [StartOf("club", OF_D2)] && e.club.play == Some(OF_D2)
            && "d1" in e.club.queues && e.club.queues["d1"] == PAIR.queues["d1"]
            && PlayedAt(e.club, "d1", SONG) == 200_500
            && e.club.brokenVids == map[SONG := 215_500]
  {
    hide Advance, Turn, MarkedOff, Parse, CellOpen;
    var s := PLAYS_A.(brokenSkipAt := 215_500, brokenVids := map[SONG := 215_500]);
    assert Tick(PLAYS_A, "club", REPORTED) == Advance(s, "club", OF_D1, REPORTED, Credibility.Discarded);
    PairParses();
    OtherIsOpen(s);
    SecondIsOpen(s, OF_D1, REPORTED);
    AdvanceTakes(s, "club", OF_D1, REPORTED, Credibility.Discarded, 1, 0);
    FirstKeepsMarks(s, OF_D1, REPORTED);
    var marked := s.(played := WithMark(KeptMarks(s, OF_D1, REPORTED), "d2", OTHER, 215_500));
    OthersUntouched(marked, "club", "d2", OTHER, 215, "d1");
    var r := MarkedOff(marked, "club", "d2", OTHER, 215);
    assert PlayedAt(marked, "d1", SONG) == 200_500;
    assert PlayedAt(r, "d1", SONG) == 200_500;
  }

  lemma OtherIsOpen(s: Club)
    requires s.queues == PAIR.queues && s.played == PLAYS_A.played && s.brokenVids == map[SONG := 215_500]
    ensures Tracks(s, "d2") == [B] && CellOpen(s, OF_D1, "d2", B, REPORTED)
  {
    PairParses();
    assert B in Tracks(s, "d2") && Offered(OF_D1, B);
  }

  /** The patch of one DJ's queue leaves the others' queues and marks and the reports alone. */
  lemma OthersUntouched(s: Club, club: string, dj: string, v: string, second: int, other: string)
    requires other != dj
    ensures var r := MarkedOff(s, club, dj, v, second);
            && (other in r.queues <==> other in s.queues) && (other in s.queues ==> r.queues[other] == s.queues[other])
            && r.brokenVids == s.brokenVids && forall x :: PlayedAt(r, other, x) == PlayedAt(s, other, x)
  {
    hide AnyHit, Patched, AnyActive;
  }

  lemma FirstKeepsMarks(s: Club, p: Play, inp: Input)
    requires s.played == map["d1" := map[SONG := 200_500]] && s.brokenVids == map[SONG := 215_500]
    requires Tracks(s, "d1") == [A, B] && p.videoID == SONG && p.playing && !Stale(s, "d1", OTHER)
    ensures KeptMarks(s, p, inp) == s.played
  {
    assert B in Tracks(s, "d1") && Offered(p, B);
  }

  lemma BrokenStarts(s: Club)
    requires s.play == Some(OF_D2) && "d1" in s.queues && s.queues["d1"] == PAIR.queues["d1"]
    requires PlayedAt(s, "d1", SONG) == 200_500 && s.brokenVids == map[SONG := 215_500]
    ensures Broken(s, SONG, SKIPPED.now)
    ensures var e := Tick(s, "club", SKIPPED);
            |e.starts| == 1 && e.starts[0].videoID == SONG && e.starts[0].dj == "d1" && e.starts[0].club == "club"
                && !e.starts[0].auto
  {
    hide Advance, Turn, Parse;
    assert Tick(s, "club", SKIPPED) == Advance(s, "club", OF_D2, SKIPPED, Credibility.Discarded);
    PairParses();
    assert Tracks(s, "d1") == [A, B] && A in Tracks(s, "d1") && Offered(OF_D2, A);
    assert LoopResets(s, OF_D2, "d1", {});
    FirstOfTwoIsOpen(s, OF_D2, SKIPPED);
    AdvanceTakes(s, "club", OF_D2, SKIPPED, Credibility.Discarded, 0, 0);
  }

  /** In a new club two DJs sign their queues, and three ticks follow. */
  ghost function BrokenRun(): seq<Event> {
    [Queued("club", "d2", PAIR.queues["d2"])] + ([Queued("club", "d1", PAIR.queues["d1"])] + Ticks(OPENING, REPORTED,
        SKIPPED))
  }

  lemma PairArrives()
    ensures ClubsOk(NEW_CLUB) && LegalRun(NEW_CLUB, BrokenRun())
    ensures var e1 := Tick(PAIR, "club", OPENING);
            && ClubOk(e1.club)
            && var e2 := Tick(e1.club, "club", REPORTED);
            && ClubOk(e2.club)
            && Run(NEW_CLUB, BrokenRun()).starts == e1.starts + e2.starts + Tick(e2.club, "club", SKIPPED).starts
  {
    hide Tick, ClubOk, QueueIndexed;
    var one := QueueIndexed(FRESH, "d2", PAIR.queues["d2"]);
    ClubOkAtRest(FRESH);
    QueueKeepsRest(FRESH, "d2", PAIR.queues["d2"]);
    ClubOkAtRest(one);
    ClubOkAtRest(PAIR);
    PairIsIndexed();
    var q2, q1 := Queued("club", "d2", PAIR.queues["d2"]), Queued("club", "d1", PAIR.queues["d1"]);
    var w1, w2 := World(map["club" := one], map["club" := 0], [], []),
        World(map["club" := PAIR], map["club" := 0], [], []);
    assert Do(NEW_CLUB, q2) == w1 && Do(w1, q1) == w2;
    ThreeTicks(w2, OPENING, REPORTED, SKIPPED);
    RunStep(w1, q1, Ticks(OPENING, REPORTED, SKIPPED));
    RunStep(NEW_CLUB, q2, [q1] + Ticks(OPENING, REPORTED, SKIPPED));
  }

  lemma QueueKeepsRest(s: Club, dj: string, q: QueueEvent)
    ensures QueueIndexed(s, dj, q).play == s.play
  {
  }

  /**
    A video whose broken report is fifteen seconds old starts again: a run from a new club, in which
    two DJs sign one queue each.
   */
  lemma BrokenVideoStartsAgain()
    ensures Boot(NEW_CLUB) && ClubsOk(NEW_CLUB) && LegalRun(NEW_CLUB, BrokenRun())
    ensures Videos(Run(NEW_CLUB, BrokenRun()).starts, "club", "d1") == [SONG, SONG]
    ensures Tick(PAIR, "club", OPENING).club == PLAYS_A && ClubOk(PLAYS_A)
    ensures Broken(Tick(PLAYS_A, "club", REPORTED).club, SONG, SKIPPED.now)
  {
    hide Tick, ClubOk, Broken, BrokenRun, Videos;
    PairStarts();
    PairGoesOn();
    PairArrives();
    var s2 := Tick(PLAYS_A, "club", REPORTED).club;
    BrokenStarts(s2);
    var last := Tick(s2, "club", SKIPPED).starts[0];
    assert Run(NEW_CLUB, BrokenRun()).starts == [StartOf("club", OF_D1), StartOf("club", OF_D2), last];
    FirstAndThird(StartOf("club", OF_D1), StartOf("club", OF_D2), last, "club", "d1");
  }

  lemma FirstAndThird(a: Start, b: Start, c: Start, club: string, dj: string)
    requires a.club == club && a.dj == dj && !a.auto && c.club == club && c.dj == dj && !c.auto && b.dj != dj
    ensures Videos([a, b, c], club, dj) == [a.videoID, c.videoID]
  {
    assert [a, b, c] == [a] + ([b] + [c]);
    VideosAppend([a], [b] + [c], club, dj);
    VideosAppend([b], [c], club, dj);
    OneVideo(a, club, dj);
    OneVideo(b, club, dj);
    OneVideo(c, club, dj);
  }
}
