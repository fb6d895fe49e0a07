/**
  What a club resumes with: an eviction or a restart of the relay keeps the running track, unless it
  should have ended more than two hours ago.
 */
module Restarts {
  import opened Wrappers
  import opened Playback
  import opened PlaybackRuns
  import opened Verdicts
  import opened Openings

  /** Two hours and a second past the track's end, ten minutes standing for an unknown length. */
  predicate LongOver(r: Saved, now: int) {
    r.playing && now - r.startedAt >= 1000 * ((if r.duration <= 0 then 600 else r.duration) + 7200 + 1)
  }

  lemma LongOverIsTooOld(r: Saved, now: int)
    ensures LongOver(r, now) <==> TooOld(r, now)
  {
  }

  /** What a club that is not in memory is loaded with, field by field of its saved row. */
  lemma {:induction false} ResumeIsExact(s: Club, inp: Input)
    requires s.play.None?
    ensures var q := Loaded(s, inp).play.value;
            match s.row
            case None => q == IDLE
            case Some(r) =>
              && q.pos == r.pos && q.dj == r.dj && q.title == r.title && q.duration == r.duration
              && q.startedAt == r.startedAt && q.lastBeat == 0 && q.order == NO_ORDER
              && (q.playing <==> r.playing && !LongOver(r, inp.now))
              && q.videoID == (if LongOver(r, inp.now) then "" else r.videoID)
              && q.auto == if inp.announcedAuto.Some? then q.playing && inp.announcedAuto.value else r.auto
  {
    hide TooOld, LongOver;
    if s.row.Some? { LongOverIsTooOld(s.row.value, inp.now); }
  }

  /** The club without its playback state in memory: evicted, or the relay restarted. */
  function Gone(s: Club): Club {
    s.(play := None)
  }

  /**
    A restart while a real DJ's track plays: at the next look the very same track is on the air, with
    its position, start and length, if and only if it is not long over.
   */
  lemma {:induction false} RestartKeepsTrack(s: Club, club: string, inp: Input, next: Input)
    requires Sensible(inp) && ClubOk(s) && inp.djs != [] && Tick(s, club, inp).starts != []
    ensures var st, r := Tick(s, club, inp).starts[0], Gone(Tick(s, club, inp).club);
            var kept := Air(Loaded(r, next), club);
            if next.now - st.startedAt < 1000 * ((if st.duration <= 0 then 600 else st.duration) + 7201)
            then kept == Some(st.(auto := next.announcedAuto.Some? && next.announcedAuto.value))
            else kept == None
  {
    hide Tick, ClubOk, Loaded, MovesOn, NextInTurn, Tracks;
    OrderOfClub(s);
    var i, j := StartWasTurn(s, club, inp);
    TickTakesTurn(s, club, inp, i, j);
    var e := Tick(s, club, inp);
    var r := Gone(e.club);
    assert r.row.Some? && r.row.value.playing && !r.row.value.auto;
    assert StartOf(club, e.club.play.value) == e.starts[0];
    ResumeIsExact(r, next);
    LoadedKeeps(r, next);
  }

  /** A track that nobody drives is settled when it ends, and the club is left with a stopped row. */
  lemma {:induction false} EvictionIsExact(s: Club, club: string, inp: Input)
    requires ClubOk(s) && inp.djs == [] && inp.auto.None? && s.play.Some?
    ensures OrderOk(s.play.value.order)
    ensures var p, r := s.play.value, Tick(s, club, inp).club;
            if p.playing && !FullTime(p, inp)
            then Air(r, club) == Air(s, club)
            else if p.playing
            then r.play.None? && r.row.Some? && SavedAs(r.row.value, p.(playing := false, auto := false))
            else r.play.None? && r.row == s.row
  {
    hide Ended, FullTime;
    FullTimeIsEnded(s.play.value, inp);
  }
}
