/**
  What one tick decides about the running track: whether it is settled and with which outcome, what
  the settlement records, whether a track starts, and what the tick remembers of it. Everything is
  said in terms of what the tick reads and of the club's state before it.
 */
module Verdicts {
  import opened Wrappers
  import opened AutoOrder
  import opened QueueTags
  import opened Credibility
  import opened Playback
  import opened PlaybackRuns
  import Drain
  import Sorting
  import RoundRobin

  // ── what cuts a track short ─────────────────────────────────────────────────

  /** The track has run its length, or ten minutes when its length is unknown. */
  predicate FullTime(p: Play, inp: Input) {
    inp.now - p.startedAt >= 1000 * if p.duration <= 0 then 600 else p.duration
  }

  /** A broken report, not within fifteen seconds of the last one acted on. */
  predicate BrokenDue(s: Club, p: Play, inp: Input) {
    inp.broken && p.videoID != "" && inp.now - s.brokenSkipAt >= 15_000
  }

  /** Three skip votes, not within fifteen seconds of the last ones acted on. */
  predicate VotedOff(s: Club, inp: Input) {
    inp.skips >= 3 && inp.now - s.moodSkipAt >= 15_000
  }

  /** Nobody is on stage any more, or others are and the track's DJ has left: it runs to its end. */
  predicate Sheltered(p: Play, inp: Input) {
    if inp.djs != [] then p.dj != "" && p.dj !in inp.djs else inp.auto.None?
  }

  /** The club is in memory, or somebody plays and it is loaded. */
  predicate Tended(s: Club, inp: Input) {
    s.play.Some? || inp.djs != [] || inp.auto.Some?
  }

  /** A track is playing when the tick looks. */
  predicate Playing(s: Club, inp: Input) {
    Tended(s, inp) && Loaded(s, inp).play.value.playing
  }

  predicate Skipped(s: Club, p: Play, inp: Input) {
    !Sheltered(p, inp) && inp.skip
  }

  predicate ReportedBroken(s: Club, p: Play, inp: Input) {
    !Sheltered(p, inp) && !inp.skip && BrokenDue(s, p, inp)
  }

  predicate CommunityActs(s: Club, p: Play, inp: Input) {
    !Sheltered(p, inp) && !inp.skip && !BrokenDue(s, p, inp) && VotedOff(s, inp)
  }

  predicate RunsOut(s: Club, p: Play, inp: Input) {
    FullTime(p, inp) && (Sheltered(p, inp) || (!inp.skip && !BrokenDue(s, p, inp) && !VotedOff(s, inp)))
  }

  predicate SettledAs(attempts: seq<Attempt>, outcome: Outcome) {
    attempts != [] && attempts[0].settlement.outcome == outcome
  }

  // ── the outcome ─────────────────────────────────────────────────────────────

  /** What the tick does with the running track, whoever drives the club. */
  ghost predicate Judged(s: Club, club: string, inp: Input, e: Effect) {
    var p := Loaded(s, inp).play.value;
    && (SettledAs(e.attempts, Played) <==> Playing(s, inp) && RunsOut(s, p, inp))
    && (SettledAs(e.attempts, CommunitySkipped) <==> Playing(s, inp) && CommunityActs(s, p, inp))
    && (SettledAs(e.attempts, Discarded)
        <==> Playing(s, inp) && (Skipped(s, p, inp) || ReportedBroken(s, p, inp)))
  }

  lemma SettleIs(club: string, p: Play, inp: Input, o: Outcome)
    ensures Settle(club, p, inp, o) == if p.playing then [AttemptOf(club, p, inp, o)] else []
    ensures AttemptOf(club, p, inp, o).settlement.outcome == o
  {
  }

  lemma FullTimeIsEnded(p: Play, inp: Input)
    ensures FullTime(p, inp) <==> Ended(p, inp.now)
  {
    EndedMeansFullLength(p, inp.now);
  }

  lemma AdvanceSettles(s: Club, club: string, p: Play, inp: Input, o: Outcome)
    ensures var made := Playback.Advance(s, club, p, inp, o).attempts;
            if p.playing then made != [] && made[0] == AttemptOf(club, p, inp, o) else made == []
  {
    hide AttemptOf, MarkedOff, MatrixOf, KeptMarks, RoundRobin.Pick, RoundRobin.Index, Tracks, WithMark, Stopped;
  }

  lemma ClubJudges(s: Club, club: string, inp: Input)
    requires inp.djs != []
    ensures Judged(s, club, inp, DriveClub(s, club, inp))
  {
    hide Loaded, AttemptOf, Ended, FullTime, Playback.Advance;
    var l := Loaded(s, inp);
    LoadedKeeps(s, inp);
    var p := l.play.value;
    FullTimeIsEnded(p, inp);
    match Judge(l, p, inp) {
      case Move(o, l') =>
        AdvanceSettles(l', club, p, inp, o);
        SettleIs(club, p, inp, o);
      case _ => {}
    }
  }

  /** Loading a club from its row changes nothing but the playback state. */
  lemma LoadedKeeps(s: Club, inp: Input)
    ensures var l := Loaded(s, inp);
            && l.play.Some? && l == s.(play := l.play, row := l.row)
            && (s.play.Some? ==> l == s)
  {
  }

  lemma AutoJudges(s: Club, club: string, inp: Input)
    requires inp.djs == [] && inp.auto.Some? && inp.auto.value.tracks != [] && ClubOk(s)
    ensures Judged(s, club, inp, DriveAuto(s, club, inp.auto.value, inp))
    ensures var p := Loaded(s, inp).play.value;
            DriveAuto(s, club, inp.auto.value, inp).starts != []
            <==> !p.playing || inp.skip || BrokenDue(s, p, inp) || VotedOff(s, inp) || FullTime(p, inp)
  {
    hide Loaded, AttemptOf, Ended, FullTime, Ready, Playback.Shown, Started, OrderOk, Resumed;
    LoadedShape(s, club, inp);
    LoadedKeeps(s, inp);
    var a, l := inp.auto.value, Loaded(s, inp);
    var n, p := |a.tracks|, l.play.value;
    OrderOfClub(l);
    PreparedReady(p.order, n, inp.initSwaps);
    var q := p.(order := Prepared(p.order, n, inp.initSwaps));
    TurnedReady(q, n, inp);
    SameEnd(p, q, inp);
    var r := q.(order := Turned(q, n, inp));
    match JudgeAuto(l, q, inp) {
      case Move(o, _) => SettleIs(club, r, inp, o);
      case _ => {}
    }
  }

  lemma OrderOfClub(s: Club)
    requires ClubOk(s)
    ensures s.play.Some? ==> OrderOk(s.play.value.order)
  {
  }

  lemma SameEnd(p: Play, q: Play, inp: Input)
    requires q == p.(order := q.order)
    ensures Ended(q, inp.now) <==> FullTime(p, inp)
  {
    FullTimeIsEnded(p, inp);
  }

  lemma NobodyJudges(s: Club, club: string, inp: Input)
    requires inp.djs == [] && inp.auto.None?
    ensures Judged(s, club, inp, Abandon(s, club, inp))
  {
    hide AttemptOf, Ended, FullTime, Resumed;
    LoadedKeeps(s, inp);
    var p := Loaded(s, inp).play.value;
    FullTimeIsEnded(p, inp);
    SettleIs(club, p, inp, Played);
  }

  /**
    The outcome of a tick. A track is settled as played exactly if it has run its length and nobody
    cut it short in the same tick, as skipped by the community exactly on three votes, and discarded
    exactly on an authorised skip or a broken report; a track whose DJ has left runs to its end.
   */
  lemma {:induction false} OutcomeIsExact(s: Club, club: string, inp: Input)
    requires Sensible(inp) && ClubOk(s)
    ensures var p, made := Loaded(s, inp).play.value, Tick(s, club, inp).attempts;
            && (SettledAs(made, Played) <==> Playing(s, inp) && RunsOut(s, p, inp))
            && (SettledAs(made, CommunitySkipped) <==> Playing(s, inp) && CommunityActs(s, p, inp))
            && (SettledAs(made, Discarded) <==> Playing(s, inp) && (Skipped(s, p, inp) || ReportedBroken(s, p, inp)))
  {
    hide DriveClub, DriveAuto, Abandon, Loaded, OrderOk, RunsOut, CommunityActs, Skipped, ReportedBroken, SettledAs;
    OrderOfClub(s);
    if inp.djs != [] {
      ClubJudges(s, club, inp);
    } else if inp.auto.Some? {
      AutoJudges(s, club, inp);
    } else {
      NobodyJudges(s, club, inp);
    }
  }

  // ── what a settlement records ───────────────────────────────────────────────

  /** The track on the air, as the tick read it: its title, its votes, and whether the club is public. */
  predicate Records(a: Attempt, club: string, p: Play, inp: Input) {
    && a.at == inp.now && a.duration == p.duration
    && a.settlement == Settlement(club, p.pos, p.startedAt, p.videoID, p.title, p.dj,
                                  if inp.bangers > 5 then 5 else inp.bangers, a.settlement.outcome, inp.listed, p.auto)
  }

  predicate AllRecord(made: seq<Attempt>, club: string, p: Play, inp: Input) {
    forall a | a in made :: Records(a, club, p, inp)
  }

  lemma SettleRecords(club: string, p: Play, inp: Input, o: Outcome)
    ensures AllRecord(Settle(club, p, inp, o), club, p, inp)
  {
  }

  lemma ClubRecords(l: Club, club: string, inp: Input)
    requires l.play.Some?
    ensures AllRecord(DriveLoaded(l, club, inp).attempts, club, l.play.value, inp)
  {
    hide Settle, Records, MarkedOff, MatrixOf, KeptMarks, RoundRobin.Pick, RoundRobin.Index, Tracks, WithMark, Stopped;
    hide Ended, Beaten;
    var p := l.play.value;
    SettleRecords(club, p, inp, Played);
    SettleRecords(club, p, inp, Discarded);
    SettleRecords(club, p, inp, CommunitySkipped);
  }

  lemma AutoRecords(s: Club, club: string, a: Armed, inp: Input)
    requires a.tracks != [] && ClubOk(s)
    ensures AllRecord(DriveAuto(s, club, a, inp).attempts, club, Loaded(s, inp).play.value, inp)
  {
    hide Settle, Ended, Playback.Shown, Started, Resumed, Ready, Records;
    LoadedShape(s, club, inp);
    var l, n := Loaded(s, inp), |a.tracks|;
    PreparedReady(l.play.value.order, n, inp.initSwaps);
    var p := l.play.value.(order := Prepared(l.play.value.order, n, inp.initSwaps));
    TurnedReady(p, n, inp);
    var q := p.(order := Turned(p, n, inp));
    SettleRecords(club, q, inp, Played);
    SettleRecords(club, q, inp, Discarded);
    SettleRecords(club, q, inp, CommunitySkipped);
    forall x | x in DriveAuto(s, club, a, inp).attempts ensures Records(x, club, l.play.value, inp) {
      OrderIsNotRecorded(x, club, l.play.value, q, inp);
    }
  }

  lemma OrderIsNotRecorded(a: Attempt, club: string, p: Play, q: Play, inp: Input)
    requires q == p.(order := q.order)
    ensures Records(a, club, p, inp) <==> Records(a, club, q, inp)
  {
  }

  lemma NobodyRecords(s: Club, club: string, inp: Input)
    ensures AllRecord(Abandon(s, club, inp).attempts, club, Loaded(s, inp).play.value, inp)
  {
    hide Settle, Ended, Records, Resumed;
    LoadedKeeps(s, inp);
    if s.play.Some? { SettleRecords(club, s.play.value, inp, Played); }
  }

  /**
    Every settlement of a tick is about the track on the air, with its title, the votes the tick read,
    and listed publicly exactly if the tick read the club as public.
   */
  lemma {:induction false} SettlementIsExact(s: Club, club: string, inp: Input)
    requires Sensible(inp) && ClubOk(s)
    ensures forall a | a in Tick(s, club, inp).attempts :: Records(a, club, Loaded(s, inp).play.value, inp)
  {
    hide DriveLoaded, DriveAuto, Abandon, Loaded, OrderOk, Records;
    OrderOfClub(s);
    if inp.djs != [] {
      LoadedKeeps(s, inp);
      ClubRecords(Loaded(s, inp), club, inp);
    } else if inp.auto.Some? {
      AutoRecords(s, club, inp.auto.value, inp);
    } else {
      NobodyRecords(s, club, inp);
    }
  }

  // ── whether a track starts ──────────────────────────────────────────────────

  /** The tick moves on: the track makes way, or a resting club is due for another try. */
  predicate MovesOn(s: Club, inp: Input) {
    var p := Loaded(s, inp).play.value;
    if p.playing then
      RunsOut(s, p, inp) || CommunityActs(s, p, inp) || Skipped(s, p, inp) || ReportedBroken(s, p, inp)
    else inp.now - (if s.woken then 0 else s.bootstrapAt) >= 15_000
  }

  /** What the judgement changes besides the outcome does not open or close a cell. */
  lemma JudgedCells(s: Club, t: Club, p: Play, inp: Input)
    requires t.queues == s.queues && t.played == s.played
    requires t.brokenVids == s.brokenVids || (p.playing && t.brokenVids == s.brokenVids[p.videoID := inp.now])
    ensures Drain.NothingOpen(t, p, inp) <==> Drain.NothingOpen(s, p, inp)
  {
    hide Parse;
    forall dj, x | dj in inp.djs && x in Tracks(s, dj)
      ensures CellOpen(t, p, dj, x, inp) <==> CellOpen(s, p, dj, x, inp)
    {
      SameStale(s, t, p, dj, inp);
    }
  }

  lemma SameStale(s: Club, t: Club, p: Play, dj: string, inp: Input)
    requires t.queues == s.queues && t.played == s.played
    ensures Tracks(t, dj) == Tracks(s, dj) && (Managed(t, dj) <==> Managed(s, dj))
    ensures forall v :: Stale(t, dj, v) <==> Stale(s, dj, v)
    ensures LoopResets(t, p, dj, inp.online) <==> LoopResets(s, p, dj, inp.online)
  {
    hide Parse;
    forall v ensures Stale(t, dj, v) <==> Stale(s, dj, v) {
    }
    assert Tracks(t, dj) == Tracks(s, dj);
  }

  lemma JudgeMoves(s: Club, l: Club, p: Play, inp: Input)
    requires inp.djs != [] && l == s.(play := Some(p), row := l.row) && Loaded(s, inp).play.value == p
    ensures Judge(l, p, inp).Move? <==> MovesOn(s, inp)
    ensures var v := Judge(l, p, inp);
            v.Move? ==>
              && v.club.queues == s.queues && v.club.played == s.played && v.club.woken == (p.playing && s.woken)
              && (v.club.brokenVids == s.brokenVids
                  || (p.playing && v.club.brokenVids == s.brokenVids[p.videoID := inp.now]))
  {
    hide Ended, FullTime, Resumed, Loaded;
    FullTimeIsEnded(p, inp);
  }

  /** A tick with real DJs starts a track exactly if it moves on and some DJ offers one. */
  lemma ClubStarts(s: Club, club: string, inp: Input)
    requires inp.djs != []
    ensures DriveClub(s, club, inp).starts != []
       <==> MovesOn(s, inp) && !Drain.NothingOpen(s, Loaded(s, inp).play.value, inp)
  {
    hide MovesOn, Judge, Playback.Advance, Drain.NothingOpen, Loaded;
    LoadedKeeps(s, inp);
    var l := Loaded(s, inp);
    var p := l.play.value;
    JudgeMoves(s, l, p, inp);
    match Judge(l, p, inp) {
      case Move(o, t) =>
        Drain.AdvanceChooses(t, club, p, inp, o);
        JudgedCells(s, t, p, inp);
      case _ => {}
    }
  }

  /**
    Whether a tick starts a track: with real DJs exactly if it moves on and some DJ offers one, with
    the Auto DJ alone exactly if nothing plays, somebody cuts the track short or it has run its
    length, and with nobody never.
   */
  lemma {:induction false} StartIsExact(s: Club, club: string, inp: Input)
    requires Sensible(inp) && ClubOk(s)
    ensures var p := Loaded(s, inp).play.value;
            Tick(s, club, inp).starts != [] <==>
              if inp.djs != [] then MovesOn(s, inp) && !Drain.NothingOpen(s, p, inp)
              else inp.auto.Some?
                   && (!p.playing || inp.skip || BrokenDue(s, p, inp) || VotedOff(s, inp) || FullTime(p, inp))
  {
    hide DriveClub, DriveAuto, Loaded, OrderOk, MovesOn, Drain.NothingOpen;
    OrderOfClub(s);
    if inp.djs != [] {
      ClubStarts(s, club, inp);
    } else if inp.auto.Some? {
      AutoJudges(s, club, inp);
    }
  }

  // ── what the tick remembers ─────────────────────────────────────────────────

  /** The reports and votes acted on, and the fresh heartbeat of whatever is playing. */
  ghost predicate Remembers(s: Club, inp: Input, r: Club) {
    var p := Loaded(s, inp).play.value;
    var broke := Playing(s, inp) && ReportedBroken(s, p, inp);
    && r.brokenSkipAt == (if broke then inp.now else s.brokenSkipAt)
    && r.brokenVids == (if broke then s.brokenVids[p.videoID := inp.now] else s.brokenVids)
    && r.moodSkipAt == (if Playing(s, inp) && CommunityActs(s, p, inp) then inp.now else s.moodSkipAt)
    && (r.play.Some? && r.play.value.playing ==> inp.now - r.play.value.lastBeat < 15_000)
  }

  lemma AdvanceRemembers(s: Club, club: string, p: Play, inp: Input, o: Outcome)
    ensures var r := Playback.Advance(s, club, p, inp, o).club;
            && r.brokenSkipAt == s.brokenSkipAt && r.brokenVids == s.brokenVids && r.moodSkipAt == s.moodSkipAt
            && r.play.Some? && (r.play.value.playing ==> r.play.value.lastBeat == inp.now)
  {
    hide AttemptOf, MatrixOf, KeptMarks, RoundRobin.Pick, RoundRobin.Index, Tracks, WithMark, Settle, AnyHit, Patched;
    hide AnyActive, Accepts;
  }

  /** The judgement keeps the books; moving on leaves them alone. */
  ghost predicate Booked(s: Club, p: Play, inp: Input, broke: bool, voted: bool, t: Club) {
    && t.brokenSkipAt == (if broke then inp.now else s.brokenSkipAt)
    && t.brokenVids == (if broke then s.brokenVids[p.videoID := inp.now] else s.brokenVids)
    && t.moodSkipAt == (if voted then inp.now else s.moodSkipAt)
  }

  lemma JudgeBooks(s: Club, p: Play, inp: Input)
    requires inp.djs != []
    ensures var v := Judge(s, p, inp);
            var broke, voted := p.playing && ReportedBroken(s, p, inp), p.playing && CommunityActs(s, p, inp);
            if v.Move? then Booked(s, p, inp, broke, voted, v.club)
            else !broke && !voted && (v.Beat? <==> p.playing)
  {
    hide Ended;
  }

  lemma JudgeAutoBooks(s: Club, p: Play, inp: Input)
    requires inp.djs == [] && inp.auto.Some?
    ensures var v := JudgeAuto(s, p, inp);
            var broke, voted := p.playing && ReportedBroken(s, p, inp), p.playing && CommunityActs(s, p, inp);
            && !v.Rest?
            && if v.Move? then Booked(s, p, inp, broke, voted, v.club) else !broke && !voted && p.playing
  {
    hide Ended;
  }

  lemma ClubRemembers(s: Club, club: string, inp: Input)
    requires inp.djs != []
    ensures Remembers(s, inp, DriveClub(s, club, inp).club)
  {
    hide Judge, Playback.Advance, Resumed, ReportedBroken, CommunityActs;
    LoadedKeeps(s, inp);
    var l := Loaded(s, inp);
    var p := l.play.value;
    JudgeBooks(l, p, inp);
    SameReports(s, l, p, inp);
    match Judge(l, p, inp) {
      case Move(o, t) => AdvanceRemembers(t, club, p, inp, o);
      case _ => {}
    }
  }

  lemma SameReports(s: Club, l: Club, p: Play, inp: Input)
    requires l.brokenSkipAt == s.brokenSkipAt && l.moodSkipAt == s.moodSkipAt
    ensures ReportedBroken(l, p, inp) <==> ReportedBroken(s, p, inp)
    ensures CommunityActs(l, p, inp) <==> CommunityActs(s, p, inp)
  {
  }

  lemma AutoRemembers(s: Club, club: string, inp: Input)
    requires inp.djs == [] && inp.auto.Some? && inp.auto.value.tracks != [] && ClubOk(s)
    ensures Remembers(s, inp, DriveAuto(s, club, inp.auto.value, inp).club)
  {
    hide Loaded, JudgeAuto, ReportedBroken, CommunityActs, Ready, OrderOk, Resumed, Settle, Announce, Turned, Shuffled;
    LoadedShape(s, club, inp);
    LoadedKeeps(s, inp);
    var a, l := inp.auto.value, Loaded(s, inp);
    var n, p := |a.tracks|, l.play.value;
    OrderOfClub(l);
    PreparedReady(p.order, n, inp.initSwaps);
    var q := p.(order := Prepared(p.order, n, inp.initSwaps));
    TurnedReady(q, n, inp);
    JudgeAutoBooks(l, q, inp);
    SameReports(s, l, p, inp);
    OrderIsNotJudged(l, p, q, inp);
  }

  lemma OrderIsNotJudged(s: Club, p: Play, q: Play, inp: Input)
    requires q == p.(order := q.order)
    ensures ReportedBroken(s, p, inp) <==> ReportedBroken(s, q, inp)
    ensures CommunityActs(s, p, inp) <==> CommunityActs(s, q, inp)
  {
  }

  /** The tick remembers exactly the reports and votes it acted on, and keeps the heartbeat fresh. */
  lemma {:induction false} MemoryIsExact(s: Club, club: string, inp: Input)
    requires Sensible(inp) && ClubOk(s)
    ensures Remembers(s, inp, Tick(s, club, inp).club)
  {
    hide DriveClub, DriveAuto, Loaded, OrderOk, Remembers;
    OrderOfClub(s);
    if inp.djs != [] {
      ClubRemembers(s, club, inp);
    } else if inp.auto.Some? {
      AutoRemembers(s, club, inp);
    } else {
      NobodyRemembers(s, club, inp);
    }
  }

  lemma NobodyRemembers(s: Club, club: string, inp: Input)
    requires inp.djs == [] && inp.auto.None?
    ensures Remembers(s, inp, Abandon(s, club, inp).club)
  {
    hide Ended, Resumed;
    LoadedKeeps(s, inp);
  }

  lemma AdvanceBacksOff(s: Club, club: string, p: Play, inp: Input, o: Outcome)
    requires inp.djs != [] && Drain.NothingOpen(s, p, inp)
    ensures var r := Playback.Advance(s, club, p, inp, o).club;
            && r.play == Some(Stopped(p, inp.now)) && r.woken == s.woken && r.bootstrapAt == inp.now + 45_000
  {
    hide Drain.NothingOpen, RoundRobin.Pick, RoundRobin.Index, MatrixOf, KeptMarks, MarkedOff, Settle;
    Drain.AdvanceChooses(s, club, p, inp, o);
  }

  /**
    A club that found nothing to play tries again after exactly a minute, or at once when a queue woke
    it while it was playing.
   */
  lemma BackoffIsExact(s: Club, club: string, inp: Input, next: Input)
    requires inp.djs != [] && Sensible(inp) && ClubOk(s)
    requires MovesOn(s, inp) && Drain.NothingOpen(s, Loaded(s, inp).play.value, inp)
    ensures var p, r := Loaded(s, inp).play.value, Tick(s, club, inp).club;
            && r.play.Some? && !r.play.value.playing && r.woken == (p.playing && s.woken)
            && (!r.woken ==> (MovesOn(r, next) <==> next.now - inp.now >= 60_000))
            && (r.woken ==> (MovesOn(r, next) <==> next.now >= 15_000))
  {
    hide FullTime, Drain.NothingOpen, Resumed, Playback.Advance, ReportedBroken, CommunityActs, Skipped, RunsOut, Ended;
    LoadedKeeps(s, inp);
    var l := Loaded(s, inp);
    var p := l.play.value;
    JudgeMoves(s, l, p, inp);
    match Judge(l, p, inp) {
      case Move(o, t) =>
        JudgedCells(s, t, p, inp);
        AdvanceBacksOff(t, club, p, inp, o);
      case _ => {}
    }
  }
}
