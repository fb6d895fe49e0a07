/**
  What a stage DJ may play, which of it a tick starts, and which play marks are left: said from the
  queues, the marks and the reports themselves.
 */
module Openings {
  import opened Wrappers
  import opened AutoOrder
  import opened QueueTags
  import opened Playback
  import opened PlaybackRuns
  import opened Verdicts
  import Credibility
  import Drain
  import Replays
  import RoundRobin

  // ── which tracks are open ───────────────────────────────────────────────────

  /** Marked as played, in or after the second in which the DJ's queue was written. */
  predicate PlayedSince(s: Club, dj: string, v: string) {
    && dj in s.played && v in s.played[dj] && s.played[dj][v] > 0
    && (dj in s.queues ==> s.queues[dj].createdAt * 1000 <= s.played[dj][v])
  }

  /** Reported broken, and acted on, within the last six hours. */
  predicate ReportedLately(s: Club, v: string, now: int) {
    v in s.brokenVids && now - s.brokenVids[v] < 6 * 3_600_000
  }

  predicate WrittenByRelay(s: Club, dj: string) {
    dj in s.queues && s.queues[dj].relay
  }

  predicate OnOffer(p: Play, t: CondTrack) {
    t.active && (p.playing ==> t.videoID != p.videoID)
  }

  /** The DJ is away, nobody but he has written his queue, and all he offers has been played. */
  predicate StartsOver(s: Club, p: Play, inp: Input, dj: string) {
    && dj !in inp.online && !WrittenByRelay(s, dj)
    && (exists t :: t in Tracks(s, dj) && OnOffer(p, t))
    && (forall t | t in Tracks(s, dj) && OnOffer(p, t) :: PlayedSince(s, dj, t.videoID))
  }

  predicate MayPlay(s: Club, p: Play, inp: Input, dj: string, t: CondTrack) {
    && OnOffer(p, t)
    && (|| StartsOver(s, p, inp, dj)
        || (!ReportedLately(s, t.videoID, inp.now) && (WrittenByRelay(s, dj) || !PlayedSince(s, dj, t.videoID))))
  }

  lemma StaleIsPlayedSince(s: Club, dj: string, v: string)
    ensures Stale(s, dj, v) <==> PlayedSince(s, dj, v)
  {
  }

  lemma ResetIsStartsOver(s: Club, p: Play, inp: Input, dj: string)
    ensures LoopResets(s, p, dj, inp.online) <==> StartsOver(s, p, inp, dj)
  {
    hide Stale, PlayedSince, Tracks;
    forall v ensures Stale(s, dj, v) <==> PlayedSince(s, dj, v) {
      StaleIsPlayedSince(s, dj, v);
    }
    assert forall t :: Offered(p, t) <==> OnOffer(p, t);
  }

  lemma OpenIsExact(s: Club, p: Play, inp: Input, dj: string, t: CondTrack)
    ensures CellOpen(s, p, dj, t, inp) <==> MayPlay(s, p, inp, dj, t)
  {
    hide LoopResets, StartsOver, Stale, PlayedSince;
    ResetIsStartsOver(s, p, inp, dj);
    StaleIsPlayedSince(s, dj, t.videoID);
  }

  // ── which of them a tick starts ─────────────────────────────────────────────

  ghost predicate OffersNone(s: Club, p: Play, inp: Input, dj: string) {
    forall t | t in Tracks(s, dj) :: !MayPlay(s, p, inp, dj, t)
  }

  /** Track j of DJ i may play, no earlier track of his may, nor any of a DJ whose turn is before his. */
  ghost predicate NextInTurn(s: Club, p: Play, inp: Input, i: nat, j: nat) {
    && i < |inp.djs| && j < |Tracks(s, inp.djs[i])|
    && MayPlay(s, p, inp, inp.djs[i], Tracks(s, inp.djs[i])[j])
    && (forall k: nat | k < j :: !MayPlay(s, p, inp, inp.djs[i], Tracks(s, inp.djs[i])[k]))
    && var last := RoundRobin.Index(inp.djs, p.dj);
       forall k: nat | k < |inp.djs| && RoundRobin.Turns(|inp.djs|, last, k) < RoundRobin.Turns(|inp.djs|, last, i) ::
         OffersNone(s, p, inp, inp.djs[k])
  }

  lemma TurnIsNext(s: Club, p: Play, inp: Input, i: nat, j: nat)
    ensures Replays.Turn(s, p, inp, i, j) <==> NextInTurn(s, p, inp, i, j)
  {
    hide CellOpen, MayPlay, Tracks, RoundRobin.Turns, RoundRobin.Index;
    forall dj, t ensures CellOpen(s, p, dj, t, inp) <==> MayPlay(s, p, inp, dj, t) {
      OpenIsExact(s, p, inp, dj, t);
    }
    forall dj ensures Replays.OffersNothing(s, p, inp, dj) <==> OffersNone(s, p, inp, dj) {
    }
  }

  /** The judgement opens and closes no track: a video reported just now is the one playing. */
  lemma JudgedTurn(s: Club, t: Club, p: Play, inp: Input, i: nat, j: nat)
    requires t.queues == s.queues && t.played == s.played
    requires t.brokenVids == s.brokenVids || (p.playing && t.brokenVids == s.brokenVids[p.videoID := inp.now])
    ensures NextInTurn(t, p, inp, i, j) <==> NextInTurn(s, p, inp, i, j)
    ensures Drain.NothingOpen(t, p, inp) <==> Drain.NothingOpen(s, p, inp)
  {
    hide MayPlay, Tracks, RoundRobin.Turns, RoundRobin.Index, Drain.NothingOpen;
    JudgedCells(s, t, p, inp);
    forall dj ensures Tracks(t, dj) == Tracks(s, dj) {
      SameStale(s, t, p, dj, inp);
    }
    forall dj, x ensures MayPlay(t, p, inp, dj, x) <==> MayPlay(s, p, inp, dj, x) {
      SameMayPlay(s, t, p, inp, dj, x);
    }
    forall dj ensures OffersNone(t, p, inp, dj) <==> OffersNone(s, p, inp, dj) {
    }
  }

  lemma SameMayPlay(s: Club, t: Club, p: Play, inp: Input, dj: string, x: CondTrack)
    requires t.queues == s.queues && t.played == s.played
    requires t.brokenVids == s.brokenVids || (p.playing && t.brokenVids == s.brokenVids[p.videoID := inp.now])
    ensures MayPlay(t, p, inp, dj, x) <==> MayPlay(s, p, inp, dj, x)
    ensures StartsOver(t, p, inp, dj) <==> StartsOver(s, p, inp, dj)
  {
    hide Parse;
    SameStale(s, t, p, dj, inp);
    ResetIsStartsOver(s, p, inp, dj);
    ResetIsStartsOver(t, p, inp, dj);
  }

  /** What is on the air after the start of a track. */
  predicate OnTheAir(r: Club, club: string, pos: int, dj: string, t: CondTrack, now: int, auto: bool) {
    && r.play.Some?
    && var q := r.play.value;
       && q.playing && q.pos == pos && q.dj == dj && q.startedAt == now && q.auto == auto
       && q.videoID == t.videoID && q.title == t.title && q.duration == t.duration
  }

  /** The row holds everything a restart needs of the playback state. */
  predicate SavedAs(r: Saved, q: Play) {
    && r.pos == q.pos && r.videoID == q.videoID && r.dj == q.dj && r.title == q.title && r.duration == q.duration
    && r.startedAt == q.startedAt && r.playing == q.playing && r.auto == q.auto
  }

  lemma AdvanceTakesTurn(s: Club, club: string, p: Play, inp: Input, o: Credibility.Outcome, i: nat, j: nat)
    requires Replays.Turn(s, p, inp, i, j)
    ensures var e, dj := Playback.Advance(s, club, p, inp, o), inp.djs[i];
            var t := Tracks(s, dj)[j];
            && e.starts == [Start(club, p.pos + 1, dj, t.videoID, t.duration, inp.now, false)]
            && OnTheAir(e.club, club, p.pos + 1, dj, t, inp.now, false)
            && e.club.row.Some? && SavedAs(e.club.row.value, e.club.play.value)
  {
    hide Replays.Turn, Tracks, Playback.Advance, MarkedOff, KeptMarks, WithMark;
    Replays.TurnHasTrack(s, p, inp, i, j);
    Replays.AdvanceTakes(s, club, p, inp, o, i, j);
  }

  /**
    The track a tick starts: when it moves on, exactly the first playable track of the first DJ in turn
    who has one, as the next position, with that track's title and length, and saved at once.
   */
  lemma {:induction false} TickTakesTurn(s: Club, club: string, inp: Input, i: nat, j: nat)
    requires Sensible(inp) && ClubOk(s) && inp.djs != [] && MovesOn(s, inp)
    requires NextInTurn(s, Loaded(s, inp).play.value, inp, i, j)
    ensures i < |inp.djs| && j < |Tracks(s, inp.djs[i])|
    ensures var e, p, dj := Tick(s, club, inp), Loaded(s, inp).play.value, inp.djs[i];
            var t := Tracks(s, dj)[j];
            && e.starts == [Start(club, p.pos + 1, dj, t.videoID, t.duration, inp.now, false)]
            && OnTheAir(e.club, club, p.pos + 1, dj, t, inp.now, false)
            && e.club.row.Some? && SavedAs(e.club.row.value, e.club.play.value)
  {
    hide MovesOn, Judge, Playback.Advance, Drain.NothingOpen, Loaded, Replays.Turn, Tracks, OrderOk, MayPlay,
         OffersNone;
    OrderOfClub(s);
    LoadedKeeps(s, inp);
    var l := Loaded(s, inp);
    var p := l.play.value;
    JudgeMoves(s, l, p, inp);
    var v := Judge(l, p, inp);
    SameTracks(s, v.club);
    JudgedTurn(s, v.club, p, inp, i, j);
    TurnIsNext(v.club, p, inp, i, j);
    AdvanceTakesTurn(v.club, club, p, inp, v.outcome, i, j);
  }

  lemma SameTracks(s: Club, t: Club)
    ensures t.queues == s.queues ==> forall dj :: Tracks(t, dj) == Tracks(s, dj)
  {
  }

  /** Every start of a tick with real DJs is such a turn. */
  lemma {:induction false} StartWasTurn(s: Club, club: string, inp: Input) returns (i: nat, j: nat)
    requires Sensible(inp) && ClubOk(s) && inp.djs != [] && Tick(s, club, inp).starts != []
    ensures MovesOn(s, inp) && NextInTurn(s, Loaded(s, inp).play.value, inp, i, j)
  {
    hide MovesOn, Judge, Playback.Advance, Drain.NothingOpen, Loaded, Replays.Turn, Tracks, OrderOk, NextInTurn;
    OrderOfClub(s);
    LoadedKeeps(s, inp);
    var l := Loaded(s, inp);
    var p := l.play.value;
    JudgeMoves(s, l, p, inp);
    var v := Judge(l, p, inp);
    i, j := Replays.StartHasTurn(v.club, club, p, inp, v.outcome);
    TurnIsNext(v.club, p, inp, i, j);
    JudgedTurn(s, v.club, p, inp, i, j);
  }

  // ── which marks are left ────────────────────────────────────────────────────

  /** Switching the video off leaves no active track tag in the DJ's queue. */
  predicate LastOfQueue(s: Club, dj: string, v: string) {
    dj in s.queues
    && (exists tag :: tag in s.queues[dj].tags && Hit(tag, v))
    && forall tag | tag in s.queues[dj].tags && IsTrackTag(tag) && !IsOff(tag) :: TrimYt(tag[1]) == v
  }

  lemma {:induction false} ActiveAfterMarks(tags: seq<Tag>, v: string)
    ensures AnyActive(MarkTags(tags, v))
       <==> exists tag :: tag in tags && IsTrackTag(tag) && !IsOff(tag) && TrimYt(tag[1]) != v
  {
    hide TrimYt;
    if tags != [] {
      ActiveAfterMarks(tags[1..], v);
      var t, rest := tags[0], MarkTags(tags[1..], v);
      assert forall x :: x in tags <==> x == t || x in tags[1..];
      if IsTrackTag(t) {
        assert forall x :: x in [MarkTag(t, v)] + rest <==> x == MarkTag(t, v) || x in rest;
      }
    }
  }

  lemma PatchedActive(club: string, dj: string, tags: seq<Tag>, v: string)
    ensures AnyActive(Patched(club, dj, tags, v))
       <==> exists tag :: tag in tags && IsTrackTag(tag) && !IsOff(tag) && TrimYt(tag[1]) != v
  {
    hide TrimYt, MarkTags;
    ActiveAfterMarks(tags, v);
    var h, m := Header(club, dj), MarkTags(tags, v);
    forall x ensures x in h ==> !IsTrackTag(x) {
    }
    assert forall x :: x in h + m <==> x in h || x in m;
  }

  lemma PatchMarks(s: Club, club: string, dj: string, v: string, second: int)
    ensures MarkedOff(s, club, dj, v, second).played == if LastOfQueue(s, dj, v) then s.played - {dj} else s.played
  {
    hide AnyActive, Patched, TrimYt, Hit, Accepts;
    if dj in s.queues { PatchedActive(club, dj, s.queues[dj].tags, v); }
  }

  /** The mark of one video of one DJ after an advance. */
  ghost function MarkAfter(s: Club, p: Play, inp: Input, starts: seq<Start>, dj: string, v: string): int {
    if starts != [] && starts[0].dj == dj && LastOfQueue(s, dj, starts[0].videoID) then 0
    else if starts != [] && starts[0].dj == dj && starts[0].videoID == v then inp.now
    else if dj in inp.djs && StartsOver(s, p, inp, dj) then 0
    else PlayedAt(s, dj, v)
  }

  /** The marks of one DJ after the list resets and the mark of a start. */
  lemma MarkedAt(s: Club, p: Play, inp: Input, d: string, x: string, dj: string, v: string)
    ensures var kept := s.(played := KeptMarks(s, p, inp));
            var marked := s.(played := WithMark(KeptMarks(s, p, inp), d, x, inp.now));
            && PlayedAt(kept, dj, v) == (if dj in inp.djs && StartsOver(s, p, inp, dj) then 0 else PlayedAt(s, dj, v))
            && PlayedAt(marked, dj, v) == (if d == dj && x == v then inp.now else PlayedAt(kept, dj, v))
  {
    hide LoopResets, StartsOver;
    ResetIsStartsOver(s, p, inp, dj);
  }

  lemma CutAt(s: Club, t: Club, d: string, dj: string, v: string)
    ensures t.played == s.played - {d} ==> PlayedAt(t, dj, v) == if d == dj then 0 else PlayedAt(s, dj, v)
    ensures t.played == s.played ==> PlayedAt(t, dj, v) == PlayedAt(s, dj, v)
  {
  }

  lemma AdvanceMarks(s: Club, club: string, p: Play, inp: Input, o: Credibility.Outcome, dj: string, v: string)
    requires inp.djs != []
    ensures var e := Playback.Advance(s, club, p, inp, o);
            |e.starts| <= 1 && PlayedAt(e.club, dj, v) == MarkAfter(s, p, inp, e.starts, dj, v)
  {
    hide MarkedOff, MatrixOf, KeptMarks, WithMark, StartsOver, LastOfQueue, Tracks, RoundRobin.Pick, RoundRobin.Index,
         RoundRobin.IsPick, Settle, PlayedAt;
    var n, last, m := |inp.djs|, RoundRobin.Index(inp.djs, p.dj), MatrixOf(s, p, inp);
    RoundRobin.PickMeets(n, last, m);
    var e, kept := Playback.Advance(s, club, p, inp, o), s.(played := KeptMarks(s, p, inp));
    match RoundRobin.Pick(n, last, m) {
      case None =>
        MarkedAt(s, p, inp, "", "", dj, v);
        CutAt(kept, e.club, "", dj, v);
      case Some(slot) =>
        PickInQueue(s, p, inp, slot);
        var d := inp.djs[slot.dj];
        var x := Tracks(s, d)[slot.track].videoID;
        var marked := s.(played := WithMark(KeptMarks(s, p, inp), d, x, inp.now));
        MarkedAt(s, p, inp, d, x, dj, v);
        PatchMarks(marked, club, d, x, inp.patchSecond);
        SameLast(s, marked, d, x);
        CutAt(marked, e.club, d, dj, v);
    }
  }

  lemma PickInQueue(s: Club, p: Play, inp: Input, slot: RoundRobin.Slot)
    requires RoundRobin.IsPick(|inp.djs|, RoundRobin.Index(inp.djs, p.dj), MatrixOf(s, p, inp), slot)
    ensures slot.dj < |inp.djs| && slot.track < |Tracks(s, inp.djs[slot.dj])|
  {
    hide CellOpen, Tracks, RoundRobin.IsPick, RoundRobin.Index;
    Drain.PickIsCell(|inp.djs|, RoundRobin.Index(inp.djs, p.dj), MatrixOf(s, p, inp), slot);
    assert MatrixOf(s, p, inp)[slot.dj] == RowOf(s, p, inp.djs[slot.dj], inp);
  }

  lemma SameLast(s: Club, t: Club, dj: string, v: string)
    requires t.queues == s.queues
    ensures LastOfQueue(t, dj, v) <==> LastOfQueue(s, dj, v)
  {
  }

  /**
    The play marks after a tick: the started video of its DJ is marked with the moment, a list that
    starts over loses its marks, so does one that the start has emptied, and every other mark stays.
   */
  lemma {:induction false} MarksAreExact(s: Club, club: string, inp: Input, dj: string, v: string)
    requires Sensible(inp) && ClubOk(s)
    ensures var e, p := Tick(s, club, inp), Loaded(s, inp).play.value;
            PlayedAt(e.club, dj, v)
            == if inp.djs != [] && MovesOn(s, inp) then MarkAfter(s, p, inp, e.starts, dj, v) else PlayedAt(s, dj, v)
  {
    hide MovesOn, Judge, Playback.Advance, Loaded, OrderOk, MarkAfter;
    OrderOfClub(s);
    LoadedKeeps(s, inp);
    if inp.djs == [] {
      NobodyMarks(s, club, inp, dj, v);
    } else {
      var l := Loaded(s, inp);
      var p := l.play.value;
      JudgeMoves(s, l, p, inp);
      match Judge(l, p, inp) {
        case Move(o, t) =>
          AdvanceMarks(t, club, p, inp, o, dj, v);
          SameMarkAfter(s, t, p, inp, Playback.Advance(t, club, p, inp, o).starts, dj, v);
        case _ => {}
      }
    }
  }

  lemma SameMarkAfter(s: Club, t: Club, p: Play, inp: Input, starts: seq<Start>, dj: string, v: string)
    requires t.queues == s.queues && t.played == s.played
    requires t.brokenVids == s.brokenVids || (p.playing && t.brokenVids == s.brokenVids[p.videoID := inp.now])
    ensures MarkAfter(t, p, inp, starts, dj, v) == MarkAfter(s, p, inp, starts, dj, v)
  {
    hide StartsOver, LastOfQueue;
    SameMayPlay(s, t, p, inp, dj, CondTrack("", "", 0, false));
    if starts != [] { SameLast(s, t, dj, starts[0].videoID); }
  }

  lemma NobodyMarks(s: Club, club: string, inp: Input, dj: string, v: string)
    requires Sensible(inp) && ClubOk(s) && inp.djs == []
    requires s.play.Some? ==> OrderOk(s.play.value.order)
    ensures PlayedAt(Tick(s, club, inp).club, dj, v) == PlayedAt(s, dj, v)
  {
    hide Ended, Ready, Announce, Turned, Settle, Shuffled, Resumed, OrderOk;
    LoadedKeeps(s, inp);
  }
}
