/**
  How a set drains: which video a start takes, what it leaves in the DJ's indexed queue, and why a
  DJ's videos are not repeated while nobody but the relay writes his queue.
 */
module Drain {
  import opened Wrappers
  import opened QueueTags
  import opened Playback
  import opened PlaybackRuns
  import RoundRobin
  import Credibility
  import Sorting

  function ActiveIds(ts: seq<CondTrack>): set<string> {
    set t | t in ts && t.active :: t.videoID
  }

  /** The videos a DJ's indexed queue still offers. */
  function Ids(s: Club, dj: string): set<string> {
    ActiveIds(Tracks(s, dj))
  }

  // ── what a start takes ──────────────────────────────────────────────────────

  /**
    A start of the rotation: the first open cell of its DJ, every DJ asked before having none. Open
    means active, not the track just playing, and neither already played nor reported broken unless
    the absent DJ's list starts over.
   */
  ghost predicate Chosen(s: Club, p: Play, inp: Input, st: Start) {
    exists k: RoundRobin.Slot ::
      && RoundRobin.IsPick(|inp.djs|, RoundRobin.Index(inp.djs, p.dj), MatrixOf(s, p, inp), k)
      && st.dj == inp.djs[k.dj]
      && k.track < |Tracks(s, st.dj)| && Tracks(s, st.dj)[k.track].videoID == st.videoID
      && CellOpen(s, p, st.dj, Tracks(s, st.dj)[k.track], inp)
  }

  ghost predicate NothingOpen(s: Club, p: Play, inp: Input) {
    forall dj, t | dj in inp.djs && t in Tracks(s, dj) :: !CellOpen(s, p, dj, t, inp)
  }

  lemma OpenCells(s: Club, p: Play, inp: Input)
    ensures (forall i: nat | i < |inp.djs| :: !RoundRobin.HasTrack(MatrixOf(s, p, inp), i)) <==> NothingOpen(s, p, inp)
  {
    hide CellOpen, Tracks;
    var m := MatrixOf(s, p, inp);
    if NothingOpen(s, p, inp) {
      forall i: nat | i < |inp.djs| ensures !RoundRobin.HasTrack(m, i) {
        assert m[i] == RowOf(s, p, inp.djs[i], inp);
      }
    }
    if dj, t :| dj in inp.djs && t in Tracks(s, dj) && CellOpen(s, p, dj, t, inp) {
      var i: nat :| i < |inp.djs| && inp.djs[i] == dj;
      var j: nat :| j < |Tracks(s, dj)| && Tracks(s, dj)[j] == t;
      assert m[i] == RowOf(s, p, dj, inp) && m[i][j];
      assert RoundRobin.HasTrack(m, i);
    }
  }

  /** `advance` starts the rotation's choice, or stops exactly when no cell of any DJ is open. */
  lemma {:induction false} AdvanceChooses(s: Club, club: string, p: Play, inp: Input, outcome: Credibility.Outcome)
    ensures var e := Advance(s, club, p, inp, outcome);
            && (e.starts == [] <==> NothingOpen(s, p, inp))
            && (e.starts != [] ==> Chosen(s, p, inp, e.starts[0]) && !e.starts[0].auto)
  {
    hide CellOpen, MarkedOff, KeptMarks, WithMark, RoundRobin.IsPick, RoundRobin.Index, Tracks;
    OpenCells(s, p, inp);
    if inp.djs != [] {
      var n, last, m := |inp.djs|, RoundRobin.Index(inp.djs, p.dj), MatrixOf(s, p, inp);
      RoundRobin.PickMeets(n, last, m);
      match RoundRobin.Pick(n, last, m)
      case None => {}
      case Some(k) =>
        PickIsCell(n, last, m, k);
        assert m[k.dj] == RowOf(s, p, inp.djs[k.dj], inp);
    }
  }

  lemma PickIsCell(n: nat, last: int, m: RoundRobin.Matrix, k: RoundRobin.Slot)
    requires RoundRobin.IsPick(n, last, m, k)
    ensures k.dj < n && k.dj < |m| && k.track < |m[k.dj]| && m[k.dj][k.track]
  {
  }

  // ── what a start leaves ─────────────────────────────────────────────────────

  lemma SwitchOffIds(ts: seq<CondTrack>, v: string)
    ensures ActiveIds(SwitchOff(ts, v)) == ActiveIds(ts) - {v}
  {
    var r := SwitchOff(ts, v);
    forall x | x in ActiveIds(ts) - {v} ensures x in ActiveIds(r) {
      var i: nat :| i < |ts| && ts[i].active && ts[i].videoID == x;
      assert r[i] in r;
    }
    forall x | x in ActiveIds(r) ensures x in ActiveIds(ts) - {v} {
      var i: nat :| i < |r| && r[i].active && r[i].videoID == x;
      assert ts[i] in ts;
    }
  }

  lemma TitlesDoNotMatter(a: seq<CondTrack>, b: seq<CondTrack>)
    requires SameButTitles(a, b)
    ensures ActiveIds(a) == ActiveIds(b)
  {
    forall x | x in ActiveIds(a) ensures x in ActiveIds(b) {
      var i: nat :| i < |a| && a[i].active && a[i].videoID == x;
      assert b[i] in b;
    }
    forall x | x in ActiveIds(b) ensures x in ActiveIds(a) {
      var i: nat :| i < |b| && b[i].active && b[i].videoID == x;
      assert a[i] in a;
    }
  }

  /**
    The relay's patch takes every copy of the video out of the queue if and only if it is written in
    a later second than the queue it patches; otherwise it is not indexed and changes nothing.
   */
  lemma PatchDrains(s: Club, club: string, dj: string, v: string, second: int)
    requires v in Ids(s, dj)
    ensures dj in s.queues
    ensures var r := MarkedOff(s, club, dj, v, second);
            && Ids(r, dj) == (if second > s.queues[dj].createdAt then Ids(s, dj) - {v} else Ids(s, dj))
            && (second > s.queues[dj].createdAt ==> Managed(r, dj))
            && (forall d | d != dj ::
                  (d in r.queues <==> d in s.queues) && (d in s.queues ==> r.queues[d] == s.queues[d]))
  {
    hide QueueTags.Parse, Patched, SameButTitles, SwitchOff, AnyHit, AnyActive;
    var tags := s.queues[dj].tags;
    SwitchOffIds(Parse(tags), v);
    if !AnyHit(tags, v) { NoHitNoChange(tags, v); }
    PatchCommutes(club, dj, tags, v);
    TitlesDoNotMatter(Parse(Patched(club, dj, tags, v)), SwitchOff(Parse(tags), v));
  }

  /** What a tick does to the indexed queues: nothing, or the patch of the one real start. */
  ghost predicate Drains(s: Club, inp: Input, e: Effect) {
    if e.starts == [] || e.starts[0].auto then e.club.queues == s.queues
    else
      var st := e.starts[0];
      && st.dj in s.queues && st.videoID in Ids(s, st.dj)
      && Ids(e.club, st.dj)
          == (if inp.patchSecond > s.queues[st.dj].createdAt then Ids(s, st.dj) - {st.videoID} else Ids(s, st.dj))
      && (forall d | d != st.dj ::
            (d in e.club.queues <==> d in s.queues) && (d in s.queues ==> e.club.queues[d] == s.queues[d]))
  }

  lemma ChosenIsActive(s: Club, p: Play, inp: Input, st: Start)
    requires Chosen(s, p, inp, st)
    ensures st.videoID in Ids(s, st.dj)
  {
  }

  lemma AdvanceDrains(s: Club, club: string, p: Play, inp: Input, outcome: Credibility.Outcome)
    ensures Drains(s, inp, Advance(s, club, p, inp, outcome))
  {
    hide Ids, MatrixOf, MarkedOff, KeptMarks, WithMark, Chosen, NothingOpen, RoundRobin.Pick, RoundRobin.Index,
         QueueTags.Parse;
    AdvanceChooses(s, club, p, inp, outcome);
    var e := Advance(s, club, p, inp, outcome);
    if e.starts != [] {
      var st := e.starts[0];
      ChosenIsActive(s, p, inp, st);
      var marked := s.(played := WithMark(KeptMarks(s, p, inp), st.dj, st.videoID, inp.now));
      SameQueues(s, marked, st.dj);
      PatchDrains(marked, club, st.dj, st.videoID, inp.patchSecond);
      SameQueues(MarkedOff(marked, club, st.dj, st.videoID, inp.patchSecond), e.club, st.dj);
    }
  }

  lemma SameQueues(s: Club, t: Club, dj: string)
    requires s.queues == t.queues
    ensures Ids(s, dj) == Ids(t, dj)
  {
  }

  lemma JudgeKeepsQueues(s: Club, p: Play, inp: Input)
    ensures Judge(s, p, inp).Move? ==> Judge(s, p, inp).club.queues == s.queues
    ensures JudgeAuto(s, p, inp).Move? ==> JudgeAuto(s, p, inp).club.queues == s.queues
  {
  }

  lemma TickDrains(s: Club, club: string, inp: Input)
    requires Sensible(inp) && ClubOk(s)
    ensures Drains(s, inp, Tick(s, club, inp))
  {
    hide Judge, JudgeAuto, Advance, Ids, OrderOk, Turned, Prepared, AutoOrder.Announce, Ended, Resumed;
    var l := Loaded(s, inp);
    assert l.queues == s.queues;
    JudgeKeepsQueues(l, l.play.value, inp);
    if inp.djs != [] {
      match Judge(l, l.play.value, inp)
      case Move(outcome, l') =>
        AdvanceDrains(l', club, l.play.value, inp, outcome);
        var e := Advance(l', club, l.play.value, inp, outcome);
        if e.starts != [] { SameQueues(l', s, e.starts[0].dj); }
      case _ => {}
    } else if inp.auto.Some? {
      var a := inp.auto.value;
      var p := l.play.value.(order := Prepared(l.play.value.order, |a.tracks|, inp.initSwaps));
      JudgeKeepsQueues(l, p, inp);
      AutoStartsAreAuto(s, club, a, inp);
    }
  }

  lemma AutoStartsAreAuto(s: Club, club: string, a: Armed, inp: Input)
    requires a.tracks != [] && ClubOk(s)
    ensures var e := DriveAuto(s, club, a, inp);
            e.club.queues == s.queues && (e.starts != [] ==> e.starts[0].auto)
  {
    hide JudgeAuto, OrderOk, Turned, Prepared, AutoOrder.Announce, Ended, Resumed;
    var l := Loaded(s, inp);
    LoadedShape(s, club, inp);
    PreparedReady(l.play.value.order, |a.tracks|, inp.initSwaps);
    var p := l.play.value.(order := Prepared(l.play.value.order, |a.tracks|, inp.initSwaps));
    JudgeKeepsQueues(l, p, inp);
    TurnedReady(p, |a.tracks|, inp);
  }

  // ── a whole set ─────────────────────────────────────────────────────────────

  /** The videos of the DJ's own starts, in order. */
  function Videos(starts: seq<Start>, club: string, dj: string): seq<string> {
    if starts == [] then []
    else
      var st, rest := starts[0], Videos(starts[1..], club, dj);
      if st.club == club && st.dj == dj && !st.auto then [st.videoID] + rest else rest
  }

  /**
    While the set drains no newer queue of the DJ arrives, and whenever one of his tracks starts the
    clock has left the second of his newest queue event.
   */
  ghost predicate Undisturbed(w: World, e: Event, club: string, dj: string)
    requires Legal(w, e) && ClubsOk(w)
  {
    match e
    case Queued(c, d, q) => c == club && d == dj ==> !Accepts(w.clubs[c], d, q)
    case Ticked(c, inp) =>
      c == club && Videos(Tick(w.clubs[c], c, inp).starts, club, dj) != [] && dj in w.clubs[c].queues
      ==> inp.patchSecond > w.clubs[c].queues[dj].createdAt
  }

  ghost predicate DrainRun(w: World, es: seq<Event>, club: string, dj: string)
    requires ClubsOk(w)
    decreases |es|
  {
    if es == [] then true
    else
      && Legal(w, es[0]) && Undisturbed(w, es[0], club, dj)
      && (DoKeepsClubs(w, es[0]); DrainRun(Do(w, es[0]), es[1..], club, dj))
  }

  lemma {:induction false} DrainIsLegal(w: World, es: seq<Event>, club: string, dj: string)
    requires ClubsOk(w) && DrainRun(w, es, club, dj)
    ensures LegalRun(w, es)
    decreases |es|
  {
    hide Do, Legal, Undisturbed, ClubsOk;
    if es != [] {
      DoKeepsClubs(w, es[0]);
      DrainIsLegal(Do(w, es[0]), es[1..], club, dj);
    }
  }

  /** The starts one event adds. */
  ghost function Added(w: World, e: Event): seq<Start>
    requires Legal(w, e) && ClubsOk(w)
  {
    if e.Ticked? then Tick(w.clubs[e.club], e.club, e.inp).starts else []
  }

  lemma {:induction false} RunAddsStarts(w: World, es: seq<Event>)
    requires ClubsOk(w) && LegalRun(w, es)
    ensures w.starts <= Run(w, es).starts && w.clubs.Keys == Run(w, es).clubs.Keys
    decreases |es|
  {
    hide Tick, QueueIndexed, ClubsOk;
    if es != [] {
      DoKeepsClubs(w, es[0]);
      RunAddsStarts(Do(w, es[0]), es[1..]);
    }
  }

  lemma VideosAppend(a: seq<Start>, b: seq<Start>, club: string, dj: string)
    requires |a| <= 1
    ensures Videos(a + b, club, dj) == Videos(a, club, dj) + Videos(b, club, dj)
  {
    if a == [] {
      assert a + b == b;
    } else {
      assert (a + b)[1..] == b;
    }
  }

  ghost predicate NoRepeats(vs: seq<string>) {
    forall i, j | 0 <= i < j < |vs| :: vs[i] != vs[j]
  }

  function AsSet(vs: seq<string>): set<string> {
    set v | v in vs
  }

  /** One event either leaves the DJ's queue alone or starts one of its videos and removes it. */
  lemma {:induction false} EventDrains(w: World, e: Event, club: string, dj: string)
    requires Legal(w, e) && ClubsOk(w) && club in w.clubs && Undisturbed(w, e, club, dj)
    ensures |Added(w, e)| <= 1 && Do(w, e).starts == w.starts + Added(w, e) && club in Do(w, e).clubs
    ensures var vs := Videos(Added(w, e), club, dj);
            && |vs| <= 1
            && (vs != [] ==> vs[0] in Ids(w.clubs[club], dj))
            && Ids(Do(w, e).clubs[club], dj) == Ids(w.clubs[club], dj) - AsSet(vs)
  {
    hide Tick, OrderOk, Parked, ActiveIds, QueueTags.Parse, AnyActive, Accepts;
    if e.Ticked? {
      var s := w.clubs[e.club];
      var f := Tick(s, e.club, e.inp);
      TickShape(s, e.club, e.inp);
      TickDrains(s, e.club, e.inp);
      if f.starts != [] { assert f.starts[0].club == e.club by { ShapeOfClub(s, e.club, e.inp, f); } }
      SameQueue(s, f.club, dj);
    } else {
      SameQueue(w.clubs[e.club], Do(w, e).clubs[e.club], dj);
    }
  }

  lemma SameQueue(s: Club, t: Club, dj: string)
    ensures ((dj in t.queues <==> dj in s.queues) && (dj in s.queues ==> t.queues[dj] == s.queues[dj]))
            ==> Ids(t, dj) == Ids(s, dj)
  {
  }

  /**
    A set drains: the videos a DJ's own starts take in a run are pairwise distinct, all come from
    what his queue offered at the beginning, and what is left is exactly the rest.
   */
  lemma {:induction false} SetDrains(w: World, es: seq<Event>, club: string, dj: string)
    requires ClubsOk(w) && club in w.clubs && DrainRun(w, es, club, dj)
    ensures LegalRun(w, es) && |w.starts| <= |Run(w, es).starts| && club in Run(w, es).clubs
    ensures var vs := Videos(Run(w, es).starts[|w.starts|..], club, dj);
            && NoRepeats(vs)
            && AsSet(vs) <= Ids(w.clubs[club], dj)
            && Ids(Run(w, es).clubs[club], dj) == Ids(w.clubs[club], dj) - AsSet(vs)
    decreases |es|
  {
    hide Ids, Undisturbed, Legal, Do, ClubsOk, Videos, NoRepeats, AsSet, Added;
    DrainIsLegal(w, es, club, dj);
    RunAddsStarts(w, es);
    NothingStarted(w, club, dj);
    if es != [] {
      var w1, more := Do(w, es[0]), Added(w, es[0]);
      DoKeepsClubs(w, es[0]);
      EventDrains(w, es[0], club, dj);
      SetDrains(w1, es[1..], club, dj);
      var v := Run(w1, es[1..]);
      RunAddsStarts(w1, es[1..]);
      assert v.starts[|w.starts|..] == more + v.starts[|w1.starts|..];
      VideosAppend(more, v.starts[|w1.starts|..], club, dj);
      Joined(Videos(more, club, dj), Videos(v.starts[|w1.starts|..], club, dj), Ids(w.clubs[club], dj));
    }
  }

  lemma NothingStarted(w: World, club: string, dj: string)
    ensures Videos(w.starts[|w.starts|..], club, dj) == [] && AsSet([]) == {} && NoRepeats([])
  {
  }

  lemma Joined(vs: seq<string>, rest: seq<string>, ids: set<string>)
    requires |vs| <= 1 && NoRepeats(rest) && AsSet(rest) <= ids - AsSet(vs)
    requires vs != [] ==> vs[0] in ids
    ensures NoRepeats(vs + rest) && AsSet(vs + rest) <= ids
    ensures ids - AsSet(vs) - AsSet(rest) == ids - AsSet(vs + rest)
  {
    if vs == [] {
      assert vs + rest == rest;
    } else {
      assert vs == [vs[0]];
      assert forall x :: x in vs + rest <==> x == vs[0] || x in rest;
      forall x | x in rest ensures x in ids && x != vs[0] {
        assert x in AsSet(rest);
      }
    }
  }

  /** Hence a set ends: it has at most as many starts as the queue had active videos. */
  lemma SetEnds(w: World, es: seq<Event>, club: string, dj: string)
    requires ClubsOk(w) && club in w.clubs && DrainRun(w, es, club, dj)
    ensures LegalRun(w, es) && |w.starts| <= |Run(w, es).starts|
    ensures |Videos(Run(w, es).starts[|w.starts|..], club, dj)| <= |Ids(w.clubs[club], dj)|
  {
    SetDrains(w, es, club, dj);
    var vs := Videos(Run(w, es).starts[|w.starts|..], club, dj);
    DistinctCount(vs);
    Sorting.SubsetSize(AsSet(vs), Ids(w.clubs[club], dj));
  }

  lemma {:induction false} DistinctCount(vs: seq<string>)
    requires NoRepeats(vs)
    ensures |AsSet(vs)| == |vs|
  {
    if vs != [] {
      DistinctCount(vs[1..]);
      assert AsSet(vs) == {vs[0]} + AsSet(vs[1..]);
    }
  }

  // ── a patch in the second of the queue ──────────────────────────────────────

  const SONG := "aaaaaaaaaaa"

  const ONE_TRACK := [["h", "club"], ["d", "club"], ["track", "yt:" + SONG, "A"]]

  const FRESH := Club(None, None, map[], map[], map[], 0, 0, 0, false)

  /** A DJ has signed a queue of one video in second 200. */
  const WAITING := FRESH.(queues := map["dj" := QueueEvent(false, 200, ONE_TRACK)], woken := true)

  const SAME_SECOND := Input(
    200_500, ["dj"], None, false, false, 0, 0, true, {}, 200, None, [], [], [])

  lemma OneTrackParses()
    ensures Parse(ONE_TRACK) == [CondTrack(SONG, "A", 0, true)]
  {
    var t := ONE_TRACK[2];
    assert ("yt:" + SONG)[3..] == SONG;
    assert ONE_TRACK[0][0] == "h" && ONE_TRACK[1][0] == "d";
    assert ONE_TRACK[1..][1..] == [t] && [t][1..] == [];
    assert Parse([t]) == [Track(t)];
    assert Parse(ONE_TRACK[1..]) == Parse(ONE_TRACK[1..][1..]);
  }

  /** The waiting club is what the DJ's event makes of a new one. */
  lemma WaitingIsIndexed()
    ensures QueueIndexed(FRESH, "dj", QueueEvent(false, 200, ONE_TRACK)) == WAITING
  {
    assert ONE_TRACK[2] in ONE_TRACK;
  }

  /**
    The relay cannot switch a video off in the second its DJ signed the queue: the video starts and
    stays on offer, so the condition of the theorems above cannot be dropped.
   */
  lemma SameSecondPatchIsLost()
    ensures QueueIndexed(FRESH, "dj", QueueEvent(false, 200, ONE_TRACK)) == WAITING
    ensures var e := Tick(WAITING, "club", SAME_SECOND);
            && e.starts != [] && e.starts[0].dj == "dj" && e.starts[0].videoID == SONG
            && SONG in Ids(e.club, "dj")
  {
    hide MatrixOf, RoundRobin.Pick, MarkedOff, KeptMarks, WithMark, Chosen, NothingOpen;
    hide Parse, QueueIndexed;
    WaitingIsIndexed();
    var a := CondTrack(SONG, "A", 0, true);
    OneTrackParses();
    var l := Loaded(WAITING, SAME_SECOND);
    var l' := l.(woken := false, bootstrapAt := 200_500);
    assert Judge(l, IDLE, SAME_SECOND) == Move(Credibility.Discarded, l');
    var e := Advance(l', "club", IDLE, SAME_SECOND, Credibility.Discarded);
    AdvanceChooses(l', "club", IDLE, SAME_SECOND, Credibility.Discarded);
    AdvanceDrains(l', "club", IDLE, SAME_SECOND, Credibility.Discarded);
    OnlyTrackOpen(l', a);
  }

  lemma OnlyTrackOpen(s: Club, a: CondTrack)
    requires s.queues == WAITING.queues && s.played == map[] && s.brokenVids == map[]
    requires Parse(ONE_TRACK) == [a] && a.active
    ensures !NothingOpen(s, IDLE, SAME_SECOND)
    ensures forall st | Chosen(s, IDLE, SAME_SECOND, st) :: st.dj == "dj" && st.videoID == a.videoID
  {
    assert Tracks(s, "dj") == [a];
    assert a in Tracks(s, "dj") && CellOpen(s, IDLE, "dj", a, SAME_SECOND);
  }
}
