/**
  Whole runs of the rotation: a video that was reported broken stays off for six hours, a started one
  is not started again for its DJ, and what exactly lifts each of the two.
 */
module OpeningRuns {
  import opened Wrappers
  import opened QueueTags
  import opened Playback
  import opened PlaybackRuns
  import opened Verdicts
  import opened VerdictRuns
  import opened Openings

  // ── one club through a run ──────────────────────────────────────────────────

  ghost predicate TickAt(w: World, es: seq<Event>, c: string, k: nat)
    requires ClubsOk(w) && LegalRun(w, es)
  {
    && k < |es| && es[k].Ticked? && es[k].club == c && Sensible(es[k].inp)
    && c in Before(w, es, k).clubs && ClubOk(Before(w, es, k).clubs[c])
  }

  /** The club as a tick of the run finds it. */
  ghost function Found(w: World, es: seq<Event>, c: string, k: nat): Club
    requires ClubsOk(w) && LegalRun(w, es) && TickAt(w, es, c, k)
  {
    Before(w, es, k).clubs[c]
  }

  /** Nothing but its own ticks and queue events changes a club. */
  lemma ClubStep(w: World, es: seq<Event>, c: string, k: nat)
    requires ClubsOk(w) && LegalRun(w, es) && k < |es| && c in Before(w, es, k).clubs
    ensures c in Before(w, es, k + 1).clubs
    ensures var s, r := Before(w, es, k).clubs[c], Before(w, es, k + 1).clubs[c];
            if es[k].club == c && es[k].Ticked?
            then TickAt(w, es, c, k) && ClubOk(s) && Sensible(es[k].inp) && r == Tick(s, c, es[k].inp).club
            else r.played == s.played && r.brokenVids == s.brokenVids
  {
    hide Tick, Run, LegalRun, Before;
    BeforeNext(w, es, k);
    OrderOfClub(Before(w, es, k).clubs[c]);
  }

  lemma ClockStep(w: World, es: seq<Event>, c: string, k: nat)
    requires ClubsOk(w) && LegalRun(w, es) && k < |es|
    ensures es[k].Ticked? && es[k].club == c ==>
              && c in Before(w, es, k).clock && c in Before(w, es, k + 1).clock
              && Before(w, es, k).clock[c] < es[k].inp.now == Before(w, es, k + 1).clock[c]
    ensures !(es[k].Ticked? && es[k].club == c) && c in Before(w, es, k).clock ==>
              c in Before(w, es, k + 1).clock && Before(w, es, k).clock[c] == Before(w, es, k + 1).clock[c]
  {
    hide Tick, ClubOk, Run, LegalRun, Before, QueueIndexed;
    BeforeNext(w, es, k);
  }

  /** A club's ticks come with rising clocks. */
  lemma {:induction false} ClockRises(w: World, es: seq<Event>, c: string, k: nat, n: nat)
    requires ClubsOk(w) && LegalRun(w, es) && k < n <= |es| && es[k].Ticked? && es[k].club == c
    ensures c in Before(w, es, n).clock && es[k].inp.now <= Before(w, es, n).clock[c]
    ensures n < |es| && es[n].Ticked? && es[n].club == c ==> es[k].inp.now < es[n].inp.now
    decreases n
  {
    hide Run, LegalRun, Before;
    if n > k + 1 { ClockRises(w, es, c, k, n - 1); }
    ClockStep(w, es, c, n - 1);
    if n < |es| { ClockStep(w, es, c, n); }
  }

  // ── reports ─────────────────────────────────────────────────────────────────

  /** Tick k acts on a broken report of the video. */
  ghost predicate Acted(w: World, es: seq<Event>, c: string, v: string, k: nat)
    requires ClubsOk(w) && LegalRun(w, es)
  {
    TickAt(w, es, c, k)
    && var s, inp := Found(w, es, c, k), es[k].inp;
       var p := Loaded(s, inp).play.value;
       Playing(s, inp) && ReportedBroken(s, p, inp) && p.videoID == v
  }

  /** The reports remembered after n events. */
  ghost predicate Remembered(w: World, es: seq<Event>, c: string, v: string, n: nat)
    requires ClubsOk(w) && LegalRun(w, es) && n <= |es| && c in Before(w, es, n).clubs
  {
    var b := Before(w, es, n).clubs[c].brokenVids;
    && (v in b <==> exists k :: 0 <= k < n && Acted(w, es, c, v, k))
    && forall k | 0 <= k < n && Acted(w, es, c, v, k) && (forall m | k < m < n :: !Acted(w, es, c, v, m)) ::
         v in b && b[v] == es[k].inp.now
  }

  lemma TickReports(s: Club, club: string, inp: Input, v: string)
    requires Sensible(inp) && ClubOk(s)
    ensures s.play.Some? ==> OrderOk(s.play.value.order)
    ensures var p, r := Loaded(s, inp).play.value, Tick(s, club, inp).club;
            if Playing(s, inp) && ReportedBroken(s, p, inp) && p.videoID == v
            then v in r.brokenVids && r.brokenVids[v] == inp.now
            else (v in r.brokenVids <==> v in s.brokenVids)
                 && (v in s.brokenVids ==> r.brokenVids[v] == s.brokenVids[v])
  {
    hide Tick, ClubOk, Loaded, Playing, ReportedBroken;
    OrderOfClub(s);
    MemoryIsExact(s, club, inp);
  }

  /**
    What the club remembers as broken are exactly the videos a tick of the run acted on, each with the
    moment of the last such tick.
   */
  lemma {:induction false} ReportsAreHistory(w: World, es: seq<Event>, c: string, v: string, n: nat)
    requires ClubsOk(w) && LegalRun(w, es) && n <= |es| && c in w.clubs && w.clubs[c].brokenVids == map[]
    ensures c in Before(w, es, n).clubs && Remembered(w, es, c, v, n)
    decreases n
  {
    hide Run, LegalRun, Before, Tick, ClubOk, Acted;
    if n == 0 {
      StartsEmpty(w, es);
    } else {
      ReportsAreHistory(w, es, c, v, n - 1);
      ClubStep(w, es, c, n - 1);
      ReportStep(w, es, c, v, n - 1);
    }
  }

  lemma ReportStep(w: World, es: seq<Event>, c: string, v: string, n: nat)
    requires ClubsOk(w) && LegalRun(w, es) && n < |es|
    requires c in Before(w, es, n).clubs && c in Before(w, es, n + 1).clubs
    ensures var b, d := Before(w, es, n).clubs[c].brokenVids, Before(w, es, n + 1).clubs[c].brokenVids;
            if Acted(w, es, c, v, n) then v in d && d[v] == es[n].inp.now
            else (v in d <==> v in b) && (v in b ==> d[v] == b[v])
  {
    hide Run, LegalRun, Before, Tick, ClubOk, Playing, ReportedBroken, Loaded;
    ClubStep(w, es, c, n);
    if es[n].club == c && es[n].Ticked? { TickReports(Before(w, es, n).clubs[c], c, es[n].inp, v); }
  }

  lemma {:induction false} ReportStays(w: World, es: seq<Event>, c: string, v: string, k: nat, n: nat)
    requires ClubsOk(w) && LegalRun(w, es) && k < n <= |es| && Acted(w, es, c, v, k)
    ensures c in Before(w, es, n).clubs
    ensures var b := Before(w, es, n).clubs[c].brokenVids; v in b && b[v] >= es[k].inp.now
    decreases n
  {
    hide Run, LegalRun, Before, Tick, ClubOk, Acted, Found;
    ActedIsTick(w, es, c, v, k);
    if n > k + 1 { ReportStays(w, es, c, v, k, n - 1); }
    ClubStep(w, es, c, n - 1);
    ReportStep(w, es, c, v, n - 1);
    if n > k + 1 && Acted(w, es, c, v, n - 1) {
      ActedIsTick(w, es, c, v, n - 1);
      ClockRises(w, es, c, k, n - 1);
    }
  }

  lemma ActedIsTick(w: World, es: seq<Event>, c: string, v: string, k: nat)
    requires ClubsOk(w) && LegalRun(w, es) && Acted(w, es, c, v, k)
    ensures TickAt(w, es, c, k) && k < |es| && es[k].Ticked? && es[k].club == c && c in Before(w, es, k).clubs
  {
  }

  /** Tick n starts the video for a stage DJ. */
  ghost predicate StartsFor(w: World, es: seq<Event>, c: string, dj: string, v: string, n: nat)
    requires ClubsOk(w) && LegalRun(w, es)
  {
    TickAt(w, es, c, n) && es[n].inp.djs != []
    && var starts := Tick(Found(w, es, c, n), c, es[n].inp).starts;
       starts != [] && starts[0].dj == dj && starts[0].videoID == v
  }

  lemma StartMayPlay(s: Club, club: string, inp: Input)
    requires Sensible(inp) && ClubOk(s) && inp.djs != []
    ensures s.play.Some? ==> OrderOk(s.play.value.order)
    ensures var starts, p := Tick(s, club, inp).starts, Loaded(s, inp).play.value;
            starts != [] ==>
              exists t :: t in Tracks(s, starts[0].dj) && t.videoID == starts[0].videoID
                          && MayPlay(s, p, inp, starts[0].dj, t)
  {
    hide Tick, ClubOk, Loaded, MayPlay, Tracks, MovesOn, OffersNone;
    OrderOfClub(s);
    if Tick(s, club, inp).starts != [] {
      var i, j := StartWasTurn(s, club, inp);
      TickTakesTurn(s, club, inp, i, j);
      assert Tracks(s, inp.djs[i])[j] in Tracks(s, inp.djs[i]);
    }
  }

  /**
    A video whose broken report was acted on is not started within six hours, unless an absent DJ's
    list starts over.
   */
  lemma {:induction false} ReportedVideoStaysOff(
    w: World, es: seq<Event>, c: string, dj: string, v: string, k: nat, n: nat)
    requires ClubsOk(w) && LegalRun(w, es) && k < n && Acted(w, es, c, v, k) && StartsFor(w, es, c, dj, v, n)
    ensures var s, inp := Found(w, es, c, n), es[n].inp;
            inp.now - es[k].inp.now >= 6 * 3_600_000 || StartsOver(s, Loaded(s, inp).play.value, inp, dj)
  {
    hide Run, LegalRun, Before, Tick, ClubOk, Acted, Loaded, Tracks, StartsOver;
    ReportStays(w, es, c, v, k, n);
    StartMayPlay(Found(w, es, c, n), c, es[n].inp);
  }

  // ── repeats ─────────────────────────────────────────────────────────────────

  /** Tick m drops the DJ's marks: his list starts over, or the start has emptied his queue. */
  ghost predicate Forgets(w: World, es: seq<Event>, c: string, dj: string, m: nat)
    requires ClubsOk(w) && LegalRun(w, es)
  {
    TickAt(w, es, c, m)
    && var s, inp := Found(w, es, c, m), es[m].inp;
       var starts := Tick(s, c, inp).starts;
       && inp.djs != [] && MovesOn(s, inp)
       && (|| (dj in inp.djs && StartsOver(s, Loaded(s, inp).play.value, inp, dj))
           || (starts != [] && starts[0].dj == dj && LastOfQueue(s, dj, starts[0].videoID)))
  }

  lemma MarkStep(w: World, es: seq<Event>, c: string, dj: string, v: string, n: nat)
    requires ClubsOk(w) && LegalRun(w, es) && n < |es|
    requires c in Before(w, es, n).clubs && c in Before(w, es, n + 1).clubs
    requires !Forgets(w, es, c, dj, n)
    ensures var a, b := PlayedAt(Before(w, es, n).clubs[c], dj, v), PlayedAt(Before(w, es, n + 1).clubs[c], dj, v);
            if StartsFor(w, es, c, dj, v, n) then b == es[n].inp.now
            else b == a
  {
    hide Run, LegalRun, Before, Tick, ClubOk, Loaded, StartsOver, LastOfQueue, MovesOn;
    ClubStep(w, es, c, n);
    if es[n].club == c && es[n].Ticked? {
      var s, inp := Before(w, es, n).clubs[c], es[n].inp;
      OrderOfClub(s);
      MarksAreExact(s, c, inp, dj, v);
      if inp.djs != [] && Tick(s, c, inp).starts != [] {
        var i, j := StartWasTurn(s, c, inp);
      }
    }
  }

  lemma {:induction false} MarkStays(w: World, es: seq<Event>, c: string, dj: string, v: string, k: nat, n: nat)
    requires ClubsOk(w) && LegalRun(w, es) && k < n <= |es| && StartsFor(w, es, c, dj, v, k)
    requires forall m | k <= m < n :: !Forgets(w, es, c, dj, m)
    ensures c in Before(w, es, n).clubs && PlayedAt(Before(w, es, n).clubs[c], dj, v) >= es[k].inp.now
    decreases n
  {
    hide Run, LegalRun, Before, Tick, ClubOk, StartsFor, Forgets, PlayedAt, Found;
    StartIsTick(w, es, c, dj, v, k);
    if n > k + 1 { MarkStays(w, es, c, dj, v, k, n - 1); }
    ClubStep(w, es, c, n - 1);
    MarkStep(w, es, c, dj, v, n - 1);
    if n > k + 1 && StartsFor(w, es, c, dj, v, n - 1) {
      StartIsTick(w, es, c, dj, v, n - 1);
      ClockRises(w, es, c, k, n - 1);
    }
  }

  lemma StartIsTick(w: World, es: seq<Event>, c: string, dj: string, v: string, k: nat)
    requires ClubsOk(w) && LegalRun(w, es) && StartsFor(w, es, c, dj, v, k)
    ensures TickAt(w, es, c, k) && k < |es| && es[k].Ticked? && es[k].club == c && c in Before(w, es, k).clubs
  {
  }

  /**
    Why a video comes again for the same DJ: the relay keeps his queue, which then says itself what was
    played; or he wrote the queue after the first start; or his list starts over now; or his marks were
    dropped in between.
   */
  lemma {:induction false} RepeatsHaveACause(
    w: World, es: seq<Event>, c: string, dj: string, v: string, k: nat, n: nat)
    requires ClubsOk(w) && LegalRun(w, es) && k < n
    requires StartsFor(w, es, c, dj, v, k) && StartsFor(w, es, c, dj, v, n) && es[k].inp.now > 0
    ensures var s, inp := Found(w, es, c, n), es[n].inp;
            || WrittenByRelay(s, dj)
            || (dj in s.queues && s.queues[dj].createdAt * 1000 > es[k].inp.now)
            || StartsOver(s, Loaded(s, inp).play.value, inp, dj)
            || exists m :: k <= m < n && Forgets(w, es, c, dj, m)
  {
    hide Run, LegalRun, Before, Tick, ClubOk, Loaded, Tracks, StartsOver, Forgets, WrittenByRelay;
    if forall m | k <= m < n :: !Forgets(w, es, c, dj, m) {
      MarkStays(w, es, c, dj, v, k, n);
      StartMayPlay(Found(w, es, c, n), c, es[n].inp);
    }
  }
}
