/**
  Verdicts over whole runs: every settlement goes back to one tick and what that tick read, a track
  that nobody cuts short is settled as played, none outlives its length, and only performances of
  clubs that were public when they ended are ever listed.
 */
module VerdictRuns {
  import opened Wrappers
  import opened Credibility
  import opened Playback
  import opened PlaybackRuns
  import opened Verdicts
  import Sorting

  // ── the tick behind a settlement ────────────────────────────────────────────

  /** The club as tick k of the run finds it. */
  ghost function Before(w: World, es: seq<Event>, k: nat): World
    requires ClubsOk(w) && LegalRun(w, es) && k <= |es|
  {
    PrefixIsLegal(w, es, k);
    Run(w, es[..k])
  }

  lemma {:induction false} PrefixIsLegal(w: World, es: seq<Event>, k: nat)
    requires ClubsOk(w) && LegalRun(w, es) && k <= |es|
    ensures LegalRun(w, es[..k])
    decreases k
  {
    hide Do, ClubsOk, Legal;
    if k > 0 {
      DoKeepsClubs(w, es[0]);
      PrefixIsLegal(Do(w, es[0]), es[1..], k - 1);
      assert es[..k][1..] == es[1..][..k - 1];
    }
  }

  /** Running on: the world after k events, one event later. */
  lemma {:induction false} BeforeNext(w: World, es: seq<Event>, k: nat)
    requires ClubsOk(w) && LegalRun(w, es) && k < |es|
    ensures ClubsOk(Before(w, es, k)) && Legal(Before(w, es, k), es[k])
    ensures Before(w, es, k + 1) == Do(Before(w, es, k), es[k])
    decreases k
  {
    hide Do, ClubsOk, Legal;
    DoKeepsClubs(w, es[0]);
    PrefixIsLegal(w, es, k);
    PrefixIsLegal(w, es, k + 1);
    if k == 0 {
      assert es[..1] == [es[0]] && es[..1][1..] == [] && es[..0] == [];
      FirstStep(w, es[..1]);
    } else {
      BeforeNext(Do(w, es[0]), es[1..], k - 1);
      assert es[..k][1..] == es[1..][..k - 1] && es[..k + 1][1..] == es[1..][..k];
      FirstStep(w, es[..k]);
      FirstStep(w, es[..k + 1]);
    }
  }

  lemma FirstStep(w: World, es: seq<Event>)
    requires ClubsOk(w) && LegalRun(w, es) && es != []
    ensures ClubsOk(Do(w, es[0])) && LegalRun(Do(w, es[0]), es[1..]) && Run(w, es) == Run(Do(w, es[0]), es[1..])
  {
    hide Do, ClubsOk, Legal;
    DoKeepsClubs(w, es[0]);
  }

  lemma BeforeAll(w: World, es: seq<Event>)
    requires ClubsOk(w) && LegalRun(w, es)
    ensures Before(w, es, |es|) == Run(w, es)
  {
    assert es[..|es|] == es;
  }

  /** Entry i of the log is attempt j of tick k. */
  ghost predicate MadeBy(w: World, es: seq<Event>, i: nat, k: nat, j: nat)
    requires ClubsOk(w) && LegalRun(w, es)
  {
    && k < |es| && es[k].Ticked? && Sensible(es[k].inp)
    && es[k].club in Before(w, es, k).clubs && ClubOk(Before(w, es, k).clubs[es[k].club])
    && var made := Tick(Before(w, es, k).clubs[es[k].club], es[k].club, es[k].inp).attempts;
    && j < |made| && i < |Run(w, es).log| && Run(w, es).log[i] == made[j]
    && (j > 0 ==> i > 0 && Run(w, es).log[i - 1] == made[j - 1])
  }

  /** Every settlement of a run was made by a tick. */
  lemma {:induction false} MadeBySome(w: World, es: seq<Event>, i: nat, n: nat) returns (k: nat, j: nat)
    requires ClubsOk(w) && LegalRun(w, es) && n <= |es|
    requires |w.log| <= i < |Before(w, es, n).log|
    ensures k < n && es[k].Ticked? && Sensible(es[k].inp)
    ensures es[k].club in Before(w, es, k).clubs && ClubOk(Before(w, es, k).clubs[es[k].club])
    ensures var made := Tick(Before(w, es, k).clubs[es[k].club], es[k].club, es[k].inp).attempts;
            && j < |made| && Before(w, es, n).log[i] == made[j]
            && (j > 0 ==> i > 0 && Before(w, es, n).log[i - 1] == made[j - 1])
    decreases n
  {
    hide Run, LegalRun, Tick, ClubOk;
    if n == 0 {
      StartsEmpty(w, es);
      assert false;
    } else {
      BeforeNext(w, es, n - 1);
      var v := Before(w, es, n - 1);
      if i < |v.log| {
        k, j := MadeBySome(w, es, i, n - 1);
      } else {
        k, j := n - 1, i - |v.log|;
      }
    }
  }

  lemma StartsEmpty(w: World, es: seq<Event>)
    requires ClubsOk(w) && LegalRun(w, es)
    ensures Before(w, es, 0) == w
  {
    assert es[..0] == [];
  }

  lemma MadeBySomeTick(w: World, es: seq<Event>, i: nat) returns (k: nat, j: nat)
    requires ClubsOk(w) && LegalRun(w, es) && w.log == [] && i < |Run(w, es).log|
    ensures MadeBy(w, es, i, k, j)
  {
    hide Run, LegalRun, Tick, ClubOk, Before;
    BeforeAll(w, es);
    k, j := MadeBySome(w, es, i, |es|);
  }

  // ── outcomes ────────────────────────────────────────────────────────────────

  /** Somebody with the right asks to skip, the track is reported broken, or three votes are in. */
  predicate Interferes(inp: Input) {
    inp.skip || inp.broken || inp.skips >= 3
  }

  lemma EchoIsPlayed(s: Club, club: string, inp: Input, j: nat)
    requires Sensible(inp) && ClubOk(s) && 0 < j < |Tick(s, club, inp).attempts|
    ensures j == 1 && Tick(s, club, inp).attempts[1].settlement.outcome.Played?
  {
    hide Tick, ClubOk, Air, Loaded;
    TickShape(s, club, inp);
  }

  /**
    Every settlement of a run is the verdict of one tick: made at that moment, about the track then on
    the air, with the outcome that tick's readings call for, unless it only repeats the settlement
    before it when a club stops.
   */
  lemma {:induction false} RunOutcomes(w: World, es: seq<Event>, i: nat) returns (k: nat, j: nat)
    requires ClubsOk(w) && LegalRun(w, es) && w.log == [] && i < |Run(w, es).log|
    ensures MadeBy(w, es, i, k, j)
    ensures var a, inp := Run(w, es).log[i], es[k].inp;
            var s := Before(w, es, k).clubs[es[k].club];
            var p := Loaded(s, inp).play.value;
            && Records(a, es[k].club, p, inp)
            && (j == 0 ==>
                  && Playing(s, inp)
                  && (a.settlement.outcome.Played? <==> RunsOut(s, p, inp))
                  && (a.settlement.outcome.CommunitySkipped? <==> CommunityActs(s, p, inp))
                  && (a.settlement.outcome.Discarded? <==> Skipped(s, p, inp) || ReportedBroken(s, p, inp)))
            && (j > 0 ==> i > 0 && Echo(Run(w, es).log[i - 1], a))
  {
    hide Run, LegalRun, Tick, ClubOk, Before, Loaded, Playing, RunsOut, CommunityActs, Skipped, ReportedBroken, Records;
    k, j := MadeBySomeTick(w, es, i);
    var s, c, inp := Before(w, es, k).clubs[es[k].club], es[k].club, es[k].inp;
    OrderOfClub(s);
    OutcomeIsExact(s, c, inp);
    SettlementIsExact(s, c, inp);
    assert Run(w, es).log[i] in Tick(s, c, inp).attempts;
    if j > 0 { EchoOfTick(s, c, inp, j); }
  }

  lemma EchoOfTick(s: Club, club: string, inp: Input, j: nat)
    requires Sensible(inp) && ClubOk(s) && 0 < j < |Tick(s, club, inp).attempts|
    ensures Echo(Tick(s, club, inp).attempts[j - 1], Tick(s, club, inp).attempts[j])
  {
    hide Tick, ClubOk, Air, Loaded;
    TickShape(s, club, inp);
  }

  lemma NobodyInterferes(s: Club, p: Play, inp: Input)
    requires !Interferes(inp)
    ensures !Skipped(s, p, inp) && !ReportedBroken(s, p, inp) && !CommunityActs(s, p, inp)
  {
  }

  /**
    The converse of `PlayedRanInFull`: a settlement that is not played was made by a tick that read a
    skip, a broken report or three votes. Whoever is left alone gets his track played.
   */
  lemma {:induction false} NotPlayedWasCut(w: World, es: seq<Event>, i: nat)
    requires ClubsOk(w) && LegalRun(w, es) && w.log == [] && i < |Run(w, es).log|
    requires !Run(w, es).log[i].settlement.outcome.Played?
    ensures exists k :: 0 <= k < |es| && es[k].Ticked? && es[k].club == Run(w, es).log[i].settlement.club
                        && es[k].inp.now == Run(w, es).log[i].at && Interferes(es[k].inp)
  {
    hide Run, LegalRun, Before, Loaded, Playing, RunsOut, CommunityActs, Skipped, ReportedBroken, Interferes;
    var k, j := RunOutcomes(w, es, i);
    var s, inp := Before(w, es, k).clubs[es[k].club], es[k].inp;
    LoadedKeeps(s, inp);
    if !Interferes(inp) { NobodyInterferes(s, Loaded(s, inp).play.value, inp); }
  }

  /** In a run in which nobody interferes every settlement is played, and ran in full. */
  lemma {:induction false} QuietRunPlaysAll(w: World, es: seq<Event>, i: nat)
    requires Boot(w) && ClubsOk(w) && LegalRun(w, es) && i < |Run(w, es).log|
    requires forall k | 0 <= k < |es| && es[k].Ticked? :: !Interferes(es[k].inp)
    ensures Run(w, es).log[i].settlement.outcome.Played?
  {
    hide Run, LegalRun, Interferes, ClubsOk;
    if !Run(w, es).log[i].settlement.outcome.Played? {
      NotPlayedWasCut(w, es, i);
      assert false;
    }
  }

  // ── no track outlives its length ────────────────────────────────────────────

  lemma UntendedStays(s: Club, club: string, inp: Input)
    requires Sensible(inp) && ClubOk(s) && !Tended(s, inp)
    ensures Air(Tick(s, club, inp).club, club).None?
  {
    hide OrderOk;
  }

  lemma SomethingIsDue(s: Club, p: Play, inp: Input)
    requires FullTime(p, inp)
    ensures RunsOut(s, p, inp) || CommunityActs(s, p, inp) || Skipped(s, p, inp) || ReportedBroken(s, p, inp)
  {
  }

  lemma AirOfLoaded(s: Club, club: string, inp: Input)
    requires Tended(s, inp) && Air(Loaded(s, inp), club).Some?
    ensures Playing(s, inp)
    ensures var air, p := Air(Loaded(s, inp), club).value, Loaded(s, inp).play.value;
            air == StartOf(club, p)
  {
    hide Resumed;
  }

  /** A track that has run its length is settled by the next tick, whoever drives the club. */
  lemma EndIsSettled(s: Club, club: string, inp: Input)
    requires Sensible(inp) && ClubOk(s) && Playing(s, inp) && FullTime(Loaded(s, inp).play.value, inp)
    ensures Tick(s, club, inp).attempts != []
  {
    hide Tick, ClubOk, Loaded, CommunityActs, Skipped, ReportedBroken, RunsOut, FullTime, Playing;
    LoadedKeeps(s, inp);
    OutcomeIsExact(s, club, inp);
    SomethingIsDue(s, Loaded(s, inp).play.value, inp);
  }

  /** After a tick whatever is on the air has not yet run its length. */
  lemma TickEndsTracks(s: Club, club: string, inp: Input)
    requires Sensible(inp) && ClubOk(s)
    ensures var air := Air(Tick(s, club, inp).club, club);
            air.Some? ==> inp.now - air.value.startedAt < 1000 * FullLength(air.value.duration)
  {
    hide Tick, ClubOk, Loaded, SettlesAir, Air, Playing, Tended;
    OrderOfClub(s);
    LoadedKeeps(s, inp);
    TickShape(s, club, inp);
    var e := Tick(s, club, inp);
    if !Tended(s, inp) {
      UntendedStays(s, club, inp);
    } else if e.starts == [] && Air(e.club, club).Some? {
      AirOfLoaded(s, club, inp);
      if FullTime(Loaded(s, inp).play.value, inp) { EndIsSettled(s, club, inp); }
    }
  }

  /** In a run, once a club is ticked, its track is younger than its length, until the next tick. */
  lemma {:induction false} NoTrackOutlivesItsLength(w: World, es: seq<Event>, c: string, inp: Input)
    requires ClubsOk(w) && LegalRun(w, es + [Ticked(c, inp)])
    ensures c in Run(w, es + [Ticked(c, inp)]).clubs
    ensures var air := Air(Run(w, es + [Ticked(c, inp)]).clubs[c], c);
            air.Some? ==> inp.now - air.value.startedAt < 1000 * FullLength(air.value.duration)
  {
    hide Tick, ClubOk, Run, LegalRun, Air, Before;
    var all := es + [Ticked(c, inp)];
    BeforeNext(w, all, |es|);
    BeforeAll(w, all);
    TickEndsTracks(Before(w, all, |es|).clubs[c], c, inp);
  }

  // ── what is listed publicly ─────────────────────────────────────────────────

  /** The performance a settlement would list. */
  predicate Lists(p: Performance, s: Settlement) {
    && p.club == s.club && p.videoID == s.videoID && p.title == s.title && p.dj == s.dj && p.startedAt == s.startedAt
    && p.autoDJ == s.auto && p.skipped == s.outcome.CommunitySkipped?
    && p.bangers == (if s.bangers < 0 then 0 else if s.bangers > 5 then 5 else s.bangers)
  }

  lemma PerformanceLists(s: Settlement)
    ensures Lists(PerformanceOf(s), s)
  {
  }

  ghost predicate PublicIn(fs: seq<Settlement>, p: Performance) {
    exists s :: s in fs && Counts(s) && s.publish && Lists(p, s)
  }

  /** Listed are exactly the counted settlements that were public. */
  lemma {:induction false} ListedIsPublic(fs: seq<Settlement>)
    ensures forall p | p in ListAll(fs) :: PublicIn(fs, p)
    ensures forall s | s in fs && Counts(s) && s.publish :: PerformanceOf(s) in ListAll(fs)
  {
    hide Counts, Lists, PerformanceOf;
    if fs != [] {
      var front, s := fs[..|fs| - 1], fs[|fs| - 1];
      ListedIsPublic(front);
      PerformanceLists(s);
      forall p | p in ListAll(fs) ensures PublicIn(fs, p) {
        if p in ListAll(front) {
          var x :| x in front && Counts(x) && x.publish && Lists(p, x);
          assert x in fs;
        } else {
          assert s in fs;
        }
      }
    }
  }

  lemma {:induction false} FirstIsKept(ss: seq<Settlement>, n: nat)
    requires n < |ss| && First(ss, n)
    ensures ss[n] in Firsts(ss)
  {
    hide WellFormed, SameTrack;
    if n < |ss| - 1 {
      FirstIsKept(ss[..|ss| - 1], n);
    }
  }

  /**
    A track that the ledger settles is on the public list exactly if the tick that settled it read
    its club as public, and did not discard it.
   */
  lemma {:induction false} ListedExactly(pre: seq<Settlement>, w: World, es: seq<Event>, i: nat)
    returns (k: nat, j: nat)
    requires Boot(w) && ClubsOk(w) && LegalRun(w, es) && Earlier(pre, w) && i < |Run(w, es).log|
    requires First(Continued(pre, Run(w, es).log), |pre| + i)
    ensures MadeBy(w, es, i, k, j)
    ensures var s := Run(w, es).log[i].settlement;
            (exists p :: p in ListAll(Firsts(Continued(pre, Run(w, es).log))) && Lists(p, s))
            <==> es[k].inp.listed && !s.outcome.Discarded?
  {
    hide Run, LegalRun, Before, Loaded, ClubsOk, Earlier, Rising, Firsts, ListAll, First, Lists, PerformanceOf,
         WellFormed;
    hide Playing, RunsOut, CommunityActs, Skipped, ReportedBroken, MadeBy;
    k, j := RunOutcomes(w, es, i);
    var log := Run(w, es).log;
    var ss, s := Continued(pre, log), log[i].settlement;
    assert ss[|pre| + i] == s;
    FirstIsKept(ss, |pre| + i);
    FirstCounts(ss, |pre| + i);
    RunIsOrderly(pre, w, es);
    FirstsAreDistinct(ss);
    ListedIsPublic(Firsts(ss));
    PerformanceLists(s);
    forall p | p in ListAll(Firsts(ss)) && Lists(p, s) ensures s.publish && Counts(s) {
      var x :| x in Firsts(ss) && Counts(x) && x.publish && Lists(p, x);
      SameListing(p, x, s, Firsts(ss));
    }
  }

  lemma FirstCounts(ss: seq<Settlement>, n: nat)
    requires n < |ss| && First(ss, n)
    ensures Counts(ss[n]) <==> !ss[n].outcome.Discarded?
  {
  }

  lemma SameListing(p: Performance, x: Settlement, s: Settlement, fs: seq<Settlement>)
    requires Lists(p, x) && Lists(p, s) && x in fs && s in fs && DistinctTracks(fs)
    ensures x == s
  {
  }

  lemma {:induction false} KeptWasListed(ss: seq<Settlement>, p: Performance)
    requires Orderly(ss) && p in RecordAll(EMPTY, ss).history
    ensures p in ListAll(Firsts(ss))
  {
    hide Orderly, Firsts, ListAll, RecordAll, Better;
    LastKeyIsEnough(ss);
    LedgerConservation(ss, "");
    BetterIsWeakOrder();
    var ps := ListAll(Firsts(ss));
    Sorting.SortMeets(ps, Better);
    SameMembers(Sorting.Sort(ps, Better), ps);
  }

  lemma {:induction false} KeptWasPublic(ss: seq<Settlement>, p: Performance) returns (n: nat)
    requires Rising(ss) && Orderly(ss) && p in RecordAll(EMPTY, ss).history
    ensures n < |ss| && ss[n].publish && Lists(p, ss[n])
  {
    hide Orderly, Rising, Firsts, ListAll, RecordAll, Lists, Counts;
    KeptWasListed(ss, p);
    ListedIsPublic(Firsts(ss));
    FirstsAreDistinct(ss);
    var s :| s in Firsts(ss) && Counts(s) && s.publish && Lists(p, s);
    n :| n < |ss| && ss[n] == s;
  }

  lemma {:induction false} PublicTick(w: World, es: seq<Event>, i: nat)
    requires ClubsOk(w) && LegalRun(w, es) && w.log == [] && i < |Run(w, es).log|
    requires Run(w, es).log[i].settlement.publish
    ensures exists k :: 0 <= k < |es| && es[k].Ticked? && es[k].club == Run(w, es).log[i].settlement.club
                        && es[k].inp.listed
  {
    hide Run, LegalRun, Before, Loaded, ClubsOk, Playing, RunsOut, CommunityActs, Skipped, ReportedBroken, MadeBy;
    var k, j := RunOutcomes(w, es, i);
    TickOf(w, es, i, k, j);
  }

  /**
    No private club is ever listed: a performance in the ledger's history was listed by an earlier
    life, or by a tick of its club that read it as public.
   */
  lemma {:induction false} HistoryIsPublic(pre: seq<Settlement>, w: World, es: seq<Event>, p: Performance)
    requires Boot(w) && ClubsOk(w) && LegalRun(w, es) && Earlier(pre, w)
    requires p in RecordAll(RecordAll(EMPTY, pre), Settlements(Run(w, es).log)).history
    ensures (exists s :: s in pre && s.publish && Lists(p, s))
            || exists k :: 0 <= k < |es| && es[k].Ticked? && es[k].club == p.club && es[k].inp.listed
  {
    hide Run, LegalRun, ClubsOk, Earlier, Rising, RecordAll, Orderly, Lists;
    var log := Run(w, es).log;
    var ss := Continued(pre, log);
    RunIsOrderly(pre, w, es);
    RecordAllAppend(EMPTY, pre, Settlements(log));
    var n := KeptWasPublic(ss, p);
    ListsClub(p, ss[n]);
    if n < |pre| {
      assert ss[n] in pre;
    } else {
      assert ss[n] == log[n - |pre|].settlement;
      PublicTick(w, es, n - |pre|);
    }
  }

  lemma ListsClub(p: Performance, s: Settlement)
    requires Lists(p, s)
    ensures p.club == s.club
  {
  }

  lemma TickOf(w: World, es: seq<Event>, i: nat, k: nat, j: nat)
    requires ClubsOk(w) && LegalRun(w, es) && MadeBy(w, es, i, k, j)
    ensures k < |es| && es[k].Ticked?
  {
  }
}
