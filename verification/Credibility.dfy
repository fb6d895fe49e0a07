/**
  The durable score ledger: one outcome per track, remembered by the club's last track key alone,
  personal totals per DJ, and a bounded history of public performances.
 */
module Credibility {
  import opened Wrappers
  import opened Sorting
  import opened Decimal

  const BANGER_MAX := 5
  const HISTORY_MAX := 100

  datatype Outcome = Played | CommunitySkipped | Discarded

  datatype Entry = Entry(pubkey: string, score: int, tracks: int, bangers: int, skipped: int)

  datatype Performance = Performance(
    club: string, videoID: string, title: string, dj: string, bangers: int,
    skipped: bool, autoDJ: bool, startedAt: int)

  /** One call of `record` (`auto` false) or `recordAutoTrack` (`auto` true). */
  datatype Settlement = Settlement(
    club: string, pos: int, startedAt: int, videoID: string, title: string, dj: string,
    bangers: int, outcome: Outcome, publish: bool, auto: bool)

  datatype Board = Board(totals: map<string, Entry>, last: map<string, string>, history: seq<Performance>)

  const EMPTY := Board(map[], map[], [])

  predicate WellFormed(s: Settlement) {
    s.club != "" && s.dj != "" && s.pos >= 0 && s.startedAt > 0
  }

  function Key(s: Settlement): string {
    Itoa(s.pos) + ":" + Itoa(s.startedAt)
  }

  function Clamp(bangers: int): (r: int)
    ensures 0 <= r <= BANGER_MAX
  {
    if bangers < 0 then 0 else if bangers > BANGER_MAX then BANGER_MAX else bangers
  }

  predicate Fresh(b: Board, s: Settlement) {
    WellFormed(s) && !(s.club in b.last && b.last[s.club] == Key(s))
  }

  /** The settlements that earn something: well-formed, not discarded. */
  predicate Counts(s: Settlement) {
    WellFormed(s) && !s.outcome.Discarded?
  }

  function EntryFor(totals: map<string, Entry>, dj: string): Entry {
    if dj in totals then totals[dj] else Entry(dj, 0, 0, 0, 0)
  }

  /** A settled real track adds to its DJ; an Auto-DJ track and a discarded one add nothing. */
  function Earn(e: Entry, s: Settlement): Entry {
    var n := Clamp(s.bangers);
    if s.outcome.CommunitySkipped?
    then e.(tracks := e.tracks + 1, bangers := e.bangers + n, score := e.score - 1, skipped := e.skipped + 1)
    else e.(tracks := e.tracks + 1, bangers := e.bangers + n, score := e.score + n)
  }

  function Credit(totals: map<string, Entry>, s: Settlement): map<string, Entry> {
    if Counts(s) && !s.auto then totals[s.dj := Earn(EntryFor(totals, s.dj), s)] else totals
  }

  function PerformanceOf(s: Settlement): Performance {
    Performance(s.club, s.videoID, s.title, s.dj, Clamp(s.bangers), s.outcome.CommunitySkipped?, s.auto, s.startedAt)
  }

  /** The ranking of performances: more bangers, then newer, then club, DJ and video. */
  predicate Better(a: Performance, z: Performance) {
    if a.bangers != z.bangers then a.bangers > z.bangers
    else if a.startedAt != z.startedAt then a.startedAt > z.startedAt
    else if a.club != z.club then Less(a.club, z.club)
    else if a.dj != z.dj then Less(a.dj, z.dj)
    else Less(a.videoID, z.videoID)
  }

  function Listed(history: seq<Performance>, s: Settlement): seq<Performance> {
    if Counts(s) && s.publish then Take(Sort(history + [PerformanceOf(s)], Better), HISTORY_MAX) else history
  }

  function Record(b: Board, s: Settlement): Board {
    if !Fresh(b, s) then b
    else Board(Credit(b.totals, s), b.last[s.club := Key(s)], Listed(b.history, s))
  }

  // ── relay/credibility.go ────────────────────────────────────────────────────

  class CredibilityBoard {
    var totals: map<string, Entry>
    var lastTrack: map<string, string>
    var trackPerformances: seq<Performance>

    function View(): Board
      reads this
    {
      Board(totals, lastTrack, trackPerformances)
    }

    constructor ()
      ensures View() == EMPTY
    {
      totals, lastTrack, trackPerformances := map[], map[], [];
    }

    method TrimTrackPerformancesLocked()
      modifies this`trackPerformances
      ensures trackPerformances == Take(Sort(old(trackPerformances), Better), HISTORY_MAX)
    {
      trackPerformances := Sort(trackPerformances, Better);
      if |trackPerformances| > HISTORY_MAX {
        trackPerformances := trackPerformances[..HISTORY_MAX];
      }
    }

    method RecordSettlement(s: Settlement) returns (settled: Option<Entry>, changed: bool)
      modifies this
      ensures View() == Record(old(View()), s)
      ensures changed <==> Fresh(old(View()), s) && Counts(s)
      ensures settled == if changed && !s.auto then Some(totals[s.dj]) else None
    {
      hide Itoa, Sort, Take, Better;
      if s.club == "" || s.dj == "" || s.pos < 0 || s.startedAt <= 0 {
        return None, false;
      }
      var trackKey := Itoa(s.pos) + ":" + Itoa(s.startedAt);
      if s.club in lastTrack && lastTrack[s.club] == trackKey {
        return None, false;
      }
      lastTrack := lastTrack[s.club := trackKey];
      if s.outcome.Discarded? {
        return None, false;
      }
      var bangers := s.bangers;
      if bangers < 0 {
        bangers := 0;
      }
      if bangers > BANGER_MAX {
        bangers := BANGER_MAX;
      }
      settled := None;
      if !s.auto {
        var entry := if s.dj in totals then totals[s.dj] else Entry(s.dj, 0, 0, 0, 0);
        entry := entry.(tracks := entry.tracks + 1, bangers := entry.bangers + bangers);
        if s.outcome.CommunitySkipped? {
          entry := entry.(score := entry.score - 1, skipped := entry.skipped + 1);
        } else {
          entry := entry.(score := entry.score + bangers);
        }
        totals := totals[s.dj := entry];
        settled := Some(entry);
      }
      if s.publish {
        trackPerformances := trackPerformances + [
          Performance(s.club, s.videoID, s.title, s.dj, bangers, s.outcome.CommunitySkipped?, s.auto, s.startedAt)];
        TrimTrackPerformancesLocked();
      }
      return settled, true;
    }

    /** The public top tracks, from a sorted copy of the kept history. */
    method TrackTop(n: int) returns (top: seq<TrackRow>)
      ensures top == Rows(Sort(trackPerformances, Better), if n < 0 then 0 else n, 0)
    {
      hide Sort, Better;
      var performances := Sort(trackPerformances, Better);
      var limit := if n < 0 then 0 else n;
      top := [];
      for i := 0 to |performances|
        invariant |top| <= limit
        invariant Rows(performances, limit, 0) == top + Rows(performances[i..], limit - |top|, |top|)
      {
        var track := performances[i];
        assert performances[i..][0] == track && performances[i..][1..] == performances[i + 1..];
        if |top| >= limit {
          break;
        }
        if track.bangers <= 0 || track.club == "" || track.dj == "" || track.startedAt <= 0 {
          continue;
        }
        var bangers := track.bangers;
        if bangers > BANGER_MAX {
          bangers := BANGER_MAX;
        }
        top := top + [TrackRow(|top| + 1, track.(bangers := bangers))];
      }
    }
  }

  // ── runs of settlements ─────────────────────────────────────────────────────

  function RecordAll(b: Board, ss: seq<Settlement>): Board {
    if ss == [] then b else Record(RecordAll(b, ss[..|ss| - 1]), ss[|ss| - 1])
  }

  lemma {:induction false} RecordAllAppend(b: Board, a: seq<Settlement>, c: seq<Settlement>)
    ensures RecordAll(b, a + c) == RecordAll(RecordAll(b, a), c)
    decreases |c|
  {
    if c == [] {
      assert a + c == a;
    } else {
      var t, x := c[..|c| - 1], c[|c| - 1];
      RecordAllAppend(b, a, t);
      assert (a + c)[..|a + c| - 1] == a + t;
    }
  }

  /** The settlement is the first well-formed one of its track. */
  ghost predicate First(ss: seq<Settlement>, i: nat)
    requires i < |ss|
  {
    && WellFormed(ss[i])
    && forall j | 0 <= j < i :: !(WellFormed(ss[j]) && SameTrack(ss[j], ss[i]))
  }

  predicate SameTrack(a: Settlement, b: Settlement) {
    a.club == b.club && a.pos == b.pos && a.startedAt == b.startedAt
  }

  /** The first settlements of a run, one per track: what a ledger that forgot nothing would use. */
  ghost function Firsts(ss: seq<Settlement>): seq<Settlement> {
    if ss == [] then []
    else if First(ss, |ss| - 1) then Firsts(ss[..|ss| - 1]) + [ss[|ss| - 1]]
    else Firsts(ss[..|ss| - 1])
  }

  /** Within a club positions never fall, and a position belongs to one start. */
  ghost predicate Orderly(ss: seq<Settlement>) {
    forall i, j | 0 <= i < j < |ss| && WellFormed(ss[i]) && WellFormed(ss[j]) && ss[i].club == ss[j].club ::
      ss[i].pos < ss[j].pos || SameTrack(ss[i], ss[j])
  }

  /** The last key of each club is that of its latest well-formed settlement. */
  ghost predicate LastKeys(b: Board, ss: seq<Settlement>) {
    && (forall c | c in b.last ::
          exists i :: 0 <= i < |ss| && Latest(ss, i) && ss[i].club == c && b.last[c] == Key(ss[i]))
    && (forall i | 0 <= i < |ss| && WellFormed(ss[i]) :: ss[i].club in b.last)
  }

  ghost predicate Latest(ss: seq<Settlement>, i: int)
    requires 0 <= i < |ss|
  {
    WellFormed(ss[i]) && forall j | i < j < |ss| && WellFormed(ss[j]) && ss[j].club == ss[i].club ::
        SameTrack(ss[i], ss[j])
  }

  lemma KeysMatch(a: Settlement, b: Settlement)
    requires a.club == b.club
    ensures Key(a) == Key(b) <==> SameTrack(a, b)
  {
    if Key(a) == Key(b) { PairInjective(a.pos, a.startedAt, b.pos, b.startedAt); }
  }

  /** In an orderly run the club's last key decides exactly whether the track was settled before. */
  lemma FreshIsFirst(b: Board, ss: seq<Settlement>, s: Settlement)
    requires Orderly(ss + [s]) && LastKeys(b, ss)
    ensures Fresh(b, s) <==> First(ss + [s], |ss|)
  {
    hide Key, WellFormed;
    var t := ss + [s];
    if WellFormed(s) {
      if s.club in b.last {
        var i :| 0 <= i < |ss| && Latest(ss, i) && ss[i].club == s.club && b.last[s.club] == Key(ss[i]);
        KeysMatch(ss[i], s);
        assert t[i] == ss[i] && t[|ss|] == s;
        if !SameTrack(ss[i], s) {
          forall j | 0 <= j < |ss| && WellFormed(ss[j]) ensures !SameTrack(ss[j], s) {
            assert t[j] == ss[j];
            assert j < i ==> t[j].club == t[i].club ==> t[j].pos <= t[i].pos;
          }
        }
      } else {
        forall j | 0 <= j < |ss| ensures !(WellFormed(t[j]) && SameTrack(t[j], s)) {
          assert t[j] == ss[j];
        }
      }
    }
  }

  lemma LastKeysStep(b: Board, ss: seq<Settlement>, s: Settlement)
    requires Orderly(ss + [s]) && LastKeys(b, ss)
    ensures LastKeys(Record(b, s), ss + [s])
  {
    hide Key, Credit, Listed, WellFormed;
    var t, r := ss + [s], Record(b, s);
    forall c | c in r.last
      ensures exists i :: 0 <= i < |t| && Latest(t, i) && t[i].club == c && r.last[c] == Key(t[i])
    {
      if Fresh(b, s) && c == s.club {
        assert Latest(t, |ss|);
      } else {
        var i :| 0 <= i < |ss| && Latest(ss, i) && ss[i].club == c && b.last[c] == Key(ss[i]);
        assert t[i] == ss[i];
        if WellFormed(s) && s.club == c { KeysMatch(ss[i], s); }
        assert Latest(t, i);
      }
    }
    forall i | 0 <= i < |t| && WellFormed(t[i]) ensures t[i].club in r.last {
      assert i < |ss| ==> t[i] == ss[i];
    }
  }

  lemma OrderlyPrefix(ss: seq<Settlement>)
    requires Orderly(ss) && ss != []
    ensures Orderly(ss[..|ss| - 1]) && ss == ss[..|ss| - 1] + [ss[|ss| - 1]]
  {
  }

  function CreditAll(totals: map<string, Entry>, ss: seq<Settlement>): map<string, Entry> {
    if ss == [] then totals else Credit(CreditAll(totals, ss[..|ss| - 1]), ss[|ss| - 1])
  }

  function ListAll(ss: seq<Settlement>): seq<Performance> {
    if ss == [] then []
    else ListAll(ss[..|ss| - 1]) + if Counts(ss[|ss| - 1]) && ss[|ss| - 1].publish then [PerformanceOf(ss[|ss| - 1])]
        else []
  }

  /**
    Remembering only each club's last key settles exactly the tracks that remembering every key
    would: the board equals crediting the first settlement of every track and nothing else.
   */
  lemma {:induction false} LastKeyIsEnough(ss: seq<Settlement>)
    requires Orderly(ss)
    ensures LastKeys(RecordAll(EMPTY, ss), ss)
    ensures RecordAll(EMPTY, ss).totals == CreditAll(map[], Firsts(ss))
    ensures RecordAll(EMPTY, ss).history == Take(Sort(ListAll(Firsts(ss)), Better), HISTORY_MAX)
  {
    hide Fresh, Credit, Orderly, LastKeys, Key, Better, First;
    if ss == [] {
      NothingSettled();
    } else {
      var t, s := ss[..|ss| - 1], ss[|ss| - 1];
      OrderlyPrefix(ss);
      LastKeyIsEnough(t);
      FreshIsFirst(RecordAll(EMPTY, t), t, s);
      LastKeysStep(RecordAll(EMPTY, t), t, s);
      if First(ss, |ss| - 1) {
        FirstsSnoc(Firsts(t), s);
        HistoryStep(ListAll(Firsts(t)), s);
      }
    }
  }

  lemma NothingSettled()
    ensures LastKeys(EMPTY, []) && Take(Sort([], Better), HISTORY_MAX) == []
  {
  }

  lemma FirstsSnoc(fs: seq<Settlement>, s: Settlement)
    ensures CreditAll(map[], fs + [s]) == Credit(CreditAll(map[], fs), s)
    ensures ListAll(fs + [s]) == ListAll(fs) + if Counts(s) && s.publish then [PerformanceOf(s)] else []
  {
    assert (fs + [s])[..|fs|] == fs;
  }

  lemma BetterIsWeakOrder()
    ensures WeakOrder(Better)
  {
    forall a, b, c
      ensures !Better(a, a)
      ensures Better(a, b) && Better(b, c) ==> Better(a, c)
      ensures Better(a, c) ==> Better(a, b) || Better(b, c)
    {
      BetterLaws(a, b, c);
    }
  }

  lemma LessLaws(a: string, b: string, c: string)
    ensures !Less(a, a)
    ensures Less(a, b) && Less(b, c) ==> Less(a, c)
    ensures Less(a, c) ==> Less(a, b) || Less(b, c)
  {
    LessTotal(a, b);
    LessTotal(b, c);
    LessTotal(a, c);
    if Less(a, b) && Less(b, c) { LessTransitive(a, b, c); }
    if Less(c, b) && Less(b, a) { LessTransitive(c, b, a); }
  }

  lemma BetterLaws(a: Performance, b: Performance, c: Performance)
    ensures !Better(a, a)
    ensures Better(a, b) && Better(b, c) ==> Better(a, c)
    ensures Better(a, c) ==> Better(a, b) || Better(b, c)
  {
    hide Less;
    LessLaws(a.club, b.club, c.club);
    LessLaws(a.dj, b.dj, c.dj);
    LessLaws(a.videoID, b.videoID, c.videoID);
    LessTotal(a.club, b.club);
    LessTotal(b.club, c.club);
    LessTotal(a.dj, b.dj);
    LessTotal(b.dj, c.dj);
  }

  /** Trimming after every performance loses nothing of the first hundred of all of them. */
  lemma HistoryStep(all: seq<Performance>, s: Settlement)
    ensures Listed(Take(Sort(all, Better), HISTORY_MAX), s)
         == Take(Sort(all + if Counts(s) && s.publish then [PerformanceOf(s)] else [], Better), HISTORY_MAX)
  {
    hide Better;
    if Counts(s) && s.publish {
      var x, kept := PerformanceOf(s), Take(Sort(all, Better), HISTORY_MAX);
      BetterIsWeakOrder();
      SortMeets(all, Better);
      assert Sorted(kept, Better);
      SortSorted(kept, Better);
      SortAppend(kept, x, Better);
      SortAppend(all, x, Better);
      InsertTake(Sort(all, Better), x, Better, HISTORY_MAX);
    } else {
      assert all + [] == all;
    }
  }

  // ── the totals of a DJ ──────────────────────────────────────────────────────

  /** Sum of `f` over the DJ's own settled real tracks. */
  function Total(fs: seq<Settlement>, dj: string, f: Settlement -> int): int {
    if fs == [] then 0
    else
      var s := fs[|fs| - 1];
      Total(fs[..|fs| - 1], dj, f) + if Counts(s) && !s.auto && s.dj == dj then f(s) else 0
  }

  function One(s: Settlement): int { 1 }
  function Bangers(s: Settlement): int { Clamp(s.bangers) }
  function Skip(s: Settlement): int { if s.outcome.CommunitySkipped? then 1 else 0 }
  function Points(s: Settlement): int { if s.outcome.CommunitySkipped? then -1 else Clamp(s.bangers) }

  lemma {:induction false} CreditIsTotal(fs: seq<Settlement>, dj: string)
    ensures EntryFor(CreditAll(map[], fs), dj)
         == Entry(dj, Total(fs, dj, Points), Total(fs, dj, One), Total(fs, dj, Bangers), Total(fs, dj, Skip))
  {
    if fs != [] {
      CreditIsTotal(fs[..|fs| - 1], dj);
      CreditIsTotal(fs[..|fs| - 1], fs[|fs| - 1].dj);
    }
  }

  /** Each DJ's tracks, bangers, skips and score are the sums over their settled real tracks. */
  lemma LedgerConservation(ss: seq<Settlement>, dj: string)
    requires Orderly(ss)
    ensures var fs := Firsts(ss);
            EntryFor(RecordAll(EMPTY, ss).totals, dj) ==
            Entry(dj, Total(fs, dj, Points), Total(fs, dj, One), Total(fs, dj, Bangers), Total(fs, dj, Skip))
  {
    LastKeyIsEnough(ss);
    CreditIsTotal(Firsts(ss), dj);
  }

  /** What every reachable entry satisfies, orderly run or not. */
  predicate Sound(e: Entry) {
    && 0 <= e.skipped <= e.tracks && 0 <= e.bangers <= BANGER_MAX * e.tracks
    && e.score + e.skipped <= e.bangers && -e.skipped <= e.score
    && -e.tracks <= e.score <= BANGER_MAX * e.tracks
  }

  ghost predicate SoundBoard(b: Board) {
    forall dj | dj in b.totals :: b.totals[dj].pubkey == dj && dj != "" && b.totals[dj].tracks > 0
        && Sound(b.totals[dj])
  }

  lemma RecordKeepsSound(b: Board, s: Settlement)
    requires SoundBoard(b)
    ensures SoundBoard(Record(b, s))
  {
    hide Key, Listed;
    var e := EntryFor(b.totals, s.dj);
    assert Sound(e);
    assert Sound(Earn(e, s));
  }

  lemma {:induction false} ReachableIsSound(ss: seq<Settlement>)
    ensures SoundBoard(RecordAll(EMPTY, ss))
  {
    if ss != [] {
      ReachableIsSound(ss[..|ss| - 1]);
      RecordKeepsSound(RecordAll(EMPTY, ss[..|ss| - 1]), ss[|ss| - 1]);
    }
  }

  // ── relay/djleaderboard.go: the top tracks ──────────────────────────────────

  datatype TrackRow = TrackRow(rank: nat, track: Performance)

  predicate Shown(p: Performance) {
    p.bangers > 0 && p.club != "" && p.dj != "" && p.startedAt > 0
  }

  /** The first `n` shown performances, numbered after the rows already there. */
  function Rows(ps: seq<Performance>, n: nat, done: nat): seq<TrackRow>
    decreases |ps|
  {
    if ps == [] || n == 0 then []
    else if Shown(ps[0])
    then [TrackRow(done + 1, ps[0].(bangers := Clamp(ps[0].bangers)))] + Rows(ps[1..], n - 1, done + 1)
    else Rows(ps[1..], n, done)
  }

  /** Shown performances sort to the front, so a cut behind the n-th row is invisible. */
  lemma {:induction false} RowsOfPrefix(ps: seq<Performance>, k: nat, n: nat, done: nat)
    requires k <= |ps| && n <= k
    requires forall i, j | 0 <= i < j < |ps| && Shown(ps[j]) :: Shown(ps[i])
    ensures Rows(ps[..k], n, done) == Rows(ps, n, done)
    decreases |ps|
  {
    if ps != [] && n > 0 {
      if Shown(ps[0]) {
        RowsOfPrefix(ps[1..], k - 1, n - 1, done + 1);
        assert ps[..k][1..] == ps[1..][..k - 1];
      } else {
        NoRows(ps, n, done);
        NoRows(ps[..k], n, done);
      }
    }
  }

  lemma {:induction false} NoRows(ps: seq<Performance>, n: nat, done: nat)
    requires forall i | 0 <= i < |ps| :: !Shown(ps[i])
    ensures Rows(ps, n, done) == []
  {
    if ps != [] { NoRows(ps[1..], n, done); }
  }

  ghost predicate DistinctStarts(ps: seq<Performance>) {
    forall i, j | 0 <= i < j < |ps| :: ps[i].club != ps[j].club || ps[i].startedAt != ps[j].startedAt
  }

  lemma {:induction false} ListedAreCounted(fs: seq<Settlement>)
    ensures forall p | p in ListAll(fs) :: 0 <= p.bangers <= BANGER_MAX && p.club != "" && p.dj != "" && p.startedAt > 0
  {
    if fs != [] { ListedAreCounted(fs[..|fs| - 1]); }
  }

  lemma DistinctAreOrdered(ps: seq<Performance>, a: Performance, b: Performance)
    requires DistinctStarts(ps) && a in ps && b in ps && a != b
    ensures Better(a, b) || Better(b, a)
  {
    LessTotal(a.club, b.club);
  }

  /**
    The bounded history shows everything: whatever order the unstable library sort picks for the
    kept performances and for all performances ever recorded, the top rows are the same.
   */
  lemma {:induction false} BoundedHistoryIsInvisible(fs: seq<Settlement>, n: nat, kept: seq<Performance>,
          all: seq<Performance>)
    requires n <= 100 && DistinctStarts(ListAll(fs))
    requires SortedPermutation(kept, Take(Sort(ListAll(fs), Better), HISTORY_MAX), Better)
    requires SortedPermutation(all, ListAll(fs), Better)
    ensures Rows(kept, n, 0) == Rows(all, n, 0)
  {
    hide Better, Rows;
    var ps := ListAll(fs);
    var t := Sort(ps, Better);
    BetterIsWeakOrder();
    SortMeets(ps, Better);
    SameMembers(all, ps);
    SameMembers(t, ps);
    forall a, b | a in ps && b in ps && a != b ensures Better(a, b) || Better(b, a) {
      DistinctAreOrdered(ps, a, b);
    }
    SortedUnique(all, t, Better);
    var h := Take(t, HISTORY_MAX);
    SameMembers(kept, h);
    assert forall x | x in h :: x in t;
    SortedUnique(kept, h, Better);
    ListedAreCounted(fs);
    forall i, j | 0 <= i < j < |t| && Shown(t[j]) ensures Shown(t[i]) {
      assert t[i] in ps && !Better(t[j], t[i]);
      BangersLead(t[i], t[j]);
    }
    if |t| > HISTORY_MAX { RowsOfPrefix(t, HISTORY_MAX, n, 0); }
  }

  lemma BangersLead(a: Performance, b: Performance)
    requires !Better(b, a)
    ensures a.bangers >= b.bangers
  {
  }

  lemma SameMembers(a: seq<Performance>, b: seq<Performance>)
    requires multiset(a) == multiset(b)
    ensures forall x :: x in a <==> x in b
  {
    forall x ensures x in a <==> x in b {
      assert x in a <==> x in multiset(a);
      assert x in b <==> x in multiset(b);
    }
  }
}
