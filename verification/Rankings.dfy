/**
  What the served rankings say, in the numbers of the ledger: who is ranked, ahead of how many others,
  and which performances the top tracks show in which order.
 */
module Rankings {
  import opened Wrappers
  import opened Sorting
  import opened Leaderboard
  import C = Credibility

  // ── the DJ ranking ──────────────────────────────────────────────────────────

  /** A DJ with at least one track and at least one banger. */
  predicate Voted(e: C.Entry) {
    e.pubkey != "" && e.tracks > 0 && e.bangers > 0
  }

  /** More bangers; with as many, more tracks; with as many again, the smaller pubkey. */
  predicate Beats(a: C.Entry, z: C.Entry) {
    || a.bangers > z.bangers
    || (a.bangers == z.bangers && a.tracks > z.tracks)
    || (a.bangers == z.bangers && a.tracks == z.tracks && Less(a.pubkey, z.pubkey))
  }

  ghost function Betters(totals: map<string, C.Entry>, e: C.Entry): set<string> {
    set d | d in totals && Voted(totals[d]) && Beats(totals[d], e)
  }

  ghost function Names(rows: seq<Row>): set<string> {
    set i | 0 <= i < |rows| :: rows[i].pubkey
  }

  lemma {:induction false} NamesCount(rows: seq<Row>)
    requires forall i, j | 0 <= i < j < |rows| :: rows[i].pubkey != rows[j].pubkey
    ensures |Names(rows)| == |rows|
  {
    if rows == [] {
      assert Names(rows) == {};
    } else {
      var front, last := rows[..|rows| - 1], rows[|rows| - 1].pubkey;
      NamesCount(front);
      forall d ensures d in Names(rows) <==> d in Names(front) || d == last {
        if d in Names(front) {
          var i :| 0 <= i < |front| && front[i].pubkey == d;
          assert rows[i].pubkey == d;
        }
        if d in Names(rows) && d != last {
          var i :| 0 <= i < |rows| && rows[i].pubkey == d;
          assert front[i].pubkey == d;
        }
      }
      assert Names(rows) == Names(front) + {last};
      assert last !in Names(front);
    }
  }

  lemma AheadIsBeats(totals: map<string, C.Entry>, a: string, z: string, i: int, j: int)
    requires Filed(totals) && a in totals && z in totals
    ensures Ahead(RowOf(totals[a], i), RowOf(totals[z], j)) <==> Beats(totals[a], totals[z])
  {
    hide ScoreTenths;
  }

  lemma BeatsOneWay(a: C.Entry, z: C.Entry)
    ensures !(Beats(a, z) && Beats(z, a)) && !Beats(a, a)
  {
    LessTotal(a.pubkey, z.pubkey);
    LessTotal(a.pubkey, a.pubkey);
  }

  /** The rows before position i are exactly those of the DJs that beat the one there. */
  lemma RowsBefore(rows: seq<Row>, totals: map<string, C.Entry>, i: nat)
    requires Filed(totals) && IsRanking(rows, totals) && i < |rows|
    ensures rows[i].pubkey in totals && Names(rows[..i]) == Betters(totals, totals[rows[i].pubkey])
  {
    hide ScoreTenths, Beats, Ahead, RowOf;
    var me := rows[i].pubkey;
    forall d ensures d in Names(rows[..i]) <==> d in Betters(totals, totals[me]) {
      if d in totals && Voted(totals[d]) {
        var k :| 0 <= k < |rows| && rows[k].pubkey == d;
        AheadIsBeats(totals, d, me, k + 1, i + 1);
        AheadIsBeats(totals, me, d, i + 1, k + 1);
        BeatsOneWay(totals[d], totals[me]);
        if k < i { assert rows[..i][k].pubkey == d; }
      }
      if d in Names(rows[..i]) {
        var k :| 0 <= k < i && rows[..i][k].pubkey == d;
        assert rows[k].pubkey == d;
        AheadIsBeats(totals, d, me, k + 1, i + 1);
      }
    }
  }

  /**
    A DJ is ranked exactly if he has a track and a banger, each once; his row carries the ledger's
    numbers, and its rank is one more than the number of DJs that beat him.
   */
  lemma {:induction false} RankIsExact(rows: seq<Row>, totals: map<string, C.Entry>)
    requires Filed(totals) && IsRanking(rows, totals)
    ensures forall dj :: dj in Names(rows) <==> dj in totals && Voted(totals[dj])
    ensures forall i | 0 <= i < |rows| ::
              && rows[i].pubkey in totals
              && var e := totals[rows[i].pubkey];
                 && rows[i] == Row(e.pubkey, 1 + |Betters(totals, e)|, ScoreTenths(e.tracks, e.score),
                                   e.tracks, e.bangers, e.skipped, e.score)
  {
    hide ScoreTenths, Beats, Betters, Ahead;
    forall dj ensures dj in Names(rows) <==> dj in totals && Voted(totals[dj]) {
    }
    forall i | 0 <= i < |rows|
      ensures rows[i].pubkey in totals && i == |Betters(totals, totals[rows[i].pubkey])|
    {
      RowsBefore(rows, totals, i);
      forall a, b | 0 <= a < b < i ensures rows[..i][a].pubkey != rows[..i][b].pubkey {
        SamePubkeySameRow(rows, totals, a, b);
      }
      NamesCount(rows[..i]);
    }
  }

  // ── the top tracks ──────────────────────────────────────────────────────────

  /** More bangers, then newer, then the smaller club, DJ and video. */
  predicate Outranks(a: C.Performance, z: C.Performance) {
    || a.bangers > z.bangers
    || (a.bangers == z.bangers && a.startedAt > z.startedAt)
    || (a.bangers == z.bangers && a.startedAt == z.startedAt && Less(a.club, z.club))
    || (a.bangers == z.bangers && a.startedAt == z.startedAt && a.club == z.club && Less(a.dj, z.dj))
    || (a.bangers == z.bangers && a.startedAt == z.startedAt && a.club == z.club && a.dj == z.dj
        && Less(a.videoID, z.videoID))
  }

  /** A performance of a named DJ in a named club with at least one banger. */
  predicate Worthy(p: C.Performance) {
    0 < p.bangers <= 5 && p.club != "" && p.dj != "" && p.startedAt > 0
  }

  lemma BetterIsOutranks(a: C.Performance, z: C.Performance)
    ensures C.Better(a, z) <==> Outranks(a, z)
  {
    hide Less;
    LessTotal(a.club, z.club);
    LessTotal(a.dj, z.dj);
  }

  ghost predicate Numbered(top: seq<C.TrackRow>, q: seq<C.Performance>, done: nat) {
    forall i | 0 <= i < |top| :: top[i].rank == done + i + 1 && top[i].track in q && Worthy(top[i].track)
  }

  ghost predicate Falling(top: seq<C.TrackRow>) {
    forall i, j | 0 <= i < j < |top| :: !Outranks(top[j].track, top[i].track)
  }

  ghost predicate OnTop(top: seq<C.TrackRow>, p: C.Performance) {
    exists i :: 0 <= i < |top| && top[i].track == p
  }

  /** The rows are those of the best of q: nothing worthy is missing that they should have made room for. */
  ghost predicate TopOf(top: seq<C.TrackRow>, q: seq<C.Performance>, n: nat) {
    && |top| <= n
    && forall p | p in q && Worthy(p) && !OnTop(top, p) ::
      |top| == n && forall i | 0 <= i < |top| :: !Outranks(p, top[i].track)
  }

  lemma {:induction false} RowsOfSorted(q: seq<C.Performance>, n: nat, done: nat)
    requires Sorted(q, C.Better) && forall p | p in q :: 0 <= p.bangers <= 5
    ensures var top := C.Rows(q, n, done); Numbered(top, q, done) && Falling(top) && TopOf(top, q, n)
    decreases |q|
  {
    hide Outranks, C.Better, TopOf, Falling, Numbered;
    if q == [] || n == 0 {
      NoneOnTop(q, n, done);
    } else {
      var x, rest := q[0], q[1..];
      assert q == [x] + rest && forall p :: p in q <==> p == x || p in rest;
      LaterNotBetter(q);
      if C.Shown(x) {
        RowsOfSorted(rest, n - 1, done + 1);
        RowInFront(x, rest, n - 1, done, C.Rows(rest, n - 1, done + 1));
      } else {
        RowsOfSorted(rest, n, done);
        RowLeftOut(x, rest, n, done, C.Rows(rest, n, done));
      }
    }
  }

  lemma NoneOnTop(q: seq<C.Performance>, n: nat, done: nat)
    requires q == [] || n == 0
    ensures Numbered([], q, done) && Falling([]) && TopOf([], q, n)
  {
  }

  lemma LaterNotBetter(q: seq<C.Performance>)
    requires Sorted(q, C.Better) && q != []
    ensures Sorted(q[1..], C.Better)
    ensures forall p | p in q[1..] :: !Outranks(p, q[0])
  {
    hide Outranks, C.Better;
    forall p | p in q[1..] ensures !Outranks(p, q[0]) {
      var k :| 0 <= k < |q[1..]| && q[1..][k] == p;
      assert q[k + 1] == p;
      BetterIsOutranks(p, q[0]);
    }
  }

  lemma RowInFront(x: C.Performance, rest: seq<C.Performance>, n: nat, done: nat, more: seq<C.TrackRow>)
    requires Worthy(x) && forall p | p in rest :: !Outranks(p, x)
    requires Numbered(more, rest, done + 1) && Falling(more) && TopOf(more, rest, n)
    ensures var top := [C.TrackRow(done + 1, x)] + more;
            Numbered(top, [x] + rest, done) && Falling(top) && TopOf(top, [x] + rest, n + 1)
  {
    hide Outranks, Worthy;
    var top := [C.TrackRow(done + 1, x)] + more;
    forall p | OnTop(more, p) ensures OnTop(top, p) {
      var i :| 0 <= i < |more| && more[i].track == p;
      assert top[i + 1].track == p;
    }
    assert top[0].track == x;
  }

  lemma RowLeftOut(x: C.Performance, rest: seq<C.Performance>, n: nat, done: nat, top: seq<C.TrackRow>)
    requires !Worthy(x) && Numbered(top, rest, done) && TopOf(top, rest, n)
    ensures Numbered(top, [x] + rest, done) && TopOf(top, [x] + rest, n)
  {
    hide Outranks, Worthy;
  }

  lemma SortKeepsMembers(ps: seq<C.Performance>)
    ensures Sorted(Sort(ps, C.Better), C.Better)
    ensures forall p :: p in Sort(ps, C.Better) <==> p in ps
  {
    hide C.Better;
    C.BetterIsWeakOrder();
    SortMeets(ps, C.Better);
    C.SameMembers(Sort(ps, C.Better), ps);
  }

  /**
    The top tracks: at most n performances with a banger, numbered from 1, none outranked by a later
    one, and whatever worthy performance is missing outranks none of them and found no place.
   */
  lemma {:induction false} TopIsExact(ps: seq<C.Performance>, n: nat)
    requires forall p | p in ps :: 0 <= p.bangers <= 5
    ensures var top := C.Rows(Sort(ps, C.Better), n, 0);
            && Numbered(top, ps, 0) && Falling(top) && TopOf(top, ps, n)
  {
    hide C.Better, Outranks, C.Rows, Sort;
    SortKeepsMembers(ps);
    RowsOfSorted(Sort(ps, C.Better), n, 0);
  }
}
