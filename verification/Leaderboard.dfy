/**
  The DJ ranking the relay serves and the client's check of it.
 */
module Leaderboard {
  import opened Wrappers
  import opened Sorting
  import opened Decimal
  import C = Credibility

  const SCORE_PRIOR := 10
  const POINT_MAX := 6

  // ── score arithmetic ────────────────────────────────────────────────────────

  function EarnedPoints(tracks: int, vibe: int): (r: int)
    ensures tracks > 0 ==> 0 <= r <= POINT_MAX * tracks
  {
    if tracks <= 0 then 0
    else
      var earned, maximum := tracks + vibe, tracks * POINT_MAX;
      if earned <= 0 then 0 else if earned > maximum then maximum else earned
  }

  function ScoreTenths(tracks: int, vibe: int): int {
    if tracks <= 0 then 0
    else
      var denominator := (tracks + SCORE_PRIOR) * POINT_MAX;
      (EarnedPoints(tracks, vibe) * 1000 + denominator / 2) / denominator
  }

  lemma DivBounds(a: int, d: int)
    requires d > 0
    ensures d * (a / d) <= a < d * (a / d) + d
  {
  }

  lemma MulMonotone(d: int, x: int, y: int)
    requires d >= 0 && x <= y
    ensures d * x <= d * y
  {
    assert d * y - d * x == d * (y - x);
  }

  /** The score is the nearest integer to 1000 * earned / (6 * (tracks + 10)) and lies in 0..1000. */
  lemma {:induction false} ScoreIsNearest(tracks: int, vibe: int)
    requires tracks > 0
    ensures var points := tracks + vibe;
            var earned := if points <= 0 then 0 else if points > 6 * tracks then 6 * tracks else points;
            var d := 6 * (tracks + 10);
            var gap := 1000 * earned - d * ScoreTenths(tracks, vibe);
            -d <= 2 * gap < d
    ensures 0 <= ScoreTenths(tracks, vibe) <= 1000
  {
    hide EarnedPoints;
    EarnedIs(tracks, vibe);
    RoundHalf(1000 * EarnedPoints(tracks, vibe), 3 * (tracks + SCORE_PRIOR));
  }

  lemma RoundHalf(x: int, h: int)
    requires h > 0 && x >= 0
    ensures var q := (x + (2 * h) / 2) / (2 * h);
            && -(2 * h) <= 2 * (x - (2 * h) * q) < 2 * h
            && q >= 0 && (x <= 1000 * (2 * h) ==> q <= 1000)
  {
    assert (2 * h) / 2 == h;
    var q := (x + h) / (2 * h);
    DivBounds(x + h, 2 * h);
    if q < 0 { MulMonotone(2 * h, q, -1); }
    if q > 1000 { MulMonotone(2 * h, 1001, q); }
  }

  /** Rounding preserves the order of fractions. */
  lemma {:induction false} RoundedOrder(a: int, d: int, b: int, f: int)
    requires d > 0 && f > 0 && a >= 0 && b >= 0 && a * f <= b * d
    ensures (2 * a + d) / (2 * d) <= (2 * b + f) / (2 * f)
  {
    var p, q := (2 * a + d) / (2 * d), (2 * b + f) / (2 * f);
    DivBounds(2 * a + d, 2 * d);
    DivBounds(2 * b + f, 2 * f);
    assert 2 * d * p <= 2 * a + d;
    assert 2 * b + f < 2 * f * q + 2 * f;
    if p > q {
      MulMonotone(2 * d, q + 1, p);
      assert 2 * d * (q + 1) <= 2 * a + d;
      CrossMultiply(a, d, b, f, q);
    }
  }

  lemma CrossMultiply(a: int, d: int, b: int, f: int, q: int)
    requires d > 0 && f > 0 && a * f <= b * d
    requires 2 * d * (q + 1) <= 2 * a + d
    ensures 2 * f * (q + 1) <= 2 * b + f
  {
    var x, y := 2 * a + d - 2 * d * (q + 1), 2 * b + f - 2 * f * (q + 1);
    assert y * d == x * f + 2 * (b * d - a * f) by {
      assert y * d == 2 * (b * d) + f * d - 2 * (f * d) * (q + 1);
      assert x * f == 2 * (a * f) + f * d - 2 * (f * d) * (q + 1);
    }
    MulMonotone(f, 0, x);
    if y < 0 {
      MulMonotone(d, y, -1);
    }
  }

  lemma {:induction false} HalfRounding(a: int, h: int)
    requires h > 0
    ensures (a + (2 * h) / 2) / (2 * h) == (2 * a + 2 * h) / (2 * (2 * h))
  {
    assert (2 * h) / 2 == h;
    DivBounds(a + h, 2 * h);
    DivBounds(2 * a + 2 * h, 4 * h);
    var p, q := (a + h) / (2 * h), (2 * a + 2 * h) / (4 * h);
    if p < q { MulMonotone(2 * h, p + 1, q); }
    if q < p { MulMonotone(4 * h, q + 1, p); }
  }

  /** 1000 * earned / (6 * (tracks + 10)), rounded. */
  function Rounded(earned: int, tracks: int): int
    requires tracks > 0
  {
    var d := 6 * (tracks + 10);
    (2 * (1000 * earned) + d) / (2 * d)
  }

  lemma {:induction false} ScoreAsFraction(tracks: int, vibe: int)
    requires tracks > 0
    ensures ScoreTenths(tracks, vibe) == Rounded(EarnedPoints(tracks, vibe), tracks)
  {
    hide EarnedPoints;
    HalfRounding(1000 * EarnedPoints(tracks, vibe), 3 * (tracks + SCORE_PRIOR));
  }

  lemma EarnedIs(tracks: int, vibe: int)
    requires tracks > 0
    ensures var e := tracks + vibe;
            EarnedPoints(tracks, vibe) == if e <= 0 then 0 else if e > 6 * tracks then 6 * tracks else e
  {
  }

  lemma Distribute(t: int, v: int, u: int, w: int)
    requires v * u <= w * t
    ensures (t + v) * u <= (u + w) * t
  {
    assert (t + v) * u == t * u + v * u;
    assert (u + w) * t == t * u + w * t;
  }

  /** Capping both factors keeps the order of the products. */
  lemma CappedOrder(x: int, t: int, y: int, u: int, e: int, g: int)
    requires t > 0 && u > 0 && x * u <= y * t
    requires e == (if x <= 0 then 0 else if x > 6 * t then 6 * t else x)
    requires g == (if y <= 0 then 0 else if y > 6 * u then 6 * u else y)
    ensures e * u <= g * t
  {
    if e <= 0 {
      MulMonotone(t, 0, g);
    } else if y > 6 * u {
      MulMonotone(u, e, 6 * t);
      assert u * (6 * t) == (6 * u) * t;
    } else {
      MulMonotone(u, e, x);
      PositiveFactor(x, u, y, t);
    }
  }

  lemma PositiveFactor(x: int, u: int, y: int, t: int)
    requires x > 0 && u > 0 && t > 0 && x * u <= y * t
    ensures y > 0
  {
    MulMonotone(u, 1, x);
    if y <= 0 { MulMonotone(t, y, 0); }
  }

  lemma SmallerFactor(e: int, u: int, g: int, t: int)
    requires 0 < t <= u && g >= 0 && e * u <= g * t
    ensures e <= g
  {
    MulMonotone(g, t, u);
    if e > g { MulMonotone(u, g + 1, e); }
  }

  /** A DJ with more tracks and no lower vibe score per track earns at least proportionally. */
  lemma {:induction false} EarnedInProportion(t: int, v: int, u: int, w: int)
    requires 0 < t <= u && v * u <= w * t
    ensures EarnedPoints(t, v) * u <= EarnedPoints(u, w) * t
    ensures EarnedPoints(t, v) <= EarnedPoints(u, w)
  {
    hide EarnedPoints;
    var e, g := EarnedPoints(t, v), EarnedPoints(u, w);
    EarnedIs(t, v);
    EarnedIs(u, w);
    Distribute(t, v, u, w);
    CappedOrder(t + v, t, u + w, u, e, g);
    SmallerFactor(e, u, g, t);
  }

  lemma Expanded(e: int, u: int)
    ensures (1000 * e) * (6 * (u + 10)) == 6000 * (e * u) + 60000 * e
  {
    assert e * (6 * (u + 10)) == 6 * (e * u) + 60 * e;
  }

  lemma ScaledOrder(e: int, t: int, g: int, u: int)
    requires e * u <= g * t && e <= g
    ensures (1000 * e) * (6 * (u + 10)) <= (1000 * g) * (6 * (t + 10))
  {
    Expanded(e, u);
    Expanded(g, t);
  }

  lemma ScoresInOrder(e: int, t: int, g: int, u: int)
    requires t > 0 && u > 0 && e >= 0 && g >= 0 && e * u <= g * t && e <= g
    ensures Rounded(e, t) <= Rounded(g, u)
  {
    ScaledOrder(e, t, g, u);
    RoundedOrder(1000 * e, 6 * (t + 10), 1000 * g, 6 * (u + 10));
  }

  /**
    The score never falls when tracks are added at the same or a better vibe score per track; with
    equal tracks this says it never falls when the vibe score rises.
   */
  lemma {:induction false} ScoreMonotone(t: int, v: int, u: int, w: int)
    requires 0 < t <= u && v * u <= w * t
    ensures ScoreTenths(t, v) <= ScoreTenths(u, w)
  {
    hide EarnedPoints, ScoreTenths, Rounded;
    EarnedInProportion(t, v, u, w);
    ScoreAsFraction(t, v);
    ScoreAsFraction(u, w);
    ScoresInOrder(EarnedPoints(t, v), t, EarnedPoints(u, w), u);
  }

  /** Unvoted tracks alone never reach more than 16.7, and enough of them do reach it. */
  lemma {:induction false} UnvotedCeiling(tracks: int, vibe: int)
    ensures vibe <= 0 ==> ScoreTenths(tracks, vibe) <= 167
    ensures tracks >= 9990 ==> ScoreTenths(tracks, 0) == 167
  {
    if tracks > 0 {
      var d := (tracks + SCORE_PRIOR) * POINT_MAX;
      ScoreIsNearest(tracks, vibe);
      if vibe <= 0 && ScoreTenths(tracks, vibe) >= 168 {
        MulMonotone(d, 168, ScoreTenths(tracks, vibe));
      }
      if tracks >= 9990 {
        ScoreIsNearest(tracks, 0);
        var q := ScoreTenths(tracks, 0);
        if q <= 166 { MulMonotone(d, q, 166); }
        if q >= 168 { MulMonotone(d, 168, q); }
      }
    }
  }

  // ── the ranking ─────────────────────────────────────────────────────────────

  datatype Row = Row(pubkey: string, rank: int, score: int, tracks: int, bangers: int, skipped: int, vibeScore: int)

  predicate Eligible(e: C.Entry) {
    e.pubkey != "" && e.tracks > 0 && e.bangers > 0
  }

  function RowOf(e: C.Entry, rank: int): Row {
    Row(e.pubkey, rank, ScoreTenths(e.tracks, e.score), e.tracks, e.bangers, e.skipped, e.score)
  }

  /** More accepted votes, then the larger sample, then the smaller pubkey. */
  predicate Ahead(a: Row, z: Row) {
    if a.bangers != z.bangers then a.bangers > z.bangers
    else if a.tracks != z.tracks then a.tracks > z.tracks
    else Less(a.pubkey, z.pubkey)
  }

  lemma AheadIsWeakOrder()
    ensures WeakOrder(Ahead)
  {
    forall a, b, c
      ensures !Ahead(a, a)
      ensures Ahead(a, b) && Ahead(b, c) ==> Ahead(a, c)
      ensures Ahead(a, c) ==> Ahead(a, b) || Ahead(b, c)
    {
      C.LessLaws(a.pubkey, b.pubkey, c.pubkey);
      LessTotal(a.pubkey, b.pubkey);
      LessTotal(b.pubkey, c.pubkey);
    }
  }

  /** Entries are filed under their own pubkey. */
  ghost predicate Filed(totals: map<string, C.Entry>) {
    forall dj | dj in totals :: totals[dj].pubkey == dj
  }

  /** Every ranked DJ appears once, with rank i + 1 at position i, everyone ahead of all behind. */
  ghost predicate IsRanking(rows: seq<Row>, totals: map<string, C.Entry>) {
    && (forall i | 0 <= i < |rows| ::
          && rows[i].pubkey in totals && Eligible(totals[rows[i].pubkey])
          && rows[i] == RowOf(totals[rows[i].pubkey], i + 1))
    && (forall dj | dj in totals && Eligible(totals[dj]) :: exists i :: 0 <= i < |rows| && rows[i].pubkey == dj)
    && (forall i, j | 0 <= i < j < |rows| :: Ahead(rows[i], rows[j]))
  }

  /** The rows of the eligible DJs in any order, unranked. */
  ghost predicate Lists(all: seq<Row>, totals: map<string, C.Entry>) {
    && (forall r :: r in all <==> r.pubkey in totals && Eligible(totals[r.pubkey]) && r == RowOf(totals[r.pubkey], 0))
    && (forall i, j | 0 <= i < j < |all| :: all[i].pubkey != all[j].pubkey)
  }

  method ListEligible(totals: map<string, C.Entry>) returns (all: seq<Row>)
    requires Filed(totals)
    ensures Lists(all, totals)
  {
    hide ScoreTenths;
    all := [];
    var rest := totals.Keys;
    while rest != {}
      invariant rest <= totals.Keys
      invariant forall r :: r in all <==>
                  r.pubkey in totals.Keys - rest && Eligible(totals[r.pubkey]) && r == RowOf(totals[r.pubkey], 0)
      invariant forall i, j | 0 <= i < j < |all| :: all[i].pubkey != all[j].pubkey
      decreases |rest|
    {
      var dj :| dj in rest;
      rest := rest - {dj};
      var entry := totals[dj];
      if entry.pubkey == "" || entry.tracks <= 0 || entry.bangers <= 0 {
        continue;
      }
      assert forall i | 0 <= i < |all| :: all[i] in all;
      all := all + [RowOf(entry, 0)];
    }
  }

  lemma SortedRowsRank(all: seq<Row>, totals: map<string, C.Entry>, sorted: seq<Row>, rows: seq<Row>)
    requires Filed(totals) && Lists(all, totals) && SortedPermutation(sorted, all, Ahead)
    requires |rows| == |sorted| && forall i | 0 <= i < |rows| :: rows[i] == sorted[i].(rank := i + 1)
    ensures IsRanking(rows, totals)
  {
    hide ScoreTenths, Less;
    PermutationKeepsDistinct(all, sorted, (r: Row) => r.pubkey);
    forall r ensures r in sorted <==> r in all {
      assert r in sorted <==> r in multiset(sorted);
      assert r in all <==> r in multiset(all);
    }
    forall i | 0 <= i < |rows|
      ensures rows[i].pubkey in totals && Eligible(totals[rows[i].pubkey])
      ensures rows[i] == RowOf(totals[rows[i].pubkey], i + 1)
    {
      assert sorted[i] in all;
    }
    forall i, j | 0 <= i < j < |rows| ensures Ahead(rows[i], rows[j]) {
      assert sorted[i].pubkey != sorted[j].pubkey;
      LessTotal(sorted[i].pubkey, sorted[j].pubkey);
      assert !Ahead(sorted[j], sorted[i]);
    }
    forall dj | dj in totals && Eligible(totals[dj]) ensures exists i :: 0 <= i < |rows| && rows[i].pubkey == dj {
      EligibleListed(all, totals, dj);
      var r :| r in all && r.pubkey == dj;
      assert r in sorted;
      var i :| 0 <= i < |sorted| && sorted[i] == r;
      assert rows[i].pubkey == dj;
    }
  }

  lemma EligibleListed(all: seq<Row>, totals: map<string, C.Entry>, dj: string)
    requires Filed(totals) && Lists(all, totals) && dj in totals && Eligible(totals[dj])
    ensures exists r :: r in all && r.pubkey == dj
  {
    assert RowOf(totals[dj], 0) in all;
  }

  method Ranked(totals: map<string, C.Entry>) returns (rows: seq<Row>)
    requires Filed(totals)
    ensures IsRanking(rows, totals)
  {
    var all := ListEligible(totals);
    AheadIsWeakOrder();
    SortMeets(all, Ahead);
    var sorted := Sort(all, Ahead);
    rows := sorted;
    for i := 0 to |rows|
      invariant |rows| == |sorted|
      invariant forall k | 0 <= k < i :: rows[k] == sorted[k].(rank := k + 1)
      invariant forall k | i <= k < |rows| :: rows[k] == sorted[k]
    {
      rows := rows[i := rows[i].(rank := i + 1)];
    }
    SortedRowsRank(all, totals, sorted, rows);
  }

  /** The order of the map does not matter: a board has one ranking. */
  lemma RankingIsUnique(a: seq<Row>, b: seq<Row>, totals: map<string, C.Entry>)
    requires IsRanking(a, totals) && IsRanking(b, totals)
    ensures a == b
  {
    hide IsRanking;
    RankedPrefix(a, b, totals, |a|);
    RankedPrefix(b, a, totals, |b|);
  }

  /** Position by position two rankings name the same DJ. */
  lemma {:induction false} RankedPrefix(a: seq<Row>, b: seq<Row>, totals: map<string, C.Entry>, k: nat)
    requires IsRanking(a, totals) && IsRanking(b, totals) && k <= |a|
    ensures k <= |b| && a[..k] == b[..k]
  {
    hide IsRanking;
    if k > 0 {
      RankedPrefix(a, b, totals, k - 1);
      var i := NewPosition(a, b, totals, k - 1);
      var j := NewPosition(b, a, totals, k - 1);
      CrossOrder(a, b, totals, k - 1, j, i);
      assert a[..k] == a[..k - 1] + [a[k - 1]] && b[..k] == b[..k - 1] + [b[k - 1]];
    }
  }

  /** After a common prefix of length k, the k-th DJ of `a` comes at k or later in `b`. */
  lemma NewPosition(a: seq<Row>, b: seq<Row>, totals: map<string, C.Entry>, k: nat) returns (i: nat)
    requires IsRanking(a, totals) && IsRanking(b, totals)
    requires k < |a| && k <= |b| && a[..k] == b[..k]
    ensures k <= i < |b| && b[i].pubkey == a[k].pubkey
  {
    hide Eligible;
    i := Position(b, totals, a[k].pubkey);
    if i < k {
      assert a[i] == a[..k][i] == b[..k][i] == b[i];
      SamePubkeySameRow(a, totals, i, k);
    }
  }

  lemma {:induction false} Position(rows: seq<Row>, totals: map<string, C.Entry>, dj: string) returns (i: nat)
    requires IsRanking(rows, totals) && dj in totals && Eligible(totals[dj])
    ensures i < |rows| && rows[i].pubkey == dj
  {
    i :| 0 <= i < |rows| && rows[i].pubkey == dj;
  }

  lemma SamePubkeySameRow(rows: seq<Row>, totals: map<string, C.Entry>, i: nat, j: nat)
    requires IsRanking(rows, totals) && i < j < |rows|
    ensures rows[i].pubkey != rows[j].pubkey
  {
    LessTotal(rows[i].pubkey, rows[j].pubkey);
  }

  /** If the k-th of `a` sits at i >= k in `b`, and the k-th of `b` at j >= k in `a`, both are k. */
  lemma {:induction false} CrossOrder(a: seq<Row>, b: seq<Row>, totals: map<string, C.Entry>, k: nat, j: nat, i: nat)
    requires IsRanking(a, totals) && IsRanking(b, totals)
    requires k <= i < |b| && k <= j < |a|
    requires b[i].pubkey == a[k].pubkey && a[j].pubkey == b[k].pubkey
    ensures a[k] == b[k]
  {
    if i > k {
      assert Ahead(b[k], b[i]);
      if j > k {
        assert Ahead(a[k], a[j]);
        LessTotal(a[k].pubkey, a[j].pubkey);
      }
    }
  }

  method DjTop(totals: map<string, C.Entry>, n: int) returns (entries: seq<Row>, total: nat)
    requires Filed(totals)
    ensures exists rows :: IsRanking(rows, totals) && total == |rows|
                           && entries == Take(rows, if n < 0 then 0 else n)
  {
    var all := Ranked(totals);
    var limit := if n < 0 then 0 else n;
    entries, total := all, |all|;
    if |entries| > limit {
      entries := entries[..limit];
    }
  }

  method DjRankOf(totals: map<string, C.Entry>, pubkey: string) returns (entry: Option<Row>, total: nat)
    requires Filed(totals)
    ensures exists rows :: IsRanking(rows, totals) && total == |rows|
                           && (entry.Some? ==> entry.value in rows && entry.value.pubkey == pubkey)
    ensures entry.Some? <==> pubkey in totals && Eligible(totals[pubkey])
  {
    var all := Ranked(totals);
    for i := 0 to |all|
      invariant forall k | 0 <= k < i :: all[k].pubkey != pubkey
    {
      if all[i].pubkey == pubkey {
        return Some(all[i]), |all|;
      }
    }
    return None, |all|;
  }

  // ── frontend/src/lib/nostr/leaderboard.ts ───────────────────────────────────

  const MAX_SAFE := 9007199254740991

  datatype Json =
    | JNull | JBool(b: bool) | JNum(n: int) | JFraction(text: string) | JStr(s: string)
    | JArr(items: seq<Json>) | JObj(fields: map<string, Json>)

  predicate SafeInteger(v: Json, min: int, max: int) {
    v.JNum? && -MAX_SAFE <= v.n <= MAX_SAFE && min <= v.n <= max
  }

  predicate HexKey(s: string) {
    |s| == 64 && forall c | c in s :: '0' <= c <= '9' || 'a' <= c <= 'f'
  }

  function Field(o: map<string, Json>, k: string): Json {
    if k in o then o[k] else JNull
  }

  function ParseEntry(v: Json): Option<Row> {
    if !v.JObj? then None
    else
      var o := v.fields;
      var pubkey, rank, score, tracks := Field(o, "pubkey"), Field(o, "rank"), Field(o, "score"), Field(o, "tracks");
      var bangers, skipped, vibe := Field(o, "bangers"), Field(o, "skipped"), Field(o, "vibeScore");
      if !pubkey.JStr? || !HexKey(pubkey.s) then None
      else if !SafeInteger(rank, 1, MAX_SAFE) || !SafeInteger(score, 0, 1000) || !SafeInteger(tracks, 1, MAX_SAFE)
          then None
      else if !SafeInteger(bangers, 0, tracks.n * 5) || !SafeInteger(skipped, 0, tracks.n) then None
      else if !SafeInteger(vibe, -tracks.n, tracks.n * 5) then None
      else Some(Row(pubkey.s, rank.n, score.n, tracks.n, bangers.n, skipped.n, vibe.n))
  }

  /** The accepted rows: parseable, with a pubkey and a rank not seen before. */
  function ParseRows(items: seq<Json>, pubkeys: set<string>, ranks: set<int>): seq<Row> {
    if items == [] then []
    else
      match ParseEntry(items[0])
      case None => ParseRows(items[1..], pubkeys, ranks)
      case Some(e) =>
        if e.pubkey in pubkeys || e.rank in ranks then ParseRows(items[1..], pubkeys, ranks)
        else [e] + ParseRows(items[1..], pubkeys + {e.pubkey}, ranks + {e.rank})
  }

  const TOP_TRACKS := 10
  const CLUB_LENGTH := 256
  const VIDEO_LENGTH := 64
  const TITLE_LENGTH := 500

  function ParseTrackEntry(v: Json): Option<C.TrackRow> {
    if !v.JObj? then None
    else
      var o := v.fields;
      var rank, club, video, title := Field(o, "rank"), Field(o, "club"), Field(o, "videoId"), Field(o, "title");
      var dj, bangers, skipped, startedAt :=
          Field(o, "dj"), Field(o, "bangers"), Field(o, "skipped"), Field(o, "startedAt");
      if !SafeInteger(rank, 1, TOP_TRACKS) || !club.JStr? || club.s == "" || |club.s| > CLUB_LENGTH then None
      else if !video.JStr? || |video.s| > VIDEO_LENGTH || !title.JStr? || |title.s| > TITLE_LENGTH then None
      else if !dj.JStr? || !HexKey(dj.s) then None
      else if !SafeInteger(bangers, 1, C.BANGER_MAX) || !skipped.JBool? || !SafeInteger(startedAt, 1, MAX_SAFE)
          then None
      else if "autoDJ" in o && !o["autoDJ"].JBool? then None
      else Some(C.TrackRow(rank.n, C.Performance(club.s, video.s, title.s, dj.s, bangers.n, skipped.b,
                                                 "autoDJ" in o && o["autoDJ"].b, startedAt.n)))
  }

  function PerformanceKey(t: C.Performance): string {
    t.club + ":" + Itoa(t.startedAt) + ":" + t.dj
  }

  /** The accepted top tracks: parseable, with a rank and a performance not seen before. */
  function ParseTracks(items: seq<Json>, ranks: set<int>, performances: set<string>): seq<C.TrackRow> {
    if items == [] then []
    else
      match ParseTrackEntry(items[0])
      case None => ParseTracks(items[1..], ranks, performances)
      case Some(e) =>
        var key := PerformanceKey(e.track);
        if e.rank in ranks || key in performances then ParseTracks(items[1..], ranks, performances)
        else [e] + ParseTracks(items[1..], ranks + {e.rank}, performances + {key})
  }

  method ParseTopTracks(value: Json) returns (topTracks: seq<C.TrackRow>)
    ensures topTracks == if value.JArr? then ParseTracks(value.items, {}, {}) else []
  {
    hide ParseTrackEntry, PerformanceKey;
    var seenTrackRanks, seenPerformances := {}, {};
    topTracks := [];
    if value.JArr? {
      var items := value.items;
      for i := 0 to |items|
        invariant ParseTracks(items, {}, {}) == topTracks + ParseTracks(items[i..], seenTrackRanks, seenPerformances)
      {
        assert items[i..][0] == items[i] && items[i..][1..] == items[i + 1..];
        var entry := ParseTrackEntry(items[i]);
        var performanceKey := if entry.Some? then PerformanceKey(entry.value.track) else "";
        if entry.None? || entry.value.rank in seenTrackRanks || performanceKey in seenPerformances {
          continue;
        }
        seenTrackRanks := seenTrackRanks + {entry.value.rank};
        seenPerformances := seenPerformances + {performanceKey};
        topTracks := topTracks + [entry.value];
      }
    }
  }

  method ParseLeaderboard(value: Json) returns (total: int, top: seq<Row>, topTracks: seq<C.TrackRow>)
    ensures if value.JObj? && Field(value.fields, "top").JArr?
        && SafeInteger(Field(value.fields, "total"), 0, MAX_SAFE) then
              && top == ParseRows(Field(value.fields, "top").items, {}, {})
              && topTracks == (if Field(value.fields, "topTracks").JArr?
                  then ParseTracks(Field(value.fields, "topTracks").items, {}, {}) else [])
              && total == (if top == [] then 0 else if Field(value.fields, "total").n > |top|
                  then Field(value.fields, "total").n else |top|)
            else total == 0 && top == [] && topTracks == []
  {
    hide ParseEntry, ParseTracks;
    if !value.JObj? || !Field(value.fields, "top").JArr? || !SafeInteger(Field(value.fields, "total"), 0, MAX_SAFE) {
      return 0, [], [];
    }
    var items := Field(value.fields, "top").items;
    var seenPubkeys, seenRanks := {}, {};
    top := [];
    for i := 0 to |items|
      invariant ParseRows(items, {}, {}) == top + ParseRows(items[i..], seenPubkeys, seenRanks)
    {
      assert items[i..][0] == items[i] && items[i..][1..] == items[i + 1..];
      var entry := ParseEntry(items[i]);
      if entry.None? || entry.value.pubkey in seenPubkeys || entry.value.rank in seenRanks {
        continue;
      }
      seenPubkeys := seenPubkeys + {entry.value.pubkey};
      seenRanks := seenRanks + {entry.value.rank};
      top := top + [entry.value];
    }
    topTracks := ParseTopTracks(Field(value.fields, "topTracks"));
    if |top| == 0 {
      return 0, top, topTracks;
    }
    total := Field(value.fields, "total").n;
    if total < |top| {
      total := |top|;
    }
  }

  function Encode(r: Row): Json {
    JObj(map["pubkey" := JStr(r.pubkey), "rank" := JNum(r.rank), "score" := JNum(r.score), "tracks" := JNum(r.tracks),
             "bangers" := JNum(r.bangers), "skipped" := JNum(r.skipped), "vibeScore" := JNum(r.vibeScore)])
  }

  /** What the client needs of a row beyond what every reachable row has. */
  predicate Acceptable(r: Row) {
    HexKey(r.pubkey) && r.tracks <= MAX_SAFE && r.bangers <= MAX_SAFE
  }

  /** A row of a sound entry is read back unchanged, or dropped for its pubkey or size alone. */
  lemma {:induction false} SoundRowAccepted(e: C.Entry, rank: int)
    requires C.Sound(e) && Eligible(e) && 1 <= rank <= MAX_SAFE
    ensures ParseEntry(Encode(RowOf(e, rank))) == if Acceptable(RowOf(e, rank)) then Some(RowOf(e, rank)) else None
  {
    hide ScoreTenths;
    ScoreIsNearest(e.tracks, e.score);
  }

  function EncodeAll(rows: seq<Row>): seq<Json> {
    if rows == [] then [] else [Encode(rows[0])] + EncodeAll(rows[1..])
  }

  function AcceptableRows(rows: seq<Row>): seq<Row> {
    if rows == [] then []
    else if Acceptable(rows[0]) then [rows[0]] + AcceptableRows(rows[1..])
    else AcceptableRows(rows[1..])
  }

  lemma {:induction false} RowsAccepted(rows: seq<Row>, pubkeys: set<string>, ranks: set<int>)
    requires forall r | r in rows :: ParseEntry(Encode(r)) == if Acceptable(r) then Some(r) else None
    requires forall i, j | 0 <= i < j < |rows| :: rows[i].pubkey != rows[j].pubkey && rows[i].rank != rows[j].rank
    requires forall r | r in rows :: r.pubkey !in pubkeys && r.rank !in ranks
    ensures ParseRows(EncodeAll(rows), pubkeys, ranks) == AcceptableRows(rows)
  {
    hide ParseEntry, Encode, Acceptable;
    if rows != [] {
      var r := rows[0];
      assert r in rows && forall x | x in rows[1..] :: x in rows;
      if Acceptable(r) {
        RowsAccepted(rows[1..], pubkeys + {r.pubkey}, ranks + {r.rank});
      } else {
        RowsAccepted(rows[1..], pubkeys, ranks);
      }
    }
  }

  /**
    The client keeps every row the relay serves from a reachable board, unless its pubkey is
    malformed or a count exceeds what a JavaScript number holds exactly.
   */
  lemma {:induction false} ServedRowsAreAccepted(ss: seq<C.Settlement>, rows: seq<Row>, n: nat)
    requires IsRanking(rows, C.RecordAll(C.EMPTY, ss).totals) && n <= MAX_SAFE
    ensures ParseRows(EncodeAll(Take(rows, n)), {}, {}) == AcceptableRows(Take(rows, n))
  {
    hide ScoreTenths, Ahead, Acceptable, C.Sound, Encode, ParseEntry, Eligible, C.RecordAll;
    C.ReachableIsSound(ss);
    var totals, top := C.RecordAll(C.EMPTY, ss).totals, Take(rows, n);
    forall r | r in top ensures ParseEntry(Encode(r)) == if Acceptable(r) then Some(r) else None {
      var i :| 0 <= i < |top| && top[i] == r;
      assert r == rows[i];
      SoundRowAccepted(totals[r.pubkey], i + 1);
    }
    forall i, j | 0 <= i < j < |top| ensures top[i].pubkey != top[j].pubkey && top[i].rank != top[j].rank {
      assert top[i] == rows[i] && top[j] == rows[j];
      SamePubkeySameRow(rows, totals, i, j);
    }
    RowsAccepted(top, {}, {});
  }

  function EncodeTrack(r: C.TrackRow): Json {
    JObj(map["rank" := JNum(r.rank), "club" := JStr(r.track.club), "videoId" := JStr(r.track.videoID),
        "title" := JStr(r.track.title),
             "dj" := JStr(r.track.dj), "bangers" := JNum(r.track.bangers), "skipped" := JBool(r.track.skipped),
             "autoDJ" := JBool(r.track.autoDJ), "startedAt" := JNum(r.track.startedAt)])
  }

  function EncodeTracks(rows: seq<C.TrackRow>): seq<Json> {
    if rows == [] then [] else [EncodeTrack(rows[0])] + EncodeTracks(rows[1..])
  }

  /** What the client needs of a performance beyond what every served row has. */
  predicate AcceptableTrack(t: C.Performance) {
    HexKey(t.dj) && |t.club| <= CLUB_LENGTH && |t.videoID| <= VIDEO_LENGTH && |t.title| <= TITLE_LENGTH
        && t.startedAt <= MAX_SAFE
  }

  function AcceptableTracks(rows: seq<C.TrackRow>): seq<C.TrackRow> {
    if rows == [] then []
    else if AcceptableTrack(rows[0].track) then [rows[0]] + AcceptableTracks(rows[1..])
    else AcceptableTracks(rows[1..])
  }

  lemma {:induction false} TrackRowRead(r: C.TrackRow)
    requires 1 <= r.rank <= TOP_TRACKS && C.Shown(r.track) && r.track.bangers <= C.BANGER_MAX
    ensures ParseTrackEntry(EncodeTrack(r)) == if AcceptableTrack(r.track) then Some(r) else None
  {
  }

  /** Club ids may hold colons; start time and DJ key still end the key unambiguously. */
  lemma KeyTellsStart(a: C.Performance, b: C.Performance)
    requires HexKey(a.dj) && HexKey(b.dj) && PerformanceKey(a) == PerformanceKey(b)
    ensures a.club == b.club && a.startedAt == b.startedAt && a.dj == b.dj
  {
    var x, y := a.club + ":" + Itoa(a.startedAt), b.club + ":" + Itoa(b.startedAt);
    SplitAtLength(x + ":", a.dj, y + ":", b.dj);
    assert (x + ":")[..|x|] == x && (y + ":")[..|y|] == y;
    LastColon(a.club, Itoa(a.startedAt), b.club, Itoa(b.startedAt));
    ItoaInjective(a.startedAt, b.startedAt);
  }

  lemma SplitAtLength(a: string, b: string, c: string, d: string)
    requires a + b == c + d && |b| == |d|
    ensures a == c && b == d
  {
    assert (a + b)[..|a|] == a && (c + d)[..|c|] == c;
    assert (a + b)[|a|..] == b && (c + d)[|c|..] == d;
  }

  lemma NoLaterColon(a: string, b: string, c: string, d: string)
    requires a + ":" + b == c + ":" + d && ':' !in b
    ensures |c| <= |a|
  {
    var s := a + ":" + b;
    assert (c + ":" + d)[|c|] == ':';
    forall k | |a| < k < |s| ensures s[k] != ':' {
      assert s[k] == b[k - |a| - 1];
    }
  }

  lemma LastColon(a: string, b: string, c: string, d: string)
    requires a + ":" + b == c + ":" + d && ':' !in b && ':' !in d
    ensures a == c && b == d
  {
    NoLaterColon(a, b, c, d);
    NoLaterColon(c, d, a, b);
    SplitAtLength(a + ":", b, c + ":", d);
    assert (a + ":")[..|a|] == a && (c + ":")[..|c|] == c;
  }

  ghost predicate Unseen(rows: seq<C.TrackRow>, ranks: set<int>, performances: set<string>) {
    forall r | r in rows && AcceptableTrack(r.track) :: r.rank !in ranks && PerformanceKey(r.track) !in performances
  }

  /** Ranks and performances differ from row to row. */
  ghost predicate RowsDiffer(rows: seq<C.TrackRow>) {
    forall i, j | 0 <= i < j < |rows| ::
      rows[i].rank != rows[j].rank
      && (rows[i].track.club != rows[j].track.club || rows[i].track.startedAt != rows[j].track.startedAt)
  }

  lemma SeenOnce(rows: seq<C.TrackRow>, ranks: set<int>, performances: set<string>)
    requires rows != [] && RowsDiffer(rows) && Unseen(rows, ranks, performances) && AcceptableTrack(rows[0].track)
    ensures Unseen(rows[1..], ranks + {rows[0].rank}, performances + {PerformanceKey(rows[0].track)})
  {
    hide PerformanceKey, HexKey;
    forall r | r in rows[1..] && AcceptableTrack(r.track)
      ensures r.rank != rows[0].rank && PerformanceKey(r.track) != PerformanceKey(rows[0].track)
    {
      var i :| 0 < i < |rows| && rows[i] == r;
      if PerformanceKey(r.track) == PerformanceKey(rows[0].track) {
        KeyTellsStart(r.track, rows[0].track);
      }
    }
  }

  lemma {:induction false} TracksAccepted(rows: seq<C.TrackRow>, ranks: set<int>, performances: set<string>)
    requires forall r | r in rows :: ParseTrackEntry(EncodeTrack(r)) == if AcceptableTrack(r.track) then Some(r)
         else None
    requires RowsDiffer(rows) && Unseen(rows, ranks, performances)
    ensures ParseTracks(EncodeTracks(rows), ranks, performances) == AcceptableTracks(rows)
  {
    hide ParseTrackEntry, EncodeTrack, AcceptableTrack, PerformanceKey;
    if rows != [] {
      assert rows[0] in rows && forall x | x in rows[1..] :: x in rows;
      if AcceptableTrack(rows[0].track) {
        SeenOnce(rows, ranks, performances);
        TracksAccepted(rows[1..], ranks + {rows[0].rank}, performances + {PerformanceKey(rows[0].track)});
      } else {
        TracksAccepted(rows[1..], ranks, performances);
      }
    }
  }

  lemma ClampedIsShown(p: C.Performance)
    requires C.Shown(p)
    ensures C.Shown(p.(bangers := C.Clamp(p.bangers)))
  {
  }

  lemma NextRow(ps: seq<C.Performance>, n: nat, done: nat)
    requires ps != [] && n > 0
    ensures C.Rows(ps, n, done)
         == if C.Shown(ps[0])
            then [C.TrackRow(done + 1, ps[0].(bangers := C.Clamp(ps[0].bangers)))] + C.Rows(ps[1..], n - 1, done + 1)
            else C.Rows(ps[1..], n, done)
  {
  }

  /** Served rows are numbered upwards, shown and capped. */
  lemma {:induction false} ServedRanks(ps: seq<C.Performance>, n: nat, done: nat)
    ensures forall r | r in C.Rows(ps, n, done) ::
              done < r.rank <= done + n && C.Shown(r.track) && r.track.bangers <= C.BANGER_MAX
    decreases |ps|
  {
    hide C.Shown, C.Clamp, C.Rows;
    if ps == [] || n == 0 {
      NothingServed(ps, n, done);
    } else {
      NextRow(ps, n, done);
      if C.Shown(ps[0]) {
        ClampedIsShown(ps[0]);
        ServedRanks(ps[1..], n - 1, done + 1);
      } else {
        ServedRanks(ps[1..], n, done);
      }
    }
  }

  lemma NothingServed(ps: seq<C.Performance>, n: nat, done: nat)
    requires ps == [] || n == 0
    ensures C.Rows(ps, n, done) == []
  {
  }

  /** Every served row comes from a performance. */
  lemma {:induction false} ServedOrigin(ps: seq<C.Performance>, n: nat, done: nat, r: C.TrackRow) returns (i: nat)
    requires r in C.Rows(ps, n, done)
    ensures i < |ps| && ps[i].club == r.track.club && ps[i].startedAt == r.track.startedAt
    decreases |ps|
  {
    hide C.Shown, C.Clamp, C.Rows;
    if ps == [] || n == 0 { NothingServed(ps, n, done); }
    NextRow(ps, n, done);
    if C.Shown(ps[0]) {
      if r in C.Rows(ps[1..], n - 1, done + 1) {
        i := ServedOrigin(ps[1..], n - 1, done + 1, r);
        i := i + 1;
      } else {
        i := 0;
      }
    } else {
      i := ServedOrigin(ps[1..], n, done, r);
      i := i + 1;
    }
  }

  lemma {:induction false} ServedDiffer(ps: seq<C.Performance>, n: nat, done: nat)
    requires C.DistinctStarts(ps)
    ensures RowsDiffer(C.Rows(ps, n, done))
    decreases |ps|
  {
    hide C.Shown, C.Clamp, C.Rows;
    if ps == [] || n == 0 {
      NothingServed(ps, n, done);
    } else {
      NextRow(ps, n, done);
      if C.Shown(ps[0]) {
        var rest := C.Rows(ps[1..], n - 1, done + 1);
        ServedDiffer(ps[1..], n - 1, done + 1);
        ServedRanks(ps[1..], n - 1, done + 1);
        forall r | r in rest
          ensures r.rank != done + 1 && (r.track.club != ps[0].club || r.track.startedAt != ps[0].startedAt)
        {
          var i := ServedOrigin(ps[1..], n - 1, done + 1, r);
          assert ps[1..][i] == ps[i + 1];
        }
        FirstDiffers(C.Rows(ps, n, done)[0], rest);
      } else {
        ServedDiffer(ps[1..], n, done);
      }
    }
  }

  lemma FirstDiffers(a: C.TrackRow, rest: seq<C.TrackRow>)
    requires RowsDiffer(rest)
    requires forall r | r in rest ::
               r.rank != a.rank && (r.track.club != a.track.club || r.track.startedAt != a.track.startedAt)
    ensures RowsDiffer([a] + rest)
  {
  }

  /**
    The client keeps every top track the relay serves from performances with distinct starts, unless
    its DJ key is malformed or a field exceeds the client's limits.
   */
  lemma {:induction false} ServedTracksAreAccepted(ps: seq<C.Performance>, n: nat)
    requires C.DistinctStarts(ps) && n <= TOP_TRACKS
    ensures ParseTracks(EncodeTracks(C.Rows(ps, n, 0)), {}, {}) == AcceptableTracks(C.Rows(ps, n, 0))
  {
    hide C.Rows, ParseTrackEntry, EncodeTrack, AcceptableTrack;
    ServedRanks(ps, n, 0);
    ServedDiffer(ps, n, 0);
    var rows := C.Rows(ps, n, 0);
    forall r | r in rows ensures ParseTrackEntry(EncodeTrack(r)) == if AcceptableTrack(r.track) then Some(r) else None {
      TrackRowRead(r);
    }
    TracksAccepted(rows, {}, {});
  }
}
