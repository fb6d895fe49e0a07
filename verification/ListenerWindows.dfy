/**
  The rolling day of the listener analytics against the naive history: who is remembered as having
  listened and since when, which buckets a club's chart shows although nobody listened in them, and
  which counts a broadcast sends.
 */
module ListenerWindows {
  import opened Wrappers
  import opened Listeners

  // ── runs with room for a day's sessions ─────────────────────────────────────

  /** The time of the last beat or tick, when old entries were last dropped. */
  function LastRoll(steps: seq<Step>): int {
    if steps == [] then BUCKET_MS
    else match steps[|steps| - 1]
      case Hear(b) => b.at
      case Tick(now) => now
      case _ => LastRoll(steps[..|steps| - 1])
  }

  /** The sessions that beat in the club in the day before `now`. */
  ghost function Day(bs: seq<Beat>, c: string, now: int): set<string> {
    set b | b in bs && b.club == c && b.at >= now - 86_400_000 :: b.pk
  }

  ghost predicate RoomInDay(bs: seq<Beat>, b: Beat) {
    b.pk in Day(bs, b.club, b.at) || |Day(bs, b.club, b.at)| < 5000
  }

  /** A legal run that remembers every session for a day. */
  ghost predicate Daily(steps: seq<Step>) {
    Legal(steps) && AllInDay(steps)
  }

  ghost predicate AllInDay(steps: seq<Step>) {
    steps != [] ==>
      var t, st := steps[..|steps| - 1], steps[|steps| - 1];
      AllInDay(t) && (st.Hear? ==> RoomInDay(Heard(t), st.beat))
  }

  lemma {:induction false} FewIsDaily(steps: seq<Step>)
    requires Steady(steps) && Few(steps)
    ensures Daily(steps)
  {
    hide Few, Legal;
    FewIsLegal(steps);
    FewInDay(steps);
  }

  lemma {:induction false} FewInDay(steps: seq<Step>)
    requires Few(steps)
    ensures AllInDay(steps)
  {
    hide Few, Day;
    if steps != [] {
      var t, st := steps[..|steps| - 1], steps[|steps| - 1];
      PrefixIsFew(steps);
      FewInDay(t);
      if st.Hear? { FewInThisDay(t, st.beat, steps); }
    }
  }

  lemma FewInThisDay(t: seq<Step>, b: Beat, steps: seq<Step>)
    requires steps != [] && t == steps[..|steps| - 1] && steps[|steps| - 1] == Hear(b) && Few(steps)
    ensures RoomInDay(Heard(t), b)
  {
    assert b in Heard(steps) && forall x | x in Heard(t) :: x in Heard(steps);
    OneFewer(Day(Heard(t), b.club, b.at), b.pk, SessionsHeard(steps, b.club));
  }

  // ── spans ───────────────────────────────────────────────────────────────────

  /** When a session listened last, and since when without a day's pause. */
  function SpanOf(bs: seq<Beat>, c: string, k: string): Option<Span> {
    if bs == [] then None
    else
      var was, b := SpanOf(bs[..|bs| - 1], c, k), bs[|bs| - 1];
      if b.club != c || b.pk != k then was
      else if was.Some? && b.at - was.value.last <= 86_400_000 then Some(Span(was.value.first, b.at))
      else Some(Span(b.at, b.at))
  }

  predicate InSeen(seen: map<string, map<string, Span>>, c: string, k: string) {
    c in seen && k in seen[c]
  }

  predicate SpanAt(seen: map<string, map<string, Span>>, bs: seq<Beat>, since: int, c: string, k: string) {
    && (InSeen(seen, c, k) <==> SpanOf(bs, c, k).Some? && SpanOf(bs, c, k).value.last >= since)
    && (InSeen(seen, c, k) ==> seen[c][k] == SpanOf(bs, c, k).value)
  }

  /** Remembered are exactly the sessions that listened since, with their spans. */
  ghost predicate Spans(seen: map<string, map<string, Span>>, bs: seq<Beat>, since: int) {
    && (forall c, k :: SpanAt(seen, bs, since, c, k))
    && (forall c | c in seen :: seen[c] != map[])
  }

  lemma TrimmedSpans(seen: map<string, map<string, Span>>, bs: seq<Beat>, since: int, cutoff: int)
    requires Spans(seen, bs, since) && since <= cutoff
    ensures Spans(TrimSeen(seen, cutoff), bs, cutoff)
  {
    hide SpanOf;
    var r := TrimSeen(seen, cutoff);
    forall c, k ensures SpanAt(r, bs, cutoff, c, k) {
      assert SpanAt(seen, bs, since, c, k);
      if InSeen(seen, c, k) && seen[c][k].last >= cutoff {
        assert k in RecentSpans(seen[c], cutoff);
      }
    }
  }

  lemma SpanSnoc(bs: seq<Beat>, b: Beat, c: string, k: string)
    ensures SpanOf(bs + [b], c, k)
         == var was := SpanOf(bs, c, k);
            if b.club != c || b.pk != k then was
            else if was.Some? && b.at - was.value.last <= WINDOW_MS then Some(Span(was.value.first, b.at))
            else Some(Span(b.at, b.at))
  {
    assert (bs + [b])[..|bs|] == bs;
  }

  lemma SpannedSpans(seen: map<string, map<string, Span>>, bs: seq<Beat>, b: Beat)
    requires Spans(seen, bs, b.at - WINDOW_MS)
    requires b.pk in Get(seen, b.club, map[]) || |Get(seen, b.club, map[])| < MAX_SESSIONS
    ensures Spans(Spanned(seen, b.club, b.pk, b.at), bs + [b], b.at - WINDOW_MS)
  {
    hide SpanOf;
    var r := Spanned(seen, b.club, b.pk, b.at);
    var all, since := bs + [b], b.at - WINDOW_MS;
    assert b.pk in r[b.club];
    forall c, k ensures SpanAt(r, all, since, c, k) {
      assert SpanAt(seen, bs, since, c, k);
      SpanSnoc(bs, b, c, k);
    }
  }

  /** The beats of a steady run are in order. */
  lemma {:induction false} BeatsInOrder(steps: seq<Step>)
    requires Legal(steps)
    ensures forall b | b in Heard(steps) :: b.at <= Clock(steps)
  {
    hide RoomLive, RoomInBucket;
    if steps != [] { BeatsInOrder(steps[..|steps| - 1]); }
  }

  /** A session's span ends with its latest beat. */
  lemma {:induction false} SpanIsLatest(steps: seq<Step>, c: string, k: string)
    requires Legal(steps)
    ensures forall b | b in Heard(steps) && b.club == c && b.pk == k ::
              SpanOf(Heard(steps), c, k).Some? && b.at <= SpanOf(Heard(steps), c, k).value.last
    ensures SpanOf(Heard(steps), c, k).Some? ==>
              exists b :: b in Heard(steps) && b.club == c && b.pk == k && b.at == SpanOf(Heard(steps), c, k).value.last
  {
    hide RoomLive, RoomInBucket;
    if steps != [] {
      var t, st := steps[..|steps| - 1], steps[|steps| - 1];
      SpanIsLatest(t, c, k);
      BeatsInOrder(t);
      if st.Hear? {
        SpanSnoc(Heard(t), st.beat, c, k);
        assert st.beat in Heard(steps) && forall x | x in Heard(t) :: x in Heard(steps);
      }
    }
  }

  /** The sessions remembered for the day are those that beat in it. */
  lemma SeenIsDay(seen: map<string, map<string, Span>>, steps: seq<Step>, c: string, now: int)
    requires Legal(steps) && Spans(seen, Heard(steps), now - WINDOW_MS)
    ensures Get(seen, c, map[]).Keys == Day(Heard(steps), c, now)
  {
    hide SpanOf, Legal;
    var bs := Heard(steps);
    forall k ensures k in Get(seen, c, map[]) <==> k in Day(bs, c, now) {
      assert SpanAt(seen, bs, now - WINDOW_MS, c, k);
      assert InSeen(seen, c, k) <==> k in Get(seen, c, map[]);
      SpanIsLatest(steps, c, k);
    }
  }

  lemma RollKeepsSpans(s: Stats, bs: seq<Beat>, since: int, now: int)
    requires Spans(s.seen, bs, since) && since <= now - WINDOW_MS && (s.curStart == 0 ==> bs == [] && s.seen == map[])
    ensures Spans(Roll(s, now).seen, bs, now - WINDOW_MS)
  {
    hide PruneActive, TrimSeries, TrimSeen;
    if s.curStart == 0 {
      NoSpans(now - WINDOW_MS);
    } else {
      ClosingKeepsSeen(s, now);
      TrimmedSpans(s.seen, bs, since, now - WINDOW_MS);
    }
  }

  lemma NoSpans(since: int)
    ensures Spans(map[], [], since)
  {
  }

  lemma {:induction false} ClosingKeepsSeen(s: Stats, now: int)
    ensures CloseAll(s, now).seen == s.seen
    decreases now - s.curStart
  {
    if now >= s.curStart + BUCKET_MS { ClosingKeepsSeen(Close(s), now); }
  }

  lemma RollIsPast(steps: seq<Step>)
    requires Legal(steps)
    ensures LastRoll(steps) <= Clock(steps)
  {
    hide RoomLive, RoomInBucket;
    if steps != [] { RollIsPast(steps[..|steps| - 1]); }
  }

  /**
    The relay remembers exactly the sessions that listened in the day before its last beat or tick,
    each with its latest beat and the one it has listened since.
   */
  lemma {:induction false} SpansAreExact(steps: seq<Step>)
    requires Daily(steps)
    ensures Spans(Run(EMPTY, steps).seen, Heard(steps), LastRoll(steps) - 86_400_000)
  {
    hide Roll, Spans, RoomLive, RoomInBucket, RoomInDay, Inv, LiveOk, PruneActive, Removed, Recorded;
    if steps == [] {
      NoSpans(BUCKET_MS - WINDOW_MS);
    } else {
      var t, st := steps[..|steps| - 1], steps[|steps| - 1];
      var s := Run(EMPTY, t);
      SpansAreExact(t);
      RunKeepsBoth(t);
      RollIsPast(t);
      NothingSeenYet(s, Heard(t), Clock(t));
      match st {
        case Hear(b) =>
          RollKeepsSpans(s, Heard(t), LastRoll(t) - WINDOW_MS, b.at);
          BeatKeepsSpans(s, t, b);
        case Tick(now) => RollKeepsSpans(s, Heard(t), LastRoll(t) - WINDOW_MS, now);
        case _ => {}
      }
    }
  }

  lemma BeatKeepsSpans(s: Stats, t: seq<Step>, b: Beat)
    requires Legal(t) && Inv(s, Heard(t), Clock(t)) && LiveOk(s.active, t, Clock(t)) && BUCKET_MS <= Clock(t) <= b.at
    requires RoomLive(t, b) && RoomInBucket(Heard(t), b) && RoomInDay(Heard(t), b)
    requires Spans(Roll(s, b.at).seen, Heard(t), b.at - WINDOW_MS)
    ensures Spans(Recorded(s, b.club, b.pk, b.at).seen, Heard(t) + [b], b.at - WINDOW_MS)
  {
    hide Roll, Spans, RoomLive, RoomInBucket, Inv, LiveOk, Day, Spanned, Capped, CappedSet, Legal;
    CapsAreRoom(s, t, Clock(t), b);
    SeenIsDay(Roll(s, b.at).seen, t, b.club, b.at);
    KeyCount(Get(Roll(s, b.at).seen, b.club, map[]));
    SpannedSpans(Roll(s, b.at).seen, Heard(t), b);
  }

  lemma NothingSeenYet(s: Stats, bs: seq<Beat>, clock: int)
    requires Inv(s, bs, clock)
    ensures s.curStart == 0 ==> bs == [] && s.seen == map[]
  {
  }

  // ── the chart ───────────────────────────────────────────────────────────────

  predicate Charted(s: Stats, c: string, t: int) {
    c in s.series && exists x :: x in s.series[c] && x.t == t
  }

  /** A finished bucket that ended within a day after a beat. */
  predicate Follows(s: Stats, b: Beat, t: int) {
    && t % 300_000 == 0 && b.at - b.at % 300_000 <= t && t + 300_000 <= s.curStart
    && b.at >= t + 300_000 - 86_400_000
  }

  /** The chart of a club goes on, with zeros if need be, for a day after every beat. */
  ghost predicate Filled(s: Stats, bs: seq<Beat>, since: int) {
    forall b, t | b in bs && Follows(s, b, t) && t >= since :: Charted(s, b.club, t)
  }

  /** Everybody who beat since then is remembered. */
  ghost predicate Knows(s: Stats, bs: seq<Beat>, since: int) {
    forall b | b in bs && b.at >= since :: b.club in s.seen
  }

  lemma CloseFills(s: Stats, bs: seq<Beat>, since: int)
    requires Filled(s, bs, since) && Knows(s, bs, s.curStart + BUCKET_MS - WINDOW_MS) && s.curStart % BUCKET_MS == 0
    ensures Filled(Close(s), bs, since) && Close(s).seen == s.seen
  {
    var r := Close(s);
    forall b, t | b in bs && Follows(r, b, t) && t >= since ensures Charted(r, b.club, t) {
      if t == s.curStart {
        assert b.club in Universe(s);
        var x := Sample(s.curStart, |Get(s.curSets, b.club, {})|);
        assert r.series[b.club][|r.series[b.club]| - 1] == x;
      } else {
        Aligned(t, s.curStart);
        assert Follows(s, b, t);
        var x :| x in s.series[b.club] && x.t == t;
        assert x in r.series[b.club];
      }
    }
  }

  lemma Aligned(t: int, u: int)
    requires t % BUCKET_MS == 0 && u % BUCKET_MS == 0 && t < u + BUCKET_MS && t != u
    ensures t + BUCKET_MS <= u
  {
  }

  lemma {:induction false} CloseAllFills(s: Stats, bs: seq<Beat>, since: int, now: int)
    requires Filled(s, bs, since) && s.curStart % BUCKET_MS == 0
    requires Knows(s, bs, s.curStart + BUCKET_MS - WINDOW_MS)
    ensures Filled(CloseAll(s, now), bs, since)
    decreases now - s.curStart
  {
    hide Close, Filled;
    if now >= s.curStart + BUCKET_MS {
      CloseFills(s, bs, since);
      KnowsLess(s, Close(s), bs);
      CloseAllFills(Close(s), bs, since, now);
    }
  }

  lemma KnowsLess(s: Stats, r: Stats, bs: seq<Beat>)
    requires Knows(s, bs, s.curStart + BUCKET_MS - WINDOW_MS) && r == Close(s)
    ensures r.curStart == s.curStart + BUCKET_MS && r.curStart % BUCKET_MS == s.curStart % BUCKET_MS
    ensures Knows(r, bs, r.curStart + BUCKET_MS - WINDOW_MS)
  {
  }

  /** Samples older than a day are gone. */
  ghost predicate Within(s: Stats, since: int) {
    forall c, x | c in s.series && x in s.series[c] :: x.t >= since
  }

  lemma TrimFills(s: Stats, bs: seq<Beat>, since: int, now: int)
    requires Filled(s, bs, since) && since <= now - WINDOW_MS
    ensures Filled(Trim(s, now), bs, now - WINDOW_MS) && Within(Trim(s, now), now - WINDOW_MS)
  {
    hide PruneActive, TrimSeen;
    var r := Trim(s, now);
    forall b, t | b in bs && Follows(r, b, t) && t >= now - WINDOW_MS ensures Charted(r, b.club, t) {
      assert Follows(s, b, t);
      var x :| x in s.series[b.club] && x.t == t;
      assert x in Recent(s.series[b.club], now - WINDOW_MS);
    }
  }

  lemma SpansKnow(s: Stats, steps: seq<Step>, since: int)
    requires Legal(steps) && Spans(s.seen, Heard(steps), since)
    ensures Knows(s, Heard(steps), since)
  {
    hide SpanOf, Legal;
    forall b | b in Heard(steps) && b.at >= since ensures b.club in s.seen {
      assert SpanAt(s.seen, Heard(steps), since, b.club, b.pk);
      SpanIsLatest(steps, b.club, b.pk);
    }
  }

  lemma RollFills(s: Stats, t: seq<Step>, since: int, now: int)
    requires Legal(t) && Inv(s, Heard(t), Clock(t)) && Filled(s, Heard(t), since) && since <= now - WINDOW_MS
    requires Spans(s.seen, Heard(t), since) && (s.curStart != 0 ==> since + WINDOW_MS < s.curStart + BUCKET_MS)
    ensures Filled(Roll(s, now), Heard(t), now - WINDOW_MS) && Within(Roll(s, now), now - WINDOW_MS)
  {
    hide Legal, Spans, Trim, Filled, Within, CloseAll, Exact, Ordered, OpenExact, Complete;
    var bs := Heard(t);
    if s.curStart == 0 {
      NothingFills(now - now % BUCKET_MS, now - WINDOW_MS);
    } else {
      SpansKnow(s, t, since);
      KnowsFrom(s, bs, since, s.curStart + BUCKET_MS - WINDOW_MS);
      CloseAllFills(s, bs, since, now);
      TrimFills(CloseAll(s, now), bs, since, now);
    }
  }

  lemma KnowsFrom(s: Stats, bs: seq<Beat>, since: int, later: int)
    requires Knows(s, bs, since) && since <= later
    ensures Knows(s, bs, later)
  {
  }

  lemma NothingFills(start: int, since: int)
    ensures Filled(EMPTY.(curStart := start), [], since) && Within(EMPTY.(curStart := start), since)
  {
  }

  /** A new beat is too late to be followed by a finished bucket. */
  lemma BeatFills(s: Stats, q: Stats, bs: seq<Beat>, b: Beat, since: int)
    requires Filled(s, bs, since) && q.series == s.series && q.curStart == s.curStart <= b.at
    requires s.curStart % BUCKET_MS == 0
    ensures Filled(q, bs + [b], since)
  {
    Align(b.at);
    forall x, t | x in bs + [b] && Follows(q, x, t) && t >= since ensures Charted(q, x.club, t) {
      if x in bs { assert Follows(s, x, t); }
    }
  }

  lemma SameChart(s: Stats, q: Stats, bs: seq<Beat>, since: int)
    requires Filled(s, bs, since) && Within(s, since) && q.series == s.series && q.curStart == s.curStart
    ensures Filled(q, bs, since) && Within(q, since)
  {
    forall b, t | b in bs && Follows(q, b, t) && t >= since ensures Charted(q, b.club, t) {
      assert Follows(s, b, t);
    }
  }

  /** The open bucket is the one of the last beat or tick. */
  lemma {:induction false} OpenIsRecent(steps: seq<Step>)
    requires Legal(steps)
    ensures var s := Run(EMPTY, steps); s.curStart != 0 ==> LastRoll(steps) < s.curStart + BUCKET_MS
  {
    hide Roll, RoomLive, RoomInBucket, Inv, LiveOk, PruneActive, Removed, Recorded;
    if steps != [] {
      var t, st := steps[..|steps| - 1], steps[|steps| - 1];
      OpenIsRecent(t);
      RunKeepsBoth(t);
      RollOpens(Run(EMPTY, t), t, st);
    }
  }

  lemma RollOpens(s: Stats, t: seq<Step>, st: Step)
    requires Inv(s, Heard(t), Clock(t)) && BUCKET_MS <= Clock(t) && Goes(t, st)
    ensures st.Hear? ==> Recorded(s, st.beat.club, st.beat.pk, st.beat.at).curStart == Roll(s, st.beat.at).curStart
    ensures st.Hear? ==> var r := Roll(s, st.beat.at); r.curStart <= st.beat.at < r.curStart + BUCKET_MS
    ensures st.Tick? ==> st.now < Roll(s, st.now).curStart + BUCKET_MS
  {
    hide Roll, RoomLive, RoomInBucket, Inv;
    if st.Hear? { RollKeepsInv(s, Heard(t), Clock(t), st.beat.at); }
    if st.Tick? { RollKeepsInv(s, Heard(t), Clock(t), st.now); }
  }

  /**
    The chart has no gaps: every finished bucket of the last day that ended within a day after a beat
    of the club has its sample, zero or not, and no sample is older than a day.
   */
  lemma {:induction false} ChartIsFilled(steps: seq<Step>)
    requires Daily(steps)
    ensures var s := Run(EMPTY, steps);
            Filled(s, Heard(steps), LastRoll(steps) - 86_400_000) && Within(s, LastRoll(steps) - 86_400_000)
  {
    hide Roll, Spans, RoomLive, RoomInBucket, RoomInDay, Inv, LiveOk, PruneActive, Removed, Recorded, Filled, Within;
    if steps == [] {
      NothingFills(0, BUCKET_MS - WINDOW_MS);
    } else {
      var t, st := steps[..|steps| - 1], steps[|steps| - 1];
      var s, since := Run(EMPTY, t), LastRoll(t) - WINDOW_MS;
      ChartIsFilled(t);
      RunKeepsBoth(t);
      SpansAreExact(t);
      RollIsPast(t);
      OpenIsRecent(t);
      match st {
        case Hear(b) =>
          RollFills(s, t, since, b.at);
          BeatKeepsChart(s, t, b);
        case Tick(now) => RollFills(s, t, since, now);
        case _ => SameChart(s, Run(EMPTY, steps), Heard(t), since);
      }
    }
  }

  lemma BeatKeepsChart(s: Stats, t: seq<Step>, b: Beat)
    requires Inv(s, Heard(t), Clock(t)) && BUCKET_MS <= Clock(t) <= b.at
    requires Filled(Roll(s, b.at), Heard(t), b.at - WINDOW_MS) && Within(Roll(s, b.at), b.at - WINDOW_MS)
    ensures var q := Recorded(s, b.club, b.pk, b.at);
            Filled(q, Heard(t) + [b], b.at - WINDOW_MS) && Within(q, b.at - WINDOW_MS)
  {
    hide Roll, Filled, Spanned, Capped, CappedSet, Exact, Ordered, OpenExact, Complete;
    RollKeepsInv(s, Heard(t), Clock(t), b.at);
    BeatFills(Roll(s, b.at), Recorded(s, b.club, b.pk, b.at), Heard(t), b, b.at - WINDOW_MS);
  }

  // ── what a broadcast sends ──────────────────────────────────────────────────

  /** When the club was last sent a count. */
  function LastSent(steps: seq<Step>, c: string): Option<int> {
    if steps == [] then None
    else if steps[|steps| - 1].Broadcast? && c in Sent(steps) then Some(steps[|steps| - 1].now)
    else LastSent(steps[..|steps| - 1], c)
  }

  /** The relay remembers when it last sent each count it remembers. */
  ghost predicate Stamped(steps: seq<Step>) {
    forall c | c in Broadcasts(steps).published ::
      c in Broadcasts(steps).stamps && LastSent(steps, c) == Some(Broadcasts(steps).stamps[c])
  }

  lemma {:induction false} RunKeepsStamps(steps: seq<Step>)
    ensures Stamped(steps)
  {
    hide Run, Count;
    if steps != [] {
      var t := steps[..|steps| - 1];
      RunKeepsStamps(t);
      if steps[|steps| - 1].Broadcast? {
        BroadcastStamps(steps);
      } else {
        SilentStep(steps);
      }
    }
  }

  lemma SilentStep(steps: seq<Step>)
    requires steps != [] && !steps[|steps| - 1].Broadcast? && Stamped(steps[..|steps| - 1])
    ensures Stamped(steps)
  {
    hide Run;
    var t := steps[..|steps| - 1];
    assert Broadcasts(steps) == Broadcasts(t);
    forall c | c in Broadcasts(steps).published
      ensures c in Broadcasts(steps).stamps && LastSent(steps, c) == Some(Broadcasts(steps).stamps[c])
    {
      assert LastSent(steps, c) == LastSent(t, c);
    }
  }

  lemma BroadcastStamps(steps: seq<Step>)
    requires steps != [] && steps[|steps| - 1].Broadcast? && Stamped(steps[..|steps| - 1])
    ensures Stamped(steps)
  {
    hide Run, Count, Due;
    var t, now := Broadcasts(steps[..|steps| - 1]), steps[|steps| - 1].now;
    var active := Run(EMPTY, steps).active;
    forall c | c in Broadcasts(steps).published
      ensures c in Broadcasts(steps).stamps && LastSent(steps, c) == Some(Broadcasts(steps).stamps[c])
    {
      NotDueWasSent(active, t.published, t.stamps, c, now);
      assert c in Sent(steps) <==> Due(active, t.published, t.stamps, c, now);
    }
  }

  lemma NotDueWasSent(
    active: map<string, map<string, int>>, published: map<string, nat>, stamps: map<string, int>, c: string, now: int)
    ensures !Due(active, published, stamps, c, now) ==> c in published
  {
  }

  /** The count a club was last sent, zero before the first. */
  function Known(steps: seq<Step>, c: string): nat {
    Get(Broadcasts(steps).sent, c, 0)
  }

  /**
    What a broadcast sends: the number of listeners, and exactly to the clubs for which it differs
    from the last one sent, or that have listeners and were sent theirs fifteen seconds ago or more.
   */
  lemma {:induction false} SendsExactly(steps: seq<Step>, c: string)
    requires Legal(steps) && steps != [] && steps[|steps| - 1].Broadcast?
    ensures var t, n := steps[..|steps| - 1], |Listening(steps, c, Clock(steps))|;
            && (c in Sent(steps) ==> Sent(steps)[c] == n)
            && (n == Known(t, c) && n > 0 ==> LastSent(t, c).Some?)
            && (c in Sent(steps)
                <==> n != Known(t, c) || (n > 0 && Clock(steps) - LastSent(t, c).value >= 15_000))
  {
    hide Run, Broadcasts, LastSent, Listening, Legal, Count, Told, Sent;
    var t := steps[..|steps| - 1];
    LegalPrefix(steps);
    RunKeepsTold(t);
    RunKeepsStamps(t);
    BroadcastHolds(steps, c);
    CountIsKeys(Run(EMPTY, steps).active, c);
    RunKeepsLive(steps);
    NoEmptyClub(Run(EMPTY, steps).active, steps, Clock(steps));
    DueMeans(steps, c);
  }

  lemma DueMeans(steps: seq<Step>, c: string)
    requires steps != [] && steps[|steps| - 1].Broadcast?
    requires Told(Broadcasts(steps[..|steps| - 1]).sent, Broadcasts(steps[..|steps| - 1]).published)
    requires Stamped(steps[..|steps| - 1])
    requires forall x | x in Run(EMPTY, steps).active :: Run(EMPTY, steps).active[x] != map[]
    ensures var t, n := steps[..|steps| - 1], Count(Run(EMPTY, steps).active, c);
            && (c in Sent(steps) ==> Sent(steps)[c] == n)
            && (n == Known(t, c) && n > 0 ==> LastSent(t, c).Some?)
            && (c in Sent(steps)
                <==> n != Known(t, c) || (n > 0 && steps[|steps| - 1].now - LastSent(t, c).value >= 15_000))
  {
    hide Run, LastSent;
    var active := Run(EMPTY, steps).active;
    assert c in active ==> |active[c]| > 0;
    assert Known(steps[..|steps| - 1], c) == Get(Broadcasts(steps[..|steps| - 1]).published, c, 0);
  }
}
