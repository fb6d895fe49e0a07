/**
  Listener analytics: rolling five-minute buckets per club and the live counts broadcast to
  clients. Times are milliseconds.
 */
module Listeners {
  import opened Wrappers

  const WINDOW_MS := 86_400_000
  const BUCKET_MS := 300_000
  const ONLINE_MS := 70_000
  const BROADCAST_MS := 15_000
  const MAX_CLUBS := 2000
  const MAX_SESSIONS := 5000

  datatype Sample = Sample(t: int, n: nat)
  datatype Span = Span(first: int, last: int)

  datatype Stats = Stats(
    seen: map<string, map<string, Span>>,
    series: map<string, seq<Sample>>,
    curStart: int,
    curSets: map<string, set<string>>,
    active: map<string, map<string, int>>)

  const EMPTY := Stats(map[], map[], 0, map[], map[])

  function Get<T>(m: map<string, T>, k: string, none: T): T {
    if k in m then m[k] else none
  }

  // ── closing buckets and trimming ────────────────────────────────────────────

  function Universe(s: Stats): set<string> {
    s.seen.Keys + s.curSets.Keys
  }

  function Longer(series: map<string, seq<Sample>>, start: int, sets: map<string, set<string>>,
          c: string): seq<Sample> {
    Get(series, c, []) + [Sample(start, |Get(sets, c, {})|)]
  }

  /** Finalises the open bucket for every club seen in the window or in the bucket itself. */
  function Close(s: Stats): Stats {
    s.(series := map c | c in s.series.Keys + Universe(s) ::
         if c in Universe(s) then Longer(s.series, s.curStart, s.curSets, c) else s.series[c],
       curStart := s.curStart + BUCKET_MS,
       curSets := map[])
  }

  function CloseAll(s: Stats, now: int): (r: Stats)
    ensures r.curStart <= now < r.curStart + BUCKET_MS || r == s
    ensures now < r.curStart + BUCKET_MS
    ensures r.active == s.active
    decreases now - s.curStart
  {
    if now >= s.curStart + BUCKET_MS then CloseAll(Close(s), now) else s
  }

  function Online(sessions: map<string, int>, now: int): map<string, int> {
    map k | k in sessions && now - sessions[k] < ONLINE_MS :: sessions[k]
  }

  function PruneActive(active: map<string, map<string, int>>, now: int): map<string, map<string, int>> {
    map c | c in active && Online(active[c], now) != map[] :: Online(active[c], now)
  }

  function Recent(samples: seq<Sample>, cutoff: int): (r: seq<Sample>)
    ensures forall x :: x in r <==> x in samples && x.t >= cutoff
  {
    if samples == [] then []
    else if samples[|samples| - 1].t >= cutoff then Recent(samples[..|samples| - 1], cutoff) + [samples[|samples| - 1]]
    else Recent(samples[..|samples| - 1], cutoff)
  }

  function RecentSpans(spans: map<string, Span>, cutoff: int): map<string, Span> {
    map k | k in spans && spans[k].last >= cutoff :: spans[k]
  }

  function TrimSeries(series: map<string, seq<Sample>>, cutoff: int): map<string, seq<Sample>> {
    map c | c in series && Recent(series[c], cutoff) != [] :: Recent(series[c], cutoff)
  }

  function TrimSeen(seen: map<string, map<string, Span>>, cutoff: int): map<string, map<string, Span>> {
    map c | c in seen && RecentSpans(seen[c], cutoff) != map[] :: RecentSpans(seen[c], cutoff)
  }

  function Trim(s: Stats, now: int): Stats {
    s.(active := PruneActive(s.active, now),
       series := TrimSeries(s.series, now - WINDOW_MS),
       seen := TrimSeen(s.seen, now - WINDOW_MS))
  }

  function Roll(s: Stats, now: int): Stats {
    if s.curStart == 0 then s.(curStart := now - now % BUCKET_MS) else Trim(CloseAll(s, now), now)
  }

  // ── recording a beat ────────────────────────────────────────────────────────

  /** The growth caps drop a beat from a new club or session when the maps are full. */
  predicate Capped<T>(m: map<string, map<string, T>>, club: string, pk: string) {
    if club in m then pk !in m[club] && |m[club]| >= MAX_SESSIONS else |m| >= MAX_CLUBS
  }

  predicate CappedSet(m: map<string, set<string>>, club: string, pk: string) {
    if club in m then pk !in m[club] && |m[club]| >= MAX_SESSIONS else |m| >= MAX_CLUBS
  }

  function Spanned(seen: map<string, map<string, Span>>, club: string, pk: string,
          now: int): map<string, map<string, Span>> {
    var cs := Get(seen, club, map[]);
    if pk in cs then seen[club := cs[pk := cs[pk].(last := now)]]
    else if |cs| < MAX_SESSIONS then seen[club := cs[pk := Span(now, now)]]
    else seen[club := cs]
  }

  function Recorded(s: Stats, club: string, pk: string, now: int): Stats {
    var r := Roll(s, now);
    if Capped(r.active, club, pk) then r
    else
      var a := r.(active := r.active[club := Get(r.active, club, map[])[pk := now]]);
      if CappedSet(a.curSets, club, pk) then a
      else a.(curSets := a.curSets[club := Get(a.curSets, club, {}) + {pk}], seen := Spanned(a.seen, club, pk, now))
  }

  function Removed(active: map<string, map<string, int>>, club: string, pk: string): map<string, map<string, int>> {
    if club !in active then active
    else if active[club] - {pk} == map[] then active - {club}
    else active[club := active[club] - {pk}]
  }

  // ── relay/listeners.go ──────────────────────────────────────────────────────

  class ListenerStats {
    var seen: map<string, map<string, Span>>
    var series: map<string, seq<Sample>>
    var curStart: int
    var curSets: map<string, set<string>>
    var active: map<string, map<string, int>>
    var published: map<string, nat>
    var lastPublished: map<string, int>

    function View(): Stats
      reads this
    {
      Stats(seen, series, curStart, curSets, active)
    }

    constructor ()
      ensures View() == EMPTY && published == map[] && lastPublished == map[]
    {
      seen, series, curStart, curSets, active := map[], map[], 0, map[], map[];
      published, lastPublished := map[], map[];
    }

    method PruneActiveLocked(now: int)
      modifies this`active
      ensures active == PruneActive(old(active), now)
    {
      hide Online, Blend, BlendBut;
      ghost var was, goal := active, PruneActive(active, now);
      var rest := active.Keys;
      BlendStart(was, goal, rest);
      while rest != {}
        invariant rest <= was.Keys && Blend(active, was, goal, rest)
        decreases |rest|
      {
        var club :| club in rest;
        BlendOpens(active, was, goal, rest, club);
        var sessions := DropStale(active[club], now);
        BlendTouch(active, was, goal, rest, club, sessions);
        if |sessions| == 0 {
          active := active - {club};
        } else {
          active := active[club := sessions];
        }
        BlendCloses(active, was, goal, rest, club);
        rest := rest - {club};
      }
      BlendEnd(active, was, goal);
    }

    method TrimLocked(now: int)
      modifies this`active, this`series, this`seen
      ensures View() == Trim(old(View()), now)
    {
      PruneActiveLocked(now);
      series := DropOldSamples(series, now - WINDOW_MS);
      seen := DropOldSpans(seen, now - WINDOW_MS);
    }

    method CloseBucket()
      modifies this`series, this`curStart, this`curSets
      ensures View() == Close(old(View()))
    {
      series := AppendSamples(series, seen.Keys + curSets.Keys, curStart, curSets);
      curStart := curStart + BUCKET_MS;
      curSets := map[];
    }

    method RollLocked(now: int)
      modifies this
      ensures View() == Roll(old(View()), now)
      ensures published == old(published) && lastPublished == old(lastPublished)
    {
      if curStart == 0 {
        curStart := now - now % BUCKET_MS;
        return;
      }
      while now >= curStart + BUCKET_MS
        invariant CloseAll(View(), now) == CloseAll(old(View()), now)
        invariant published == old(published) && lastPublished == old(lastPublished)
        decreases now - curStart
      {
        CloseBucket();
      }
      TrimLocked(now);
    }

    method Record(club: string, pubkey: string, now: int)
      modifies this
      ensures View() == Recorded(old(View()), club, pubkey, now)
      ensures published == old(published) && lastPublished == old(lastPublished)
    {
      hide Roll;
      RollLocked(now);
      if club !in active && |active| >= MAX_CLUBS {
        return;
      }
      var sessions := Get(active, club, map[]);
      if pubkey !in sessions && |sessions| >= MAX_SESSIONS {
        return;
      }
      active := active[club := sessions[pubkey := now]];
      if club !in curSets && |curSets| >= MAX_CLUBS {
        return;
      }
      var current := Get(curSets, club, {});
      if pubkey !in current && |current| >= MAX_SESSIONS {
        return;
      }
      curSets := curSets[club := current + {pubkey}];
      var cs := Get(seen, club, map[]);
      if pubkey in cs {
        cs := cs[pubkey := cs[pubkey].(last := now)];
      } else if |cs| < MAX_SESSIONS {
        cs := cs[pubkey := Span(now, now)];
      }
      seen := seen[club := cs];
    }

    method Remove(club: string, pubkey: string)
      modifies this`active
      ensures active == Removed(old(active), club, pubkey)
    {
      if club in active {
        var sessions := active[club] - {pubkey};
        if |sessions| == 0 {
          active := active - {club};
        } else {
          active := active[club := sessions];
        }
      }
    }

    /** Returns what is published: at most one count per club. */
    method BroadcastLive(now: int) returns (updates: map<string, nat>)
      requires lastPublished.Keys == published.Keys
      modifies this`active, this`published, this`lastPublished
      ensures active == PruneActive(old(active), now)
      ensures updates == Updates(active, old(published), old(lastPublished), now)
      ensures published == Counts(active)
      ensures lastPublished == Stamps(active, old(published), old(lastPublished), now)
      ensures lastPublished.Keys == published.Keys
    {
      hide Updates, Stamps, Counts, PruneActive;
      PruneActiveLocked(now);
      PrunedNotEmpty(old(active), now);
      updates, published, lastPublished := Refresh(active, published, lastPublished, now);
    }
  }

  lemma PrunedNotEmpty(active: map<string, map<string, int>>, now: int)
    ensures forall c | c in PruneActive(active, now) :: PruneActive(active, now)[c] != map[]
  {
  }

  // A loop over the clubs of a map turns it into another one, club by club.

  /** The map so far: still `was` for the clubs to come, already `goal` for the others. */
  ghost predicate Blend<T>(m: map<string, T>, was: map<string, T>, goal: map<string, T>, todo: set<string>) {
    && (forall c :: c in m <==> if c in todo then c in was else c in goal)
    && (forall c | c in m :: m[c] == if c in todo then was[c] else goal[c])
  }

  lemma BlendStart<T>(was: map<string, T>, goal: map<string, T>, todo: set<string>)
    requires forall c | c !in todo :: (c in was <==> c in goal) && (c in was ==> was[c] == goal[c])
    ensures Blend(was, was, goal, todo)
  {
  }

  /** The same for every club but one, whose turn it is. */
  ghost predicate BlendBut<T>(m: map<string, T>, was: map<string, T>, goal: map<string, T>, todo: set<string>,
          c: string) {
    && (forall x | x != c :: x in m <==> if x in todo then x in was else x in goal)
    && (forall x | x != c && x in m :: m[x] == if x in todo then was[x] else goal[x])
  }

  lemma BlendOpens<T>(m: map<string, T>, was: map<string, T>, goal: map<string, T>, todo: set<string>, c: string)
    requires Blend(m, was, goal, todo) && c in todo
    ensures BlendBut(m, was, goal, todo, c)
    ensures (c in m <==> c in was) && (c in m ==> m[c] == was[c])
  {
  }

  lemma BlendTouch<T>(m: map<string, T>, was: map<string, T>, goal: map<string, T>, todo: set<string>, c: string, v: T)
    requires BlendBut(m, was, goal, todo, c)
    ensures BlendBut(m[c := v], was, goal, todo, c) && BlendBut(m[c := v] - {c}, was, goal, todo, c)
    ensures BlendBut(m - {c}, was, goal, todo, c)
  {
  }

  lemma BlendCloses<T>(m: map<string, T>, was: map<string, T>, goal: map<string, T>, todo: set<string>, c: string)
    requires BlendBut(m, was, goal, todo, c) && c in todo
    requires (c in m <==> c in goal) && (c in m ==> m[c] == goal[c])
    ensures Blend(m, was, goal, todo - {c})
  {
  }

  lemma BlendEnd<T>(m: map<string, T>, was: map<string, T>, goal: map<string, T>)
    requires Blend(m, was, goal, {})
    ensures m == goal
  {
  }

  method Refresh(active: map<string, map<string, int>>, was: map<string, nat>, stamps: map<string, int>, now: int)
    returns (updates: map<string, nat>, published: map<string, nat>, stamped: map<string, int>)
    requires stamps.Keys == was.Keys && forall c | c in active :: active[c] != map[]
    ensures updates == Updates(active, was, stamps, now)
    ensures published == Counts(active)
    ensures stamped == Stamps(active, was, stamps, now) && stamped.Keys == published.Keys
  {
    hide Due, Count, Stamp, Updates, Counts, Stamps, Blend, BlendBut;
    ghost var ups, counts, times := Updates(active, was, stamps, now), Counts(active), Stamps(active, was, stamps, now);
    var rest := active.Keys + was.Keys;
    updates, published, stamped := map[], was, stamps;
    NothingDone(active, was, stamps, now);
    while rest != {}
      invariant rest <= active.Keys + was.Keys
      invariant Blend(updates, map[], ups, rest) && Blend(published, was, counts, rest)
          && Blend(stamped, stamps, times, rest)
      decreases |rest|
    {
      var club :| club in rest;
      BlendOpens(updates, map[], ups, rest, club);
      BlendOpens(published, was, counts, rest, club);
      BlendOpens(stamped, stamps, times, rest, club);
      AtClub(active, was, stamps, club, now);
      var count := if club in active then |active[club]| else 0;
      var sentAt := if club in stamped then stamped[club] else 0;
      BlendTouch(updates, map[], ups, rest, club, count);
      BlendTouch(published, was, counts, rest, club, count);
      BlendTouch(stamped, stamps, times, rest, club, now);
      if club !in published || published[club] != count || now - sentAt >= BROADCAST_MS {
        updates := updates[club := count];
        published := published[club := count];
        stamped := stamped[club := now];
      }
      if count == 0 {
        published := published - {club};
        stamped := stamped - {club};
      }
      BlendCloses(updates, map[], ups, rest, club);
      BlendCloses(published, was, counts, rest, club);
      BlendCloses(stamped, stamps, times, rest, club);
      rest := rest - {club};
    }
    BlendEnd(updates, map[], ups);
    BlendEnd(published, was, counts);
    BlendEnd(stamped, stamps, times);
    SameClubs(active, was, stamps, now);
  }

  lemma SameClubs(active: map<string, map<string, int>>, was: map<string, nat>, stamps: map<string, int>, now: int)
    ensures Stamps(active, was, stamps, now).Keys == Counts(active).Keys
  {
  }

  lemma NothingDone(active: map<string, map<string, int>>, was: map<string, nat>, stamps: map<string, int>, now: int)
    requires stamps.Keys == was.Keys
    ensures var todo := active.Keys + was.Keys;
            && Blend(map[], map[], Updates(active, was, stamps, now), todo)
            && Blend(was, was, Counts(active), todo)
            && Blend(stamps, stamps, Stamps(active, was, stamps, now), todo)
  {
    hide Due, Stamp, Blend, Count;
    var todo := active.Keys + was.Keys;
    BlendStart(map[], Updates(active, was, stamps, now), todo);
    BlendStart(was, Counts(active), todo);
    BlendStart(stamps, Stamps(active, was, stamps, now), todo);
  }

  /** What the three results hold for one club. */
  lemma AtClub(active: map<string, map<string, int>>, was: map<string, nat>, stamps: map<string, int>, c: string,
          now: int)
    requires c in active.Keys + was.Keys && stamps.Keys == was.Keys && forall x | x in active :: active[x] != map[]
    ensures var n := if c in active then |active[c]| else 0;
            var due := c !in was || was[c] != n || now - (if c in stamps then stamps[c] else 0) >= BROADCAST_MS;
            && (n == 0 <==> c !in active)
            && (c in Updates(active, was, stamps, now) <==> due)
            && (due ==> Updates(active, was, stamps, now)[c] == n)
            && (c in Counts(active) <==> n != 0) && (n != 0 ==> Counts(active)[c] == n)
            && (c in Stamps(active, was, stamps, now) <==> n != 0)
            && (n != 0 ==> Stamps(active, was, stamps, now)[c] == if due then now else Get(stamps, c, now))
  {
    assert c in active ==> |active[c]| == |active[c].Keys|;
  }

  method AppendSamples(series: map<string, seq<Sample>>, u: set<string>, start: int, sets: map<string, set<string>>)
    returns (r: map<string, seq<Sample>>)
    ensures r == map c | c in series.Keys + u :: if c in u then Longer(series, start, sets, c) else series[c]
  {
    hide Longer, Blend, BlendBut;
    ghost var goal := map c | c in series.Keys + u :: if c in u then Longer(series, start, sets, c) else series[c];
    r := series;
    var rest := u;
    BlendStart(series, goal, u);
    while rest != {}
      invariant rest <= u && Blend(r, series, goal, rest)
      decreases |rest|
    {
      var club :| club in rest;
      BlendOpens(r, series, goal, rest, club);
      LongerIs(r, series, start, sets, club);
      BlendTouch(r, series, goal, rest, club, Longer(series, start, sets, club));
      r := r[club := Get(r, club, []) + [Sample(start, |Get(sets, club, {})|)]];
      BlendCloses(r, series, goal, rest, club);
      rest := rest - {club};
    }
    BlendEnd(r, series, goal);
  }

  lemma LongerIs(r: map<string, seq<Sample>>, series: map<string, seq<Sample>>, start: int,
          sets: map<string, set<string>>, c: string)
    requires c in r <==> c in series
    requires c in r ==> r[c] == series[c]
    ensures Get(r, c, []) + [Sample(start, |Get(sets, c, {})|)] == Longer(series, start, sets, c)
  {
  }

  method DropOldSamples(series: map<string, seq<Sample>>, cutoff: int) returns (r: map<string, seq<Sample>>)
    ensures r == TrimSeries(series, cutoff)
  {
    hide Recent, Blend, BlendBut;
    ghost var goal := TrimSeries(series, cutoff);
    r := series;
    var rest := series.Keys;
    BlendStart(r, goal, rest);
    while rest != {}
      invariant rest <= series.Keys && Blend(r, series, goal, rest)
      decreases |rest|
    {
      var club :| club in rest;
      BlendOpens(r, series, goal, rest, club);
      var kept := KeepRecent(r[club], cutoff);
      BlendTouch(r, series, goal, rest, club, kept);
      if |kept| == 0 {
        r := r - {club};
      } else {
        r := r[club := kept];
      }
      BlendCloses(r, series, goal, rest, club);
      rest := rest - {club};
    }
    BlendEnd(r, series, goal);
  }

  method DropOldSpans(seen: map<string, map<string, Span>>, cutoff: int) returns (r: map<string, map<string, Span>>)
    ensures r == TrimSeen(seen, cutoff)
  {
    hide RecentSpans, Blend, BlendBut;
    ghost var goal := TrimSeen(seen, cutoff);
    r := seen;
    var rest := seen.Keys;
    BlendStart(r, goal, rest);
    while rest != {}
      invariant rest <= seen.Keys && Blend(r, seen, goal, rest)
      decreases |rest|
    {
      var club :| club in rest;
      BlendOpens(r, seen, goal, rest, club);
      var kept := KeepRecentSpans(r[club], cutoff);
      BlendTouch(r, seen, goal, rest, club, kept);
      if |kept| == 0 {
        r := r - {club};
      } else {
        r := r[club := kept];
      }
      BlendCloses(r, seen, goal, rest, club);
      rest := rest - {club};
    }
    BlendEnd(r, seen, goal);
  }

  method DropStale(sessions: map<string, int>, now: int) returns (r: map<string, int>)
    ensures r == Online(sessions, now)
  {
    r := sessions;
    var rest := sessions.Keys;
    while rest != {}
      invariant rest <= sessions.Keys
      invariant r == map k | k in sessions && (k in rest || now - sessions[k] < ONLINE_MS) :: sessions[k]
      decreases |rest|
    {
      var k :| k in rest;
      rest := rest - {k};
      if now - sessions[k] >= ONLINE_MS {
        r := r - {k};
      }
    }
  }

  method KeepRecentSpans(spans: map<string, Span>, cutoff: int) returns (r: map<string, Span>)
    ensures r == RecentSpans(spans, cutoff)
  {
    r := spans;
    var rest := spans.Keys;
    while rest != {}
      invariant rest <= spans.Keys
      invariant r == map k | k in spans && (k in rest || spans[k].last >= cutoff) :: spans[k]
      decreases |rest|
    {
      var k :| k in rest;
      rest := rest - {k};
      if spans[k].last < cutoff {
        r := r - {k};
      }
    }
  }

  method KeepRecent(samples: seq<Sample>, cutoff: int) returns (kept: seq<Sample>)
    ensures kept == Recent(samples, cutoff)
  {
    kept := [];
    for i := 0 to |samples|
      invariant kept == Recent(samples[..i], cutoff)
    {
      assert samples[..i + 1][..i] == samples[..i];
      if samples[i].t >= cutoff {
        kept := kept + [samples[i]];
      }
    }
    assert samples[..|samples|] == samples;
  }

  // ── the naive history ───────────────────────────────────────────────────────

  datatype Beat = Beat(club: string, pk: string, at: int)

  /** The distinct sessions that beat in the bucket starting at `t`. */
  ghost function Sessions(bs: seq<Beat>, club: string, t: int): set<string> {
    set i | 0 <= i < |bs| && bs[i].club == club && t <= bs[i].at < t + 300_000 :: bs[i].pk
  }

  ghost predicate Increasing(samples: seq<Sample>) {
    forall i, j | 0 <= i < j < |samples| :: samples[i].t < samples[j].t
  }

  /** A finalised sample is aligned, lies before the open bucket and counts its bucket exactly. */
  ghost predicate Exact(s: Stats, bs: seq<Beat>) {
    forall c, x | c in s.series && x in s.series[c] ::
      x.t % 300_000 == 0 && x.t + 300_000 <= s.curStart && x.n == |Sessions(bs, c, x.t)|
  }

  ghost predicate Ordered(s: Stats) {
    forall c | c in s.series :: Increasing(s.series[c])
  }

  /** The open bucket holds exactly its sessions. */
  ghost predicate OpenExact(s: Stats, bs: seq<Beat>) {
    && (forall c :: Get(s.curSets, c, {}) == Sessions(bs, c, s.curStart))
    && (forall c | c in s.curSets :: s.curSets[c] != {})
  }

  /** Every bucket with a beat has its sample, unless it is open or older than the window. */
  ghost predicate Complete(s: Stats, bs: seq<Beat>, clock: int) {
    forall b | b in bs ::
      var t := b.at - b.at % 300_000;
      t == s.curStart || t < clock - 86_400_000
      || (b.club in s.series && exists x :: x in s.series[b.club] && x.t == t)
  }

  ghost predicate Inv(s: Stats, bs: seq<Beat>, clock: int) {
    && (s.curStart == 0 ==> s == EMPTY && bs == [])
    && (s.curStart != 0 ==> BUCKET_MS <= s.curStart <= clock)
    && s.curStart % BUCKET_MS == 0
    && (forall b | b in bs :: b.at < s.curStart + BUCKET_MS)
    && Exact(s, bs) && Ordered(s) && OpenExact(s, bs) && Complete(s, bs, clock)
  }

  lemma Align(at: int)
    ensures (at - at % BUCKET_MS) % BUCKET_MS == 0
    ensures at - at % BUCKET_MS <= at < at - at % BUCKET_MS + BUCKET_MS
  {
    assert at - at % BUCKET_MS == BUCKET_MS * (at / BUCKET_MS);
  }

  lemma SameBucket(at: int, t: int)
    requires t % BUCKET_MS == 0 && t <= at < t + BUCKET_MS
    ensures at - at % BUCKET_MS == t
  {
  }

  lemma CloseKeepsExact(s: Stats, bs: seq<Beat>)
    requires Exact(s, bs) && OpenExact(s, bs) && s.curStart % BUCKET_MS == 0
    ensures Exact(Close(s), bs)
  {
    hide Sessions;
    var r := Close(s);
    forall c, x | c in r.series && x in r.series[c]
      ensures x.t % BUCKET_MS == 0 && x.t + BUCKET_MS <= r.curStart && x.n == |Sessions(bs, c, x.t)|
    {
      if !(c in s.series && x in s.series[c]) {
        assert x == Sample(s.curStart, |Get(s.curSets, c, {})|);
      }
    }
  }

  lemma CloseKeepsOrdered(s: Stats, bs: seq<Beat>)
    requires Exact(s, bs) && Ordered(s)
    ensures Ordered(Close(s))
  {
    hide Sessions;
    var r := Close(s);
    forall c | c in r.series ensures Increasing(r.series[c]) {
      IncreasingSnoc(Get(s.series, c, []), Sample(s.curStart, |Get(s.curSets, c, {})|));
      assert c in s.series ==> forall x | x in s.series[c] :: x.t + BUCKET_MS <= s.curStart;
    }
  }

  lemma CloseKeepsOpen(s: Stats, bs: seq<Beat>)
    requires forall b | b in bs :: b.at < s.curStart + BUCKET_MS
    ensures OpenExact(Close(s), bs)
  {
    var r := Close(s);
    forall c ensures Get(r.curSets, c, {}) == Sessions(bs, c, r.curStart) {
      assert forall i | 0 <= i < |bs| :: bs[i] in bs;
    }
  }

  lemma CloseKeepsInv(s: Stats, bs: seq<Beat>, clock: int)
    requires Inv(s, bs, clock) && s.curStart != 0 && s.curStart + BUCKET_MS <= clock
    ensures Inv(Close(s), bs, clock)
  {
    hide Exact, Ordered, OpenExact, Complete;
    CloseKeepsExact(s, bs);
    CloseKeepsOrdered(s, bs);
    CloseKeepsOpen(s, bs);
    CloseKeepsComplete(s, bs, clock);
  }

  lemma IncreasingSnoc(xs: seq<Sample>, x: Sample)
    requires Increasing(xs)
    ensures (forall y | y in xs :: y.t < x.t) ==> Increasing(xs + [x])
    ensures xs + [] == xs
  {
  }

  lemma CloseKeepsComplete(s: Stats, bs: seq<Beat>, clock: int)
    requires Inv(s, bs, clock) && s.curStart != 0
    ensures Complete(Close(s), bs, clock)
  {
    var r := Close(s);
    forall b | b in bs
      ensures var t := b.at - b.at % BUCKET_MS;
              t == r.curStart || t < clock - WINDOW_MS
              || (b.club in r.series && exists x :: x in r.series[b.club] && x.t == t)
    {
      var t := b.at - b.at % BUCKET_MS;
      Align(b.at);
      if t == s.curStart {
        var i :| 0 <= i < |bs| && bs[i] == b;
        assert b.pk in Sessions(bs, b.club, s.curStart);
        assert b.club in s.curSets;
        var x := Sample(s.curStart, |Get(s.curSets, b.club, {})|);
        assert r.series[b.club][|r.series[b.club]| - 1] == x;
        assert x in r.series[b.club] && x.t == t;
      } else if t >= clock - WINDOW_MS {
        var x :| x in s.series[b.club] && x.t == t;
        assert x in r.series[b.club];
      }
    }
  }

  lemma {:induction false} CloseAllKeepsInv(s: Stats, bs: seq<Beat>, now: int)
    requires Inv(s, bs, now) && s.curStart != 0
    ensures Inv(CloseAll(s, now), bs, now) && CloseAll(s, now).curStart != 0
    ensures CloseAll(s, now).curStart <= now < CloseAll(s, now).curStart + BUCKET_MS
    decreases now - s.curStart
  {
    hide Exact, Ordered, OpenExact, Complete;
    if now >= s.curStart + BUCKET_MS {
      CloseKeepsInv(s, bs, now);
      CloseAllKeepsInv(Close(s), bs, now);
    }
  }

  lemma {:induction false} RecentIncreasing(xs: seq<Sample>, cutoff: int)
    requires Increasing(xs)
    ensures Increasing(Recent(xs, cutoff))
  {
    if xs != [] {
      var t, x := xs[..|xs| - 1], xs[|xs| - 1];
      RecentIncreasing(t, cutoff);
      IncreasingSnoc(Recent(t, cutoff), x);
      assert forall y | y in t :: y.t < x.t;
    }
  }

  lemma TrimKeepsComplete(s: Stats, bs: seq<Beat>, now: int)
    requires Complete(s, bs, now)
    ensures Complete(Trim(s, now), bs, now)
  {
    hide PruneActive, TrimSeen;
    var r := Trim(s, now);
    forall b | b in bs
      ensures var t := b.at - b.at % BUCKET_MS;
              t == r.curStart || t < now - WINDOW_MS
              || (b.club in r.series && exists x :: x in r.series[b.club] && x.t == t)
    {
      var t := b.at - b.at % BUCKET_MS;
      if t != s.curStart && t >= now - WINDOW_MS {
        var x :| x in s.series[b.club] && x.t == t;
        assert x in Recent(s.series[b.club], now - WINDOW_MS);
        assert x in r.series[b.club];
      }
    }
  }

  lemma {:induction false} TrimKeepsInv(s: Stats, bs: seq<Beat>, now: int)
    requires Inv(s, bs, now) && s.curStart != 0
    ensures Inv(Trim(s, now), bs, now)
  {
    hide PruneActive, TrimSeen, Complete, Sessions, Increasing;
    var r := Trim(s, now);
    forall c | c in r.series ensures Increasing(r.series[c]) {
      RecentIncreasing(s.series[c], now - WINDOW_MS);
    }
    TrimKeepsComplete(s, bs, now);
  }

  lemma RollKeepsInv(s: Stats, bs: seq<Beat>, clock: int, now: int)
    requires Inv(s, bs, clock) && clock <= now && BUCKET_MS <= now
    ensures Inv(Roll(s, now), bs, now)
    ensures Roll(s, now).curStart != 0 && Roll(s, now).curStart <= now < Roll(s, now).curStart + BUCKET_MS
  {
    hide Exact, Ordered, OpenExact;
    if s.curStart == 0 {
      Align(now);
      NothingYet(now - now % BUCKET_MS);
    } else {
      CloseAllKeepsInv(s, bs, now);
      TrimKeepsInv(CloseAll(s, now), bs, now);
    }
  }

  lemma NothingYet(start: int)
    ensures Exact(EMPTY.(curStart := start), []) && Ordered(EMPTY.(curStart := start))
    ensures OpenExact(EMPTY.(curStart := start), [])
  {
    forall c ensures Sessions([], c, start) == {} {
    }
  }

  /** A new beat joins the open bucket and no other. */
  lemma SessionsSnoc(bs: seq<Beat>, b: Beat, c: string, t: int)
    ensures Sessions(bs + [b], c, t)
         == Sessions(bs, c, t) + if b.club == c && t <= b.at < t + BUCKET_MS then {b.pk} else {}
  {
    var all := bs + [b];
    forall k ensures k in Sessions(all, c, t)
               <==> k in Sessions(bs, c, t) || (b.club == c && t <= b.at < t + BUCKET_MS && k == b.pk)
    {
      if k in Sessions(bs, c, t) {
        var i :| 0 <= i < |bs| && bs[i].club == c && t <= bs[i].at < t + BUCKET_MS && bs[i].pk == k;
        assert all[i] == bs[i];
      }
      if b.club == c && t <= b.at < t + BUCKET_MS && k == b.pk {
        assert all[|bs|] == b;
      }
    }
  }

  predicate BelowCaps(s: Stats, club: string, pk: string, now: int) {
    !Capped(Roll(s, now).active, club, pk) && !CappedSet(Roll(s, now).curSets, club, pk)
  }

  lemma BeatKeepsInv(s: Stats, bs: seq<Beat>, clock: int, b: Beat)
    requires Inv(s, bs, clock) && clock <= b.at && BUCKET_MS <= b.at && BelowCaps(s, b.club, b.pk, b.at)
    ensures Inv(Recorded(s, b.club, b.pk, b.at), bs + [b], b.at)
  {
    hide Roll;
    RollKeepsInv(s, bs, clock, b.at);
    BeatJoins(Roll(s, b.at), bs, b);
    var r := Roll(s, b.at);
    StatsFields(r, Recorded(s, b.club, b.pk, b.at), bs + [b], b);
  }

  /** The invariant only looks at the buckets. */
  lemma StatsFields(r: Stats, q: Stats, bs: seq<Beat>, b: Beat)
    requires q.curStart == r.curStart != 0 && q.series == r.series
    requires q.curSets == r.curSets[b.club := Get(r.curSets, b.club, {}) + {b.pk}]
    requires Inv(r.(curSets := r.curSets[b.club := Get(r.curSets, b.club, {}) + {b.pk}]), bs, b.at)
    ensures Inv(q, bs, b.at)
  {
    var m := r.(curSets := q.curSets);
    assert Exact(m, bs) && Complete(m, bs, b.at);
    forall c ensures Get(q.curSets, c, {}) == Sessions(bs, c, q.curStart) {
      assert Get(m.curSets, c, {}) == Sessions(bs, c, m.curStart);
    }
  }

  lemma BeatJoinsExact(r: Stats, q: Stats, bs: seq<Beat>, b: Beat)
    requires Exact(r, bs) && q.series == r.series && q.curStart == r.curStart <= b.at
    ensures Exact(q, bs + [b])
  {
    hide Sessions;
    forall c, x | c in q.series && x in q.series[c]
      ensures x.t % BUCKET_MS == 0 && x.t + BUCKET_MS <= q.curStart && x.n == |Sessions(bs + [b], c, x.t)|
    {
      SessionsSnoc(bs, b, c, x.t);
    }
  }

  lemma BeatJoinsOpen(r: Stats, q: Stats, bs: seq<Beat>, b: Beat)
    requires OpenExact(r, bs) && r.curStart <= b.at < r.curStart + BUCKET_MS && q.curStart == r.curStart
    requires q.curSets == r.curSets[b.club := Get(r.curSets, b.club, {}) + {b.pk}]
    ensures OpenExact(q, bs + [b])
  {
    hide Sessions;
    forall c ensures Get(q.curSets, c, {}) == Sessions(bs + [b], c, q.curStart) {
      SessionsSnoc(bs, b, c, q.curStart);
      assert Get(r.curSets, c, {}) == Sessions(bs, c, r.curStart);
    }
  }

  lemma BeatJoins(r: Stats, bs: seq<Beat>, b: Beat)
    requires Inv(r, bs, b.at) && r.curStart != 0 && r.curStart <= b.at < r.curStart + BUCKET_MS
    ensures Inv(r.(curSets := r.curSets[b.club := Get(r.curSets, b.club, {}) + {b.pk}]), bs + [b], b.at)
  {
    hide Sessions, Exact, OpenExact, Increasing;
    var q, all := r.(curSets := r.curSets[b.club := Get(r.curSets, b.club, {}) + {b.pk}]), bs + [b];
    BeatJoinsExact(r, q, bs, b);
    BeatJoinsOpen(r, q, bs, b);
    SameBucket(b.at, r.curStart);
    assert forall y :: y in all <==> y in bs || y == b;
  }

  // ── runs ────────────────────────────────────────────────────────────────────

  datatype Step = Hear(beat: Beat) | Leave(club: string, pk: string) | Tick(now: int) | Broadcast(now: int)

  function Do(s: Stats, st: Step): Stats {
    match st
    case Hear(b) => Recorded(s, b.club, b.pk, b.at)
    case Leave(c, k) => s.(active := Removed(s.active, c, k))
    case Tick(now) => Roll(s, now)
    case Broadcast(now) => s.(active := PruneActive(s.active, now))
  }

  function Run(s: Stats, steps: seq<Step>): Stats {
    if steps == [] then s else Do(Run(s, steps[..|steps| - 1]), steps[|steps| - 1])
  }

  function Heard(steps: seq<Step>): seq<Beat> {
    if steps == [] then []
    else if steps[|steps| - 1].Hear? then Heard(steps[..|steps| - 1]) + [steps[|steps| - 1].beat]
    else Heard(steps[..|steps| - 1])
  }

  function Clock(steps: seq<Step>): int {
    if steps == [] then BUCKET_MS
    else match steps[|steps| - 1]
      case Hear(b) => b.at
      case Tick(now) => now
      case Broadcast(now) => now
      case Leave(_, _) => Clock(steps[..|steps| - 1])
  }

  /** The clubs with a listener. */
  ghost function LiveClubs(steps: seq<Step>, now: int): set<string> {
    set b | b in Heard(steps) && IsLive(steps, b.club, b.pk, now) :: b.club
  }

  /** The clubs with a beat in the bucket starting at `t`. */
  ghost function BucketClubs(bs: seq<Beat>, t: int): set<string> {
    set b | b in bs && t <= b.at < t + BUCKET_MS :: b.club
  }

  /** There is room among the listeners: five thousand sessions a club, two thousand clubs. */
  ghost predicate RoomLive(steps: seq<Step>, b: Beat) {
    if b.club in LiveClubs(steps, b.at)
    then b.pk in Listening(steps, b.club, b.at) || |Listening(steps, b.club, b.at)| < 5000
    else |LiveClubs(steps, b.at)| < 2000
  }

  /** There is room in the bucket of the beat, with the same limits. */
  ghost predicate RoomInBucket(bs: seq<Beat>, b: Beat) {
    var t := b.at - b.at % BUCKET_MS;
    if b.club in BucketClubs(bs, t)
    then b.pk in Sessions(bs, b.club, t) || |Sessions(bs, b.club, t)| < 5000
    else |BucketClubs(bs, t)| < 2000
  }

  /** A nondecreasing clock, and room for every beat among those heard before. */
  ghost predicate Legal(steps: seq<Step>) {
    steps != [] ==>
      var t, st := steps[..|steps| - 1], steps[|steps| - 1];
      && Legal(t)
      && (st.Hear? ==> Clock(t) <= st.beat.at && RoomLive(t, st.beat) && RoomInBucket(Heard(t), st.beat))
      && (st.Tick? || st.Broadcast? ==> Clock(t) <= st.now)
  }

  /** The live map after a roll holds exactly the listeners. */
  lemma LiveIsListening(s: Stats, steps: seq<Step>, clock: int, now: int)
    requires LiveOk(s.active, steps, clock) && clock <= now && (s.curStart == 0 ==> s == EMPTY)
    ensures forall c :: Get(Roll(s, now).active, c, map[]).Keys == Listening(steps, c, now)
    ensures Roll(s, now).active.Keys == LiveClubs(steps, now)
  {
    hide Latest, LiveOk, PruneActive, TrimSeries, TrimSeen;
    var active := Roll(s, now).active;
    RollKeepsLive(s, steps, clock, now);
    forall c, k ensures Holds(active, c, k) <==> IsLive(steps, c, k, now) {
      LiveHere(active, steps, now, c, k);
      PruneHolds(s.active, now, c, k);
      LiveHere(s.active, steps, clock, c, k);
    }
    forall c ensures Get(active, c, map[]).Keys == Listening(steps, c, now) {
      HeldAreListening(active, steps, now, c);
    }
    HeldClubs(active, steps, now, clock);
  }

  lemma HeldAreListening(active: map<string, map<string, int>>, steps: seq<Step>, now: int, c: string)
    requires forall k :: Holds(active, c, k) <==> IsLive(steps, c, k, now)
    ensures Get(active, c, map[]).Keys == Listening(steps, c, now)
  {
    hide Latest;
    forall k ensures k in Get(active, c, map[]) <==> k in Listening(steps, c, now) {
      assert Holds(active, c, k) <==> k in Get(active, c, map[]);
      if IsLive(steps, c, k, now) { LatestWasHeard(steps, c, k); }
    }
  }

  lemma HeldClubs(active: map<string, map<string, int>>, steps: seq<Step>, now: int, clock: int)
    requires LiveOk(active, steps, now)
    requires forall c, k :: Holds(active, c, k) <==> IsLive(steps, c, k, now)
    ensures active.Keys == LiveClubs(steps, now)
  {
    hide Latest;
    forall c ensures c in active <==> c in LiveClubs(steps, now) {
      if c in active {
        var k :| k in active[c];
        assert Holds(active, c, k);
        LatestWasHeard(steps, c, k);
      }
      if c in LiveClubs(steps, now) {
        var b :| b in Heard(steps) && IsLive(steps, b.club, b.pk, now) && b.club == c;
        assert Holds(active, c, b.pk);
      }
    }
  }

  /** The open bucket's clubs are those that beat in it. */
  lemma OpenClubs(s: Stats, bs: seq<Beat>)
    requires OpenExact(s, bs)
    ensures s.curSets.Keys == BucketClubs(bs, s.curStart)
  {
    forall c ensures c in s.curSets <==> c in BucketClubs(bs, s.curStart) {
      if c in s.curSets {
        var k :| k in s.curSets[c];
        assert k in Sessions(bs, c, s.curStart);
        var i :| 0 <= i < |bs| && bs[i].club == c && s.curStart <= bs[i].at < s.curStart + BUCKET_MS && bs[i].pk == k;
        assert bs[i] in bs;
      }
      if c in BucketClubs(bs, s.curStart) {
        var b :| b in bs && s.curStart <= b.at < s.curStart + BUCKET_MS && b.club == c;
        assert b.pk in Sessions(bs, c, s.curStart);
      }
    }
  }

  lemma CappedIsFull(active: map<string, map<string, int>>, steps: seq<Step>, b: Beat)
    requires active.Keys == LiveClubs(steps, b.at)
    requires Get(active, b.club, map[]).Keys == Listening(steps, b.club, b.at)
    ensures Capped(active, b.club, b.pk) <==> !RoomLive(steps, b)
  {
    hide LiveClubs, Listening;
    KeyCount(Get(active, b.club, map[]));
    KeyCount(active);
  }

  lemma CappedSetIsFull(sets: map<string, set<string>>, bs: seq<Beat>, b: Beat, t: int)
    requires t == b.at - b.at % BUCKET_MS && sets.Keys == BucketClubs(bs, t)
    requires Get(sets, b.club, {}) == Sessions(bs, b.club, t)
    ensures CappedSet(sets, b.club, b.pk) <==> !RoomInBucket(bs, b)
  {
    hide BucketClubs, Sessions;
    KeyCount(sets);
  }

  /** The caps drop a beat exactly where there is no room for it. */
  lemma CapsAreRoom(s: Stats, steps: seq<Step>, clock: int, b: Beat)
    requires Inv(s, Heard(steps), clock) && LiveOk(s.active, steps, clock) && clock <= b.at && BUCKET_MS <= b.at
    ensures Capped(Roll(s, b.at).active, b.club, b.pk) <==> !RoomLive(steps, b)
    ensures CappedSet(Roll(s, b.at).curSets, b.club, b.pk) <==> !RoomInBucket(Heard(steps), b)
  {
    hide LiveOk, Roll, Listening, LiveClubs, Sessions, BucketClubs, Exact, Ordered, Complete, RoomLive, RoomInBucket;
    hide Capped, CappedSet;
    LiveIsListening(s, steps, clock, b.at);
    RollKeepsInv(s, Heard(steps), clock, b.at);
    var r := Roll(s, b.at);
    OpenClubs(r, Heard(steps));
    SameBucket(b.at, r.curStart);
    assert Get(r.curSets, b.club, {}) == Sessions(Heard(steps), b.club, r.curStart);
    CappedIsFull(r.active, steps, b);
    CappedSetIsFull(r.curSets, Heard(steps), b, r.curStart);
  }

  lemma KeyCount<T>(m: map<string, T>)
    ensures |m| == |m.Keys|
  {
  }

  /** Buckets and live map are exact all along a run. */
  lemma {:induction false} RunKeepsBoth(steps: seq<Step>)
    requires Legal(steps)
    ensures Inv(Run(EMPTY, steps), Heard(steps), Clock(steps)) && BUCKET_MS <= Clock(steps)
    ensures LiveOk(Run(EMPTY, steps).active, steps, Clock(steps))
  {
    hide Exact, Ordered, OpenExact, Complete, Recorded, Roll, LiveOk, RoomLive, RoomInBucket, PruneActive, Removed;
    if steps == [] {
      NothingYet(0);
      assert Complete(EMPTY, [], BUCKET_MS) by { EmptyComplete(); }
      NobodyLive();
    } else {
      var t, st := steps[..|steps| - 1], steps[|steps| - 1];
      RunKeepsBoth(t);
      StepKeepsInv(Run(EMPTY, t), t, st);
      StepKeepsLive(Run(EMPTY, t), t, st);
      assert steps == t + [st];
    }
  }

  ghost predicate Goes(t: seq<Step>, st: Step) {
    && (st.Hear? ==> Clock(t) <= st.beat.at && RoomLive(t, st.beat) && RoomInBucket(Heard(t), st.beat))
    && (st.Tick? || st.Broadcast? ==> Clock(t) <= st.now)
  }

  lemma StepKeepsInv(s: Stats, t: seq<Step>, st: Step)
    requires Inv(s, Heard(t), Clock(t)) && LiveOk(s.active, t, Clock(t)) && BUCKET_MS <= Clock(t) && Goes(t, st)
    ensures Inv(Do(s, st), Heard(t + [st]), Clock(t + [st])) && BUCKET_MS <= Clock(t + [st])
  {
    hide Exact, Ordered, OpenExact, Complete, Recorded, Roll, LiveOk, RoomLive, RoomInBucket, PruneActive, Removed;
    assert (t + [st])[..|t|] == t;
    match st {
      case Hear(b) =>
        CapsAreRoom(s, t, Clock(t), b);
        BeatKeepsInv(s, Heard(t), Clock(t), b);
      case Tick(now) => RollKeepsInv(s, Heard(t), Clock(t), now);
      case Leave(c, k) =>
        NobodyLeaves(c, k);
        ActiveDoesNotMatter(s, Heard(t), Clock(t), Clock(t), Do(s, st).active);
      case Broadcast(now) =>
        NobodyPruned(now);
        ActiveDoesNotMatter(s, Heard(t), Clock(t), now, Do(s, st).active);
    }
  }

  lemma NobodyLeaves(c: string, k: string)
    ensures Removed(map[], c, k) == map[]
  {
  }

  lemma NobodyPruned(now: int)
    ensures PruneActive(map[], now) == map[]
  {
  }

  lemma StepKeepsLive(s: Stats, t: seq<Step>, st: Step)
    requires Inv(s, Heard(t), Clock(t)) && LiveOk(s.active, t, Clock(t)) && BUCKET_MS <= Clock(t) && Goes(t, st)
    ensures LiveOk(Do(s, st).active, t + [st], Clock(t + [st]))
  {
    hide LiveOk, Roll, PruneActive, Removed, Latest, CappedSet, Capped, Inv, RoomLive, RoomInBucket;
    assert (t + [st])[..|t|] == t;
    match st {
      case Hear(b) =>
        CapsAreRoom(s, t, Clock(t), b);
        RollKeepsLive(s, t, Clock(t), b.at);
        BeatKeepsLive(Roll(s, b.at).active, t, b);
      case Leave(c, k) =>
        LeaveKeepsLive(s.active, t, Clock(t), c, k);
      case Tick(now) =>
        RollKeepsLive(s, t, Clock(t), now);
        TimeKeepsLive(Roll(s, now).active, t, now, st);
      case Broadcast(now) =>
        PruneKeepsLive(s.active, t, Clock(t), now);
        TimeKeepsLive(PruneActive(s.active, now), t, now, st);
    }
  }

  lemma {:induction false} RunKeepsInv(steps: seq<Step>)
    requires Legal(steps)
    ensures Inv(Run(EMPTY, steps), Heard(steps), Clock(steps)) && BUCKET_MS <= Clock(steps)
  {
    RunKeepsBoth(steps);
  }

  lemma EmptyComplete()
    ensures Complete(EMPTY, [], BUCKET_MS)
  {
  }

  /** The buckets do not depend on who is live, and stay exact while time passes. */
  lemma ActiveDoesNotMatter(s: Stats, bs: seq<Beat>, clock: int, now: int, active: map<string, map<string, int>>)
    requires Inv(s, bs, clock) && clock <= now && (s.curStart == 0 ==> active == map[])
    ensures Inv(s.(active := active), bs, now)
  {
    hide Sessions, Increasing;
    var r := s.(active := active);
    assert Exact(r, bs);
    forall x ensures Get(r.curSets, x, {}) == Sessions(bs, x, r.curStart) {
      assert Get(s.curSets, x, {}) == Sessions(bs, x, s.curStart);
    }
    forall b | b in bs
      ensures var t := b.at - b.at % BUCKET_MS;
              t == r.curStart || t < now - WINDOW_MS
              || (b.club in r.series && exists x :: x in r.series[b.club] && x.t == t)
    {
    }
  }

  /**
    The rolling buckets equal the naive history: each sample counts exactly the distinct sessions
    that beat in its bucket, every bucket of the window that had a beat has its sample, and samples
    are aligned and strictly increasing before the open bucket, which is exact as well.
   */
  lemma BucketsAreExact(steps: seq<Step>)
    requires Legal(steps)
    ensures var s := Run(EMPTY, steps);
            && Exact(s, Heard(steps)) && Ordered(s) && OpenExact(s, Heard(steps))
            && Complete(s, Heard(steps), Clock(steps))
  {
    RunKeepsInv(steps);
  }

  // ── the growth caps ─────────────────────────────────────────────────────────

  /** A clock that never runs backwards. */
  predicate Steady(steps: seq<Step>) {
    steps != [] ==>
      var t, st := steps[..|steps| - 1], steps[|steps| - 1];
      Steady(t) && (st.Hear? ==> Clock(t) <= st.beat.at) && (st.Tick? || st.Broadcast? ==> Clock(t) <= st.now)
  }

  ghost function ClubsHeard(steps: seq<Step>): set<string> {
    set b | b in Heard(steps) :: b.club
  }

  ghost function SessionsHeard(steps: seq<Step>, c: string): set<string> {
    set b | b in Heard(steps) && b.club == c :: b.pk
  }

  /** At most two thousand clubs beat in all, and at most five thousand sessions in each. */
  ghost predicate Few(steps: seq<Step>) {
    |ClubsHeard(steps)| <= 2000 && forall c :: |SessionsHeard(steps, c)| <= 5000
  }

  lemma OneFewer(a: set<string>, x: string, all: set<string>)
    requires a <= all && x in all
    ensures x in a || |a| < |all|
  {
    SubsetCount(a, all - {x});
    if x !in a {
      SubsetCount(a, all - {x});
      assert |all - {x}| == |all| - 1;
    }
  }

  lemma SubsetCount(a: set<string>, b: set<string>)
    ensures a <= b ==> |a| <= |b|
  {
    if a <= b { assert b == a + (b - a); }
  }

  lemma PrefixIsFew(steps: seq<Step>)
    requires steps != [] && Few(steps)
    ensures Few(steps[..|steps| - 1])
  {
    var t := steps[..|steps| - 1];
    assert forall b | b in Heard(t) :: b in Heard(steps);
    SubsetCount(ClubsHeard(t), ClubsHeard(steps));
    forall c ensures |SessionsHeard(t, c)| <= 5000 {
      SubsetCount(SessionsHeard(t, c), SessionsHeard(steps, c));
    }
  }

  lemma SeenBefore(t: seq<Step>, c: string, at: int)
    ensures Listening(t, c, at) <= SessionsHeard(t, c) && LiveClubs(t, at) <= ClubsHeard(t)
  {
    hide Latest;
  }

  lemma InBucketBefore(t: seq<Step>, c: string, from: int)
    ensures Sessions(Heard(t), c, from) <= SessionsHeard(t, c) && BucketClubs(Heard(t), from) <= ClubsHeard(t)
  {
    var bs := Heard(t);
    forall k | k in Sessions(bs, c, from) ensures k in SessionsHeard(t, c) {
      var i :| 0 <= i < |bs| && bs[i].club == c && from <= bs[i].at < from + BUCKET_MS && bs[i].pk == k;
      assert bs[i] in bs;
    }
  }

  /** No such run loses a beat: there is always room. */
  lemma {:induction false} FewIsLegal(steps: seq<Step>)
    requires Steady(steps) && Few(steps)
    ensures Legal(steps)
  {
    hide Listening, LiveClubs, Sessions, BucketClubs, ClubsHeard, SessionsHeard, Few;
    if steps != [] {
      var t, st := steps[..|steps| - 1], steps[|steps| - 1];
      PrefixIsFew(steps);
      FewIsLegal(t);
      if st.Hear? { FewLeaveRoom(t, st.beat, steps); }
    }
  }

  lemma FewLeaveRoom(t: seq<Step>, b: Beat, steps: seq<Step>)
    requires steps == t + [Hear(b)] && Few(steps)
    ensures RoomLive(t, b) && RoomInBucket(Heard(t), b)
  {
    hide Listening, LiveClubs, Sessions, BucketClubs;
    assert steps[..|t|] == t;
    assert Heard(steps) == Heard(t) + [b];
    assert b in Heard(steps) && forall x | x in Heard(t) :: x in Heard(steps);
    var clubs, sessions, from := ClubsHeard(steps), SessionsHeard(steps, b.club), b.at - b.at % BUCKET_MS;
    SeenBefore(t, b.club, b.at);
    InBucketBefore(t, b.club, from);
    OneFewer(Listening(t, b.club, b.at), b.pk, sessions);
    OneFewer(LiveClubs(t, b.at), b.club, clubs);
    OneFewer(Sessions(Heard(t), b.club, from), b.pk, sessions);
    OneFewer(BucketClubs(Heard(t), from), b.club, clubs);
  }

  /**
    What a beat leaves behind: its session listens from now on exactly if there is room among the
    listeners, and counts in its bucket exactly if there is room there too or it counted already.
   */
  lemma BeatIsKeptExactly(steps: seq<Step>, b: Beat)
    requires Legal(steps) && Clock(steps) <= b.at
    ensures var r := Recorded(Run(EMPTY, steps), b.club, b.pk, b.at);
            && ((Holds(r.active, b.club, b.pk) && r.active[b.club][b.pk] == b.at)
                <==> RoomLive(steps, b) || Latest(steps, b.club, b.pk) == Some(b.at))
            && r.curStart == b.at - b.at % BUCKET_MS
            && (b.pk in Get(r.curSets, b.club, {})
                <==> b.pk in Sessions(Heard(steps), b.club, r.curStart)
                     || (RoomLive(steps, b) && RoomInBucket(Heard(steps), b)))
  {
    hide Roll, Run, LiveOk, Listening, LiveClubs, Sessions, BucketClubs, Exact, Ordered, Complete, RoomLive, Spanned;
    hide RoomInBucket, Latest;
    RunKeepsBoth(steps);
    var s := Run(EMPTY, steps);
    CapsAreRoom(s, steps, Clock(steps), b);
    RollKeepsInv(s, Heard(steps), Clock(steps), b.at);
    SameBucket(b.at, Roll(s, b.at).curStart);
    LiveAfterRoll(s, steps, b);
    assert Get(Roll(s, b.at).curSets, b.club, {}) == Sessions(Heard(steps), b.club, Roll(s, b.at).curStart);
  }

  lemma LiveAfterRoll(s: Stats, steps: seq<Step>, b: Beat)
    requires LiveOk(s.active, steps, Clock(steps)) && Clock(steps) <= b.at
    ensures LiveAt(Roll(s, b.at).active, steps, b.at, b.club, b.pk)
  {
    hide LiveOk, Roll;
    RollKeepsLive(s, steps, Clock(steps), b.at);
    LiveHere(Roll(s, b.at).active, steps, b.at, b.club, b.pk);
  }

  /** At most two thousand clubs and five thousand sessions each, in the live map and in the bucket. */
  ghost predicate Bounded(s: Stats) {
    && |s.active| <= 2000 && (forall c | c in s.active :: |s.active[c]| <= 5000)
    && |s.curSets| <= 2000 && (forall c | c in s.curSets :: |s.curSets[c]| <= 5000)
  }

  lemma SmallerMap<T>(a: map<string, T>, b: map<string, T>)
    requires a.Keys <= b.Keys
    ensures |a| <= |b|
  {
    KeyCount(a);
    KeyCount(b);
    SubsetCount(a.Keys, b.Keys);
  }

  lemma PruneIsSmaller(active: map<string, map<string, int>>, now: int)
    ensures var r := PruneActive(active, now);
            |r| <= |active| && forall c | c in r :: c in active && |r[c]| <= |active[c]|
  {
    var r := PruneActive(active, now);
    SmallerMap(r, active);
    forall c | c in r ensures |r[c]| <= |active[c]| {
      SmallerMap(r[c], active[c]);
    }
  }

  lemma LeaveIsSmaller(active: map<string, map<string, int>>, club: string, pk: string)
    ensures var r := Removed(active, club, pk);
            |r| <= |active| && forall c | c in r :: c in active && |r[c]| <= |active[c]|
  {
    var r := Removed(active, club, pk);
    SmallerMap(r, active);
    forall c | c in r ensures |r[c]| <= |active[c]| {
      SmallerMap(r[c], active[c]);
    }
  }

  lemma RollKeepsBounds(s: Stats, now: int)
    requires Bounded(s)
    ensures Bounded(Roll(s, now))
  {
    hide PruneActive, TrimSeries, TrimSeen;
    if s.curStart != 0 {
      SetsAfterClosing(s, now);
      PruneIsSmaller(s.active, now);
    }
  }

  lemma {:induction false} SetsAfterClosing(s: Stats, now: int)
    ensures CloseAll(s, now).curSets == s.curSets || CloseAll(s, now).curSets == map[]
    decreases now - s.curStart
  {
    if now >= s.curStart + BUCKET_MS { SetsAfterClosing(Close(s), now); }
  }

  lemma OneMoreKey<T>(m: map<string, T>, k: string, v: T)
    ensures |m[k := v]| == |m| + if k in m then 0 else 1
  {
    if k in m { assert m[k := v].Keys == m.Keys; } else { assert m[k := v].Keys == m.Keys + {k}; }
    KeyCount(m);
    KeyCount(m[k := v]);
  }

  lemma RecordKeepsBounds(s: Stats, club: string, pk: string, now: int)
    requires Bounded(s)
    ensures Bounded(Recorded(s, club, pk, now))
  {
    hide Roll, Spanned;
    RollKeepsBounds(s, now);
    var r := Roll(s, now);
    if !Capped(r.active, club, pk) { MapGrows(r.active, club, pk, now); }
    if !CappedSet(r.curSets, club, pk) { SetGrows(r.curSets, club, pk); }
  }

  lemma MapGrows(m: map<string, map<string, int>>, club: string, pk: string, now: int)
    requires |m| <= 2000 && (forall c | c in m :: |m[c]| <= 5000) && !Capped(m, club, pk)
    ensures var n := m[club := Get(m, club, map[])[pk := now]]; |n| <= 2000 && forall c | c in n :: |n[c]| <= 5000
  {
    OneMoreKey(m, club, Get(m, club, map[])[pk := now]);
    OneMoreKey(Get(m, club, map[]), pk, now);
  }

  lemma SetGrows(m: map<string, set<string>>, club: string, pk: string)
    requires |m| <= 2000 && (forall c | c in m :: |m[c]| <= 5000) && !CappedSet(m, club, pk)
    ensures var n := m[club := Get(m, club, {}) + {pk}]; |n| <= 2000 && forall c | c in n :: |n[c]| <= 5000
  {
    OneMoreKey(m, club, Get(m, club, {}) + {pk});
    if pk in Get(m, club, {}) { assert Get(m, club, {}) + {pk} == Get(m, club, {}); }
  }

  /** Whatever is heard, in whatever order, the live map and the bucket stay within the caps. */
  lemma {:induction false} CapsHold(steps: seq<Step>)
    ensures Bounded(Run(EMPTY, steps))
  {
    hide Roll, Recorded, PruneActive, Removed;
    if steps != [] {
      var s := Run(EMPTY, steps[..|steps| - 1]);
      CapsHold(steps[..|steps| - 1]);
      match steps[|steps| - 1]
      case Hear(b) => RecordKeepsBounds(s, b.club, b.pk, b.at);
      case Leave(c, k) => LeaveIsSmaller(s.active, c, k);
      case Tick(now) => RollKeepsBounds(s, now);
      case Broadcast(now) => PruneIsSmaller(s.active, now);
    }
  }

  // ── live counts ─────────────────────────────────────────────────────────────

  function Count(active: map<string, map<string, int>>, c: string): nat {
    |Get(active, c, map[])|
  }

  function Counts(active: map<string, map<string, int>>): map<string, nat> {
    map c | c in active :: |active[c]|
  }

  predicate Due(active: map<string, map<string, int>>, published: map<string, nat>, stamps: map<string, int>,
          c: string, now: int) {
    c !in published || published[c] != Count(active, c) || now - Get(stamps, c, 0) >= BROADCAST_MS
  }

  function Updates(active: map<string, map<string, int>>, published: map<string, nat>, stamps: map<string, int>,
          now: int): map<string, nat> {
    map c | c in active.Keys + published.Keys && Due(active, published, stamps, c, now) :: Count(active, c)
  }

  /** When the club's count was last sent. */
  function Stamp(active: map<string, map<string, int>>, published: map<string, nat>, stamps: map<string, int>,
          c: string, now: int): int {
    if Due(active, published, stamps, c, now) then now else Get(stamps, c, now)
  }

  function Stamps(active: map<string, map<string, int>>, published: map<string, nat>, stamps: map<string, int>,
          now: int): map<string, int>
  {
    map c | c in active :: Stamp(active, published, stamps, c, now)
  }

  /** The published table remembers the last count sent to each club, and never a zero. */
  ghost predicate Told(sent: map<string, nat>, published: map<string, nat>) {
    && (forall c :: Get(sent, c, 0) == Get(published, c, 0))
    && (forall c | c in published :: published[c] > 0)
  }

  lemma ClubIsTold(
    sent: map<string, nat>, active: map<string, map<string, int>>, published: map<string, nat>,
        stamps: map<string, int>, now: int, c: string)
    requires Told(sent, published) && forall x | x in active :: active[x] != map[]
    ensures var u := Updates(active, published, stamps, now);
            && Get(sent + u, c, 0) == Count(active, c) == Get(Counts(active), c, 0)
            && (c in u && u[c] == 0 ==> Get(sent, c, 0) > 0)
            && (c in Counts(active) ==> Counts(active)[c] > 0)
  {
    assert Get(sent, c, 0) == Get(published, c, 0);
    assert c in active ==> |active[c]| == |active[c].Keys| > 0;
  }

  // ── what the clubs are told in a run ────────────────────────────────────────

  /** What the relay remembers of its broadcasts, and the last count each club was really sent. */
  datatype Telling = Telling(published: map<string, nat>, stamps: map<string, int>, sent: map<string, nat>)

  const SILENT := Telling(map[], map[], map[])

  function Broadcasts(steps: seq<Step>): Telling
    decreases |steps|, 1
  {
    if steps == [] then SILENT
    else
      var t, st := Broadcasts(steps[..|steps| - 1]), steps[|steps| - 1];
      if st.Broadcast? then
        var active := Run(EMPTY, steps).active;
        Telling(Counts(active), Stamps(active, t.published, t.stamps, st.now), t.sent + Sent(steps))
      else t
  }

  /** The counts the last step sends. */
  function Sent(steps: seq<Step>): map<string, nat>
    requires steps != [] && steps[|steps| - 1].Broadcast?
    decreases |steps|, 0
  {
    var t := Broadcasts(steps[..|steps| - 1]);
    Updates(Run(EMPTY, steps).active, t.published, t.stamps, steps[|steps| - 1].now)
  }

  /** The time of a session's latest beat in the club, if it has not left since. */
  function Latest(steps: seq<Step>, club: string, pk: string): Option<int> {
    if steps == [] then None
    else
      match steps[|steps| - 1]
      case Hear(b) => if b.club == club && b.pk == pk then Some(b.at) else Latest(steps[..|steps| - 1], club, pk)
      case Leave(c, k) => if c == club && k == pk then None else Latest(steps[..|steps| - 1], club, pk)
      case _ => Latest(steps[..|steps| - 1], club, pk)
  }

  /** The sessions whose latest signal is a beat less than seventy seconds old. */
  ghost function Listening(steps: seq<Step>, club: string, now: int): set<string> {
    set b | b in Heard(steps) && b.club == club && IsLive(steps, club, b.pk, now) :: b.pk
  }

  predicate IsLive(steps: seq<Step>, club: string, pk: string, now: int) {
    Latest(steps, club, pk).Some? && now - Latest(steps, club, pk).value < 70_000
  }

  predicate Holds(active: map<string, map<string, int>>, c: string, k: string) {
    c in active && k in active[c]
  }

  /** A held session has its latest beat, and a live one is held. */
  predicate LiveAt(active: map<string, map<string, int>>, steps: seq<Step>, clock: int, c: string, k: string) {
    && (Holds(active, c, k) ==> Latest(steps, c, k) == Some(active[c][k]))
    && (IsLive(steps, c, k, clock) ==> Holds(active, c, k))
  }

  ghost predicate LiveOk(active: map<string, map<string, int>>, steps: seq<Step>, clock: int) {
    && (forall c | c in active :: active[c] != map[])
    && (forall c, k :: LiveAt(active, steps, clock, c, k))
  }

  lemma PruneHolds(active: map<string, map<string, int>>, now: int, c: string, k: string)
    ensures var r := PruneActive(active, now);
            && (Holds(r, c, k) <==> Holds(active, c, k) && now - active[c][k] < ONLINE_MS)
            && (Holds(r, c, k) ==> r[c][k] == active[c][k])
  {
    if c in active && k in active[c] && now - active[c][k] < ONLINE_MS {
      assert k in Online(active[c], now);
    }
  }

  lemma PruneKeepsLive(active: map<string, map<string, int>>, steps: seq<Step>, clock: int, now: int)
    requires LiveOk(active, steps, clock) && clock <= now
    ensures LiveOk(PruneActive(active, now), steps, now)
    ensures LiveOk(active, steps, now)
  {
    hide PruneActive, Latest, Holds;
    PrunedNotEmpty(active, now);
    forall c, k
      ensures LiveAt(active, steps, now, c, k) && LiveAt(PruneActive(active, now), steps, now, c, k)
    {
      assert LiveAt(active, steps, clock, c, k);
      PruneHolds(active, now, c, k);
    }
  }

  lemma RollKeepsLive(s: Stats, steps: seq<Step>, clock: int, now: int)
    requires LiveOk(s.active, steps, clock) && clock <= now
    ensures LiveOk(Roll(s, now).active, steps, now)
  {
    hide LiveOk, TrimSeries, TrimSeen;
    PruneKeepsLive(s.active, steps, clock, now);
  }

  lemma BeatKeepsLive(active: map<string, map<string, int>>, steps: seq<Step>, b: Beat)
    requires LiveOk(active, steps, b.at)
    ensures LiveOk(active[b.club := Get(active, b.club, map[])[b.pk := b.at]], steps + [Hear(b)], b.at)
  {
    hide Latest;
    var next := active[b.club := Get(active, b.club, map[])[b.pk := b.at]];
    assert b.pk in next[b.club];
    forall c, k ensures LiveAt(next, steps + [Hear(b)], b.at, c, k) {
      assert LiveAt(active, steps, b.at, c, k);
      LatestSnoc(steps, Hear(b), c, k);
    }
  }

  lemma LatestSnoc(steps: seq<Step>, st: Step, c: string, k: string)
    ensures Latest(steps + [st], c, k)
         == match st
            case Hear(b) => if b.club == c && b.pk == k then Some(b.at) else Latest(steps, c, k)
            case Leave(x, y) => if x == c && y == k then None else Latest(steps, c, k)
            case _ => Latest(steps, c, k)
  {
    assert (steps + [st])[..|steps|] == steps;
  }

  lemma LeaveKeepsLive(active: map<string, map<string, int>>, steps: seq<Step>, clock: int, club: string, pk: string)
    requires LiveOk(active, steps, clock)
    ensures LiveOk(Removed(active, club, pk), steps + [Leave(club, pk)], clock)
  {
    hide Latest;
    var next := Removed(active, club, pk);
    forall c, k ensures LiveAt(next, steps + [Leave(club, pk)], clock, c, k) {
      assert LiveAt(active, steps, clock, c, k);
      LatestSnoc(steps, Leave(club, pk), c, k);
      if c == club && c in active && k in active[c] && k != pk { assert k in active[c] - {pk}; }
    }
  }

  lemma TimeKeepsLive(active: map<string, map<string, int>>, steps: seq<Step>, now: int, st: Step)
    requires LiveOk(active, steps, now) && (st.Tick? || st.Broadcast?)
    ensures LiveOk(active, steps + [st], now)
  {
    hide Latest;
    forall c, k ensures LiveAt(active, steps + [st], now, c, k) {
      assert LiveAt(active, steps, now, c, k);
      LatestSnoc(steps, st, c, k);
    }
  }

  /** In every legal run the live map is exact up to sessions that have gone silent. */
  lemma {:induction false} RunKeepsLive(steps: seq<Step>)
    requires Legal(steps)
    ensures LiveOk(Run(EMPTY, steps).active, steps, Clock(steps))
  {
    RunKeepsBoth(steps);
  }

  lemma NobodyLive()
    ensures LiveOk(map[], [], BUCKET_MS)
  {
  }

  lemma {:induction false} LatestWasHeard(steps: seq<Step>, c: string, k: string)
    requires Latest(steps, c, k).Some?
    ensures exists b :: b in Heard(steps) && b.club == c && b.pk == k
  {
    var t, st := steps[..|steps| - 1], steps[|steps| - 1];
    if st.Hear? && st.beat.club == c && st.beat.pk == k {
      assert st.beat in Heard(steps);
    } else {
      LatestWasHeard(t, c, k);
      var b :| b in Heard(t) && b.club == c && b.pk == k;
      assert b in Heard(steps);
    }
  }

  /** After a broadcast the live map holds exactly the listening sessions. */
  lemma BroadcastHolds(steps: seq<Step>, c: string)
    requires Legal(steps) && steps != [] && steps[|steps| - 1].Broadcast?
    ensures Get(Run(EMPTY, steps).active, c, map[]).Keys == Listening(steps, c, Clock(steps))
  {
    hide Run, Latest, PruneActive, LiveOk;
    RunKeepsLive(steps);
    var t, now := steps[..|steps| - 1], Clock(steps);
    var active := Run(EMPTY, steps).active;
    RunSnoc(steps);
    forall k ensures k in Get(active, c, map[]) <==> k in Listening(steps, c, now) {
      PruneHolds(Run(EMPTY, t).active, now, c, k);
      LiveHere(active, steps, now, c, k);
      if IsLive(steps, c, k, now) { LatestWasHeard(steps, c, k); }
    }
  }

  lemma RunSnoc(steps: seq<Step>)
    requires steps != []
    ensures Run(EMPTY, steps) == Do(Run(EMPTY, steps[..|steps| - 1]), steps[|steps| - 1])
  {
  }

  lemma LiveHere(active: map<string, map<string, int>>, steps: seq<Step>, clock: int, c: string, k: string)
    requires LiveOk(active, steps, clock)
    ensures LiveAt(active, steps, clock, c, k)
  {
  }

  /** The relay's memory of its broadcasts is right all along a run. */
  lemma {:induction false} RunKeepsTold(steps: seq<Step>)
    requires Legal(steps)
    ensures Told(Broadcasts(steps).sent, Broadcasts(steps).published)
  {
    hide Run, Updates, Stamps, Counts, Told;
    if steps == [] {
      NothingTold();
    } else {
      var t := steps[..|steps| - 1];
      RunKeepsTold(t);
      if steps[|steps| - 1].Broadcast? { OneBroadcast(steps); }
    }
  }

  lemma NothingTold()
    ensures Told(map[], map[])
  {
  }

  lemma OneBroadcast(steps: seq<Step>)
    requires Legal(steps) && steps != [] && steps[|steps| - 1].Broadcast?
    requires Told(Broadcasts(steps[..|steps| - 1]).sent, Broadcasts(steps[..|steps| - 1]).published)
    ensures Told(Broadcasts(steps).sent, Broadcasts(steps).published)
    ensures forall c :: Get(Broadcasts(steps).sent, c, 0) == Count(Run(EMPTY, steps).active, c)
    ensures forall c | c in Sent(steps) && Sent(steps)[c] == 0 :: Get(Broadcasts(steps[..|steps| - 1]).sent, c, 0) > 0
  {
    hide Run, Updates, Stamps, Counts, Told, LiveOk, Legal, Count;
    var b, now, active := Broadcasts(steps[..|steps| - 1]), steps[|steps| - 1].now, Run(EMPTY, steps).active;
    RunKeepsLive(steps);
    NoEmptyClub(active, steps, Clock(steps));
    BroadcastTells(b.sent, active, b.published, b.stamps, now);
  }

  lemma NoEmptyClub(active: map<string, map<string, int>>, steps: seq<Step>, clock: int)
    requires LiveOk(active, steps, clock)
    ensures forall c | c in active :: active[c] != map[]
  {
  }

  lemma BroadcastTells(
    sent: map<string, nat>, active: map<string, map<string, int>>, published: map<string, nat>,
        stamps: map<string, int>, now: int)
    requires Told(sent, published) && forall c | c in active :: active[c] != map[]
    ensures var u := Updates(active, published, stamps, now);
            && (forall c :: Get(sent + u, c, 0) == Count(active, c))
            && Told(sent + u, Counts(active))
            && (forall c | c in u && u[c] == 0 :: Get(sent, c, 0) > 0)
  {
    hide Updates, Counts, Told;
    var u := Updates(active, published, stamps, now);
    forall c
      ensures Get(sent + u, c, 0) == Count(active, c) == Get(Counts(active), c, 0)
      ensures c in u && u[c] == 0 ==> Get(sent, c, 0) > 0
      ensures c in Counts(active) ==> Counts(active)[c] > 0
    {
      ClubIsTold(sent, active, published, stamps, now, c);
    }
    AllTold(sent + u, Counts(active));
  }

  lemma AllTold(sent: map<string, nat>, published: map<string, nat>)
    requires forall c :: Get(sent, c, 0) == Get(published, c, 0)
    requires forall c | c in published :: published[c] > 0
    ensures Told(sent, published)
  {
  }

  /**
    After each broadcast of a run the last count sent to every club is the number of its sessions
    whose latest signal is a beat less than seventy seconds old.
   */
  lemma {:induction false} BroadcastTellsLiveCounts(steps: seq<Step>, c: string)
    requires Legal(steps) && steps != [] && steps[|steps| - 1].Broadcast?
    ensures Get(Broadcasts(steps).sent, c, 0) == |Listening(steps, c, Clock(steps))|
  {
    hide Run, Broadcasts, Told, Listening, Legal, Sent;
    RunKeepsTold(steps);
    LegalPrefix(steps);
    RunKeepsTold(steps[..|steps| - 1]);
    OneBroadcast(steps);
    BroadcastHolds(steps, c);
    CountIsKeys(Run(EMPTY, steps).active, c);
  }

  lemma LegalPrefix(steps: seq<Step>)
    requires Legal(steps) && steps != []
    ensures Legal(steps[..|steps| - 1])
  {
  }

  lemma CountIsKeys(active: map<string, map<string, int>>, c: string)
    ensures Count(active, c) == |Get(active, c, map[]).Keys|
  {
  }

  /** The counts a club was sent in a run, in order. */
  function History(steps: seq<Step>, c: string): seq<nat> {
    if steps == [] then []
    else
      var h := History(steps[..|steps| - 1], c);
      if steps[|steps| - 1].Broadcast? && c in Sent(steps) then h + [Sent(steps)[c]] else h
  }

  /** A zero comes after a positive count only, and `last` is the last count, if any. */
  ghost predicate Alternates(h: seq<nat>, last: nat) {
    && last == (if h == [] then 0 else h[|h| - 1])
    && forall i | 0 <= i < |h| && h[i] == 0 :: i > 0 && h[i - 1] > 0
  }

  lemma NextAlternates(h: seq<nat>, last: nat, n: nat)
    requires Alternates(h, last) && (n == 0 ==> last > 0)
    ensures Alternates(h + [n], n)
  {
  }

  lemma LastIsSent(steps: seq<Step>, c: string)
    requires steps != []
    ensures var t, st := steps[..|steps| - 1], steps[|steps| - 1];
            Get(Broadcasts(steps).sent, c, 0)
            == if st.Broadcast? && c in Sent(steps) then Sent(steps)[c] else Get(Broadcasts(t).sent, c, 0)
  {
    hide Sent, Run, Stamps, Counts;
  }

  /** Zero is sent once per departure: never first, and never twice in a row. */
  lemma {:induction false} ZeroOncePerDeparture(steps: seq<Step>, c: string)
    requires Legal(steps)
    ensures var h := History(steps, c);
            && Get(Broadcasts(steps).sent, c, 0) == (if h == [] then 0 else h[|h| - 1])
            && forall i | 0 <= i < |h| && h[i] == 0 :: i > 0 && h[i - 1] > 0
  {
    HistoryAlternates(steps, c);
  }

  lemma {:induction false} HistoryAlternates(steps: seq<Step>, c: string)
    requires Legal(steps)
    ensures Alternates(History(steps, c), Get(Broadcasts(steps).sent, c, 0))
  {
    hide Sent, Told, Run, Broadcasts, Alternates, Legal, Count;
    if steps == [] {
      NothingHeard(c);
    } else {
      var t := steps[..|steps| - 1];
      LegalPrefix(steps);
      HistoryAlternates(t, c);
      LastIsSent(steps, c);
      if steps[|steps| - 1].Broadcast? && c in Sent(steps) {
        RunKeepsTold(t);
        OneBroadcast(steps);
        NextAlternates(History(t, c), Get(Broadcasts(t).sent, c, 0), Sent(steps)[c]);
      }
    }
  }

  lemma NothingHeard(c: string)
    ensures Alternates([], Get(Broadcasts([]).sent, c, 0))
  {
  }
}
