/**
  Vibe reactions of one club: who may vote on what, the capped counters per position, and why the
  counters are the capped number of reactions the running track really received.
 */
module Moods {
  import opened Wrappers

  const BANGER_MAX := 5
  const SKIP_THRESHOLD := 3

  /** A vibe event; the position is absent when it is not a number. */
  datatype Reaction = Reaction(pos: Option<int>, vote: string, voter: string)

  /** What is playing: its position and its DJ. */
  datatype Air = Air(pos: int, dj: string)

  type Counters = map<int, map<string, int>>

  datatype Mood = Mood(bangers: Counters, skips: Counters)

  predicate Eligible(r: Reaction, air: Option<Air>) {
    && (r.vote == "banger" || r.vote == "skip")
    && r.pos.Some? && r.pos.value >= 0
    && air.Some? && air.value.pos == r.pos.value && air.value.dj != r.voter
  }

  // ── totals ──────────────────────────────────────────────────────────────────

  ghost function Total(m: map<string, int>): int
    decreases |m|
  {
    if m == map[] then 0
    else
      var k :| k in m;
      m[k] + Total(m - {k})
  }

  /** The total does not depend on the order in which the voters are visited. */
  lemma {:induction false} TotalAny(m: map<string, int>, k: string)
    requires k in m
    ensures Total(m) == m[k] + Total(m - {k})
    decreases |m|
  {
    var j :| j in m && Total(m) == m[j] + Total(m - {j});
    if j != k {
      TotalAny(m - {j}, k);
      TotalAny(m - {k}, j);
      assert m - {j} - {k} == m - {k} - {j};
    }
  }

  lemma TotalBump(m: map<string, int>, k: string)
    ensures Total(m[k := (if k in m then m[k] else 0) + 1]) == Total(m) + 1
  {
    var n := m[k := (if k in m then m[k] else 0) + 1];
    TotalAny(n, k);
    if k in m {
      TotalAny(m, k);
      assert n - {k} == m - {k};
    } else {
      assert n - {k} == m;
    }
  }

  ghost function Votes(c: Counters, pos: int): int {
    if pos in c then Total(c[pos]) else 0
  }

  // ── one reaction ────────────────────────────────────────────────────────────

  ghost function Counted(c: Counters, pos: int, voter: string, max: int): Counters {
    var m := if pos in c then c[pos] else map[];
    c[pos := if Total(m) < max then m[voter := (if voter in m then m[voter] else 0) + 1] else m]
  }

  ghost function Reacted(b: Mood, r: Reaction, air: Option<Air>): Mood {
    if !Eligible(r, air) then b
    else if r.vote == "banger" then b.(bangers := Counted(b.bangers, r.pos.value, r.voter, BANGER_MAX))
    else b.(skips := Counted(b.skips, r.pos.value, r.voter, SKIP_THRESHOLD))
  }

  function Pruned(b: Mood, pos: int): Mood {
    Mood(map p | p in b.bangers && p >= pos - 2 :: b.bangers[p], map p | p in b.skips && p >= pos - 2 :: b.skips[p])
  }

  class MoodBox {
    var moods: Counters
    var skipCounts: Counters

    function View(): Mood
      reads this
    {
      Mood(moods, skipCounts)
    }

    constructor ()
      ensures View() == Mood(map[], map[])
    {
      moods, skipCounts := map[], map[];
    }

    method ObserveMood(r: Reaction, air: Option<Air>)
      modifies this
      ensures View() == Reacted(old(View()), r, air)
    {
      if r.vote != "banger" && r.vote != "skip" {
        return;
      }
      if r.pos.None? || r.pos.value < 0 {
        return;
      }
      var pos := r.pos.value;
      var current := air.Some? && air.value.pos == pos;
      if !current || air.value.dj == r.voter {
        return;
      }
      if r.vote == "banger" {
        if pos !in moods {
          moods := moods[pos := map[]];
        }
        var total := Sum(moods[pos]);
        if total < BANGER_MAX {
          moods := moods[pos := Bumped(moods[pos], r.voter)];
        }
      } else {
        if pos !in skipCounts {
          skipCounts := skipCounts[pos := map[]];
        }
        var total := Sum(skipCounts[pos]);
        if total < SKIP_THRESHOLD {
          skipCounts := skipCounts[pos := Bumped(skipCounts[pos], r.voter)];
        }
      }
    }

    method MoodCounts(pos: int) returns (bangers: int, skips: int)
      ensures bangers == Min(Votes(moods, pos), BANGER_MAX) && skips == Min(Votes(skipCounts, pos), SKIP_THRESHOLD)
    {
      bangers, skips := 0, 0;
      if pos in moods {
        bangers := Sum(moods[pos]);
      }
      if pos in skipCounts {
        skips := Sum(skipCounts[pos]);
      }
      bangers := Min(bangers, BANGER_MAX);
      skips := Min(skips, SKIP_THRESHOLD);
    }

    /** Dropped when a new position starts. */
    method Prune(pos: int)
      modifies this
      ensures View() == Pruned(old(View()), pos)
    {
      moods := map p | p in moods && p >= pos - 2 :: moods[p];
      skipCounts := map p | p in skipCounts && p >= pos - 2 :: skipCounts[p];
    }
  }

  function Min(a: int, b: int): int {
    if a < b then a else b
  }

  function Bumped(m: map<string, int>, voter: string): map<string, int> {
    m[voter := (if voter in m then m[voter] else 0) + 1]
  }

  method Sum(m: map<string, int>) returns (total: int)
    ensures total == Total(m)
  {
    total := 0;
    var rest := m;
    while rest != map[]
      invariant total + Total(rest) == Total(m)
      decreases |rest|
    {
      var k :| k in rest;
      TotalAny(rest, k);
      total := total + rest[k];
      rest := rest - {k};
    }
  }

  // ── runs ────────────────────────────────────────────────────────────────────

  datatype Event = Voted(reaction: Reaction, air: Option<Air>) | NewTrack(pos: int)

  ghost function Run(es: seq<Event>): Mood {
    if es == [] then Mood(map[], map[])
    else
      match es[|es| - 1]
      case Voted(r, air) => Reacted(Run(es[..|es| - 1]), r, air)
      case NewTrack(pos) => Pruned(Run(es[..|es| - 1]), pos)
  }

  /** A reaction of this kind to this track, while it was playing, by somebody else than its DJ. */
  predicate Cast(e: Event, vote: string, pos: int) {
    && e.Voted? && e.reaction.vote == vote && e.reaction.pos == Some(pos) && pos >= 0
    && e.air.Some? && e.air.value.pos == pos && e.air.value.dj != e.reaction.voter
  }

  /** How many such reactions the position received. */
  function Received(es: seq<Event>, vote: string, pos: int): nat {
    if es == [] then 0
    else
      Received(es[..|es| - 1], vote, pos) + if Cast(es[|es| - 1], vote, pos) then 1 else 0
  }

  predicate Kept(es: seq<Event>, pos: int) {
    forall e | e in es && e.NewTrack? :: pos >= e.pos - 2
  }

  lemma CountedVotes(c: Counters, pos: int, voter: string, max: int, p: int)
    ensures Votes(Counted(c, pos, voter, max), p) == if p == pos && Votes(c, p) < max then Votes(c, p) + 1
         else Votes(c, p)
  {
    if p == pos { TotalBump(if pos in c then c[pos] else map[], voter); }
  }

  /**
    As long as a position has not been pruned its counters are the capped numbers of reactions it
    received from others than its own DJ while it was playing.
   */
  lemma {:induction false} CountersAreCappedTallies(es: seq<Event>, pos: int)
    requires Kept(es, pos)
    ensures Votes(Run(es).bangers, pos) == Min(Received(es, "banger", pos), 5)
    ensures Votes(Run(es).skips, pos) == Min(Received(es, "skip", pos), 3)
  {
    hide Total, Counted;
    if es == [] {
      NoVotes(pos);
    } else {
      var t, e := es[..|es| - 1], es[|es| - 1];
      assert e in es && forall x | x in t :: x in es;
      CountersAreCappedTallies(t, pos);
      match e
      case NewTrack(_) => {}
      case Voted(r, air) =>
        if Eligible(r, air) {
          CountedVotes(Run(t).bangers, r.pos.value, r.voter, BANGER_MAX, pos);
          CountedVotes(Run(t).skips, r.pos.value, r.voter, SKIP_THRESHOLD, pos);
        }
    }
  }

  lemma NoVotes(pos: int)
    ensures Votes(map[], pos) == 0
  {
  }
}
