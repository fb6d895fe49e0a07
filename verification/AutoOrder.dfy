/**
  The Auto-DJ's shuffled order: the cycle being played, the preplanned next cycle, and the preview
  that clients see. `Future` is what the relay has committed to; both operations respect it.
 */
module AutoOrder {

  datatype Auto = Auto(order: seq<int>, next: seq<int>, idx: int)

  /** The swaps one call of the random source makes. */
  type Swaps = seq<(nat, nat)>

  /** Every index below `n`, each exactly once. */
  ghost predicate IsOrder(o: seq<int>, n: nat) {
    && |o| == n
    && (forall i | 0 <= i < n :: 0 <= o[i] < n)
    && (forall i, j | 0 <= i < j < n :: o[i] != o[j])
    && (forall v | 0 <= v < n :: v in o)
  }

  predicate InRange(o: seq<int>, n: nat) {
    forall i | 0 <= i < |o| :: 0 <= o[i] < n
  }

  ghost predicate Ready(s: Auto, n: nat) {
    && 0 <= s.idx < n && IsOrder(s.order, n)
    && (|s.next| == n ==> IsOrder(s.next, n))
  }

  function Identity(n: nat): (o: seq<int>)
    ensures |o| == n && forall i | 0 <= i < n :: o[i] == i
  {
    seq(n, i => i)
  }

  function Swap(o: seq<int>, s: (nat, nat)): seq<int> {
    if s.0 < |o| && s.1 < |o| then o[s.0 := o[s.1]][s.1 := o[s.0]] else o
  }

  function Swapped(o: seq<int>, swaps: Swaps): seq<int> {
    if swaps == [] then o else Swap(Swapped(o, swaps[..|swaps| - 1]), swaps[|swaps| - 1])
  }

  function Shuffled(n: nat, swaps: Swaps): seq<int> {
    Swapped(Identity(n), swaps)
  }

  lemma SwapKeepsOrder(o: seq<int>, n: nat, s: (nat, nat))
    requires IsOrder(o, n)
    ensures IsOrder(Swap(o, s), n)
  {
    var r := Swap(o, s);
    forall v | 0 <= v < n ensures v in r {
      assert v in o;
      var i :| 0 <= i < n && o[i] == v;
      assert r[if i == s.0 && s.1 < n then s.1 else if i == s.1 && s.0 < n then s.0 else i] == v;
    }
  }

  /** Whatever the random source does, the result plays every index exactly once. */
  lemma {:induction false} ShuffledIsOrder(n: nat, swaps: Swaps)
    ensures IsOrder(Shuffled(n, swaps), n)
    decreases |swaps|
  {
    if swaps == [] {
      forall v | 0 <= v < n ensures v in Identity(n) {
        assert Identity(n)[v] == v;
      }
    } else {
      ShuffledIsOrder(n, swaps[..|swaps| - 1]);
      SwapKeepsOrder(Shuffled(n, swaps[..|swaps| - 1]), n, swaps[|swaps| - 1]);
    }
  }

  method MakeShuffledOrder(n: nat, swaps: Swaps) returns (r: seq<int>)
    ensures r == Shuffled(n, swaps) && IsOrder(r, n)
  {
    var order := new int[n];
    for i := 0 to n
      invariant forall k | 0 <= k < i :: order[k] == k
    {
      order[i] := i;
    }
    assert order[..] == Identity(n);
    for k := 0 to |swaps|
      invariant order[..] == Swapped(Identity(n), swaps[..k])
    {
      var i, j := swaps[k].0, swaps[k].1;
      ghost var was := order[..];
      if i < n && j < n {
        order[i], order[j] := order[j], order[i];
      }
      assert order[..] == Swap(was, swaps[k]);
      assert swaps[..k + 1][..k] == swaps[..k];
    }
    assert swaps[..|swaps|] == swaps;
    ShuffledIsOrder(n, swaps);
    return order[..];
  }

  // ── the two operations as functions ─────────────────────────────────────────

  function Advance(s: Auto, n: nat, swaps: Swaps): Auto {
    if s.idx + 1 < n then s.(idx := s.idx + 1)
    else Auto(if |s.next| == n then s.next else Shuffled(n, swaps), [], 0)
  }

  predicate CanAnnounce(s: Auto, n: nat, max: int) {
    max > 0 && n > 0 && |s.order| == n && 0 <= s.idx < n
  }

  /** A preview that runs past the cycle plans the next one, once. */
  function Announce(s: Auto, n: nat, max: int, swaps: Swaps): Auto {
    if CanAnnounce(s, n, max) && n - 1 - s.idx < max && |s.next| != n
    then s.(next := Shuffled(n, swaps)) else s
  }

  /** The indices the relay has committed to play after the current one. */
  function Future(s: Auto, n: nat): seq<int>
    requires |s.order| == n && 0 <= s.idx < n
  {
    s.order[s.idx + 1..] + if |s.next| == n then s.next else []
  }

  function Upcoming(s: Auto, n: nat, max: int): seq<int> {
    if CanAnnounce(s, n, max) then
      if |Future(s, n)| <= max then Future(s, n) else Future(s, n)[..max]
    else []
  }

  function Current(s: Auto): int
    requires 0 <= s.idx < |s.order|
  {
    s.order[s.idx]
  }

  // ── runs ────────────────────────────────────────────────────────────────────

  datatype Op = Next(swaps: Swaps) | Show(max: int, swaps: Swaps)

  function Apply(s: Auto, n: nat, op: Op): Auto {
    match op
    case Next(swaps) => Advance(s, n, swaps)
    case Show(max, swaps) => Announce(s, n, max, swaps)
  }

  /** The index current after each advance of a run of advances and previews. */
  ghost function Played(s: Auto, n: nat, ops: seq<Op>): seq<int>
    requires Ready(s, n)
    decreases |ops|
  {
    if ops == [] then []
    else
      ApplyReady(s, n, ops[0]);
      var t := Apply(s, n, ops[0]);
      (if ops[0].Next? then [Current(t)] else []) + Played(t, n, ops[1..])
  }

  lemma ApplyReady(s: Auto, n: nat, op: Op)
    requires Ready(s, n)
    ensures Ready(Apply(s, n, op), n)
  {
    ShuffledIsOrder(n, op.swaps);
  }

  predicate Prefix(a: seq<int>, b: seq<int>) {
    a <= b || b <= a
  }

  lemma ShowKeepsFuture(s: Auto, n: nat, max: int, swaps: Swaps)
    requires Ready(s, n)
    ensures var t := Announce(s, n, max, swaps);
            |t.order| == n && 0 <= t.idx < n && Future(s, n) <= Future(t, n)
  {
  }

  lemma NextTakesFuture(s: Auto, n: nat, swaps: Swaps)
    requires Ready(s, n)
    ensures var t := Advance(s, n, swaps);
            && |t.order| == n && 0 <= t.idx < n
            && (Future(s, n) != [] ==> Future(s, n) <= [Current(t)] + Future(t, n))
  {
    ShuffledIsOrder(n, swaps);
    if s.idx + 1 < n {
      assert s.order[s.idx + 1..] == [s.order[s.idx + 1]] + s.order[s.idx + 2..];
    }
  }

  /** What a run plays is what was committed before it, for as long as the commitment reaches. */
  lemma {:induction false} FutureIsPlayed(s: Auto, n: nat, ops: seq<Op>)
    requires Ready(s, n)
    ensures Prefix(Played(s, n, ops), Future(s, n))
    decreases |ops|
  {
    hide Future, Advance, Announce;
    if ops != [] {
      var t := Apply(s, n, ops[0]);
      ApplyReady(s, n, ops[0]);
      FutureIsPlayed(t, n, ops[1..]);
      match ops[0]
      case Show(max, swaps) =>
        ShowKeepsFuture(s, n, max, swaps);
      case Next(swaps) =>
        NextTakesFuture(s, n, swaps);
        PrefixCons(Current(t), Played(t, n, ops[1..]), Future(t, n));
    }
  }

  lemma PrefixCons(x: int, a: seq<int>, b: seq<int>)
    requires Prefix(a, b)
    ensures Prefix([x] + a, [x] + b)
  {
  }

  /**
    Entry i of a preview is the track current after i + 1 advances, across the cycle boundary and
    with any further previews in between; the preview has the full length it was asked for unless
    that exceeds both planned cycles.
   */
  lemma AnnouncedIsPlayed(s: Auto, n: nat, max: int, swaps: Swaps, ops: seq<Op>, i: nat)
    requires Ready(s, n) && max > 0
    ensures Ready(Announce(s, n, max, swaps), n)
    ensures var t := Announce(s, n, max, swaps);
            && (max <= 2 * n - 1 - s.idx ==> |Upcoming(t, n, max)| == max)
            && (i < |Upcoming(t, n, max)| && i < |Played(t, n, ops)|
                ==> Played(t, n, ops)[i] == Upcoming(t, n, max)[i])
  {
    hide Played, Announce;
    ApplyReady(s, n, Show(max, swaps));
    AnnounceReaches(s, n, max, swaps);
    FutureIsPlayed(Announce(s, n, max, swaps), n, ops);
  }

  lemma AnnounceReaches(s: Auto, n: nat, max: int, swaps: Swaps)
    requires Ready(s, n) && max > 0
    ensures var t := Announce(s, n, max, swaps);
            && t.idx == s.idx && |t.order| == n
            && (max <= 2 * n - 1 - s.idx ==> |Future(t, n)| >= max)
  {
    ShuffledIsOrder(n, swaps);
  }

  function Advances(ops: seq<Op>): nat {
    if ops == [] then 0 else (if ops[0].Next? then 1 else 0) + Advances(ops[1..])
  }

  lemma {:induction false} PlayedLength(s: Auto, n: nat, ops: seq<Op>)
    requires Ready(s, n)
    ensures |Played(s, n, ops)| == Advances(ops)
    decreases |ops|
  {
    if ops != [] {
      ApplyReady(s, n, ops[0]);
      PlayedLength(Apply(s, n, ops[0]), n, ops[1..]);
    }
  }

  /** A cycle, played from its first track, plays every index exactly once. */
  lemma CyclePlaysEveryIndex(s: Auto, n: nat, ops: seq<Op>)
    requires Ready(s, n) && s.idx == 0 && Advances(ops) == n - 1
    ensures IsOrder([Current(s)] + Played(s, n, ops), n)
  {
    FutureIsPlayed(s, n, ops);
    PlayedLength(s, n, ops);
    var f := Future(s, n);
    assert f[..n - 1] == s.order[1..];
    assert Played(s, n, ops) == f[..n - 1];
    assert [Current(s)] + s.order[1..] == s.order;
  }
}
