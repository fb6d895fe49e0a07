/**
  Fair rotation: the relay's `fairNext` and the client's `fairSequence` look-ahead.

  A matrix holds one row per stage DJ; a true cell is a track that may be played. `Pick` says
  which cell a turn takes, `Picks` iterates it while clearing the cells it took, and the lemmas
  state what that iteration guarantees to the DJs and to the preview.
 */
module RoundRobin {
  import opened Wrappers

  type Matrix = seq<seq<bool>>

  datatype Slot = Slot(dj: nat, track: nat)

  // ── vocabulary ──────────────────────────────────────────────────────────────

  /** The row of DJ `i`; a matrix may have fewer rows than there are DJs. */
  function Row(m: Matrix, i: nat): seq<bool> {
    if i < |m| then m[i] else []
  }

  predicate Playable(m: Matrix, s: Slot) {
    s.dj < |m| && s.track < |m[s.dj]| && m[s.dj][s.track]
  }

  predicate HasTrack(m: Matrix, i: nat) {
    true in Row(m, i)
  }

  /** The DJ asked first after `last`, for any integer `last` (-1 or out of range included). */
  function Start(n: nat, last: int): (r: nat)
    requires n > 0
    ensures r < n
    ensures -1 <= last < n ==> r == if last + 1 == n then 0 else last + 1
  {
    (last + 1) % n
  }

  /** How many turns after `last` DJ `i` is asked: 0 for the next one, n-1 for `last` itself. */
  function Turns(n: nat, last: int, i: nat): (d: nat)
    requires i < n
    ensures d < n
  {
    if i >= Start(n, last) then i - Start(n, last) else i - Start(n, last) + n
  }

  /** The playable cells of the first `n` rows. */
  ghost function Cells(n: nat, m: Matrix): set<Slot> {
    set i: nat, j: nat | i < n && i < |m| && j < |m[i]| && m[i][j] :: Slot(i, j)
  }

  function Clear(m: Matrix, s: Slot): (r: Matrix)
    requires Playable(m, s)
    ensures |r| == |m| && forall i: nat | i < |m| :: |r[i]| == |m[i]|
    ensures forall t: Slot :: Playable(r, t) <==> Playable(m, t) && t != s
  {
    m[s.dj := m[s.dj][s.track := false]]
  }

  /**
    What one turn must take: a playable cell of a real DJ, the first of that DJ's row, with every
    DJ asked earlier having nothing to offer.
   */
  ghost predicate IsPick(n: nat, last: int, m: Matrix, s: Slot) {
    && s.dj < n && Playable(m, s)
    && (forall j: nat | j < s.track :: !m[s.dj][j])
    && (forall i: nat | i < n && Turns(n, last, i) < Turns(n, last, s.dj) :: !HasTrack(m, i))
  }

  // ── the choice as a function ────────────────────────────────────────────────

  function FirstTrack(row: seq<bool>): (r: Option<nat>)
    ensures r.None? <==> true !in row
    ensures r.Some? ==> r.value < |row| && row[r.value] && forall j | 0 <= j < r.value :: !row[j]
  {
    if row == [] then None
    else if row[0] then Some(0)
    else match FirstTrack(row[1..]) case None => None case Some(k) => Some(k + 1)
  }

  function DjAt(n: nat, last: int, turn: nat): (i: nat)
    requires turn < n
    ensures i < n && Turns(n, last, i) == turn
  {
    if Start(n, last) + turn < n then Start(n, last) + turn else Start(n, last) + turn - n
  }

  lemma MultipleNotSmall(n: nat, x: int)
    ensures x >= 1 ==> n * x >= n
    ensures x <= -1 ==> n * x + n <= 0
  {
    assert n * x == n * (x - 1) + n && n * x + n == n * (x + 1);
  }

  lemma {:induction false} DivUnique(a: int, n: nat, q: int, r: nat)
    requires r < n && a == n * q + r
    ensures a / n == q && a % n == r
  {
    var q', r' := a / n, a % n;
    assert a == n * q' + r';
    assert n * (q - q') == r' - r;
    MultipleNotSmall(n, q - q');
  }

  lemma {:induction false} ModMultiple(x: nat, q: int, n: nat)
    requires x < n
    ensures (x + n * q) % n == x
  {
    DivUnique(x + n * q, n, q, x);
  }

  /** Both sources reach the DJ of a turn by one remainder of `last + 1 + turn`. */
  lemma {:induction false} DjAtByRemainder(n: nat, last: int, turn: nat)
    requires turn < n
    ensures (last + 1 + turn) % n == DjAt(n, last, turn)
  {
    var q := (last + 1) / n;
    if Start(n, last) + turn < n {
      DivUnique(last + 1 + turn, n, q, Start(n, last) + turn);
    } else {
      assert n * (q + 1) == n * q + n;
      DivUnique(last + 1 + turn, n, q + 1, Start(n, last) + turn - n);
    }
  }

  function PickFrom(n: nat, last: int, m: Matrix, turn: nat): Option<Slot>
    requires turn <= n
    decreases n - turn
  {
    if turn == n then None
    else
      var i := DjAt(n, last, turn);
      match FirstTrack(Row(m, i))
      case Some(t) => Some(Slot(i, t))
      case None => PickFrom(n, last, m, turn + 1)
  }

  lemma {:induction false} TurnPasses(n: nat, last: int, m: Matrix, turn: nat, i: nat)
    requires turn < n && i == (last + 1 + turn) % n && !HasTrack(m, i)
    ensures PickFrom(n, last, m, turn) == PickFrom(n, last, m, turn + 1)
  {
    DjAtByRemainder(n, last, turn);
  }

  lemma {:induction false} TurnTakes(n: nat, last: int, m: Matrix, turn: nat, s: Slot)
    requires turn < n && s.dj == (last + 1 + turn) % n
    requires Playable(m, s) && forall j: nat | j < s.track :: !m[s.dj][j]
    ensures PickFrom(n, last, m, turn) == Some(s)
  {
    DjAtByRemainder(n, last, turn);
    assert m[s.dj][s.track];
  }

  lemma NoTurnLeft(n: nat, last: int, m: Matrix)
    ensures PickFrom(n, last, m, n) == None
  {
  }

  /** The cell the next turn takes, asking the DJs in order after `last`. */
  function Pick(n: nat, last: int, m: Matrix): Option<Slot> {
    PickFrom(n, last, m, 0)
  }

  lemma {:induction false} PickFromMeets(n: nat, last: int, m: Matrix, turn: nat)
    requires turn <= n
    requires forall i: nat | i < n && Turns(n, last, i) < turn :: !HasTrack(m, i)
    ensures var r := PickFrom(n, last, m, turn);
            match r
            case Some(s) => IsPick(n, last, m, s)
            case None => forall i: nat | i < n :: !HasTrack(m, i)
    decreases n - turn
  {
    if turn < n {
      var d := DjAt(n, last, turn);
      if FirstTrack(Row(m, d)).None? {
        forall i: nat | i < n && Turns(n, last, i) < turn + 1 ensures !HasTrack(m, i) {
          assert Turns(n, last, i) == turn ==> i == d;
        }
        PickFromMeets(n, last, m, turn + 1);
      }
    }
  }

  /** A turn finds a cell exactly when some DJ has one, and then it is the one the rules name. */
  lemma PickMeets(n: nat, last: int, m: Matrix)
    ensures Pick(n, last, m).None? <==> forall i: nat | i < n :: !HasTrack(m, i)
    ensures Pick(n, last, m).Some? ==> IsPick(n, last, m, Pick(n, last, m).value)
  {
    PickFromMeets(n, last, m, 0);
    if Pick(n, last, m).Some? {
      var s := Pick(n, last, m).value;
      assert m[s.dj][s.track];
      assert HasTrack(m, s.dj);
    }
  }

  /** The rules name at most one cell. */
  lemma PickIsUnique(n: nat, last: int, m: Matrix, a: Slot, b: Slot)
    requires IsPick(n, last, m, a) && IsPick(n, last, m, b)
    ensures a == b
  {
    assert m[a.dj][a.track] && m[b.dj][b.track];
    assert HasTrack(m, a.dj) && HasTrack(m, b.dj);
  }

  // ── relay/roundrobin.go ─────────────────────────────────────────────────────

  function Index(s: seq<string>, v: string): (r: int)
    ensures -1 <= r < |s|
    ensures r >= 0 ==> s[r] == v && v !in s[..r]
    ensures r < 0 ==> v !in s
  {
    if s == [] then -1
    else if s[0] == v then 0
    else var k := Index(s[1..], v); if k < 0 then -1 else k + 1
  }

  lemma IndexUnique(s: seq<string>, v: string, i: nat)
    requires i < |s| && s[i] == v && v !in s[..i]
    ensures Index(s, v) == i
  {
    var k := Index(s, v);
    assert forall j | 0 <= j < i :: s[..i][j] == s[j];
    assert k >= 0 ==> forall j | 0 <= j < k :: s[..k][j] == s[j];
  }

  lemma IndexDistinct(s: seq<string>, i: nat)
    requires i < |s| && forall a, b | 0 <= a < b < |s| :: s[a] != s[b]
    ensures Index(s, s[i]) == i
  {
    IndexUnique(s, s[i], i);
  }

  method IndexOf(s: seq<string>, v: string) returns (r: int)
    ensures r == Index(s, v)
  {
    for i := 0 to |s|
      invariant v !in s[..i]
    {
      if s[i] == v {
        IndexUnique(s, v, i);
        return i;
      }
    }
    assert s[..|s|] == s;
    return -1;
  }

  /** The relay's choice of the next (DJ, track); (-1, -1) when nothing is playable. */
  method FairNext(djPks: seq<string>, lastDJ: string, playable: Matrix) returns (di: int, ti: int)
    ensures di == -1 <==> ti == -1
    ensures di == -1 <==> forall i: nat | i < |djPks| :: !HasTrack(playable, i)
    ensures di != -1 ==> di >= 0 && ti >= 0
    ensures di != -1 ==> IsPick(|djPks|, Index(djPks, lastDJ), playable, Slot(di, ti))
    ensures Pick(|djPks|, Index(djPks, lastDJ), playable)
         == if di == -1 then None else Some(Slot(di, ti))
  {
    hide PickFrom, Start, Turns;
    var n := |djPks|;
    ghost var last := Index(djPks, lastDJ);
    PickMeets(n, last, playable);
    if n == 0 {
      return -1, -1;
    }
    var start := IndexOf(djPks, lastDJ);
    start := start + 1;
    for off := 0 to n
      invariant Pick(n, last, playable) == PickFrom(n, last, playable, off)
    {
      var d := (start + off) % n;
      if d >= |playable| {
        TurnPasses(n, last, playable, off, d);
        continue;
      }
      for t := 0 to |playable[d]|
        invariant forall j | 0 <= j < t :: !playable[d][j]
      {
        if playable[d][t] {
          TurnTakes(n, last, playable, off, Slot(d, t));
          return d, t;
        }
      }
      TurnPasses(n, last, playable, off, d);
    }
    NoTurnLeft(n, last, playable);
    return -1, -1;
  }

  // ── iterating the rotation ──────────────────────────────────────────────────

  /** The first `count` turns, each clearing the cell it takes; shorter when nothing is left. */
  function Picks(n: nat, last: int, m: Matrix, count: nat): (r: seq<Slot>)
    ensures |r| <= count
    decreases count
  {
    if count == 0 then []
    else
      PickMeets(n, last, m);
      match Pick(n, last, m)
      case None => []
      case Some(s) => [s] + Picks(n, s.dj, Clear(m, s), count - 1)
  }

  /** The matrix those turns leave behind. */
  function Left(n: nat, last: int, m: Matrix, count: nat): Matrix
    decreases count
  {
    if count == 0 then m
    else
      PickMeets(n, last, m);
      match Pick(n, last, m)
      case None => m
      case Some(s) => Left(n, s.dj, Clear(m, s), count - 1)
  }

  lemma NoTurns(n: nat, last: int, m: Matrix)
    ensures Picks(n, last, m, 0) == [] && Left(n, last, m, 0) == m
    ensures LastDj(last, []) == last && forall i :: TurnsOf([], i) == 0
  {
  }

  /** One turn of the iteration: nothing left, or the named cell followed by the turns after it. */
  lemma OneTurn(n: nat, last: int, m: Matrix, count: nat)
    requires count > 0
    ensures Pick(n, last, m).None? ==> Picks(n, last, m, count) == [] && Left(n, last, m, count) == m
                                       && Cells(n, m) == {}
    ensures Pick(n, last, m).Some? ==>
              var s := Pick(n, last, m).value;
              && IsPick(n, last, m, s)
              && Picks(n, last, m, count) == [s] + Picks(n, s.dj, Clear(m, s), count - 1)
              && Left(n, last, m, count) == Left(n, s.dj, Clear(m, s), count - 1)
  {
    PickMeets(n, last, m);
    if Pick(n, last, m).None? { NoTrackNoCells(n, m); }
  }

  function LastDj(last: int, picks: seq<Slot>): int {
    if picks == [] then last else picks[|picks| - 1].dj
  }

  function TurnsOf(picks: seq<Slot>, i: nat): nat {
    if picks == [] then 0 else (if picks[0].dj == i then 1 else 0) + TurnsOf(picks[1..], i)
  }

  lemma ClearShrinksCells(n: nat, m: Matrix, s: Slot)
    requires s.dj < n && Playable(m, s)
    ensures s in Cells(n, m)
    ensures Cells(n, Clear(m, s)) == Cells(n, m) - {s}
    ensures |Cells(n, Clear(m, s))| == |Cells(n, m)| - 1
  {
    var r := Clear(m, s);
    assert forall t: Slot :: t in Cells(n, m) <==> t.dj < n && Playable(m, t);
    assert forall t: Slot :: t in Cells(n, r) <==> t.dj < n && Playable(r, t);
    assert Cells(n, r) == Cells(n, m) - {s};
  }

  lemma NoTrackNoCells(n: nat, m: Matrix)
    requires forall i: nat | i < n :: !HasTrack(m, i)
    ensures Cells(n, m) == {}
  {
    if s :| s in Cells(n, m) {
      assert m[s.dj][s.track];
      assert HasTrack(m, s.dj);
    }
  }

  /**
    Iterating takes each playable cell exactly once: the cells taken are distinct, they and the
    cells left over partition the original ones, and there are min(count, cells) of them.
   */
  lemma {:induction false} PicksPartitionCells(n: nat, last: int, m: Matrix, count: nat)
    ensures var p, rest := Picks(n, last, m, count), Cells(n, Left(n, last, m, count));
            && (forall a, b | 0 <= a < b < |p| :: p[a] != p[b])
            && (forall s :: s in Cells(n, m) <==> s in p || s in rest)
            && (forall s | s in p :: s !in rest)
            && |p| == (if count <= |Cells(n, m)| then count else |Cells(n, m)|)
            && (|p| < count ==> rest == {})
    decreases count
  {
    hide Pick, Picks, Left, Start, Turns;
    NoTurns(n, last, m);
    if count > 0 {
      OneTurn(n, last, m, count);
      match Pick(n, last, m)
      case None =>
      case Some(s) =>
        ClearShrinksCells(n, m, s);
        PicksPartitionCells(n, s.dj, Clear(m, s), count - 1);
    }
  }

  /** Within one DJ the tracks come in queue order. */
  lemma {:induction false} PicksKeepQueueOrder(n: nat, last: int, m: Matrix, count: nat, a: nat, b: nat)
    requires a < b < |Picks(n, last, m, count)|
    requires Picks(n, last, m, count)[a].dj == Picks(n, last, m, count)[b].dj
    ensures Picks(n, last, m, count)[a].track < Picks(n, last, m, count)[b].track
    decreases count
  {
    hide Pick, Picks, Left, Start, Turns;
    OneTurn(n, last, m, count);
    var s := Pick(n, last, m).value;
    var q := Picks(n, s.dj, Clear(m, s), count - 1);
    if a > 0 {
      PicksKeepQueueOrder(n, s.dj, Clear(m, s), count - 1, a - 1, b - 1);
    } else {
      PicksPartitionCells(n, s.dj, Clear(m, s), count - 1);
      assert q[b - 1] in Cells(n, Clear(m, s));
      assert Playable(Clear(m, s), q[b - 1]);
    }
  }

  // ── fairness ────────────────────────────────────────────────────────────────

  /** 0 when, of the two, `i` is asked before `j`; 1 otherwise. */
  function Behind(n: nat, last: int, i: nat, j: nat): int
    requires i < n && j < n
  {
    if Turns(n, last, i) < Turns(n, last, j) then 0 else 1
  }

  /** Once `k` has played, everyone asked after `k` moves up and `k` itself goes to the back. */
  lemma TurnTaken(n: nat, last: int, k: nat, i: nat)
    requires k < n && i < n
    ensures Turns(n, last, k) < Turns(n, last, i)
            ==> Turns(n, k, i) == Turns(n, last, i) - Turns(n, last, k) - 1
    ensures i == k <==> Turns(n, k, i) == n - 1
  {
  }

  lemma {:induction false} OnlyClears(n: nat, last: int, m: Matrix, count: nat, i: nat)
    requires HasTrack(Left(n, last, m, count), i)
    ensures HasTrack(m, i)
    decreases count
  {
    hide Pick, Picks, Left, Start, Turns;
    NoTurns(n, last, m);
    if count > 0 {
      OneTurn(n, last, m, count);
      match Pick(n, last, m)
      case None =>
      case Some(s) =>
        OnlyClears(n, s.dj, Clear(m, s), count - 1, i);
        var j :| 0 <= j < |Row(Clear(m, s), i)| && Row(Clear(m, s), i)[j];
        assert Playable(Clear(m, s), Slot(i, j));
        assert Playable(m, Slot(i, j));
        assert Row(m, i)[j];
    }
  }

  lemma TurnsOfCons(s: Slot, q: seq<Slot>, i: nat)
    ensures TurnsOf([s] + q, i) == (if s.dj == i then 1 else 0) + TurnsOf(q, i)
  {
    assert ([s] + q)[1..] == q;
  }

  lemma LastDjCons(last: int, s: Slot, q: seq<Slot>)
    ensures LastDj(last, [s] + q) == LastDj(s.dj, q)
  {
  }

  /** A turn moves the picked one of two playable DJs behind the other and leaves other pairs alone. */
  lemma BehindAfter(n: nat, last: int, m: Matrix, s: Slot, i: nat, j: nat)
    requires i < n && j < n && i != j && HasTrack(m, i) && HasTrack(m, j)
    requires IsPick(n, last, m, s)
    ensures (if s.dj == i then 1 else 0) - (if s.dj == j then 1 else 0)
         == Behind(n, s.dj, i, j) - Behind(n, last, i, j)
  {
    TurnTaken(n, last, s.dj, i);
    TurnTaken(n, last, s.dj, j);
  }

  /**
    Two DJs that still have a playable track alternate strictly: the difference of their turns is
    the difference of who is to be asked first, at the end and at the start.
   */
  lemma {:induction false} Alternation(n: nat, last: int, m: Matrix, count: nat, i: nat, j: nat)
    requires i < n && j < n && i != j
    requires HasTrack(Left(n, last, m, count), i) && HasTrack(Left(n, last, m, count), j)
    ensures var p := Picks(n, last, m, count);
            TurnsOf(p, i) - TurnsOf(p, j) == Behind(n, LastDj(last, p), i, j) - Behind(n, last, i, j)
    decreases count
  {
    hide Pick, Picks, Left, Start, TurnsOf, LastDj;
    if count > 0 {
      OneTurn(n, last, m, count);
      OnlyClears(n, last, m, count, i);
      OnlyClears(n, last, m, count, j);
      PickMeets(n, last, m);
      var s := Pick(n, last, m).value;
      var q := Picks(n, s.dj, Clear(m, s), count - 1);
      Alternation(n, s.dj, Clear(m, s), count - 1, i, j);
      TurnsOfCons(s, q, i);
      TurnsOfCons(s, q, j);
      LastDjCons(last, s, q);
      BehindAfter(n, last, m, s, i, j);
    } else {
      NoTurns(n, last, m);
    }
  }

  /** Any two DJs that still have a playable track have been picked equally often up to one. */
  lemma {:induction false} RotationIsFair(n: nat, last: int, m: Matrix, count: nat, i: nat, j: nat)
    requires i < n && j < n
    requires HasTrack(Left(n, last, m, count), i) && HasTrack(Left(n, last, m, count), j)
    ensures var p := Picks(n, last, m, count);
            -1 <= TurnsOf(p, i) - TurnsOf(p, j) <= 1
  {
    if i != j {
      Alternation(n, last, m, count, i, j);
    }
  }

  /** A DJ with a playable track is picked within as many turns as DJs are asked up to it. */
  lemma {:induction false} NobodyStarves(n: nat, last: int, m: Matrix, count: nat, i: nat)
    requires i < n && HasTrack(m, i) && count > Turns(n, last, i)
    ensures exists k: nat | k < |Picks(n, last, m, count)| && k <= Turns(n, last, i)
              :: Picks(n, last, m, count)[k].dj == i
    decreases count
  {
    hide Pick, Picks, Left, Start;
    OneTurn(n, last, m, count);
    PickMeets(n, last, m);
    var s := Pick(n, last, m).value;
    var p, q := Picks(n, last, m, count), Picks(n, s.dj, Clear(m, s), count - 1);
    if s.dj == i {
      assert p[0].dj == i;
    } else {
      TurnTaken(n, last, s.dj, i);
      var j :| 0 <= j < |Row(m, i)| && Row(m, i)[j];
      assert Playable(m, Slot(i, j));
      assert Playable(Clear(m, s), Slot(i, j));
      assert Row(Clear(m, s), i)[j];
      NobodyStarves(n, s.dj, Clear(m, s), count - 1, i);
      var k: nat :| k < |q| && k <= Turns(n, s.dj, i) && q[k].dj == i;
      assert p[k + 1].dj == i;
    }
  }

  // ── frontend/src/lib/nostr/roundrobin.ts ────────────────────────────────────

  /** JavaScript's `%` with a positive divisor: the sign follows the dividend. */
  function JsRem(a: int, n: nat): int
    requires n > 0
  {
    if a >= 0 then a % n else -((-a) % n)
  }

  lemma {:induction false} JsDoubleRem(a: int, n: nat)
    requires n > 0
    ensures JsRem(JsRem(a, n) + n, n) == a % n
  {
    if a >= 0 {
      ModMultiple(a % n, 1, n);
      assert a % n + n == a % n + n * 1;
    } else {
      var q, r := (-a) / n, (-a) % n;
      assert a == -(n * q) - r;
      if r == 0 {
        DivUnique(a, n, -q, 0);
        ModMultiple(0, 1, n);
        assert n == 0 + n * 1;
      } else {
        assert -(n * q) - r == n * (-q - 1) + (n - r);
        DivUnique(a, n, -q - 1, n - r);
        ModMultiple(n - r, 0, n);
      }
    }
  }

  /** A cell is open when it is playable and the preview has not consumed it. */
  ghost predicate Agrees(playable: Matrix, consumed: Matrix, m: Matrix) {
    && |consumed| == |playable| == |m|
    && (forall i | 0 <= i < |m| :: |consumed[i]| == |playable[i]| == |m[i]|)
    && (forall i, j | 0 <= i < |m| && 0 <= j < |m[i]| ::
          m[i][j] == (playable[i][j] && !consumed[i][j]))
  }

  lemma Consume(playable: Matrix, consumed: Matrix, m: Matrix, s: Slot)
    requires Agrees(playable, consumed, m) && Playable(m, s)
    ensures Agrees(playable, consumed[s.dj := consumed[s.dj][s.track := true]], Clear(m, s))
  {
  }

  lemma NoDjNoPicks(last: int, m: Matrix, count: nat)
    ensures Picks(0, last, m, count) == []
  {
  }

  /** The client's look-ahead: the next `count` slots, marking what it already handed out. */
  method FairSequence(djCount: nat, playable: Matrix, lastDjIndex: int, count: int)
    returns (out: seq<Slot>)
    ensures out == Picks(djCount, lastDjIndex, playable, if count < 0 then 0 else count)
  {
    hide PickFrom, Picks, Start, Turns, Clear;
    out := [];
    var total: nat := if count < 0 then 0 else count;
    if djCount == 0 {
      NoDjNoPicks(lastDjIndex, playable, total);
      return;
    }
    var consumed := seq(|playable|, i requires 0 <= i < |playable| => seq(|playable[i]|, _ => false));
    var last := lastDjIndex;
    ghost var m := playable;
    var k := 0;
    while k < count
      invariant 0 <= k <= total
      invariant Agrees(playable, consumed, m)
      invariant Picks(djCount, lastDjIndex, playable, total) == out + Picks(djCount, last, m, total - k)
    {
      var picked, pickedTi := -1, -1;
      var start := last + 1;
      var o := 0;
      while o < djCount
        invariant 0 <= o <= djCount && picked == pickedTi == -1
        invariant Pick(djCount, last, m) == PickFrom(djCount, last, m, o)
      {
        var d := JsRem(JsRem(start + o, djCount) + djCount, djCount);
        JsDoubleRem(start + o, djCount);
        var row := if d < |playable| then playable[d] else [];
        var t := 0;
        while t < |row|
          invariant 0 <= t <= |row| && picked == pickedTi == -1
          invariant d < |playable| ==> forall j | 0 <= j < t :: !m[d][j]
        {
          if row[t] && !consumed[d][t] {
            picked, pickedTi := d, t;
            TurnTakes(djCount, last, m, o, Slot(d, t));
            break;
          }
          t := t + 1;
        }
        if picked >= 0 {
          break;
        }
        TurnPasses(djCount, last, m, o, d);
        o := o + 1;
      }
      OneTurn(djCount, last, m, total - k);
      if picked < 0 {
        NoTurnLeft(djCount, last, m);
        break;
      }
      ghost var s := Slot(picked, pickedTi);
      assert Pick(djCount, last, m) == Some(s);
      Consume(playable, consumed, m, s);
      consumed := consumed[picked := consumed[picked][pickedTi := true]];
      out := out + [Slot(picked, pickedTi)];
      m := Clear(m, s);
      last := picked;
      k := k + 1;
    }
  }

  // ── the preview refines the conductor ───────────────────────────────────────

  /** The relay's repeated `fairNext`: each turn starts after the DJ whose pubkey just played. */
  function RelayPicks(djPks: seq<string>, lastDJ: string, m: Matrix, count: nat): seq<Slot>
    decreases count
  {
    if count == 0 then []
    else
      PickMeets(|djPks|, Index(djPks, lastDJ), m);
      match Pick(|djPks|, Index(djPks, lastDJ), m)
      case None => []
      case Some(s) => [s] + RelayPicks(djPks, djPks[s.dj], Clear(m, s), count - 1)
  }

  /**
    The look-ahead from the playing DJ's index equals the relay's repeated `fairNext` when every turn
    clears its cell, for any matrix, any count and any last DJ (on stage or not). A start does more to
    the matrix than that: `Previews` says when the relay plays what the client announces.
   */
  lemma {:induction false} PreviewRefinesConductor(djPks: seq<string>, lastDJ: string, m: Matrix, count: nat)
    requires forall a, b | 0 <= a < b < |djPks| :: djPks[a] != djPks[b]
    ensures Picks(|djPks|, Index(djPks, lastDJ), m, count) == RelayPicks(djPks, lastDJ, m, count)
    decreases count
  {
    hide Pick, Clear, IsPick;
    if count > 0 {
      PickMeets(|djPks|, Index(djPks, lastDJ), m);
      match Pick(|djPks|, Index(djPks, lastDJ), m)
      case None =>
      case Some(s) =>
        IndexDistinct(djPks, s.dj);
        PreviewRefinesConductor(djPks, djPks[s.dj], Clear(m, s), count - 1);
    }
  }
}
