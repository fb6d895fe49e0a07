/**
  Session events: the O(1) replay cache and the final gate that reserves an event id before the
  stage admission and rolls it back when the stage is full. Times are nanoseconds.
 */
module SessionReplay {

  const SECOND := 1_000_000_000
  const MAX_PAST := 60 * SECOND
  const MAX_FUTURE := 30 * SECOND
  const REPLAY_WINDOW := 120 * SECOND

  datatype Record = Record(id: string, expiry: int)

  // ── the cache as a sequence of records ──────────────────────────────────────

  ghost predicate Distinct(rs: seq<Record>) {
    forall i, j | 0 <= i < j < |rs| :: rs[i].id != rs[j].id
  }

  ghost predicate ByExpiry(rs: seq<Record>) {
    forall i, j | 0 <= i < j < |rs| :: rs[i].expiry <= rs[j].expiry
  }

  ghost predicate Has(rs: seq<Record>, id: string) {
    exists r :: r in rs && r.id == id
  }

  /** The records that have not expired: what a plain set of (id, expiry) pairs would remember. */
  function Live(rs: seq<Record>, now: int): (l: seq<Record>)
    ensures forall r :: r in l <==> r in rs && r.expiry > now
    ensures |l| <= |rs|
  {
    if rs == [] then []
    else if rs[0].expiry > now then [rs[0]] + Live(rs[1..], now)
    else Live(rs[1..], now)
  }

  function Without(rs: seq<Record>, id: string): (l: seq<Record>)
    ensures forall r :: r in l <==> r in rs && r.id != id
    ensures |l| <= |rs|
  {
    if rs == [] then []
    else if rs[0].id != id then [rs[0]] + Without(rs[1..], id)
    else Without(rs[1..], id)
  }

  lemma ConsKeeps(x: Record, l: seq<Record>, rs: seq<Record>)
    requires forall r | r in l :: r in rs
    ensures Distinct(l) && Distinct([x] + rs) ==> Distinct([x] + l)
    ensures ByExpiry(l) && ByExpiry([x] + rs) ==> ByExpiry([x] + l)
  {
    forall j | 0 <= j < |l|
      ensures Distinct([x] + rs) ==> l[j].id != x.id
      ensures ByExpiry([x] + rs) ==> x.expiry <= l[j].expiry
    {
      assert l[j] in l;
      var k :| 0 <= k < |rs| && rs[k] == l[j];
      assert ([x] + rs)[k + 1] == l[j] && ([x] + rs)[0] == x;
    }
  }

  lemma TailKeeps(rs: seq<Record>)
    requires rs != []
    ensures Distinct(rs) ==> Distinct(rs[1..])
    ensures ByExpiry(rs) ==> ByExpiry(rs[1..])
    ensures rs == [rs[0]] + rs[1..]
  {
  }

  lemma {:induction false} LiveKeeps(rs: seq<Record>, now: int)
    ensures Distinct(rs) ==> Distinct(Live(rs, now))
    ensures ByExpiry(rs) ==> ByExpiry(Live(rs, now))
  {
    hide Distinct, ByExpiry;
    if rs != [] {
      TailKeeps(rs);
      LiveKeeps(rs[1..], now);
      ConsKeeps(rs[0], Live(rs[1..], now), rs[1..]);
    } else {
      NothingKept();
    }
  }

  lemma {:induction false} WithoutKeeps(rs: seq<Record>, id: string)
    ensures Distinct(rs) ==> Distinct(Without(rs, id))
    ensures ByExpiry(rs) ==> ByExpiry(Without(rs, id))
  {
    hide Distinct, ByExpiry;
    if rs != [] {
      TailKeeps(rs);
      WithoutKeeps(rs[1..], id);
      ConsKeeps(rs[0], Without(rs[1..], id), rs[1..]);
    } else {
      NothingKept();
    }
  }

  lemma NothingKept()
    ensures Distinct([]) && ByExpiry([])
  {
  }

  lemma {:induction false} AllLive(rs: seq<Record>, now: int)
    requires forall r | r in rs :: r.expiry > now
    ensures Live(rs, now) == rs
  {
    if rs != [] {
      AllLive(rs[1..], now);
      assert rs == [rs[0]] + rs[1..];
    }
  }

  /** With records in expiry order, dropping expired ones from the front drops all of them. */
  lemma FrontIsEnough(rs: seq<Record>, now: int)
    requires ByExpiry(rs) && rs != []
    ensures rs[0].expiry > now ==> Live(rs, now) == rs
    ensures rs[0].expiry <= now ==> Live(rs, now) == Live(rs[1..], now)
  {
    if rs[0].expiry > now {
      AllLive(rs, now);
    }
  }

  lemma {:induction false} WithoutNothing(rs: seq<Record>, id: string)
    requires !Has(rs, id)
    ensures Without(rs, id) == rs
  {
    if rs != [] {
      assert rs[0] in rs;
      assert Has(rs[1..], id) ==> Has(rs, id);
      WithoutNothing(rs[1..], id);
      assert rs == [rs[0]] + rs[1..];
    }
  }

  lemma {:induction false} WithoutLast(rs: seq<Record>, r: Record)
    ensures Without(rs + [r], r.id) == Without(rs, r.id)
  {
    if rs == [] {
      assert (rs + [r])[1..] == [];
    } else {
      assert (rs + [r])[1..] == rs[1..] + [r];
      WithoutLast(rs[1..], r);
    }
  }

  /** Admission of an id: it must not be remembered and there must be room. */
  predicate CanReserve(rs: seq<Record>, max: nat, id: string, now: int) {
    (forall r | r in Live(rs, now) :: r.id != id) && |Live(rs, now)| < max
  }

  function Reserve(rs: seq<Record>, max: nat, id: string, now: int): seq<Record> {
    Live(rs, now) + if CanReserve(rs, max, id, now) then [Record(id, now + REPLAY_WINDOW)] else []
  }

  /** A reservation that is rolled back leaves what pruning alone would have left. */
  lemma RollbackRestores(rs: seq<Record>, max: nat, id: string, now: int)
    requires CanReserve(rs, max, id, now)
    ensures Without(Reserve(rs, max, id, now), id) == Live(rs, now)
  {
    WithoutLast(Live(rs, now), Record(id, now + REPLAY_WINDOW));
    WithoutNothing(Live(rs, now), id);
  }

  // ── relay/sessionevents.go: list and map kept in step ───────────────────────

  class SessionEventPolicy {
    var replay: seq<Record>
    var replayByID: map<string, Record>
    const replayMax: nat

    /** List and map are in bijection, bounded and in expiry order. */
    ghost predicate Valid()
      reads this
    {
      && Distinct(replay) && ByExpiry(replay) && |replay| <= replayMax
      && (forall r | r in replay :: r.id in replayByID && replayByID[r.id] == r)
      && (forall id | id in replayByID :: replayByID[id] in replay && replayByID[id].id == id)
    }

    constructor (max: nat)
      ensures Valid() && replay == [] && replayMax == max
    {
      replay, replayByID, replayMax := [], map[], max;
    }

    lemma MapSize()
      requires Valid()
      ensures |replayByID| == |replay|
    {
      SameSize(replay, replayByID);
    }

    method RemoveReplayLocked(element: Record)
      requires Valid() && element in replay
      modifies this
      ensures Valid() && replay == Without(old(replay), element.id)
    {
      WithoutKeeps(replay, element.id);
      replayByID := replayByID - {element.id};
      replay := Without(replay, element.id);
    }

    method AddReplayLocked(id: string, expiry: int)
      requires Valid() && id !in replayByID && |replay| < replayMax
      requires forall r | r in replay :: r.expiry <= expiry
      modifies this
      ensures Valid() && replay == old(replay) + [Record(id, expiry)]
    {
      replay := replay + [Record(id, expiry)];
      replayByID := replayByID[id := Record(id, expiry)];
    }

    method PruneReplayLocked(now: int)
      requires Valid()
      modifies this
      ensures Valid() && replay == Live(old(replay), now)
    {
      while replay != []
        invariant Valid() && Live(replay, now) == Live(old(replay), now)
        decreases |replay|
      {
        FrontIsEnough(replay, now);
        var record := replay[0];
        if record.expiry > now {
          break;
        }
        HeadWithout(replay);
        RemoveReplayLocked(record);
      }
    }

    /** The clock does not run backwards: no remembered id was reserved after `now`. */
    ghost predicate ClockReached(now: int)
      reads this
    {
      forall r | r in replay :: r.expiry <= now + REPLAY_WINDOW
    }

    method RejectReplay(candidate: bool, id: string, now: int) returns (rejected: bool)
      requires Valid() && ClockReached(now)
      modifies this
      ensures Valid() && ClockReached(now)
      ensures !candidate ==> !rejected && replay == old(replay)
      ensures candidate ==> rejected == !CanReserve(old(replay), replayMax, id, now)
      ensures candidate ==> replay == Reserve(old(replay), replayMax, id, now)
    {
      if !candidate {
        return false;
      }
      PruneReplayLocked(now);
      AllLive(replay, now);
      if id in replayByID {
        var record := replayByID[id];
        if record.expiry > now {
          return true;
        }
        assert false; // the pruning left no expired record to remove
      }
      MapSize();
      if |replayByID| >= replayMax {
        return true;
      }
      AddReplayLocked(id, now + REPLAY_WINDOW);
      return false;
    }

    method ReleaseReplay(candidate: bool, id: string)
      requires Valid()
      modifies this
      ensures Valid()
      ensures replay == if candidate then Without(old(replay), id) else old(replay)
    {
      if !candidate {
        return;
      }
      if id in replayByID {
        RemoveReplayLocked(replayByID[id]);
      } else {
        WithoutNothing(replay, id);
      }
    }

    /**
      The final hook on one candidate: authorisation and freshness at `t1`, the reservation at `t2`,
      then the stage, with the id rolled back when the stage refuses.
     */
    method FinalGate(authorized: bool, id: string, created: int, t1: int, t2: int, stageRejects: bool)
      returns (rejected: bool)
      requires Valid() && ClockReached(t2)
      modifies this
      ensures Valid() && ClockReached(t2)
      ensures var ok := authorized && Fresh(id, created, t1);
              && (!ok ==> rejected && replay == old(replay))
              && (ok && !CanReserve(old(replay), replayMax, id, t2)
                  ==> rejected && replay == Live(old(replay), t2))
              && (ok && CanReserve(old(replay), replayMax, id, t2) ==>
                    rejected == stageRejects
                    && replay == Live(old(replay), t2)
                                 + if stageRejects then [] else [Record(id, t2 + REPLAY_WINDOW)])
    {
      if !authorized || !Fresh(id, created, t1) {
        return true;
      }
      rejected := RejectReplay(true, id, t2);
      if rejected {
        return true;
      }
      if stageRejects {
        RollbackRestores(old(replay), replayMax, id, t2);
        ReleaseReplay(true, id);
        return true;
      }
      return false;
    }
  }

  lemma HeadWithout(rs: seq<Record>)
    requires rs != [] && Distinct(rs)
    ensures Without(rs, rs[0].id) == rs[1..]
  {
    WithoutNothing(rs[1..], rs[0].id);
  }

  lemma {:induction false} SameSize(rs: seq<Record>, m: map<string, Record>)
    requires Distinct(rs)
    requires forall r | r in rs :: r.id in m && m[r.id] == r
    requires forall id | id in m :: m[id] in rs && m[id].id == id
    ensures |m| == |rs|
  {
    if rs == [] {
      assert m.Keys == {};
      assert |m| == |m.Keys|;
    } else {
      var m' := m - {rs[0].id};
      SameSize(rs[1..], m');
      assert m'.Keys == m.Keys - {rs[0].id};
      assert |m| == |m.Keys| && |m'| == |m'.Keys|;
    }
  }

  // ── runs of the final gate with overlapping calls ───────────────────────────

  /** Session events newer than a minute and at most half a minute ahead. */
  predicate Fresh(id: string, created: int, now: int) {
    now - MAX_PAST <= created <= now + MAX_FUTURE && id != ""
  }

  datatype Call = Checked(id: string, t1: int) | Reserved(id: string)

  /** `accepted` lists the ids the gate has let through, `clock` is the last locked clock value. */
  datatype Gate = Gate(replay: seq<Record>, calls: map<nat, Call>, accepted: seq<string>, clock: int)

  datatype Step =
    | Check(call: nat, id: string, t1: int)
    | Commit(call: nat, t2: int)
    | Finish(call: nat, stageRejects: bool)

  /** Steps a schedule may take; one call's two clock reads are less than `gap` apart. */
  predicate Legal(g: Gate, s: Step, gap: int) {
    match s
    case Check(c, _, _) => c !in g.calls
    case Commit(c, t2) =>
      && c in g.calls && g.calls[c].Checked? && g.clock <= t2
      && g.calls[c].t1 <= t2 < g.calls[c].t1 + gap
    case Finish(c, _) => c in g.calls && g.calls[c].Reserved?
  }

  /** An event id determines its event, so `created` is a function of the id. */
  function Do(g: Gate, max: nat, created: string -> int, s: Step, gap: int): Gate
    requires Legal(g, s, gap)
  {
    match s
    case Check(c, id, t1) =>
      if Fresh(id, created(id), t1) then g.(calls := g.calls[c := Checked(id, t1)]) else g
    case Commit(c, t2) =>
      var id := g.calls[c].id;
      var held := g.(replay := Reserve(g.replay, max, id, t2), clock := t2);
      if CanReserve(g.replay, max, id, t2) then held.(calls := g.calls[c := Reserved(id)])
      else held.(calls := g.calls - {c})
    case Finish(c, stageRejects) =>
      var done := g.(calls := g.calls - {c});
      if stageRejects then done.(replay := Without(g.replay, g.calls[c].id))
      else done.(accepted := g.accepted + [g.calls[c].id])
  }

  predicate LegalRun(g: Gate, max: nat, created: string -> int, steps: seq<Step>, gap: int)
    decreases |steps|
  {
    steps != [] ==>
      && Legal(g, steps[0], gap)
      && LegalRun(Do(g, max, created, steps[0], gap), max, created, steps[1..], gap)
  }

  function Run(g: Gate, max: nat, created: string -> int, steps: seq<Step>, gap: int): Gate
    requires LegalRun(g, max, created, steps, gap)
    decreases |steps|
  {
    if steps == [] then g else Run(Do(g, max, created, steps[0], gap), max, created, steps[1..], gap)
  }

  const INIT := Gate([], map[], [], 0)

  ghost predicate NoDuplicates(s: seq<string>) {
    forall i, j | 0 <= i < j < |s| :: s[i] != s[j]
  }

  ghost predicate Flies(g: Gate, id: string, call: nat) {
    call in g.calls && g.calls[call] == Reserved(id)
  }

  ghost predicate InFlight(g: Gate, id: string) {
    exists c :: Flies(g, id, c)
  }

  /** The id is still remembered, or its event can no longer pass the freshness check in time. */
  ghost predicate Covered(g: Gate, id: string, created: int) {
    || (exists r :: r in g.replay && r.id == id && r.expiry >= created + 90 * SECOND)
    || g.clock >= created + 90 * SECOND
  }

  ghost predicate Inv(g: Gate, created: string -> int) {
    && Distinct(g.replay) && ByExpiry(g.replay)
    && (forall r | r in g.replay :: r.expiry <= g.clock + REPLAY_WINDOW)
    && NoDuplicates(g.accepted)
    && (forall id | id in g.accepted :: Covered(g, id, created(id)) && !InFlight(g, id))
    && (forall c | c in g.calls && g.calls[c].Reserved? :: Covered(g, g.calls[c].id, created(g.calls[c].id)))
    && (forall c, d | c in g.calls && d in g.calls && c != d ::
          g.calls[c].Reserved? && g.calls[d].Reserved? ==> g.calls[c].id != g.calls[d].id)
    && (forall c | c in g.calls && g.calls[c].Checked? ::
          Fresh(g.calls[c].id, created(g.calls[c].id), g.calls[c].t1))
  }

  lemma PruneKeepsCover(g: Gate, max: nat, id: string, t2: int, other: string, created: int)
    requires g.clock <= t2 && Covered(g, other, created)
    ensures Covered(g.(replay := Reserve(g.replay, max, id, t2), clock := t2), other, created)
  {
    if r :| r in g.replay && r.id == other && r.expiry >= created + 90 * SECOND {
      if r.expiry > t2 {
        assert r in Live(g.replay, t2);
        assert r in Reserve(g.replay, max, id, t2);
      }
    }
  }

  /** An id that is held cannot be reserved again by a call whose two clock reads are close. */
  lemma HeldIsRefused(g: Gate, max: nat, id: string, created: int, t1: int, t2: int)
    requires Covered(g, id, created) && g.clock <= t2 < t1 + 30 * SECOND && Fresh(id, created, t1)
    ensures !CanReserve(g.replay, max, id, t2)
  {
    assert t2 < created + 90 * SECOND;
    var r :| r in g.replay && r.id == id && r.expiry >= created + 90 * SECOND;
    assert r in Live(g.replay, t2);
  }

  lemma ReserveKeeps(rs: seq<Record>, max: nat, id: string, now: int)
    requires Distinct(rs) && ByExpiry(rs) && forall r | r in rs :: r.expiry <= now + REPLAY_WINDOW
    ensures var r := Reserve(rs, max, id, now);
            Distinct(r) && ByExpiry(r) && forall x | x in r :: x.expiry <= now + REPLAY_WINDOW
  {
    LiveKeeps(rs, now);
    var l := Live(rs, now);
    assert forall i | 0 <= i < |l| :: l[i] in rs && l[i] in l;
  }

  lemma CommitKeepsInv(g: Gate, max: nat, created: string -> int, s: Step, gap: int)
    requires Inv(g, created) && s.Commit? && Legal(g, s, gap) && gap <= 30 * SECOND
    ensures Inv(Do(g, max, created, s, gap), created)
  {
    hide Fresh, Covered, Live, Reserve, Distinct, ByExpiry;
    var id, t1, t2 := g.calls[s.call].id, g.calls[s.call].t1, s.t2;
    var h := g.(replay := Reserve(g.replay, max, id, t2), clock := t2);
    var g' := Do(g, max, created, s, gap);
    ReserveKeeps(g.replay, max, id, t2);
    forall other | Covered(g, other, created(other)) ensures Covered(g', other, created(other)) {
      PruneKeepsCover(g, max, id, t2, other, created(other));
      CoverIgnoresCalls(h, g', other, created(other));
    }
    if CanReserve(g.replay, max, id, t2) {
      if Covered(g, id, created(id)) {
        HeldIsRefused(g, max, id, created(id), t1, t2);
        assert false;
      }
      NewCover(h, g, max, id, created(id), t1, t2);
      CoverIgnoresCalls(h, g', id, created(id));
      forall a, c | a in g'.accepted ensures !Flies(g', a, c) {
        NotFlying(g, a, c);
      }
    } else {
      forall a, c | a in g'.accepted ensures !Flies(g', a, c) {
        NotFlying(g, a, c);
      }
    }
  }

  lemma NotFlying(g: Gate, id: string, call: nat)
    ensures !InFlight(g, id) ==> !Flies(g, id, call)
  {
  }

  lemma CoverIgnoresCalls(g: Gate, h: Gate, id: string, created: int)
    requires g.replay == h.replay && g.clock == h.clock && Covered(g, id, created)
    ensures Covered(h, id, created)
  {
  }

  lemma NewCover(h: Gate, g: Gate, max: nat, id: string, created: int, t1: int, t2: int)
    requires CanReserve(g.replay, max, id, t2) && h.replay == Reserve(g.replay, max, id, t2)
    requires t1 <= t2 && Fresh(id, created, t1)
    ensures Covered(h, id, created)
  {
    assert Record(id, t2 + REPLAY_WINDOW) in h.replay;
  }

  lemma FinishKeepsInv(g: Gate, max: nat, created: string -> int, s: Step, gap: int)
    requires Inv(g, created) && s.Finish? && Legal(g, s, gap)
    ensures Inv(Do(g, max, created, s, gap), created)
  {
    hide Fresh, Distinct, ByExpiry;
    var id := g.calls[s.call].id;
    var g' := Do(g, max, created, s, gap);
    WithoutKeeps(g.replay, id);
    assert Flies(g, id, s.call);
    forall other | other != id && Covered(g, other, created(other)) ensures Covered(g', other, created(other)) {
      if r :| r in g.replay && r.id == other && r.expiry >= created(other) + 90 * SECOND {
        assert r in g'.replay;
      }
    }
    forall a, c | a in g'.accepted && a != id ensures !Flies(g', a, c) {
      NotFlying(g, a, c);
    }
  }

  lemma CheckKeepsInv(g: Gate, max: nat, created: string -> int, s: Step, gap: int)
    requires Inv(g, created) && s.Check? && Legal(g, s, gap)
    ensures Inv(Do(g, max, created, s, gap), created)
  {
    hide Fresh, Distinct, ByExpiry;
    var g' := Do(g, max, created, s, gap);
    forall a, c | a in g'.accepted ensures !Flies(g', a, c) && Covered(g', a, created(a)) {
      NotFlying(g, a, c);
      CoverIgnoresCalls(g, g', a, created(a));
    }
    forall c | c in g'.calls && g'.calls[c].Reserved? ensures Covered(g', g'.calls[c].id, created(g'.calls[c].id)) {
      CoverIgnoresCalls(g, g', g'.calls[c].id, created(g'.calls[c].id));
    }
  }

  lemma {:induction false} RunKeepsInv(g: Gate, max: nat, created: string -> int, steps: seq<Step>, gap: int)
    requires Inv(g, created) && LegalRun(g, max, created, steps, gap) && gap <= 30 * SECOND
    ensures Inv(Run(g, max, created, steps, gap), created)
    decreases |steps|
  {
    if steps != [] {
      match steps[0] {
        case Check(_, _, _) => CheckKeepsInv(g, max, created, steps[0], gap);
        case Commit(_, _) => CommitKeepsInv(g, max, created, steps[0], gap);
        case Finish(_, _) => FinishKeepsInv(g, max, created, steps[0], gap);
      }
      RunKeepsInv(Do(g, max, created, steps[0], gap), max, created, steps[1..], gap);
    }
  }

  /**
    In any schedule of overlapping calls no session event is accepted twice, although its record
    expires, provided each call reads its two clocks less than 30 s apart.
   */
  lemma AcceptedAtMostOnce(max: nat, created: string -> int, steps: seq<Step>)
    requires LegalRun(INIT, max, created, steps, 30 * SECOND)
    ensures NoDuplicates(Run(INIT, max, created, steps, 30 * SECOND).accepted)
  {
    RunKeepsInv(INIT, max, created, steps, 30 * SECOND);
  }

  /** One undisturbed call that passes every check, followed by the rest of a run. */
  lemma OnePass(g: Gate, max: nat, created: string -> int, t1: int, t2: int, gap: int, rest: seq<Step>)
    requires g.calls == map[] && Live(g.replay, t2) == [] && max > 0 && g.clock <= t2
    requires Fresh("e", created("e"), t1) && t1 <= t2 < t1 + gap
    requires LegalRun(Gate([Record("e", t2 + REPLAY_WINDOW)], map[], g.accepted + ["e"], t2), max, created, rest, gap)
    ensures var h := Gate([Record("e", t2 + REPLAY_WINDOW)], map[], g.accepted + ["e"], t2);
            var steps := [Check(0, "e", t1), Commit(0, t2), Finish(0, false)] + rest;
            && LegalRun(g, max, created, steps, gap)
            && Run(g, max, created, steps, gap) == Run(h, max, created, rest, gap)
  {
    hide LegalRun, Run, Fresh;
    var s0, s1, s2 := Check(0, "e", t1), Commit(0, t2), Finish(0, false);
    var g1 := Do(g, max, created, s0, gap);
    assert g1.calls == map[0 := Checked("e", t1)];
    var g2 := Do(g1, max, created, s1, gap);
    assert g2.calls == map[0 := Reserved("e")];
    var g3 := Do(g2, max, created, s2, gap);
    assert g3 == Gate([Record("e", t2 + REPLAY_WINDOW)], map[], g.accepted + ["e"], t2);
    RunCons(g2, max, created, s2, rest, gap);
    RunCons(g1, max, created, s1, [s2] + rest, gap);
    RunCons(g, max, created, s0, [s1] + ([s2] + rest), gap);
    assert [s0] + ([s1] + ([s2] + rest)) == [s0, s1, s2] + rest;
  }

  lemma RunCons(g: Gate, max: nat, created: string -> int, s: Step, rest: seq<Step>, gap: int)
    requires Legal(g, s, gap) && LegalRun(Do(g, max, created, s, gap), max, created, rest, gap)
    ensures LegalRun(g, max, created, [s] + rest, gap)
    ensures Run(g, max, created, [s] + rest, gap) == Run(Do(g, max, created, s, gap), max, created, rest, gap)
  {
    assert ([s] + rest)[1..] == rest;
  }

  ghost predicate AlwaysOnce(max: nat, created: string -> int, gap: int) {
    forall steps :: LegalRun(INIT, max, created, steps, gap)
      ==> NoDuplicates(Run(INIT, max, created, steps, gap).accepted)
  }

  /**
    The bound is exact. With reads exactly 30 s apart, an event stamped half a minute ahead is let
    through, forgotten 120 s later, and let through again by a call that found it one minute old.
   */
  lemma GapIsExact(max: nat, gap: int)
    requires max > 0
    ensures (forall created :: AlwaysOnce(max, created, gap)) <==> gap <= 30 * SECOND
  {
    if gap <= 30 * SECOND {
      forall created, steps | LegalRun(INIT, max, created, steps, gap)
        ensures NoDuplicates(Run(INIT, max, created, steps, gap).accepted)
      {
        RunKeepsInv(INIT, max, created, steps, gap);
      }
    } else {
      var created: string -> int := id => 30 * SECOND;
      var h := Gate([Record("e", 120 * SECOND)], map[], ["e"], 0);
      OnePass(h, max, created, 90 * SECOND, 120 * SECOND, gap, []);
      var second := [Check(0, "e", 90 * SECOND), Commit(0, 120 * SECOND), Finish(0, false)] + [];
      assert INIT.accepted + ["e"] == ["e"];
      OnePass(INIT, max, created, 0, 0, gap, second);
      var steps := [Check(0, "e", 0), Commit(0, 0), Finish(0, false)] + second;
      var accepted := Run(INIT, max, created, steps, gap).accepted;
      assert accepted == ["e", "e"];
      assert accepted[0] == accepted[1];
      assert !AlwaysOnce(max, created, gap);
    }
  }
}
