/**
  The replay cache against a memory that forgets nothing: which session events the final gate lets
  through, whatever the cache has pruned by then.
 */
module SessionMemory {
  import opened SessionReplay

  /** When each id was last granted; a rolled back grant is taken out again. */
  datatype Memory = Memory(granted: map<string, int>, calls: map<nat, Call>, accepted: seq<string>)

  const NOTHING := Memory(map[], map[], [])

  /** Granted less than two minutes ago. */
  function Held(granted: map<string, int>, now: int): set<string> {
    set id | id in granted && now < granted[id] + 120 * SECOND
  }

  /** At most a minute old and at most half a minute ahead, with an id. */
  predicate InTime(id: string, created: int, now: int) {
    id != "" && now - created <= 60 * SECOND && created - now <= 30 * SECOND
  }

  predicate MayPass(granted: map<string, int>, max: nat, id: string, now: int) {
    id !in Held(granted, now) && |Held(granted, now)| < max
  }

  predicate Can(calls: map<nat, Call>, s: Step) {
    match s
    case Check(c, _, _) => c !in calls
    case Commit(c, _) => c in calls && calls[c].Checked?
    case Finish(c, _) => c in calls && calls[c].Reserved?
  }

  function Recall(m: Memory, max: nat, created: string -> int, s: Step): Memory
    requires Can(m.calls, s)
  {
    match s
    case Check(c, id, t1) => if InTime(id, created(id), t1) then m.(calls := m.calls[c := Checked(id, t1)]) else m
    case Commit(c, t2) =>
      var id := m.calls[c].id;
      if MayPass(m.granted, max, id, t2)
      then m.(granted := m.granted[id := t2], calls := m.calls[c := Reserved(id)])
      else m.(calls := m.calls - {c})
    case Finish(c, stageRejects) =>
      var id := m.calls[c].id;
      if stageRejects then m.(granted := m.granted - {id}, calls := m.calls - {c})
      else m.(accepted := m.accepted + [id], calls := m.calls - {c})
  }

  /** The cache holds exactly the grants that still count. */
  ghost predicate Mirrors(rs: seq<Record>, granted: map<string, int>, clock: int) {
    && Distinct(rs)
    && forall r :: r in rs <==>
         r.id in granted && r.expiry == granted[r.id] + 120 * SECOND && clock < r.expiry
  }

  ghost predicate Agree(g: Gate, m: Memory) {
    g.calls == m.calls && g.accepted == m.accepted && Mirrors(g.replay, m.granted, g.clock)
  }

  lemma PruningMirrors(rs: seq<Record>, granted: map<string, int>, clock: int, now: int)
    requires Mirrors(rs, granted, clock) && clock <= now
    ensures Mirrors(Live(rs, now), granted, now)
  {
    LiveKeeps(rs, now);
  }

  lemma MirrorSize(rs: seq<Record>, granted: map<string, int>, now: int)
    requires Mirrors(rs, granted, now)
    ensures |rs| == |Held(granted, now)|
    ensures forall id :: Has(rs, id) <==> id in Held(granted, now)
  {
    var m := map id | id in Held(granted, now) :: Record(id, granted[id] + 120 * SECOND);
    forall id | id in m ensures m[id] in rs {
    }
    SameSize(rs, m);
    assert m.Keys == Held(granted, now);
    assert |m| == |m.Keys|;
    forall id ensures Has(rs, id) <==> id in Held(granted, now) {
      if id in Held(granted, now) { assert m[id] in rs; }
    }
  }

  /** The cache admits an id exactly if the memory does. */
  lemma ReserveMirrors(rs: seq<Record>, granted: map<string, int>, clock: int, max: nat, id: string, now: int)
    requires Mirrors(rs, granted, clock) && clock <= now
    ensures CanReserve(rs, max, id, now) <==> MayPass(granted, max, id, now)
    ensures Mirrors(Reserve(rs, max, id, now),
                    if MayPass(granted, max, id, now) then granted[id := now] else granted, now)
  {
    hide Held, Live, Distinct;
    PruningMirrors(rs, granted, clock, now);
    var l := Live(rs, now);
    MirrorSize(l, granted, now);
    assert Has(l, id) <==> exists r :: r in l && r.id == id;
    if MayPass(granted, max, id, now) {
      AddMirrors(l, granted, id, now);
    } else {
      assert l + [] == l;
    }
  }

  lemma AddMirrors(l: seq<Record>, granted: map<string, int>, id: string, now: int)
    requires Mirrors(l, granted, now) && !Has(l, id)
    ensures Mirrors(l + [Record(id, now + REPLAY_WINDOW)], granted[id := now], now)
  {
    var t, new' := l + [Record(id, now + REPLAY_WINDOW)], granted[id := now];
    forall i | 0 <= i < |l| ensures l[i].id != id {
      assert l[i] in l;
    }
    assert Distinct(t);
    forall r ensures r in t <==> r.id in new' && r.expiry == new'[r.id] + 120 * SECOND && now < r.expiry {
      if r in l { assert Has(l, r.id); }
    }
  }

  lemma RemoveMirrors(rs: seq<Record>, granted: map<string, int>, clock: int, id: string)
    requires Mirrors(rs, granted, clock)
    ensures Mirrors(Without(rs, id), granted - {id}, clock)
  {
    WithoutKeeps(rs, id);
  }

  lemma StepAgrees(g: Gate, m: Memory, max: nat, created: string -> int, s: Step, gap: int)
    requires Agree(g, m) && Legal(g, s, gap)
    ensures Can(m.calls, s) && Agree(Do(g, max, created, s, gap), Recall(m, max, created, s))
  {
    hide Mirrors, Reserve, CanReserve, MayPass, Without;
    match s
    case Check(_, _, _) => {}
    case Commit(c, t2) => ReserveMirrors(g.replay, m.granted, g.clock, max, g.calls[c].id, t2);
    case Finish(c, _) => RemoveMirrors(g.replay, m.granted, g.clock, g.calls[c].id);
  }

  /** The memory after a run of the gate. */
  ghost function Remembered(g: Gate, m: Memory, max: nat, created: string -> int, steps: seq<Step>, gap: int): Memory
    requires Agree(g, m) && LegalRun(g, max, created, steps, gap)
    decreases |steps|
  {
    if steps == [] then m
    else
      StepAgrees(g, m, max, created, steps[0], gap);
      Remembered(Do(g, max, created, steps[0], gap), Recall(m, max, created, steps[0]), max, created, steps[1..], gap)
  }

  lemma Nothing()
    ensures Agree(INIT, NOTHING)
  {
  }

  /**
    Pruning is invisible: in every schedule of overlapping calls the gate keeps the calls and accepts
    the ids that it would if it remembered every grant for ever.
   */
  lemma {:induction false} CacheIsMemory(
    g: Gate, m: Memory, max: nat, created: string -> int, steps: seq<Step>, gap: int)
    requires Agree(g, m) && LegalRun(g, max, created, steps, gap)
    ensures Agree(Run(g, max, created, steps, gap), Remembered(g, m, max, created, steps, gap))
    decreases |steps|
  {
    hide Agree, Legal, Do, Recall;
    if steps != [] {
      StepAgrees(g, m, max, created, steps[0], gap);
      CacheIsMemory(Do(g, max, created, steps[0], gap), Recall(m, max, created, steps[0]), max, created, steps[1..],
          gap);
    }
  }

  /** One call taken through the gate, as far as it gets. */
  ghost function PassOne(g: Gate, max: nat, created: string -> int, c: nat, id: string, t1: int, t2: int,
                         stageRejects: bool, gap: int): Gate
    requires c !in g.calls && g.clock <= t2 && t1 <= t2 < t1 + gap
  {
    var g1 := Do(g, max, created, Check(c, id, t1), gap);
    if c !in g1.calls then g1
    else
      var g2 := Do(g1, max, created, Commit(c, t2), gap);
      if c !in g2.calls then g2 else Do(g2, max, created, Finish(c, stageRejects), gap)
  }

  /**
    Who is let through, after any run of overlapping calls: an event is accepted exactly if it is in
    time, was not granted within the last two minutes, fewer than the maximum were, and the stage has
    room.
   */
  lemma {:induction false} AcceptanceIsExact(
    max: nat, created: string -> int, steps: seq<Step>, gap: int,
    c: nat, id: string, t1: int, t2: int, stageRejects: bool)
    requires LegalRun(INIT, max, created, steps, gap)
    requires var g := Run(INIT, max, created, steps, gap); c !in g.calls && g.clock <= t2 && t1 <= t2 < t1 + gap
    ensures Agree(INIT, NOTHING)
    ensures var g, m := Run(INIT, max, created, steps, gap), Remembered(INIT, NOTHING, max, created, steps, gap);
            PassOne(g, max, created, c, id, t1, t2, stageRejects, gap).accepted
            == if InTime(id, created(id), t1) && MayPass(m.granted, max, id, t2) && !stageRejects
               then g.accepted + [id] else g.accepted
  {
    hide LegalRun, Run, Remembered, Mirrors, CanReserve, MayPass, Reserve;
    Nothing();
    CacheIsMemory(INIT, NOTHING, max, created, steps, gap);
    var g, m := Run(INIT, max, created, steps, gap), Remembered(INIT, NOTHING, max, created, steps, gap);
    ReserveMirrors(g.replay, m.granted, g.clock, max, id, t2);
  }
}
