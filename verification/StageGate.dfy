/**
  Stage admission: the reservation protocol that keeps at most three slots taken while accepted
  events are still on their way into the index. Times are milliseconds.
 */
module StageGate {
  import opened Wrappers
  import opened StageIndex
  import opened Sorting

  const HOLD_MS := 10_000

  /** The reservation key of the Auto DJ; no pubkey contains a NUL. */
  const AUTO := "\0autodj"

  datatype Reservation = Reservation(deadline: int, eventID: string)
  type Pending = map<string, Reservation>

  datatype Event = Stage(stage: StageEvent) | Auto(auto: AutoEvent) {
    function Id(): string {
      match this case Stage(e) => e.id case Auto(e) => e.id
    }

    /** Only joins and arming with at least one track ask for a slot. */
    predicate AsksForSlot() {
      match this case Stage(e) => e.on case Auto(e) => e.armed && e.tracks > 0
    }

    function Key(): string {
      match this case Stage(e) => e.principal case Auto(_) => AUTO
    }
  }

  function Unexpired(p: Pending, now: int): Pending {
    map k | k in p && p[k].deadline > now :: p[k]
  }

  // ── the decision ────────────────────────────────────────────────────────────

  datatype Verdict = Pass | Reserve | Full

  /** Slots counted against a newcomer, before the reservations. */
  ghost function Taken(x: Index, now: int, e: Event): nat {
    match e
    case Stage(_) => |Capped(x, now)| + if AutoActive(x) then 1 else 0
    case Auto(_) => |Capped(x, now)|
  }

  ghost function Decide(x: Index, p: Pending, now: int, e: Event): Verdict {
    if !e.AsksForSlot() then Pass
    else if e.Stage? && e.stage.principal in Capped(x, now) then Pass
    else if e.Auto? && AutoActive(x) then Pass
    else if e.Key() in Unexpired(p, now) then Pass
    else if Taken(x, now, e) + |Unexpired(p, now)| >= MAX_DJS then Full
    else Reserve
  }

  ghost function PendingAfter(x: Index, p: Pending, now: int, e: Event): Pending {
    if !e.AsksForSlot() then p
    else if Decide(x, p, now, e).Reserve?
    then Unexpired(p, now)[e.Key() := Reservation(now + HOLD_MS, e.Id())]
    else Unexpired(p, now)
  }

  function Released(p: Pending, e: Event): Pending {
    if e.Key() in p && p[e.Key()].eventID == e.Id() then p - {e.Key()} else p
  }

  /** Nobody but the event that reserved can free its reservation. */
  lemma OnlyOwnerReleases(p: Pending, e: Event, k: string)
    requires k in p
    ensures k !in Released(p, e) <==> k == e.Key() && p[k].eventID == e.Id()
    ensures k in Released(p, e) ==> Released(p, e)[k] == p[k]
  {
  }

  /** A request that is not let through for free is decided by the slots taken and reserved. */
  lemma DecisionIs(x: Index, p: Pending, now: int, e: Event)
    requires e.AsksForSlot()
    ensures var q, v := Unexpired(p, now), Decide(x, p, now, e);
            if FreePass(x, now, e) || e.Key() in q then v.Pass? && PendingAfter(x, p, now, e) == q
            else if Taken(x, now, e) + |q| >= MAX_DJS then v.Full? && PendingAfter(x, p, now, e) == q
            else v.Reserve? && PendingAfter(x, p, now, e) == q[e.Key() := Reservation(now + HOLD_MS, e.Id())]
  {
    hide Capped, AutoActive, Unexpired;
  }

  /** The participant already owns a slot. */
  ghost predicate FreePass(x: Index, now: int, e: Event) {
    match e case Stage(s) => s.principal in Capped(x, now) case Auto(_) => AutoActive(x)
  }

  lemma SelfCounts(s: set<string>, p: string)
    ensures |s| == |s - {p}| + if p in s then 1 else 0
  {
    if p in s { assert s == (s - {p}) + {p}; }
  }

  class Gate {
    var pending: Pending
    const book: StageBook

    constructor (book: StageBook)
      ensures pending == map[] && this.book == book
    {
      pending := map[];
      this.book := book;
    }

    method Prune(now: int)
      modifies this
      ensures pending == Unexpired(old(pending), now)
    {
      var rest := pending.Keys;
      ghost var was := pending;
      while rest != {}
        invariant rest <= was.Keys
        invariant pending == map k | k in was && (k in rest || was[k].deadline > now) :: was[k]
        decreases |rest|
      {
        var k :| k in rest;
        rest := rest - {k};
        if pending[k].deadline <= now {
          pending := pending - {k};
        }
      }
    }

    method Reject(e: Event, now: int) returns (rejected: bool)
      modifies this
      ensures rejected <==> Decide(book.View(), old(pending), now, e).Full?
      ensures pending == PendingAfter(book.View(), old(pending), now, e)
    {
      hide Capped, AutoActive, Unexpired;
      if !e.AsksForSlot() {
        return false;
      }
      hide Decide, PendingAfter;
      DecisionIs(book.View(), pending, now, e);
      var principal := match e case Stage(s) => s.principal case Auto(a) => a.owner;
      Prune(now);
      var active, alreadyOnStage := book.CountActiveOtherDJs(principal, now);
      SelfCounts(Capped(book.View(), now), principal);
      if e.Stage? && alreadyOnStage {
        return false;
      }
      var auto := book.HasActiveAutoDJ();
      if e.Auto? {
        if auto {
          return false;
        }
        if alreadyOnStage {
          active := active + 1;
        }
      } else if auto {
        active := active + 1;
      }
      var reservation := if e.Auto? then AUTO else principal;
      if reservation in pending {
        return false;
      }
      active := active + |pending|;
      if active >= MAX_DJS {
        return true;
      }
      pending := pending[reservation := Reservation(now + HOLD_MS, e.Id())];
      return false;
    }

    method Observe(e: Event)
      modifies this
      ensures pending == Released(old(pending), e)
    {
      var reservation := if e.Auto? then AUTO else e.stage.principal;
      if reservation in pending && pending[reservation].eventID == e.Id() {
        pending := pending - {reservation};
      }
    }

    method RevokeClubPrincipal(pubkey: string)
      modifies this
      ensures pending == if pubkey == "" then old(pending) else old(pending) - {pubkey}
    {
      if pubkey == "" {
        return;
      }
      pending := pending - {pubkey};
    }
  }

  // ── runs ────────────────────────────────────────────────────────────────────

  /** An accepted event between the gate and its release. */
  datatype Flight = Flight(event: Event, reserved: bool, deadline: int, indexed: bool)

  datatype World = World(index: Index, pending: Pending, flights: map<string, Flight>, clock: int)

  datatype Step =
    | Tick(now: int)
    | Offer(event: Event)
    | IndexIt(id: string)
    | Release(id: string)
    | Lose(id: string)
    | Kick(dj: string, ms: int)
    | Disarm(at: int)
    | Revoke(principal: string)
    | Ban(principal: string)
    | Admit(principal: string)

  /** Real principals holding a reservation that has not run out. */
  function Reserved(w: World): set<string> {
    Unexpired(w.pending, w.clock).Keys - {AUTO}
  }

  predicate AutoHeld(w: World) {
    AutoActive(w.index) || AUTO in Unexpired(w.pending, w.clock)
  }

  /** Distinct real DJs on stage or reserved, plus the Auto DJ if it is active or reserved. */
  function Load(w: World): nat {
    |Active(w.index, w.clock) + Reserved(w)| + if AutoHeld(w) then 1 else 0
  }

  function Indexed(x: Index, e: Event): Index {
    match e case Stage(s) => IndexStage(x, s) case Auto(a) => IndexAuto(x, a)
  }

  /** Whoever the event puts on stage already holds a slot. */
  predicate HoldsSlot(w: World, e: Event) {
    match e
    case Stage(s) => s.principal in Active(w.index, w.clock) + Reserved(w)
    case Auto(_) => AutoHeld(w)
  }

  /** Indexing this event would put somebody on stage. */
  predicate TakesSlot(w: World, e: Event) {
    match e
    case Stage(s) => s.principal in Active(Indexed(w.index, e), w.clock)
    case Auto(_) => AutoActive(Indexed(w.index, e))
  }

  predicate Revives(w: World, p: string) {
    !AutoActive(w.index) && AutoActive(w.index.(eligible := w.index.eligible + {p}))
  }

  /**
    What the run assumes: event ids are fresh, an accepted event with a reservation is indexed
    before its deadline and released after that, one without a reservation is indexed while its
    sender holds a slot, and nobody rejoins who would wake a dormant Auto DJ.
   */
  predicate Legal(w: World, s: Step) {
    match s
    case Tick(now) => now >= w.clock
    case Offer(e) => e.Id() !in w.flights && Addressed(e)
    case IndexIt(id) =>
      && id in w.flights && !w.flights[id].indexed
      && (if w.flights[id].reserved then w.clock < w.flights[id].deadline
          else TakesSlot(w, w.flights[id].event) ==> HoldsSlot(w, w.flights[id].event))
    case Release(id) => id in w.flights && w.flights[id].indexed
    case Lose(id) => id in w.flights && !w.flights[id].indexed
    case Kick(_, _) => true
    case Disarm(_) => true
    case Revoke(p) => p != AUTO && p != ""
    case Ban(p) => p != AUTO && p != ""
    case Admit(p) => !Revives(w, p)
  }

  /** A revoked sender's accepted events no longer own a reservation. */
  function Unreserve(f: map<string, Flight>, p: string): map<string, Flight> {
    map id | id in f :: if f[id].event.Key() == p then f[id].(reserved := false) else f[id]
  }

  function Expelled(w: World, p: string): World {
    w.(index := Unstaged(w.index, p).(eligible := w.index.eligible - {p}),
       pending := w.pending - {p},
       flights := Unreserve(w.flights, p))
  }

  ghost function Do(w: World, s: Step): World
    requires Legal(w, s)
  {
    match s
    case Tick(now) => w.(clock := now)
    case Offer(e) =>
      var v := Decide(w.index, w.pending, w.clock, e);
      var w' := w.(pending := PendingAfter(w.index, w.pending, w.clock, e));
      if v.Full? then w'
      else w'.(flights := w.flights[e.Id() := Flight(e, v.Reserve?, w.clock + HOLD_MS, false)])
    case IndexIt(id) =>
      w.(index := Indexed(w.index, w.flights[id].event), flights := w.flights[id := w.flights[id].(indexed := true)])
    case Release(id) =>
      w.(pending := Released(w.pending, w.flights[id].event), flights := w.flights - {id})
    case Lose(id) => w.(flights := w.flights - {id})
    case Kick(dj, ms) => w.(index := IndexKick(w.index, dj, ms))
    case Disarm(at) => w.(index := IndexCtrl(w.index, at))
    case Revoke(p) => Expelled(w, p)
    case Ban(p) =>
      var e := Expelled(w, p);
      e.(index := Purged(e.index, p))
    case Admit(p) => w.(index := w.index.(eligible := w.index.eligible + {p}))
  }

  ghost predicate LegalRun(w: World, steps: seq<Step>)
    decreases |steps|
  {
    steps != [] ==> Legal(w, steps[0]) && LegalRun(Do(w, steps[0]), steps[1..])
  }

  ghost function Run(w: World, steps: seq<Step>): World
    requires LegalRun(w, steps)
    decreases |steps|
  {
    if steps == [] then w else Run(Do(w, steps[0]), steps[1..])
  }

  /** A stage event's sender is a pubkey, never the Auto DJ's reserved key. */
  predicate Addressed(e: Event) {
    e.Stage? ==> e.stage.principal != AUTO
  }

  /** A live reservation is still in the table under its event's id. */
  ghost predicate ReservationKept(w: World, id: string)
    requires id in w.flights
  {
    var f := w.flights[id];
    f.reserved && w.clock < f.deadline
    ==> f.event.Key() in w.pending && w.pending[f.event.Key()] == Reservation(f.deadline, id)
  }

  ghost predicate Inv(w: World) {
    && Load(w) <= MAX_DJS
    && w.index.stage.Keys <= w.index.eligible
    && (forall id | id in w.flights :: w.flights[id].event.Id() == id && Addressed(w.flights[id].event))
    && (forall id | id in w.flights && !w.flights[id].indexed :: ReservationKept(w, id))
  }

  // ── each step keeps the capacity ────────────────────────────────────────────

  /** The load only depends on who is on stage, who is reserved and the Auto DJ. */
  lemma {:induction false} LoadBounds(w: World, w': World)
    requires Active(w'.index, w'.clock) + Reserved(w') <= Active(w.index, w.clock) + Reserved(w)
    requires AutoHeld(w') ==> AutoHeld(w)
    ensures Load(w') <= Load(w)
  {
    SubsetSize(Active(w'.index, w'.clock) + Reserved(w'), Active(w.index, w.clock) + Reserved(w));
  }

  lemma PendingSize(p: Pending)
    ensures |p| == |p.Keys - {AUTO}| + if AUTO in p then 1 else 0
  {
    assert |p| == |p.Keys|;
    assert p.Keys == (p.Keys - {AUTO}) + if AUTO in p then {AUTO} else {};
  }

  lemma RoomForOne(a: set<string>, r: set<string>, q: set<string>, auto: bool, autoReserved: bool)
    requires |q| <= 1
    requires |a| + |r| + |q| + (if auto then 1 else 0) + (if autoReserved then 1 else 0) <= MAX_DJS
    ensures |a + (r + q)| + (if auto || autoReserved then 1 else 0) <= MAX_DJS
  {
    UnionSize(a, r + q);
    UnionSize(r, q);
  }

  lemma {:induction false} GrantMeans(w: World, e: Event)
    requires Load(w) <= MAX_DJS && Decide(w.index, w.pending, w.clock, e).Reserve?
    ensures var p := Unexpired(w.pending, w.clock);
            && e.Key() !in p
            && PendingAfter(w.index, w.pending, w.clock, e) == p[e.Key() := Reservation(w.clock + HOLD_MS, e.Id())]
            && |Active(w.index, w.clock)| + |p| < MAX_DJS
            && (e.Auto? ==> !AutoActive(w.index))
            && (e.Stage? && AutoActive(w.index) ==> |Active(w.index, w.clock)| + 1 + |p| < MAX_DJS)
  {
    hide Active, AutoActive, Capped, Unexpired;
    SubsetSize(Active(w.index, w.clock), Active(w.index, w.clock) + Reserved(w));
    CapIdle(w.index, w.clock);
  }

  /** The gate grants a reservation only when the slot is free. */
  lemma {:induction false} GrantedSlotIsFree(w: World, e: Event)
    requires Load(w) <= MAX_DJS && Addressed(e)
    requires Decide(w.index, w.pending, w.clock, e).Reserve?
    ensures Load(w.(pending := PendingAfter(w.index, w.pending, w.clock, e))) <= MAX_DJS
  {
    hide Active, AutoActive, Decide, Unexpired, PendingAfter, Load;
    GrantMeans(w, e);
    Rekeyed(w.pending, w.clock, e);
    var p := Unexpired(w.pending, w.clock);
    LoadWith(w, p[e.Key() := Reservation(w.clock + HOLD_MS, e.Id())]);
    OneMoreKey(Active(w.index, w.clock), p, e, Reservation(w.clock + HOLD_MS, e.Id()), AutoActive(w.index));
  }

  lemma OneMoreKey(a: set<string>, p: Pending, e: Event, v: Reservation, auto: bool)
    requires Addressed(e) && e.Key() !in p && |a| + |p| < MAX_DJS
    requires e.Auto? ==> !auto
    requires e.Stage? && auto ==> |a| + 1 + |p| < MAX_DJS
    ensures |a + (p[e.Key() := v].Keys - {AUTO})| + (if auto || AUTO in p[e.Key() := v] then 1 else 0) <= MAX_DJS
  {
    PendingSize(p);
    OneMoreKeySet(p, e.Key(), v);
    var r := p.Keys - {AUTO};
    if e.Stage? {
      RoomForOne(a, r, {e.Key()}, auto, AUTO in p);
    } else {
      RoomForOne(a, r, {}, auto, true);
    }
  }

  lemma OneMoreKeySet(p: Pending, k: string, v: Reservation)
    ensures p[k := v].Keys - {AUTO} == (p.Keys - {AUTO}) + if k == AUTO then {} else {k}
    ensures AUTO in p[k := v] <==> AUTO in p || k == AUTO
  {
  }

  lemma LoadWith(w: World, q: Pending)
    requires Unexpired(q, w.clock) == q
    ensures Load(w.(pending := q))
         == |Active(w.index, w.clock) + (q.Keys - {AUTO})| + if AutoActive(w.index) || AUTO in q then 1 else 0
  {
  }

  lemma Rekeyed(p: Pending, now: int, e: Event)
    ensures var q := Unexpired(p, now)[e.Key() := Reservation(now + HOLD_MS, e.Id())];
            Unexpired(q, now) == q
  {
  }

  lemma UnionSize<T>(a: set<T>, b: set<T>)
    ensures |a + b| <= |a| + |b|
  {
    assert a + b == a + (b - a);
    SubsetSize(b - a, b);
  }

  lemma {:induction false} OfferKeepsInv(w: World, e: Event)
    requires Inv(w) && Legal(w, Offer(e))
    ensures Inv(Do(w, Offer(e)))
  {
    hide Load, Active, AutoActive, Capped, Taken;
    var w' := Do(w, Offer(e));
    var p := PendingAfter(w.index, w.pending, w.clock, e);
    if Decide(w.index, w.pending, w.clock, e).Reserve? {
      GrantedSlotIsFree(w, e);
      SameLoad(w.(pending := p), w');
    } else {
      PrunedLoad(w, w');
    }
  }

  lemma SameLoad(w: World, w': World)
    requires w'.index == w.index && w'.pending == w.pending && w'.clock == w.clock
    ensures Load(w') == Load(w)
  {
  }

  lemma {:induction false} PrunedLoad(w: World, w': World)
    requires w'.index == w.index && w'.clock == w.clock
    requires w'.pending == w.pending || w'.pending == Unexpired(w.pending, w.clock)
    ensures Load(w') == Load(w)
  {
    assert Unexpired(w'.pending, w.clock) == Unexpired(w.pending, w.clock);
  }

  /** Indexing an event changes nobody's standing but its sender's. */
  lemma IndexTouchesSender(x: Index, e: Event, now: int)
    ensures e.Stage? ==> Active(Indexed(x, e), now) <= Active(x, now) + {e.stage.principal}
    ensures e.Stage? ==> AutoActive(Indexed(x, e)) == AutoActive(x)
    ensures e.Auto? ==> Active(Indexed(x, e), now) == Active(x, now)
  {
  }

  lemma SameReserved(w: World, w': World)
    requires w'.pending == w.pending && w'.clock == w.clock
    ensures Reserved(w') == Reserved(w)
    ensures AutoHeld(w') <==> AutoActive(w'.index) || AUTO in Unexpired(w.pending, w.clock)
  {
    hide AutoActive;
  }

  /** An event that takes no slot, or one its sender holds, leaves the load as it was or lowers it. */
  lemma {:induction false} NoNewSlot(w: World, e: Event)
    requires !TakesSlot(w, e) || HoldsSlot(w, e)
    ensures Load(w.(index := Indexed(w.index, e))) <= Load(w)
  {
    hide Active, AutoActive, Load, Reserved, Indexed, Unexpired;
    var w' := w.(index := Indexed(w.index, e));
    IndexTouchesSender(w.index, e, w.clock);
    SameReserved(w, w');
    SameReserved(w, w);
    LoadBounds(w, w');
  }

  lemma {:induction false} IndexKeepsInv(w: World, id: string)
    requires Inv(w) && Legal(w, IndexIt(id))
    ensures Inv(Do(w, IndexIt(id)))
  {
    hide OnStage, Active, AutoActive, Load, TakesSlot;
    var e := w.flights[id].event;
    assert ReservationKept(w, id);
    assert TakesSlot(w, e) ==> HoldsSlot(w, e);
    NoNewSlot(w, e);
    var v := w.(index := Indexed(w.index, e));
    SameLoad(v, v.(flights := w.flights[id := w.flights[id].(indexed := true)]));
  }

  /** With everybody's standing unchanged or reduced the rest of the invariant is immediate. */
  lemma {:induction false} ReleaseKeepsInv(w: World, id: string)
    requires Inv(w) && Legal(w, Release(id))
    ensures Inv(Do(w, Release(id)))
  {
    hide Load, OnStage, AutoActive;
    var w' := Do(w, Release(id));
    LoadBounds(w, w');
  }

  lemma {:induction false} ExpelKeepsInv(w: World, p: string)
    requires Inv(w) && p != AUTO && p != ""
    ensures Inv(Expelled(w, p))
  {
    hide Load;
    var w' := Expelled(w, p);
    LoadBounds(w, w');
    forall id | id in w'.flights && !w'.flights[id].indexed ensures ReservationKept(w', id) {
      assert ReservationKept(w, id);
    }
  }

  lemma {:induction false} OtherKeepsInv(w: World, s: Step)
    requires Inv(w) && Legal(w, s)
    requires s.Tick? || s.Lose? || s.Kick? || s.Disarm? || s.Ban? || s.Admit?
    ensures Inv(Do(w, s))
  {
    hide Load;
    if s.Ban? { ExpelKeepsInv(w, s.principal); }
    var v := if s.Ban? then Expelled(w, s.principal) else w;
    var w' := Do(w, s);
    forall id | id in w'.flights && !w'.flights[id].indexed ensures ReservationKept(w', id) {
      assert ReservationKept(v, id);
    }
    LoadBounds(v, w');
  }

  lemma {:induction false} StepKeepsInv(w: World, s: Step)
    requires Inv(w) && Legal(w, s)
    ensures Inv(Do(w, s))
  {
    match s {
      case Offer(e) => OfferKeepsInv(w, e);
      case IndexIt(id) => IndexKeepsInv(w, id);
      case Release(id) => ReleaseKeepsInv(w, id);
      case Revoke(p) => ExpelKeepsInv(w, p);
      case _ => OtherKeepsInv(w, s);
    }
  }

  lemma {:induction false} RunKeepsInv(w: World, steps: seq<Step>)
    requires Inv(w) && LegalRun(w, steps)
    ensures Inv(Run(w, steps))
    decreases |steps|
  {
    if steps != [] {
      StepKeepsInv(w, steps[0]);
      RunKeepsInv(Do(w, steps[0]), steps[1..]);
    }
  }

  const INIT := World(EMPTY, map[], map[], 0)

  /**
    In every reachable state at most three slots are taken by DJs on stage, reservations and the
    Auto DJ together; in particular the cap never has to drop anybody.
   */
  lemma {:induction false} CapacityHolds(steps: seq<Step>)
    requires LegalRun(INIT, steps)
    ensures var w := Run(INIT, steps);
            Load(w) <= MAX_DJS && Capped(w.index, w.clock) == Active(w.index, w.clock)
  {
    assert Active(EMPTY, 0) == {} && Reserved(INIT) == {};
    RunKeepsInv(INIT, steps);
    var w := Run(INIT, steps);
    SubsetSize(Active(w.index, w.clock), Active(w.index, w.clock) + Reserved(w));
    CapIdle(w.index, w.clock);
  }

  // ── who is let in ───────────────────────────────────────────────────────────

  /** Reservations that have not run out. */
  function Live(w: World): set<string> {
    set k | k in w.pending && w.clock < w.pending[k].deadline
  }

  /** What a newcomer is counted against: DJs on stage, the active Auto DJ and live reservations. */
  function Counted(w: World): nat {
    |Active(w.index, w.clock)| + (if AutoActive(w.index) then 1 else 0) + |Live(w)|
  }

  /** The event would put its sender on stage, or arm an Auto DJ that has something to play. */
  predicate WantsSlot(e: Event) {
    match e case Stage(s) => s.on case Auto(a) => a.armed && a.tracks > 0
  }

  lemma LiveIs(w: World)
    ensures Unexpired(w.pending, w.clock).Keys == Live(w) && |Unexpired(w.pending, w.clock)| == |Live(w)|
  {
    assert Unexpired(w.pending, w.clock).Keys == Live(w);
    KeysSize(Unexpired(w.pending, w.clock));
  }

  lemma KeysSize(p: Pending)
    ensures |p| == |p.Keys|
  {
  }

  lemma {:induction false} VerdictIs(w: World, e: Event)
    requires |Active(w.index, w.clock)| <= MAX_DJS && Addressed(e)
    ensures var v := Decide(w.index, w.pending, w.clock, e);
            if !WantsSlot(e) || HoldsSlot(w, e) then v.Pass? else if Counted(w) >= 3 then v.Full? else v.Reserve?
  {
    hide Active, AutoActive, Capped, Unexpired;
    CapIdle(w.index, w.clock);
    LiveIs(w);
    HoldsMeans(w, e);
  }

  lemma HoldsMeans(w: World, e: Event)
    requires Addressed(e)
    ensures HoldsSlot(w, e) <==>
              || e.Key() in Live(w)
              || (e.Stage? && e.stage.principal in Active(w.index, w.clock)) || (e.Auto? && AutoActive(w.index))
  {
    hide Active, AutoActive;
  }

  /**
    Who is let in. Whoever asks for no slot, or holds one already, is never refused; a newcomer is
    refused exactly if DJs on stage, the active Auto DJ and live reservations number three, and gets a
    reservation of ten seconds otherwise. Every other live reservation stays as it is.
   */
  lemma {:induction false} AdmissionIsExact(w: World, e: Event)
    requires Inv(w) && Legal(w, Offer(e))
    ensures var n := Do(w, Offer(e));
            var newcomer := WantsSlot(e) && !HoldsSlot(w, e);
            && (e.Id() in n.flights <==> !(newcomer && Counted(w) >= 3))
            && (e.Id() in n.flights ==> n.flights[e.Id()].event == e && n.flights[e.Id()].reserved == newcomer)
            && n.index == w.index && n.clock == w.clock
            && (newcomer && Counted(w) < 3 ==>
                  e.Key() in n.pending && n.pending[e.Key()] == Reservation(w.clock + 10_000, e.Id()))
            && (forall k | !(newcomer && Counted(w) < 3 && k == e.Key()) ::
                  (k in n.pending <==> k in w.pending && (!WantsSlot(e) || k in Live(w)))
                  && (k in n.pending ==> n.pending[k] == w.pending[k]))
  {
    hide Active, AutoActive, Decide, HoldsSlot, Counted, Taken;
    StageBelowCap(w);
    VerdictIs(w, e);
  }

  lemma StageBelowCap(w: World)
    requires Load(w) <= MAX_DJS
    ensures |Active(w.index, w.clock)| <= MAX_DJS
  {
    SubsetSize(Active(w.index, w.clock), Active(w.index, w.clock) + Reserved(w));
  }

  /** In every reachable state a DJ's heartbeat and a change of the armed playlist pass. */
  lemma {:induction false} HoldersAreNeverRefused(steps: seq<Step>, e: Event)
    requires LegalRun(INIT, steps) && Legal(Run(INIT, steps), Offer(e))
    requires HoldsSlot(Run(INIT, steps), e) || !WantsSlot(e)
    ensures e.Id() in Do(Run(INIT, steps), Offer(e)).flights
  {
    hide Run, LegalRun, HoldsSlot, Load;
    InitHolds();
    RunKeepsInv(INIT, steps);
    AdmissionIsExact(Run(INIT, steps), e);
  }

  lemma InitHolds()
    ensures Inv(INIT)
  {
    assert Active(EMPTY, 0) == {} && Reserved(INIT) == {};
  }

  /**
    The gate counts a DJ twice while his first event is on stage and its reservation not yet released,
    so it may refuse a newcomer although a slot is free; it does exactly when such a pair makes three.
   */
  lemma CountedVersusLoad(w: World)
    ensures Counted(w)
         == Load(w) + |Active(w.index, w.clock) * (Live(w) - {AUTO})| + if AutoActive(w.index) && AUTO in Live(w)
             then 1 else 0
  {
    hide Active, AutoActive;
    var a, r := Active(w.index, w.clock), Live(w) - {AUTO};
    LiveIs(w);
    UnionAndBoth(a, r);
    AutoApart(Live(w));
    assert Reserved(w) == r;
  }

  lemma UnionAndBoth(a: set<string>, r: set<string>)
    ensures |a| + |r| == |a + r| + |a * r|
  {
    assert a + r == a + (r - a) && r == (r - a) + (a * r);
  }

  lemma AutoApart(l: set<string>)
    ensures |l| == |l - {AUTO}| + if AUTO in l then 1 else 0
  {
    SelfCounts(l, AUTO);
  }

  // ── reservations over runs ──────────────────────────────────────────────────

  /** A reservation that has not run out. */
  predicate Held(w: World, k: string, r: Reservation) {
    k in w.pending && w.pending[k] == r && w.clock < r.deadline
  }

  /** The release of the reserving event itself, or the revocation of its sender. */
  predicate Frees(w: World, s: Step, k: string, r: Reservation) {
    match s
    case Release(id) => id == r.eventID && id in w.flights && w.flights[id].event.Key() == k
    case Revoke(p) => p == k
    case Ban(p) => p == k
    case _ => false
  }

  /** No other step touches a live reservation: not another event's release, not a pruning, not an offer. */
  lemma {:induction false} StepKeepsReservation(w: World, s: Step, k: string, r: Reservation)
    requires Inv(w) && Legal(w, s) && Held(w, k, r)
    ensures (k in Do(w, s).pending && Do(w, s).pending[k] == r) <==> !Frees(w, s, k, r)
  {
    hide Load, Taken, Capped, AutoActive, Active, ReservationKept, Indexed, IndexKick;
    match s {
      case Release(id) => OnlyOwnerReleases(w.pending, w.flights[id].event, k);
      case Offer(e) => OfferKeepsOthers(w.index, w.pending, w.clock, e, k);
      case _ => {}
    }
  }

  lemma OfferKeepsOthers(x: Index, p: Pending, now: int, e: Event, k: string)
    requires k in p && p[k].deadline > now
    ensures k in PendingAfter(x, p, now, e) && PendingAfter(x, p, now, e)[k] == p[k]
  {
    hide Taken, Capped, AutoActive;
  }

  ghost predicate NoneFrees(w: World, steps: seq<Step>, k: string, r: Reservation)
    requires LegalRun(w, steps)
    decreases |steps|
  {
    steps != [] ==> !Frees(w, steps[0], k, r) && NoneFrees(Do(w, steps[0]), steps[1..], k, r)
  }

  lemma {:induction false} ClockRises(w: World, steps: seq<Step>)
    requires LegalRun(w, steps)
    ensures w.clock <= Run(w, steps).clock
    decreases |steps|
  {
    hide Decide, PendingAfter, Indexed, Released, Unreserve;
    if steps != [] { ClockRises(Do(w, steps[0]), steps[1..]); }
  }

  /**
    Over any run a reservation stays until its deadline, unless its own event is released or its
    sender is revoked.
   */
  lemma {:induction false} RunKeepsReservation(w: World, steps: seq<Step>, k: string, r: Reservation)
    requires Inv(w) && LegalRun(w, steps) && Held(w, k, r)
    requires NoneFrees(w, steps, k, r) && Run(w, steps).clock < r.deadline
    ensures Held(Run(w, steps), k, r)
    decreases |steps|
  {
    hide Inv, Frees, Do, Legal;
    if steps != [] {
      StepKeepsReservation(w, steps[0], k, r);
      StepKeepsInv(w, steps[0]);
      ClockRises(Do(w, steps[0]), steps[1..]);
      RunKeepsReservation(Do(w, steps[0]), steps[1..], k, r);
    }
  }

  // ── what breaks without the assumptions ─────────────────────────────────────

  /** A member who rejoins overfills a full stage exactly when that wakes a dormant Auto DJ. */
  lemma {:induction false} RejoinExact(w: World, p: string)
    requires Inv(w)
    ensures var w' := w.(index := w.index.(eligible := w.index.eligible + {p}));
            Load(w') <= MAX_DJS <==> !(Revives(w, p) && !AutoHeld(w) && Load(w) == MAX_DJS)
  {
    var w' := w.(index := w.index.(eligible := w.index.eligible + {p}));
    assert Active(w'.index, w.clock) == Active(w.index, w.clock);
  }

  lemma OthersStay(x: Index, s: StageEvent, now: int)
    ensures Active(x, now) - {s.principal} <= Active(IndexStage(x, s), now)
  {
  }

  /** Taking a slot that nobody held adds exactly one to the load. */
  lemma {:induction false} NewSlot(w: World, e: Event)
    requires TakesSlot(w, e) && !HoldsSlot(w, e)
    ensures Load(w.(index := Indexed(w.index, e))) == Load(w) + 1
  {
    hide Active, AutoActive, Reserved, Unexpired, IndexStage, IndexAuto;
    var w' := w.(index := Indexed(w.index, e));
    IndexTouchesSender(w.index, e, w.clock);
    SameReserved(w, w');
    SameReserved(w, w);
    var a := Active(w.index, w.clock) + Reserved(w);
    if e.Stage? {
      OthersStay(w.index, e.stage, w.clock);
      assert Active(w'.index, w.clock) + Reserved(w') == a + {e.stage.principal};
    } else {
      assert Active(w'.index, w.clock) + Reserved(w') == a;
    }
  }

  /** A late event without a reservation overfills a full stage exactly when it takes a new slot. */
  lemma {:induction false} LateEventExact(w: World, e: Event)
    requires Inv(w)
    ensures var w' := w.(index := Indexed(w.index, e));
            Load(w') <= MAX_DJS <==> !TakesSlot(w, e) || HoldsSlot(w, e) || Load(w) < MAX_DJS
  {
    hide Load, TakesSlot, HoldsSlot, Indexed, ReservationKept;
    if TakesSlot(w, e) && !HoldsSlot(w, e) {
      NewSlot(w, e);
    } else {
      NoNewSlot(w, e);
    }
  }

  // ── runs that reach such states ─────────────────────────────────────────────

  lemma {:induction false} RunAppend(w: World, a: seq<Step>, b: seq<Step>)
    requires LegalRun(w, a) && LegalRun(Run(w, a), b)
    ensures LegalRun(w, a + b) && Run(w, a + b) == Run(Run(w, a), b)
    decreases |a|
  {
    hide Do, Legal;
    if a == [] {
      assert a + b == b;
    } else {
      RunAppend(Do(w, a[0]), a[1..], b);
      assert (a + b)[1..] == a[1..] + b && (a + b)[0] == a[0];
    }
  }

  lemma RunOne(w: World, s: Step)
    requires Legal(w, s)
    ensures LegalRun(w, [s]) && Run(w, [s]) == Do(w, s)
  {
    hide Do, Legal;
    assert [s][1..] == [];
  }

  function Whole(e: Event): seq<Step> {
    [Offer(e)] + ([IndexIt(e.Id())] + [Release(e.Id())])
  }

  /** An event that the gate grants, indexed and released in time. */
  lemma WholeRun(w: World, e: Event)
    requires Decide(w.index, w.pending, w.clock, e).Reserve? && Addressed(e)
    requires e.Id() !in w.flights && Unexpired(w.pending, w.clock) == map[]
    ensures LegalRun(w, Whole(e))
    ensures Run(w, Whole(e)) == w.(index := Indexed(w.index, e), pending := map[])
  {
    hide Decide, Indexed, LegalRun, Run;
    var id, r := e.Id(), Reservation(w.clock + HOLD_MS, e.Id());
    GrantPending(w, e);
    var w1 := w.(pending := map[e.Key() := r], flights := w.flights[id := Flight(e, true, w.clock + HOLD_MS, false)]);
    assert Do(w, Offer(e)) == w1;
    RunOne(w, Offer(e));
    var w2 := w1.(index := Indexed(w.index, e), flights := w1.flights[id := w1.flights[id].(indexed := true)]);
    assert Do(w1, IndexIt(id)) == w2;
    RunOne(w1, IndexIt(id));
    var w3 := w.(index := Indexed(w.index, e), pending := map[]);
    assert w2.pending - {e.Key()} == map[] && w2.flights - {id} == w.flights;
    assert Do(w2, Release(id)) == w3;
    RunOne(w2, Release(id));
    RunAppend(w1, [IndexIt(id)], [Release(id)]);
    RunAppend(w, [Offer(e)], [IndexIt(id)] + [Release(id)]);
  }

  lemma GrantPending(w: World, e: Event)
    requires Decide(w.index, w.pending, w.clock, e).Reserve? && Unexpired(w.pending, w.clock) == map[]
    ensures PendingAfter(w.index, w.pending, w.clock, e) == map[e.Key() := Reservation(w.clock + HOLD_MS, e.Id())]
  {
    hide Taken, Capped, AutoActive;
  }

  function Join(p: string): StageEvent {
    StageEvent("join " + p, p, 1, 0, true)
  }

  function JoinedEntry(p: string): Entry {
    Entry(0, 1000, true, "join " + p)
  }

  const ARM := AutoEvent("arm", "o", 1, true, 1)

  /** A club whose stage holds the given members, all of them having joined at the same second. */
  function Staged(ps: set<string>, eligible: set<string>, auto: Option<AutoEvent>): Index {
    Index(map p | p in ps :: JoinedEntry(p), map[], auto, 0, eligible)
  }

  lemma StagedActive(ps: set<string>, eligible: set<string>, auto: Option<AutoEvent>, now: int)
    requires ps <= eligible && 0 <= now <= STALE_MS
    ensures Active(Staged(ps, eligible, auto), now) == ps
    ensures |ps| <= MAX_DJS ==> Capped(Staged(ps, eligible, auto), now) == ps
  {
    assert Active(Staged(ps, eligible, auto), now) == ps;
    if |ps| <= MAX_DJS { CapIdle(Staged(ps, eligible, auto), now); }
  }

  /** One more member joins a stage that has room. */
  lemma JoinRun(w: World, p: string, ps: set<string>, auto: Option<AutoEvent>)
    requires w.index == Staged(ps, w.index.eligible, auto) && ps <= w.index.eligible && 0 <= w.clock <= STALE_MS
    requires p in w.index.eligible && p !in ps && p != AUTO && |ps| < MAX_DJS && !AutoActive(w.index)
    requires ("join " + p) !in w.flights && Unexpired(w.pending, w.clock) == map[]
    ensures LegalRun(w, Whole(Stage(Join(p))))
    ensures Run(w, Whole(Stage(Join(p)))) == w.(index := Staged(ps + {p}, w.index.eligible, auto), pending := map[])
  {
    hide LegalRun, Run, Capped, Active, Decide, Staged, IndexStage, AutoActive, Unexpired, Whole;
    StagedActive(ps, w.index.eligible, auto, w.clock);
    JoinIndexed(ps, w.index.eligible, auto, p);
    JoinGranted(w, p, ps);
    WholeRun(w, Stage(Join(p)));
  }

  lemma JoinIndexed(ps: set<string>, eligible: set<string>, auto: Option<AutoEvent>, p: string)
    requires p in eligible && p !in ps
    ensures IndexStage(Staged(ps, eligible, auto), Join(p)) == Staged(ps + {p}, eligible, auto)
  {
  }

  lemma JoinGranted(w: World, p: string, ps: set<string>)
    requires Capped(w.index, w.clock) == ps && p !in ps && |ps| < MAX_DJS && !AutoActive(w.index)
    requires Unexpired(w.pending, w.clock) == map[]
    ensures Decide(w.index, w.pending, w.clock, Stage(Join(p))).Reserve?
  {
    hide Capped, AutoActive, Unexpired;
  }

  lemma {:induction false} AdmitRun(w: World, ps: seq<string>) returns (steps: seq<Step>)
    requires w.index.auto.None?
    decreases |ps|
    ensures LegalRun(w, steps)
    ensures Run(w, steps) == w.(index := w.index.(eligible := w.index.eligible + (set p | p in ps)))
  {
    if ps == [] {
      steps := [];
      assert w.index.eligible + (set p | p in ps) == w.index.eligible;
    } else {
      var w1 := Do(w, Admit(ps[0]));
      var more := AdmitRun(w1, ps[1..]);
      RunOne(w, Admit(ps[0]));
      RunAppend(w, [Admit(ps[0])], more);
      steps := [Admit(ps[0])] + more;
      assert (w.index.eligible + {ps[0]}) + (set p | p in ps[1..]) == w.index.eligible + (set p | p in ps);
    }
  }

  /** Three members join an empty stage, one after the other. */
  lemma FillRun(w: World, auto: Option<AutoEvent>) returns (steps: seq<Step>)
    requires w.index == Staged({}, w.index.eligible, auto) && {"a", "b", "c"} <= w.index.eligible
    requires 0 <= w.clock <= STALE_MS && !AutoActive(w.index) && Unexpired(w.pending, w.clock) == map[]
    requires "join a" !in w.flights && "join b" !in w.flights && "join c" !in w.flights
    ensures LegalRun(w, steps)
    ensures Run(w, steps) == w.(index := Staged({"a", "b", "c"}, w.index.eligible, auto), pending := map[])
  {
    hide LegalRun, Run, Staged;
    var eligible := w.index.eligible;
    var a, b, c := Whole(Stage(Join("a"))), Whole(Stage(Join("b"))), Whole(Stage(Join("c")));
    var w1 := w.(index := Staged({"a"}, eligible, auto), pending := map[]);
    var w2 := w.(index := Staged({"a", "b"}, eligible, auto), pending := map[]);
    assert Unexpired(map[], w.clock) == map[];
    SameAuto(eligible, auto);
    assert "join " + "a" == "join a" && "join " + "b" == "join b" && "join " + "c" == "join c";
    JoinRun(w, "a", {}, auto);
    assert {} + {"a"} == {"a"} && {"a"} + {"b"} == {"a", "b"} && {"a", "b"} + {"c"} == {"a", "b", "c"};
    JoinRun(w1, "b", {"a"}, auto);
    JoinRun(w2, "c", {"a", "b"}, auto);
    RunAppend(w1, b, c);
    RunAppend(w, a, b + c);
    steps := a + (b + c);
  }

  lemma SameAuto(eligible: set<string>, auto: Option<AutoEvent>)
    ensures forall ps, qs :: AutoActive(Staged(ps, eligible, auto)) <==> AutoActive(Staged(qs, eligible, auto))
    ensures forall ps :: Staged(ps, eligible, auto).eligible == eligible
  {
  }

  const CREW := {"a", "b", "c"}

  /** A full stage whose Auto DJ sleeps because its owner was revoked. */
  const DORMANT := World(Staged(CREW, CREW, Some(ARM)), map[], map[], 0)

  lemma DormantIsReached() returns (steps: seq<Step>)
    ensures LegalRun(INIT, steps) && Run(INIT, steps) == DORMANT
  {
    hide LegalRun, Run, Staged;
    var all := CREW + {"o"};
    var w1 := World(Staged({}, all, None), map[], map[], 0);
    var w2 := World(Staged({}, all, Some(ARM)), map[], map[], 0);
    var w3 := World(Staged({}, CREW, Some(ARM)), map[], map[], 0);
    Admitted(["o", "a", "b", "c"], all);
    var admit := AdmitRun(INIT, ["o", "a", "b", "c"]);
    OwnerArms(all);
    WholeRun(w1, Auto(ARM));
    OwnerLeaves(w2, w3);
    RunOne(w2, Revoke("o"));
    SleepsWithoutOwner();
    var fill := FillRun(w3, Some(ARM));
    RunAppend(w2, [Revoke("o")], fill);
    RunAppend(w1, Whole(Auto(ARM)), [Revoke("o")] + fill);
    RunAppend(INIT, admit, Whole(Auto(ARM)) + ([Revoke("o")] + fill));
    steps := admit + (Whole(Auto(ARM)) + ([Revoke("o")] + fill));
  }

  lemma Admitted(ps: seq<string>, all: set<string>)
    requires ps == ["o", "a", "b", "c"] && all == CREW + {"o"}
    ensures (set p | p in ps) == all && EMPTY.(eligible := {} + all) == Staged({}, all, None)
    ensures EMPTY.eligible == {} && EMPTY.auto.None?
  {
    assert {} + all == all;
  }

  lemma OwnerArms(all: set<string>)
    requires all == CREW + {"o"}
    ensures var x := Staged({}, all, None);
            && Decide(x, map[], 0, Auto(ARM)).Reserve? && Unexpired(map[], 0) == map[]
            && IndexAuto(x, ARM) == Staged({}, all, Some(ARM))
  {
    StagedActive({}, all, None, 0);
  }

  lemma OwnerLeaves(w2: World, w3: World)
    requires w2 == World(Staged({}, CREW + {"o"}, Some(ARM)), map[], map[], 0)
    requires w3 == World(Staged({}, CREW, Some(ARM)), map[], map[], 0)
    ensures Legal(w2, Revoke("o")) && Do(w2, Revoke("o")) == w3
  {
    assert CREW + {"o"} - {"o"} == CREW;
    assert AUTO[0] == '\0';
  }

  lemma SleepsWithoutOwner()
    ensures !AutoActive(Staged({}, CREW, Some(ARM))) && Staged({}, CREW, Some(ARM)).eligible == CREW
    ensures Unexpired(map[], 0) == map[]
  {
  }

  lemma StagedLoad(w: World, ps: set<string>, eligible: set<string>, auto: Option<AutoEvent>)
    requires w.index == Staged(ps, eligible, auto) && ps <= eligible && 0 <= w.clock <= STALE_MS && w.pending == map[]
    ensures Load(w) == |ps| + if AutoActive(w.index) then 1 else 0
    ensures AutoHeld(w) <==> AutoActive(w.index)
    ensures Active(w.index, w.clock) + Reserved(w) == ps
  {
    hide AutoActive, Active, Staged;
    StagedActive(ps, eligible, auto, w.clock);
    assert Reserved(w) == {};
    assert ps + {} == ps;
  }

  lemma ArmIsActive(ps: set<string>, eligible: set<string>)
    ensures AutoActive(Staged(ps, eligible, Some(ARM))) <==> "o" in eligible
    ensures !AutoActive(Staged(ps, eligible, None))
    ensures Staged(ps, eligible, Some(ARM)).(eligible := eligible + {"o"}) == Staged(ps, eligible + {"o"}, Some(ARM))
    ensures Staged(ps, eligible, Some(ARM)).eligible == eligible
  {
  }

  lemma CrewSize()
    ensures |CREW| == 3 && |CREW + {"d"}| == 4 && "o" !in CREW && CREW <= CREW + {"o"} && CREW <= CREW + {"d"}
  {
    assert CREW + {"d"} == {"a", "b", "c", "d"};
  }

  /** The condition of `RejoinExact` is met in a run: readmitting the owner puts four on a stage of three. */
  lemma RejoinOverfills() returns (steps: seq<Step>)
    ensures LegalRun(INIT, steps)
    ensures var w := Run(INIT, steps);
            && Load(w) == MAX_DJS && Revives(w, "o") && !AutoHeld(w)
            && Load(w.(index := w.index.(eligible := w.index.eligible + {"o"}))) == MAX_DJS + 1
  {
    hide LegalRun, Run;
    hide Staged, Load, AutoActive, CREW, AutoHeld;
    steps := DormantIsReached();
    CrewSize();
    var w := DORMANT;
    var w' := w.(index := w.index.(eligible := w.index.eligible + {"o"}));
    ArmIsActive(CREW, CREW);
    ArmIsActive(CREW, CREW + {"o"});
    StagedLoad(w, CREW, CREW, Some(ARM));
    StagedLoad(w', CREW, CREW + {"o"}, Some(ARM));
  }

  const LATE := Stage(Join("d"))

  /** A full stage, reached while an earlier event is still on its way with its reservation run out. */
  const CROWDED := World(Staged(CREW, CREW + {"d"}, None), map[], map["join d" := Flight(LATE, true, HOLD_MS, false)],
      HOLD_MS)

  lemma CrowdedIsReached() returns (steps: seq<Step>)
    ensures LegalRun(INIT, steps) && Run(INIT, steps) == CROWDED
  {
    hide LegalRun, Run, Staged;
    var all := CREW + {"d"};
    var w1 := World(Staged({}, all, None), map[], map[], 0);
    var held := map["d" := Reservation(HOLD_MS, "join d")];
    var flights := map["join d" := Flight(LATE, true, HOLD_MS, false)];
    var w2, w3 := World(Staged({}, all, None), held, flights, 0), World(Staged({}, all, None), held, flights, HOLD_MS);
    assert (set p | p in ["d", "a", "b", "c"]) == all;
    NobodyAdmittedYet(all);
    var admit := AdmitRun(INIT, ["d", "a", "b", "c"]);
    LateIsGranted(w1, w2);
    RunOne(w1, Offer(LATE));
    assert Do(w2, Tick(HOLD_MS)) == w3;
    RunOne(w2, Tick(HOLD_MS));
    HeldRunsOut(held, all);
    var fill := FillRun(w3, None);
    RunAppend(w2, [Tick(HOLD_MS)], fill);
    RunAppend(w1, [Offer(LATE)], [Tick(HOLD_MS)] + fill);
    RunAppend(INIT, admit, [Offer(LATE)] + ([Tick(HOLD_MS)] + fill));
    steps := admit + ([Offer(LATE)] + ([Tick(HOLD_MS)] + fill));
  }

  lemma NobodyAdmittedYet(all: set<string>)
    ensures EMPTY.(eligible := EMPTY.eligible + all) == Staged({}, all, None) && EMPTY.auto.None?
  {
    assert {} + all == all;
  }

  lemma LateIsGranted(w1: World, w2: World)
    requires w1 == World(Staged({}, CREW + {"d"}, None), map[], map[], 0)
    requires w2 == w1.(pending := map["d" := Reservation(HOLD_MS, "join d")],
                       flights := map["join d" := Flight(LATE, true, HOLD_MS, false)])
    ensures Legal(w1, Offer(LATE)) && Do(w1, Offer(LATE)) == w2
  {
    StagedActive({}, CREW + {"d"}, None, 0);
    assert "join " + "d" == "join d" && AUTO[0] == '\0';
    assert Unexpired(map[], 0) == map[];
    assert Decide(w1.index, map[], 0, LATE).Reserve?;
    GrantPending(w1, LATE);
  }

  lemma HeldRunsOut(held: Pending, all: set<string>)
    requires held == map["d" := Reservation(HOLD_MS, "join d")]
    ensures Unexpired(held, HOLD_MS) == map[] && !AutoActive(Staged({}, all, None))
        && Staged({}, all, None).eligible == all
  {
  }

  /** The condition of `LateEventExact` is met in a run: indexing the late event puts four on the stage. */
  lemma LateEventOverfills() returns (steps: seq<Step>)
    ensures LegalRun(INIT, steps)
    ensures var w := Run(INIT, steps);
            && "join d" in w.flights && w.flights["join d"].event == LATE && w.clock >= w.flights["join d"].deadline
            && Load(w) == MAX_DJS && TakesSlot(w, LATE) && !HoldsSlot(w, LATE)
            && Load(w.(index := Indexed(w.index, LATE))) == MAX_DJS + 1
  {
    hide LegalRun, Run;
    hide Staged, Load, AutoActive, CREW, AutoHeld, IndexStage, Active, Reserved;
    steps := CrowdedIsReached();
    CrewSize();
    var w := CROWDED;
    var w' := w.(index := Indexed(w.index, LATE));
    LateJoins();
    ArmIsActive(CREW, CREW + {"d"});
    ArmIsActive(CREW + {"d"}, CREW + {"d"});
    StagedLoad(w, CREW, CREW + {"d"}, None);
    StagedLoad(w', CREW + {"d"}, CREW + {"d"}, None);
    StagedActive(CREW + {"d"}, CREW + {"d"}, None, HOLD_MS);
    assert "d" in CREW + {"d"} && LATE.stage.principal == "d";
  }

  lemma LateJoins()
    ensures IndexStage(Staged(CREW, CREW + {"d"}, None), Join("d")) == Staged(CREW + {"d"}, CREW + {"d"}, None)
    ensures "d" !in CREW && LATE.stage == Join("d")
  {
  }
}
