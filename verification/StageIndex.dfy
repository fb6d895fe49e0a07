/**
  The stage state of one club: the in-memory indexes of stage leases, kicks and the Auto DJ, who
  counts as being on stage, and the cleaner that keeps one stored stage event per member.
 */
module StageIndex {
  import opened Wrappers
  import opened Sorting

  const MAX_DJS := 3
  const STALE_MS := 300_000

  datatype StageEvent = StageEvent(id: string, principal: string, createdAt: int, since: int, on: bool)
  datatype AutoEvent = AutoEvent(id: string, owner: string, createdAt: int, armed: bool, tracks: nat)
  datatype Entry = Entry(since: int, lastSeen: int, on: bool, eventID: string)

  /** `eligible` are the members that are not banned. */
  datatype Index = Index(
    stage: map<string, Entry>,
    kicks: map<string, int>,
    auto: Option<AutoEvent>,
    ctrl: int,
    eligible: set<string>)

  const EMPTY := Index(map[], map[], None, 0, {})

  // ── who is on stage ─────────────────────────────────────────────────────────

  predicate OnStage(x: Index, now: int, p: string) {
    && p in x.stage && p in x.eligible
    && x.stage[p].on
    && x.stage[p].lastSeen >= now - STALE_MS
    && !(p in x.kicks && x.kicks[p] > 0 && x.stage[p].lastSeen <= x.kicks[p])
  }

  function Active(x: Index, now: int): (r: set<string>)
    ensures forall p :: p in r <==> OnStage(x, now, p)
  {
    set p | p in x.stage && OnStage(x, now, p)
  }

  /** The DJs the playback tick drives; it calls a lease stale one instant earlier than the gate. */
  function Driven(x: Index, now: int): set<string> {
    set p | p in x.stage && OnStage(x, now, p) && now - x.stage[p].lastSeen < STALE_MS
  }

  /** The tick never drives a DJ the gate does not count; they differ only at exactly five minutes. */
  lemma DrivenVersusCounted(x: Index, now: int)
    ensures Driven(x, now) <= Active(x, now)
    ensures Driven(x, now) == Active(x, now)
       <==> forall p | OnStage(x, now, p) :: x.stage[p].lastSeen != now - STALE_MS
  {
    if Driven(x, now) == Active(x, now) {
      forall p | OnStage(x, now, p) ensures x.stage[p].lastSeen != now - STALE_MS {
        assert p in Active(x, now);
      }
    }
  }

  /** A lease of exactly five minutes: the gate counts its DJ, the tick does not drive him. */
  lemma LeaseOfFiveMinutes()
    ensures var x := Index(map["a" := Entry(0, 1000, true, "e")], map[], None, 0, {"a"});
            OnStage(x, 1000 + STALE_MS, "a") && Active(x, 1000 + STALE_MS) == {"a"} && Driven(x, 1000 + STALE_MS) == {}
  {
    var x := Index(map["a" := Entry(0, 1000, true, "e")], map[], None, 0, {"a"});
    assert OnStage(x, 1000 + STALE_MS, "a");
    assert Active(x, 1000 + STALE_MS) == {"a"};
  }

  predicate AutoActive(x: Index) {
    && x.auto.Some? && x.auto.value.armed && x.auto.value.tracks > 0
    && x.auto.value.owner in x.eligible && x.ctrl < x.auto.value.createdAt
  }

  datatype CondDJ = CondDJ(pubkey: string, since: int)

  predicate Before(a: CondDJ, b: CondDJ) {
    a.since < b.since || (a.since == b.since && Less(a.pubkey, b.pubkey))
  }

  function Dj(x: Index, p: string): CondDJ
    requires p in x.stage
  {
    CondDJ(p, x.stage[p].since)
  }

  ghost function Ahead(x: Index, now: int, p: string): set<string>
    requires p in x.stage
  {
    set q | q in Active(x, now) && Before(Dj(x, q), Dj(x, p))
  }

  /** The occupants that count: fewer than three others have been on stage longer. */
  ghost function Capped(x: Index, now: int): set<string> {
    set p | p in Active(x, now) && |Ahead(x, now, p)| < MAX_DJS
  }

  lemma BeforeIsWeakOrder()
    ensures WeakOrder(Before)
  {
    forall a, b, c
      ensures !Before(a, a)
      ensures Before(a, b) && Before(b, c) ==> Before(a, c)
      ensures Before(a, c) ==> Before(a, b) || Before(b, c)
    {
      LessTotal(a.pubkey, b.pubkey);
      LessTotal(b.pubkey, c.pubkey);
      if Less(a.pubkey, b.pubkey) && Less(b.pubkey, c.pubkey) {
        LessTransitive(a.pubkey, b.pubkey, c.pubkey);
      }
      if Less(c.pubkey, b.pubkey) && Less(b.pubkey, a.pubkey) {
        LessTransitive(c.pubkey, b.pubkey, a.pubkey);
      }
      LessTotal(a.pubkey, c.pubkey);
    }
  }

  /** In the sorted list of the active DJs, the DJ at position i has exactly i others ahead. */
  lemma RankIsPosition(x: Index, now: int, l: seq<CondDJ>, i: nat)
    requires Sorted(l, Before) && i < |l|
    requires forall a, b | 0 <= a < b < |l| :: l[a].pubkey != l[b].pubkey
    requires forall d :: d in l <==> d.pubkey in Active(x, now) && d == Dj(x, d.pubkey)
    ensures l[i].pubkey in Active(x, now)
    ensures |Ahead(x, now, l[i].pubkey)| == i
  {
    var p := l[i].pubkey;
    assert l[i] in l;
    forall q
      ensures q in Ahead(x, now, p) <==> q in Pubkeys(l[..i])
    {
      if q in Ahead(x, now, p) {
        assert Dj(x, q) in l;
        var k :| 0 <= k < |l| && l[k] == Dj(x, q);
        BeforeIsWeakOrder();
        assert k < i;
        assert l[..i][k] == l[k];
      }
      if q in Pubkeys(l[..i]) {
        var k :| 0 <= k < i && l[k].pubkey == q;
        assert l[k] in l;
        LessTotal(l[k].pubkey, l[i].pubkey);
        assert !Before(l[i], l[k]);
      }
    }
    assert Ahead(x, now, p) == Pubkeys(l[..i]);
    PubkeysSize(l[..i]);
  }

  ghost function Pubkeys(l: seq<CondDJ>): set<string> {
    set i | 0 <= i < |l| :: l[i].pubkey
  }

  lemma {:induction false} PubkeysSize(l: seq<CondDJ>)
    requires forall a, b | 0 <= a < b < |l| :: l[a].pubkey != l[b].pubkey
    ensures |Pubkeys(l)| == |l|
  {
    if l == [] {
      assert Pubkeys(l) == {};
    } else {
      var t, p := l[..|l| - 1], l[|l| - 1].pubkey;
      PubkeysSize(t);
      assert Pubkeys(l) == Pubkeys(t) + {p};
    }
  }

  /** With at most three active DJs the cap removes nobody. */
  lemma CapIdle(x: Index, now: int)
    requires |Active(x, now)| <= MAX_DJS
    ensures Capped(x, now) == Active(x, now)
  {
    forall p | p in Active(x, now) ensures |Ahead(x, now, p)| < MAX_DJS {
      LessTotal(p, p);
      assert p !in Ahead(x, now, p);
      SubsetSize(Ahead(x, now, p), Active(x, now) - {p});
    }
  }

  // ── index updates ───────────────────────────────────────────────────────────

  predicate Newer(a: StageEvent, b: StageEvent) {
    a.createdAt > b.createdAt || (a.createdAt == b.createdAt && Less(a.id, b.id))
  }

  function EntryOf(e: StageEvent): Entry {
    Entry(e.since, e.createdAt * 1000, e.on, e.id)
  }

  predicate Replaces(e: StageEvent, ex: Entry) {
    || EntryOf(e).lastSeen > ex.lastSeen
    || (EntryOf(e).lastSeen == ex.lastSeen && (ex.eventID == "" || Less(e.id, ex.eventID)))
  }

  function IndexStage(x: Index, e: StageEvent): Index {
    if e.principal in x.eligible && (e.principal in x.stage ==> Replaces(e, x.stage[e.principal]))
    then x.(stage := x.stage[e.principal := EntryOf(e)]) else x
  }

  function IndexAuto(x: Index, e: AutoEvent): Index {
    if x.auto.Some? && e.createdAt <= x.auto.value.createdAt then x else x.(auto := Some(e))
  }

  function IndexKick(x: Index, dj: string, ms: int): Index {
    if ms > (if dj in x.kicks then x.kicks[dj] else 0) then x.(kicks := x.kicks[dj := ms]) else x
  }

  function IndexCtrl(x: Index, at: int): Index {
    x.(ctrl := if at > x.ctrl then at else x.ctrl)
  }

  function Unstaged(x: Index, p: string): Index {
    if p == "" then x else x.(stage := x.stage - {p})
  }

  /** A relay-wide ban also takes the Auto DJ the account armed. */
  function Purged(x: Index, p: string): Index {
    if p == "" then x
    else Unstaged(x, p).(auto := if x.auto.Some? && x.auto.value.owner == p then None else x.auto)
  }

  // ── relay/conductor.go ──────────────────────────────────────────────────────

  class StageBook {
    var stageIdx: map<string, Entry>
    var kickIdx: map<string, int>
    var autoDJIdx: Option<AutoEvent>
    var autoDJCtrl: int
    var eligible: set<string>

    function View(): Index
      reads this
    {
      Index(stageIdx, kickIdx, autoDJIdx, autoDJCtrl, eligible)
    }

    constructor ()
      ensures View() == EMPTY
    {
      stageIdx, kickIdx, autoDJIdx, autoDJCtrl, eligible := map[], map[], None, 0, {};
    }

    method IdxStage(ev: StageEvent)
      modifies this
      ensures View() == IndexStage(old(View()), ev)
    {
      if ev.principal !in eligible {
        return;
      }
      var lastSeen := ev.createdAt * 1000;
      var entry := Entry(ev.since, lastSeen, ev.on, ev.id);
      if ev.principal in stageIdx {
        var ex := stageIdx[ev.principal];
        if lastSeen > ex.lastSeen || (lastSeen == ex.lastSeen && (ex.eventID == "" || Less(ev.id, ex.eventID))) {
          stageIdx := stageIdx[ev.principal := entry];
        }
      } else {
        stageIdx := stageIdx[ev.principal := entry];
      }
    }

    method IdxKick(dj: string, createdAt: int)
      modifies this
      ensures View() == IndexKick(old(View()), dj, createdAt * 1000)
    {
      var known := if dj in kickIdx then kickIdx[dj] else 0;
      if createdAt * 1000 > known {
        kickIdx := kickIdx[dj := createdAt * 1000];
      }
    }

    method IdxAutoDJ(ev: AutoEvent)
      modifies this
      ensures View() == IndexAuto(old(View()), ev)
    {
      if autoDJIdx.None? || ev.createdAt > autoDJIdx.value.createdAt {
        autoDJIdx := Some(ev);
      }
    }

    method IdxAutoDJCtrl(createdAt: int)
      modifies this
      ensures View() == IndexCtrl(old(View()), createdAt)
    {
      if createdAt > autoDJCtrl {
        autoDJCtrl := createdAt;
      }
    }

    method RevokeClubStagePrincipal(pubkey: string)
      modifies this
      ensures View() == Unstaged(old(View()), pubkey)
    {
      if pubkey == "" {
        return;
      }
      stageIdx := stageIdx - {pubkey};
    }

    method RevokePrincipal(pubkey: string)
      modifies this
      ensures View() == Purged(old(View()), pubkey)
    {
      if pubkey == "" {
        return;
      }
      stageIdx := stageIdx - {pubkey};
      if autoDJIdx.Some? && autoDJIdx.value.owner == pubkey {
        autoDJIdx := None;
      }
    }

    method HasActiveAutoDJ() returns (r: bool)
      ensures r == AutoActive(View())
    {
      if autoDJIdx.None? || !autoDJIdx.value.armed {
        return false;
      }
      if autoDJIdx.value.owner !in eligible {
        return false;
      }
      if autoDJCtrl >= autoDJIdx.value.createdAt {
        return false;
      }
      return autoDJIdx.value.tracks > 0;
    }

    method OrderAndCapDJs(list: seq<CondDJ>) returns (r: seq<CondDJ>)
      ensures r == Take(Sort(list, Before), MAX_DJS)
    {
      r := Sort(list, Before);
      if |r| > MAX_DJS {
        r := r[..MAX_DJS];
      }
    }

    /** The active DJs in any order, each once. */
    method ListActive(now: int) returns (list: seq<CondDJ>)
      ensures forall a, b | 0 <= a < b < |list| :: list[a].pubkey != list[b].pubkey
      ensures forall d :: d in list <==> d.pubkey in Active(View(), now) && d == Dj(View(), d.pubkey)
    {
      list := [];
      var rest := stageIdx.Keys;
      while rest != {}
        invariant rest <= stageIdx.Keys
        invariant forall a, b | 0 <= a < b < |list| :: list[a].pubkey != list[b].pubkey
        invariant forall d :: d in list <==>
                    d.pubkey in Active(View(), now) && d == Dj(View(), d.pubkey) && d.pubkey !in rest
        decreases |rest|
      {
        var pk :| pk in rest;
        rest := rest - {pk};
        var entry := stageIdx[pk];
        if pk !in eligible || !entry.on || entry.lastSeen < now - STALE_MS {
          continue;
        }
        var km := if pk in kickIdx then kickIdx[pk] else 0;
        if km > 0 && entry.lastSeen <= km {
          continue;
        }
        assert forall a | 0 <= a < |list| :: list[a] in list;
        list := list + [CondDJ(pk, entry.since)];
      }
    }

    /** How many others hold one of the three slots, and whether the sender holds one. */
    method CountActiveOtherDJs(sender: string, now: int) returns (active: nat, alreadyOnStage: bool)
      ensures alreadyOnStage <==> sender in Capped(View(), now)
      ensures active == |Capped(View(), now) - {sender}|
    {
      hide Capped, Active, Before, Sort, Pubkeys;
      var list := ListActive(now);
      SortedActive(View(), now, list);
      var djs := OrderAndCapDJs(list);
      NoPubkeys();
      active, alreadyOnStage := 0, false;
      for i := 0 to |djs|
        invariant alreadyOnStage <==> sender in Pubkeys(djs[..i])
        invariant active == |Pubkeys(djs[..i]) - {sender}|
      {
        PubkeysSnoc(djs, i);
        OthersSnoc(Pubkeys(djs[..i]), djs[i].pubkey, sender);
        if djs[i].pubkey == sender {
          alreadyOnStage := true;
        } else {
          active := active + 1;
        }
      }
      assert djs[..|djs|] == djs;
    }
  }

  lemma OthersSnoc(ps: set<string>, p: string, sender: string)
    requires p !in ps
    ensures |ps + {p} - {sender}| == |ps - {sender}| + if p == sender then 0 else 1
  {
    if p == sender {
      assert ps + {p} - {sender} == ps - {sender};
    } else {
      assert ps + {p} - {sender} == (ps - {sender}) + {p};
    }
  }

  lemma NoPubkeys()
    ensures Pubkeys([]) == {}
  {
  }

  /** Sorting and capping a list of the active DJs yields the occupants that count. */
  lemma SortedActive(x: Index, now: int, list: seq<CondDJ>)
    requires forall a, b | 0 <= a < b < |list| :: list[a].pubkey != list[b].pubkey
    requires forall d :: d in list <==> d.pubkey in Active(x, now) && d == Dj(x, d.pubkey)
    ensures var djs := Take(Sort(list, Before), MAX_DJS);
            && Capped(x, now) == Pubkeys(djs)
            && (forall a, b | 0 <= a < b < |djs| :: djs[a].pubkey != djs[b].pubkey)
  {
    hide Capped, Active, Before, Sort;
    BeforeIsWeakOrder();
    SortMeets(list, Before);
    var l := Sort(list, Before);
    PermutationKeepsDistinct(list, l, (d: CondDJ) => d.pubkey);
    forall d ensures d in l <==> d in list {
      assert d in l <==> d in multiset(l);
      assert d in list <==> d in multiset(list);
    }
    CappedIsFirstThree(x, now, l);
  }

  lemma PubkeysSnoc(l: seq<CondDJ>, i: nat)
    requires i < |l|
    ensures (forall k | 0 <= k < i :: l[k].pubkey != l[i].pubkey) ==> l[i].pubkey !in Pubkeys(l[..i])
    ensures Pubkeys(l[..i + 1]) == Pubkeys(l[..i]) + {l[i].pubkey}
  {
    assert forall k | 0 <= k < i :: l[..i + 1][k] == l[..i][k] == l[k];
    assert l[..i + 1][i] == l[i];
  }

  lemma CappedIsFirstThree(x: Index, now: int, l: seq<CondDJ>)
    requires Sorted(l, Before)
    requires forall a, b | 0 <= a < b < |l| :: l[a].pubkey != l[b].pubkey
    requires forall d :: d in l <==> d.pubkey in Active(x, now) && d == Dj(x, d.pubkey)
    ensures Capped(x, now) == Pubkeys(Take(l, MAX_DJS))
  {
    var t := Take(l, MAX_DJS);
    forall p ensures p in Capped(x, now) <==> p in Pubkeys(t) {
      if p in Capped(x, now) {
        assert Dj(x, p) in l;
        var i :| 0 <= i < |l| && l[i] == Dj(x, p);
        RankIsPosition(x, now, l, i);
        assert t[i] == l[i];
      }
      if p in Pubkeys(t) {
        var i :| 0 <= i < |t| && t[i].pubkey == p;
        RankIsPosition(x, now, l, i);
      }
    }
  }

  /** The DJs on stage that joined before him, a tie going to the smaller pubkey. */
  ghost function JoinedBefore(x: Index, now: int, p: string): set<string>
    requires p in x.stage
  {
    set q | q in Active(x, now)
            && (x.stage[q].since < x.stage[p].since || (x.stage[q].since == x.stage[p].since && Less(q, p)))
  }

  lemma AheadIsJoinedBefore(x: Index, now: int, p: string)
    requires p in x.stage
    ensures Ahead(x, now, p) == JoinedBefore(x, now, p)
  {
    hide Less;
  }

  /**
    The line-up a tick drives and the gate counts: each of the first three by join time stands behind
    exactly those who joined before him, and left out is exactly whoever has three others before him.
   */
  lemma {:induction false} LineUpIsExact(x: Index, now: int, list: seq<CondDJ>)
    requires forall a, b | 0 <= a < b < |list| :: list[a].pubkey != list[b].pubkey
    requires forall d :: d in list <==> d.pubkey in Active(x, now) && d == Dj(x, d.pubkey)
    ensures var djs := Take(Sort(list, Before), 3);
            && (forall i | 0 <= i < |djs| :: djs[i].pubkey in Active(x, now)
                                             && |JoinedBefore(x, now, djs[i].pubkey)| == i)
            && (forall p | p in Active(x, now) :: p in Pubkeys(djs) <==> |JoinedBefore(x, now, p)| < 3)
  {
    hide Active, Before, Sort, Ahead, JoinedBefore;
    SortedActive(x, now, list);
    BeforeIsWeakOrder();
    SortMeets(list, Before);
    var l := Sort(list, Before);
    PermutationKeepsDistinct(list, l, (d: CondDJ) => d.pubkey);
    forall d ensures d in l <==> d in list {
      assert d in l <==> d in multiset(l);
      assert d in list <==> d in multiset(list);
    }
    var djs := Take(l, 3);
    forall p | p in Active(x, now) ensures p in x.stage && Ahead(x, now, p) == JoinedBefore(x, now, p) {
      OnlyStaged(x, now, p);
      AheadIsJoinedBefore(x, now, p);
    }
    forall i | 0 <= i < |djs|
      ensures djs[i].pubkey in Active(x, now) && |JoinedBefore(x, now, djs[i].pubkey)| == i
    {
      RankIsPosition(x, now, l, i);
    }
  }

  lemma OnlyStaged(x: Index, now: int, p: string)
    requires p in Active(x, now)
    ensures p in x.stage
  {
  }

  // ── arrival order does not matter ───────────────────────────────────────────

  function IndexAll(x: Index, es: seq<StageEvent>): Index {
    if es == [] then x else IndexStage(IndexAll(x, es[..|es| - 1]), es[|es| - 1])
  }

  /** Event ids are not empty and determine their events. */
  ghost predicate Genuine(es: set<StageEvent>) {
    && (forall e | e in es :: e.id != "")
    && (forall a, b | a in es && b in es :: a.id == b.id ==> a == b)
  }

  ghost predicate IsNewest(e: StageEvent, es: set<StageEvent>) {
    e in es && forall o | o in es && o.principal == e.principal && o != e :: Newer(e, o)
  }

  /** The stage map holds, for exactly the eligible senders, their newest event. */
  ghost predicate HoldsNewest(x: Index, es: set<StageEvent>) {
    && (forall p :: p in x.stage <==> p in x.eligible && exists e :: e in es && e.principal == p)
    && (forall p | p in x.stage :: exists e :: IsNewest(e, es) && e.principal == p && x.stage[p] == EntryOf(e))
  }

  ghost function Events(es: seq<StageEvent>): set<StageEvent> {
    set i | 0 <= i < |es| :: es[i]
  }

  lemma EventsSnoc(es: seq<StageEvent>)
    requires es != []
    ensures Events(es) == Events(es[..|es| - 1]) + {es[|es| - 1]}
  {
    var t := es[..|es| - 1];
    assert forall k | 0 <= k < |t| :: t[k] == es[k];
  }

  lemma NewerTransitive(a: StageEvent, b: StageEvent, c: StageEvent)
    requires Newer(a, b) && Newer(b, c)
    ensures Newer(a, c)
  {
    if a.createdAt == b.createdAt == c.createdAt {
      LessTransitive(a.id, b.id, c.id);
    }
  }

  lemma {:induction false} OneMoreEvent(x: Index, es: set<StageEvent>, e: StageEvent)
    requires HoldsNewest(x, es) && Genuine(es + {e})
    ensures HoldsNewest(IndexStage(x, e), es + {e})
  {
    hide Newer, Less, Genuine;
    var y, all := IndexStage(x, e), es + {e};
    forall p | p in y.stage
      ensures exists n :: IsNewest(n, all) && n.principal == p && y.stage[p] == EntryOf(n)
    {
      if p in x.stage {
        var n :| IsNewest(n, es) && n.principal == p && x.stage[p] == EntryOf(n);
        if p != e.principal {
          assert IsNewest(n, all);
        } else {
          NewestAfter(es, n, e);
        }
      } else {
        assert p == e.principal;
        assert IsNewest(e, all);
      }
    }
  }

  /** The index replaces an entry exactly when the arriving event is the newer of the two. */
  lemma NewestAfter(es: set<StageEvent>, n: StageEvent, e: StageEvent)
    requires Genuine(es + {e}) && IsNewest(n, es) && n.principal == e.principal
    ensures Replaces(e, EntryOf(n)) <==> Newer(e, n)
    ensures Newer(e, n) ==> IsNewest(e, es + {e})
    ensures !Newer(e, n) ==> IsNewest(n, es + {e})
  {
    LessTotal(e.id, n.id);
    assert n in es + {e};
    if Newer(e, n) {
      forall o | o in es && o.principal == e.principal && o != e ensures Newer(e, o) {
        if o != n { NewerTransitive(e, n, o); }
      }
    } else {
      assert e in es + {e};
    }
  }

  lemma {:induction false} IndexAllHoldsNewest(eligible: set<string>, es: seq<StageEvent>)
    requires Genuine(Events(es))
    ensures IndexAll(EMPTY.(eligible := eligible), es).eligible == eligible
    ensures HoldsNewest(IndexAll(EMPTY.(eligible := eligible), es), Events(es))
  {
    if es != [] {
      EventsSnoc(es);
      IndexAllHoldsNewest(eligible, es[..|es| - 1]);
      OneMoreEvent(IndexAll(EMPTY.(eligible := eligible), es[..|es| - 1]), Events(es[..|es| - 1]), es[|es| - 1]);
    }
  }

  lemma NewestUnique(a: StageEvent, b: StageEvent, es: set<StageEvent>)
    requires IsNewest(a, es) && IsNewest(b, es) && a.principal == b.principal
    ensures a == b
  {
    LessTotal(a.id, b.id);
  }

  /** Any reordering or duplication of the same stage events gives the same stage. */
  lemma ArrivalOrderIrrelevant(eligible: set<string>, a: seq<StageEvent>, b: seq<StageEvent>)
    requires Events(a) == Events(b) && Genuine(Events(a))
    ensures IndexAll(EMPTY.(eligible := eligible), a).stage == IndexAll(EMPTY.(eligible := eligible), b).stage
  {
    hide IndexAll, IsNewest, Genuine, Events, EntryOf;
    var x, y := IndexAll(EMPTY.(eligible := eligible), a), IndexAll(EMPTY.(eligible := eligible), b);
    IndexAllHoldsNewest(eligible, a);
    IndexAllHoldsNewest(eligible, b);
    forall p | p in x.stage ensures p in y.stage && x.stage[p] == y.stage[p] {
      var m :| IsNewest(m, Events(a)) && m.principal == p && x.stage[p] == EntryOf(m);
      var n :| IsNewest(n, Events(b)) && n.principal == p && y.stage[p] == EntryOf(n);
      NewestUnique(m, n, Events(a));
    }
  }

  // ── relay/sessionevents.go: one stored stage event per member ───────────────

  ghost function Cleaned(store: set<StageEvent>, e: StageEvent, eligible: set<string>): set<StageEvent> {
    if e.principal !in eligible then store - {e}
    else set o | o in store && (o.principal != e.principal || IsNewest(o, store))
  }

  class StageStore {
    var events: set<StageEvent>

    /** Runs after `event` was stored: drops it when its sender lost membership, else all but the newest. */
    method Observe(event: StageEvent, eligible: set<string>)
      requires event in events && Genuine(events)
      modifies this
      ensures events == Cleaned(old(events), event, eligible)
    {
      hide Newer, Less, IsNewest, Genuine, From;
      if event.principal !in eligible {
        events := events - {event};
        return;
      }
      ghost var all, p := events, event.principal;
      var rest, matches := events, {};
      var newest: Option<StageEvent> := None;
      NothingSeen(all, p);
      while rest != {}
        invariant events == all && rest <= all
        invariant matches == From(all - rest, p)
        invariant newest.None? <==> matches == {}
        invariant newest.Some? ==> newest.value.principal == p && IsNewest(newest.value, matches)
        decreases |rest|
      {
        var candidate :| candidate in rest;
        OneSeen(all, rest, p, candidate);
        rest := rest - {candidate};
        if candidate.principal != event.principal {
          continue;
        }
        if newest.None? || Newer(candidate, newest.value) {
          NewNewest(matches, newest, candidate);
          newest := Some(candidate);
        } else {
          OldNewest(all, matches, newest.value, candidate);
        }
        matches := matches + {candidate};
      }
      AllSeen(all, p, matches, event);
      var keep := newest.value;
      NewestOfAll(all, matches, keep);
      events := set o | o in events && !(o in matches && o.id != keep.id);
    }
  }

  ghost function From(es: set<StageEvent>, p: string): set<StageEvent> {
    set o | o in es && o.principal == p
  }

  lemma NothingSeen(all: set<StageEvent>, p: string)
    ensures From(all - all, p) == {}
  {
  }

  lemma OneSeen(all: set<StageEvent>, rest: set<StageEvent>, p: string, c: StageEvent)
    requires rest <= all && c in rest
    ensures c !in From(all - rest, p) && From(all - rest, p) <= all && forall o | o in From(all - rest, p) ::
         o.principal == p
    ensures From(all - (rest - {c}), p) == if c.principal == p then From(all - rest, p) + {c} else From(all - rest, p)
  {
  }

  lemma AllSeen(all: set<StageEvent>, p: string, matches: set<StageEvent>, e: StageEvent)
    requires matches == From(all - {}, p) && e in all && e.principal == p
    ensures e in matches && matches == set o | o in all && o.principal == p
  {
  }

  lemma OldNewest(all: set<StageEvent>, es: set<StageEvent>, n: StageEvent, e: StageEvent)
    requires Genuine(all) && es <= all && e in all && e !in es
    requires IsNewest(n, es) && !Newer(e, n)
    ensures IsNewest(n, es + {e})
  {
    LessTotal(e.id, n.id);
    assert n in all && e.id != n.id;
  }

  lemma NewestOfAll(all: set<StageEvent>, es: set<StageEvent>, n: StageEvent)
    requires Genuine(all) && IsNewest(n, es)
    requires es == set o | o in all && o.principal == n.principal
    ensures forall o | o in es :: (IsNewest(o, all) <==> o == n) && (o.id == n.id <==> o == n)
  {
    forall o | o in es ensures (IsNewest(o, all) <==> o == n) && (o.id == n.id <==> o == n) {
      LessTotal(o.id, n.id);
      assert o in all && n in all;
    }
  }

  lemma NewNewest(es: set<StageEvent>, was: Option<StageEvent>, e: StageEvent)
    requires forall a, b | a in es && b in es :: a.principal == b.principal == e.principal
    requires was.None? ==> es == {}
    requires was.Some? ==> IsNewest(was.value, es) && Newer(e, was.value)
    ensures IsNewest(e, es + {e})
  {
    forall o | o in es && o != e ensures Newer(e, o) {
      if o != was.value { NewerTransitive(e, was.value, o); }
    }
  }

  ghost function StoreAll(eligible: set<string>, es: seq<StageEvent>): set<StageEvent> {
    if es == [] then {}
    else Cleaned(StoreAll(eligible, es[..|es| - 1]) + {es[|es| - 1]}, es[|es| - 1], eligible)
  }

  /** What the cleaner leaves of a run of saved events is each eligible sender's newest. */
  lemma {:induction false} StoreKeepsNewest(eligible: set<string>, es: seq<StageEvent>)
    requires Genuine(Events(es))
    ensures StoreAll(eligible, es) == set e | e in Events(es) && e.principal in eligible && IsNewest(e, Events(es))
  {
    if es != [] {
      var t, e := es[..|es| - 1], es[|es| - 1];
      EventsSnoc(es);
      StoreKeepsNewest(eligible, t);
      var s := StoreAll(eligible, t) + {e};
      forall o ensures o in Cleaned(s, e, eligible)
                 <==> o in Events(es) && o.principal in eligible && IsNewest(o, Events(es))
      {
        StoreStep(eligible, Events(t), e, o);
      }
    }
  }

  ghost function Kept(eligible: set<string>, es: set<StageEvent>): set<StageEvent> {
    set e | e in es && e.principal in eligible && IsNewest(e, es)
  }

  lemma {:induction false} HasNewest(es: set<StageEvent>, p: string)
    requires Genuine(es) && exists e :: e in es && e.principal == p
    ensures exists e :: IsNewest(e, es) && e.principal == p
    decreases |es|
  {
    var e :| e in es && e.principal == p;
    var rest := es - {e};
    if o :| o in rest && o.principal == p {
      HasNewest(rest, p);
      var n :| IsNewest(n, rest) && n.principal == p;
      LessTotal(e.id, n.id);
      if Newer(e, n) {
        forall o | o in es && o.principal == p && o != e ensures Newer(e, o) {
          if o != n { NewerTransitive(e, n, o); }
        }
        assert IsNewest(e, es);
      } else {
        assert IsNewest(n, es);
      }
    } else {
      assert IsNewest(e, es);
    }
  }

  lemma StoreStep(eligible: set<string>, es: set<StageEvent>, e: StageEvent, o: StageEvent)
    requires Genuine(es + {e})
    ensures o in Cleaned(Kept(eligible, es) + {e}, e, eligible) <==> o in Kept(eligible, es + {e})
  {
    var s, all := Kept(eligible, es) + {e}, es + {e};
    if e.principal in eligible && o.principal == e.principal && o in all {
      if IsNewest(o, s) && !IsNewest(o, all) {
        var x :| x in all && x.principal == o.principal && x != o && !Newer(o, x);
        assert x in es;
        HasNewest(es, o.principal);
        var n :| IsNewest(n, es) && n.principal == o.principal;
        assert n in s;
        if x != n && o != n { NewerTransitive(o, n, x); }
      }
    }
    if o.principal != e.principal {
      assert IsNewest(o, es) <==> IsNewest(o, all) || o == e;
    }
  }

  /** The index and the store agree on every member's stage event, whatever the arrival order. */
  lemma {:induction false} IndexAndStoreAgree(eligible: set<string>, a: seq<StageEvent>, b: seq<StageEvent>, p: string)
    requires Events(a) == Events(b) && Genuine(Events(a))
    ensures var x := IndexAll(EMPTY.(eligible := eligible), a);
            && (p in x.stage <==> exists e :: e in StoreAll(eligible, b) && e.principal == p)
            && (forall e | e in StoreAll(eligible, b) && e.principal == p :: p in x.stage && x.stage[p] == EntryOf(e))
  {
    IndexAllHoldsNewest(eligible, a);
    StoreKeepsNewest(eligible, b);
    var x := IndexAll(EMPTY.(eligible := eligible), a);
    if p in x.stage {
      var n :| IsNewest(n, Events(a)) && n.principal == p && x.stage[p] == EntryOf(n);
      forall e | e in StoreAll(eligible, b) && e.principal == p ensures x.stage[p] == EntryOf(e) {
        NewestUnique(e, n, Events(a));
      }
      assert n in StoreAll(eligible, b);
    }
  }

  // ── the stage as a history ──────────────────────────────────────────────────

  /** Everything the stage indexes hear. */
  datatype Signal = Staged(event: StageEvent) | Kicked(dj: string,
      ms: int) | Configured(auto: AutoEvent) | Disarmed(at: int)

  function Heard(x: Index, s: Signal): Index {
    match s
    case Staged(e) => IndexStage(x, e)
    case Kicked(dj, ms) => IndexKick(x, dj, ms)
    case Configured(a) => IndexAuto(x, a)
    case Disarmed(at) => IndexCtrl(x, at)
  }

  function HeardAll(x: Index, ss: seq<Signal>): Index {
    if ss == [] then x else Heard(HeardAll(x, ss[..|ss| - 1]), ss[|ss| - 1])
  }

  function StagesOf(ss: seq<Signal>): seq<StageEvent> {
    if ss == [] then []
    else if ss[|ss| - 1].Staged? then StagesOf(ss[..|ss| - 1]) + [ss[|ss| - 1].event]
    else StagesOf(ss[..|ss| - 1])
  }

  lemma {:induction false} StagePart(x: Index, ss: seq<Signal>)
    ensures HeardAll(x, ss).stage == IndexAll(x, StagesOf(ss)).stage
    ensures HeardAll(x, ss).eligible == IndexAll(x, StagesOf(ss)).eligible == x.eligible
  {
    if ss == [] {
    } else {
      StagePart(x, ss[..|ss| - 1]);
      var es := StagesOf(ss[..|ss| - 1]);
      if ss[|ss| - 1].Staged? { assert (es + [ss[|ss| - 1].event])[..|es|] == es; }
    }
  }

  /** The newest kick of each DJ, the newest disarm marker, and the newest configuration. */
  ghost predicate Remembered(x: Index, ss: seq<Signal>) {
    && (forall p | p in x.kicks :: x.kicks[p] > 0 && Kicked(p, x.kicks[p]) in ss)
    && (forall p, ms | Kicked(p, ms) in ss && ms > 0 :: p in x.kicks && ms <= x.kicks[p])
    && (x.ctrl == 0 || Disarmed(x.ctrl) in ss) && x.ctrl >= 0
    && (forall at | Disarmed(at) in ss :: at <= x.ctrl)
    && (x.auto.Some? ==> Configured(x.auto.value) in ss)
    && (forall a | Configured(a) in ss :: x.auto.Some? && a.createdAt <= x.auto.value.createdAt)
  }

  lemma {:induction false} OtherPart(eligible: set<string>, ss: seq<Signal>)
    ensures Remembered(HeardAll(EMPTY.(eligible := eligible), ss), ss)
  {
    hide IndexStage;
    if ss != [] {
      var t, s := ss[..|ss| - 1], ss[|ss| - 1];
      OtherPart(eligible, t);
      assert forall y :: y in ss <==> y in t || y == s;
      StageTouchesNoOther(HeardAll(EMPTY.(eligible := eligible), t), s);
    }
  }

  lemma StageTouchesNoOther(x: Index, s: Signal)
    ensures s.Staged? ==> var y := Heard(x, s); y.kicks == x.kicks && y.ctrl == x.ctrl && y.auto == x.auto
  {
  }

  /** No kick of the member is as new as his event. */
  predicate Unkicked(ss: seq<Signal>, p: string, at: int) {
    forall s | s in ss && s.Kicked? && s.dj == p && s.ms > 0 :: s.ms < at
  }

  /**
    Who is on stage: an eligible member whose newest stage event is a join at most five minutes old,
    and newer than every kick of his.
   */
  lemma {:induction false} OnStageIsHistory(eligible: set<string>, ss: seq<Signal>, now: int, p: string)
    requires Genuine(Events(StagesOf(ss)))
    ensures OnStage(HeardAll(EMPTY.(eligible := eligible), ss), now, p)
       <==> p in eligible
            && exists e :: IsNewest(e, Events(StagesOf(ss))) && e.principal == p && e.on
                           && now - 1000 * e.createdAt <= 300_000 && Unkicked(ss, p, 1000 * e.createdAt)
  {
    hide HeardAll, IndexAll, Genuine, Events, StagesOf, IsNewest;
    var none := EMPTY.(eligible := eligible);
    var x, es := HeardAll(none, ss), StagesOf(ss);
    StagePart(none, ss);
    OtherPart(eligible, ss);
    IndexAllHoldsNewest(eligible, es);
    KickMeans(x, ss, p);
    if p in x.stage {
      var n :| IsNewest(n, Events(es)) && n.principal == p && x.stage[p] == EntryOf(n);
      forall e | IsNewest(e, Events(es)) && e.principal == p ensures e == n {
        NewestUnique(e, n, Events(es));
      }
    } else {
      forall e | IsNewest(e, Events(es)) && e.principal == p ensures p !in eligible {
        NewestIsThere(e, Events(es));
      }
    }
  }

  lemma NewestIsThere(e: StageEvent, es: set<StageEvent>)
    requires IsNewest(e, es)
    ensures e in es
  {
  }

  lemma KickMeans(x: Index, ss: seq<Signal>, p: string)
    requires Remembered(x, ss)
    ensures forall at :: Unkicked(ss, p, at) <==> !(p in x.kicks && x.kicks[p] > 0 && at <= x.kicks[p])
  {
    forall at ensures Unkicked(ss, p, at) <==> !(p in x.kicks && x.kicks[p] > 0 && at <= x.kicks[p]) {
      if p in x.kicks { assert Kicked(p, x.kicks[p]) in ss; }
    }
  }

  /**
    When the Auto DJ is active: its newest configuration is armed with something to play by an
    eligible owner, and no disarm marker is as new.
   */
  lemma {:induction false} AutoIsHistory(eligible: set<string>, ss: seq<Signal>)
    requires forall a, b | Configured(a) in ss && Configured(b) in ss :: a.createdAt == b.createdAt ==> a == b
    ensures AutoActive(HeardAll(EMPTY.(eligible := eligible), ss))
       <==> exists a :: Configured(a) in ss && (forall b | Configured(b) in ss :: b.createdAt <= a.createdAt)
                        && a.armed && a.tracks > 0 && a.owner in eligible && a.createdAt > 0
                        && forall at | Disarmed(at) in ss :: at < a.createdAt
  {
    hide HeardAll;
    OtherPart(eligible, ss);
    StagePart(EMPTY.(eligible := eligible), ss);
  }
}
