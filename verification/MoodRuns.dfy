/**
  Reactions and ledger together: runs of the conductor in which members react to the running track,
  every tick reads the counters those reactions left, and the ledger ends up with exactly the capped
  number of eligible reactions each track received.
 */
module MoodRuns {
  import opened Wrappers
  import opened Playback
  import opened PlaybackRuns
  import opened Credibility
  import AutoOrder
  import Moods
  import Verdicts
  import RoundRobin

  /** The clubs and, per club, the reactions and prunings its counters have seen. */
  datatype Floor = Floor(world: World, heard: map<string, seq<Moods.Event>>)

  datatype Act = Happened(event: Event) | Reacted(club: string, reaction: Moods.Reaction)

  /** What a reaction is checked against: the playback state in memory. */
  function OnAir(s: Club): Option<Moods.Air> {
    if s.play.Some? && s.play.value.playing then Some(Moods.Air(s.play.value.pos, s.play.value.dj)) else None
  }

  /** The counters of one position as a tick reads them. */
  ghost function Banged(heard: seq<Moods.Event>, pos: int): int {
    Moods.Min(Moods.Votes(Moods.Run(heard).bangers, pos), BANGER_MAX)
  }

  ghost function Skipped(heard: seq<Moods.Event>, pos: int): int {
    Moods.Min(Moods.Votes(Moods.Run(heard).skips, pos), SKIP_THRESHOLD)
  }

  /** The tick reads the counters of the position it works on. */
  ghost predicate Reads(heard: seq<Moods.Event>, s: Club, inp: Input) {
    inp.bangers == Banged(heard, Position(s)) && inp.skips == Skipped(heard, Position(s))
  }

  ghost predicate Allowed(f: Floor, a: Act) {
    match a
    case Happened(e) =>
      Legal(f.world, e) && (e.Ticked? ==> e.club in f.heard && Reads(f.heard[e.club], f.world.clubs[e.club], e.inp))
    case Reacted(c, _) => c in f.world.clubs && c in f.heard
  }

  /** A start by a real DJ prunes the counters of old positions. */
  function Prunings(starts: seq<Start>): seq<Moods.Event> {
    if starts != [] && !starts[0].auto then [Moods.NewTrack(starts[0].pos)] else []
  }

  ghost function Next(f: Floor, a: Act): Floor
    requires Allowed(f, a) && ClubsOk(f.world)
  {
    match a
    case Reacted(c, r) => f.(heard := f.heard[c := f.heard[c] + [Moods.Voted(r, OnAir(f.world.clubs[c]))]])
    case Happened(Queued(c, dj, q)) => f.(world := Do(f.world, Queued(c, dj, q)))
    case Happened(Ticked(c, inp)) =>
      var e := Tick(f.world.clubs[c], c, inp);
      Floor(Stepped(f.world, c, inp, e), f.heard[c := f.heard[c] + Prunings(e.starts)])
  }

  lemma NextKeepsClubs(f: Floor, a: Act)
    requires Allowed(f, a) && ClubsOk(f.world)
    ensures ClubsOk(Next(f, a).world)
  {
    hide ClubOk, Tick, Reads, Sensible;
    if a.Happened? { DoKeepsClubs(f.world, a.event); }
  }

  ghost predicate AllowedRun(f: Floor, acts: seq<Act>)
    requires ClubsOk(f.world)
    decreases |acts|
  {
    if acts == [] then true
    else Allowed(f, acts[0]) && (NextKeepsClubs(f, acts[0]); AllowedRun(Next(f, acts[0]), acts[1..]))
  }

  ghost function Evening(f: Floor, acts: seq<Act>): Floor
    requires ClubsOk(f.world) && AllowedRun(f, acts)
    decreases |acts|
  {
    if acts == [] then f
    else
      NextKeepsClubs(f, acts[0]);
      Evening(Next(f, acts[0]), acts[1..])
  }

  lemma {:induction false} EveningKeepsClubs(f: Floor, acts: seq<Act>)
    requires ClubsOk(f.world) && AllowedRun(f, acts)
    ensures ClubsOk(Evening(f, acts).world)
    decreases |acts|
  {
    hide ClubsOk, Allowed, Next;
    if acts != [] {
      NextKeepsClubs(f, acts[0]);
      EveningKeepsClubs(Next(f, acts[0]), acts[1..]);
    }
  }

  /** The ticks and queue events among them. */
  function Events(acts: seq<Act>): seq<Event> {
    if acts == [] then []
    else if acts[0].Happened? then [acts[0].event] + Events(acts[1..])
    else Events(acts[1..])
  }

  /** Without the reactions it is a run of the conductor, so everything proved of those holds. */
  lemma {:induction false} EveningIsRun(f: Floor, acts: seq<Act>)
    requires ClubsOk(f.world) && AllowedRun(f, acts)
    ensures LegalRun(f.world, Events(acts)) && Evening(f, acts).world == Run(f.world, Events(acts))
    decreases |acts|
  {
    hide ClubsOk, Legal, Tick, Reads, Stepped, QueueIndexed;
    if acts != [] {
      NextKeepsClubs(f, acts[0]);
      EveningIsRun(Next(f, acts[0]), acts[1..]);
      if acts[0].Happened? {
        assert ([acts[0].event] + Events(acts[1..]))[1..] == Events(acts[1..]);
      }
    }
  }

  // ── the invariant ───────────────────────────────────────────────────────────

  /** Eligible reactions and prunings concern positions the club has reached. */
  predicate Upto(heard: seq<Moods.Event>, pos: int) {
    forall e | e in heard ::
      match e
      case Voted(r, air) => Moods.Eligible(r, air) ==> r.pos.value <= pos
      case NewTrack(p) => p <= pos
  }

  /** A freshly started process: arbitrary rows, and the reactions its restored counters stand for. */
  ghost predicate Opening(f: Floor) {
    && Boot(f.world) && f.heard.Keys == f.world.clubs.Keys
    && forall c | c in f.heard :: Upto(f.heard[c], Position(f.world.clubs[c]))
  }

  /** The settlement carries what its position received. */
  predicate Tallied(a: Attempt, heard: seq<Moods.Event>) {
    && a.settlement.bangers == Moods.Min(Moods.Received(heard, "banger", a.settlement.pos), 5)
    && (a.settlement.outcome.CommunitySkipped? ==> Moods.Received(heard, "skip", a.settlement.pos) >= 3)
  }

  ghost predicate Counted(f: Floor) {
    && f.heard.Keys == f.world.clubs.Keys
    && (forall c | c in f.heard :: Upto(f.heard[c], Position(f.world.clubs[c])))
    && (forall a | a in f.world.log :: a.settlement.club in f.heard && Tallied(a, f.heard[a.settlement.club]))
  }

  // ── one step keeps it ───────────────────────────────────────────────────────

  lemma SettleReads(club: string, p: Play, inp: Input, outcome: Outcome)
    ensures forall a | a in Settle(club, p, inp, outcome) ::
              a.settlement.bangers == Moods.Min(inp.bangers, BANGER_MAX) && a.settlement.outcome == outcome
  {
  }

  /** These settlements take their reactions from the counters the tick read. */
  predicate TakenFrom(attempts: seq<Attempt>, inp: Input) {
    forall a | a in attempts ::
      && a.settlement.bangers == Moods.Min(inp.bangers, BANGER_MAX)
      && (a.settlement.outcome.CommunitySkipped? ==> inp.skips >= SKIP_THRESHOLD)
  }

  lemma TickReads(s: Club, club: string, inp: Input)
    requires Sensible(inp) && ClubOk(s)
    ensures TakenFrom(Tick(s, club, inp).attempts, inp)
  {
    hide OrderOk, Loaded, DriveLoaded, DriveAuto, Abandon, TakenFrom;
    if inp.djs != [] {
      LoadedShape(s, club, inp);
      ClubReads(Loaded(s, inp), club, inp);
    } else if inp.auto.Some? {
      AutoReads(s, club, inp.auto.value, inp);
    } else {
      AbandonReads(s, club, inp);
    }
  }

  lemma AbandonReads(s: Club, club: string, inp: Input)
    ensures TakenFrom(Abandon(s, club, inp).attempts, inp)
  {
    hide Settle, Ended;
    if s.play.Some? { SettleReads(club, s.play.value, inp, Played); }
  }

  lemma ClubReads(l: Club, club: string, inp: Input)
    requires l.play.Some?
    ensures TakenFrom(DriveLoaded(l, club, inp).attempts, inp)
  {
    hide Settle, MarkedOff, MatrixOf, KeptMarks, RoundRobin.Pick, RoundRobin.Index, Tracks, WithMark, Stopped, Ended,
         Beaten;
    var p := l.play.value;
    SettleReads(club, p, inp, Played);
    SettleReads(club, p, inp, Discarded);
    SettleReads(club, p, inp, CommunitySkipped);
  }

  lemma AutoReads(s: Club, club: string, a: Armed, inp: Input)
    requires a.tracks != [] && ClubOk(s)
    ensures TakenFrom(DriveAuto(s, club, a, inp).attempts, inp)
  {
    hide Settle, Ended, Playback.Shown, Started, Resumed, AutoOrder.Ready;
    LoadedShape(s, club, inp);
    var l, n := Loaded(s, inp), |a.tracks|;
    PreparedReady(l.play.value.order, n, inp.initSwaps);
    var p := l.play.value.(order := Prepared(l.play.value.order, n, inp.initSwaps));
    TurnedReady(p, n, inp);
    var q := p.(order := Turned(p, n, inp));
    SettleReads(club, q, inp, Played);
    SettleReads(club, q, inp, Discarded);
    SettleReads(club, q, inp, CommunitySkipped);
  }

  lemma ReceivedSnoc(heard: seq<Moods.Event>, e: Moods.Event, vote: string, pos: int)
    ensures Moods.Received(heard + [e], vote, pos)
         == Moods.Received(heard, vote, pos)
            + if Moods.Cast(e, vote, pos) then 1 else 0
  {
    assert (heard + [e])[..|heard|] == heard;
  }

  /** What the counters of the club's own position say is what it received. */
  lemma CountersTell(heard: seq<Moods.Event>, pos: int)
    requires Upto(heard, pos)
    ensures Banged(heard, pos) == Moods.Min(Moods.Received(heard, "banger", pos), 5)
    ensures Skipped(heard, pos) == Moods.Min(Moods.Received(heard, "skip", pos), 3)
  {
    hide Moods.Votes, Moods.Received;
    Moods.CountersAreCappedTallies(heard, pos);
  }

  lemma UptoSnoc(heard: seq<Moods.Event>, e: Moods.Event, pos: int)
    requires Upto(heard, pos)
    requires match e case Voted(r, air) => Moods.Eligible(r, air) ==> r.pos.value <= pos case NewTrack(p) => p <= pos
    ensures Upto(heard + [e], pos)
  {
  }

  /** A reaction cannot reach a settled track: it is off the air. */
  lemma ReactionKeeps(f: Floor, c: string, r: Moods.Reaction, boot: World)
    requires Counted(f) && Inv(f.world, boot) && Allowed(f, Reacted(c, r)) && ClubsOk(f.world)
    ensures Counted(Next(f, Reacted(c, r)))
  {
    hide Inv, ClubOk, Reads, Tracked, Timed, Numbered, Honest, Covered, Known, Since, Moods.Received, Behind;
    var s, heard := f.world.clubs[c], f.heard[c];
    var e := Moods.Voted(r, OnAir(s));
    UptoSnoc(heard, e, Position(s));
    forall a | a in f.world.log && a.settlement.club == c ensures Tallied(a, heard + [e]) {
      SettledIsOff(f.world, boot, a);
      ReceivedSnoc(heard, e, "banger", a.settlement.pos);
      ReceivedSnoc(heard, e, "skip", a.settlement.pos);
    }
  }

  lemma SettledIsOff(w: World, boot: World, a: Attempt)
    requires Inv(w, boot) && a in w.log
    ensures a.settlement.club in w.clubs
    ensures OnAir(w.clubs[a.settlement.club]).Some? ==> OnAir(w.clubs[a.settlement.club]).value.pos != a.settlement.pos
  {
    hide Tracked, Timed, Numbered, Honest, Covered, Known, Since, Behind;
    PlacedHere(w, a);
  }

  /** A tick settles with what its position received, and prunes nothing that still counts. */
  lemma TickKeeps(f: Floor, c: string, inp: Input)
    requires Counted(f) && Allowed(f, Happened(Ticked(c, inp))) && ClubsOk(f.world)
    ensures Counted(Next(f, Happened(Ticked(c, inp))))
  {
    hide ClubOk, Tick, Position, Began, Moods.Received, Banged, Skipped, Sensible;
    var s, heard := f.world.clubs[c], f.heard[c];
    ClubPlays(s);
    var e := Tick(s, c, inp);
    TickShape(s, c, inp);
    ShapeOfClub(s, c, inp, e);
    ShapeOfAttempts(s, c, inp, e);
    TickReads(s, c, inp);
    CountersTell(heard, Position(s));
    StartPlace(s, c, inp, e);
    var more := Prunings(e.starts);
    forall vote, pos ensures Moods.Received(heard + more, vote, pos) == Moods.Received(heard, vote, pos) {
      if more == [] { assert heard + more == heard; } else { ReceivedSnoc(heard, more[0], vote, pos); }
    }
    assert Upto(heard + more, Position(e.club));
    var g := Next(f, Happened(Ticked(c, inp)));
    forall a | a in g.world.log ensures a.settlement.club in g.heard && Tallied(a, g.heard[a.settlement.club]) {
      assert a in f.world.log || a in e.attempts;
    }
  }

  lemma ClubPlays(s: Club)
    requires ClubOk(s)
    ensures s.play.Some? ==> OrderOk(s.play.value.order)
  {
  }

  lemma StartPlace(s: Club, c: string, inp: Input, e: Effect)
    requires Shape(s, c, inp, e)
    ensures e.starts != [] ==> e.starts[0].pos == Position(e.club)
  {
    hide ClubOk, SettlesAir, Loaded, Air, Position, Began;
  }

  lemma {:induction false} EveningKeeps(f: Floor, acts: seq<Act>, boot: World)
    requires Counted(f) && Inv(f.world, boot) && ClubsOk(f.world) && AllowedRun(f, acts)
    ensures Counted(Evening(f, acts))
    decreases |acts|
  {
    hide Counted, Inv, ClubsOk, Allowed, Next;
    if acts != [] {
      NextKeepsClubs(f, acts[0]);
      NextKeeps(f, acts[0], boot);
      EveningKeeps(Next(f, acts[0]), acts[1..], boot);
    }
  }

  lemma NextKeeps(f: Floor, a: Act, boot: World)
    requires Counted(f) && Inv(f.world, boot) && ClubsOk(f.world) && Allowed(f, a)
    ensures Counted(Next(f, a)) && Inv(Next(f, a).world, boot)
  {
    hide Inv, ClubOk, Tick, Reads, Tallied, Upto, Moods.Received;
    match a
    case Reacted(c, r) => ReactionKeeps(f, c, r, boot);
    case Happened(e) =>
      DoKeepsInv(f.world, boot, e);
      match e
      case Ticked(c, inp) => TickKeeps(f, c, inp);
      case Queued(c, dj, q) => QueueKeepsPlace(f.world.clubs[c], dj, q);
  }

  lemma QueueKeepsPlace(s: Club, dj: string, q: QueueEvent)
    ensures Position(QueueIndexed(s, dj, q)) == Position(s)
  {
  }

  // ── what an evening guarantees ──────────────────────────────────────────────

  /**
    Every settlement carries the number of eligible reactions its track received, capped at five, and
    a track settled as skipped by the community received at least three eligible skips.
   */
  lemma {:induction false} SettlementsCountReactions(f: Floor, acts: seq<Act>, i: nat)
    requires Opening(f) && ClubsOk(f.world) && AllowedRun(f, acts) && i < |Evening(f, acts).world.log|
    ensures var g := Evening(f, acts);
            var a := g.world.log[i];
            a.settlement.club in g.heard && Tallied(a, g.heard[a.settlement.club])
  {
    hide Evening, AllowedRun, Upto, Tallied, Inv;
    BootHolds(f.world);
    EveningKeeps(f, acts, f.world);
    assert Evening(f, acts).world.log[i] in Evening(f, acts).world.log;
  }

  /**
    The third vote counts: a tick of an evening settles the running track as skipped by the community
    exactly if it received three skips of others, nothing else cuts it short in the same tick, its DJ is
    still there, and the last such skip is fifteen seconds old.
   */
  lemma {:induction false} ThirdVoteSkips(f: Floor, acts: seq<Act>, c: string, inp: Input)
    requires Opening(f) && ClubsOk(f.world) && AllowedRun(f, acts)
    requires Allowed(Evening(f, acts), Happened(Ticked(c, inp)))
    ensures var g := Evening(f, acts);
            var s := g.world.clubs[c];
            var p := Loaded(s, inp).play.value;
            && (s.play.Some? ==> OrderOk(s.play.value.order))
            && (Verdicts.SettledAs(Tick(s, c, inp).attempts, CommunitySkipped)
                <==> Verdicts.Playing(s, inp) && !Verdicts.Sheltered(p, inp) && !inp.skip
                     && !Verdicts.BrokenDue(s, p, inp)
                     && Moods.Received(g.heard[c], "skip", p.pos) >= 3 && inp.now - s.moodSkipAt >= 15_000)
  {
    hide Evening, AllowedRun, Tallied, Inv, Tick, ClubOk, Moods.Received, Upto, Verdicts.BrokenDue, Verdicts.Sheltered;
    hide Verdicts.Playing, Loaded, Verdicts.SettledAs, Skipped, Banged;
    BootHolds(f.world);
    EveningKeeps(f, acts, f.world);
    EveningKeepsClubs(f, acts);
    var g := Evening(f, acts);
    var s := g.world.clubs[c];
    ClubPlays(s);
    CountersTell(g.heard[c], Position(s));
    LoadedShape(s, c, inp);
    Verdicts.OutcomeIsExact(s, c, inp);
  }

  /** A track's reactions: what the ledger should hold for it. */
  function Votes(heard: map<string, seq<Moods.Event>>, s: Settlement): int {
    if s.club in heard then Moods.Min(Moods.Received(heard[s.club], "banger", s.pos), 5) else 0
  }

  lemma {:induction false} FirstsAreSettled(ss: seq<Settlement>)
    ensures forall s | s in Firsts(ss) :: s in ss
  {
    if ss != [] { FirstsAreSettled(ss[..|ss| - 1]); }
  }

  lemma {:induction false} SameTotal(fs: seq<Settlement>, dj: string, f: Settlement -> int, g: Settlement -> int)
    requires forall s | s in fs :: f(s) == g(s)
    ensures Total(fs, dj, f) == Total(fs, dj, g)
  {
    if fs != [] { SameTotal(fs[..|fs| - 1], dj, f, g); }
  }

  /**
    From reaction to ledger: the votes the ledger credits a DJ with are the capped reactions of others
    to each track he had settled, every track once.
   */
  lemma {:induction false} LedgerCountsReactions(f: Floor, acts: seq<Act>, dj: string)
    requires Opening(f) && ClubsOk(f.world) && AllowedRun(f, acts)
    ensures var g := Evening(f, acts);
            var ss := Settlements(g.world.log);
            EntryFor(RecordAll(EMPTY, ss).totals, dj).bangers == Total(Firsts(ss), dj, s => Votes(g.heard, s))
  {
    hide Evening, AllowedRun, Run, LegalRun, Firsts, RecordAll, Opening, ClubsOk, Moods.Received, Orderly, Rising;
    hide Tallied, Bangers, Votes, Total, Moods.Min;
    var g := Evening(f, acts);
    var log := g.world.log;
    var ss := Settlements(log);
    EveningIsRun(f, acts);
    NothingBefore(f, acts);
    RunLedger([], f.world, Events(acts), dj);
    assert [] + ss == ss;
    FirstsAreSettled(ss);
    forall s | s in Firsts(ss) ensures Bangers(s) == Votes(g.heard, s) {
      var i :| 0 <= i < |ss| && ss[i] == s;
      SettlementsCountReactions(f, acts, i);
      VotesAreBangers(log[i], g.heard);
    }
    SameTotal(Firsts(ss), dj, Bangers, s => Votes(g.heard, s));
  }

  lemma VotesAreBangers(a: Attempt, heard: map<string, seq<Moods.Event>>)
    requires a.settlement.club in heard && Tallied(a, heard[a.settlement.club])
    ensures Bangers(a.settlement) == Votes(heard, a.settlement)
  {
    hide Moods.Received;
  }

  lemma NothingBefore(f: Floor, acts: seq<Act>)
    requires Opening(f)
    ensures Boot(f.world) && Earlier([], f.world) && RecordAll(EMPTY, []) == EMPTY
  {
  }
}
