/**
  Whole runs of the conductor: any number of clubs, each ticked with a strictly increasing clock,
  with queue events arriving in between. One run is one life of the process; clubs may be evicted
  and resumed from their saved row any number of times in it.
 */
module PlaybackRuns {
  import opened Wrappers
  import opened AutoOrder
  import opened QueueTags
  import opened Credibility
  import opened Playback
  import Sorting

  // ── what one tick does to a club ────────────────────────────────────────────

  function Position(s: Club): int {
    if s.play.Some? then s.play.value.pos else if s.row.Some? then s.row.value.pos else 0
  }

  function Began(s: Club): int {
    if s.play.Some? then s.play.value.startedAt else if s.row.Some? then s.row.value.startedAt else 0
  }

  /** The track a club is playing, as the record of its start. */
  function Air(s: Club, club: string): Option<Start> {
    if s.play.Some? && s.play.value.playing then Some(StartOf(club, s.play.value)) else None
  }

  /** A club that is not playing has its position saved. */
  predicate Parked(row: Option<Saved>, p: Play) {
    match row
    case None => p.pos == 0 && p.startedAt == 0
    case Some(r) => r.pos == p.pos && r.startedAt == p.startedAt && !r.playing
  }

  ghost predicate ClubOk(s: Club) {
    s.play.Some? ==> OrderOk(s.play.value.order) && (s.play.value.playing || Parked(s.row, s.play.value))
  }

  /** A saved row that claims to be playing while nothing is in memory: only before the first tick. */
  predicate Dormant(s: Club) {
    s.play.None? && s.row.Some? && s.row.value.playing
  }

  predicate About(a: Attempt, st: Start) {
    && a.settlement.club == st.club && a.settlement.pos == st.pos && a.settlement.startedAt == st.startedAt
    && a.settlement.videoID == st.videoID && a.settlement.dj == st.dj && a.settlement.auto == st.auto
    && a.duration == st.duration
  }

  /** The track ran its whole length, or ten minutes when its length is unknown. */
  predicate RanInFull(a: Attempt) {
    a.at - a.settlement.startedAt >= 1000 * FullLength(a.duration)
  }

  /** A later attempt on the same track that only changes the outcome. */
  predicate Echo(a: Attempt, b: Attempt) {
    b == a.(settlement := a.settlement.(outcome := Played))
  }

  ghost predicate SettlesAir(air: Option<Start>, attempts: seq<Attempt>) {
    && |attempts| <= 2
    && (attempts != [] ==> air.Some?)
    && (forall a | a in attempts :: About(a, air.value))
    && (|attempts| == 2 ==> Echo(attempts[0], attempts[1]))
    && (attempts != [] && attempts[0].settlement.outcome.Played? ==> RanInFull(attempts[0]))
  }

  ghost predicate Shape(s: Club, club: string, inp: Input, e: Effect) {
    && ClubOk(e.club)
    && (Dormant(e.club) ==> e.club == s)
    && SettlesAir(Air(Loaded(s, inp), club), e.attempts)
    && |e.starts| <= 1
    && Position(e.club) == Position(s) + |e.starts|
    && (if e.starts == [] then
          Began(e.club) == Began(s) && (e.attempts == [] ==> Air(s, club).Some? ==> Air(e.club, club) == Air(s, club))
        else
          && e.starts[0] == Start(club, Position(e.club), e.starts[0].dj, e.starts[0].videoID,
                                  e.starts[0].duration, inp.now, e.starts[0].auto)
          && Began(e.club) == inp.now && Air(e.club, club) == Some(e.starts[0])
          && (Air(s, club).Some? ==> e.attempts != []))
    && (e.starts == [] && Air(e.club, club).Some? ==> Air(e.club, club) == Air(Loaded(s, inp), club))
    && (e.starts == [] && e.attempts != [] ==> Air(e.club, club).None? && !Dormant(e.club))
  }

  lemma LoadedShape(s: Club, club: string, inp: Input)
    requires ClubOk(s)
    ensures var l := Loaded(s, inp);
            && l.play.Some? && ClubOk(l) && Position(l) == Position(s) && Began(l) == Began(s)
            && (Air(s, club).Some? ==> l == s)
  {
  }

  /** Settling and stopping to the lobby. */
  lemma StopShape(s: Club, club: string, p: Play, inp: Input, outcome: Outcome, e: Effect)
    requires s.play == Some(p) && ClubOk(s) && (p.playing && outcome.Played? ==> Ended(p, inp.now))
    requires e.attempts == Settle(club, p, inp, outcome) + Settle(club, p, inp, Played) && e.starts == []
    requires e.club.play == Some(Stopped(p, inp.now)) && e.club.row == Some(Save(Stopped(p, inp.now)))
    ensures Shape(s, club, inp, e)
  {
    hide OrderOk, RanInFull, Ended;
    EndedRanInFull(club, p, inp, outcome);
    LoadedShape(s, club, inp);
  }

  /** Settling and starting the next track. */
  lemma StartShape(s: Club, club: string, p: Play, q: Play, inp: Input, outcome: Outcome, e: Effect)
    requires s.play == Some(p) && ClubOk(s) && (p.playing && outcome.Played? ==> Ended(p, inp.now))
    requires e.attempts == Settle(club, p, inp, outcome) && e.starts == [StartOf(club, q)]
    requires e.club.play == Some(q) && q.playing && q.pos == p.pos + 1 && q.startedAt == inp.now && OrderOk(q.order)
    ensures Shape(s, club, inp, e)
  {
    hide OrderOk, RanInFull, Ended;
    EndedRanInFull(club, p, inp, outcome);
    LoadedShape(s, club, inp);
  }

  lemma {:induction false} AdvanceShape(s: Club, club: string, p: Play, inp: Input, outcome: Outcome)
    requires s.play == Some(p) && ClubOk(s)
    requires p.playing && outcome.Played? ==> Ended(p, inp.now)
    ensures Shape(s, club, inp, Playback.Advance(s, club, p, inp, outcome))
  {
    hide Shape, MarkedOff, MatrixOf, KeptMarks, RoundRobin.Pick, OrderOk, Tracks, WithMark, RoundRobin.Index, Ended,
         Settle, Stopped;
    var e := Playback.Advance(s, club, p, inp, outcome);
    if e.starts == [] {
      StopShape(s, club, p, inp, outcome, e);
    } else {
      assert e.attempts == Settle(club, p, inp, outcome);
      StartShape(s, club, p, e.club.play.value, inp, outcome, e);
    }
  }

  lemma EndedRanInFull(club: string, p: Play, inp: Input, outcome: Outcome)
    ensures RanInFull(AttemptOf(club, p, inp, outcome)) <==> Ended(p, inp.now)
  {
    EndedMeansFullLength(p, inp.now);
  }

  lemma JudgeShape(s: Club, p: Play, inp: Input)
    ensures var v := Judge(s, p, inp);
            v.Move? ==> v.club.play == s.play && v.club.row == s.row
                        && (p.playing && v.outcome.Played? ==> Ended(p, inp.now))
    ensures Judge(s, p, inp).Beat? ==> p.playing
    ensures Judge(s, p, inp).Rest? ==> !p.playing
  {
  }

  lemma JudgeAutoShape(s: Club, p: Play, inp: Input)
    ensures var v := JudgeAuto(s, p, inp);
            v.Move? ==> v.club.play == s.play && v.club.row == s.row
                        && (p.playing && v.outcome.Played? ==> Ended(p, inp.now))
    ensures !JudgeAuto(s, p, inp).Move? ==> p.playing
  {
  }

  /** Loading changes neither the position nor what is on the air. */
  lemma ShapeFromLoaded(s: Club, l: Club, club: string, inp: Input, e: Effect)
    requires ClubOk(s) && l.play == Loaded(s, inp).play && l.row == Loaded(s, inp).row
    requires Shape(l, club, inp, e) && e.club.play.Some?
    ensures Shape(s, club, inp, e)
  {
    hide OrderOk, SettlesAir, Resumed;
    LoadedShape(s, club, inp);
  }

  /** A tick that leaves the running track alone, apart from its heartbeat and order. */
  lemma RestShape(l: Club, club: string, p: Play, q: Play, inp: Input, e: Effect)
    requires l.play == Some(p) && ClubOk(l) && e.attempts == [] && e.starts == []
    requires e.club.play == Some(q) && e.club.row == l.row && OrderOk(q.order)
    requires q == p.(lastBeat := q.lastBeat, order := q.order)
    ensures Shape(l, club, inp, e)
  {
    hide OrderOk;
  }

  lemma {:induction false} DriveClubShape(s: Club, club: string, inp: Input)
    requires ClubOk(s)
    ensures Shape(s, club, inp, DriveClub(s, club, inp))
  {
    hide Shape, Judge, Playback.Advance, OrderOk, Ended, Resumed, Loaded;
    var l := Loaded(s, inp);
    LoadedShape(s, club, inp);
    var p := l.play.value;
    var e := DriveClub(s, club, inp);
    JudgeShape(l, p, inp);
    match Judge(l, p, inp) {
      case Rest => RestShape(l, club, p, p, inp, e);
      case Beat => RestShape(l, club, p, Beaten(p, inp.now), inp, e);
      case Move(outcome, l') =>
        AdvanceShape(l', club, p, inp, outcome);
        AdvanceKeepsLoaded(l', club, p, inp, outcome);
        ShapeFromLoaded(s, l', club, inp, e);
    }
    if !Judge(l, p, inp).Move? { ShapeFromLoaded(s, l, club, inp, e); }
  }

  lemma AdvanceKeepsLoaded(s: Club, club: string, p: Play, inp: Input, outcome: Outcome)
    ensures Playback.Advance(s, club, p, inp, outcome).club.play.Some?
  {
    hide MarkedOff, MatrixOf, KeptMarks, RoundRobin.Pick, Tracks, WithMark, RoundRobin.Index, Settle, Stopped;
  }

  lemma {:induction false} DriveAutoShape(s: Club, club: string, a: Armed, inp: Input)
    requires a.tracks != [] && ClubOk(s)
    ensures Shape(s, club, inp, DriveAuto(s, club, a, inp))
  {
    hide Shape, JudgeAuto, GoDiv, FullLength, Ready, Turned, Announce, Resumed, OrderOk, Loaded;
    var l, n := Loaded(s, inp), |a.tracks|;
    LoadedShape(s, club, inp);
    PreparedReady(l.play.value.order, n, inp.initSwaps);
    var p := l.play.value.(order := Prepared(l.play.value.order, n, inp.initSwaps));
    JudgeAutoShape(l, p, inp);
    TurnedReady(p, n, inp);
    ApplyReady(p.order, n, Show(PREVIEW_MAX, inp.showSwaps));
    ApplyReady(Turned(p, n, inp), n, Show(PREVIEW_MAX, inp.showSwaps));
    ReadyOk(Announce(p.order, n, PREVIEW_MAX, inp.showSwaps), n);
    ReadyOk(Announce(Turned(p, n, inp), n, PREVIEW_MAX, inp.showSwaps), n);
    ReadyOk(p.order, n);
    var e := DriveAuto(s, club, a, inp);
    match JudgeAuto(l, p, inp) {
      case Move(outcome, l') =>
        StartShape(l', club, l.play.value, e.club.play.value, inp, outcome, e);
        ShapeFromLoaded(s, l', club, inp, e);
      case _ =>
        RestShape(l, club, l.play.value, e.club.play.value, inp, e);
        ShapeFromLoaded(s, l, club, inp, e);
    }
  }

  lemma ReadyOk(o: Auto, n: nat)
    requires Ready(o, n)
    ensures OrderOk(o)
  {
  }

  lemma AbandonShape(s: Club, club: string, inp: Input)
    requires ClubOk(s)
    ensures Shape(s, club, inp, Abandon(s, club, inp))
  {
    hide OrderOk, Resumed, RanInFull, Ended;
    if s.play.Some? { EndedRanInFull(club, s.play.value, inp, Played); }
  }

  /** What every tick keeps, whichever of the three ways it drives the club. */
  lemma {:induction false} TickShape(s: Club, club: string, inp: Input)
    requires Sensible(inp) && ClubOk(s)
    ensures Shape(s, club, inp, Tick(s, club, inp))
  {
    hide Shape, DriveClub, DriveAuto, Abandon, OrderOk;
    if inp.djs != [] {
      DriveClubShape(s, club, inp);
    } else if inp.auto.Some? {
      DriveAutoShape(s, club, inp.auto.value, inp);
    } else {
      AbandonShape(s, club, inp);
    }
  }

  // ── runs ────────────────────────────────────────────────────────────────────

  datatype World = World(
    clubs: map<string, Club>, clock: map<string, int>, log: seq<Attempt>, starts: seq<Start>)

  datatype Event = Ticked(club: string, inp: Input) | Queued(club: string, dj: string, queue: QueueEvent)

  predicate Legal(w: World, e: Event) {
    e.club in w.clubs && e.club in w.clock && (e.Ticked? ==> Sensible(e.inp) && e.inp.now > w.clock[e.club])
  }

  ghost predicate ClubsOk(w: World) {
    forall c | c in w.clubs :: ClubOk(w.clubs[c])
  }

  ghost function Do(w: World, e: Event): World
    requires Legal(w, e) && ClubsOk(w)
  {
    match e
    case Ticked(c, inp) => Stepped(w, c, inp, Tick(w.clubs[c], c, inp))
    case Queued(c, dj, q) => w.(clubs := w.clubs[c := QueueIndexed(w.clubs[c], dj, q)])
  }

  function Stepped(w: World, c: string, inp: Input, e: Effect): World {
    World(w.clubs[c := e.club], w.clock[c := inp.now], w.log + e.attempts, w.starts + e.starts)
  }

  lemma {:induction false} DoKeepsClubs(w: World, e: Event)
    requires Legal(w, e) && ClubsOk(w)
    ensures ClubsOk(Do(w, e))
  {
    hide Tick, OrderOk;
    if e.Ticked? { TickShape(w.clubs[e.club], e.club, e.inp); }
  }

  ghost predicate LegalRun(w: World, es: seq<Event>)
    requires ClubsOk(w)
    decreases |es|
  {
    if es == [] then true
    else Legal(w, es[0]) && (DoKeepsClubs(w, es[0]); LegalRun(Do(w, es[0]), es[1..]))
  }

  ghost function Run(w: World, es: seq<Event>): World
    requires ClubsOk(w) && LegalRun(w, es)
    decreases |es|
  {
    if es == [] then w
    else
      DoKeepsClubs(w, es[0]);
      Run(Do(w, es[0]), es[1..])
  }

  /** The process has just started: nothing in memory, arbitrary saved rows from the past. */
  ghost predicate Boot(w: World) {
    && w.log == [] && w.starts == [] && w.clock.Keys == w.clubs.Keys
    && forall c | c in w.clubs :: w.clubs[c].play.None? && Began(w.clubs[c]) <= w.clock[c]
  }

  // ── the invariants ──────────────────────────────────────────────────────────

  /** A start of the club: the current one, or an earlier position with an earlier time. */
  predicate Behind(pos: int, startedAt: int, s: Club) {
    (pos < Position(s) && startedAt < Began(s)) || (pos == Position(s) && startedAt == Began(s))
  }

  ghost predicate Tracked(w: World, boot: World) {
    && w.clubs.Keys == w.clock.Keys == boot.clubs.Keys
    && forall c | c in w.clubs ::
         && ClubOk(w.clubs[c]) && Began(w.clubs[c]) <= w.clock[c]
         && (Dormant(w.clubs[c]) ==> Position(w.clubs[c]) == Position(boot.clubs[c]))
         && Count(w.starts, c) == Position(w.clubs[c]) - Position(boot.clubs[c])
  }

  /** How many tracks the club has started. */
  function Count(starts: seq<Start>, club: string): nat {
    if starts == [] then 0
    else Count(starts[..|starts| - 1], club) + if starts[|starts| - 1].club == club then 1 else 0
  }

  ghost predicate Placed(w: World) {
    && (forall a | a in w.log ::
          a.settlement.club in w.clubs
          && Behind(a.settlement.pos, a.settlement.startedAt, w.clubs[a.settlement.club]))
    && (forall st | st in w.starts :: st.club in w.clubs && Behind(st.pos, st.startedAt, w.clubs[st.club]))
  }

  /** A settled track is off the air for good. */
  ghost predicate Quiet(w: World)
    requires Placed(w)
  {
    forall a | a in w.log ::
      var c := a.settlement.club;
      a.settlement.pos == Position(w.clubs[c]) ==> Air(w.clubs[c], c).None? && !Dormant(w.clubs[c])
  }

  /** Within a club positions and times rise together; only the echo of a stop repeats a track. */
  ghost predicate Timed(log: seq<Attempt>) {
    forall i, j | 0 <= i < j < |log| && log[i].settlement.club == log[j].settlement.club ::
      || (log[i].settlement.pos < log[j].settlement.pos && log[i].settlement.startedAt < log[j].settlement.startedAt)
      || (j == i + 1 && Echo(log[i], log[j]))
  }

  /** The k-th start of a club in the run has the k-th position after the booted one. */
  ghost predicate Numbered(starts: seq<Start>, boot: World) {
    forall i | 0 <= i < |starts| ::
      starts[i].club in boot.clubs
      && starts[i].pos == Position(boot.clubs[starts[i].club]) + Count(starts[..i], starts[i].club) + 1
  }

  ghost predicate Honest(log: seq<Attempt>) {
    forall i | 0 <= i < |log| && log[i].settlement.outcome.Played? ::
      RanInFull(log[i]) || (i > 0 && Echo(log[i - 1], log[i]))
  }

  /** Every started track has been settled or is the one its club is playing. */
  ghost predicate Covered(w: World) {
    forall st | st in w.starts ::
      st.club in w.clubs && (Air(w.clubs[st.club], st.club) == Some(st) || exists a :: a in w.log && About(a, st))
  }

  /** Whatever is playing or settled beyond the booted position was started in this run. */
  ghost predicate Known(w: World, boot: World)
    requires w.clubs.Keys == boot.clubs.Keys && Placed(w)
  {
    && (forall c | c in w.clubs && Air(w.clubs[c], c).Some? && Position(w.clubs[c]) > Position(boot.clubs[c]) ::
          Air(w.clubs[c], c).value in w.starts)
    && (forall a | a in w.log && a.settlement.pos > Position(boot.clubs[a.settlement.club]) ::
          exists st :: st in w.starts && About(a, st))
  }

  /** At or after the booted track of the club. */
  predicate After(pos: int, startedAt: int, booted: Club) {
    (pos > Position(booted) && startedAt > Began(booted)) || (pos == Position(booted) && startedAt == Began(booted))
  }

  /** The run goes on from where the clubs were booted. */
  ghost predicate Since(w: World, boot: World)
    requires w.clubs.Keys == boot.clubs.Keys && Placed(w)
  {
    && (forall c | c in w.clubs :: After(Position(w.clubs[c]), Began(w.clubs[c]), boot.clubs[c]))
    && (forall a | a in w.log :: After(a.settlement.pos, a.settlement.startedAt, boot.clubs[a.settlement.club]))
  }

  ghost predicate Inv(w: World, boot: World) {
    Tracked(w, boot) && Placed(w) && Quiet(w) && Timed(w.log) && Numbered(w.starts, boot) && Honest(w.log)
        && Covered(w) && Known(w, boot)
    && Since(w, boot)
  }

  lemma BootHolds(w: World)
    requires Boot(w)
    ensures ClubsOk(w) && Inv(w, w)
  {
  }

  // ── one step keeps them ─────────────────────────────────────────────────────

  /** The club's track before and after loading is the one at its position. */
  lemma AirPlace(s: Club, club: string, inp: Input)
    requires ClubOk(s)
    ensures Air(s, club).Some? ==> Air(s, club).value.pos == Position(s)
    ensures var air := Air(Loaded(s, inp), club);
            && (air.Some? ==> air.value.club == club && air.value.pos == Position(s) && air.value.startedAt == Began(s))
            && (air.Some? ==> air == Air(s, club) || Dormant(s))
  {
  }

  lemma CountSnoc(starts: seq<Start>, st: Start, club: string)
    ensures Count(starts + [st], club) == Count(starts, club) + if st.club == club then 1 else 0
  {
    assert (starts + [st])[..|starts|] == starts;
  }

  lemma ShapeOfClub(s: Club, c: string, inp: Input, e: Effect)
    requires Shape(s, c, inp, e)
    ensures ClubOk(e.club) && (Dormant(e.club) ==> e.club == s)
    ensures Position(e.club) == Position(s) + |e.starts| && |e.starts| <= 1
    ensures Began(e.club) == (if e.starts == [] then Began(s) else inp.now)
    ensures e.starts != [] ==> e.starts[0].club == c
  {
    hide ClubOk, SettlesAir, Loaded, Air;
  }

  lemma {:induction false} TrackedStep(w: World, boot: World, c: string, inp: Input, e: Effect)
    requires Tracked(w, boot) && c in w.clubs && inp.now > w.clock[c]
    requires Shape(w.clubs[c], c, inp, e)
    ensures Tracked(Stepped(w, c, inp, e), boot)
  {
    hide ClubOk, Shape, Position, Began, Dormant;
    ShapeOfClub(w.clubs[c], c, inp, e);
    var w2 := Stepped(w, c, inp, e);
    forall d | d in w2.clubs
      ensures Count(w2.starts, d) == Position(w2.clubs[d]) - Position(boot.clubs[d])
    {
      if e.starts == [] {
        assert w2.starts == w.starts;
      } else {
        assert e.starts == [e.starts[0]];
        CountSnoc(w.starts, e.starts[0], d);
      }
    }
  }

  lemma PlacedStep(w: World, c: string, inp: Input, e: Effect)
    requires Placed(w) && c in w.clubs && Shape(w.clubs[c], c, inp, e) && ClubOk(w.clubs[c])
    requires Began(w.clubs[c]) < inp.now
    ensures Placed(Stepped(w, c, inp, e))
  {
    hide ClubOk, Loaded;
    AirPlace(w.clubs[c], c, inp);
  }

  lemma QuietStep(w: World, c: string, inp: Input, e: Effect)
    requires Placed(w) && Quiet(w) && c in w.clubs && Shape(w.clubs[c], c, inp, e) && ClubOk(w.clubs[c])
    ensures Placed(Stepped(w, c, inp, e)) ==> Quiet(Stepped(w, c, inp, e))
  {
    hide ClubOk, Loaded, Began, SettlesAir;
    AirPlace(w.clubs[c], c, inp);
    ShapeOfAttempts(w.clubs[c], c, inp, e);
  }

  lemma ShapeOfAttempts(s: Club, c: string, inp: Input, e: Effect)
    requires Shape(s, c, inp, e) && ClubOk(s)
    ensures forall a | a in e.attempts ::
              a.settlement.club == c && a.settlement.pos == Position(s) && a.settlement.startedAt == Began(s)
    ensures |e.attempts| <= 2 && (|e.attempts| == 2 ==> Echo(e.attempts[0], e.attempts[1]))
    ensures e.attempts != [] ==> Air(s, c).Some? || Dormant(s)
  {
    hide ClubOk, Loaded;
    AirPlace(s, c, inp);
  }

  lemma TimedStep(w: World, c: string, inp: Input, e: Effect)
    requires Placed(w) && Quiet(w) && Timed(w.log) && c in w.clubs && Shape(w.clubs[c], c, inp, e) && ClubOk(w.clubs[c])
    ensures Timed(w.log + e.attempts)
  {
    hide ClubOk, Loaded, Air, Shape, Echo;
    ShapeOfAttempts(w.clubs[c], c, inp, e);
    var log := w.log + e.attempts;
    forall i, j | 0 <= i < j < |log| && log[i].settlement.club == log[j].settlement.club
      ensures (log[i].settlement.pos < log[j].settlement.pos
          && log[i].settlement.startedAt < log[j].settlement.startedAt)
              || (j == i + 1 && Echo(log[i], log[j]))
    {
      if j >= |w.log| {
        assert log[j] in e.attempts;
        assert if i < |w.log| then log[i] in w.log else log[i] in e.attempts;
      }
    }
  }

  lemma {:induction false} NumberedStep(w: World, boot: World, c: string, inp: Input, e: Effect)
    requires Tracked(w, boot) && Numbered(w.starts, boot) && c in w.clubs && Shape(w.clubs[c], c, inp, e)
    ensures Numbered(w.starts + e.starts, boot)
  {
    hide ClubOk, Loaded, Air, SettlesAir;
    var starts := w.starts + e.starts;
    forall i | 0 <= i < |starts|
      ensures starts[i].club in boot.clubs
      ensures starts[i].pos == Position(boot.clubs[starts[i].club]) + Count(starts[..i], starts[i].club) + 1
    {
      assert starts[..i] == w.starts[..i];
      if i == |w.starts| { assert w.starts[..i] == w.starts; }
    }
  }

  lemma HonestStep(log: seq<Attempt>, air: Option<Start>, more: seq<Attempt>)
    requires Honest(log) && SettlesAir(air, more)
    ensures Honest(log + more)
  {
    var all := log + more;
    forall i | 0 <= i < |all| && all[i].settlement.outcome.Played?
      ensures RanInFull(all[i]) || (i > 0 && Echo(all[i - 1], all[i]))
    {
      if i < |log| {
        assert i > 0 ==> all[i - 1] == log[i - 1];
      } else if i == |log| {
        assert all[i] == more[0];
      } else {
        assert all[i - 1] == more[0] && all[i] == more[1];
      }
    }
  }

  lemma CoveredStep(w: World, c: string, inp: Input, e: Effect)
    requires Covered(w) && c in w.clubs && Shape(w.clubs[c], c, inp, e) && ClubOk(w.clubs[c])
    ensures Covered(Stepped(w, c, inp, e))
  {
    hide ClubOk, Loaded;
    LoadedShape(w.clubs[c], c, inp);
    var w2 := Stepped(w, c, inp, e);
    forall st | st in w2.starts
      ensures st.club in w2.clubs
              && (Air(w2.clubs[st.club], st.club) == Some(st) || exists a :: a in w2.log && About(a, st))
    {
      if st in w.starts {
        if a :| a in w.log && About(a, st) {
          assert a in w2.log;
        } else if st.club == c && e.attempts != [] {
          assert e.attempts[0] in w2.log;
        }
      }
    }
  }

  lemma KnownStep(w: World, boot: World, c: string, inp: Input, e: Effect)
    requires Tracked(w, boot) && Placed(w) && Known(w, boot) && c in w.clubs && Shape(w.clubs[c], c, inp, e)
    ensures var w2 := Stepped(w, c, inp, e); w2.clubs.Keys == boot.clubs.Keys && (Placed(w2) ==> Known(w2, boot))
  {
    hide ClubOk, Loaded, Began, Count, Placed;
    AirPlace(w.clubs[c], c, inp);
    var w2 := Stepped(w, c, inp, e);
    assert w2.clubs.Keys == w.clubs.Keys;
    forall d | d in w2.clubs && Air(w2.clubs[d], d).Some? && Position(w2.clubs[d]) > Position(boot.clubs[d])
      ensures Air(w2.clubs[d], d).value in w2.starts
    {
      if d == c && e.starts != [] { assert e.starts[0] in w2.starts; }
    }
    forall a | Placed(w2) && a in w2.log && a.settlement.club in boot.clubs
               && a.settlement.pos > Position(boot.clubs[a.settlement.club])
      ensures exists st :: st in w2.starts && About(a, st)
    {
      if a in w.log {
        assert a.settlement.club in w.clubs by { PlacedHere(w, a); }
        var st :| st in w.starts && About(a, st);
        assert st in w2.starts;
      } else {
        var st := Air(Loaded(w.clubs[c], inp), c).value;
        assert st in w2.starts;
      }
    }
    if Placed(w2) {
      forall a | a in w2.log ensures a.settlement.club in boot.clubs { PlacedHere(w2, a); }
    }
  }

  lemma SinceStep(w: World, boot: World, c: string, inp: Input, e: Effect)
    requires Tracked(w, boot) && Placed(w) && Since(w, boot) && c in w.clubs && inp.now > w.clock[c]
    requires Shape(w.clubs[c], c, inp, e)
    ensures var w2 := Stepped(w, c, inp, e); w2.clubs.Keys == boot.clubs.Keys && (Placed(w2) ==> Since(w2, boot))
  {
    hide ClubOk, Shape, Position, Began, Dormant, Count, Placed;
    ShapeOfClub(w.clubs[c], c, inp, e);
    ShapeOfAttempts(w.clubs[c], c, inp, e);
    var w2 := Stepped(w, c, inp, e);
    assert w2.clubs.Keys == w.clubs.Keys;
    forall a | a in w2.log && Placed(w2)
      ensures a.settlement.club in boot.clubs
          && After(a.settlement.pos, a.settlement.startedAt, boot.clubs[a.settlement.club])
    {
      PlacedHere(w2, a);
      if a in w.log { PlacedHere(w, a); }
    }
  }

  lemma PlacedHere(w: World, a: Attempt)
    requires Placed(w) && a in w.log
    ensures a.settlement.club in w.clubs
  {
  }

  lemma {:induction false} QueuedKeepsInv(w: World, boot: World, c: string, dj: string, q: QueueEvent)
    requires Inv(w, boot) && c in w.clubs
    ensures Inv(w.(clubs := w.clubs[c := QueueIndexed(w.clubs[c], dj, q)]), boot)
  {
    hide Inv, OrderOk, QueueTags.Parse, Accepts, AnyActive;
    var s2 := QueueIndexed(w.clubs[c], dj, q);
    assert s2.play == w.clubs[c].play && s2.row == w.clubs[c].row;
    var w2 := w.(clubs := w.clubs[c := s2]);
    forall d | d in w.clubs
      ensures Position(w2.clubs[d]) == Position(w.clubs[d]) && Began(w2.clubs[d]) == Began(w.clubs[d])
      ensures Air(w2.clubs[d], d) == Air(w.clubs[d], d) && (ClubOk(w2.clubs[d]) <==> ClubOk(w.clubs[d]))
      ensures Dormant(w2.clubs[d]) <==> Dormant(w.clubs[d])
    {
    }
    PlayUntouched(w, w2, boot);
  }

  /** The invariants read nothing of a club but its playback state. */
  lemma {:induction false} PlayUntouched(w: World, w2: World, boot: World)
    requires Inv(w, boot) && w2.clubs.Keys == w.clubs.Keys && w2 == w.(clubs := w2.clubs)
    requires forall d | d in w.clubs ::
               && Position(w2.clubs[d]) == Position(w.clubs[d]) && Began(w2.clubs[d]) == Began(w.clubs[d])
               && Air(w2.clubs[d], d) == Air(w.clubs[d], d) && (ClubOk(w2.clubs[d]) <==> ClubOk(w.clubs[d]))
               && (Dormant(w2.clubs[d]) <==> Dormant(w.clubs[d]))
    ensures Inv(w2, boot)
  {
    hide Count, Timed, Numbered, Honest, Position, Began, Air, ClubOk, Dormant, About;
  }

  lemma {:induction false} DoKeepsInv(w: World, boot: World, e: Event)
    requires Inv(w, boot) && Legal(w, e)
    ensures ClubsOk(w) && ClubsOk(Do(w, e)) && Inv(Do(w, e), boot)
  {
    hide Shape, Tick, OrderOk, Parked, Covered, Numbered, Honest, Timed, Quiet, Known, Since, QueueIndexed, Count,
         Dormant, Air, Position, Began;
    assert ClubsOk(w);
    DoKeepsClubs(w, e);
    match e
    case Queued(c, dj, q) => QueuedKeepsInv(w, boot, c, dj, q);
    case Ticked(c, inp) =>
      var f := Tick(w.clubs[c], c, inp);
      TickShape(w.clubs[c], c, inp);
      TrackedStep(w, boot, c, inp, f);
      PlacedStep(w, c, inp, f);
      QuietStep(w, c, inp, f);
      TimedStep(w, c, inp, f);
      NumberedStep(w, boot, c, inp, f);
      ShapeSettles(w.clubs[c], c, inp, f);
      HonestStep(w.log, Air(Loaded(w.clubs[c], inp), c), f.attempts);
      CoveredStep(w, c, inp, f);
      KnownStep(w, boot, c, inp, f);
      SinceStep(w, boot, c, inp, f);
  }

  lemma ShapeSettles(s: Club, c: string, inp: Input, e: Effect)
    requires Shape(s, c, inp, e)
    ensures SettlesAir(Air(Loaded(s, inp), c), e.attempts)
  {
  }

  lemma {:induction false} RunKeepsInv(w: World, boot: World, es: seq<Event>)
    requires Inv(w, boot) && ClubsOk(w) && LegalRun(w, es)
    ensures Inv(Run(w, es), boot)
    decreases |es|
  {
    hide Inv, Do, Legal, ClubsOk;
    if es != [] {
      DoKeepsInv(w, boot, es[0]);
      RunKeepsInv(Do(w, es[0]), boot, es[1..]);
    }
  }

  // ── what runs guarantee ─────────────────────────────────────────────────────

  lemma {:induction false} RunKeepsAll(w: World, es: seq<Event>)
    requires Boot(w) && ClubsOk(w) && LegalRun(w, es)
    ensures Inv(Run(w, es), w)
  {
    BootHolds(w);
    RunKeepsInv(w, w, es);
  }

  /** Within a club positions and start times rise together, and a position belongs to one start. */
  ghost predicate Rising(ss: seq<Settlement>) {
    forall i, j | 0 <= i < j < |ss| && WellFormed(ss[i]) && WellFormed(ss[j]) && ss[i].club == ss[j].club ::
      (ss[i].pos < ss[j].pos && ss[i].startedAt < ss[j].startedAt) || SameTrack(ss[i], ss[j])
  }

  /** An earlier life's settlements lie at or before the rows the process found. */
  ghost predicate Earlier(pre: seq<Settlement>, w: World) {
    Rising(pre) && forall s | s in pre && WellFormed(s) && s.club in w.clubs ::
        Behind(s.pos, s.startedAt, w.clubs[s.club])
  }

  /** The settlements of an earlier life followed by those of the run. */
  function Continued(pre: seq<Settlement>, log: seq<Attempt>): seq<Settlement> {
    pre + Settlements(log)
  }

  /** The settlement calls of a run continue the earlier ones in order. */
  lemma {:induction false} RunIsOrderly(pre: seq<Settlement>, w: World, es: seq<Event>)
    requires Boot(w) && ClubsOk(w) && LegalRun(w, es) && Earlier(pre, w)
    ensures Rising(Continued(pre, Run(w, es).log)) && Orderly(Continued(pre, Run(w, es).log))
  {
    hide Run, LegalRun, Inv, Rising;
    RunKeepsAll(w, es);
    InvPlaces(Run(w, es), w);
    JoinedRises(pre, w, Run(w, es));
    RisingIsOrderly(Continued(pre, Run(w, es).log));
  }

  lemma InvPlaces(w: World, boot: World)
    requires Inv(w, boot)
    ensures Timed(w.log)
    ensures forall a | a in w.log ::
              a.settlement.club in boot.clubs
                  && After(a.settlement.pos, a.settlement.startedAt, boot.clubs[a.settlement.club])
  {
    hide Tracked, Quiet, Timed, Numbered, Honest, Covered, Known, After, Behind;
    forall a | a in w.log
      ensures a.settlement.club in boot.clubs
          && After(a.settlement.pos, a.settlement.startedAt, boot.clubs[a.settlement.club])
    {
      PlacedHere(w, a);
      SameKeys(w, boot);
    }
  }

  lemma SameKeys(w: World, boot: World)
    requires Tracked(w, boot)
    ensures w.clubs.Keys == boot.clubs.Keys
  {
  }

  lemma JoinedRises(pre: seq<Settlement>, boot: World, v: World)
    requires Earlier(pre, boot) && Timed(v.log)
    requires forall a | a in v.log ::
               a.settlement.club in boot.clubs
                   && After(a.settlement.pos, a.settlement.startedAt, boot.clubs[a.settlement.club])
    ensures Rising(Continued(pre, v.log))
  {
    hide WellFormed, Position, Began;
    var ss, n := Continued(pre, v.log), |pre|;
    forall i, j | 0 <= i < j < |ss| && WellFormed(ss[i]) && WellFormed(ss[j]) && ss[i].club == ss[j].club
      ensures (ss[i].pos < ss[j].pos && ss[i].startedAt < ss[j].startedAt) || SameTrack(ss[i], ss[j])
    {
      if i >= n {
        assert ss[i] == v.log[i - n].settlement && ss[j] == v.log[j - n].settlement;
        EchoIsSameTrack(v.log[i - n], v.log[j - n]);
      } else if j >= n {
        assert ss[i] == pre[i] && ss[i] in pre;
        assert ss[j] == v.log[j - n].settlement && v.log[j - n] in v.log;
      } else {
        assert ss[i] == pre[i] && ss[j] == pre[j];
      }
    }
  }

  lemma EchoIsSameTrack(a: Attempt, b: Attempt)
    ensures Echo(a, b) ==> SameTrack(a.settlement, b.settlement)
  {
  }

  lemma RisingIsOrderly(ss: seq<Settlement>)
    requires Rising(ss)
    ensures Orderly(ss)
  {
    hide WellFormed;
  }

  /**
    The ledger of a run credits exactly the first settlement of every track, whatever later stops try
    to reclassify, and it continues the ledger it finds: a track that an earlier life has settled and
    this one resumes from its row is not settled again. Each DJ's row is the sum over the tracks
    settled in his name in all lives.
   */
  lemma {:induction false} RunLedger(pre: seq<Settlement>, w: World, es: seq<Event>, dj: string)
    requires Boot(w) && ClubsOk(w) && LegalRun(w, es) && Earlier(pre, w)
    ensures var fs := Firsts(Continued(pre, Run(w, es).log));
            var board := RecordAll(RecordAll(EMPTY, pre), Settlements(Run(w, es).log));
            && EntryFor(board.totals, dj)
               == Entry(dj, Total(fs, dj, Points), Total(fs, dj, One), Total(fs, dj, Bangers), Total(fs, dj, Skip))
            && board.history == Sorting.Take(Sorting.Sort(ListAll(fs), Better), 100)
  {
    hide Run, LegalRun, Earlier, Rising, Orderly, Settlements;
    RunIsOrderly(pre, w, es);
    var log := Run(w, es).log;
    RecordAllAppend(EMPTY, pre, Settlements(log));
    LastKeyIsEnough(Continued(pre, log));
    LedgerConservation(Continued(pre, log), dj);
  }

  lemma EchoIsNotFirst(log: seq<Attempt>, i: nat)
    requires i < |log|
    ensures i > 0 && Echo(log[i - 1], log[i]) ==> !First(Settlements(log), i)
  {
    var ss := Settlements(log);
    if i > 0 { assert ss[i - 1] == log[i - 1].settlement; }
  }

  /** A track that enters the ledger as played has run its full length, whichever path settled it. */
  lemma {:induction false} PlayedRanInFull(w: World, es: seq<Event>, i: nat)
    requires Boot(w) && ClubsOk(w) && LegalRun(w, es)
    ensures var log := Run(w, es).log;
            i < |log| && First(Settlements(log), i) && log[i].settlement.outcome.Played? ==> RanInFull(log[i])
  {
    hide Run, LegalRun, First, Echo, RanInFull, Timed, Numbered, Tracked, Known, Covered, Quiet, Placed;
    RunKeepsAll(w, es);
    if i < |Run(w, es).log| { EchoIsNotFirst(Run(w, es).log, i); }
  }

  /** Positions count the starts of a club: one more for each, and never back. */
  lemma {:induction false} PositionsCountStarts(w: World, es: seq<Event>, c: string)
    requires Boot(w) && ClubsOk(w) && LegalRun(w, es) && c in w.clubs
    ensures c in Run(w, es).clubs && Position(Run(w, es).clubs[c]) == Position(w.clubs[c]) + Count(Run(w, es).starts, c)
  {
    hide Run, LegalRun, Position, Count;
    RunKeepsAll(w, es);
  }

  /** The k-th track a club starts has the k-th position after the booted one. */
  lemma {:induction false} StartsAreNumbered(w: World, es: seq<Event>)
    requires Boot(w) && ClubsOk(w) && LegalRun(w, es)
    ensures Numbered(Run(w, es).starts, w)
  {
    hide Run, LegalRun, Position, Count, Numbered;
    RunKeepsAll(w, es);
  }

  predicate Accountable(st: Start) {
    st.club != "" && st.dj != "" && st.pos >= 0 && st.startedAt > 0
  }

  lemma SameTrackTransitive(a: Settlement, b: Settlement, c: Settlement)
    ensures SameTrack(a, b) && SameTrack(b, c) ==> SameTrack(a, c)
  {
  }

  /** The first settlement of a track is the attempt itself or the one it echoes. */
  lemma FirstOrEcho(log: seq<Attempt>, i: nat) returns (k: nat)
    requires Timed(log) && i < |log| && WellFormed(log[i].settlement)
    ensures k <= i && First(Settlements(log), k) && (k == i || Echo(log[k], log[i]))
  {
    hide WellFormed;
    var ss := Settlements(log);
    k := i;
    if !First(ss, i) {
      k :| k < i && WellFormed(ss[k]) && SameTrack(ss[k], ss[i]);
      forall l: nat | l < k ensures !SameTrack(ss[l], ss[k]) {
        SameTrackTransitive(ss[l], ss[k], ss[i]);
      }
    }
  }

  /** The ledger takes this attempt for the started track. */
  ghost predicate TakenFor(log: seq<Attempt>, k: nat, st: Start) {
    k < |log| && First(Settlements(log), k) && About(log[k], st)
  }

  /** Nothing counts twice: the ledger takes at most one settlement of a track. */
  lemma {:induction false} SettledAtMostOnce(log: seq<Attempt>, st: Start, k: nat, l: nat)
    requires TakenFor(log, k, st) && TakenFor(log, l, st)
    ensures k == l
  {
    var ss := Settlements(log);
    assert ss[k] == log[k].settlement && ss[l] == log[l].settlement;
  }

  /**
    Nothing is lost: every track the run started is still playing or has a settlement that the ledger
    takes, made for that very DJ, video and length.
   */
  lemma {:induction false} StartIsSettled(w: World, es: seq<Event>, st: Start)
    requires Boot(w) && ClubsOk(w) && LegalRun(w, es)
    ensures var v := Run(w, es);
            st in v.starts && Accountable(st) && !(st.club in v.clubs && Air(v.clubs[st.club], st.club) == Some(st))
            ==> exists k :: TakenFor(v.log, k, st)
  {
    hide Run, LegalRun, First, Timed, Numbered, Tracked, Known, Honest, Quiet, Placed, Air, Orderly;
    RunKeepsAll(w, es);
    var v := Run(w, es);
    if st in v.starts && Accountable(st) && Air(v.clubs[st.club], st.club) != Some(st) {
      var a :| a in v.log && About(a, st);
      var i :| 0 <= i < |v.log| && v.log[i] == a;
      var k := FirstOrEcho(v.log, i);
      assert TakenFor(v.log, k, st);
    }
  }

  /** Conversely, everything settled beyond the booted position was started by the run. */
  lemma {:induction false} SettledWasStarted(w: World, es: seq<Event>, i: nat)
    requires Boot(w) && ClubsOk(w) && LegalRun(w, es) && i < |Run(w, es).log|
    ensures Run(w, es).log[i].settlement.club in w.clubs
    ensures Run(w, es).log[i].settlement.pos > Position(w.clubs[Run(w, es).log[i].settlement.club])
            ==> exists st :: st in Run(w, es).starts && About(Run(w, es).log[i], st)
  {
    hide Run, LegalRun, Position, About;
    RunKeepsAll(w, es);
    PlacedHere(Run(w, es), Run(w, es).log[i]);
  }

  // ── the public top tracks of a run ──────────────────────────────────────────

  ghost predicate DistinctTracks(ss: seq<Settlement>) {
    forall i, j | 0 <= i < j < |ss| :: ss[i].club != ss[j].club || ss[i].startedAt != ss[j].startedAt
  }

  /** First settlements of rising positions never share a club and a start time. */
  lemma {:induction false} FirstsAreDistinct(ss: seq<Settlement>)
    requires Rising(ss)
    ensures DistinctTracks(Firsts(ss))
    ensures forall x | x in Firsts(ss) :: x in ss && WellFormed(x)
    decreases |ss|
  {
    hide WellFormed;
    if ss != [] {
      var n := |ss| - 1;
      var front := ss[..n];
      FirstsAreDistinct(front);
      if First(ss, n) {
        forall x | x in Firsts(front) ensures x.club != ss[n].club || x.startedAt != ss[n].startedAt {
          var j :| 0 <= j < n && front[j] == x;
          assert ss[j] == x;
        }
      }
    }
  }

  lemma {:induction false} ListedAreDistinct(fs: seq<Settlement>)
    requires DistinctTracks(fs)
    ensures DistinctStarts(ListAll(fs))
    ensures forall p | p in ListAll(fs) :: exists s :: s in fs && s.club == p.club && s.startedAt == p.startedAt
  {
    hide Counts;
    if fs != [] {
      var n := |fs| - 1;
      ListedAreDistinct(fs[..n]);
      forall p | p in ListAll(fs)
        ensures exists s :: s in fs && s.club == p.club && s.startedAt == p.startedAt
      {
        if p in ListAll(fs[..n]) {
          var s :| s in fs[..n] && s.club == p.club && s.startedAt == p.startedAt;
          assert s in fs;
        } else {
          assert fs[n] in fs;
        }
      }
    }
  }

  /**
    The bounded history shows what an unbounded one would: the first `n` rows served from the kept
    performances are those of every performance listed in the run or before it.
   */
  lemma {:induction false} RunTopTracks(
    pre: seq<Settlement>, w: World, es: seq<Event>, n: nat, kept: seq<Performance>, all: seq<Performance>)
    requires Boot(w) && ClubsOk(w) && LegalRun(w, es) && Earlier(pre, w) && n <= 100
    requires Sorting.SortedPermutation(kept, RecordAll(RecordAll(EMPTY, pre), Settlements(Run(w, es).log)).history,
         Better)
    requires Sorting.SortedPermutation(all, ListAll(Firsts(Continued(pre, Run(w, es).log))), Better)
    ensures Rows(kept, n, 0) == Rows(all, n, 0)
  {
    hide Run, LegalRun, Better, Rows, ListAll, Firsts, DistinctStarts, DistinctTracks, Earlier, Rising, Orderly,
         Settlements;
    RunIsOrderly(pre, w, es);
    var log := Run(w, es).log;
    RecordAllAppend(EMPTY, pre, Settlements(log));
    var ss := Continued(pre, log);
    LastKeyIsEnough(ss);
    FirstsAreDistinct(ss);
    ListedAreDistinct(Firsts(ss));
    BoundedHistoryIsInvisible(Firsts(ss), n, kept, all);
  }
}
