/**
  The playback state machine of a club, as functions on values: what one tick does to the playing
  track, the saved row, the queues and the play marks, and which settlements and starts it makes.
  Milliseconds unless a name says seconds.
 */
module Playback {
  import opened Wrappers
  import opened RoundRobin
  import opened AutoOrder
  import opened QueueTags
  import opened Credibility

  const HEARTBEAT_MS := 15_000
  const EXHAUSTED_BACKOFF_MS := 60_000
  const FALLBACK_S := 600
  const BROKEN_BLOCK_MS := 21_600_000
  const RESUME_SLACK_S := 7200
  const SKIP_THRESHOLD := 3
  const PREVIEW_MAX := 6

  // ── state ───────────────────────────────────────────────────────────────────

  datatype Play = Play(
    pos: int, videoID: string, dj: string, title: string, duration: int, startedAt: int,
    lastBeat: int, playing: bool, auto: bool, order: Auto)

  /** The persisted state of a club. */
  datatype Saved = Saved(
    pos: int, videoID: string, dj: string, title: string, duration: int, startedAt: int,
    playing: bool, auto: bool)

  /** The newest queue event of a DJ; `relay` marks the relay's own off-patches. */
  datatype QueueEvent = QueueEvent(relay: bool, createdAt: int, tags: seq<Tag>)

  datatype Club = Club(
    play: Option<Play>,
    row: Option<Saved>,
    queues: map<string, QueueEvent>,
    played: map<string, map<string, int>>,
    brokenVids: map<string, int>,
    bootstrapAt: int,
    brokenSkipAt: int,
    moodSkipAt: int,
    woken: bool)

  datatype Armed = Armed(owner: string, tracks: seq<CondTrack>)

  /** What one tick reads from the rest of the relay. */
  datatype Input = Input(
    now: int,
    djs: seq<string>,
    auto: Option<Armed>,
    skip: bool,
    broken: bool,
    bangers: int,
    skips: int,
    listed: bool,
    online: set<string>,
    patchSecond: int,
    announcedAuto: Option<bool>,
    initSwaps: Swaps,
    nextSwaps: Swaps,
    showSwaps: Swaps)

  /** One call that settles a track: the settlement, when it was made and the track's length. */
  datatype Attempt = Attempt(settlement: Settlement, at: int, duration: int)

  function Settlements(log: seq<Attempt>): (ss: seq<Settlement>)
    ensures |ss| == |log| && forall i | 0 <= i < |log| :: ss[i] == log[i].settlement
  {
    seq(|log|, i requires 0 <= i < |log| => log[i].settlement)
  }

  datatype Start = Start(
    club: string, pos: int, dj: string, videoID: string, duration: int, startedAt: int, auto: bool)

  datatype Effect = Effect(club: Club, attempts: seq<Attempt>, starts: seq<Start>)

  const NO_ORDER := Auto([], [], 0)
  const IDLE := Play(0, "", "", "", 0, 0, 0, false, false, NO_ORDER)

  function Save(p: Play): Saved {
    Saved(p.pos, p.videoID, p.dj, p.title, p.duration, p.startedAt, p.playing, p.auto)
  }

  // ── length and elapsed time ─────────────────────────────────────────────────

  /** Go's integer division by a positive divisor truncates towards zero. */
  function GoDiv(a: int, b: int): int
    requires b > 0
  {
    if a >= 0 then a / b else -((-a) / b)
  }

  function FullLength(duration: int): int {
    if duration <= 0 then FALLBACK_S else duration
  }

  predicate Ended(p: Play, now: int) {
    GoDiv(now - p.startedAt, 1000) >= FullLength(p.duration)
  }

  lemma EndedMeansFullLength(p: Play, now: int)
    ensures Ended(p, now) <==> now - p.startedAt >= 1000 * FullLength(p.duration)
  {
  }

  // ── settling and stopping ───────────────────────────────────────────────────

  function AttemptOf(club: string, p: Play, inp: Input, outcome: Outcome): Attempt {
    Attempt(
      Settlement(club, p.pos, p.startedAt, p.videoID, p.title, p.dj,
                 if inp.bangers > BANGER_MAX then BANGER_MAX else inp.bangers, outcome, inp.listed, p.auto),
      inp.now, p.duration)
  }

  /** Only a playing track is settled. */
  function Settle(club: string, p: Play, inp: Input, outcome: Outcome): seq<Attempt> {
    if p.playing then [AttemptOf(club, p, inp, outcome)] else []
  }

  function Stopped(p: Play, now: int): Play {
    p.(playing := false, auto := false, lastBeat := if p.videoID != "" then now else p.lastBeat)
  }

  function Beaten(p: Play, now: int): Play {
    if now - p.lastBeat >= HEARTBEAT_MS then p.(lastBeat := now) else p
  }

  predicate TooOld(r: Saved, now: int) {
    r.playing && GoDiv(now - r.startedAt, 1000) > FullLength(r.duration) + RESUME_SLACK_S
  }

  /**
    `resume` from the saved row, which forgets a session that ended hours ago. The Auto-DJ flag is
    the one of the last published event, if there is one.
   */
  function Resumed(row: Option<Saved>, now: int, announced: Option<bool>): Play {
    match row
    case None => IDLE
    case Some(r) =>
      var playing := r.playing && !TooOld(r, now);
      Play(r.pos, if TooOld(r, now) then "" else r.videoID, r.dj, r.title, r.duration, r.startedAt, 0, playing,
           if announced.Some? then playing && announced.value else r.auto, NO_ORDER)
  }

  /** The club with its playback state in memory. */
  function Loaded(s: Club, inp: Input): Club {
    if s.play.Some? then s
    else
      var p := Resumed(s.row, inp.now, inp.announcedAuto);
      s.(play := Some(p), row := if s.row.None? then None else Some(Save(p)))
  }

  // ── the playability matrix ──────────────────────────────────────────────────

  function Tracks(s: Club, dj: string): seq<CondTrack> {
    if dj in s.queues then Parse(s.queues[dj].tags) else []
  }

  function AddedMs(s: Club, dj: string): int {
    if dj in s.queues then s.queues[dj].createdAt * 1000 else 0
  }

  predicate Managed(s: Club, dj: string) {
    dj in s.queues && s.queues[dj].relay
  }

  function PlayedAt(s: Club, dj: string, v: string): int {
    if dj in s.played && v in s.played[dj] then s.played[dj][v] else 0
  }

  /** Played after the DJ's current queue was written. */
  predicate Stale(s: Club, dj: string, v: string) {
    PlayedAt(s, dj, v) > 0 && AddedMs(s, dj) <= PlayedAt(s, dj, v)
  }

  predicate Broken(s: Club, v: string, now: int) {
    v in s.brokenVids && now - s.brokenVids[v] < BROKEN_BLOCK_MS
  }

  predicate NotCurrent(p: Play, v: string) {
    !p.playing || v != p.videoID
  }

  predicate Offered(p: Play, t: CondTrack) {
    t.active && NotCurrent(p, t.videoID)
  }

  /** Something is on offer, and every bit of it was played since the queue was written. */
  predicate Cycled(s: Club, p: Play, dj: string) {
    && (exists t :: t in Tracks(s, dj) && Offered(p, t))
    && (forall t | t in Tracks(s, dj) && Offered(p, t) :: Stale(s, dj, t.videoID))
  }

  /** An absent DJ whose list was played through starts over. */
  predicate LoopResets(s: Club, p: Play, dj: string, online: set<string>) {
    dj !in online && !Managed(s, dj) && Cycled(s, p, dj)
  }

  predicate Guarded(s: Club, p: Play, dj: string, t: CondTrack, inp: Input) {
    Offered(p, t) && !(!Managed(s, dj) && Stale(s, dj, t.videoID)) && !Broken(s, t.videoID, inp.now)
  }

  predicate CellOpen(s: Club, p: Play, dj: string, t: CondTrack, inp: Input) {
    if LoopResets(s, p, dj, inp.online) then Offered(p, t) else Guarded(s, p, dj, t, inp)
  }

  function RowOf(s: Club, p: Play, dj: string, inp: Input): (r: seq<bool>)
    ensures |r| == |Tracks(s, dj)|
  {
    var ts := Tracks(s, dj);
    seq(|ts|, j requires 0 <= j < |ts| => CellOpen(s, p, dj, ts[j], inp))
  }

  function MatrixOf(s: Club, p: Play, inp: Input): (m: Matrix)
    ensures |m| == |inp.djs|
  {
    seq(|inp.djs|, i requires 0 <= i < |inp.djs| => RowOf(s, p, inp.djs[i], inp))
  }

  /** Play marks left after the loop resets. */
  function KeptMarks(s: Club, p: Play, inp: Input): map<string, map<string, int>> {
    map dj | dj in s.played && !(dj in inp.djs && LoopResets(s, p, dj, inp.online)) :: s.played[dj]
  }

  // ── queue events ────────────────────────────────────────────────────────────

  predicate Accepts(s: Club, dj: string, e: QueueEvent) {
    dj in s.queues ==> e.createdAt > s.queues[dj].createdAt
  }

  predicate AnyActive(tags: seq<Tag>) {
    exists t :: t in tags && IsTrackTag(t) && !IsOff(t)
  }

  function QueueIndexed(s: Club, dj: string, e: QueueEvent): Club {
    s.(queues := if Accepts(s, dj, e) then s.queues[dj := e] else s.queues,
       woken := s.woken || (!e.relay && AnyActive(e.tags)))
  }

  /** The relay's patch of a DJ's queue after one of its videos started. */
  function MarkedOff(s: Club, club: string, dj: string, v: string, second: int): Club {
    if dj !in s.queues || !AnyHit(s.queues[dj].tags, v) then s
    else
      var e := QueueEvent(true, second, Patched(club, dj, s.queues[dj].tags, v));
      var r := QueueIndexed(s, dj, e);
      if AnyActive(e.tags) then r else r.(played := r.played - {dj})
  }

  function WithMark(played: map<string, map<string, int>>, dj: string, v: string,
          now: int): map<string, map<string, int>> {
    played[dj := (if dj in played then played[dj] else map[])[v := now]]
  }

  // ── advance ─────────────────────────────────────────────────────────────────

  function Started(p: Play, dj: string, t: CondTrack, now: int, auto: bool): Play {
    p.(pos := p.pos + 1, dj := dj, videoID := t.videoID, title := t.title, duration := t.duration,
       startedAt := now, lastBeat := now, playing := true, auto := auto)
  }

  function StartOf(club: string, p: Play): Start {
    Start(club, p.pos, p.dj, p.videoID, p.duration, p.startedAt, p.auto)
  }

  /** The club after a stop. */
  function Lobby(s: Club, p: Play, inp: Input): Club {
    s.(play := Some(Stopped(p, inp.now)), row := Some(Save(Stopped(p, inp.now))))
  }

  /** The next track of the rotation, or the lobby when nothing is playable. */
  function Rotate(s: Club, club: string, p: Play, inp: Input): Effect {
    PickMeets(|inp.djs|, Index(inp.djs, p.dj), MatrixOf(s, p, inp));
    match Pick(|inp.djs|, Index(inp.djs, p.dj), MatrixOf(s, p, inp))
    case None =>
      Effect(Lobby(s, p, inp).(played := KeptMarks(s, p, inp),
          bootstrapAt := inp.now + (EXHAUSTED_BACKOFF_MS - HEARTBEAT_MS)),
             Settle(club, p, inp, Played), [])
    case Some(slot) =>
      var dj := inp.djs[slot.dj];
      var q := Started(p, dj, Tracks(s, dj)[slot.track], inp.now, false);
      var marked := s.(played := WithMark(KeptMarks(s, p, inp), dj, q.videoID, inp.now));
      Effect(MarkedOff(marked, club, dj, q.videoID, inp.patchSecond).(play := Some(q), row := Some(Save(q))),
             [], [StartOf(club, q)])
  }

  /** Settle the outgoing track, then start the next one of the rotation or stop to the lobby. */
  function Advance(s: Club, club: string, p: Play, inp: Input, outcome: Outcome): Effect {
    var rest := if inp.djs == [] then Effect(Lobby(s, p, inp).(played := map[]), Settle(club, p, inp, Played), [])
                else Rotate(s, club, p, inp);
    rest.(attempts := Settle(club, p, inp, outcome) + rest.attempts)
  }

  // ── a club with real DJs ────────────────────────────────────────────────────

  datatype Verdict = Rest | Beat | Move(outcome: Outcome, club: Club)

  /** Why the conductor moves on: nothing playing, orphaned, skip, broken, mood, end of track. */
  function Judge(s: Club, p: Play, inp: Input): Verdict {
    if !p.playing then
      var since := if s.woken then 0 else s.bootstrapAt;
      if inp.now - since >= HEARTBEAT_MS
      then Move(Discarded, s.(woken := false, bootstrapAt := inp.now))
      else Rest
    else if p.dj != "" && p.dj !in inp.djs then
      if Ended(p, inp.now) then Move(Played, s) else Beat
    else if inp.skip then Move(Discarded, s)
    else if inp.broken && p.videoID != "" && inp.now - s.brokenSkipAt >= HEARTBEAT_MS then
      Move(Discarded, s.(brokenSkipAt := inp.now, brokenVids := s.brokenVids[p.videoID := inp.now]))
    else if inp.skips >= SKIP_THRESHOLD && inp.now - s.moodSkipAt >= HEARTBEAT_MS then
      Move(CommunitySkipped, s.(moodSkipAt := inp.now))
    else if Ended(p, inp.now) then Move(Played, s)
    else Beat
  }

  /** A bootstrap that has to wait still forgets the wake-up and the backoff it cancelled. */
  function Waited(s: Club): Club {
    if s.woken then s.(woken := false, bootstrapAt := 0) else s
  }

  function DriveClub(s: Club, club: string, inp: Input): Effect {
    DriveLoaded(Loaded(s, inp), club, inp)
  }

  function DriveLoaded(l: Club, club: string, inp: Input): Effect
    requires l.play.Some?
  {
    var p := l.play.value;
    match Judge(l, p, inp)
    case Rest => Effect(Waited(l), [], [])
    case Beat => Effect(l.(play := Some(Beaten(p, inp.now))), [], [])
    case Move(outcome, l') => Advance(l', club, p, inp, outcome)
  }

  // ── a club with only the Auto DJ ────────────────────────────────────────────

  ghost predicate OrderOk(o: Auto) {
    o.order != [] ==> Ready(o, |o.order|)
  }

  function Prepared(o: Auto, n: nat, swaps: Swaps): Auto {
    if |o.order| != n then Auto(Shuffled(n, swaps), [], 0) else o
  }

  lemma PreparedReady(o: Auto, n: nat, swaps: Swaps)
    requires OrderOk(o) && n > 0
    ensures Ready(Prepared(o, n, swaps), n)
  {
    ShuffledIsOrder(n, swaps);
  }

  /** Publishing the Auto DJ's state also plans the preview. */
  function Shown(p: Play, n: nat, inp: Input): Play {
    p.(lastBeat := inp.now, order := Announce(p.order, n, PREVIEW_MAX, inp.showSwaps))
  }

  function StartAuto(s: Club, club: string, p: Play, a: Armed, inp: Input, outcome: Outcome): Effect
    requires 0 <= p.order.idx < |p.order.order| == |a.tracks|
    requires 0 <= Current(p.order) < |a.tracks|
  {
    var q := Shown(Started(p, a.owner, a.tracks[Current(p.order)], inp.now, true), |a.tracks|, inp);
    Effect(s.(play := Some(q)), Settle(club, p, inp, outcome), [StartOf(club, q)])
  }

  function JudgeAuto(s: Club, p: Play, inp: Input): Verdict {
    if !p.playing then Move(Discarded, s)
    else if inp.skip then Move(Discarded, s)
    else if inp.broken && p.videoID != "" && inp.now - s.brokenSkipAt >= HEARTBEAT_MS then
      Move(Discarded, s.(brokenSkipAt := inp.now, brokenVids := s.brokenVids[p.videoID := inp.now]))
    else if inp.skips >= SKIP_THRESHOLD && inp.now - s.moodSkipAt >= HEARTBEAT_MS then
      Move(CommunitySkipped, s.(moodSkipAt := inp.now))
    else if Ended(p, inp.now) then Move(Played, s)
    else Beat
  }

  /** The order the next track is taken from: only a playing track makes way for its successor. */
  function Turned(p: Play, n: nat, inp: Input): Auto {
    if p.playing then AutoOrder.Advance(p.order, n, inp.nextSwaps) else p.order
  }

  lemma TurnedReady(p: Play, n: nat, inp: Input)
    requires Ready(p.order, n)
    ensures Ready(Turned(p, n, inp), n)
  {
    ApplyReady(p.order, n, Next(inp.nextSwaps));
  }

  function DriveAuto(s: Club, club: string, a: Armed, inp: Input): Effect
    requires s.play.Some? ==> OrderOk(s.play.value.order)
  {
    DriveAutoLoaded(Loaded(s, inp), club, a, inp)
  }

  function DriveAutoLoaded(l: Club, club: string, a: Armed, inp: Input): Effect
    requires l.play.Some? && OrderOk(l.play.value.order)
  {
    var p := l.play.value;
    if a.tracks == [] then Effect(l.(play := Some(p.(playing := false))), [], [])
    else
      PreparedReady(p.order, |a.tracks|, inp.initSwaps);
      DriveAutoPrepared(l, club, p.(order := Prepared(p.order, |a.tracks|, inp.initSwaps)), a, inp)
  }

  function DriveAutoPrepared(l: Club, club: string, p: Play, a: Armed, inp: Input): Effect
    requires a.tracks != [] && Ready(p.order, |a.tracks|)
  {
    var n := |a.tracks|;
    match JudgeAuto(l, p, inp)
    case Move(outcome, l') =>
      TurnedReady(p, n, inp);
      StartAuto(l', club, p.(order := Turned(p, n, inp)), a, inp, outcome)
    case _ =>
      Effect(l.(play := Some(if inp.now - p.lastBeat >= HEARTBEAT_MS then Shown(p, n, inp) else p)), [], [])
  }

  // ── nobody on stage ─────────────────────────────────────────────────────────

  /** The tick forgets an idle club once its last track has run to its end. */
  function Abandon(s: Club, club: string, inp: Input): Effect {
    match s.play
    case None => Effect(s, [], [])
    case Some(p) =>
      if p.playing && !Ended(p, inp.now) then Effect(s.(play := Some(Beaten(p, inp.now))), [], [])
      else if p.playing then
        Effect(s.(play := None, row := Some(Save(Stopped(p, inp.now)))), Settle(club, p, inp, Played), [])
      else Effect(s.(play := None), [], [])
  }

  predicate Sensible(inp: Input) {
    inp.auto.Some? ==> inp.auto.value.tracks != []
  }

  function Tick(s: Club, club: string, inp: Input): Effect
    requires Sensible(inp) && (s.play.Some? ==> OrderOk(s.play.value.order))
  {
    if inp.djs != [] then DriveClub(s, club, inp)
    else if inp.auto.Some? then DriveAuto(s, club, inp.auto.value, inp)
    else Abandon(s, club, inp)
  }
}
