/**
  The conductor as the relay runs it: one club's slice of its maps, the club's mutable playback
  record, and the ledger it settles into. Every method is proved against the function of the same
  step in `Playback`; `attempts` and `plays` record the calls that settle and the published play log.
 */
module Conductor {
  import opened Wrappers
  import opened AutoOrder
  import opened QueueTags
  import opened Credibility
  import opened Playback
  import RoundRobin
  import Sorting

  class CondClub {
    var pos: int
    var videoID: string
    var dj: string
    var title: string
    var duration: int
    var startedAt: int
    var lastBeat: int
    var playing: bool
    var auto: bool
    var autoOrder: seq<int>
    var autoNextOrder: seq<int>
    var autoIdx: int

    function Order(): Auto
      reads this
    {
      Auto(autoOrder, autoNextOrder, autoIdx)
    }

    function View(): Play
      reads this
    {
      Play(pos, videoID, dj, title, duration, startedAt, lastBeat, playing, auto, Order())
    }

    constructor ()
      ensures View() == IDLE
    {
      pos, videoID, dj, title, duration, startedAt := 0, "", "", "", 0, 0;
      lastBeat, playing, auto, autoOrder, autoNextOrder, autoIdx := 0, false, false, [], [], 0;
    }

    constructor Load(r: Saved)
      ensures View() == Play(r.pos, r.videoID, r.dj, r.title, r.duration, r.startedAt, 0, r.playing, r.auto, NO_ORDER)
    {
      pos, videoID, dj, title, duration, startedAt := r.pos, r.videoID, r.dj, r.title, r.duration, r.startedAt;
      lastBeat, playing, auto, autoOrder, autoNextOrder, autoIdx := 0, r.playing, r.auto, [], [], 0;
    }

    /** A session that ended hours ago is dropped, and the last published event overrides the flag. */
    method Revive(now: int, announced: Option<bool>)
      modifies this
      ensures View() == Resumed(Some(Save(old(View()))), now, announced).(lastBeat := old(lastBeat),
           order := old(Order()))
    {
      if playing {
        var elapsed := GoDiv(now - startedAt, 1000);
        var threshold := duration;
        if threshold <= 0 {
          threshold := FALLBACK_S;
        }
        threshold := threshold + RESUME_SLACK_S;
        if elapsed > threshold {
          playing := false;
          videoID := "";
        }
      }
      if announced.Some? {
        auto := playing && announced.value;
      }
    }

    /** The play-log entry of the running track. */
    function PlayLog(club: string): Start
      reads this
    {
      Start(club, pos, dj, videoID, duration, startedAt, auto)
    }

    /** The fields of the next track; the publication that follows sets the heartbeat. */
    method Begin(newDj: string, t: CondTrack, now: int, newAuto: bool)
      modifies this
      ensures View() == Started(old(View()), newDj, t, now, newAuto).(lastBeat := old(lastBeat))
    {
      pos := pos + 1;
      dj, videoID, title, duration := newDj, t.videoID, t.title, t.duration;
      startedAt, playing, auto := now, true, newAuto;
    }

    method AdvanceAutoOrder(trackCount: nat, swaps: Swaps)
      modifies this`autoIdx, this`autoOrder, this`autoNextOrder
      ensures Order() == AutoOrder.Advance(old(Order()), trackCount, swaps)
    {
      autoIdx := autoIdx + 1;
      if autoIdx < trackCount {
        return;
      }
      if |autoNextOrder| == trackCount {
        autoOrder := autoNextOrder;
      } else {
        autoOrder := MakeShuffledOrder(trackCount, swaps);
      }
      autoNextOrder := [];
      autoIdx := 0;
    }

    /** The preview; it plans the next cycle when it runs past the current one. */
    method AutoUpcomingTracks(tracks: seq<CondTrack>, max: int, swaps: Swaps) returns (out: seq<CondTrack>)
      requires OrderOk(Order())
      modifies this`autoNextOrder
      ensures Order() == Announce(old(Order()), |tracks|, max, swaps)
      ensures InRange(Upcoming(Order(), |tracks|, max), |tracks|)
      ensures out == At(tracks, Upcoming(Order(), |tracks|, max))
    {
      hide OrderOk, IsOrder, InRange, At, Shuffled, Announce, Upcoming, Sorting.Take;
      var n := |tracks|;
      ghost var o := Order();
      NothingAt(tracks);
      NoPreview(o, n, max, swaps);
      if max <= 0 || n == 0 || |autoOrder| != n || autoIdx < 0 || autoIdx >= n {
        return [];
      }
      OrdersInRange(o, n);
      ghost var rest := autoOrder[autoIdx + 1..];
      out := RestOfCycle(tracks, autoOrder, autoIdx, max);
      TakeAt(tracks, rest, max);
      if |out| >= max {
        PreviewWithinCycle(o, n, max, swaps);
        return out;
      }
      if |autoNextOrder| != n {
        autoNextOrder := MakeShuffledOrder(n, swaps);
        OrderInRange(autoNextOrder, n);
      }
      out := IntoNextCycle(tracks, out, autoNextOrder, max);
      AtAppend(tracks, rest, autoNextOrder);
      PreviewBeyondCycle(o, n, max, swaps, autoNextOrder);
      TakeAt(tracks, rest + autoNextOrder, max);
    }
  }

  /** The tracks still to come in this cycle, up to the maximum. */
  method RestOfCycle(tracks: seq<CondTrack>, order: seq<int>, idx: nat, max: int) returns (out: seq<CondTrack>)
    requires InRange(order, |tracks|) && idx < |order| && max > 0
    ensures InRange(order[idx + 1..], |tracks|) && out == Sorting.Take(At(tracks, order[idx + 1..]), max)
    ensures if |order| - 1 - idx < max then out == At(tracks, order[idx + 1..]) && |out| < max else |out| == max
  {
    hide At;
    out := [];
    ghost var todo := order[idx + 1..];
    var i := idx + 1;
    while i < |order| && |out| < max
      invariant idx + 1 <= i <= |order| && |out| == i - idx - 1 <= max
      invariant out == At(tracks, todo)[..|out|]
    {
      out := out + [tracks[order[i]]];
      i := i + 1;
    }
  }

  /** The preview goes on from the rest of the cycle into the planned one until it is full. */
  method IntoNextCycle(tracks: seq<CondTrack>, rest: seq<CondTrack>, next: seq<int>, max: int)
    returns (out: seq<CondTrack>)
    requires InRange(next, |tracks|) && |rest| < max
    ensures out == Sorting.Take(rest + At(tracks, next), max)
  {
    hide At;
    out := rest;
    ghost var all := rest + At(tracks, next);
    for i := 0 to |next|
      invariant |out| == |rest| + i <= max && out == all[..|out|]
    {
      if |out| >= max {
        break;
      }
      out := out + [tracks[next[i]]];
    }
  }

  lemma AtAppend(tracks: seq<CondTrack>, a: seq<int>, b: seq<int>)
    requires InRange(a, |tracks|) && InRange(b, |tracks|)
    ensures InRange(a + b, |tracks|) && At(tracks, a + b) == At(tracks, a) + At(tracks, b)
  {
  }

  lemma NoPreview(o: Auto, n: nat, max: int, swaps: Swaps)
    ensures !CanAnnounce(o, n, max) ==> Announce(o, n, max, swaps) == o && Upcoming(o, n, max) == []
  {
  }

  lemma PreviewWithinCycle(o: Auto, n: nat, max: int, swaps: Swaps)
    requires CanAnnounce(o, n, max) && max <= n - 1 - o.idx
    ensures Announce(o, n, max, swaps) == o && Upcoming(o, n, max) == Sorting.Take(o.order[o.idx + 1..], max)
  {
    assert Future(o, n)[..max] == o.order[o.idx + 1..][..max];
  }

  lemma PreviewBeyondCycle(o: Auto, n: nat, max: int, swaps: Swaps, next: seq<int>)
    requires CanAnnounce(o, n, max) && n - 1 - o.idx < max
    requires |next| == n && next == if |o.next| == n then o.next else Shuffled(n, swaps)
    ensures Announce(o, n, max, swaps) == o.(next := next)
    ensures Upcoming(o.(next := next), n, max) == Sorting.Take(o.order[o.idx + 1..] + next, max)
  {
  }

  lemma TakeAt(tracks: seq<CondTrack>, o: seq<int>, max: nat)
    requires InRange(o, |tracks|)
    ensures InRange(Sorting.Take(o, max), |tracks|)
        && At(tracks, Sorting.Take(o, max)) == Sorting.Take(At(tracks, o), max)
  {
  }

  function At(tracks: seq<CondTrack>, o: seq<int>): (r: seq<CondTrack>)
    requires InRange(o, |tracks|)
    ensures |r| == |o| && forall i | 0 <= i < |o| :: r[i] == tracks[o[i]]
  {
    seq(|o|, i requires 0 <= i < |o| => tracks[o[i]])
  }

  lemma NothingAt(tracks: seq<CondTrack>)
    ensures InRange([], |tracks|) && At(tracks, []) == []
  {
  }

  lemma OrderInRange(o: seq<int>, n: nat)
    requires IsOrder(o, n)
    ensures InRange(o, n)
  {
  }

  lemma OrdersInRange(o: Auto, n: nat)
    requires OrderOk(o) && n > 0 && |o.order| == n
    ensures InRange(o.order, n) && (|o.next| == n ==> InRange(o.next, n))
  {
  }

  // ── one club's conductor ────────────────────────────────────────────────────

  class ClubConductor {
    const club: string
    const cred: CredibilityBoard
    var pb: CondClub?
    var saved: Option<Saved>
    var queueIdx: map<string, QueueEvent>
    var played: map<string, map<string, int>>
    var brokenVids: map<string, int>
    var bootstrapAt: int
    var brokenSkipAt: int
    var moodSkipAt: int
    var queueWakeup: bool
    var plays: seq<Start>
    ghost var attempts: seq<Attempt>

    function View(): Club
      reads this, pb
    {
      Club(if pb == null then None else Some(pb.View()), saved, queueIdx, played, brokenVids,
           bootstrapAt, brokenSkipAt, moodSkipAt, queueWakeup)
    }

    /** The state and the records after an effect, given the records before it. */
    ghost predicate Performed(e: Effect, log: seq<Attempt>, starts: seq<Start>, board: Board)
      reads this, pb, cred
    {
      && View() == e.club
      && attempts == log + e.attempts
      && plays == starts + e.starts
      && cred.View() == RecordAll(board, Settlements(e.attempts))
    }

    constructor (club: string, saved: Option<Saved>, cred: CredibilityBoard)
      ensures View() == Club(None, saved, map[], map[], map[], 0, 0, 0, false)
      ensures this.club == club && this.cred == cred && attempts == [] && plays == []
    {
      this.club, this.cred, this.saved, pb := club, cred, saved, null;
      queueIdx, played, brokenVids, bootstrapAt, brokenSkipAt, moodSkipAt := map[], map[], map[], 0, 0, 0;
      queueWakeup, plays, attempts := false, [], [];
    }

    method SettleTrack(b: CondClub, inp: Input, outcome: Outcome)
      requires b == pb
      modifies this`attempts, cred
      ensures View() == old(View())
      ensures var done := Settle(club, b.View(), inp, outcome);
              attempts == old(attempts) + done && cred.View() == RecordAll(old(cred.View()), Settlements(done))
    {
      if !b.playing {
        return;
      }
      var bangers := inp.bangers;
      if bangers > BANGER_MAX {
        bangers := BANGER_MAX;
      }
      var s := Settlement(club, b.pos, b.startedAt, b.videoID, b.title, b.dj, bangers, outcome, inp.listed, b.auto);
      var entry, changed := cred.RecordSettlement(s);
      attempts := attempts + [Attempt(s, inp.now, b.duration)];
      RecordOne(old(cred.View()), s);
    }

    method Stop(b: CondClub, inp: Input)
      requires b == pb
      modifies this`attempts, cred, b
      ensures b.View() == Stopped(old(b.View()), inp.now)
      ensures var done := Settle(club, old(b.View()), inp, Played);
              attempts == old(attempts) + done && cred.View() == RecordAll(old(cred.View()), Settlements(done))
    {
      SettleTrack(b, inp, Played);
      if b.videoID != "" {
        b.lastBeat := inp.now;
      }
      b.playing := false;
      b.auto := false;
    }

    method IdxQueue(dj: string, e: QueueEvent)
      modifies this`queueIdx, this`queueWakeup
      ensures View() == QueueIndexed(old(View()), dj, e)
    {
      hide Parse;
      if dj !in queueIdx || e.createdAt > queueIdx[dj].createdAt {
        queueIdx := queueIdx[dj := e];
      }
      if !e.relay {
        var some := QueueHasActiveTracks(e.tags);
        if some {
          queueWakeup := true;
        }
      }
    }

    method MarkTrackOff(dj: string, v: string, inp: Input)
      modifies this`queueIdx, this`queueWakeup, this`played
      ensures View() == MarkedOff(old(View()), club, dj, v, inp.patchSecond)
    {
      hide Parse, Patched;
      if dj !in queueIdx {
        return;
      }
      var ev := queueIdx[dj];
      var newTags, marked := MarkedTags(club, dj, ev.tags, v);
      if !marked {
        return;
      }
      var updated := QueueEvent(true, inp.patchSecond, newTags);
      var some := QueueHasActiveTracks(newTags);
      IdxQueue(dj, updated);
      if !some {
        played := played - {dj};
      }
    }

    method ClubQueues() returns (out: map<string, seq<CondTrack>>)
      ensures out.Keys == queueIdx.Keys && forall dj | dj in out :: out[dj] == Parse(queueIdx[dj].tags)
    {
      hide Parse;
      out := map[];
      var todo := queueIdx.Keys;
      while todo != {}
        invariant todo <= queueIdx.Keys && out.Keys == queueIdx.Keys - todo
        invariant forall dj | dj in out :: out[dj] == Parse(queueIdx[dj].tags)
        decreases |todo|
      {
        var dj :| dj in todo;
        todo := todo - {dj};
        var tracks := ParseQueueTracks(queueIdx[dj].tags);
        out := out[dj := tracks];
      }
    }

    /** Every offered track was played after the queue was written, and there is one. */
    method CycledThrough(pk: string, tracks: seq<CondTrack>, b: CondClub) returns (r: bool)
      requires b == pb && tracks == Tracks(View(), pk)
      ensures r <==> Cycled(View(), b.View(), pk)
    {
      hide Parse;
      var playedByDJ := if pk in played then played[pk] else map[];
      var qAddedMs := if pk in queueIdx then queueIdx[pk].createdAt * 1000 else 0;
      var wouldPlay, blocked := 0, 0;
      for j := 0 to |tracks|
        invariant 0 <= blocked <= wouldPlay
        invariant wouldPlay > 0 <==> exists t :: t in tracks[..j] && Offered(b.View(), t)
        invariant blocked == wouldPlay
             <==> forall t | t in tracks[..j] && Offered(b.View(), t) :: Stale(View(), pk, t.videoID)
      {
        var t := tracks[j];
        assert forall x :: x in tracks[..j + 1] <==> x in tracks[..j] || x == t;
        var notCurrent := !b.playing || t.videoID != b.videoID;
        if t.active && notCurrent {
          wouldPlay := wouldPlay + 1;
          var pAt := if t.videoID in playedByDJ then playedByDJ[t.videoID] else 0;
          if pAt > 0 && qAddedMs <= pAt {
            blocked := blocked + 1;
          }
        }
      }
      assert tracks[..|tracks|] == tracks;
      return wouldPlay > 0 && blocked == wouldPlay;
    }

    /** Active, not the running track, not played since the queue was written, not reported broken. */
    method GuardedRow(pk: string, tracks: seq<CondTrack>, b: CondClub, inp: Input) returns (row: seq<bool>)
      requires b == pb
      ensures |row| == |tracks| && forall k | 0 <= k < |row| :: row[k] == Guarded(View(), b.View(), pk, tracks[k], inp)
    {
      hide Guarded;
      var cells := new bool[|tracks|];
      var playedByDJ := if pk in played then played[pk] else map[];
      var relayManaged := pk in queueIdx && queueIdx[pk].relay;
      var qAddedMs := if pk in queueIdx then queueIdx[pk].createdAt * 1000 else 0;
      for j := 0 to |tracks|
        invariant View() == old(View()) && b.View() == old(b.View())
        invariant forall k | 0 <= k < j :: cells[k] == Guarded(View(), b.View(), pk, tracks[k], inp)
      {
        var t := tracks[j];
        var notCurrent := !b.playing || t.videoID != b.videoID;
        var pAt := if t.videoID in playedByDJ then playedByDJ[t.videoID] else 0;
        var playedOff := !relayManaged && pAt > 0 && qAddedMs <= pAt;
        var brokenVid := t.videoID in brokenVids && inp.now - brokenVids[t.videoID] < BROKEN_BLOCK_MS;
        GuardedIs(View(), b.View(), pk, t, inp);
        cells[j] := t.active && notCurrent && !playedOff && !brokenVid;
      }
      return cells[..];
    }

    /** A row that starts over: every active track but the running one. */
    method OfferedRow(tracks: seq<CondTrack>, b: CondClub) returns (row: seq<bool>)
      ensures |row| == |tracks| && forall k | 0 <= k < |row| :: row[k] == Offered(b.View(), tracks[k])
    {
      var cells := new bool[|tracks|];
      for j := 0 to |tracks|
        invariant b.View() == old(b.View())
        invariant forall k | 0 <= k < j :: cells[k] == Offered(b.View(), tracks[k])
      {
        var notCurrent := !b.playing || tracks[j].videoID != b.videoID;
        cells[j] := tracks[j].active && notCurrent;
      }
      return cells[..];
    }

    method MatrixRow(pk: string, tracks: seq<CondTrack>, b: CondClub, inp: Input) returns (row: seq<bool>)
      requires b == pb && tracks == Tracks(View(), pk)
      modifies this`played
      ensures row == RowOf(old(View()), b.View(), pk, inp)
      ensures played == if LoopResets(old(View()), b.View(), pk, inp.online) then old(played) - {pk} else old(played)
    {
      hide Parse, Cycled, RowOf, Guarded, Offered;
      ghost var s, p := View(), b.View();
      row := GuardedRow(pk, tracks, b, inp);
      if pk !in inp.online && !(pk in queueIdx && queueIdx[pk].relay) {
        var cycled := CycledThrough(pk, tracks, b);
        if cycled {
          played := played - {pk};
          row := OfferedRow(tracks, b);
        }
      }
      RowIs(s, p, pk, inp, row);
    }

    method Matrix(queues: map<string, seq<CondTrack>>, b: CondClub, inp: Input) returns (out: RoundRobin.Matrix)
      requires b == pb && Distinct(inp.djs)
      requires forall dj :: (if dj in queues then queues[dj] else []) == Tracks(View(), dj)
      modifies this`played
      ensures out == MatrixOf(old(View()), b.View(), inp)
      ensures View() == old(View()).(played := KeptMarks(old(View()), b.View(), inp))
    {
      hide Tracks, LoopResets, RowOf, KeptFor, KeptMarks;
      ghost var s, p := View(), b.View();
      out := [];
      NothingKeptYet(s, p, inp);
      for i := 0 to |inp.djs|
        invariant View() == s.(played := played) && b.View() == p
        invariant |out| == i && forall k | 0 <= k < i :: out[k] == RowOf(s, p, inp.djs[k], inp)
        invariant played == KeptFor(s, p, inp, inp.djs[..i])
      {
        var pk := inp.djs[i];
        SameTracks(s, View());
        RowIsLocal(s, p, pk, inp, inp.djs[..i]);
        var row := MatrixRow(pk, if pk in queues then queues[pk] else [], b, inp);
        out := out + [row];
        KeptForNext(s, p, inp, inp.djs[..i], pk);
        assert inp.djs[..i + 1] == inp.djs[..i] + [pk];
      }
      assert inp.djs[..|inp.djs|] == inp.djs;
      AllKept(s, p, inp);
    }

    /** Stop to the lobby and save the stopped state. */
    method StopAndSave(b: CondClub, inp: Input)
      requires b == pb
      modifies this`attempts, this`saved, cred, b
      ensures View() == Lobby(old(View()), old(b.View()), inp)
      ensures var done := Settle(club, old(b.View()), inp, Played);
              attempts == old(attempts) + done && cred.View() == RecordAll(old(cred.View()), Settlements(done))
    {
      Stop(b, inp);
      saved := Some(Save(b.View()));
    }

    /** No DJ is left: the set is over. */
    method EndSession(b: CondClub, inp: Input)
      requires b == pb
      modifies this`attempts, this`saved, this`played, cred, b
      ensures View() == Lobby(old(View()), old(b.View()), inp).(played := map[])
      ensures var done := Settle(club, old(b.View()), inp, Played);
              attempts == old(attempts) + done && cred.View() == RecordAll(old(cred.View()), Settlements(done))
    {
      StopAndSave(b, inp);
      played := map[];
    }

    /** Nothing is playable: stop, keep the play marks, and try again in a minute. */
    method Exhausted(b: CondClub, inp: Input)
      requires b == pb
      modifies this`attempts, this`saved, this`bootstrapAt, cred, b
      ensures View() == Lobby(old(View()), old(b.View()),
           inp).(bootstrapAt := inp.now + (EXHAUSTED_BACKOFF_MS - HEARTBEAT_MS))
      ensures var done := Settle(club, old(b.View()), inp, Played);
              attempts == old(attempts) + done && cred.View() == RecordAll(old(cred.View()), Settlements(done))
    {
      StopAndSave(b, inp);
      bootstrapAt := inp.now + (EXHAUSTED_BACKOFF_MS - HEARTBEAT_MS);
    }

    method PlayTrack(b: CondClub, dj: string, t: CondTrack, inp: Input)
      requires b == pb
      modifies this, b
      ensures pb == b && cred.View() == old(cred.View()) && attempts == old(attempts)
      ensures var q := Started(old(b.View()), dj, t, inp.now, false);
              && View() == MarkedOff(old(View()).(played := WithMark(old(played), dj, t.videoID, inp.now)),
                                     club, dj, t.videoID, inp.patchSecond).(play := Some(q), row := Some(Save(q)))
              && plays == old(plays) + [StartOf(club, q)]
    {
      hide MarkedOff, WithMark;
      ghost var s := View();
      b.Begin(dj, t, inp.now, false);
      played := WithMark(played, dj, t.videoID, inp.now);
      ghost var before := View();
      MarkTrackOff(dj, t.videoID, inp);
      MarkedOffIgnoresPlay(s.(played := before.played), before.play, club, dj, t.videoID, inp.patchSecond);
      b.lastBeat := inp.now;
      plays := plays + [b.PlayLog(club)];
      saved := Some(Save(b.View()));
    }

    /** Ask the rotation for the next track and start it, or stop. */
    method Rotate(queues: map<string, seq<CondTrack>>, b: CondClub, inp: Input)
      requires b == pb && Distinct(inp.djs)
      requires forall dj :: (if dj in queues then queues[dj] else []) == Tracks(View(), dj)
      modifies this, b, cred
      ensures pb == b
      ensures Performed(Playback.Rotate(old(View()), club, old(b.View()), inp), old(attempts), old(plays),
           old(cred.View()))
    {
      hide MarkedOff, MatrixOf, KeptMarks, Tracks, WithMark, RoundRobin.Pick, RoundRobin.Index, RecordAll, Settle,
           Settlements;
      hide RoundRobin.IsPick, RoundRobin.HasTrack, Stopped, Save;
      ghost var s, p := View(), b.View();
      NothingSettledYet(cred.View());
      var mat := Matrix(queues, b, inp);
      var di, ti := RoundRobin.FairNext(inp.djs, b.dj, mat);
      if di == -1 {
        Exhausted(b, inp);
        return;
      }
      // The picked cell lies in its DJ's queue: the guard against an index out of range never fires.
      PickInQueue(s, p, inp, RoundRobin.Slot(di, ti));
      var dj := inp.djs[di];
      assert Tracks(s, dj) == if dj in queues then queues[dj] else [];
      PlayTrack(b, dj, queues[dj][ti], inp);
    }

    method Advance(queues: map<string, seq<CondTrack>>, b: CondClub, inp: Input, outcome: Outcome)
      requires b == pb && Distinct(inp.djs)
      requires forall dj :: (if dj in queues then queues[dj] else []) == Tracks(View(), dj)
      modifies this, b, cred
      ensures pb == b
      ensures Performed(Playback.Advance(old(View()), club, old(b.View()), inp, outcome),
                        old(attempts), old(plays), old(cred.View()))
    {
      hide Playback.Rotate, Lobby, Tracks, RecordAll, Settle, Settlements;
      ghost var s, p, board := View(), b.View(), cred.View();
      SettledTwice(board, Settle(club, p, inp, outcome), Settle(club, p, inp, Played));
      SettledTwice(board, Settle(club, p, inp, outcome), Playback.Rotate(s, club, p, inp).attempts);
      SettleTrack(b, inp, outcome);
      if |inp.djs| == 0 {
        EndSession(b, inp);
        return;
      }
      Rotate(queues, b, inp);
    }

    method Resume(inp: Input) returns (b: CondClub)
      requires pb == null
      modifies this`pb, this`saved
      ensures pb == b && fresh(b)
      ensures View() == Loaded(old(View()), inp)
    {
      hide TooOld;
      if saved.Some? {
        b := new CondClub.Load(saved.value);
        b.Revive(inp.now, inp.announcedAuto);
        saved := Some(Save(b.View()));
      } else {
        b := new CondClub();
      }
      pb := b;
    }

    /** Republish the running track on the heartbeat cadence. */
    method PublishOnCadence(b: CondClub, now: int)
      modifies b`lastBeat
      ensures b.View() == Beaten(old(b.View()), now)
    {
      if now - b.lastBeat >= HEARTBEAT_MS {
        b.lastBeat := now;
      }
    }

    /** Nothing is playing: start the rotation, at most once per heartbeat unless a queue woke it. */
    method Bootstrap(queues: map<string, seq<CondTrack>>, b: CondClub, inp: Input)
      requires b == pb && !b.playing && Distinct(inp.djs)
      requires forall dj :: (if dj in queues then queues[dj] else []) == Tracks(View(), dj)
      modifies this, b, cred
      ensures pb == b
      ensures Performed(DriveLoaded(old(View()), club, inp), old(attempts), old(plays), old(cred.View()))
    {
      hide Playback.Advance, Tracks, RecordAll, Settlements;
      NothingSettledYet(cred.View());
      if queueWakeup {
        queueWakeup := false;
        bootstrapAt := 0;
      }
      if inp.now - bootstrapAt >= HEARTBEAT_MS {
        bootstrapAt := inp.now;
        SameTracks(old(View()), View());
        Advance(queues, b, inp, Discarded);
      }
    }

    method DrivePlaying(queues: map<string, seq<CondTrack>>, b: CondClub, inp: Input)
      requires b == pb && b.playing && Distinct(inp.djs)
      requires forall dj :: (if dj in queues then queues[dj] else []) == Tracks(View(), dj)
      modifies this, b, cred
      ensures pb == b
      ensures Performed(DriveLoaded(old(View()), club, inp), old(attempts), old(plays), old(cred.View()))
    {
      hide Playback.Advance, Tracks, RecordAll, Settlements, GoDiv;
      NothingSettledYet(cred.View());
      var dur := b.duration;
      if dur <= 0 {
        dur := FALLBACK_S;
      }
      if b.dj != "" && b.dj !in inp.djs {
        if GoDiv(inp.now - b.startedAt, 1000) < dur {
          PublishOnCadence(b, inp.now);
        } else {
          Advance(queues, b, inp, Outcome.Played);
        }
        return;
      }
      if inp.skip {
        Advance(queues, b, inp, Discarded);
        return;
      }
      if inp.broken && b.videoID != "" {
        if inp.now - brokenSkipAt >= HEARTBEAT_MS {
          brokenSkipAt := inp.now;
          brokenVids := brokenVids[b.videoID := inp.now];
          SameTracks(old(View()), View());
          Advance(queues, b, inp, Discarded);
          return;
        }
      }
      if inp.skips >= SKIP_THRESHOLD {
        if inp.now - moodSkipAt >= HEARTBEAT_MS {
          moodSkipAt := inp.now;
          SameTracks(old(View()), View());
          Advance(queues, b, inp, CommunitySkipped);
          return;
        }
      }
      EndTrack(queues, b, inp, dur);
    }

    /** Nothing cuts the track short: advance at its end, and beat until then. */
    method EndTrack(queues: map<string, seq<CondTrack>>, b: CondClub, inp: Input, dur: int)
      requires b == pb && b.playing && Distinct(inp.djs) && dur == FullLength(b.duration)
      requires forall dj :: (if dj in queues then queues[dj] else []) == Tracks(View(), dj)
      requires (b.dj == "" || b.dj in inp.djs) && !inp.skip
      requires !(inp.broken && b.videoID != "" && inp.now - brokenSkipAt >= HEARTBEAT_MS)
      requires !(inp.skips >= SKIP_THRESHOLD && inp.now - moodSkipAt >= HEARTBEAT_MS)
      modifies this, b, cred
      ensures pb == b
      ensures Performed(DriveLoaded(old(View()), club, inp), old(attempts), old(plays), old(cred.View()))
    {
      hide Playback.Advance, Tracks, RecordAll, Settlements, GoDiv;
      NothingSettledYet(cred.View());
      if GoDiv(inp.now - b.startedAt, 1000) >= dur {
        Advance(queues, b, inp, Outcome.Played);
        return;
      }
      PublishOnCadence(b, inp.now);
    }

    method DriveClub(inp: Input)
      requires Distinct(inp.djs)
      modifies this, pb, cred
      ensures pb != null && (old(pb) != null ==> pb == old(pb)) && (old(pb) == null ==> fresh(pb))
      ensures Performed(Playback.DriveClub(old(View()), club, inp), old(attempts), old(plays), old(cred.View()))
    {
      hide DriveLoaded, Tracks, Parse, RecordAll, Settlements, Resumed;
      var queues := ClubQueues();
      QueuesAreTracks(View(), queues);
      var b := pb;
      if b == null {
        b := Resume(inp);
      }
      SameTracks(old(View()), View());
      if !b.playing {
        Bootstrap(queues, b, inp);
      } else {
        DrivePlaying(queues, b, inp);
      }
    }

    /** The Auto-DJ's publication carries the exact tracks that come next. */
    method PublishNowPlayingAuto(b: CondClub, tracks: seq<CondTrack>, inp: Input) returns (next: seq<CondTrack>)
      requires OrderOk(b.Order())
      modifies b
      ensures b.View() == Playback.Shown(old(b.View()), |tracks|, inp)
      ensures InRange(Upcoming(b.Order(), |tracks|, PREVIEW_MAX), |tracks|)
      ensures next == At(tracks, Upcoming(b.Order(), |tracks|, PREVIEW_MAX))
    {
      b.lastBeat := inp.now;
      next := b.AutoUpcomingTracks(tracks, PREVIEW_MAX, inp.showSwaps);
    }

    method StartTrack(a: Armed, b: CondClub, inp: Input, outcome: Outcome)
      requires b == pb && a.tracks != [] && Ready(b.Order(), |a.tracks|)
      modifies this, b, cred
      ensures pb == b
      ensures 0 <= old(b.autoIdx) < |old(b.autoOrder)| == |a.tracks| && 0 <= Current(old(b.Order())) < |a.tracks|
      ensures Performed(StartAuto(old(View()), club, old(b.View()), a, inp, outcome),
                        old(attempts), old(plays), old(cred.View()))
    {
      hide IsOrder, RecordAll, Settlements, Announce;
      ReadyCurrent(b.Order(), |a.tracks|);
      SettleTrack(b, inp, outcome);
      b.Begin(a.owner, a.tracks[b.autoOrder[b.autoIdx]], inp.now, true);
      var next := PublishNowPlayingAuto(b, a.tracks, inp);
      plays := plays + [b.PlayLog(club)];
    }

    /** Turn to the next slot of the order and start its track. */
    method NextTrack(a: Armed, b: CondClub, inp: Input, outcome: Outcome)
      requires b == pb && a.tracks != [] && b.playing && Ready(b.Order(), |a.tracks|)
      modifies this, b, cred
      ensures pb == b
      ensures var p := old(b.View()).(order := Turned(old(b.View()), |a.tracks|, inp));
              && Ready(p.order, |a.tracks|)
              && 0 <= p.order.idx < |p.order.order| && 0 <= Current(p.order) < |a.tracks|
              && Performed(StartAuto(old(View()), club, p, a, inp, outcome), old(attempts), old(plays),
                  old(cred.View()))
    {
      hide Ready, Settle, RecordAll, Settlements, Playback.Shown, AutoOrder.Advance;
      TurnedReady(b.View(), |a.tracks|, inp);
      b.AdvanceAutoOrder(|a.tracks|, inp.nextSwaps);
      StartTrack(a, b, inp, outcome);
    }

    method DriveAutoPlaying(a: Armed, b: CondClub, inp: Input)
      requires b == pb && a.tracks != [] && b.playing && Ready(b.Order(), |a.tracks|)
      modifies this, b, cred
      ensures pb == b
      ensures Performed(DriveAutoPrepared(old(View()), club, old(b.View()), a, inp), old(attempts), old(plays),
           old(cred.View()))
    {
      hide OrderOk, Ready, Playback.Shown, StartAuto, Turned, Settle, RecordAll, Settlements, GoDiv;
      NothingSettledYet(cred.View());
      ReadyIsOk(b.Order(), |a.tracks|);
      if inp.skip {
        NextTrack(a, b, inp, Discarded);
        return;
      }
      if inp.broken && b.videoID != "" && inp.now - brokenSkipAt >= HEARTBEAT_MS {
        brokenSkipAt := inp.now;
        brokenVids := brokenVids[b.videoID := inp.now];
        NextTrack(a, b, inp, Discarded);
        return;
      }
      if inp.skips >= SKIP_THRESHOLD && inp.now - moodSkipAt >= HEARTBEAT_MS {
        moodSkipAt := inp.now;
        NextTrack(a, b, inp, CommunitySkipped);
        return;
      }
      EndAutoTrack(a, b, inp);
    }

    /** Nothing cuts the track short: move on at its end, and repeat the publication until then. */
    method EndAutoTrack(a: Armed, b: CondClub, inp: Input)
      requires b == pb && a.tracks != [] && b.playing && Ready(b.Order(), |a.tracks|)
      requires !inp.skip && !(inp.broken && b.videoID != "" && inp.now - brokenSkipAt >= HEARTBEAT_MS)
      requires !(inp.skips >= SKIP_THRESHOLD && inp.now - moodSkipAt >= HEARTBEAT_MS)
      modifies this, b, cred
      ensures pb == b
      ensures Performed(DriveAutoPrepared(old(View()), club, old(b.View()), a, inp), old(attempts), old(plays),
                        old(cred.View()))
    {
      hide OrderOk, Ready, Playback.Shown, StartAuto, Turned, Settle, RecordAll, Settlements, GoDiv;
      NothingSettledYet(cred.View());
      ReadyIsOk(b.Order(), |a.tracks|);
      var dur := b.duration;
      if dur <= 0 {
        dur := FALLBACK_S;
      }
      if GoDiv(inp.now - b.startedAt, 1000) >= dur {
        NextTrack(a, b, inp, Outcome.Played);
        return;
      }
      if inp.now - b.lastBeat >= HEARTBEAT_MS {
        var next := PublishNowPlayingAuto(b, a.tracks, inp);
      }
    }

    /** The club is loaded: make sure of the order, then start, move on or keep playing. */
    method DriveAutoLoaded(a: Armed, b: CondClub, inp: Input)
      requires b == pb && OrderOk(b.Order())
      modifies this, b, cred
      ensures pb == b
      ensures Performed(Playback.DriveAutoLoaded(old(View()), club, a, inp), old(attempts), old(plays),
           old(cred.View()))
    {
      hide OrderOk, Ready, Playback.Shown, Started, Settle, RecordAll, Settlements, Ended, Shuffled, AutoOrder.Advance;
      NothingSettledYet(cred.View());
      var n := |a.tracks|;
      if n == 0 {
        b.playing := false;
        return;
      }
      PreparedReady(b.Order(), n, inp.initSwaps);
      if |b.autoOrder| != n {
        b.autoOrder := MakeShuffledOrder(n, inp.initSwaps);
        b.autoNextOrder := [];
        b.autoIdx := 0;
      }
      PreparedIgnoresPlay(old(View()), View().play, club, b.View(), a, inp);
      if !b.playing {
        StartTrack(a, b, inp, Discarded);
      } else {
        DriveAutoPlaying(a, b, inp);
      }
    }

    method DriveAutoClub(a: Armed, inp: Input)
      requires pb != null ==> OrderOk(pb.Order())
      modifies this, pb, cred
      ensures pb != null && (old(pb) != null ==> pb == old(pb)) && (old(pb) == null ==> fresh(pb))
      ensures Performed(DriveAuto(old(View()), club, a, inp), old(attempts), old(plays), old(cred.View()))
    {
      hide Playback.DriveAutoLoaded, RecordAll, Settlements;
      var b := pb;
      if b == null {
        b := Resume(inp);
      }
      DriveAutoLoaded(a, b, inp);
    }

    /** One tick of this club: real DJs first, then the Auto-DJ, otherwise let the track run out. */
    method Tick(inp: Input)
      requires Sensible(inp) && Distinct(inp.djs) && (pb != null ==> OrderOk(pb.Order()))
      modifies this, pb, cred
      ensures pb == old(pb) || pb == null || fresh(pb)
      ensures Performed(Playback.Tick(old(View()), club, inp), old(attempts), old(plays), old(cred.View()))
    {
      hide Playback.DriveClub, DriveAuto, RecordAll, Settlements, GoDiv, OrderOk;
      NothingSettledYet(cred.View());
      if |inp.djs| > 0 {
        DriveClub(inp);
        return;
      }
      if inp.auto.Some? {
        DriveAutoClub(inp.auto.value, inp);
        return;
      }
      var b := pb;
      if b == null {
        return;
      }
      if b.playing {
        var dur := b.duration;
        if dur <= 0 {
          dur := FALLBACK_S;
        }
        if GoDiv(inp.now - b.startedAt, 1000) < dur {
          PublishOnCadence(b, inp.now);
          return;
        }
        StopAndSave(b, inp);
      }
      pb := null;
    }
  }

  predicate Distinct(djs: seq<string>) {
    forall i, j | 0 <= i < j < |djs| :: djs[i] != djs[j]
  }

  /** Play marks after the rows of some of the DJs. */
  function KeptFor(s: Club, p: Play, inp: Input, djs: seq<string>): map<string, map<string, int>> {
    map dj | dj in s.played && !(dj in djs && LoopResets(s, p, dj, inp.online)) :: s.played[dj]
  }

  lemma NothingKeptYet(s: Club, p: Play, inp: Input)
    ensures KeptFor(s, p, inp, []) == s.played
  {
  }

  lemma AllKept(s: Club, p: Play, inp: Input)
    ensures KeptFor(s, p, inp, inp.djs) == KeptMarks(s, p, inp)
  {
    hide LoopResets;
  }

  lemma RowIs(s: Club, p: Play, dj: string, inp: Input, row: seq<bool>)
    requires |row| == |Tracks(s, dj)|
    requires forall j | 0 <= j < |row| ::
               row[j] == if LoopResets(s, p, dj, inp.online) then Offered(p, Tracks(s, dj)[j])
                   else Guarded(s, p, dj, Tracks(s, dj)[j], inp)
    ensures row == RowOf(s, p, dj, inp)
  {
    hide Parse, LoopResets, Guarded, Offered;
  }

  lemma SameTracks(s: Club, t: Club)
    requires t.queues == s.queues
    ensures forall dj :: Tracks(t, dj) == Tracks(s, dj)
  {
  }

  /** A row reads only its own DJ's marks, which the other rows leave alone. */
  lemma RowIsLocal(s: Club, p: Play, dj: string, inp: Input, done: seq<string>)
    requires dj !in done
    ensures var t := s.(played := KeptFor(s, p, inp, done));
            RowOf(t, p, dj, inp) == RowOf(s, p, dj, inp)
                && (LoopResets(t, p, dj, inp.online) <==> LoopResets(s, p, dj, inp.online))
  {
    hide LoopResets;
    var t := s.(played := KeptFor(s, p, inp, done));
    SameTracks(s, t);
    forall v ensures Stale(t, dj, v) <==> Stale(s, dj, v) {
    }
    ResetIsLocal(s, t, p, dj, inp.online);
  }

  lemma ResetIsLocal(s: Club, t: Club, p: Play, dj: string, online: set<string>)
    requires t.queues == s.queues && forall v :: Stale(t, dj, v) <==> Stale(s, dj, v)
    ensures LoopResets(t, p, dj, online) <==> LoopResets(s, p, dj, online)
  {
    hide Stale, Offered, Parse;
  }

  lemma KeptForNext(s: Club, p: Play, inp: Input, done: seq<string>, dj: string)
    requires dj !in done
    ensures KeptFor(s, p, inp, done + [dj])
         == if LoopResets(s, p, dj, inp.online) then KeptFor(s, p, inp, done) - {dj} else KeptFor(s, p, inp, done)
  {
    hide LoopResets;
  }

  lemma GuardedIs(s: Club, p: Play, dj: string, t: CondTrack, inp: Input)
    ensures Guarded(s, p, dj, t, inp)
       <==> && t.active && (!p.playing || t.videoID != p.videoID)
            && !(!(dj in s.queues && s.queues[dj].relay) && PlayedAt(s, dj, t.videoID) > 0
                 && AddedMs(s, dj) <= PlayedAt(s, dj, t.videoID))
            && !(t.videoID in s.brokenVids && inp.now - s.brokenVids[t.videoID] < BROKEN_BLOCK_MS)
  {
  }

  lemma MarkedOffIgnoresPlay(s: Club, play: Option<Play>, club: string, dj: string, v: string, second: int)
    ensures MarkedOff(s.(play := play), club, dj, v, second) == MarkedOff(s, club, dj, v, second).(play := play)
  {
    hide AnyHit, Patched, AnyActive;
  }

  /** The rotation only picks tracks that are in the queue. */
  lemma PickInQueue(s: Club, p: Play, inp: Input, k: RoundRobin.Slot)
    requires RoundRobin.IsPick(|inp.djs|, RoundRobin.Index(inp.djs, p.dj), MatrixOf(s, p, inp), k)
    ensures k.dj < |inp.djs| && k.track < |Tracks(s, inp.djs[k.dj])|
  {
    hide Tracks, CellOpen;
    assert MatrixOf(s, p, inp)[k.dj] == RowOf(s, p, inp.djs[k.dj], inp);
  }

  lemma SettledTwice(b: Board, x: seq<Attempt>, y: seq<Attempt>)
    ensures RecordAll(RecordAll(b, Settlements(x)), Settlements(y)) == RecordAll(b, Settlements(x + y))
  {
    assert Settlements(x + y) == Settlements(x) + Settlements(y);
    RecordAllAppend(b, Settlements(x), Settlements(y));
  }

  lemma QueuesAreTracks(s: Club, queues: map<string, seq<CondTrack>>)
    requires queues.Keys == s.queues.Keys && forall dj | dj in queues :: queues[dj] == Parse(s.queues[dj].tags)
    ensures forall dj :: (if dj in queues then queues[dj] else []) == Tracks(s, dj)
  {
    hide Parse;
  }

  lemma ReadyCurrent(o: Auto, n: nat)
    requires Ready(o, n)
    ensures 0 <= o.idx < |o.order| == n && 0 <= Current(o) < n && OrderOk(o)
  {
  }

  lemma ReadyIsOk(o: Auto, n: nat)
    requires Ready(o, n)
    ensures OrderOk(o)
  {
  }

  lemma PreparedIgnoresPlay(s: Club, play: Option<Play>, club: string, p: Play, a: Armed, inp: Input)
    requires a.tracks != [] && Ready(p.order, |a.tracks|) && play == Some(p)
    ensures DriveAutoPrepared(s.(play := play), club, p, a, inp) == DriveAutoPrepared(s, club, p, a, inp)
    ensures !p.playing ==> 0 <= p.order.idx < |p.order.order| == |a.tracks| && 0 <= Current(p.order) < |a.tracks|
                           && DriveAutoPrepared(s, club, p, a, inp)
                               == StartAuto(s.(play := play), club, p, a, inp, Discarded)
  {
    hide Ready, Playback.Shown, Started, AutoOrder.Advance, Settle, Ended;
    ReadyCurrent(p.order, |a.tracks|);
    TurnedReady(p, |a.tracks|, inp);
  }

  lemma NothingSettledYet(b: Board)
    ensures RecordAll(b, Settlements([])) == b
  {
  }

  lemma RecordOne(b: Board, s: Settlement)
    ensures RecordAll(b, [s]) == Record(b, s)
  {
    hide Record;
    assert [s][..0] == [];
  }

  method QueueHasActiveTracks(tags: seq<Tag>) returns (r: bool)
    ensures r <==> AnyActive(tags)
  {
    for i := 0 to |tags|
      invariant forall t | t in tags[..i] :: !(IsTrackTag(t) && !IsOff(t))
    {
      var t := tags[i];
      if |t| >= 2 && t[0] == "track" && (|t| < 5 || t[4] != "off") {
        assert t in tags && IsTrackTag(t) && !IsOff(t);
        return true;
      }
      assert tags[..i + 1] == tags[..i] + [t];
    }
    assert tags[..|tags|] == tags;
    return false;
  }
}
