# Verification of the Zapclub relay

Zapclub is a collaborative music club: members bring playlists, take one of three stage slots, react
to tracks and hear the same track at the same moment. One Go relay is the only authority. It admits
DJs to the stage, picks and times tracks, settles each track into a durable score ledger, and serves
the rankings that the web client shows. This project models that authority in Dafny and proves what
it promises over whole runs.

Each component is modelled twice. Where the source changes state, a class with the same fields has
methods with the same branches and loops; next to it, functions on values say what a step does, and
every method is proved to compute exactly that function. The properties are lemmas about those
functions, over every input, every interleaving or every run.

| file | models |
|---|---|
| `RoundRobin.dfy` | the relay's `fairNext`, the client's `fairSequence` look-ahead, fairness of the rotation |
| `AutoOrder.dfy` | the Auto DJ's shuffled order and its preview |
| `SessionReplay.dfy` | the replay cache of session events and the final gate around it |
| `SessionMemory.dfy` | that cache against a memory that forgets nothing: which session events pass |
| `StageIndex.dfy` | the stage, kick and Auto-DJ indexes, who counts as on stage, the stored stage rows |
| `StageGate.dfy` | the reservation protocol that keeps the stage at three slots |
| `Numbers.dfy` | JavaScript's `Number` and `String` on track durations, against Go's `Atoi` |
| `QueueTags.dfy` | queue events: the client's printer and parser, the relay's parser and off-patch |
| `Playback.dfy` | one tick of one club as functions: settling, rotation, Auto DJ, eviction, resume |
| `Conductor.dfy` | the same tick as the relay runs it, on mutable club state and a shared ledger |
| `PlaybackRuns.dfy` | whole runs over any number of clubs: positions, settlements, ledger, top tracks |
| `Verdicts.dfy` | what one tick decides about the running track, from what it reads |
| `VerdictRuns.dfy` | the same over whole runs, and what is listed publicly |
| `Openings.dfy` | what a stage DJ may play, which of it a tick starts, which play marks are left |
| `OpeningRuns.dfy` | broken reports and repeats over whole runs |
| `QueueEvents.dfy` | which queue event stays indexed, and when the order of arrival shows |
| `Restarts.dfy` | what a club resumes with after an eviction or a restart |
| `Drain.dfy` | which video a start takes and how a DJ's set drains |
| `Replays.dfy` | exactly which track an advance takes, and when a broken or just-stopped video starts again |
| `Previews.dfy` | the client's look-ahead against the relay's own starts |
| `AutoRuns.dfy` | the Auto DJ plays what it announced |
| `Moods.dfy` | vibe reactions and their capped counters |
| `MoodRuns.dfy` | runs with reactions: from a member's reaction to the DJ's row in the ledger |
| `Credibility.dfy` | the score ledger, its last-track key and the bounded history |
| `Leaderboard.dfy` | score arithmetic, the ranking, and the client's acceptance of served rows |
| `Rankings.dfy` | the served rankings in the ledger's own numbers |
| `RateLimit.dfy` | token buckets, exactly which uses pass, and the sweeps |
| `Listeners.dfy` | live listeners, rolling five-minute buckets and the published counts |
| `ListenerWindows.dfy` | the retained spans, the served day chart, and exactly when a count is sent |
| `Sorting.dfy`, `Decimal.dfy`, `Wrappers.dfy` | sorting by an order, Go's decimal conversions, options |

`dafny verify dfyconfig.toml` checks the whole project.

## Findings

- The expiry of a replay record is safe only because of the freshness check: a session event is
  accepted at most once for every schedule if and only if the two clock reads of one call are less than
  30 s apart (`SessionReplay.GapIsExact`).
- A relay off-patch written in the second its DJ signed the queue is not indexed, so the started video
  stays on offer (`Drain.SameSecondPatchIsLost`) and can start a second time (`Replays.LastSongLoops`).
  A start removes its video exactly when the patch falls into a later second (`Drain.PatchDrains`).
- When an absent DJ's list starts over, the row is rebuilt without the broken-video block. A video
  reported broken starts again exactly when the rotation's turn falls on such a list
  (`Replays.BlockedStartsExactly`), and `Replays.BrokenVideoStartsAgain` is a run from a new club in
  which it does, fifteen seconds after the report.
- The comment on `stop` says the matrix keeps the stopped track from being picked again, so that the
  last song does not loop; the code applies that exclusion only while a track is playing.
  `Replays.StoppedStartsExactly` says when the next tick starts the stopped video again, and
  `Replays.LastSongLoops` is a run from a new club that plays the last song twice.
- The client's preview goes on hiding the video a club has stopped on, which the relay does not
  (`Previews.ClientMatrixExact`); in the club of `Replays.LastSongLoops` it announces nothing while the
  next tick starts that video (`Previews.StoppedPreviewIsEmpty`). A start also switches off every copy
  of its video, while the preview consumes one cell; `Previews.NextMatrixExact` says exactly when the two
  agree after a turn, and `Previews.TwiceAnnouncedOncePlayed` is a queue that is announced twice and
  played once.
- The Auto DJ keeps its promise across a set of real DJs only if a track is playing when it takes over;
  after a stop it starts its current slot again instead of the announced one (`AutoRuns.ReturnExact`).
- The stage gate and the playback tick disagree about a lease that is exactly five minutes old: the
  gate still counts it, the tick no longer drives it (`StageIndex.DrivenVersusCounted`, with such a lease
  in `StageIndex.LeaseOfFiveMinutes`).
- A former owner who becomes a member again wakes an armed Auto DJ without passing the gate, which
  overfills a full stage; `StageGate.RejoinExact` says exactly when, and `StageGate.LateEventExact`
  does the same for an event indexed after its reservation ran out. `StageGate.RejoinOverfills` and
  `StageGate.LateEventOverfills` are runs from the empty stage that meet those conditions.
- The gate counts a member twice while he is on stage and his reservation is not yet released
  (`StageGate.CountedVersusLoad`), so for a moment it may refuse a newcomer although a slot is free; it
  never admits one when none is.
- Of two queue events that a DJ signs in the same second the relay keeps the one that arrives first, so
  the order of delivery shows (`QueueEvents.ArrivalOrderShows`), while stage events of one second are
  ordered by their ids (`StageIndex.ArrivalOrderIrrelevant`).
- Client and relay read the same duration exactly on the spellings of `Numbers.ReadsAlikeExact`; they
  differ on `1e3`, `212.4`, a padded ` 12 ` and 2^53 + 1 (`Numbers.SpellingsThatDiffer`).

## Model

| member | source | states |
|---|---|---|
| RoundRobin.PickMeets | relay/roundrobin.go:18-36 | a turn takes the first playable cell of the first DJ in turn who has one, and takes none exactly when no DJ has one |
| RoundRobin.PickIsUnique | relay/roundrobin.go:18-36 | those rules name at most one cell |
| RoundRobin.IndexOf | relay/roundrobin.go:38-45 | the first position of the value, -1 when it is absent |
| RoundRobin.FairNext | relay/roundrobin.go:18-36 | the nested loops return exactly the cell the rules name, (-1, -1) exactly when nothing is playable |
| RoundRobin.DjAtByRemainder | relay/roundrobin.go:25 | the remainder the loop computes visits each DJ once, in turn order after the last one |
| RoundRobin.JsDoubleRem | frontend/src/lib/nostr/roundrobin.ts:39 | the client's double remainder is the mathematical one for every integer last index |
| RoundRobin.PicksPartitionCells | relay/roundrobin.go:18-36 | iterated turns take distinct playable cells, what they leave is exactly the rest, and they stop short only when nothing is left |
| RoundRobin.PicksKeepQueueOrder | relay/roundrobin.go:29-33 | each DJ's cells are taken in index order |
| RoundRobin.Alternation | relay/roundrobin.go:23-34 | while two DJs both have tracks left their turn counts differ by what their places after the last DJ dictate |
| RoundRobin.RotationIsFair | relay/roundrobin.go:23-34 | any two DJs that still have a playable track have been picked equally often up to one |
| RoundRobin.NobodyStarves | relay/roundrobin.go:23-34 | a DJ that stays playable is picked within as many turns as there are DJs |
| RoundRobin.FairSequence | frontend/src/lib/nostr/roundrobin.ts:23-55 | the look-ahead with its consumed matrix is the iterated turns with clearing, for every matrix, last index and count |
| RoundRobin.PreviewRefinesConductor | frontend/src/lib/nostr/roundrobin.ts:15-22 | the preview equals the first picks of the relay's repeated fairNext when every turn clears the one cell it takes |
| AutoOrder.ShuffledIsOrder | relay/conductor.go:2178-2186 | whatever swaps the random source makes, the result holds every index exactly once |
| AutoOrder.MakeShuffledOrder | relay/conductor.go:2178-2186 | the in-place shuffle is the swapped identity and an order |
| AutoOrder.ApplyReady | relay/conductor.go:2191-2228 | advancing and previewing keep the order and the planned one complete |
| AutoOrder.FutureIsPlayed | relay/conductor.go:2188-2228 | a run of advances and previews plays what was committed before it, as far as the commitment reaches |
| AutoOrder.AnnouncedIsPlayed | relay/conductor.go:2205-2228 | entry i of a preview is the index current after i + 1 advances, across cycle boundaries and further previews |
| AutoOrder.CyclePlaysEveryIndex | relay/conductor.go:2191-2203 | a full cycle plays every index exactly once |
| AutoRuns.TickKeepsPromise | relay/conductor.go:2303-2383 | one Auto-DJ tick either extends the committed future or takes its head and starts that very track |
| AutoRuns.FutureComesTrue | relay/conductor.go:2303-2383 | the starts of any run of ticks with one playlist follow the committed future |
| AutoRuns.AnnouncedTracksPlay | relay/conductor.go:2388-2410 | the i-th track started after a publication is entry i of the preview it carried, through skips, broken and mood skips |
| AutoRuns.AutoNeverStalls | relay/conductor.go:2366-2382 | ticked at least every gap, the Auto DJ spends less than the longest track plus the gap per start |
| AutoRuns.EveryAnnouncedTrackStarts | relay/conductor.go:2366-2382 | every track of a published preview is started, in time for its place |
| AutoRuns.AutoStartIsExact | relay/conductor.go:2327-2342 | a start plays the track the order stands at, for the owner, with its title and length, and publishes the next six, or all that is left of this cycle and the next |
| AutoRuns.ReturnExact | relay/conductor.go:2344-2347 | after a set of real DJs the first Auto-DJ start is entry 0 of the last preview exactly if a track was playing at the takeover, or the current slot holds that track too |
| SessionReplay.FrontIsEnough | relay/sessionevents.go:243-251 | with records sorted by expiry, pruning from the front is filtering out all expired records |
| SessionReplay.RollbackRestores | relay/sessionevents.go:207-241 | reserving and then releasing restores the pruned cache |
| SessionReplay.SessionEventPolicy.constructor | relay/sessionevents.go:44-52 | the cache starts empty with its capacity |
| SessionReplay.SessionEventPolicy.MapSize | relay/sessionevents.go:196-200 | list and map hold equally many records, so the map's size bounds the list |
| SessionReplay.SessionEventPolicy.PruneReplayLocked | relay/sessionevents.go:243-251 | the loop that stops at the first live record leaves exactly the live ones, list and map in bijection |
| SessionReplay.SessionEventPolicy.AddReplayLocked | relay/sessionevents.go:253-256 | the new record goes to the back and into the map |
| SessionReplay.SessionEventPolicy.RemoveReplayLocked | relay/sessionevents.go:258-262 | the record leaves list and map together |
| SessionReplay.SessionEventPolicy.RejectReplay | relay/sessionevents.go:182-205 | rejects exactly ids that are held unexpired or find the cache full, else reserves the id for the window |
| SessionReplay.SessionEventPolicy.ReleaseReplay | relay/sessionevents.go:207-216 | removes the id's record and nothing else |
| SessionReplay.SessionEventPolicy.FinalGate | relay/sessionevents.go:222-241 | accepts exactly fresh, authorized, reservable events that the stage admits, and leaves the pruned cache when the stage is full |
| SessionReplay.AcceptedAtMostOnce | relay/sessionevents.go:164-241 | in every interleaving of overlapping calls no session event is accepted twice although records expire |
| SessionReplay.GapIsExact | relay/sessionevents.go:164-186 | that holds for every creation time if and only if one call's two clock reads are less than 30 s apart |
| SessionMemory.ReserveMirrors | relay/sessionevents.go:182-205 | the cache admits an id exactly if the unforgetting memory does, and goes on mirroring it |
| SessionMemory.CacheIsMemory | relay/sessionevents.go:164-262 | in every schedule of overlapping calls the pruned cache accepts exactly what a memory of every grant would |
| SessionMemory.AcceptanceIsExact | relay/sessionevents.go:164-241 | after any run an event is accepted exactly if it is in time, was not granted in the last two minutes, fewer than the maximum were, and the stage has room |
| StageIndex.DrivenVersusCounted | relay/conductor.go:1396 | the tick drives only DJs the gate counts, and all of them exactly when no lease is 300000 ms old to the millisecond |
| StageIndex.LeaseOfFiveMinutes | relay/conductor.go:1396 | a stage whose one DJ signed exactly five minutes ago is counted by the gate and not driven by the tick |
| StageIndex.RankIsPosition | relay/conductor.go:65-78 | in the sorted stage list a DJ's position is the number of DJs that joined before |
| StageIndex.CapIdle | relay/conductor.go:73-77 | with at most three DJs active the cap drops nobody |
| StageIndex.LineUpIsExact | relay/conductor.go:65-78 | each DJ of the line-up stands behind exactly those who joined before him, and left out is exactly whoever has three before him |
| StageIndex.StageBook.IdxStage | relay/conductor.go:391-420 | a member's stage event replaces the indexed one exactly when it is newer, ties going to the smaller id |
| StageIndex.StageBook.IdxKick | relay/conductor.go:422-439 | the newest kick of a DJ is kept |
| StageIndex.StageBook.IdxAutoDJ | relay/conductor.go:517-527 | only a strictly newer configuration replaces the indexed one |
| StageIndex.StageBook.IdxAutoDJCtrl | relay/conductor.go:529-542 | the newest disarm marker is kept |
| StageIndex.StageBook.RevokeClubStagePrincipal | relay/conductor.go:831-848 | the lease goes, the armed Auto DJ stays |
| StageIndex.StageBook.RevokePrincipal | relay/conductor.go:852-889 | a banned account loses its lease and the Auto DJ it armed |
| StageIndex.StageBook.HasActiveAutoDJ | relay/conductor.go:2282-2299 | armed, with tracks, by an eligible owner, and not disarmed since |
| StageIndex.StageBook.OrderAndCapDJs | relay/conductor.go:65-78 | the first three by join time, then pubkey |
| StageIndex.StageBook.ListActive | relay/conductor.go:796-812 | lists exactly the eligible, present, unkicked DJs, each once |
| StageIndex.StageBook.CountActiveOtherDJs | relay/conductor.go:783-820 | the sender is on stage exactly if he is among the capped occupants, and the count is that of the others |
| StageIndex.IndexAllHoldsNewest | relay/conductor.go:391-420 | after any sequence of events the index holds, for exactly the eligible senders, their newest event |
| StageIndex.ArrivalOrderIrrelevant | relay/conductor.go:407-418 | any reordering or duplication of the same events gives the same stage |
| StageIndex.OnStageIsHistory | relay/conductor.go:783-820 | a DJ is on stage exactly if his newest stage event of the history says so, is at most five minutes old and newer than his newest kick |
| StageIndex.AutoIsHistory | relay/conductor.go:2282-2299 | the Auto DJ is active exactly if the newest configuration of the history is armed, has tracks, an eligible owner and no later disarm |
| StageIndex.StageStore.Observe | relay/sessionevents.go:287-342 | the cleaner drops an ineligible sender's event and otherwise every event of that sender but the newest |
| StageIndex.StoreKeepsNewest | relay/sessionevents.go:287-342 | the store holds exactly each eligible sender's newest event |
| StageIndex.IndexAndStoreAgree | relay/sessionevents.go:431-434 | index and store agree on every sender's event, whatever order each saw |
| StageGate.OnlyOwnerReleases | relay/conductor.go:2609-2631 | one release removes a reservation exactly if it is of the event that made it |
| StageGate.Gate.Prune | relay/conductor.go:2488-2497 | exactly the expired reservations are dropped |
| StageGate.Gate.Reject | relay/conductor.go:2465-2602 | rejects exactly when occupants, Auto DJ and live reservations fill the stage, and reserves exactly for a newcomer |
| StageGate.Gate.Observe | relay/conductor.go:2609-2631 | frees the reservation only of the saved event itself |
| StageGate.Gate.RevokeClubPrincipal | relay/conductor.go:2633-2643 | frees the revoked member's reservation |
| StageGate.GrantedSlotIsFree | relay/conductor.go:2465-2602 | granting a reservation keeps the load within three |
| StageGate.NoNewSlot | relay/conductor.go:391-420 | indexing an event that takes no slot, or one its sender holds, never raises the load |
| StageGate.NewSlot | relay/conductor.go:391-420 | indexing an event that takes an unheld slot raises the load by exactly one |
| StageGate.OfferKeepsInv | relay/conductor.go:2465-2602 | the gate's step keeps capacity and every live reservation |
| StageGate.IndexKeepsInv | relay/main.go:441-443 | indexing before release never leaves a granted slot uncounted |
| StageGate.ReleaseKeepsInv | relay/conductor.go:2609-2631 | releasing keeps capacity |
| StageGate.ExpelKeepsInv | relay/conductor.go:2633-2657 | revoking a member keeps capacity |
| StageGate.RunKeepsInv | relay/conductor.go:2465-2657 | every legal step of a run keeps the invariant |
| StageGate.CapacityHolds | relay/conductor.go:2441-2464 | in every reachable state DJs on stage, reservations and the Auto DJ together take at most three slots |
| StageGate.StepKeepsReservation | relay/conductor.go:2465-2657 | a legal step takes away a live reservation exactly if it releases the reserving event or revokes its sender |
| StageGate.RunKeepsReservation | relay/conductor.go:2465-2657 | over any legal run a reservation stays until its deadline unless such a step happens |
| StageGate.AdmissionIsExact | relay/conductor.go:2465-2602 | who is let in, on the DJs, the Auto DJ and the live reservations alone: holders and events without a slot pass, everyone else is refused exactly when three slots count against them |
| StageGate.HoldersAreNeverRefused | relay/conductor.go:2570-2571 | in every reachable state an offer by whoever holds the slot is never refused |
| StageGate.CountedVersusLoad | relay/conductor.go:2572-2592 | what the gate counts is the slots taken plus those held by lease and reservation at once |
| StageGate.RejoinExact | relay/conductor.go:822-848 | a rejoin overfills the stage exactly when it wakes a dormant Auto DJ on a full stage |
| StageGate.LateEventExact | relay/conductor.go:2595-2601 | an unreserved event overfills the stage exactly when it takes a new slot on a full stage |
| StageGate.RejoinOverfills | relay/conductor.go:822-848 | a run from the empty stage meets that condition: an owner arms and leaves, three members join, and his return makes four |
| StageGate.LateEventOverfills | relay/conductor.go:2595-2601 | a run from the empty stage in which a reservation expires, the stage fills up, and the late event makes four |
| Numbers.ReadsAlikeExact | frontend/src/lib/nostr/queue.svelte.ts:38 | JavaScript's reading, zero for what is no number, and Go's `Atoi` give one value if and only if the text is an integer to Go that a double holds, up to the clamping at Go's lower end, or else vanishes in JavaScript: no number, or one that rounds to zero |
| Numbers.SpellingsThatDiffer | relay/conductor.go:1479 | 1e3, 212.4, a padded 12 and 2^53 + 1 are read differently |
| Numbers.ItoaIsPlain | frontend/src/lib/nostr/queue.svelte.ts:150 | the digits of a whole number up to 2^53 - 1 read back as that number on both sides |
| Numbers.SomePrinterExists | frontend/src/lib/nostr/queue.svelte.ts:150 | some printer meets what ECMA-262 promises of `String`: every number reads back, NaN included, and whole numbers up to 2^53 - 1 print as digits |
| QueueTags.ParseQueueTracks | relay/conductor.go:1467-1487 | the loop yields one track per video tag with the source's defaults for title, duration and flag |
| QueueTags.MarkedTags | relay/conductor.go:2105-2129 | the patch pads and switches off exactly the active copies of the video, drops other tags, and reports whether there was one |
| QueueTags.PatchCommutes | relay/conductor.go:2105-2127 | parsing the patch switches off every copy of the video, and equals the switched parse exactly when every hit tag has a title |
| QueueTags.NoHitNoChange | relay/conductor.go:2127-2129 | without an active copy the parsed queue had nothing to switch off |
| QueueTags.PrintTrackParses | frontend/src/lib/nostr/queue.svelte.ts:149-154 | one printed tag reads back as the normalised track in the client, for every JavaScript number as duration; the one that is no number reads back as zero |
| QueueTags.PrintTrackParsesAtRelay | relay/conductor.go:1467-1487 | a whole duration of at most 2^53 - 1 reads back as the same number in the relay |
| QueueTags.QueueRoundTrip | frontend/src/lib/nostr/queue.svelte.ts:136-160 | parsing a printed queue gives the valid tracks with active flag and cover normalised, in order |
| QueueTags.ParsersAgreeExactly | frontend/src/lib/nostr/queue.svelte.ts:32-45 | client and relay see the same ids, titles, durations and active flags in the same order if and only if every duration of a valid video is spelled alike for both |
| QueueTags.PlainQueuesAgree | frontend/src/lib/nostr/queue.svelte.ts:32-45 | they agree on every queue whose durations are absent or digits up to 2^53 - 1 |
| Playback.EndedMeansFullLength | relay/conductor.go:1570-1577 | the truncating seconds comparison holds exactly when the whole length in milliseconds has passed |
| Playback.PreparedReady | relay/conductor.go:2317-2321 | an order of another length than the playlist is replaced by a fresh complete one |
| PlaybackRuns.StopShape | relay/conductor.go:1797-1815 | settling and stopping keeps position and start, takes the track off the air and only repeats its settlement |
| PlaybackRuns.StartShape | relay/conductor.go:1635-1644 | settling and starting adds one to the position and settles exactly the track that was on the air |
| PlaybackRuns.AdvanceShape | relay/conductor.go:1590-1682 | both hold for every branch of advance |
| PlaybackRuns.DriveClubShape | relay/conductor.go:1492-1583 | a track settled as played by the real-DJ branches has run its length |
| PlaybackRuns.DriveAutoShape | relay/conductor.go:2303-2383 | the same for the Auto-DJ branches, takeover of a real DJ's track included |
| PlaybackRuns.AbandonShape | relay/conductor.go:1306-1340 | the same for the eviction of an idle club, which saves its position |
| PlaybackRuns.TickShape | relay/conductor.go:1287-1355 | whichever way a tick drives the club, it makes at most one start, one outcome per track and keeps the position otherwise |
| PlaybackRuns.BootHolds | relay/conductor.go:1989-2029 | a process that has just started satisfies the run invariants, whatever rows it finds |
| PlaybackRuns.DoKeepsInv | relay/conductor.go:1287-1355 | every tick and queue event keeps them |
| PlaybackRuns.RunKeepsInv | relay/conductor.go:1287-1355 | so does every run over any number of clubs |
| PlaybackRuns.RunIsOrderly | relay/conductor.go:1817-1851 | the settlement calls of a run continue those of earlier lives in order: per club positions and start times rise, and a position belongs to one start |
| PlaybackRuns.RunLedger | relay/conductor.go:1817-1851 | the ledger continues from what earlier lives left: it equals the sums over the first settlement of every track of all lives, a resumed track included, and its history the best hundred of all |
| PlaybackRuns.PlayedRanInFull | relay/conductor.go:1525-1583 | a track that enters the ledger as played has run its full length, 600 s when unknown, on every path |
| PlaybackRuns.PositionsCountStarts | relay/conductor.go:1636 | a club's position is its booted one plus its starts, eviction and resume included, so it never falls |
| PlaybackRuns.StartsAreNumbered | relay/conductor.go:1636 | the k-th track a club starts has the k-th position after the booted one |
| PlaybackRuns.SettledAtMostOnce | relay/credibility.go:100-106 | the ledger takes at most one settlement of a started track |
| PlaybackRuns.StartIsSettled | relay/conductor.go:1590-1596 | every started track is on the air or has a settlement the ledger takes, for that DJ, video and length |
| PlaybackRuns.SettledWasStarted | relay/conductor.go:1817-1827 | everything settled beyond the booted position was started by the run |
| PlaybackRuns.FirstsAreDistinct | relay/conductor.go:1642 | the first settlements of rising positions never share a club and a start time |
| PlaybackRuns.RunTopTracks | relay/credibility.go:135-171 | the top rows served from the bounded history are those of everything all lives listed |
| Verdicts.OutcomeIsExact | relay/conductor.go:1522-1583 | a tick settles the running track as played exactly if it ran in full and nobody cut it short, as community-skipped exactly on three due votes, as discarded exactly on a skip or a due report |
| Verdicts.SettlementIsExact | relay/conductor.go:1817-1832 | every settlement is about the track on the air, with its title and votes, listed exactly if the tick read the club as public |
| Verdicts.StartIsExact | relay/conductor.go:1508-1521 | a tick starts a track exactly if it moves on and some DJ offers one; the Auto DJ exactly if nothing plays, the track is cut short or its length has passed |
| Verdicts.AutoJudges | relay/conductor.go:2344-2376 | both for the Auto-DJ branches |
| Verdicts.MemoryIsExact | relay/conductor.go:1540-1568 | the tick remembers exactly the reports and votes it acted on, and the heartbeat of what plays is never fifteen seconds old |
| Verdicts.BackoffIsExact | relay/conductor.go:1610-1629 | a club that found nothing tries again after exactly a minute, or at once when a queue woke it |
| VerdictRuns.RunOutcomes | relay/conductor.go:1522-1583 | every settlement of a run is the verdict of one tick on what it read, or repeats the one before it |
| VerdictRuns.NotPlayedWasCut | relay/conductor.go:1540-1568 | a settlement that is not played was made by a tick that read a skip, a report or three votes |
| VerdictRuns.QuietRunPlaysAll | relay/conductor.go:1570-1577 | where nobody interferes every settlement of the run is played |
| VerdictRuns.EndIsSettled | relay/conductor.go:1570-1577 | a track that has run its length is settled by the next tick, whoever drives the club |
| VerdictRuns.NoTrackOutlivesItsLength | relay/conductor.go:1570-1577 | after every tick of a run whatever is on the air is younger than its length |
| VerdictRuns.ListedExactly | relay/conductor.go:1824-1832 | a track the ledger settles is listed publicly exactly if the tick that settled it read its club as public and did not discard it |
| VerdictRuns.HistoryIsPublic | relay/credibility.go:135-147 | every performance in the history was listed by a tick of its club that read it as public, or by an earlier life |
| Openings.OpenIsExact | relay/conductor.go:1693-1772 | a cell is open exactly if its track is active, not running, and either the absent DJ's list starts over or it is neither reported within six hours nor played since the DJ's own queue was written |
| Openings.TickTakesTurn | relay/conductor.go:1597-1662 | a tick that moves on starts exactly the first playable track of the first DJ in turn who has one, as the next position, with its title and length, and saves it |
| Openings.StartWasTurn | relay/conductor.go:1597-1662 | every start of a tick with real DJs is such a turn |
| Openings.MarksAreExact | relay/conductor.go:1645-1768 | the started video is marked with the moment, a list that starts over or is emptied loses its marks, every other mark stays |
| OpeningRuns.ReportsAreHistory | relay/conductor.go:1550-1558 | what a club remembers as broken are exactly the videos a tick of the run acted on, with the last such moment |
| OpeningRuns.ReportedVideoStaysOff | relay/conductor.go:1734-1740 | in every run a reported video is not started within six hours, unless an absent DJ's list starts over |
| OpeningRuns.RepeatsHaveACause | relay/conductor.go:1693-1768 | a video starts again for the same DJ only if the relay keeps his queue, he wrote it after the first start, his list starts over, or his marks were dropped in between |
| QueueEvents.IndexHoldsNewestQueue | relay/conductor.go:441-490 | after any queue events the index holds each DJ's newest, the first to arrive of one second, and the club is woken exactly if a DJ offered something himself |
| QueueEvents.ArrivalOrderShows | relay/conductor.go:461-466 | the order of arrival shows exactly between two different events of one second, both newer than what is indexed |
| Restarts.ResumeIsExact | relay/conductor.go:1993-2029 | what a club resumes with, field by field: the saved track, unless it is more than two hours over |
| Restarts.RestartKeepsTrack | relay/conductor.go:1993-2029 | after a restart the very track a tick started is on the air exactly if it is not two hours over |
| Restarts.EvictionIsExact | relay/conductor.go:1306-1340 | without anybody on stage a track plays on until its length has passed, then the club is forgotten with a stopped row |
| Drain.AdvanceChooses | relay/conductor.go:1590-1631 | advance starts the rotation's first open track, and stops exactly when no DJ offers one |
| Drain.PatchDrains | relay/conductor.go:441-480 | the off-patch removes every copy of the video from what the DJ offers exactly when its second is later than the queue's |
| Drain.AdvanceDrains | relay/conductor.go:1645-1662 | a start takes a video the DJ's queue offered and touches no other DJ's queue |
| Drain.TickDrains | relay/conductor.go:1287-1355 | so does every tick; ticks without a start and Auto-DJ starts leave all queues alone |
| Drain.EventDrains | relay/conductor.go:441-480 | an event removes from a DJ's offer exactly what it started for that DJ |
| Drain.SetDrains | relay/conductor.go:1645-1662 | while nobody else writes the DJ's queue his starts are distinct videos of it and what is left is exactly the rest |
| Drain.SetEnds | relay/conductor.go:1610-1629 | a set has at most as many starts as the queue had active videos |
| Drain.SameSecondPatchIsLost | relay/conductor.go:463-466 | a patch in the second the DJ signed his queue leaves the started video on offer |
| Replays.AdvanceTakes | relay/conductor.go:1597-1662 | advance starts exactly the first open track of the first DJ in turn who has one |
| Replays.AdvanceStartsVideo | relay/conductor.go:1590-1662 | an advance starts a given video exactly when the rotation's turn falls on a copy of it |
| Replays.BlockedStartsExactly | relay/conductor.go:1740-1768 | a video that is broken, or stale for every DJ, starts exactly when the turn falls on an absent DJ's played-through list that offers it first |
| Replays.StoppedVideoReopens | relay/conductor.go:1718-1742 | at rest the stopped video is open exactly if active and the list starts over, or it is neither broken nor stale in an unmanaged queue |
| Replays.RestIgnoresVideo | relay/conductor.go:1719 | at rest no cell depends on the video the club has stopped on |
| Replays.StoppedStartsExactly | relay/conductor.go:1508-1521 | the next tick starts the stopped video again exactly when the bootstrap is due and the turn falls on an open copy of it |
| Replays.LastSongLoops | relay/conductor.go:1803-1808 | a run from a new club, with one queue signed by its DJ, starts the same video twice with a stop in between |
| Replays.BrokenVideoStartsAgain | relay/conductor.go:1763-1766 | a run from a new club, with two signed queues, starts a video again fifteen seconds after it was reported broken |
| Previews.ClientMatrixExact | frontend/src/lib/nostr/sync.svelte.ts:134-145 | the client's matrix is the relay's exactly if the club is playing or no queue offers the video it stopped on, when nothing is stale or broken |
| Previews.StoppedPreviewIsEmpty | frontend/src/lib/nostr/sync.svelte.ts:138-145 | a club reached by a run has stopped on its only video: the client announces nothing, and the next tick starts it |
| Previews.NextMatrixExact | relay/conductor.go:1645-1662 | after a start the relay's matrix is the old one with one cell cleared exactly if no other active copy of that video, and none of the outgoing one, is queued |
| Previews.TwiceAnnouncedOncePlayed | relay/conductor.go:1645-1662 | a queue holding one video twice is announced twice, started once, and offers nothing at the next turn |
| Previews.PreviewIsPlayed | frontend/src/lib/nostr/roundrobin.ts:15-55 | with distinct active ids, repeated advances start the look-ahead's tracks one by one and stop where it stops |
| Previews.AnnouncedIsPlayed | frontend/src/lib/nostr/sync.svelte.ts:147-186 | the same for the look-ahead over the client's own parse of the queues |
| Conductor.CondClub.Begin | relay/conductor.go:1636-1644 | the fields of the next track, one position on |
| Conductor.CondClub.AdvanceAutoOrder | relay/conductor.go:2191-2203 | moves to the next slot, taking the preplanned order at the cycle boundary |
| Conductor.CondClub.AutoUpcomingTracks | relay/conductor.go:2207-2228 | returns exactly the tracks of the committed future up to the maximum, planning the next cycle once |
| Conductor.RestOfCycle | relay/conductor.go:2211-2214 | the first loop collects the tracks left in the cycle, up to the maximum |
| Conductor.IntoNextCycle | relay/conductor.go:2221-2227 | the second loop goes on into the planned cycle until the maximum is reached |
| Conductor.CondClub.Revive | relay/conductor.go:2004-2023 | a session that ended over two hours ago is dropped, and the published event overrides the Auto-DJ flag |
| Conductor.ClubConductor.SettleTrack | relay/conductor.go:1817-1851 | records one capped settlement of the playing track in the ledger, none when nothing plays |
| Conductor.ClubConductor.Stop | relay/conductor.go:1797-1815 | settles as played, keeps video and DJ, stops |
| Conductor.ClubConductor.IdxQueue | relay/conductor.go:441-480 | a strictly newer queue is indexed, a DJ's own event with active tracks wakes the bootstrap |
| Conductor.ClubConductor.MarkTrackOff | relay/conductor.go:2095-2161 | publishes and indexes the patch, and clears the DJ's marks when nothing active is left |
| Conductor.ClubConductor.ClubQueues | relay/conductor.go:1414-1465 | the parsed queue of every indexed DJ |
| Conductor.ClubConductor.CycledThrough | relay/conductor.go:1747-1758 | the two counters decide whether everything on offer was already played |
| Conductor.ClubConductor.GuardedRow | relay/conductor.go:1718-1742 | a cell is open exactly if active, not current, not played since the queue was written and not broken |
| Conductor.ClubConductor.OfferedRow | relay/conductor.go:1763-1766 | the rebuilt row of a list that starts over |
| Conductor.ClubConductor.MatrixRow | relay/conductor.go:1695-1768 | one DJ's row, with the loop reset for absent DJs of unmanaged queues |
| Conductor.ClubConductor.Matrix | relay/conductor.go:1693-1772 | the whole matrix and the marks left after all resets |
| Conductor.ClubConductor.EndSession | relay/conductor.go:1592-1596 | without DJs the club stops and forgets its play marks |
| Conductor.ClubConductor.Exhausted | relay/conductor.go:1610-1629 | with nothing playable the club stops, keeps its marks and backs off |
| Conductor.ClubConductor.PlayTrack | relay/conductor.go:1635-1662 | starts the track, marks it played, patches the queue, logs the play and saves the row |
| Conductor.ClubConductor.Rotate | relay/conductor.go:1597-1662 | starts the rotation's choice or stops |
| Conductor.ClubConductor.Advance | relay/conductor.go:1590-1682 | settles the outgoing track, then ends, stops or starts, with ledger and play log to match |
| Conductor.ClubConductor.Resume | relay/conductor.go:1993-2029 | rebuilds the club from its row, dropping a session that ended over two hours ago |
| Conductor.ClubConductor.Bootstrap | relay/conductor.go:1508-1521 | starts a resting club at most once per heartbeat unless a queue woke it |
| Conductor.ClubConductor.DrivePlaying | relay/conductor.go:1522-1583 | orphan, skip, broken, mood and end of track, in the source's order |
| Conductor.ClubConductor.EndTrack | relay/conductor.go:1570-1583 | advances at the track's end and beats until then |
| Conductor.ClubConductor.DriveClub | relay/conductor.go:1492-1583 | one tick of a club with real DJs |
| Conductor.ClubConductor.PublishNowPlayingAuto | relay/conductor.go:2388-2410 | the publication carries exactly the committed next tracks |
| Conductor.ClubConductor.StartTrack | relay/conductor.go:2327-2342 | settles the outgoing track and starts the current slot for the owner, without saving a row |
| Conductor.ClubConductor.NextTrack | relay/conductor.go:2323-2325 | turns to the next slot and starts it |
| Conductor.ClubConductor.DriveAutoPlaying | relay/conductor.go:2349-2382 | skip, broken, mood and end of track of an Auto-DJ track |
| Conductor.ClubConductor.EndAutoTrack | relay/conductor.go:2368-2382 | moves to the next slot at the track's end and republishes until then |
| Conductor.ClubConductor.DriveAutoLoaded | relay/conductor.go:2310-2347 | prepares the order, then starts or goes on |
| Conductor.ClubConductor.DriveAutoClub | relay/conductor.go:2303-2383 | one tick of a club with only the Auto DJ |
| Conductor.ClubConductor.Tick | relay/conductor.go:1306-1355 | real DJs first, then the Auto DJ, else the track runs out and the club is evicted |
| Conductor.QueueHasActiveTracks | relay/conductor.go:483-490 | whether any track tag is not switched off |
| Moods.MoodBox.ObserveMood | relay/conductor.go:1011-1066 | counts a reaction exactly if it names the running position, is not the DJ's own and the cap is not reached |
| Moods.MoodBox.MoodCounts | relay/conductor.go:1070-1082 | the capped totals over all voters |
| Moods.MoodBox.Prune | relay/conductor.go:1663-1681 | positions more than two behind are forgotten |
| Moods.Sum | relay/conductor.go:1042-1045 | the total over a voter map does not depend on the iteration order |
| Moods.CountersAreCappedTallies | relay/conductor.go:1008-1010 | a kept position's counters are the capped numbers of eligible reactions it received: five bangers, three skips |
| MoodRuns.TickReads | relay/conductor.go:1817-1823 | every settlement of a tick carries the counter the tick read, and one as skipped by the community read three skips |
| MoodRuns.EveningIsRun | relay/conductor.go:1287-1355 | runs with reactions are runs of the conductor, so all that is proved of those holds |
| MoodRuns.SettlementsCountReactions | relay/conductor.go:1011-1066 | in every run a settlement carries the capped number of eligible reactions its track received, and a community skip has received three |
| MoodRuns.LedgerCountsReactions | relay/credibility.go:93-134 | the votes the ledger credits a DJ with are the capped reactions of others to each track settled for him, each track once |
| MoodRuns.ThirdVoteSkips | relay/conductor.go:1560-1567 | a tick of an evening settles the track as community-skipped exactly if it received three skips of others, nothing else cuts it short, its DJ is there, and the last such skip is fifteen seconds old |
| Credibility.CredibilityBoard.TrimTrackPerformancesLocked | relay/credibility.go:151-171 | sorts and keeps the best hundred |
| Credibility.CredibilityBoard.RecordSettlement | relay/credibility.go:93-147 | a well-formed settlement with a new key is remembered and credited once, everything else changes nothing |
| Credibility.CredibilityBoard.TrackTop | relay/djleaderboard.go:148-191 | the first n public performances with votes, numbered from 1 |
| Credibility.RecordAllAppend | relay/credibility.go:93-147 | recording in two parts is recording the whole |
| Credibility.FreshIsFirst | relay/credibility.go:100-106 | in an orderly run the club's last key differs exactly for the first settlement of a track |
| Credibility.LastKeyIsEnough | relay/credibility.go:100-106 | remembering only the last key settles what remembering every key would |
| Credibility.LedgerConservation | relay/credibility.go:112-134 | each DJ's tracks, bangers, skips and score are the sums over the first settlements of his real tracks |
| Credibility.HistoryStep | relay/credibility.go:135-171 | trimming after every performance loses nothing of the best hundred of all |
| Credibility.ReachableIsSound | relay/credibility.go:112-134 | every reachable entry keeps skipped within tracks, bangers within five per track and the score within both |
| Credibility.BoundedHistoryIsInvisible | relay/djleaderboard.go:148-191 | with distinct starts the top rows of the bounded history are those of everything ever recorded, for any unstable sort |
| Rankings.TopIsExact | relay/djleaderboard.go:148-191 | the top tracks are performances with a banger, numbered from 1, none outranked by a later one, and whatever is missing outranks none of a full list |
| Leaderboard.ScoreIsNearest | relay/djleaderboard.go:49-83 | the score in tenths lies in 0..1000 and is the nearest integer to the exact fraction |
| Leaderboard.ScoreMonotone | relay/djleaderboard.go:49-83 | it never falls with a better vibe score, nor with more tracks of the same quality |
| Leaderboard.UnvotedCeiling | relay/djleaderboard.go:60-72 | unvoted tracks alone never exceed 167, and enough of them reach it |
| Leaderboard.ListEligible | relay/djleaderboard.go:99-108 | exactly the DJs with a settled, voted track, each once |
| Leaderboard.Ranked | relay/djleaderboard.go:99-123 | the result is a ranking: all eligible DJs, ordered by votes, tracks and pubkey, ranks 1..n |
| Leaderboard.RankingIsUnique | relay/djleaderboard.go:109-119 | a board has only one ranking |
| Rankings.RankIsExact | relay/djleaderboard.go:99-123 | ranked are exactly the DJs with a track and a banger, each once, with the ledger's numbers, one rank below the number of DJs that beat them |
| Leaderboard.DjTop | relay/djleaderboard.go:136-146 | the first n rows and the number of all |
| Leaderboard.DjRankOf | relay/djleaderboard.go:126-134 | a DJ's row is found exactly if he is ranked |
| Leaderboard.ParseLeaderboard | frontend/src/lib/nostr/leaderboard.ts:72-102 | the client's loops keep well-formed rows whose pubkey and rank are new, and well-formed top tracks whose rank and performance are new |
| Leaderboard.ParseTopTracks | frontend/src/lib/nostr/leaderboard.ts:87-99 | the loop over the top tracks |
| Leaderboard.SoundRowAccepted | frontend/src/lib/nostr/leaderboard.ts:51-59 | a row of a sound entry is accepted exactly if its pubkey is well formed and its counts are exact in JavaScript |
| Leaderboard.ServedRowsAreAccepted | frontend/src/lib/nostr/leaderboard.ts:72-102 | the client drops no row the relay serves from a reachable board except for those two reasons |
| Leaderboard.KeyTellsStart | frontend/src/lib/nostr/leaderboard.ts:93 | the joined performance key determines club, start and DJ, although club ids may hold colons |
| Leaderboard.ServedTracksAreAccepted | frontend/src/lib/nostr/leaderboard.ts:61-99 | the client drops no top track served from performances with distinct starts, except for a malformed DJ key or an oversized field |
| RateLimit.KindLimiter.Reject | relay/ratelimit.go:44-73 | a kind that is limited passes exactly if its sender's refilled bucket holds a token, which is then used |
| RateLimit.KindLimiter.Sweep | relay/ratelimit.go:75-84 | drops exactly the idle buckets |
| RateLimit.IPLimiter.Allow | relay/ratelimit.go:104-126 | the same bucket per address |
| RateLimit.IPLimiter.Sweep | relay/ratelimit.go:128-137 | drops exactly the idle buckets |
| RateLimit.SweepInvisible | relay/ratelimit.go:75-84 | sweeps of full-enough buckets change no later decision of any run |
| RateLimit.SweepExact | relay/ratelimit.go:75-84 | sweeps change no decision of any run exactly when the idle time refills the whole burst, or the burst is below one token; a refill rate of zero included |
| RateLimit.WindowBound | relay/ratelimit.go:44-73 | in any window of length w at most burst + rate * w uses of one principal pass |
| RateLimit.LevelIsTightest | relay/ratelimit.go:44-73 | a bucket holds x tokens exactly if x more uses would fit every window behind it |
| RateLimit.PassesExactly | relay/ratelimit.go:44-73 | a use passes exactly if, with it, no window opened by an earlier call has more than burst + rate * length uses, and a whole token fits the burst |
| RateLimit.ConfiguredSweepsAreInvisible | relay/main.go:501-516 | the sweeps of the configured limiters, the two per address included, change no decision |
| RateLimit.OverriddenSweepExact | relay/spam.go:78-98 | for limits set through the environment that holds exactly when ten minutes refill the burst, or the burst is below one token |
| RateLimit.MoodVotesTenSecondsApart | relay/main.go:316-318 | two accepted votes of one account are at least ten seconds apart |
| RateLimit.MoodVotesExactly | relay/main.go:316-318 | a vote is accepted exactly if the account's last accepted one is at least ten seconds old |
| Listeners.ListenerStats.Record | relay/listeners.go:155-196 | a beat joins the live map, the open bucket and the retained spans, unless a growth cap drops it |
| Listeners.ListenerStats.Remove | relay/listeners.go:198-207 | the session leaves, an empty club too |
| Listeners.ListenerStats.PruneActiveLocked | relay/listeners.go:227-238 | exactly the stale sessions and the clubs they empty are dropped |
| Listeners.ListenerStats.RollLocked | relay/listeners.go:285-300 | closes every bucket that ended and trims the window |
| Listeners.ListenerStats.TrimLocked | relay/listeners.go:315-341 | drops samples and spans older than the window |
| Listeners.ListenerStats.BroadcastLive | relay/listeners.go:242-283 | sends exactly the changed, departed or overdue counts and remembers what it sent |
| Listeners.RunKeepsInv | relay/listeners.go:155-341 | every run of beats, departures and ticks with room for every beat keeps the bucket invariants |
| Listeners.CapsAreRoom | relay/listeners.go:155-196 | a growth cap drops a beat exactly if there is no room for it: 2000 clubs, 5000 sessions |
| Listeners.FewIsLegal | relay/listeners.go:155-196 | with at most 2000 clubs and 5000 sessions a club among its beats no run loses one |
| Listeners.BeatIsKeptExactly | relay/listeners.go:155-196 | a beat is counted live, and in its bucket, exactly if there is room |
| Listeners.CapsHold | relay/listeners.go:155-196 | in every run, beats lost or not, the maps stay within the caps |
| Listeners.BucketsAreExact | relay/listeners.go:285-341 | each retained sample counts exactly the distinct sessions of its five minutes; samples are aligned, increasing, complete in the window and before the open bucket |
| Listeners.RunKeepsLive | relay/listeners.go:155-238 | in every run the live map is exact up to sessions that have gone silent |
| Listeners.BroadcastHolds | relay/listeners.go:242-283 | after a broadcast the live map holds exactly the listening sessions |
| Listeners.BroadcastTellsLiveCounts | relay/listeners.go:242-283 | after every broadcast of a run the last count sent to a club is the number of its sessions whose latest signal is a beat less than 70 s old |
| Listeners.ZeroOncePerDeparture | relay/listeners.go:242-283 | in every run a club is sent zero only after a positive count, so once per departure |
| ListenerWindows.SpansAreExact | relay/listeners.go:189-195 | remembered are exactly the sessions that listened in the last day, each with its latest beat and the one it has listened since |
| ListenerWindows.ChartIsFilled | relay/listeners.go:285-341 | every finished bucket of the last day that ended within a day after a beat of the club has its sample, zero or not, and no sample is older than a day |
| ListenerWindows.SendsExactly | relay/listeners.go:242-283 | a broadcast sends the number of listeners, to exactly the clubs for which it differs from the last one sent, or that have listeners and were sent theirs fifteen seconds ago or more |

## Left out

- Starts are followed through one life of the process; the ledger and the history also through earlier lives whose settlements lie at or before the rows it finds. Auto-DJ starts are not saved (relay/conductor.go:2327-2342), so a crash during Auto DJ can repeat positions; nothing is claimed across such a crash.
- Reading and writing the ledger's JSON file is not modelled.
- Signatures, event ids, Badger, SQLite, WebSocket and HTTP handling are not modelled: an event id determines its event, a saved row is a value, and a locked section is one step.
- What a tick reads from elsewhere is an input: the real DJs in order, the armed playlist, presence, an authorised skip, a broken-track quorum, vote counts (which `MoodRuns` ties to the reactions heard), whether the club is public, the second of the patch, the published Auto-DJ flag and the shuffles.
- The seeding of counters from a published event after a restart is not modelled: in `MoodRuns` a process opens with any earlier reactions to the tracks it resumes. A reaction that overlaps a tick is counted before it or after it.
- The Badger fallback of `resume`, the seeding of play marks from the play log and the saved copy of the play marks are not modelled; within one life that copy repeats the marks in memory.
- Publishing of now_playing and credibility events is not modelled beyond its heartbeat time, the preview it carries and the play log.
- The pruning of the broken-video map is left out: it drops only entries that no longer block.
- Club deletion, bans of whole accounts in the replay cache, entry fees, the club cap and the Auto-DJ owner gate are not modelled; membership and bans appear only as the eligible set.
- A club's maps are modelled one club at a time in `ClubConductor`, `StageBook`, `Gate` and `MoodBox`; `PlaybackRuns` follows many clubs over one shared log.
- Sorting uses an insertion sort as a function for Go's library sort; where equal keys could matter the statements hold for any sorted permutation.
- Token counts and times of the rate limiters are reals instead of floats.
- ECMA-262 lets an engine round decimal literals of more than twenty significant digits in its own way; `Numbers` rounds them correctly.
- Previews.PreviewIsPlayed: does not cover stages with stale, broken or doubly queued videos, or patches in the second of a queue; there `Replays.AdvanceTakes` says what starts, and the preview need not match it.
- Previews.AnnouncedIsPlayed: does not cover those stages either, nor a club that has stopped on a video still on offer (`Previews.StoppedPreviewIsEmpty`).
- RateLimit.ConfiguredSweepsAreInvisible: does not cover limits overridden through the environment, which `RateLimit.OverriddenSweepExact` does for every refill that is not negative.
- StageIndex.StageBook.RevokeClubStagePrincipal: does not model the presence entry dropped with the lease.
- StageIndex.StageBook.RevokePrincipal: does not model the queues, skip requests and presence of a banned account.
- StageGate.Gate.Reject: does not model the start-up scan of the event store; both of the gate's clock reads are one.
- Conductor.ClubConductor.SettleTrack: does not model the credibility event published with a settlement.
- Conductor.ClubConductor.MarkTrackOff: does not model the saved copy of the play marks.
- Conductor.ClubConductor.Resume: does not model the saved play marks and the mood counters.
- Listeners.BucketsAreExact: covers runs with room for every beat (`Listeners.FewIsLegal`); `Listeners.BeatIsKeptExactly` and `Listeners.CapsHold` say what happens at the caps.
- Listeners.BroadcastTellsLiveCounts: covers the same runs.
- ListenerWindows.SpansAreExact: covers runs in which the sessions a club heard in a day stay below 5000, as do all runs of `ListenerWindows.FewIsDaily`.
- ListenerWindows.ChartIsFilled: covers the same runs.
- RateLimit.PassesExactly: covers sweeps that wait until a bucket is full again; `RateLimit.SweepExact` says when the others show.
- AutoRuns.ReturnExact: does not cover clubs that the tick forgot in between; they shuffle a new order.
- The zap board, YouTube search, log API, Telegram bot, LNURL proxy and the Svelte interface are plumbing around the modelled core.
