# Media-hub: a verified model

Media-hub is a D-Bus service that plays media for its clients: it keeps a track
list per player, holds the display and the system awake while something plays,
lets one multimedia session play at a time, and keeps a registry of sessions.
This project models that state and proves what it keeps.

- `TrackListModel`, `TrackListRuns`, `TrackListTraversal`, `TrackListEdits`: the
  track list as a value, every run of it, walking it, editing it. `TrackList` is
  the class that updates vector, cursor, shuffle order, cache and counter in
  place, with the program's branches, proved to compute those functions.
  `TrackListAnswers` says what is announced and answered; `TrackListExamples`
  holds runs that come to an odd situation.
- `Wakelock`: reference counting of wakelocks with delayed give-back.
- `DisplayLock`: the cookies of the display service, in every interleaving.
- `TimedDisplay`: both together, in time.
- `Sessions`: which player plays; pausing and resuming around calls.
- `Registry`, `RegistryAnswers`: keys, object paths, names, UUIDs and owners of
  sessions, and where its answers lead.
- `Uri`, `AppId`, `ExtensionScan`: the three text scanners.
- `Sequences`, `Shuffling`, `Decimal`: find, insert, erase and shuffle; what a
  shuffle can come to; counters as text.

Signals, lock requests and replies are kept as ghost histories. Results of
`rand()` and of the swaps in `random_shuffle`, the outcome of engine calls, UUIDs,
clock times and the enumeration order of the unordered player map are arguments,
so every theorem holds for all of them. Characters are bytes of the C++ strings.

Where the code does not do what its names or comments suggest, the model follows
the code, and the members named here say exactly what it does then:

- Under shuffle with no current track `has_next` does not always foretell `next`;
  a looping playlist is then announced to be over
  (`TrackListTraversal.HasNextForetellsNextIff`, reached in
  `TrackListExamples.LoopingPlaylistEnds`).
- Removing the only track of a looping playlist tells the player to load it
  (`TrackListEdits.RemovedTrackLoadedIff`).
- Going to an unknown id leaves the cursor on the end
  (`TrackListRuns.GoToKeepsInvIff`).
- A batch positioned at an id it is about to make is not a splice
  (`TrackListEdits.BatchIsSpliceIff`), although a comment says that the insert
  position follows the last insert.
- `move_track` raises the error named for a missing source when the destination
  is missing, and the other way round (`TrackListAnswers.MoveAnswers`).
- A source type that changes while playing can leave a wakelock held when idle
  (`Wakelock.IdleHeldIff`, with the input `Wakelock.SourceTypeChangeKeepsTheLock`);
  a later change the other way may release it again.
- After `clear_wakelocks` with a timer pending, or while playing, a later playing
  interval of that kind gets no wakelock (`Wakelock.ClearThenPlayAcquiresIff`) or
  loses it while playing (`Wakelock.ClearThenExpiryReleasesIff`,
  `Wakelock.ReleasedIff`).
- A cookie of the display service can be lost when it is overwritten or its release
  called off (`DisplayLock.OverwriteLosesIff`, `DisplayLock.ReleaseLosesIff`, with
  the inputs `DisplayLock.TwoGrantsLoseTheFirst` and
  `DisplayLock.TwoReleasesLoseTheFirst`).
- A destroy request by the wrong client locks the owner out
  (`Registry.WrongClientLocksOut`, `Registry.OwnerIsLockedOut`), and any client that
  makes a detached session normal can take it away (`Registry.NormalAgainIsGone`).
- An extension is reported when another one merely ends with its name
  (`ExtensionScan.LongerNameFools`), and the search for an empty name may not end
  (`ExtensionScan.EndsIff`).

## Model

| member | source | states |
|---|---|---|
| TrackListTraversal.WalksTheOrder | src/core/media/track_list_skeleton.cpp:539-612 | After any number of `next()` calls, under every loop status and with or without shuffle, the list state, the tracks loaded so far and the number of end announcements are those of a plain walk over places of the active order |
| TrackListTraversal.PlaylistLoopVisitsEveryTrackOnce | src/core/media/track_list_skeleton.cpp:554-612 | With loop status playlist and a current track, as many `next()` calls as there are tracks load every track exactly once, in the active order beginning after the current one, announce no end, and come back to the same state |
| TrackListTraversal.NextDoes | src/core/media/track_list_skeleton.cpp:539-612 | What one `next()` signals, in full, which track is current then, and that nothing else changes, in every reachable state with tracks, a track being current or not: the same track when looping on it, the following one of the active order, the first one of a looping playlist, or the end |
| TrackListTraversal.PreviousDoes | src/core/media/track_list_skeleton.cpp:614-689 | The same for `previous()`: more than 5,000,000,000 ns into the track the track itself again, before loop status and order count; the last one of a looping playlist when the first or none is current; the one before; or the end |
| TrackListTraversal.StraightThrough | src/core/media/track_list_skeleton.cpp:572-611 | Without looping, k calls with k places left load the k following tracks of the active order once each, in order, and announce no end |
| TrackListTraversal.ThenItStays | src/core/media/track_list_skeleton.cpp:572-611 | Without looping, any number of calls beyond the last place loads exactly the tracks that were left, leaves the last one current, and announces the end once per surplus call |
| TrackListTraversal.NextGoesIffHasNext | src/core/media/track_list_skeleton.cpp:484-515 | Without looping and with a current track, one call either loads the track one place on, which happens iff `has_next()` held, or changes nothing and announces the end once: never both |
| TrackListTraversal.HasNextForetellsNextIff | src/core/media/track_list_skeleton.cpp:492-503 | In every reachable state with tracks a call of `next()` loads a track or announces the end once. Without looping, `has_next()` tells which, except in one situation: no track current yet, shuffle on, two or more tracks, and the first listed track last in the shuffle order. With loop status playlist the end of the looping list is announced in exactly that situation |
| TrackListTraversal.PreviousUndoesNextIff | src/core/media/track_list_skeleton.cpp:614-689 | `previous()` after `next()` restores the whole state exactly when: looping on a track; or at most 5 s into the track and (looping over the playlist, or `next` had somewhere to go, or nothing precedes); or later than that and `next` could not move |
| TrackListTraversal.NextUndoesPreviousIff | src/core/media/track_list_skeleton.cpp:539-689 | The mirror image: exactly when `next()` after `previous()` restores the whole state |
| TrackListTraversal.ReachableOnTrack | src/core/media/track_list_skeleton.cpp:533-537 | In every state that satisfies the invariant and has a current track, list and active order name the same tracks and agree on where each one is, which is what the walking theorems start from |
| TrackListTraversal.TourStraight | src/core/media/track_list_skeleton.cpp:572-595 | A walk that does not repeat one track loads consecutive places up to the end of the order |
| TrackListTraversal.TourAround | src/core/media/track_list_skeleton.cpp:558-571 | Past the end a playlist loop goes on from the first place of the order |
| TrackListTraversal.TourStays | src/core/media/track_list_skeleton.cpp:596-609 | Past the end a walk without looping stays and announces the end each time |
| TrackListRuns.ReachableStates | src/core/media/track_list_implementation.cpp:126-395 | In every state a new track list can reach by adds, batch adds, moves, removals, go-to of listed ids, next, previous, looks at the current track, shuffle, loop and position changes and resets, for all random choices: ids are pairwise distinct, each made from a counter value below the present one, the cursor is unset or on a track, and under shuffle the shuffle order is a permutation of the list |
| TrackListRuns.RunKeepsInv | src/core/media/track_list_implementation.cpp:126-395 | The invariant (those facts, and a cache entry for every listed id) holds at the end of every run that starts in it |
| TrackListRuns.StepKeepsInv | src/core/media/track_list_implementation.cpp:126-395 | Each single operation keeps the invariant, whatever `rand()` and `random_shuffle` choose |
| TrackListRuns.GoToKeepsInvIff | src/core/media/track_list_skeleton.cpp:325-335 | Go-to keeps the invariant exactly when the id is listed; any other id stores the end iterator |
| TrackListRuns.StepRefines | src/core/media/track_list_implementation.cpp:51-228 | Every operation does to list, URI cache and counter what it does to a plain list of (id, URI) entries without any cache |
| TrackListRuns.UriOfEveryTrack | src/core/media/track_list_implementation.cpp:106-114 | After any run, for every listed id the URI query answers with the URI of the add that made that occurrence, although `reset` keeps stale cache entries and lets ids be made again |
| TrackListRuns.RunRefines | src/core/media/track_list_implementation.cpp:376-395 | The agreement with the plain entries holds over whole runs, across resets |
| TrackListModel.TrackIdInjective | src/core/media/track_list_implementation.cpp:133-135 | Ids made from different counter values differ: decimal rendering can be read back |
| TrackListModel.AddOneKeepsInv | src/core/media/track_list_implementation.cpp:126-174 | An add makes an id that was not listed, and keeps the invariant |
| TrackListExamples.LoopingPlaylistEnds | src/core/media/track_list_skeleton.cpp:492-503 | Runs from a new list that come to that situation: with any two or more tracks, added and shuffled so that the first goes last, `has_next()` holds and `next()` announces the end of the looping list |
| TrackListEdits.BatchIsSpliceIff | src/core/media/track_list_implementation.cpp:176-228 | A batch add leaves old[..p] + new ids in URI order + old[p..], p being the index of `position` or the end, exactly when `position` is not one of the new ids other than the last |
| TrackListEdits.BatchTracks | src/core/media/track_list_implementation.cpp:184-219 | The list after any batch add, with no condition on `position`: the splice, or, when `position` is a new id, the list with that id pushed behind the ones added after it |
| TrackListEdits.BatchRefinesSingleAdds | src/core/media/track_list_implementation.cpp:126-228 | A batch add leaves the same list, cache, counter, shuffle order and cursor as adding the URIs one by one, none made current, with the same random choices |
| TrackListEdits.AddKeepsCurrent | src/core/media/track_list_implementation.cpp:140-163 | An add that does not make its track current keeps the current track, wherever the insertion moved it, and keeps an unset cursor unset |
| TrackListEdits.FreshIds | src/core/media/track_list_implementation.cpp:184-193 | The ids of a batch are new to the list and pairwise distinct |
| TrackListEdits.MovePlaces | src/core/media/track_list_implementation.cpp:254-308 | A move puts `id` at the index `to` had before, in either direction, keeps the order of all other tracks and keeps the current track |
| TrackListEdits.MoveUndone | src/core/media/track_list_implementation.cpp:254-308 | Moving `id` on to the track now at its old index is accepted and restores the list and everything else, except that an unset cursor is then on the first track |
| TrackListEdits.MoveRefusedKeeps | src/core/media/track_list_implementation.cpp:237-315 | A move takes place exactly when both ids are listed and differ; otherwise no list, cache or order changes and nothing is signalled |
| TrackListEdits.RemoveOther | src/core/media/track_list_skeleton.cpp:259-323 | Removing a track that is not current keeps the order of the rest and the current track, and signals only the removal |
| TrackListEdits.RemoveCurrentGoesOn | src/core/media/track_list_skeleton.cpp:275-323 | Removing the current track makes its list successor current (the first track when it was last and the playlist loops over two or more) and loads it, in that order of signals |
| TrackListEdits.RemoveCurrentEnds | src/core/media/track_list_skeleton.cpp:275-323 | Removing the current track otherwise leaves none current; all signals in order for its three cases: not looping with more tracks, not looping with one, looping over one |
| TrackListEdits.RemovedTrackLoadedIff | src/core/media/track_list_skeleton.cpp:289-319 | The player is told to load the very track that was removed exactly when it was the only one and the playlist loops |
| TrackListAnswers.AddAnnounces | src/core/media/track_list_implementation.cpp:157-172 | All signals of an add in order, made current or not, first track or not; a track made current is current |
| TrackListAnswers.BatchAnnounces | src/core/media/track_list_implementation.cpp:215-227 | A batch is announced once with its ids in URI order, and the first track of an empty list as a change |
| TrackListAnswers.MoveAnswers | src/core/media/track_list_implementation.cpp:237-315 | Exactly when a move is refused, fails with the error named for a missing source (the target is unknown), with the one for a missing destination (the track is), or is announced as (id, to); the move-failed error never comes |
| TrackListAnswers.GoToMakesCurrent | src/core/media/track_list_skeleton.cpp:325-335 | A go-to of a listed track makes that track current and loads it, and changes nothing else |
| TrackListAnswers.ShuffleOrderKept | src/core/media/track_list_implementation.cpp:75-86 | Under shuffle the other tracks keep the order they are played in: an add inserts at the drawn place, any being possible, a removal takes out one, a move touches none |
| TrackListAnswers.ShuffleSwitches | src/core/media/track_list_implementation.cpp:356-364 | With shuffle off the active order is the list, with shuffle on a permutation of it; list and current track stay |
| TrackListAnswers.RemovedIsForgotten | src/core/media/track_list_implementation.cpp:332-334 | The URI of a removed track can no longer be asked for, every other still can |
| TrackListAnswers.ResetStartsOver | src/core/media/track_list_implementation.cpp:376-395 | Signals of a reset, what it keeps and empties, and that the next add makes the first id again, with the new URI |
| TrackList.TrackListImplementation.NextTrack | src/core/media/track_list_skeleton.cpp:539-612 | The branches of `next` on iterators compute the walk of the model: new state, signals in order, and the id now current; the invariant is kept |
| TrackList.TrackListImplementation.PreviousTrack | src/core/media/track_list_skeleton.cpp:614-689 | The same for `previous`, with the 5 s rule first |
| TrackList.TrackListImplementation.HasNextTrack | src/core/media/track_list_skeleton.cpp:484-515 | True exactly when the model says so, on either order, without touching the cursor |
| TrackList.TrackListImplementation.HasPreviousTrack | src/core/media/track_list_skeleton.cpp:522-531 | True exactly when a track is current and it is not the first of the active order |
| TrackList.TrackListImplementation.GetCurrentShuffled | src/core/media/track_list_skeleton.cpp:533-537 | The place of the current track in the shuffle order; an unset cursor is first put on the first track |
| TrackList.TrackListImplementation.CurrentIterator | src/core/media/track_list_skeleton.cpp:696-711 | An unset cursor wraps to the first track, a set one is left alone |
| TrackList.TrackListImplementation.UpdateCurrentIterator | src/core/media/track_list_skeleton.cpp:713-722 | Refuses the end, otherwise moves the cursor |
| TrackList.TrackListImplementation.ResetCurrentIteratorIfNeeded | src/core/media/track_list_skeleton.cpp:724-729 | The cursor is on the track chosen to follow a removal, or unset if that is not listed |
| TrackList.TrackListImplementation.SetCurrentTrack | src/core/media/track_list_skeleton.cpp:739-744 | Moves the cursor to a listed id and ignores others |
| TrackList.TrackListImplementation.AddTrackWithUriAt | src/core/media/track_list_implementation.cpp:126-174 | The insert-then-repair sequence leaves the model state (list, cache, shuffle order, counter, cursor) and signals of an add, although the cursor is stale in between |
| TrackList.TrackListImplementation.AddTracksWithUriAt | src/core/media/track_list_implementation.cpp:176-228 | The same for a batch: one repair at the end does what a repair after each add would do |
| TrackList.TrackListImplementation.InsertTracks | src/core/media/track_list_implementation.cpp:182-219 | The batch loop makes the ids of consecutive counter values and remembers the id added to an empty list |
| TrackList.TrackListImplementation.MoveTrack | src/core/media/track_list_implementation.cpp:230-320 | Which moves are refused, which raise which exception (the names as the code has them), and that the rest leave the moved list with the current track found again: the move-failed exception is never raised |
| TrackList.TrackListImplementation.RemoveTrack | src/core/media/track_list_implementation.cpp:322-346 | Erases the id from list, cache and, under shuffle, shuffle order; repositions the cursor; announces an emptied list |
| TrackList.TrackListImplementation.ChooseSuccessor | src/core/media/track_list_skeleton.cpp:275-312 | The track to be current after a removal, as the cursor arithmetic of the handler finds it |
| TrackList.TrackListImplementation.HandleRemoveTrack | src/core/media/track_list_skeleton.cpp:259-323 | Unknown ids are answered with an error and change nothing; a listed one is removed as in the model, signals in order, invariant kept |
| TrackList.TrackListImplementation.HandleGoTo | src/core/media/track_list_skeleton.cpp:325-335 | Cursor and signals of a go-to; the invariant survives iff the id is listed |
| TrackList.TrackListImplementation.SetShuffle | src/core/media/track_list_implementation.cpp:356-364 | The swap loop of `random_shuffle` with arbitrary picks; switching off keeps the old order aside |
| TrackList.TrackListImplementation.Reset | src/core/media/track_list_implementation.cpp:376-395 | List, cursor, counter and shuffle order start again, the cache does not |
| Sequences.ShuffleBy | src/core/media/track_list_implementation.cpp:360-363 | Whatever the picks, the shuffled order is a permutation of the list |
| Shuffling.ShuffleReachesIff | src/core/media/track_list_implementation.cpp:360-363 | The swap loop can come to an order exactly if it is a permutation of the list: for some results of `rand()` to each, for no results to anything else |
| Wakelock.CountsAccounted | src/core/media/player_implementation.cpp:127-283 | In every interleaving of state changes, timer expiries and clearings, with no assumption on states or source: each count is its pending timers, plus one while playing with its kind, plus its intervals whose timer was never started or went to the other kind, less its counts dropped by clearing |
| Wakelock.SumIsPendingIff | src/core/media/player_implementation.cpp:127-283 | From a new player, both counts together are the pending timers plus one if playing exactly when as many playing intervals were left for a state that starts no timer as counts were dropped; before the first `clear_wakelocks`, exactly when playing was only ever left for ready, paused or stopped |
| Wakelock.TimerStartsIff | src/core/media/player_implementation.cpp:127-187 | Leaving playing for each of ready, paused and stopped starts one timer due 4000 ms later, and no other change of state does; video counts for the display |
| Wakelock.FromTheStart | src/core/media/player_implementation.cpp:127-283 | In every interleaving from a new player, with no assumption: acquire and release requests alternate, and the lock is held iff the count is positive |
| Wakelock.RunsAreOrderly | src/core/media/player_implementation.cpp:127-283 | The same as an invariant of every run |
| Wakelock.IdleHeldIff | src/core/media/player_implementation.cpp:127-283 | Once nothing plays and no timer is pending, a lock is still held exactly when more of its playing intervals ended than timers of its kind were started and counts of it dropped |
| Wakelock.PlayingHeldIff | src/core/media/player_implementation.cpp:127-283 | While playing with a kind, its lock is held exactly when the pending timers of that kind are no fewer than the counts dropped and timers started beyond its own ended intervals |
| Wakelock.ReleasedIff | src/core/media/player_implementation.cpp:228-283 | In every interleaving, while playing or not: a timer releases a lock exactly when it is of that kind and pending timers, playing share and drift add up to one; clearing does when they are positive; a state change never does |
| Wakelock.DisciplinedCounts | src/core/media/player_implementation.cpp:127-262 | If each playing interval keeps its source type and nothing is cleared, each count is its own pending timers plus its own playing share |
| Wakelock.ReleasedOnlyWhenIdle | src/core/media/player_implementation.cpp:236-252 | In such runs a lock is released exactly when the last pending timer of its kind expires while nothing plays with that kind |
| Wakelock.SourceTypeChangeKeepsTheLock | src/core/media/player_implementation.cpp:264-297 | An input on which a lock outlives its use: after one video interval left as audio, idle and with no timer pending, the display count is 1, the system count -1 and the display lock held |
| Wakelock.ClearedTimers | src/core/media/player_implementation.cpp:270-297 | `clear_wakelocks` takes no timer back, and the interval it finds playing still starts its own when it ends: the timers and the count it leaves, for every state before |
| Wakelock.ClearThenPlayAcquiresIff | src/core/media/player_implementation.cpp:270-297 | After `clear_wakelocks` on a player that lives on and the state change that ends an interval playing then, if all timers expire first: the next playing interval acquires its lock exactly if the count was not below zero, no timer of that kind was pending, and no interval playing at the clearing then started one |
| Wakelock.ClearThenExpiryReleasesIff | src/core/media/player_implementation.cpp:270-297 | If the next playing interval comes before a timer: it acquires its lock exactly if the count was not below zero, and then the next timer to expire, that of an interval playing at the clearing included, releases it while playing exactly if it is of that kind |
| Wakelock.PlayerPower.OnEngineStateChanged | src/core/media/player_implementation.cpp:127-187 | The handler counts, requests and starts timers as in the model, the timer for the source kind at that moment |
| Wakelock.PlayerPower.RequestPowerState | src/core/media/player_implementation.cpp:198-226 | Count taken; request iff it went to one |
| Wakelock.PlayerPower.ClearWakelock | src/core/media/player_implementation.cpp:228-262 | Count given back; release iff it went to zero |
| Wakelock.PlayerPower.ClearWakelocks | src/core/media/player_implementation.cpp:270-283 | Positive counts drop to zero at once with one release each, timers stay |
| Wakelock.PlayerPower.OnTimeout | src/core/media/player_implementation.cpp:285-297 | A timer gives back the kind it was started for |
| DisplayLock.SafeFromTheStart | src/core/media/power/state_controller.cpp:99-166 | In every interleaving of requests, replies, errors, expiries and aborts: only granted cookies are removed, at most one wait can still elapse, a stored valid cookie was granted and its removal was never confirmed |
| DisplayLock.CallsConserved | src/core/media/power/state_controller.cpp:147-164 | In every interleaving the cookies passed to removeDisplayOnRequest are, counted, those whose call is on its way and those whose call was answered, well or not |
| DisplayLock.ReleaseCompletes | src/core/media/power/state_controller.cpp:125-166 | From any state with a cookie stored: a release is over 4000 ms later, passes that cookie on, and once that is confirmed no cookie is stored; without a cookie, or for off, a release does nothing |
| DisplayLock.AcquireCompletes | src/core/media/power/state_controller.cpp:99-123 | From any state an acquisition asks the service and stores the fresh cookie granted; for off it does nothing |
| DisplayLock.AlwaysSafe | src/core/media/power/state_controller.cpp:99-166 | The safety invariant behind it, over every run |
| DisplayLock.ForgottenOnlyIfRemoved | src/core/media/power/state_controller.cpp:156-162 | The stored cookie is forgotten exactly when the removal of that very cookie is confirmed; completing an older release never forgets a newer cookie |
| DisplayLock.LostIff | src/core/media/power/state_controller.cpp:99-166 | A granted cookie is in no release made or possible, in any continuation, exactly when it is not stored, not given back and not in a wait that still counts |
| DisplayLock.OverwriteLosesIff | src/core/media/power/state_controller.cpp:117-121 | A new grant puts the stored cookie out of reach of every continuation exactly when no release of it has been made or is on its way |
| DisplayLock.ReleaseLosesIff | src/core/media/power/state_controller.cpp:137-145 | A release that calls off an older wait puts that wait's cookie out of reach of every continuation exactly when it is not the stored one, not given back, and not in an elapsed wait |
| DisplayLock.LostForever | src/core/media/power/state_controller.cpp:99-166 | A lost cookie is never given back in any continuation |
| DisplayLock.TwoGrantsLoseTheFirst | src/core/media/power/state_controller.cpp:99-123 | A run from the start that loses a cookie: two acquisitions with no release between them |
| DisplayLock.TwoReleasesLoseTheFirst | src/core/media/power/state_controller.cpp:125-145 | Another: acquisition and release, both repeated before the first wait is over |
| DisplayLock.DisplayStateLock.RequestAcquire | src/core/media/power/state_controller.cpp:99-123 | Only switching on asks the service |
| DisplayLock.DisplayStateLock.OnKeepDisplayOnReply | src/core/media/power/state_controller.cpp:109-122 | A grant is stored over whatever was stored; an error changes nothing |
| DisplayLock.DisplayStateLock.RequestRelease | src/core/media/power/state_controller.cpp:125-145 | Without a valid cookie nothing happens; otherwise every armed wait is aborted and one for the stored cookie armed, four seconds ahead |
| DisplayLock.DisplayStateLock.OnTimeout | src/core/media/power/state_controller.cpp:140-147 | An aborted handler does nothing, any other passes on the cookie it captured, not the stored one |
| DisplayLock.DisplayStateLock.OnRemoveReply | src/core/media/power/state_controller.cpp:148-164 | Forgets the stored cookie only if it is the one removed |
| TimedDisplay.CookiesConserved | src/core/media/power/state_controller.cpp:99-166 | Video session driven by the player's own timers: at every moment the granted cookies are, in order, those given back, at most one waiting, at most one held; none was granted or given back twice |
| TimedDisplay.NeverCalledOff | src/core/media/power/state_controller.cpp:137-145 | In such a session a scheduled removal is never cancelled by a later release |
| TimedDisplay.AllGivenBackWhenIdle | src/core/media/player_implementation.cpp:127-187 | If playing is left only for ready, paused or stopped, then eight seconds after the last state change every cookie ever granted has been given back exactly once, in order |
| TimedDisplay.AllGivenBackAfterEightSeconds | src/core/media/power/state_controller.cpp:125-166 | The same for any session whose count is down |
| TimedDisplay.NothingWaitsAtRelease | src/core/media/player_implementation.cpp:245-252 | When a player timer makes the release request, no earlier release is waiting and the stored cookie is the one held |
| TimedDisplay.StepSound | src/core/media/player_implementation.cpp:127-262 | Clocks and cookie books are kept by every tick, state change, timer, grant, expiry and reply |
| TimedDisplay.RunSound | src/core/media/player_implementation.cpp:127-262 | And so by every run |
| Sessions.OneMultimediaPlayerPlays | src/core/media/service_implementation.cpp:264-295 | In every reachable state a playing multimedia player is the store's current player; so at most one plays (pauses succeed, roles fixed while playing, only the current player starts by itself) |
| Sessions.RunTidy | src/core/media/service_implementation.cpp:264-338 | The invariant behind it over runs of plays, MPRIS plays, engine changes, role and source changes, removals, pauses and call ends |
| Sessions.PlayKeepsSoleIff | src/core/media/player_implementation.cpp:876-893 | Without assuming that pauses succeed: a play keeps one multimedia player sounding exactly when every other sounding one obeys the pause |
| Sessions.PlayLeaves | src/core/media/player_implementation.cpp:876-893 | For every session what a play leaves of it: playing, paused by it, or as it was; and who is current |
| Sessions.MprisPlayLeaves | src/core/media/service_skeleton.cpp:611-652 | An MPRIS play leaves the current multimedia player playing if its engine starts, and no other multimedia player; if it may not play nothing changes |
| Sessions.RemoveLeaves | src/core/media/hashed_keyed_player_store.cpp:64-76 | A removed player is no longer listed nor current, every other stays as it is |
| Sessions.RoleKeepsSoleIff | src/core/media/service_implementation.cpp:287-294 | A role change keeps it exactly when it does not make a playing player that is not current multimedia |
| Sessions.CallEndResumes | src/core/media/service_implementation.cpp:313-338 | When a call ends `paused_sessions` is empty; a session gets `play()` iff it has a resume-flagged entry, is still in the store and is an audio source; what plays afterwards is known for every session and every outcome of the engines: what played or started and was silenced by no later play |
| Sessions.SilencedIsResumed | src/core/media/service_implementation.cpp:145-172 | After any run without a call end, with any number of pauses for calls and recordings: the end of a call plays exactly the sessions that some pause for a call found sounding, or that were noted before, if still there as audio sources |
| Sessions.NotesAddUp | src/core/media/service_implementation.cpp:297-311 | Until a call ends the entries noted are those there were and then, in order, what each pause noted |
| Sessions.PauseAllNotes | src/core/media/service_implementation.cpp:297-311 | One pause forgets no entry, pauses exactly the sounding sessions that obey and changes no other |
| Sessions.LastOneIsLeft | src/core/media/service_implementation.cpp:313-338 | If the last multimedia session played starts, it and no other multimedia session is left playing, whatever became of the rest |
| Sessions.CallUndoneIff | src/core/media/service_implementation.cpp:145-160 | The end of a call undoes its beginning: pausing for a call and resuming leaves the whole state as it was exactly when nothing but an audio source was sounding and its engine starts again |
| Sessions.RecordingStaysPaused | src/core/media/service_implementation.cpp:162-172 | Sessions paused for a recording stay paused when a call ends, and none is sounding after the pause |
| Sessions.PlayEachPlays | src/core/media/player_implementation.cpp:876-893 | What plays after any sequence of plays, some of which start their engine and some of which do not |
| Sessions.ResumingIs | src/core/media/service_implementation.cpp:313-335 | Which sessions the resume loop plays, for any entries, duplicates included |
| Sessions.OnePausedAtATime | src/core/media/service_implementation.cpp:297-311 | With at most one sounding, one pause notes exactly that session, in every enumeration order |
| Sessions.ServiceImplementation.PauseOtherSessions | src/core/media/service_implementation.cpp:264-295 | The loop over the store comes to the same state whatever the enumeration order, also when some players fail to pause |
| Sessions.ServiceImplementation.PlaySession | src/core/media/player_implementation.cpp:876-893 | Pauses the others, becomes current and starts, in one specified step |
| Sessions.ServiceImplementation.PauseAllMultimediaSessions | src/core/media/service_implementation.cpp:297-311 | Every sounding session is paused and noted with the flag, in enumeration order |
| Sessions.ServiceImplementation.ResumePausedMultimediaSessions | src/core/media/service_implementation.cpp:313-338 | The loop plays exactly the eligible entries in order, and the list is cleared |
| Sessions.ServiceImplementation.SetCurrentPlayer | src/core/media/service_skeleton.cpp:903-910 | Only a known multimedia player becomes current |
| Sessions.ServiceImplementation.RemovePlayerForKey | src/core/media/hashed_keyed_player_store.cpp:64-76 | Removing the current player unsets it; an unknown key changes nothing |
| Sessions.ServiceImplementation.AddPlayerForKey | src/core/media/hashed_keyed_player_store.cpp:58-62 | Adds or replaces the player of that key |
| Registry.SessionIdentity | src/core/media/service_skeleton.cpp:105-163 | While the 32-bit counter has not wrapped, over every run: sessions have distinct keys and object paths; fixed-session answers give equal paths iff for equal names; fixed and UUID sessions never share a key |
| Registry.KeysCollideIff | src/core/media/service_skeleton.cpp:105-116 | With no bound on the run: two sessions share key and path exactly when their numbers differ by a multiple of 2^32 |
| Registry.OneNameOnePath | src/core/media/service_skeleton.cpp:343-407 | With no bound on the run: all successful answers for one name give one path |
| RegistryAnswers.CreateAnswers | src/core/media/service_skeleton.cpp:105-163 | The answer to a creation carries its UUID and the path that a resume of the new key is answered with, in full; a failed one uses up a key and leaves everything else |
| RegistryAnswers.CreationsApart | src/core/media/service_skeleton.cpp:118-163 | Below the wrap, over every run: no two creations are answered with the same path, and none with that of a fixed session |
| RegistryAnswers.CreatedComesBack | src/core/media/service_skeleton.cpp:118-272 | From creation on, after any events that have kept the session, its owner is answered with the path the creation was answered with |
| RegistryAnswers.CreateFixedAnswers | src/core/media/service_skeleton.cpp:343-407 | A fixed session is made only for a new name; the answer is that of a resume of the key the name has |
| RegistryAnswers.FixedComesBack | src/core/media/service_skeleton.cpp:343-407 | Once a fixed session was made, every later request for its name is answered with the same path and makes no session, after any events but a client making it normal |
| RegistryAnswers.LifetimesAtCreation | src/core/media/service_skeleton.cpp:366-369 | A fixed session outlives its client, a session with a UUID does not |
| RegistryAnswers.OwnerDestroys | src/core/media/service_skeleton.cpp:292-314 | A destroy by the owner is answered well, removes the owner, and lets the player go with its client; no other session is touched |
| RegistryAnswers.EscapesIff | src/core/media/service_skeleton.cpp:165-341 | Exactly when an out_of_range leaves a handler unanswered |
| Registry.CreateKeepsSeparateIff | src/core/media/service_skeleton.cpp:118-142 | One more UUID session keeps all keys apart exactly when no session in the maps has the key that is next |
| Registry.CreateFixedKeepsSeparateIff | src/core/media/service_skeleton.cpp:343-371 | A request for a fixed session keeps all keys apart exactly when its name is known or no session in the maps has the key that is next |
| Registry.DestroyedStaysRefused | src/core/media/service_skeleton.cpp:274-341 | Once a destroy request was accepted for a UUID, every later reattach or destroy of it is refused, in every continuation |
| Registry.WrongClientLocksOut | src/core/media/service_skeleton.cpp:292-322 | That includes a request by the wrong client: it is answered with a permission error, owner and player stay, yet the UUID is gone and the owner cannot come back |
| Registry.ComesBackIff | src/core/media/service_skeleton.cpp:165-341 | From any reachable state and after any events whatever below the wrap: a reattach is accepted exactly if the requests in between, read alone, have kept the session, and is answered with its path exactly if it comes from the owner, else refused |
| Registry.DetachedComesBackIff | src/core/media/service_skeleton.cpp:165-272 | In particular after a detach by the creating peer and anything but a destroy request for the session and a client that sets its lifetime to normal |
| Registry.NormalAgainIsGone | src/core/media/mpris/player.h:174 | The second exception is real: a client that writes the lifetime normal and goes takes the session away from its owner in every continuation, detached or not |
| Registry.OwnerIsLockedOut | src/core/media/service_skeleton.cpp:274-341 | A run from the start on which a refused stranger locks the owner out while the player is still there |
| Registry.OutlivesClientIff | src/core/media/service_skeleton.cpp:172-188 | A session outlives its client exactly when it was resumable already or its creator has just detached it |
| Registry.RunMeets | src/core/media/service_skeleton.cpp:165-341 | Over every run below the wrap a session has the fate that the requests tell: gone, or kept with UUID, key, owner and lifetime |
| Registry.RunUnclaimed | src/core/media/service_skeleton.cpp:292-311 | Over every run below the wrap, no destroy is on its way for a session whose UUID is still known |
| Registry.RunConsistent | src/core/media/service_skeleton.cpp:105-441 | Keys are session numbers modulo the counter width, answers match the name map, destroyed UUIDs are in no map, over every run |
| Registry.RunSeparate | src/core/media/service_skeleton.cpp:105-441 | Below the wrap no two entries of the name and UUID maps share a key, over every run |
| Registry.PathInjective | src/core/media/service_skeleton.cpp:112-115 | Object paths of different keys differ |
| Registry.ServiceSkeleton.CreateSessionInfo | src/core/media/service_skeleton.cpp:105-116 | Hands out the counter and wraps it at 2^32 |
| Registry.ServiceSkeleton.HandleCreateSession | src/core/media/service_skeleton.cpp:118-163 | A failure of the player still uses up a key; a success stores the player and starts the owner lookup |
| Registry.ServiceSkeleton.HandleCreateFixedSession | src/core/media/service_skeleton.cpp:343-407 | A known name answers with its old path or an error if its player is gone, and never makes a second session |
| Registry.ServiceSkeleton.HandleResumeSession | src/core/media/service_skeleton.cpp:409-441 | A path iff the key is in the store |
| Registry.ServiceSkeleton.HandleReattachSession | src/core/media/service_skeleton.cpp:204-272 | Refused for unknown UUIDs and missing players, else a lookup |
| Registry.ServiceSkeleton.HandleDestroySession | src/core/media/service_skeleton.cpp:274-341 | The UUID is forgotten as soon as the request is accepted |
| Registry.ServiceSkeleton.HandleDetachSession | src/core/media/service_skeleton.cpp:165-202 | Only the creating peer makes its session resumable; an unknown UUID escapes as out_of_range unless the map is empty |
| Registry.ServiceSkeleton.OnLifetimeWritten | src/core/media/mpris/player.h:174 | A client writes the lifetime of a stored player |
| Registry.ServiceSkeleton.OnContextResolved | src/core/media/service_skeleton.cpp:144-149 | What each lookup does when it is answered, with every error branch |
| Registry.ServiceSkeleton.OnClientDisconnected | src/core/media/service_implementation.cpp:207-231 | Only a normal-lifetime player is removed |
| Uri.ParseIsLeftmostGreedy | src/core/media/apparmor/ubuntu.cpp:44-72 | If the text can be matched by the expression of Appendix B of RFC 3986 at all, the scanner accepts it, and its groups come before those of every other match in backtracking order |
| Uri.ParseMatches | src/core/media/apparmor/ubuntu.cpp:44-72 | For every accepted text the groups are a match of the whole text: recomposing them as in section 5.3 of RFC 3986 gives the text back |
| Uri.ParseRecomposeIff | src/core/media/apparmor/ubuntu.cpp:44-72 | Parsing a recomposed tuple of components gives the tuple back exactly when its path meets the constraints of section 3.3 of RFC 3986 (empty or with a slash after an authority, no two slashes without, no scheme-like start without both) |
| Uri.AcceptedIff | src/core/media/apparmor/ubuntu.cpp:59-62 | A text is rejected exactly when a line break follows its first hash |
| Uri.UriKeepsTextIff | src/core/media/apparmor/ubuntu.cpp:59-72 | The five strings the program returns, which do not say whether a group matched, give the text back exactly when no group was matched empty; it throws exactly when a line break follows the first hash |
| Uri.ComponentsAreRead | src/core/media/apparmor/ubuntu.cpp:64-71 | Of every text recomposed from components whose path fits, each of the five strings returned is the text of that component, or empty where there was none |
| Uri.FilePathIsRead | src/core/media/apparmor/ubuntu.cpp:44-72 | For every path that begins with a slash and has no question mark and no hash, `file://` and the path gives scheme file, that path and nothing else |
| Uri.MatchTail | src/core/media/apparmor/ubuntu.cpp:57 | In every match, greedy or not, the fragment is what follows the first hash |
| Uri.SchemeCutIff | src/core/media/apparmor/ubuntu.cpp:57 | When the scheme is found again after recomposing |
| Uri.AuthorityCutIff | src/core/media/apparmor/ubuntu.cpp:57 | When the authority is found again after recomposing |
| AppId.SplitThreeIsGreedy | src/core/media/apparmor/ubuntu.cpp:91 | The three-part match is the greedy one: first part as long as any match allows, then the second |
| AppId.SplitTwoIsGreedy | src/core/media/apparmor/ubuntu.cpp:90-92 | The same for two parts |
| AppId.AppIdIff | src/core/media/apparmor/ubuntu.cpp:101-105 | Package, application and version come back from package_application_version exactly when application and version have no underscore |
| AppId.ShortAppIdIff | src/core/media/apparmor/ubuntu.cpp:101-105 | Without a version, exactly when neither part has one |
| AppId.AcceptedIff | src/core/media/apparmor/ubuntu.cpp:85-108 | A name is accepted exactly when it is a special one or one line with an underscore; a special name is its own package and profile name |
| AppId.NamesLetThrough | src/core/media/apparmor/ubuntu.cpp:74-105 | The names accepted, with the five special ones spelled out |
| ExtensionScan.FindExtension | src/core/media/video/egl_sink.cpp:137-151 | The loop answers what the scan from the start answers, for every name on which it ends |
| ExtensionScan.EndsIff | src/core/media/video/egl_sink.cpp:143-148 | The loop ends exactly when the name is not empty, or the list is empty or begins with a blank |
| ExtensionScan.ListedIsFound | src/core/media/video/egl_sink.cpp:143-148 | Every listed name is found: the skip by its length never jumps over a whole name |
| ExtensionScan.YesEndsAName | src/core/media/video/egl_sink.cpp:144-145 | A yes always comes from a listed name that ends with it |
| ExtensionScan.SuffixSearchIff | src/core/media/video/egl_sink.cpp:137-151 | For every list the answer is "some listed name ends with it", exactly for the names that do not overlap themselves |
| ExtensionScan.ExactIff | src/core/media/video/egl_sink.cpp:137-151 | For such names the answer is right exactly when the name is listed or ends no listed name |
| ExtensionScan.NeededNames | src/core/media/video/egl_sink.cpp:164-177 | For the two names the program looks for the answer is "some listed name ends with it" in every list, and right exactly when the name is listed or ends no listed name |
| ExtensionScan.LongerNameFools | src/core/media/video/egl_sink.cpp:144-145 | No name is safe from a wrong yes: one longer name ending with it is enough |

## Left out

- Iterator validity: cursor and insertion points are indices. `move_track` uses an iterator after an erase, and cursors are stale between an edit and its repair; the model gives such an iterator the index it had. The expected positions in tests/acceptance-tests/service.cpp:109-115 agree.
- The track counter is unbounded; the 2^64 adds between two resets that would make an id twice are not modelled. The session counter's wrap is.
- TrackList.TrackListImplementation.MoveTrack: requires a track to look at when its arguments are not refused at once; a move in an empty list dereferences the empty iterator.
- TrackList.TrackListImplementation.RemoveTrack: requires the id to be listed; calling it directly with another id erases the end iterator. The handler that is exported checks first.
- TrackListRuns.ReachableStates: go-to of an unknown id is outside the runs, since it stores the end iterator; `GoToKeepsInvIff` says so exactly.
- ExtensionScan.FindExtension: requires an input on which the loop ends; `EndsIff` says which those are.
- Thread interleavings inside the track list and inside the session store.
- TimedDisplay is a composition of the two value models, not of the two classes. It assumes what the argument rests on: due timers and queued handlers run before time passes, state changes come at strictly increasing times, each keepDisplayOn is answered with a fresh cookie before the matching release, and only the player asks for the lock. The recorder asks too, but for a lock object of its own, with its own cookie; that one is a `DisplayLock` and not part of this composition.
- "Playing" in Sessions, Wakelock and TimedDisplay is the state property of the engine, not what is heard: shortly before the end of a track the engine sets it to ready while the sound goes on (src/core/media/gstreamer/engine.cpp:245-249), and there a clear timer starts like after any other playing interval.
- Wakelock does not model the end of a player, whose late timers find no object and do nothing; nor exceptions in a lock request, which are logged and leave the counts as they are.
- `SystemStateLock`: its requests overlap under try-locks without enough protection for a strong claim.
- Sessions identifies a player with its key; adding a second player under a key in use does not occur in a run.
- Sessions.OneMultimediaPlayerPlays: pauses succeed, no multimedia engine but the current player's starts playing without being asked to, and a role is not changed while playing; `PlayKeepsSoleIff` and `RoleKeepsSoleIff` say what happens otherwise.
- `resume_multimedia_session`: its key is never set to that of a session.
- The attached flag and the stored sender of a session: the handlers update a copy, so the flag stays set; whether a request comes from the peer that made the session is an argument.
- Track and player metadata, cover art, volume, video size, property and signal transport over D-Bus, codecs, logging.
- GStreamer, hybris, EGL, PulseAudio, telephony, file checks, URI escaping: foreign calls.
- The policy decisions of `authenticate_open_uri_request`: a list of branches.
