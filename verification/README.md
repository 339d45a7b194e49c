# A verified model of the Music Player Daemon's play queue and its client protocol

The project models the parts of the Music Player Daemon (MPD, `mpd-legacy`) in which
several arrays, threads or representations have to stay in agreement, and proves that
they do.

* **The play queue** (`QueueSpec`, `PriorityOrder`, `Shuffles`, `Draws`, `QueueArrays`, `PlayQueue`). Songs
  have a position, a stable id and an order number. `PlayQueue.PlayQueue` is the C
  structure with its three arrays, updated in place: items by position, the play order,
  and the index from ids to positions. Every operation keeps the index exact, keeps the
  order array a permutation, and is proved equal to an operation on the value
  `QueueSpec.Queue`. In random mode the order is sorted by falling priority and shuffled
  within each priority; the random numbers are explicit, and the orders that they can
  produce are exactly the orders sorted by priority.
* **Runs of queue operations** (`QueueRuns`). Item versions are meant to let a client
  catch up by a delta (`plchanges`). The delta is proved to rebuild the queue after every
  run of operations, and the theorem says exactly for which wrap-arounds of the version
  number that holds.
* **The playlist** (`PlaylistSpec`, `PlaylistProofs`, `PlaylistOutcomes`, `PlaylistRanges`,
  `PlaylistPriorities`, `PlaylistRuns`, `PlaylistDelta`, `PlaylistLaws`, `PlaylistTotality`,
  `PlayerView`, `Playlist`). The playlist remembers which order number
  plays (`current`) and which one the player thread has been given as the next song
  (`queued`). `Playlist.Playlist` is the object, `PlaylistSpec` its steps as relations, and
  `PlaylistRuns` whole runs: outside random mode every command with valid arguments keeps
  the order numbers valid unless a seek fails, and in random mode every command does but
  for the deletions listed below; repeated "next" plays the songs that it should.
  `PlaylistOutcomes`, `PlaylistRanges` and `PlaylistPriorities` look at all outcomes that the random numbers allow (`Shuffles` says
  which orders a shuffle can produce) and say in terms of the state before the call when
  each of them keeps the right song. `PlaylistDelta` carries the delta theorem over to
  runs of playlist commands. `PlayerView` adds what the player thread makes of the calls, and
  `PlaylistLaws` relates the commands to each other; by `PlaylistTotality` no command is without outcome.
* **Idle notifications** (`IdleProtocol`). Threads raise flags, a pipe wakes the main
  loop, clients wait with subscriptions. The protocol is a state machine over the
  smallest steps that threads can interleave; a byte in the pipe may get lost when the
  pipe is full. What each client is owed is read off the run alone; no flag is ever lost,
  every request is answered with exactly what is due, and every run can become quiet.
* **The client connection** (`ClientOutput`, `FifoBuffer`, `ClientInput`). What has been
  written to a client is what has been sent followed by what is held back, however the
  socket splits or refuses writes; the lines that are processed do not depend on how
  the input has been cut into reads.
* **The inotify queue** (`InotifyQueue`), **saving the queue** (`Decimal`, `QueueSave`),
  **audio formats as text** (`AudioFormat`) and **the directory tree** (`Directory`).

Unsigned arithmetic wraps where the C code relies on it (`QueueSpec.Wrap`), and versions
and ids have the C widths. Random numbers, the player's answers, the socket's behaviour
and the choice of the next thread are inputs or nondeterministic choices, so the theorems
hold for all of them. A song is a number that stands for the song's identity.

`dafny verify dfyconfig.toml` checks everything.

## Where the code falls short of what it promises

Each of these is an exact statement about the code as it is, with a concrete example
where the failure needs one.

* In consume mode and random mode, "next" at the end of the order deletes a song by its
  order number from before a shuffle. It can delete another song than the one it leaves,
  unless that one alone has the lowest priority
  (`PlaylistOutcomes.ConsumesSongLeftExactlyWhen`, `PlaylistOutcomes.NextDeletesAnotherSong`).
* Deleting the paused song in random mode corrects `current` with an order number from
  before a shuffle. `current` stays on the song that was to follow only if the priorities
  leave no doubt about its place (`PlaylistOutcomes.StaleDeleteExactlyWhen`), and it can run
  past the end (`PlaylistOutcomes.StaysInsideExactlyWhen`,
  `PlaylistOutcomes.StaleDeleteRunsPastTheEnd`).
* Deleting the playing song in random mode fails an assertion when no other song is to
  follow (`PlaylistProofs.DeleteAbortsExactlyWhen`, `PlaylistOutcomes.DeleteAbortsExample`), and
  so does consuming a song that has followed itself when no other is to follow
  (`PlaylistOutcomes.StartTripsExactlyWhen`,
  `PlaylistOutcomes.StartAbortsExample`).
* Deleting a range with the playing song in random mode fails this assertion exactly if
  the song repeats itself or none is left to follow it: while it plays, no song outside
  the range; while it is paused, no song but those of the range behind it
  (`PlaylistRanges.RangeAbortsExactlyWhen`). While it is paused, `current` can also run past
  the end (`PlaylistRanges.DeletableExactlyWhen`).
* A seek to another song that fails while a song is queued fails an assertion
  (`PlaylistProofs.SeekTripsExactlyWhen`, `PlaylistOutcomes.SeekTripsExample`).
* Songs of higher priority are to come first in random mode. Appending a song, playing a
  song and switching random mode on can break this; `PlaylistPriorities.AppendSortedExactlyWhen`,
  `PlaylistPriorities.PlaySortedExactlyWhen` and `PlaylistPriorities.RandomSortedExactlyWhen` say
  exactly when.
* On starting over in random mode the current song can be queued behind itself, unless
  some song has a higher priority (`PlaylistOutcomes.QueuesAnotherExactlyWhen`).
* Appending in random mode can put the new song in place of the current one exactly if the
  queued order number is smaller than the current one
  (`PlaylistOutcomes.AppendKeepsCurrentExactlyWhen`).
* Moving several songs towards the end so that they come to cover the current song's
  position, without starting there, leaves `current` on another song
  (`PlaylistProofs.MoveKeepsCurrent`, `PlaylistOutcomes.MoveLosesTrack`).
* A relative move can select a target that does not leave room for the range
  (`PlaylistProofs.MoveTargetFits`, `PlaylistOutcomes.MoveTargetMisfits`).
* A relative move of several songs towards the end does not put them before the song that
  was counted to (`PlaylistProofs.RelativeMoveLands`).
* If the player refused a seek while a song is queued, it would lose that song unnoticed
  (`PlayerView.FailedSeekLosesNext`); `pc_seek()` never refuses one at present.
* A delta since version `v` is incomplete once the version number has wrapped around and
  reached `v` again (`QueueRuns.DeltaCompleteExactlyWhen`).
* An inotify event for the music directory itself, whose path is empty, is dropped when
  something else is queued; if it is queued, the next event for a path in the directory
  replaces it (`InotifyQueue.EnqueueCoversExactlyWhen`).
* A song whose URI ends in a carriage return does not survive a restart
  (`QueueSave.RoundTripExactlyWhen`).
* The text of an audio format mask with unspecified parts is not accepted back
  (`AudioFormat.RoundTripExactlyWhen`).

## Model
| member | source | states |
|---|---|---|
| Permutations.Surjective | src/playqueue.h:180-191 | The search for the order number of a valid position always ends: a permutation of n numbers contains every number below n. |
| Permutations.MoveKeepsPermutation | src/playqueue.c:229-248 | Moving one entry of the order array keeps it a permutation. |
| Permutations.SwapKeepsPermutation | src/playqueue.h:300-306 | Exchanging two entries of the order array keeps it a permutation. |
| Permutations.WithoutEntryPermutation | src/playqueue.c:276-285 | Removing an entry and renumbering the larger positions leaves a permutation of one number less. |
| QueueSpec.OriginInverse | src/playqueue.c:184-224 | Where a position comes from and where it goes to are inverse to each other for every range and target. |
| QueueSpec.MovedOrderPermutation | src/playqueue.c:210-223 | Renumbering the order array after moving a range keeps it a permutation. |
| QueueSpec.MovedItemsPointwise | src/playqueue.c:184-208 | A list is the cut-and-splice of the range, with the changed positions stamped, exactly when each position holds what its origin held. |
| QueueArrays.FreeIdExists | src/playqueue.c:29-42 | As long as the queue is not full, some id is unused, so the search for a fresh id ends. |
| QueueArrays.BlockMove | src/playqueue.c:184-208 | Shifting the songs in between and putting the saved block back is the cut-and-splice of the range, and the id index is shifted along. |
| QueueArrays.MovedIndexed | src/playqueue.c:184-208 | After a range move the id index is again exactly the inverse of the ids in the items. |
| QueueArrays.DeleteIndexed | src/playqueue.c:262-274 | After a deletion the id index is exact and the deleted id unused. |
| QueueArrays.SwapIndexed | src/playqueue.c:120-136 | After a swap the id index is exact. |
| PlayQueue.PlayQueue.constructor | src/playqueue.c:303-324 | A new queue is empty, at version 1, with all modes off and every id unused. |
| PlayQueue.PlayQueue.ValidIsConsistent | src/playqueue.h:60-104 | The three arrays together represent a consistent queue: distinct ids and a permutation as play order, the identity outside random mode. |
| PlayQueue.PlayQueue.GenerateId | src/playqueue.c:29-42 | The new id is unused, and it is the first unused one after the previous id in cyclic order. |
| PlayQueue.PlayQueue.IncrementVersion | src/playqueue.c:61-74 | The version grows by one; when it would wrap around it becomes 1 and every song counts as changed. |
| PlayQueue.PlayQueue.Modify | src/playqueue.c:76-87 | Exactly the song with this order number is stamped with the version before the increment. |
| PlayQueue.PlayQueue.ModifyAll | src/playqueue.c:89-96 | Every song is stamped with the version before the increment. |
| PlayQueue.PlayQueue.Append | src/playqueue.c:98-118 | The song is last in position and order, under an id that no song had, and the index stays exact. |
| PlayQueue.PlayQueue.Swap | src/playqueue.c:120-136 | The two songs change places and are stamped; ids move with them and the order array is untouched. |
| PlayQueue.PlayQueue.MoveSongTo | src/playqueue.c:138-146 | One item is copied to another position, stamped, and its id points there. |
| PlayQueue.PlayQueue.Move | src/playqueue.c:148-182 | Moving one song is moving a range of length one: cut and splice, and in random mode the order array is renumbered. |
| PlayQueue.PlayQueue.MoveItem | src/playqueue.c:148-167 | The shifting loops of a single move yield the cut-and-splice and an exact index. |
| PlayQueue.PlayQueue.MoveRange | src/playqueue.c:184-224 | The range is cut out and spliced in at the target, all changed positions are stamped, ids follow their songs, and the order array is renumbered in random mode only. |
| PlayQueue.PlayQueue.MoveItems | src/playqueue.c:184-208 | The copying loops, with the saved block, yield the cut-and-splice and an exact index. |
| PlayQueue.PlayQueue.RemapOrderRange | src/playqueue.c:210-223 | The loop with its wrapping comparisons renumbers every order entry to where its position has gone. |
| PlayQueue.PlayQueue.PositionToOrder | src/playqueue.h:180-191 | The result is the one order number whose position is given. |
| PlayQueue.PlayQueue.Delete | src/playqueue.c:250-286 | One song leaves, later songs move up and are stamped, its id becomes unused, and the order array loses its entry and is renumbered. |
| PlayQueue.PlayQueue.RemoveItem | src/playqueue.c:262-274 | The items without the deleted one, with an exact index. |
| PlayQueue.PlayQueue.CloseOrderGap | src/playqueue.c:276-285 | The order array without the entry, every larger position lowered by one. |
| PlayQueue.PlayQueue.Clear | src/playqueue.c:288-301 | The queue is empty and every id is unused; version and modes stay. |
| PlayQueue.PlayQueue.SwapOrder | src/playqueue.h:300-306 | Only two entries of the order array change places. |
| PlayQueue.PlayQueue.RestoreOrder | src/playqueue.h:335-340 | The play order is the identity; nothing else changes. |
| PlayQueue.PlayQueue.SortOrderByPriority | src/playqueue.c:373-385 | The order range is rearranged within itself and sorted by falling priority. |
| PlayQueue.PlayQueue.ShuffleOrderFirst | src/playqueue.c:450-455 | The first entry of the range changes places with one of the range. |
| PlayQueue.PlayQueue.ShuffleOrderLast | src/playqueue.c:457-462 | The last entry of the range changes places with one of the range. |
| PlayQueue.PlayQueue.ShuffleRange | src/playqueue.c:464-474 | The songs of the position range are rearranged among themselves, none is lost or doubled, all outside are untouched, the index stays exact. |
| PlayQueue.PlayQueue.FindPriorityOrder | src/playqueue.c:479-496 | The result is the first order number from the start whose song has at most this priority, ignoring the excluded one. |
| PlayQueue.PlayQueue.CountSamePriority | src/playqueue.c:498-515 | The result is the length of the run of songs with exactly this priority. |
| PlayQueue.PlayQueue.MoveOrder | src/playqueue.c:229-248 | One entry of the order array is taken out and inserted elsewhere; the others keep their sequence. |
| PlayQueue.PlayQueue.SetPriority | src/playqueue.c:517-578 | The priority is set and stamped, the result tells whether it changed, and in random mode the song moves behind all remaining songs of higher priority and is drawn within its new group. A song that has been played is played again exactly if it was not more urgent than the current song and now is; otherwise the order stays, and all other songs stay on their side of the current one. |
| PlayQueue.PlayQueue.SetPriorityAfter | src/playqueue.c:580-603 | One step of the range: if the songs after the current one were sorted by falling priority they still are, and exactly a song that has become more urgent than the current one is played again. |
| PlayQueue.PlayQueue.SetPriorityRange | src/playqueue.c:580-603 | Every priority of the range is set, the result tells whether any changed, and the songs after the current one stay sorted although the current order number moves meanwhile. Exactly those songs are played again that have become more urgent than the current one, judged before the current one itself gets the new priority. |
| PlayQueue.PlayQueue.PrintChanges | src/playqueue_print.c:74-82 | The delta lists exactly the positions that count as newer than the version, with their songs and ids. |
| PriorityOrder.InsertionPoint | src/playqueue.c:479-496 | Everything before the insertion point is the excluded song or has a higher priority, and the song at it has not. |
| PriorityOrder.GroupLength | src/playqueue.c:498-515 | The counted songs all have the priority and the next one has not. |
| PriorityOrder.GroupShuffled | src/playqueue.c:423-441 | Shuffling within songs of one priority leaves the priority at every order number as it was. |
| PriorityOrder.MoveKeepsDescending | src/playqueue.c:558-567 | Moving a song to its insertion point keeps the rest of the order sorted, wherever the song was relative to the current one. |
| PriorityOrder.ReprioritizedPermutation | src/playqueue.c:517-578 | Changing a priority keeps the order a permutation. |
| PriorityOrder.ReprioritizedDescending | src/playqueue.c:517-578 | Changing one priority keeps the songs after the current one sorted by falling priority. |
| PriorityOrder.PriorityStep | src/playqueue.c:580-603 | The same for a song addressed by position, whether or not its priority changes. |
| PriorityOrder.ShuffledSwap | src/playqueue.c:464-474 | One step of the shuffle keeps the songs of the range the same multiset. |
| PriorityOrder.SelectionStep | src/playqueue.c:373-385 | Choosing a song of highest remaining priority extends the sorted part. |
| QueueRuns.ApplyConsistent | src/playqueue.h:60-104 | Every queue operation keeps ids distinct and the order a permutation, the identity outside random mode. |
| QueueRuns.Run | src/playqueue.h:60-104 | Every run of operations from a consistent queue ends in a consistent queue. |
| QueueRuns.DeleteRemovesOneId | src/playqueue.c:250-286 | Deleting a position removes exactly that song from the list and exactly its id from the play order; all others keep their sequence. |
| QueueRuns.MoveKeepsPlayOrder | src/playqueue.c:184-224 | Moving a range is a splice of the list, and in random mode the sequence of ids that will be played is unchanged. |
| QueueRuns.ApplyStamps | src/playqueue.c:61-74 | An operation that does not wrap the version leaves every position either as it was or stamped with the current version. |
| QueueRuns.ChangesAreStamped | src/playqueue.h:226-235 | After every run without wrap-around, a position with an older stamp than the start is unchanged since the start. |
| QueueRuns.DeltaComplete | src/playqueue.h:226-235 | A position that does not count as newer than the version a client knows is unchanged since then, also across a wrap-around that has not lapped the client. |
| QueueRuns.DeltaSync | src/playqueue_print.c:74-82 | A client that applies the delta to the list it knew and cuts it to the new length has exactly the list of the server, after every run of operations. |
| QueueRuns.LappedDeltaIncomplete | src/playqueue.c:61-74 | For every known version and every larger version reached after a wrap-around there is a run whose delta misses a changed song. |
| QueueRuns.DeltaCompleteExactlyWhen | src/playqueue.h:226-235 | The delta is complete for all queues and runs between two versions if and only if the version number has not lapped the known one. |
| Playlist.Playlist.constructor | src/playlist.c:56-65 | A new playlist is empty and stopped, with no current and no queued song. |
| Playlist.Playlist.GetQueuedSong | src/playlist.c:119-126 | The song given to the player as the next one, if the playlist plays and there is one. |
| Playlist.Playlist.PlayOrderNumber | src/playlist.c:184-202 | The song plays, is current, nothing is queued, and the player is told once. |
| Playlist.Playlist.StopPlayback | src/playlist_control.c:35-62 | Playback stops; in random mode the order is shuffled and `current` follows its song. |
| Playlist.Playlist.AppendSong | src/playlist_edit.c:74-110 | Refused exactly when the queue is full; otherwise the song is appended under a fresh id and in random mode drawn among the songs that are still to come. |
| Playlist.Playlist.SwapSongs | src/playlist_edit.c:142-179 | Refused exactly for an invalid position; otherwise the songs change places and the current song stays current. |
| Playlist.Playlist.SetPriority | src/playlist_edit.c:194-233 | Refused exactly for an invalid start; the range is cut at the end of the queue, priorities are set and the current song stays current; in random mode exactly the songs that have become more urgent are played again, by falling priority. |
| Playlist.Playlist.ResolveMove | src/playlist_edit.c:369-407 | The decision on a move from its wrapping range checks; a relative target puts the songs right before the one that was counted to from the current song, exactly if that one comes before them or a single song moves. |
| Playlist.Playlist.MoveSongs | src/playlist_edit.c:369-428 | Refused, ignored or carried out as decided; a move that is carried out is a splice with `current` adjusted and a new next song. |
| Playlist.Playlist.SetRandom | src/playlist.c:363-405 | Switching on puts the playing song first in a new order; switching off restores the identity with `current` on its song; then the next song is chosen. |
| Playlist.Playlist.SetRepeat | src/playlist.c:300-319 | The mode is set and, if it changed, the next song chosen again. |
| Playlist.Playlist.SetSingle | src/playlist.c:332-351 | The mode is set and, if it changed, the next song chosen again. |
| Playlist.Playlist.SetConsume | src/playlist.c:353-361 | Only the mode changes; the queued song is not chosen again. |
| Playlist.Playlist.PreviousSong | src/playlist_control.c:185-206 | The order number before plays, at the start the last one in repeat mode and the same one otherwise. |
| Playlist.Playlist.ClearSongs | src/playlist_edit.c:43-61 | Playback stops, all songs go, no song is current and the version grows. |
| Playlist.Playlist.ResumePlayback | src/playlist.c:251-274 | Playback stops on a fatal error, on an error when it is to stop on errors, or after as many errors as there are songs; otherwise it goes on with the next song. |
| PlaylistProofs.AppendKeeps | src/playlist_edit.c:74-110 | Appending adds exactly one song at the end and keeps all order numbers valid. |
| PlaylistProofs.SwapKeepsCurrent | src/playlist_edit.c:142-179 | Swapping keeps the current song in every mode and exchanges exactly two songs. |
| PlaylistProofs.PriorityKeepsCurrent | src/playlist_edit.c:194-233 | Setting priorities keeps the current song and changes nothing but priorities. |
| PlaylistProofs.MovedCurrentFollows | src/playlist_edit.c:409-421 | The adjustment of `current` follows its song if and only if the range is not moved from before the song to a place that covers its position and starts before it. |
| PlaylistProofs.MoveKeepsCurrent | src/playlist_edit.c:369-428 | A move is a splice of the list; it keeps the current song if and only if the mode is random, there is none, or the range does not come to cover its position from before. |
| PlaylistProofs.SafeMoves | src/playlist_edit.c:409-421 | Moving a single song, or any range upwards, always keeps the current song. |
| PlaylistProofs.MoveTargetFits | src/playlist_edit.c:369-407 | The decided target leaves room for the range if and only if it was absolute, or relative to a current song and not too near the end; for a single song it always does. |
| PlaylistProofs.DeleteFollows | src/playlist_edit.c:249-299 | Lowering `current` exactly when the deleted order number is smaller keeps it on its song. |
| PlaylistProofs.RemovedKeeps | src/playlist_edit.c:249-299 | Removing a song keeps every other song and keeps `current` on the song that was current or, if that one goes, on the song that follows it. |
| PlaylistProofs.DeleteAbortsExactlyWhen | src/playlist_edit.c:249-299 | The failing assertion is reached if and only if the playing song is deleted in random mode and it is the only song, or repeats itself, or is the last in the order without repeat. |
| PlaylistProofs.RangeRemovedKeeps | src/playlist_edit.c:336-340 | The loop cuts exactly the range out of the list, and keeps the current song if it is outside. |
| PlaylistProofs.DeleteRangeKeeps | src/playlist_edit.c:320-345 | Deleting a range cuts it out, keeps all order numbers valid, keeps a current song outside the range and queues the successor. |
| PlaylistProofs.ShuffleKeepsCurrent | src/playlist_edit.c:441-486 | Shuffling rearranges the range within itself, keeps the playing song current and forgets the current song if nothing plays. |
| PlaylistProofs.PutFirstKeeps | src/playlist_edit.c:456-470 | Putting the playing song first in the range keeps it current and exchanges two songs. |
| PlaylistProofs.RandomKeepsCurrent | src/playlist.c:363-405 | Switching random mode keeps the playing song current and the list as it is. |
| PlaylistProofs.ModesKeepCurrent | src/playlist.c:300-351 | Repeat and single mode keep the current song and the list, and the queued song follows the new mode. |
| PlaylistProofs.StoppedKeeps | src/playlist_control.c:35-62 | Stopping keeps the current song and the list, and tells the player once. |
| PlaylistProofs.PlayedOrderKeeps | src/playlist_control.c:64-115 | The song that was asked for becomes current under its id and the player is told exactly that song. |
| PlaylistProofs.PreviousKeeps | src/playlist_control.c:185-206 | Going back keeps the queue and valid order numbers. |
| PlaylistProofs.SkippedKeeps | src/playlist_control.c:134-176 | Going on makes the successor current, and the player gets exactly one play or stop. |
| PlaylistProofs.ConsumedIsNotPlaying | src/playlist_control.c:178-182 | The song that consume mode deletes is never the one that plays, so the deletion cannot fail. |
| PlaylistProofs.AdvancedKeeps | src/playlist_control.c:134-183 | Next keeps the order numbers valid in every mode and stops exactly when there is no next order number. |
| PlaylistProofs.ClearedKeeps | src/playlist_edit.c:43-61 | After clearing nothing plays and no order number is left over. |
| PlaylistRuns.NextWithoutRepeat | src/playlist_control.c:134-183 | Without repeat and consume, next plays the following order number, and at the end stops and plays nothing. |
| PlaylistRuns.PlaysInOrder | src/playlist_control.c:134-183 | After k times next exactly the k songs that follow in the play order have been played, in this order. |
| PlaylistRuns.PlaysRemainingOrder | src/playlist_control.c:134-183 | Repeated next plays all remaining songs exactly once in play order and then stops. |
| PlaylistRuns.NextConsumes | src/playlist_control.c:134-183 | With repeat and consume, next removes exactly the song that has been left and plays the song after it, cyclically, until the only song is gone. |
| PlaylistRuns.ConsumesWholeQueue | src/playlist_control.c:134-183 | With repeat and consume, as many next as there are songs play every other song exactly once in cyclic order, empty the queue and stop. |
| IdleProtocol.WakeUpKept | src/event_pipe.c:139-158 | Whenever an event is marked, a byte is in the pipe or about to be written, or the main loop is about to look, also when a write fails because the pipe is full. |
| IdleProtocol.FlagsKept | src/idle.c:65-75 | Whenever flags wait, the idle event is marked, about to be marked, or about to be handled. |
| IdleProtocol.StepKeepsInv | src/event_pipe.c:63-89 | All of this is kept by every step of every thread. |
| IdleProtocol.ReachableInv | src/event_pipe.c:63-158 | It holds in every state that any interleaving reaches, for every pipe capacity. |
| IdleProtocol.InternalStepDecreases | src/event_pipe.c:63-158 | Every step that finishes work under way lowers a well-founded measure and raises no flag. |
| IdleProtocol.InternalStepExists | src/event_pipe.c:63-158 | As long as something is under way such a step is possible: the protocol cannot get stuck. |
| IdleProtocol.BecomesQuiet | src/event_pipe.c:63-158 | From every reachable state the work under way can be finished without any new flag. |
| ClientOutput.ConcatSnoc | src/client_write.c:111-137 | A deferred block comes last in the byte stream and adds its size and header to the bytes held. |
| ClientOutput.AdvanceSends | src/client_write.c:69-109 | Sending part of the first block moves exactly these bytes from the held to the sent ones, and the accounting follows. |
| ClientOutput.Client.constructor | src/client_new.c:117-121 | A new client has written and sent nothing. |
| ClientOutput.Client.WriteDeferredBuffer | src/client_write.c:27-67 | However much the socket accepts, a prefix of the block is sent; the client expires exactly if the socket is closed or broken, and then nothing is sent. |
| ClientOutput.Client.WriteDeferred | src/client_write.c:69-109 | Sent bytes followed by held bytes stay the same stream and the byte count stays exact. Sending stops at the first block that is not accepted completely; nothing is held any more exactly if all were, and the client expires exactly if the socket is closed or broken. |
| ClientOutput.Client.DeferOutput | src/client_write.c:111-137 | A block is held, or the client expires, exactly when the held bytes would exceed the maximum. |
| ClientOutput.Client.WriteDirect | src/client_write.c:139-181 | Everything that the socket did not accept is held, in order; only a prefix was sent. Nothing is held exactly if all was accepted, and the client expires exactly if the socket is closed or broken or the rest is larger than the maximum. |
| ClientOutput.Client.WriteOutput | src/client_write.c:183-209 | A live client ends with an empty send buffer and no byte is lost, doubled or reordered. With older output held, all is sent exactly if the socket accepts every block, and the client expires exactly if too much would be held or the socket is closed or broken. |
| ClientOutput.Client.Write | src/client_write.c:214-237 | Whatever the sizes and the socket, for a live client sent, held and buffered bytes together are everything written; what was sent is always a prefix of it; an expired client gets nothing more; and with a socket that accepts everything nothing is ever held back. |
| FifoBuffer.FifoBuffer.constructor | src/fifo_buffer.c:45-59 | A new buffer of the given size is empty. |
| FifoBuffer.FifoBuffer.Move | src/fifo_buffer.c:154-167 | Moving the data to the start, also when source and target overlap, keeps the contents. |
| FifoBuffer.FifoBuffer.Available | src/fifo_buffer.c:109-115 | The number of bytes that can be read. |
| FifoBuffer.FifoBuffer.Clear | src/fifo_buffer.c:117-124 | Nothing is left. |
| FifoBuffer.FifoBuffer.Read | src/fifo_buffer.c:126-139 | All contents, or nothing exactly if there are none. |
| FifoBuffer.FifoBuffer.Consume | src/fifo_buffer.c:141-149 | Exactly the first bytes go. |
| FifoBuffer.FifoBuffer.PrepareWrite | src/fifo_buffer.c:169-187 | The contents are kept; there is no room exactly if the contents fill the whole buffer. |
| FifoBuffer.FifoBuffer.Append | src/fifo_buffer.c:189-197 | The new bytes come after the contents. |
| FifoBuffer.FifoBuffer.IsFull | src/fifo_buffer.c:205-209 | Full means that the contents fill the whole buffer. |
| ClientInput.RestIsUnterminated | src/client_read.c:27-46 | What is left after all lines have been taken contains no newline. |
| ClientInput.LinesOfConcat | src/client_read.c:27-69 | The lines of two pieces are the lines of the first and those of its rest followed by the second. |
| ClientInput.FeedFrom | src/client_read.c:48-69 | Taking the lines after every read gives the lines of everything received. |
| ClientInput.ChunkingIrrelevant | src/client_read.c:48-113 | Two ways of cutting the same bytes into reads lead to the same lines and the same rest. |
| ClientInput.Client.constructor | src/client_new.c:106 | A new client has received nothing and is ready. |
| ClientInput.Client.ReadLine | src/client_read.c:27-46 | The bytes up to the first newline, cut at a NUL and without trailing space, leave the buffer; without a newline nothing changes. |
| ClientInput.Client.InputReceived | src/client_read.c:48-69 | The lines processed are a prefix of the lines of everything received, and all of them unless the connection ends. It ends exactly if the last line processed was answered so or left the client expired, and every earlier one was not; the answer is that of this line. |
| ClientInput.Client.Read | src/client_read.c:71-113 | For every answer of the socket the processed lines are those of everything received. The connection is closed for overflow exactly if the unfinished line fills the whole buffer, at the end of the stream and on errors; it stays open when nothing is there; otherwise the verdicts on the lines decide. |
| InotifyQueue.Queue.Enqueue | src/inotify_queue.c:100-136 | The loop, which removes covered paths while it walks, computes the new queue. |
| InotifyQueue.PathInIsUnder | src/inotify_queue.c:90-98 | For non-empty paths the string comparison is the relation of being the same or below. |
| InotifyQueue.RebuildCovers | src/inotify_queue.c:100-136 | Looking through the queue keeps every covered path covered and covers the new one, and nothing else. |
| InotifyQueue.RebuildAntichain | src/inotify_queue.c:100-136 | Looking through the queue keeps its paths incomparable. |
| InotifyQueue.EnqueueKeepsAntichain | src/inotify_queue.c:100-136 | No queued path is ever below another, for every event including one for the root. |
| InotifyQueue.EnqueueCoversExactlyWhen | src/inotify_queue.c:100-136 | The new queue covers exactly what the old one and the new path cover if and only if the root path is not involved or the queue makes no difference to it. |
| InotifyQueue.RootIsLost | src/inotify_update.c:308-315 | Concrete: with "a" queued, an event for the music directory itself is dropped. |
| Decimal.NumberOfDigits | src/playqueue_save.c:32-39 | The value of the printed digits of a number is the number. |
| Decimal.ScanDigits | src/playqueue_save.c:61-93 | A printed number is read back together with its end, whatever non-digit follows. |
| Decimal.DigitsLength | src/audio_format.h:86-88 | A number below a power of ten prints in at most that many digits. |
| QueueSave.Save | src/playqueue_save.c:41-51 | The text holds, for every song in order, a priority line if the priority is not 0 and a line with index and URI. |
| QueueSave.Load | src/playlist_state.c:104-125 | The line-by-line loop loads what the text says up to the end marker or the end of the file. |
| QueueSave.ReadBack | src/text_file.c:30-70 | A line that was written is read back without a carriage return at its end. |
| QueueSave.SongLineLoads | src/playqueue_save.c:79-92 | A song line is never taken for a marker, and loads exactly its URI if it is known. |
| QueueSave.PriorityLineLoads | src/playqueue_save.c:70-77 | A priority line is never taken for the marker, and its number is read back for every priority. |
| QueueSave.LoadOne | src/playqueue_save.c:61-93 | The text of one song is loaded with its priority, whatever follows. |
| QueueSave.LoadSaved | src/playlist_state.c:99-125 | Loading the saved text gives, in order, exactly the songs that are still known, with their priorities, as many as the queue can hold. |
| QueueSave.RoundTripExactlyWhen | src/playqueue_save.c:32-93 | If all songs are still known, saving and loading gives the same queue if and only if no URI ends in a carriage return. |
| AudioFormat.ParsedIsValid | src/audio_parser.c:161-209 | Every text that is accepted gives a valid format, or a valid mask where masks are allowed, although values are truncated to their C widths. |
| AudioFormat.ChannelCountKept | src/audio_parser.c:132-159 | The channel count that is checked at 32 bits is the one that is stored at 8 bits. |
| AudioFormat.TextFits | src/audio_format.c:75-87 | The text of every format fits into the buffer of 24 bytes and is never cut. |
| AudioFormat.RoundTripExactlyWhen | src/audio_parser.c:161-209 | The text of a format is parsed back to this format if and only if the format is valid, and rejected as invalid otherwise, with and without masks. |
| AudioFormat.MaskApply | src/audio_format.c:25-42 | Applying a valid mask to a valid format gives a valid format. |
| AudioFormat.MaskApplied | src/audio_format.c:25-42 | The result is the one format that has the prescribed parts and is otherwise the same; it is unchanged exactly if it had them already. |
| Directory.PruneEmpty | src/directory.c:141-153 | The loop over the children, each pruned first, leaves the pruned tree. |
| Directory.EmptyExactlyWithoutContent | src/directory.c:141-153 | Nothing is left of a directory if and only if its subtree holds neither song nor playlist. |
| Directory.PrunedAllHolds | src/directory.c:141-153 | A directory is left among the children if and only if it is a pruned child with a song or playlist below it. |
| Directory.PrunedTwice | src/directory.c:141-153 | Pruning again changes nothing. |
| Directory.PruningKeepsUniqueNames | src/directory.c:141-153 | Sibling names stay distinct. |
| Directory.FindDirectory | src/directory.c:155-186 | The walk with a moving cursor finds the directory that the path denotes segment by segment. |
| Directory.PrunedWalk | src/directory.c:155-186 | After pruning a path leads to the pruned directory if there was content below it, and nowhere otherwise. |
| Directory.PruningKeepsSongs | src/directory.c:229-257 | Looking up any URI gives the same song before and after pruning. |
| Directory.PruningKeepsMeaning | src/directory.c:141-153 | Every URI denotes the same song before and after pruning. |
| Directory.DuplicateNames | src/directory.c:128-139 | Concrete: with two siblings of one name this fails, so distinct names are needed. |
| Playlist.Playlist.UpdateQueuedSong | src/playlist.c:128-182 | The successor of the current song is queued, or the first song if there is no current one; the player is told to cancel and to enqueue exactly if the next song changes; on starting over in random mode the order is shuffled and `current` follows its song. |
| Playlist.Playlist.ShuffleSongs | src/playlist_edit.c:441-486 | Ranges of less than two songs are ignored; a playing song in the range is put first in it and stays current, the rest is shuffled within the range. |
| Playlist.Playlist.PlaySong | src/playlist_control.c:64-115 | Refused exactly for a number that is neither -1 nor a position; -1 resumes the current song or the first one; in random mode the chosen song is exchanged into the current place of the order. |
| Playlist.Playlist.Next | src/playlist_control.c:134-183 | Playback goes on to the next order number or stops, in random mode with a new order on starting over or stopping, and in consume mode the song that then has the old order number is deleted. |
| PlaylistProofs.UpdatedKeeps | src/playlist.c:128-182 | Choosing the next song keeps the current song and the list, and queues the order number that follows the current one, as it was before the order is shuffled to start over. |
| PlaylistProofs.AppendKeepsCurrent | src/playlist_edit.c:88-104 | For every draw: the current song stays current if and only if the new song is not drawn onto its order number. |
| PlaylistProofs.DeleteKeepsCurrent | src/playlist_edit.c:301-318 | A deletion that does not use an old order number removes exactly one song, keeps the order numbers valid, keeps the current song or goes on to its successor, and stops exactly when the playing song goes and none follows or playback is paused. |
| PlaylistProofs.ConsumedKeeps | src/playlist_control.c:178-182 | Consuming deletes exactly the song that has the old order number in the order after the step, and keeps the new current song. |
| Shuffles.ShuffleBounds | src/playqueue.c:408-448 | Every shuffle puts a song behind all songs of higher priority and before all songs of lower priority. |
| Shuffles.ShuffleFirst | src/playqueue.c:408-448 | Some shuffle puts a given song first of its priority. |
| Shuffles.ShuffleLast | src/playqueue.c:408-448 | Some shuffle puts a given song last of its priority. |
| Shuffles.ShuffleSecond | src/playqueue.c:408-448 | Some shuffle puts two given songs of one priority first and second of it. |
| Shuffles.ShuffleLastButOne | src/playqueue.c:408-448 | Some shuffle puts two given songs of one priority last but one and last of it. |
| PlaylistOutcomes.QueuesAnotherExactlyWhen | src/playlist.c:142-163 | On starting over in random mode, every shuffle queues another song than the current one if and only if some song has a higher priority than the current one. |
| PlaylistOutcomes.AppendKeepsCurrentExactlyWhen | src/playlist_edit.c:74-110 | Every outcome of an append keeps the current song if and only if the mode is not random, nothing is queued, or the queued order number is not smaller than the current one. |
| PlaylistOutcomes.MoveLosesTrack | src/playlist_edit.c:409-421 | Concrete: with the third of four songs playing, moving the first two one place on leaves another song current. |
| PlaylistOutcomes.MoveTargetMisfits | src/playlist_edit.c:398-407 | Concrete: with the last of four songs current, moving the first three right before it selects position 2, where only two places are left. |
| PlaylistOutcomes.ConsumesSongLeftExactlyWhen | src/playlist_control.c:134-183 | In consume mode every outcome of next deletes exactly the song that it leaves if and only if the mode is not random, the song is not last in the order, or it alone has the lowest priority. |
| PlaylistOutcomes.NextDeletesAnotherSong | src/playlist_control.c:161-182 | Concrete: with two songs in random, repeat and consume mode, next deletes the other song and the song that was left plays again. |
| PlaylistOutcomes.StaleFollows | src/playlist_edit.c:249-299 | For every shuffle: after deleting the paused song `current` is on the song that was to follow if and only if the old and the new order number of the deleted song lie on the same side of it. |
| PlaylistOutcomes.StaleDeleteExactlyWhen | src/playlist_edit.c:249-299 | Every outcome of deleting the paused song in random mode leaves `current` on the song that was to follow if and only if the numbers of songs of higher and of equal priority put that song on one side of the old order number for sure. |
| PlaylistOutcomes.StaysInsideExactlyWhen | src/playlist_edit.c:249-299 | Every outcome leaves `current` inside the queue if and only if the deleted song was not last in the order or some song has a lower priority than the one that was to follow. |
| PlaylistOutcomes.StaleDeleteRunsPastTheEnd | src/playlist_edit.c:249-299 | Concrete: with three songs `current` ends equal to the length of the queue. |
| PlaylistOutcomes.DeleteKeeps | src/playlist_edit.c:301-318 | Every deletion that cannot abort or leave the queue removes exactly one song and keeps the order numbers valid, the paused song in random mode included. |
| PlaylistOutcomes.StartedKeeps | src/playlist.c:98-117 | A started song keeps the order numbers valid. |
| PlaylistOutcomes.ResumedKeeps | src/playlist.c:251-274 | Both outcomes of a stopped player keep the order numbers valid. |
| PlaylistOutcomes.SyncedKeeps | src/playlist.c:211-245 | Every event of the player keeps the order numbers valid, and in sequential play the taken song is current and its successor queued. |
| PlaylistRanges.SuccessorExactlyWhen | src/playlist_edit.c:264-269 | Another song follows a deleted one if and only if the song does not repeat itself and is not last in the order, or the order starts over and holds another song. |
| PlaylistRuns.RunKeeps | src/playlist_edit.c:43-486 | So does every run of such commands and player events, of any length. |
| PlaylistDelta.StepMoves | src/playlist_edit.c:43-486 | Every playlist command and player event changes the queue by a run of queue operations with at most one new version. |
| PlaylistDelta.RunMoves | src/playlist_edit.c:43-486 | Every playlist run is a run of queue operations whose version number starts over as often as the versions of the playlist states show. |
| PlaylistDelta.PlaylistDeltaSync | src/playqueue_print.c:74-82 | After every playlist run a client that patches the list it knew with the delta has the list of the server, unless the version number has lapped it. |
| IdleProtocol.NoNotificationLost | src/main.c:279-287 | When nothing is under way, every flag ever raised has been given to the clients; every live client holds exactly what the run has given or pushed to it since it was last told something, and does not wait for any of it. |
| IdleProtocol.ReportIsExact | src/client_idle.c:30-96 | In every step of every run a client is told something exactly if, by what it has asked for and been told in the run, it waits, and flags that it waits for are due by what the run has raised and pushed; and then it is told exactly these. |
| FifoBuffer.FifoBuffer.Resize | src/fifo_buffer.c:79-89 | Growing or shrinking keeps the contents, also when they have to be moved first. |
| FifoBuffer.Realloc | src/fifo_buffer.c:64-91 | Size zero frees the buffer; any other size creates it or keeps it with its contents. |
| Directory.FindChild | src/directory.c:128-139 | A child that is found is the first one of the name, and if none is found none has it. |
| PlayQueue.PlayQueue.ShuffleOrderRange | src/playqueue.c:391-402 | The outcome is what successive exchanges with numbers drawn from the rest of the range make of the order; so it is a rearrangement within the range. |
| PlayQueue.PlayQueue.ShuffleOrderRangeWithPriority | src/playqueue.c:408-442 | The range is sorted by falling priority, then exactly its priority groups are shuffled by their draws; whatever the random numbers, it ends sorted and rearranged within itself. |
| PlayQueue.PlayQueue.ShuffleOrder | src/playqueue.c:444-448 | The whole order becomes a permutation sorted by falling priority, drawn from a sorted one group by group. |
| Draws.DrawnRearranges | src/playqueue.c:391-402 | Any draws only rearrange the range and keep the order a permutation. |
| Draws.RearrangementIsDrawn | src/playqueue.c:391-402 | Every rearrangement of the range is the outcome of some draws. |
| Draws.ShufflesSame | src/playqueue.c:408-442 | All orders sorted by falling priority have the same priority at every order number. |
| Draws.PlayedIsShuffle | src/playqueue.c:408-442 | Shuffling the priority groups of a sorted order leaves it a sorted permutation. |
| Draws.ShuffleIsDrawnExactlyWhen | src/playqueue.c:408-448 | From whatever sorted order the sorting produces, an order can be drawn if and only if it is a permutation sorted by falling priority. |
| Playlist.Playlist.DeleteInternal | src/playlist_edit.c:249-299 | Playback leaves the song if it is the current one, then the song is removed and `current` lowered if it came later, also when `current` is already past the end. |
| Playlist.Playlist.DeleteSong | src/playlist_edit.c:301-318 | Refused exactly for an invalid position; otherwise one song is deleted and a new next song chosen; the order numbers are valid afterwards unless the paused song of random mode can leave the queue. |
| Playlist.Playlist.DeleteRange | src/playlist_edit.c:320-345 | Refused exactly for an invalid start; otherwise the songs of the range are deleted from the last to the first and then one new next song is chosen; the order numbers are valid afterwards whenever the range is one that keeps `current` inside. |
| Playlist.Playlist.StartSong | src/playlist.c:98-117 | The queued song becomes current and in consume mode the song before it is deleted; the order numbers are valid afterwards whenever that is safe. |
| Playlist.Playlist.Sync | src/playlist.c:211-245 | What the playlist makes of an event of the player thread, for every answer of the player, and when it leaves valid order numbers. |
| Playlist.Playlist.SeekSong | src/playlist_control.c:208-251 | Refused exactly for an invalid position; otherwise the song plays and is current, errors stop playback from now on, and a new next song is chosen whether or not the player succeeds. |
| Playlist.Playlist.TagChanged | src/playlist.c:44-54 | The playing song, and no other, counts as changed since the version before. |
| Playlist.Playlist.IncrementVersionAll | src/playlist.c:37-42 | Every song counts as changed since the version before. |
| PlaylistProofs.SeekTripsExactlyWhen | src/playlist_control.c:219-248 | The entry assertion of choosing the next song fails if and only if the player refuses to seek in another song than the playing one while a song is queued. |
| PlaylistProofs.SoughtKeeps | src/playlist_control.c:208-251 | Seeking makes exactly the song that was asked for current and keeps the list; in sequential play its successor is queued. |
| PlaylistProofs.RetaggedKeeps | src/playlist.c:37-54 | New stamps keep the order numbers, the current song and what every client sees of the songs. |
| PlaylistProofs.MoveRefusedExactlyWhen | src/playlist_edit.c:376-382 | The wrapping comparisons refuse an absolute move if and only if the range or its target does not lie in the queue. |
| PlaylistProofs.RelativeMoveRefusedExactlyWhen | src/playlist_edit.c:376-382 | They refuse a relative move if and only if the range does not lie in the queue or the offset is larger than the queue. |
| PlaylistProofs.SparedRangeIsSafe | src/playlist_edit.c:320-345 | Every range outside random mode, and every range without the playing song, is deleted with valid order numbers at every step. |
| PlaylistOutcomes.StartTripsExactlyWhen | src/playlist.c:98-117 | Consuming the song that has been left reaches the failing assertion if and only if, in random mode, it has followed itself and no other song follows; it can leave invalid order numbers if and only if that is so, or it has followed itself, playback is paused and `current` can leave the queue. |
| PlaylistOutcomes.DeleteAbortsExample | src/playlist_edit.c:264-278 | Concrete: deleting the only song of a random-mode playlist while it plays reaches the failing assertion. |
| PlaylistOutcomes.StartAbortsExample | src/playlist.c:98-117 | Concrete: with one song that is to repeat in random mode, switching consume mode on makes its next start reach the failing assertion. |
| PlaylistOutcomes.SeekTripsExample | src/playlist_control.c:230-245 | Concrete: with the third of four songs playing and the fourth queued, a seek in the first one that fails. |
| PlaylistRanges.RangeSafeExactlyWhen | src/playlist_edit.c:320-345 | While the song plays: a range with it in random mode is deleted safely if and only if the song does not repeat itself and a song outside the range is still to come. |
| PlaylistRanges.PausedSafeExactlyWhen | src/playlist_edit.c:320-345 | While the song is paused: such a range is deleted safely if and only if the song does not repeat itself, a song other than those of the range behind it is still to come, and among the songs left then it is not the last in the order or the first one has not the lowest priority. |
| PlaylistRanges.RangeAbortsExactlyWhen | src/playlist_edit.c:320-345 | Some deletion of the loop reaches the failing assertion if and only if the range holds the playing song of random mode and the song repeats itself or none is left to follow it, with the exact condition for playing and for paused playback. |
| PlaylistRanges.PastTheEndStays | src/playlist_edit.c:336-340 | Once `current` is past the end of the queue, the rest of the loop leaves it exactly at the length of the queue. |
| PlaylistRanges.DeletableExactlyWhen | src/playlist_edit.c:320-345 | The condition that a caller can check holds if and only if no deletion of the loop reaches the failing assertion and every outcome leaves `current` inside the queue, in every mode, playing or paused. |
| PlaylistRanges.PausedRangeExample | src/playlist_edit.c:320-345 | Concrete: two songs of a random-mode playlist, one of them paused, are deleted together without reaching the assertion although no song outside the range is left. |
| PlaylistPriorities.AppendSortedExactlyWhen | src/playlist_edit.c:88-100 | In random mode every outcome of an append keeps the songs still to come sorted by falling priority if and only if none is still to come or all that the new song may be put before have priority 0. |
| PlaylistPriorities.PlaySortedExactlyWhen | src/playlist_control.c:89-106 | Playing a song in random mode keeps the songs still to come sorted if and only if it is not one of them or the song that it changes places with fits between its new neighbours. |
| PlaylistPriorities.RandomSortedExactlyWhen | src/playlist.c:376-398 | Switching random mode on always leaves the songs still to come sorted if and only if nothing plays, no song has a higher priority than the playing one, or all that have share one priority and no other song has that of the playing one. |
| PlaylistRuns.StepKeeps | src/playlist_edit.c:43-486 | Every command but those that can reach a failing assertion or invalidate an order number keeps the order numbers valid in every mode, and every edit outside random mode leaves the successor of the current song queued. |
| PlaylistRuns.SequentialIsPermitted | src/playlist_edit.c:43-486 | Outside random mode a command with valid arguments trips if and only if it is a seek that fails while another song is queued. |
| PlaylistRuns.SequentialRunKeeps | src/playlist_edit.c:43-486 | In every run without random mode, of commands with valid arguments and without a seek that fails while another song is queued, no command trips, all order numbers stay valid, and each edit leaves the successor of the current song queued. |
| PlaylistRuns.SyncIsRun | src/playlist.c:211-245 | An event of the player thread is a run of at most two steps: a started song, a stopped player, a new next song. |
| IdleProtocol.TransitKept | src/idle.c:65-88 | The waiting flags, and those taken but not passed on, are always exactly the ones raised and not yet delivered in the run. |
| IdleProtocol.AccountKept | src/client_idle.c:30-96 | Each step changes a live client exactly as its account changes: what is due, what it waits for and what it has been told. |
| IdleProtocol.AccountsKept | src/client_idle.c:30-96 | After every run each live client is as the run alone says: it waits, for what it asked for, from its request until it is told something or cancels, and has been told exactly the due flags that it asked for. |
| IdleProtocol.WaitRegisters | src/client_idle.c:84-96 | A client that starts to wait is registered with its subscriptions if none of them is due, and is told the due ones at once otherwise. |
| IdleProtocol.WaitDevelops | src/client_idle.c:84-96 | While a client only waits, what is due to it and what is under way to it is everything raised for it, until one answer names a part of that. |
| IdleProtocol.IdleIsAnswered | src/main.c:279-287 | However the threads interleave: once all is quiet, a client that has asked for flags and only waited since has got exactly one answer, naming some of them, if any of them was raised or pushed to it since it was last told something, and otherwise still waits. |
| PriorityOrder.ReprioritizedPlayedAgain | src/playqueue.c:537-560 | All songs stay before or after the current one, except that a played song comes again exactly if it was not more urgent than the current one and now is; a played song that does not leaves the whole order as it was. |
| PriorityOrder.RangePlayedAgainStep | src/playqueue.c:580-603 | The same carries over from one position of the range to the next, although the current song itself may get the new priority meanwhile. |
| PlaylistProofs.MoveDecided | src/playlist_edit.c:376-404 | An accepted move does nothing exactly if it goes where the range is, or is relative to a current song inside the range; an absolute target is taken as it is. |
| PlaylistProofs.RelativeMoveLands | src/playlist_edit.c:392-404 | A relative move puts the songs right before the one at the position counted to, around the end, if and only if that one comes before them or a single song moves. |
| PlaylistProofs.MovesNextToCurrent | src/playlist_edit.c:392-404 | One song moved by -1 lands right after the current song, and moved by the length of the queue right before it. |
| PlaylistProofs.RelativeMoveResult | src/playlist_edit.c:369-427 | After a relative move of one song, the song that was counted to follows it in the list. |
| ClientInput.UpToNul | src/client_read.c:42 | The longest beginning without a NUL. |
| ClientInput.Chomp | src/client_read.c:45 | What is cut off at the end is all space, and what is left does not end in space. |
| ClientInput.LinesRoundTrip | src/client_read.c:27-69 | Whatever lines a client sends, with any space before the newline, come out as the client meant them, one by one, and the rest stays. |
| ClientInput.Client.ProcessNext | src/client_read.c:57-66 | Without a complete line the answer is that all is well; with one, exactly one line is processed, and going on and the answer follow from its verdict. |
| Directory.FindSong | src/directory.c:211-227 | A song that is found is the first one of the name, and if none is found none has it. |
| Directory.WalkFinds | src/directory.c:155-186 | A path of names leads to a directory if and only if that is reached by the first child of each name in turn. |
| Directory.LookupFinds | src/directory.c:229-257 | A lookup finds a song if and only if the song is the first of its name in the directory that the names before it lead to. |
| Directory.LeadingSlashes | src/directory.h:91-95 | One or two slashes before the name of a song denote the root directory. |
| Decimal.ScanSigned | src/playqueue_save.c:61-93 | A number is read with its sign and end, whatever space precedes and whatever non-digit follows. |
| Decimal.NumbersRead | src/playqueue_save.c:71-80 | Numbers that are too large become the nearest that fits, and a minus sign negates an unsigned number modulo its width. |
| QueueSave.FullStays | src/playqueue_save.c:66-68 | A full queue takes nothing more, whatever the text says. |
| QueueSave.LoadedSound | src/playlist_state.c:104-125 | Whatever the text, songs are only added at the end, only known ones with a priority that fits, and never more than the queue can hold. |
| QueueSave.MalformedIgnored | src/playqueue_save.c:79-84 | A song line with a negative index, or without a colon after its number, adds nothing. |
| AudioFormat.MaskRoundTrip | src/audio_parser.c:161-209 | Every text with numbers or asterisks is read as what it says if and only if each part is valid, or open where that is allowed, and nothing follows; otherwise it is rejected as invalid. |
| AudioFormat.MissingParts | src/audio_parser.c:176-195 | A text that ends after the rate or the sample format is reported as incomplete. |
| AudioFormat.FormerName | src/audio_parser.c:108-114 | The former name of the 24 bit format is understood, whatever follows. |
| PlayerView.AnnounceTells | src/playlist.c:170-181 | The calls cancel and enqueue leave the player with exactly the new next song, never enqueue while it has one or cancel while it has none, and are made only if the song differs. |
| PlayerView.UpdateTells | src/playlist.c:128-182 | Choosing the next song leaves the player with exactly the queued song and does not disturb the one that plays. |
| PlayerView.RemoveTells | src/playlist_edit.c:249-299 | While a song is removed the player follows: it plays the song that becomes current, or stops, and keeps its next song exactly if another song was removed. |
| PlayerView.RangeTells | src/playlist_edit.c:336-340 | The same for the whole loop over a range. |
| PlayerView.NextTells | src/playlist_control.c:134-183 | Going on leaves the player with the new current song or stopped, in consume mode also after the song that was left is gone. |
| PlayerView.StartTells | src/playlist.c:98-117 | A player that has gone on to its next song plays the current song afterwards. |
| PlayerView.ResumeTells | src/playlist.c:251-274 | A player that has stopped plays the current song afterwards or stays stopped with the playlist. |
| PlayerView.SeekTells | src/playlist_control.c:208-251 | A seek leaves the player with the song that was asked for and the queued one behind it. |
| PlayerView.FailedSeekLosesNext | src/playlist_control.c:230-245 | If the player refused a seek while a song is queued, it would be without that song while the playlist goes on taking it for queued, in every case. |
| PlayerView.StepTells | src/playlist_edit.c:43-486 | After every command and player event the player holds exactly the queued song as its next one, and plays the current one unless the command told it nothing and changed that. |
| PlayerView.RunTells | src/playlist.c:128-274 | In every run without a refused seek the song that the player holds as its next one is exactly the queued song, no call breaks an assertion of the player, and it plays the current song as long as no edit has lost track of it. |
| PlaylistLaws.PreviousUndoesNext | src/playlist_control.c:185-206 | "Previous" after "next" comes back to the same order number if and only if the song did not repeat itself or is the only one, and plays the same song again if the order was not shuffled. |
| PlaylistLaws.PreviousAtBeginning | src/playlist_control.c:185-206 | At the beginning "previous" plays the last song in repeat mode, from which "next" leads back, and the first one again otherwise. |
| PlaylistLaws.RetaggedIsNewer | src/playlist.c:44-54 | A client that knows the version before is told of the playing song and, unless the version number starts over, of no song that it would not have been told of anyway. |
| PlaylistLaws.AllRetaggedIsNewer | src/playlist.c:37-42 | A client that knows the version before is told of every song. |
| PlaylistLaws.FailureCounts | src/playlist.c:251-274 | An error is counted and a success forgets them; playback goes on only if the player can go on, no seek preceded and fewer errors than songs were counted, and in repeat mode exactly then. |
| PlaylistLaws.ErrorsEnd | src/playlist.c:251-274 | A playlist of which nothing can be played stops after at most as many failures in a row as it has songs. |
| PlaylistLaws.SeekErrorStops | src/playlist.c:251-274 | If a song that was sought cannot be played, playback stops. |
| PlaylistLaws.PlayErrorGoesOn | src/playlist.c:251-274 | If a song that was chosen cannot be played, in repeat mode another one is tried exactly if there is one. |
| PlaylistLaws.RestartMayShuffle | src/playlist.c:146-163 | When the first song follows the last one in random mode, every order sorted by priority can be the new one. |
| PlaylistLaws.OtherwiseKeepsOrder | src/playlist.c:146-163 | In all other cases choosing the next song leaves the order and `current` alone. |
| PlaylistLaws.StopMayShuffle | src/playlist_control.c:35-62 | Stopping in random mode can give every order sorted by priority. |
| PlaylistLaws.NextMayShuffle | src/playlist_control.c:134-183 | Going on from the last song to the first in random mode can give every order sorted by priority. |
| PlaylistLaws.StepVersion | src/playlist_edit.c:36-41 | A command or player event gives the queue the next version if and only if it changes what clients are shown of it: an edit, a consumed song, new tags of the playing song. |
| PlayerView.FirstQueuedTells | src/playlist.c:142-178 | A playing playlist without a current song hands the player the first song of the order, so none is skipped. |
| IdleProtocol.ExpiredIsSilent | src/client_idle.c:54-66 | A client that has expired is told nothing more. |
| PlaylistTotality.StepPossible | src/playlist_edit.c:43-486 | Every command or player event that does not trip has an outcome for every random choice that the code can make, so no theorem about all outcomes is empty. |
| QueueRuns.NewerAfterWrap | src/playqueue.c:61-74 | Once the version number has started over, a song counts as changed for every client until it is touched again. |
| QueueRuns.StampsOnlyChanges | src/playqueue.c:104-285 | An edit does not stamp a position at which a client sees the same song, id and priority as before, so the delta is no larger than it must be. |
| QueueRuns.UpToDateIsToldNothing | src/playqueue_print.c:74-82 | A client that knows the present version is told nothing if no song has been stamped since. |

## Left out
- The player, decoder and output threads, the music pipe, crossfading and replay gain: the playlist talks to the player through the calls recorded in `State.calls`.
- The calls of `idle_add()` and `pc_set_border_pause()` inside the playlist, logging, freeing of songs, and error texts.
- Adding by URI or file, seeking relative to the current position, and the variants of commands that take ids: thin layers over the modelled operations.
- PlayQueue.PlayQueue.SortOrderByPriority: `g_qsort_with_data()` is replaced by a selection sort, because only its result, a rearrangement sorted by priority, is used.
- PlayQueue.PlayQueue.ShuffleOrderRange: every rearrangement within the range can result (`Draws.RearrangementIsDrawn`); that all are equally likely is left out.
- Playlist.Playlist.MoveSongs: requires that the range does not start after its end and that the decided target leaves room for the range; otherwise the C code allocates or writes out of bounds. `PlaylistProofs.MoveTargetFits` says exactly when it leaves room.
- Playlist.Playlist.DeleteSong: requires that the failing assertion is not reached; `PlaylistProofs.DeleteAbortsExactlyWhen` says exactly when it is.
- Playlist.Playlist.DeleteInternal: requires the same.
- Playlist.Playlist.DeleteRange: requires the same of every deletion of the range, in the form that `PlaylistRanges.RangeAbortsExactlyWhen` proves to be exact.
- Playlist.Playlist.StartSong: requires the same of the song that consume mode deletes; `PlaylistOutcomes.StartTripsExactlyWhen` says exactly when it fails.
- Playlist.Playlist.Sync: requires the same of the song that it finds taken.
- Playlist.Playlist.SeekSong: requires that the entry assertion of choosing the next song holds; `PlaylistProofs.SeekTripsExactlyWhen` says exactly when it fails.
- Playlist.Playlist.ShuffleSongs: a start at the largest unsigned number, with which the C code fails an assertion of `queue_shuffle_range()`, is left out unless the range is empty anyway.
- PlaylistRuns.StepKeeps: leaves out the commands that reach a failing assertion or can make an order number invalid; `PlaylistOutcomes.StaysInsideExactlyWhen`, `PlaylistRanges.DeletableExactlyWhen`, `PlaylistOutcomes.StartTripsExactlyWhen` and `PlaylistProofs.SeekTripsExactlyWhen` say exactly which.
- PlaylistRuns.RunKeeps: leaves out the same commands.
- PlaylistDelta.PlaylistDeltaSync: is about runs of the same commands.
- PlayerView.RunTells: is about runs of the same commands, without a seek that the player refuses while a song is queued; what the player makes of a call is taken from `src/player_control.c:98-286` and not from the player thread.
- In the idle protocol `event_pipe_emit_fast()` is left out, and a write to the pipe that is interrupted by a signal is left out, because that byte is lost and not written again.
- Command lists and the parsing of commands: `ClientInput` stops at the line that is handed over.
- QueueSave.ReadBack: lines of 512 KiB and more, which are read in pieces, are left out.
- QueueSave.LoadSaved: requires URIs without a newline, since the format has no escape for it; a song that is not in the database is loaded like any other known URI.
- Directory.PruneEmpty: works on tree values; the linked lists, parent pointers and freeing of the C code are left out, and so is an update while a reader walks the tree.
- Directory.PruningKeepsSongs: requires distinct sibling names, for which the update code looks before it adds a directory (`src/directory.h:185-192`); `Directory.DuplicateNames` shows that it is needed.
- Database update, stored playlists, tag handling, input and encoder plugins, and configuration.
