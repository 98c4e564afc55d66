# Models of the Minerva plugins' protocols, with proofs

This project models the parts of the plugin repository where a mistake would be hard to see and
proves what those parts promise. Each module follows one component of the program; the methods of
its classes do what the program's methods do to the same fields, and the main results are statements
about every input, every interleaving or every history.

## What is modelled

**CAD worker admission, cancellation and recovery** (`Cad*.dfy`). One pump goroutine owns a slow native
worker; callers reserve capacity with tickets and send tasks through a buffered queue; a cancel control
may land at any point. `CadProtocol` is a transition system. Its steps are the sections under the
runner's and the registration table's mutexes, the calls into the worker, and the operations that happen
outside the mutexes: the pump's receive is a step of its own, so it can fall between any two rounds of a
cancellation's scan of the queue. `CadInvariant` states what every reachable state satisfies,
`CadAccounts`, `CadFrames`, `CadPump`, `CadCancel` and `CadCallers` show that every step keeps it, and
`CadTheorems` and `CadOutcomes` draw the results. `CadRunner` is the runner as an object: its methods,
`cancelEvaluation` with both of its loops among them, are runs of that protocol. `CadWitness` shows that
the guarantees are not bought by never running anything.

**Request frames** (`Frames`). The CAD server's frame reader, over any way the buffered reader cuts the
stream, gives the newline split of the stream.

**The multimeter's change journal, edge detector and watch** (`Journal`, `Detector`, `Bench`,
`BenchPanel`, `Drift`, `EdgeDetector`, `Watch`). A bounded log with cursors; a detector that turns
readings into edges; the query that must not claim a state the meter has left; and a one-slot watch. The
detector is given as functions (`Detector`), as an object with loops proved equal to them
(`EdgeDetector`), and the results are about every history of readings, connects and disconnects. A watch
is a state machine over all interleavings.

**Presentation: live tab mode and disk mode** (`Pointer`, `Patch`, `Lenses`, `Slices`, `Presentation`,
`Agreement`, `AgreementEdits`, `DeckChanges`). Tab mode sends JSON Patch operations (section 4 of RFC
6902, with paths by RFC 6901); disk mode changes the loaded document. For each of eight tools the two
results are compared: equal without condition for adding and removing a slide and removing an
annotation, and otherwise equal exactly under the condition that the theorem names. `DeckChanges` says
what the deck then is, told from the arguments of the call. `Slices` holds the loops disk mode runs over
the array behind a slice. A deck here is an object with a list of slides.

**Sheets: requests that arrive during a capability call** (`SheetsQueue`, `SheetsWait`, `Sheets`). Every
host request is in exactly one place and is answered exactly once, in arrival order if it is served.

**Council: reply routing** (`Council`, `CouncilHost`). Calls wait on one-place channels, one reader
delivers by id, and the stream may end at any time.

**Nametag sheets** (`Nametag`, `NametagFace`). Where the cells are, how backs line up with fronts, and
that no text of a face crosses the line the tag is cut along.

**Oscilloscope timing** (`Oscilloscope`). Hysteresis crossings, duty and the statistics beside them.

## Where the code and its own description differ

- `toolModifyTile` says that a call with nothing to do returns success without sending a patch
  (`presentation/main.go:3987-3989`). When the call only erases keys that the tile does not have, the
  patch has no operation, `Send` refuses it, and tab mode fails where disk mode succeeds
  (`AgreementEdits.ClearingNothing`; `ModifyAgrees` says exactly when).
- `toolMoveSlide` in tab mode answers a move of a slide onto itself before it looks whether that slide
  exists; disk mode looks first (`Agreement.MovingNothing`, `MoveSlideAgrees`).
- `toolRemoveTile` in tab mode rebuilds the reveal list as strings, so an entry that is not a string becomes
  an empty one; disk mode keeps it (`AgreementEdits.NumberInTheList`, `Agreement.RemoveTileAgrees`).
- `toolResizeSpreadsheet` in tab mode replaces the size keys, which the host refuses when one is missing
  (`AgreementEdits.SheetWithoutSize`, `Agreement.ResizeAgrees`); `toolAddAnnotation` differs over annotations
  that are not a list (`AgreementEdits.NullAnnotations`, `AddAnnotationAgrees`).
- A message that is a cancellation and also carries an id, and so is a request, is forgotten without a reply
  when it cancels the very call that is waiting (`SheetsQueue.ConfusedIsForgotten`, `ForgottenExactly`).
  A notification has no id, so only a malformed message can be one.
- The subtitle gap of a nametag face does not shrink with the rest, so a shrunk block ends below the room it
  was fitted to, by less than two points and inside the padding (`NametagFace.ShrunkBottom`).
- The width of a face's columns is what the gaps between them leave, which is nothing or less for very many
  columns (`NametagFace.ColumnInside` says exactly when).

## Model

| member | source | states |
|---|---|---|
| CadTheorems.RevokedNeverPublishes | cad/main.go:284-330 | once a cancel answered true for an evaluation, or a newer one took its request id, it publishes no success, then or in any continuation |
| CadTheorems.RevokedIsSettled | cad/worker_runner.go:221-268 | what became of its reservation wherever its task was: completed first, or cancelled, queued nowhere, and run only by a generation in trouble |
| CadTheorems.CancelledNeverCommits | cad/worker_runner.go:227-231 | a cancelled task that no generation has is never given to one |
| CadTheorems.AnswerIsFirstWins | cad/worker_runner.go:221-268 | a cancellation answers false exactly for a reservation that completed first; true with a receipt names the generation that runs the task, true without one means none ever did |
| CadTheorems.CancelTouchesItsOwn | cad/main.go:354-364 | answering false leaves every registration and context as it was; answering true removes exactly its own |
| CadTheorems.SupersedeReplaces | cad/main.go:284-313 | whatever the cancellation answered, the newer evaluation owns the key, the older is revoked with its context ended, and no other registration is touched |
| CadTheorems.CleanupKeepsNewer | cad/main.go:315-330 | the cleanup of an evaluation never removes a newer registration under its key |
| CadTheorems.PublishedIsGenuine | cad/main.go:503-507 | a published success came from a generation the task was committed to and that saw no interruption, crash or failed start under it |
| CadTheorems.FenceHolds | cad/worker_runner.go:255-267 | a task admitted before an interruption and not committed by then is never committed |
| CadTheorems.CommittedInItsEpoch | cad/worker_runner.go:371-378 | a task is only committed in the epoch it was admitted in; for a captured caller that is the very epoch it captured |
| CadTheorems.RefusedForAReason | cad/worker_runner.go:348-378 | an admitted task is turned away, in the pump's hand, at the commit, in a rotation or behind a fence, only for an interruption after its admission, its own cancellation, a failed worker or the end of the context it was admitted with |
| CadTheorems.StartingIsNeverFenced | cad/worker_runner.go:371-378 | a task whose worker has just started is always of the current epoch, so it is committed exactly when neither it is cancelled nor its context has ended |
| CadTheorems.RebindingSurvives | cad/main.go:465-481 | an evaluation that rebinds after superseding another stays in the current epoch until the next interruption |
| CadTheorems.OneOwner | cad/worker_runner.go:270-298 | at most one recovery is live, and while it is the pump neither starts nor retires the worker |
| CadTheorems.InterruptedOnce | cad/worker_runner.go:252-257 | no generation is interrupted twice |
| CadTheorems.RecoveryMovesForward | cad/worker_runner.go:270-298 | a recovery only moves forward through its phases, so each interruption has at most one replacement |
| CadTheorems.ReplacementFollowsRetirement | cad/worker_runner.go:285-286 | a replacement is started only after the interrupted generation retired |
| CadTheorems.QuotaOutlivesTheGeneration | cad/worker_runner.go:382-425 | a reservation whose generation was interrupted, crashed or failed to start is given back only after that generation retired |
| CadTheorems.FailureIsFinal | cad/worker_runner.go:349-358 | after a failure no task is committed any more |
| CadTheorems.CapacityConserved | cad/worker_runner.go:120-143 | both counters are the totals over owned tickets, queue, hands and held reservations, within 16 and 32 MiB; each reservation is in one place and is released at most once |
| CadOutcomes.NobodyEntersWhenShut | cad/worker_runner.go:105-116 | once the runner failed, stopped or was shut down, nothing is reserved and nothing is admitted any more |
| CadOutcomes.CapturedCallerIsFenced | cad/worker_runner.go:80-99 | a caller that captured its epoch before an interruption reserves nothing after it, and none of its reservations is admitted or committed after it |
| CadOutcomes.CancelledNeverEnters | cad/worker_runner.go:153-190 | nothing is admitted on a ticket already cancelled, or for a context that has already ended |
| CadOutcomes.EndedNeverCommits | cad/worker_runner.go:371-378 | a task whose context ended before it was committed never is |
| CadOutcomes.EndedNeverPublishes | cad/main.go:490-507 | an evaluation whose context has ended publishes nothing any more; after a shutdown none does |
| CadOutcomes.BarredNeverStarts | cad/worker_runner.go:348-361 | a task that was cancelled, fenced out or overtaken by a failure before it became active never becomes active |
| CadOutcomes.OnlyFailureWithholds | cad/worker_runner.go:382-422 | a reservation is held back only by a failed runner, for a generation in trouble or at the shutdown |
| CadOutcomes.RepliedIsGivenBack | cad/worker_runner.go:417-422 | after its reply a reservation is either kept or given back, without a failure always given back, and giving it back returns exactly what it took |
| CadOutcomes.FinishedIsReleased | cad/worker_runner.go:206-217 | without a failure every finished reservation the pump is through with has been released once |
| CadOutcomes.CapacityComesBack | cad/worker_runner.go:206-217 | nothing leaks: without a failure, with nothing reserved, queued or in hand, both counters are zero |
| CadOutcomes.RecoveryEndsInAStart | cad/worker_runner.go:285-297 | after a retirement without error a recovery is through only after a start; the replacement is the generation that start returned, and its error fails the runner |
| CadOutcomes.RecoveryWithoutRetirement | cad/worker_runner.go:270-284 | a recovery that could not retire the old generation starts nothing, has no replacement and fails the runner |
| CadTheorems.QueueSendNeverBlocks | cad/worker_runner.go:186-190 | whenever a task is sent to the queue there is room in it |
| CadTheorems.ReplyNeverBlocks | cad/worker_runner.go:242-243 | no task is answered twice, so its one-place reply channel never blocks |
| CadTheorems.RotationConserves | cad/worker_runner.go:232-247 | whatever the pump receives meanwhile, every task queued at entry is dropped, still queued or received; exactly the victim's evaluations are dropped and none stays queued |
| CadTheorems.RotationIsFifoWhileActive | cad/worker_runner.go:232-247 | while a task is active the queue afterwards is the filtered queue in its order |
| CadTheorems.StepKeeps | cad/worker_runner.go:101-428 | every step of the protocol keeps the invariant |
| CadTheorems.RunOnward | cad/worker_runner.go:101-428 | over every run: epochs grow, commitments, cancellations and revocations are kept, and nothing fenced or failed is committed |
| CadPump.PumpKeeps | cad/worker_runner.go:320-428 | every step of the pump keeps the invariant |
| CadCancel.CancelKeeps | cad/worker_runner.go:221-268 | every step of a cancellation keeps the invariant |
| CadCancel.RotationDone | cad/worker_runner.go:232-247 | at the end of the scan every queued task was examined or received: the conservation and order of the scan by itself |
| CadCallers.CallerKeeps | cad/worker_runner.go:105-190 | reserving, binding, admitting and giving back keep the invariant |
| CadCallers.RegistryKeeps | cad/main.go:284-364 | registering, superseding, cancelling and finishing an evaluation keep the invariant |
| CadCallers.RecoveryKeeps | cad/worker_runner.go:270-298 | every step of a recovery keeps the invariant |
| CadWitness.AnEvaluationCanPublish | cad/main.go:490-507 | some reachable state has a published evaluation |
| CadWitness.ARunningEvaluationCanBeInterrupted | cad/worker_runner.go:248-265 | a cancel control can catch a running evaluation: it answers true with an interruption in a new epoch |
| CadRunner.WorkerRunner.ReserveEpoch | cad/worker_runner.go:105-126 | it succeeds exactly when nothing has ended, stopped or failed, a captured epoch is the current one and both caps have room; the ticket is then of that epoch; else the first refusal that applies, changing nothing |
| CadRunner.WorkerRunner.BindEpoch | cad/worker_runner.go:128-132 | the ticket takes the current epoch |
| CadRunner.WorkerRunner.ReleaseUnused | cad/worker_runner.go:134-143 | an owned ticket gives its capacity back, once |
| CadRunner.WorkerRunner.Admit | cad/worker_runner.go:153-190 | it succeeds exactly when the ticket is owned, uncancelled, of the current epoch and of that size and nothing has ended, stopped or failed; then the task is queued; else the refusals in their order |
| CadRunner.WorkerRunner.CancelEvaluation | cad/worker_runner.go:221-268 | with the pump receiving between any two queue operations, the method is a run of the protocol from entry to decision |
| CadRunner.WorkerRunner.Rotate | cad/worker_runner.go:232-247 | the scan loop ends ready to decide, whatever the pump received |
| CadRunner.WorkerRunner.Drain | cad/worker_runner.go:258-266 | the drain loop answers and releases every older task |
| Frames.SplitIsFaithful | cad/server_transport.go:28-62 | the newline split loses nothing and leaves no newline in a piece |
| Frames.SplitIsUnique | cad/server_transport.go:28-62 | it is the only way to cut the stream like that |
| Frames.ReadRequestFrame | cad/server_transport.go:28-62 | for every stream and every chunking, one call gives the next piece, all of its bytes but one carriage return at its end, and is oversized exactly when those are more than 16 MiB; the buffer never exceeds the cap plus one; the next call starts after the newline |
| Frames.JudgeIs | cad/server_transport.go:53-60 | what a frame is of its piece, told from the bytes: the two agree on that frame and no other |
| Frames.Reader.ReadSlice | cad/server_transport.go:35-40 | a slice ends with the newline, or is a full buffer without one, or is the rest with the end of the stream |
| Frames.Serve | cad/server_transport.go:64-84 | the answers are those of the pieces of the split, in order; the unfinished last piece is dropped exactly when reading fails |
| Frames.ServedAsWritten | cad/server_transport.go:64-84 | requests written one to a line, each ended by a newline with or without a carriage return, are answered as written, in order, up to the one that ends serving |
| Journal.ChangesSince | multimeter/journal.go:95-124 | missed plus returned edges is head minus the effective cursor; the edges are the newest ones, and there are 200 of them if any was missed |
| Journal.PollingSeesEachOnce | multimeter/journal.go:106-124 | a client polling with the cursors it was given gets every edge at most once, in order, and misses exactly those counted as missed |
| Journal.FrequentPollsMissNothing | multimeter/journal.go:106-124 | up to 200 edges between polls none is missed |
| Journal.ForeignCursorResets | multimeter/journal.go:106-124 | a cursor of another run asks for all of this one and is told so; no other cursor is |
| Journal.ChangeJournal.Add | multimeter/journal.go:77-93 | the edge gets the next number, the oldest is dropped at 200, and whoever waits is released |
| Journal.ChangeJournal.Since | multimeter/journal.go:106-124 | the scan over the kept edges answers what the whole log says |
| Journal.ChangeJournal.Changed | multimeter/journal.go:126-134 | the channel that the next edge closes, not closed yet |
| Bench.ReplayReproduces | multimeter/journal.go:159-242 | over every history the log follows its grammar (connect, dial before other reading edges, flags alternating, disconnect), and replaying it gives the detector's state |
| Bench.DialsDiffer | multimeter/journal.go:198-207 | consecutive dial edges of a connection name different positions |
| Bench.FlagsAlternate | multimeter/journal.go:209-235 | within a connection the hold edges, and the rel edges, strictly alternate |
| Bench.FlagsStartOn | multimeter/journal.go:209-235 | the first of them after a connect turns the flag on |
| Bench.MatchHolds | multimeter/journal.go:394-408 | over any part of the log a match names the dial position the replay has reached |
| Bench.DialAnswerIsSound | multimeter/journal.go:390-408 | for every history, eviction and cursor, a match means the meter is connected and its dial is on that edge's position, and on the slot asked for |
| Bench.DialAnswerIsExact | multimeter/journal.go:390-408 | with the whole history at hand the dial answer succeeds if and only if the meter is connected and its dial is there |
| Bench.MatchExactly | multimeter/journal.go:394-408 | there is a match if and only if an edge stands: a dial edge with no later dial or disconnect, or a non-zero settled edge with no later settled, lost-contact, overload, dial or disconnect edge; and it is that edge |
| BenchPanel.PanelShowsNewest | multimeter/journal.go:187-235 | over every history the detector's dial, hold and rel are those of the newest reading of the connection that is up |
| BenchPanel.StoryShowsNewest | multimeter/journal.go:159-242 | so replaying the whole journal tells the dial position of that reading, and hold and rel exactly if it carried them |
| BenchPanel.PanelEdges | multimeter/journal.go:198-235 | after every history a reading's dial, hold and rel edges are exactly what it changed since the newest reading before it, and every edge carries it |
| BenchPanel.BaselineSurvives | multimeter/journal.go:198-229 | window and baseline survive a reading's panel steps exactly when dial and rel are as they were, so a change of hold wipes neither |
| Drift.WithinBand | multimeter/journal.go:258-271 | any two readings of a steady value window are within the band of each other |
| Drift.BandIsSpread | multimeter/journal.go:261-271 | that band is at most five counts or 1/199.5 of the newest reading |
| Drift.BaselineFollows | multimeter/journal.go:279-304 | after a steady value the baseline has its function and is within the change threshold of it, and it moves exactly when a settled edge is reported |
| Drift.BaselineLeaves | multimeter/journal.go:279-299 | an open or over-range window becomes the baseline, and is reported exactly when it ends a value or was not over range before |
| Drift.ReportedExactly | multimeter/journal.go:299-343 | a steady value is not reported and leaves the baseline exactly when the baseline is a value of the same function within 20 counts or 2% of it; otherwise it is reported and becomes the baseline |
| Drift.WindowExactly | multimeter/journal.go:248-256 | which readings the window holds: those since the function or class changed, cut so that just one is as old as a second |
| Drift.SteadyExactly | multimeter/journal.go:257-276 | a window is steady if and only if it spans a second and, for a value, its ends are within 5 counts or half a percent of their middle; the steady reading is a nearest one to the middle |
| Drift.OpenWithinFiftyCounts | multimeter/journal.go:314-330 | a reading outside OHM is open exactly within 50 counts of zero, in its unprefixed unit |
| Drift.PrefixSteps | multimeter/journal.go:329-338 | every prefix is a thousand of the one before |
| Drift.CountsMakeAUnit | multimeter/journal.go:340-343 | one display count is the unit divided by ten to the number of decimals |
| Drift.JournalReportsBaseline | multimeter/journal.go:187-304 | over every history the journal's newest standing settled edge is there exactly when the baseline is a value, and is close to it |
| Drift.NoUnreportedDrift | multimeter/journal.go:244-304 | over every history, whenever a reading completes a steady value window: the window spans the settle time and lies within the band, the baseline is within the threshold, and the journal reports that baseline |
| Drift.SomethingSettles | multimeter/journal.go:244-304 | there is a history after which a reading completes a steady value window |
| DetectorObject.EdgeDetector.SetConnected | multimeter/journal.go:160-177 | state, journal and answer follow the detector's functions over the whole history |
| DetectorObject.EdgeDetector.NoteFlags | multimeter/journal.go:209-235 | the loop over the flag table does the hold and the rel step in that order |
| DetectorObject.EdgeDetector.Extremes | multimeter/journal.go:260-263 | one pass finds the window's lowest and highest readings |
| DetectorObject.EdgeDetector.Closest | multimeter/journal.go:269-274 | one pass finds the reading nearest the centre |
| DetectorObject.EdgeDetector.Cut | multimeter/journal.go:253-256 | one reading at or before the cutoff stays |
| DetectorObject.EdgeDetector.Track | multimeter/journal.go:248-275 | the window and the steady reading, if any |
| DetectorObject.EdgeDetector.Settle | multimeter/journal.go:279-304 | the new baseline and whether it is an edge |
| DetectorObject.EdgeDetector.Observe | multimeter/journal.go:187-242 | one reading: state, journal and answer follow the detector's functions, so every result about histories holds of the object |
| DetectorObject.EdgeDetector.LastMatch | multimeter/journal.go:394-408 | the forward loop finds the newest match not undone; if there is one, the meter is connected and on that slot now |
| Watch.BlockedHasSeenAll | multimeter/watch.go:215-233 | a watcher blocked on a channel nobody closed has looked at every edge now in the journal, and found no match |
| Watch.BlockedHasNothing | multimeter/watch.go:215-233 | told from the edges: nothing the journal holds from after its cursor stands as what a blocked watcher waits for |
| Watch.DeliveredIsTrue | multimeter/watch.go:215-256 | a watch that speaks of an edge speaks of one that happened after its cursor and is what it was armed for |
| Watch.NextEdgeWakes | multimeter/journal.go:88-91 | the next edge wakes every blocked watcher |
| Watch.OneArmed | multimeter/watch.go:62-70 | at most one watch is armed, and each speaks at most once |
| Watch.EveryWatchAccounted | multimeter/watch.go:62-94 | every watch is armed, or displaced and silent, or fired: exactly one of the three |
| Watch.DisplacedNeverDelivers | multimeter/watch.go:72-94 | a displaced watch never delivers, now or later |
| Watch.SwapDisplaces | multimeter/watch.go:181-208 | stopping, or arming another, displaces the watch in the slot |
| Watch.FiredIsNotCutOff | multimeter/watch.go:84-94 | once released, a watch's line is delivered or on its way whatever is stopped or armed afterwards |
| Watch.NothingReplayed | multimeter/watch.go:168-179 | a watch starts from a place in this run, and one armed without a usable cursor fires on nothing that happened before |
| Watch.WatchState.Swap | multimeter/watch.go:73-82 | the displaced watch is cancelled and no other |
| Watch.WatchState.Release | multimeter/watch.go:86-94 | a firing watch may speak if and only if nothing displaced it |
| Pointer.PathRoundTrip | presentation/main.go:434-462 | the host reads back exactly the tokens of a path the tools build |
| Pointer.EscapedRoundTrip | presentation/main.go:434-462 | the reading undoes the escaping of section 4 of RFC 6901 for any tokens |
| Pointer.IndexRoundTrip | presentation/main.go:1958-1965 | an index written into a path reads back as itself, a negative one as no index |
| Patch.PatchBuilder.Send | presentation/main.go:487-494 | an empty patch and a second send are refused; otherwise the collected operations go out once |
| Lenses.Lift | presentation/main.go:2259-2273 | a patch confined to one part of the deck is patching that part and putting it back |
| Slices.InsertInPlace | presentation/main.go:1991-1995 | growing and shifting up inserts at the place |
| Slices.RemoveInPlace | presentation/main.go:2212-2213 | shifting down removes the place and nothing else |
| Slices.MoveInPlace | presentation/main.go:2146-2149 | the two appends over one array take the slide out and put it back at its new place |
| Slices.ScrubInPlace | presentation/main.go:2296-2304 | filtering over the same array keeps exactly the other entries, in order |
| Slices.NewCells | presentation/main.go:2681-2702 | the grid keeps the old cells that are inside both sizes and is empty elsewhere; it fails exactly when the old grid does not reach a cell its size promises |
| Slices.GrowThenShrink | presentation/main.go:2681-2702 | growing a sheet and shrinking it back loses nothing |
| Agreement.AddSlideAgrees | presentation/main.go:1929-2001 | adding a slide gives the same deck in both modes |
| Agreement.MoveSlideAgrees | presentation/main.go:2092-2152 | moving agrees exactly unless a slide that is not there is moved onto itself |
| Agreement.MoveBack | presentation/main.go:2146-2149 | moving back undoes a move |
| Agreement.MovingNothing | presentation/main.go:2104-2107 | the input on which moving does not agree |
| Agreement.RemoveSlideAgrees | presentation/main.go:2154-2220 | removing a slide agrees, faults and all; the last slide stays |
| Agreement.RebuiltIsScrubbed | presentation/main.go:2261-2270 | the rebuilt reveal list is the scrubbed one exactly when all entries are strings |
| Agreement.RemoveTileAgrees | presentation/main.go:2226-2311 | removing a tile agrees exactly when a reveal list holds only strings, or there is no tile to remove |
| Agreement.ResizeAgrees | presentation/main.go:2660-2767 | resizing agrees exactly when the tile it would resize has its three size keys |
| AgreementEdits.ModifyKeys | presentation/main.go:3791-3941 | the keys to set and to erase never overlap, and no key is erased twice |
| AgreementEdits.ModifyLive | presentation/main.go:3982-4020 | the live deck after modifying a tile: the values set and the keys erased, or the empty-patch fault |
| AgreementEdits.ModifyAgrees | presentation/main.go:3943-4069 | modifying agrees exactly unless the call only erases keys the tile does not have |
| AgreementEdits.OrderDoesNotMatter | presentation/main.go:3997-4005 | the order in which the map of new values is ranged over does not change the result |
| AgreementEdits.ModifyInTab | presentation/main.go:3943-4020 | the tool itself: except for the empty patch it does what disk mode does, faults and all |
| AgreementEdits.ClearingNothing | presentation/main.go:4006-4014 | the input on which modifying does not agree |
| AgreementEdits.AddAnnotationAgrees | presentation/main.go:3178-3335 | adding an annotation agrees exactly when the slide has none or has a list of them |
| AgreementEdits.RemoveAnnotationAgrees | presentation/main.go:3375-3486 | removing an annotation gives the same deck in both modes |
| AgreementEdits.NumberInTheList | presentation/main.go:2261-2270 | the input on which removing a tile does not agree |
| AgreementEdits.SheetWithoutSize | presentation/main.go:2726-2730 | the input on which resizing does not agree |
| AgreementEdits.NullAnnotations | presentation/main.go:3289-3294 | the input on which adding an annotation does not agree |
| DeckChanges.AddedSlide | presentation/main.go:1929-2001 | in either mode the slide is where it was asked to be, at the nearest end if that is off the list, at the end if nothing was asked; the others keep their order |
| DeckChanges.MovedSlide | presentation/main.go:2092-2152 | in either mode the slide is at the place asked for, and without it the slides are in their old order |
| DeckChanges.RemovedSlide | presentation/main.go:2154-2220 | in either mode exactly the slide at that place is gone |
| DeckChanges.SlidesRefusals | presentation/main.go:1929-2220 | disk mode moves and removes exactly what is there, and never removes the last slide |
| DeckChanges.ModifiedTile | presentation/main.go:3791-4069 | in either mode every argument is in its own field of the first tile with that id, what is to be cleared is gone, and nothing else has changed |
| DeckChanges.ModifyAccepts | presentation/main.go:3797-3941 | disk mode modifies exactly a tile that is there with acceptable arguments: coordinates in the unit, text fields for text, a picture for an image |
| DeckChanges.RemovedTile | presentation/main.go:2226-2311 | the first tile with that id is gone from its slide and its id from the reveal list, and nothing else has changed; in tab mode too when the modes agree |
| DeckChanges.WithoutJoins | presentation/main.go:2296-2304 | a list is filtered part by part, so what stays is in its order |
| DeckChanges.WithoutOne | presentation/main.go:2296-2304 | by itself an entry stays unless it reads as the id |
| DeckChanges.ResizedSheet | presentation/main.go:2660-2767 | in either mode the sheet has its new size, the cells inside both sizes are the old ones, the others are empty, and nothing else has changed |
| DeckChanges.AddedAnnotation | presentation/main.go:3178-3335 | the new annotation comes last and nothing else has changed; in tab mode too when the modes agree |
| DeckChanges.RemovedAnnotation | presentation/main.go:3375-3486 | in either mode the annotation is gone, the list with it when it was the only one, its id is gone from the reveal list, and nothing else has changed |
| DeckChanges.EditsAccept | presentation/main.go:2226-2767 | which removals and resizes disk mode accepts |
| SheetsQueue.AllAnswered | sheets/main.go:59-106 | once everything is read and nothing waits, every request was answered exactly once but the forgotten ones, and the served ones in arrival order |
| SheetsQueue.ForgottenExactly | sheets/protocol.go:91-117 | exactly which message is forgotten: a request that is also a cancellation, undecodable or of the waiting call |
| SheetsQueue.ConfusedIsForgotten | sheets/protocol.go:101-103 | a message that is forgotten |
| SheetsWait.WaitEndsForItsOwn | sheets/protocol.go:91-159 | a wait reads on to the first message that ends it: a reply only for the reply with the wanted id, cancelled only by a message that names the very call, failed for what cannot be decoded or the end of the stream |
| SheetsWait.WaitersLeaveExactly | sheets/protocol.go:99-116 | of the requests queued when a wait begins, the first with an id is gone at its end if and only if a message named it meanwhile, and then it has its cancellation |
| Sheets.RpcStream.Strike | sheets/protocol.go:104-115 | a cancellation answers and drops the first queued request it names, and nothing else |
| Sheets.RpcStream.Admit | sheets/protocol.go:117-128 | a request is queued if there is room for it and refused otherwise |
| Sheets.RpcStream.Capability | sheets/protocol.go:80-159 | the wait as a whole is the fold of its messages, each read for the call that waits; within 64 packets and 16 MiB |
| Sheets.RpcStream.Next | sheets/protocol.go:33-48 | the oldest queued request first, else the next one read |
| Sheets.RpcStream.Serve | sheets/main.go:59-107 | while the stream lives every request is answered exactly once but the forgotten ones, and a message is forgotten exactly if it is read during a wait and confused about that wait's call; with no such message every request is answered; the served ones in arrival order |
| Sheets.CapabilityIdsDiffer | sheets/protocol.go:81-82 | no two capability calls ask under the same id |
| Council.OnlyItsOwnReply | council/hostchat.go:194-240 | a call returns only a reply with its own id, and no reply goes to two calls |
| Council.IdsNeverReused | council/hostchat.go:207-210 | no two calls share an id |
| Council.DeliveryNeverBlocks | council/hostchat.go:57-74 | the reader can always deliver what it holds, and never into a closed channel |
| Council.EchoReachesItsCall | council/main.go:335-375 | a reply that repeats a call's id as a string reaches that very call while it is open |
| Council.UnclaimedReplyIsDropped | council/main.go:335-347 | a late or unknown reply touches no call |
| Council.FirstReplyWins | council/hostchat.go:57-74 | of the replies to a call, only the first one delivered while it waits can be what it returns, over every continuation |
| Council.DuplicateIsDropped | council/hostchat.go:64-72 | a second reply changes no call while the first is in the channel, and whenever it comes the first stays the answer, over every continuation |
| Council.EndReleasesEveryone | council/hostchat.go:76-85 | after the end every waiting call can return at once |
| Council.NothingAfterTheEnd | council/hostchat.go:202-206 | after the end no call gets a reply it did not have, and every later one is refused |
| Council.NumbersNeverMatch | council/main.go:361-375 | no number the host writes is taken for the id of a call |
| CouncilHost.StdioChatHost.Register | council/hostchat.go:194-211 | the opening section of an exchange is the protocol's step |
| CouncilHost.StdioChatHost.Deliver | council/hostchat.go:57-74 | delivering is the protocol's take and offer |
| CouncilHost.StdioChatHost.Abandon | council/hostchat.go:212-216 | the deferred removal is the protocol's step |
| CouncilHost.StdioChatHost.Close | council/hostchat.go:77-85 | every channel still waited on is closed, and nothing stays pending |
| Nametag.CellPositions | nametag-maker/layout.go:56-66 | the cells in reading order |
| Nametag.BackIsAnInvolution | nametag-maker/layout.go:70-75 | the back cell is on the sheet, in the same row, and its back cell is the front again |
| Nametag.BackMirrorsFront | nametag-maker/layout.go:68-75 | front and back cell are mirror images about the page's vertical centre line |
| Nametag.CardstockIsCentred | nametag-maker/layout.go:39-54 | the layout is centred on the page, with eight cells |
| Nametag.CellsApart | nametag-maker/layout.go:56-66 | two cells of a sheet do not touch |
| Nametag.CellsOnPage | nametag-maker/layout.go:56-66 | every cell lies on the page within its margins, and the corner cells reach them |
| Nametag.BuildDoc | nametag-maker/layout.go:650-690 | the document is its sheets' pages one after the other: every row is on exactly one front, in order, and every row with a back on one back, behind its own front |
| NametagFace.ShrunkBottom | nametag-maker/layout.go:461-473 | exactly where a shrunk block ends |
| NametagFace.BlockFits | nametag-maker/layout.go:434-476 | every block starts in the room it has and ends at most two points below it |
| NametagFace.CentredBlock | nametag-maker/layout.go:461-476 | a block that fits has as much room above it as below |
| NametagFace.ColumnInside | nametag-maker/layout.go:493-496 | every column lies in the text region, side by side, and has a width exactly when the gaps between the columns leave room |
| NametagFace.TextRegionInside | nametag-maker/layout.go:404-423 | the text region beside an image is inside the room and not empty |
| NametagFace.TextBesideImage | nametag-maker/layout.go:404-423 | image and text share the room, eight points apart, each at its own side; the image is as wide as asked, up to 60% of the room |
| NametagFace.RenderColumn | nametag-maker/layout.go:497-510 | a column's texts are one right under the other, the heading and each line of its own height, and end where the column's height says |
| NametagFace.RenderFace | nametag-maker/layout.go:394-511 | exactly the face's texts are drawn, in order, no two of them overlap, none crosses the cut line, and none is over the side image; every box has a width exactly when the gaps between the columns leave room or no column has a text |
| Oscilloscope.RisingEdges | oscilloscope/capture.go:126-140 | exactly the crossings from below the low threshold to above the high one, in order |
| Oscilloscope.LowBetween | oscilloscope/capture.go:126-140 | between any two crossings there is a low sample |
| Oscilloscope.MeanBelowRms | oscilloscope/capture.go:72-82 | the mean's square is at most the mean square |
| Oscilloscope.MeanBetween | oscilloscope/capture.go:72-81 | the mean is between the extremes |
| Oscilloscope.DutyInside | oscilloscope/capture.go:113-121 | over whole cycles some samples are above the middle and some are not |
| Oscilloscope.CrossingsAreUnique | oscilloscope/capture.go:126-140 | the crossings of a trace are one sequence |
| Oscilloscope.Time | oscilloscope/capture.go:92-122 | timing is reported exactly when it is due, with whole cycles and a duty strictly between 0 and 100 |
| Oscilloscope.Measure | oscilloscope/capture.go:56-123 | the whole measurement of any trace, the empty one too: extremes, mean, mean square, clipping, timing, and a reason flag exactly when there is no timing |

## Left out

- CadRunner.WorkerRunner.Admit: waiting for the reply after admission is a step of the protocol, not part of the method.
- CadRunner.WorkerRunner.ReserveEpoch: what the two contexts report is passed in, because contexts end on their own.
- The pump loop, the recovery goroutine and the registration sections are steps of the protocol rather than methods, because each of them waits for others in the middle.
- Tickets and tasks are records known by their index: two names for one ticket object are not distinguished.
- The bridge to the native worker is what its callers rely on: a successful start gives a generation that is not retired, a successful retirement means it is, and retired generations stay so. A look at such a bit without the mutex may still see the old value when something follows it; where nothing does, the step is the look.
- The epoch is an unbounded number: the wrap-around of 64 bits is not modelled.
- The CAD queue need not be empty after shutdown: the final drain does not hold the mutex, so no such claim is made, and no order is claimed while the pump may be receiving.
- `evaluationEpoch`, the mapping of errors to messages, admission counters of the transport, JSON encoding, logging and tool schemas: single branches or plumbing.
- Frames.Serve: what a dispatched request does is a parameter that says whether it parses and whether it ends serving.
- The words of edge summaries and notification lines; delivery attempts to terminals; the wall clock beyond the journal's seed.
- `holdsNow` and the wake-ups it needs: such a condition may change without an edge, so a look may find it true or not, and wake-ups are claimed for what the journal decides.
- The loop of `runWatch` is a sequence of steps of the state machine, for the same reason as the pump loop.
- Floating-point rounding: measurements and lengths are reals, the root of the mean square is known by its square, and times in samples are not multiplied by the rate.
- Oscilloscope.Measure: the rounding to six decimals; the infinite extremes the program starts from are shown for an empty trace as having no statistics.
- Agreement and AgreementEdits compare the modes on decks, objects with a list of slides; for other documents the two modes look at different things.
- Disk mode's aliasing between a slide and the list that holds it: the functions put the changed slide back, the loops of `Slices` work in place.
- Changes to a tab between reading a node and sending the patch; setting and clearing a slide title; building images, blobs and identifiers; file input and output.
- AgreementEdits.ModifyAgrees: a tile's new picture is an opaque value or the fault of not getting one.
- Sheets.RpcStream.Serve: which capabilities a tool call asks for is a parameter, and closing the stream shows as the end of its input or of its writes.
- Council's session engine and the text of a reply: a call ends with the line or with why there is none.
- NametagFace.RenderFace: a full-image face, placed images and the renderer's own shrinking of a text inside its box.
- `admitRequest`, `panel_transfer.go`, the pin and ring store, notices, releases and archives would only add easy members.
