# qumo, modelled in Dafny

qumo is a Media-over-QUIC relay with an ingest server and an HLS/DASH egress.
This project models the parts of it that are hardest to get right, states what
they promise, and proves it for every input, every run and every interleaving.

## What is modelled

**Credentials of a session** (`internal/relay/admit.go`). `RootHolds.dfy` has one
step per critical section of `rootHolds`, as a function on values and as the class
`Table` that updates its fields in place and is proved equal to those functions.
`RootRuns.dfy` lets any number of tickets begin, be abandoned, register and end in
any interleaving, and keeps the history of who replaced whom. `RootTheorems.dfy`
holds the results, `FunnelTheorems.dfy` those about tickets of funnel actions,
`ClearingTheorems.dfy` which tickets are current from what happened alone.
`HeldGrants.dfy`, `BindingRuns.dfy`, `DeadlineRuns.dfy` and `PendingCount.dfy` do the
same for the key an anonymous session is bound to, for the deadline of a session that
holds no grant (timers are tokens that are armed, stopped, firing or done; a firing callback may
wait for the mutex for any length of time), and for the count of pending sessions.

**Usage reporting** (`internal/auth/usage.go`). `Usage.dfy` gives the step
functions, `UsageReporter.dfy` the class with its maps, its queue and its flush.
`UsageRuns.dfy` splits a flush into its snapshot and one step per batch, whose
outcome is accepted, malformed or unsent, with recordings in between.
`UsageOrder.dfy` and `UsageTheorems.dfy` prove the order and the whereabouts of
records, `UsageBytes.dfy` the conservation of bytes between viewer totals and
session records. `UsageSessions.dfy` has a small automaton for each session, and
`UsageReports.dfy` follows each report.

**Ingest fan-out.** `Notify.dfy` models the broadcast notification of
`internal/ingest/broadcast_notify.go` with every atomic operation a step of its own,
and any number of notifiers and listeners. `TrackRing.dfy` and `TrackRingRuns.dfy`
model the ring of groups, whose head is advanced before the slot is stored, and
`GroupServe.dfy` the serving of one group. `DropRing.dfy` models the relay's ring of dropped ranges against an
unbounded log.

**HLS egress.** `Varint.dfy` and `Frames.dfy` model the stored encoding,
`Loc.dfy` the frames within it, `Package.dfy` the measuring of a group and its packaging into samples,
`Manifest.dfy` the window of a manifest and its numbering, `Timeline.dfy` the feeds,
epochs and media times, `Dash.dfy` the DASH timeline derived from them, `Gate.dfy` the gate
that lets one announcement of a broadcast through at a time.

**RTSP ingest.** `Rtsp.dfy` models the H.264 depacketizer and the AVCC reader of the
integration suite; `RtspTheorems.dfy` relates the two and proves reassembly, and
`RtspSender.dfy` states it all from the sender's side.

In all classes the methods are proved equal to their step functions; those that only
assign a field or two have no row below.

`Prelude.dfy` and `Modular.dfy` hold the shared option and result types and
facts about quotients and remainders.

## What does not hold

Where the code does not do what one might expect, the code is modelled as it is and
a lemma gives the input; another states exactly when the expectation is met.

- The latest begun ticket of a root is the one in force if and only if it has not
  ended (`LatestBegunIsInForce`): a root's state goes with its last ticket, so a slow
  grant that registers after every later one ended is in force
  (`SlowGrantAfterForgetting`). The comment on `rootHolds` says so.
- Which funnel tickets a root keeps may depend on the order of registration, because
  a ticket of no patterns that is replaced when it registers clears nothing. It does
  not if no funnel ticket began before one of no patterns, or if the latest of the
  others has no patterns (`FunnelOrderIsImmaterial`); in every other case there are
  two orders that differ (`FunnelDependsOnOrder`). The ticket in force does not depend
  on the order (`OrderOfRegistrationIsImmaterial`).
- A session may be refused as one too many while there is room, if another refusal
  has not been taken back yet (`RefusedWithRoom`); `NeverOverLimit` has the condition.
- The last frame of a group may never be sent to a subscriber
  (`LastFrameCanBeMissed`), exactly if it was appended after the subscriber last
  looked for a frame (`ServedIsPrefix`), so never if it looks once more after the group
  was completed (`LookAfterCompletion`).
- A group may be stored that cannot be packaged (`StoredButNotPackaged`), exactly if
  two of its frames are more than ten seconds apart (`StoredThenPackaged`). The
  comment on `storedGroup` suggests that what it accepts can be packaged.
- A playlist marked EVENT may lose segments (`EventMayShrink`), because the mark
  depends on the window of groups alone and the egress also keeps to one lifetime.
  It lists everything exactly while there are no more lifetimes than allowed
  (`EventListsAll`), and keeps what it listed exactly as long as that holds of what it
  lists (`EventOnlyGrows`).
- An append that reports failure although the ledger committed the group counts for
  nothing, so the next group is placed where that one is, and a feed with only such
  groups shares its epoch with the next feed (`EpochOfTwoFeeds`). An epoch's times are
  right exactly if no such group is followed by another (`OneFeedPerEpochAlways`), as
  with a ledger that does no such thing (`TruthfulLedgerIsWellTimed`).
- A discontinuity at the first listed segment is not shown if what precedes it has
  epoch zero; numbers are exact otherwise (`NumbersAreTheLogs`). The feeds never
  commit to epoch zero (`OneFeedPerEpochAlways`).
- A LOC timestamp of 2^62 or more loses its top two bits (`LocRoundTrip`).

## Model

| member | source | states |
|---|---|---|
| `RootTheorems.TableIsWhatIsInForce` | internal/relay/admit.go:176-279 | At every point of every run a root's kept tickets are exactly those registered, not superseded and not released; no root is kept with none; every kept funnel ticket began after the last clearing |
| `RootTheorems.SupersededByLater` | internal/relay/admit.go:208-263 | In every run a superseded ticket was superseded by a registered ticket for the same root begun later, not of funnel actions alone; a funnel ticket only by one of no patterns |
| `RootTheorems.LatestBegunIsInForce` | internal/relay/admit.go:200-278 | In every run, whatever order grants finish in and whatever ended meanwhile, the latest begun of a root's registered non-funnel tickets is the one in force if and only if it has not been released itself; it is never superseded |
| `RootTheorems.OrderOfRegistrationIsImmaterial` | internal/relay/admit.go:218-263 | Two runs that registered the same non-funnel tickets of a root in different orders agree on its ticket in force while the latest begun has not been released |
| `RootTheorems.StaleNeverCurrent` | internal/relay/admit.go:200-210 | A ticket that `replaced` reported stale stays so, and is not current if it registers, over any further run in which whatever was released for its root had been superseded |
| `ClearingTheorems.CurrentExactlyWhen` | internal/relay/admit.go:200-263 | In every run a ticket being granted is current when it registers if and only if no later non-funnel ticket is in force for its root, unless it is a funnel ticket, and its root was not cleared by a later no-pattern ticket since the root was last without any, that ticket released or not; `replaced` says the same beforehand; a ticket of no root is always current |
| `ClearingTheorems.NarrowedToNothing` | internal/relay/admit.go:239-278 | Once a no-pattern ticket was current, no ticket of its root begun before it is current when it registers, whatever was released, as long as the root was never without a ticket in force |
| `ClearingTheorems.RunCleared` | internal/relay/admit.go:208-278 | How far a root is cleared at the end of every run is what its history says: up to the latest no-pattern ticket that was current since the root was last without a ticket in force |
| `RootTheorems.Retirement` | internal/relay/admit.go:176-196 | In every run `retiring` is the number of connection-root tickets in flight; a presentation is accepted exactly while none is in flight and none was granted; those held are the accepted ones neither ended nor withdrawn; if all were abandoned nothing is retired |
| `RootTheorems.GrantWithdrawsPresentations` | internal/relay/admit.go:230-237 | A granted ticket for the connection's root withdraws every presentation held |
| `RootTheorems.RetiredForGood` | internal/relay/admit.go:287-300 | From then on no presentation is accepted or held in any run |
| `RootTheorems.SlowGrantAfterForgetting` | internal/relay/admit.go:264-278 | For every root and any two non-funnel roles, a run from the start in which a ticket found replaced is in force although a later one was granted, that one having been released |
| `FunnelTheorems.FunnelDependsOnOrder` | internal/relay/admit.go:239-260 | Whenever some run registered a funnel ticket begun before a no-pattern ticket and the latest non-funnel ticket has patterns, the same tickets registered in two other orders, none released, leave the same root ticket and different funnel tickets |
| `FunnelTheorems.FunnelOrderIsImmaterial` | internal/relay/admit.go:239-260 | In every other case, that is if no funnel ticket began before a no-pattern one or the latest non-funnel ticket has no patterns, two runs that registered the same tickets in any orders keep the same funnel tickets |
| `FunnelTheorems.FunnelUncleared` | internal/relay/admit.go:239-260 | With no funnel ticket begun before a no-pattern one, a root keeps every funnel ticket registered and not released |
| `FunnelTheorems.FunnelAfterClearing` | internal/relay/admit.go:250-261 | With the latest ticket a no-pattern one in force, a root keeps exactly the funnel tickets begun after it and not released |
| `FunnelTheorems.FunnelSinceClearing` | internal/relay/admit.go:208-263 | While only superseded tickets of a root were released, its funnel tickets are exactly the registered ones begun after its last clearing |
| `RootRuns.ApplyInv` | internal/relay/admit.go:176-300 | Every step keeps the invariant that ties the table, the numbering, the history of replacements and the retirement together |
| `RootHolds.Table.RegisterTicket` | internal/relay/admit.go:218-263 | The new state, whether the ticket is current, and exactly whom it withdraws are those of the step `Register` |
| `RootHolds.Table.Install` | internal/relay/admit.go:246-262 | A ticket nothing replaced joins the funnel tickets or takes the root's place, withdrawing exactly those it ousts |
| `RootHolds.Table.WithdrawConns` | internal/relay/admit.go:233-236 | The loop over the presentations withdraws all of them and leaves none |
| `RootHolds.Table.ClearFunnel` | internal/relay/admit.go:253-260 | The loop over the funnel tickets withdraws exactly those begun before the ticket, and keeps the others |
| `RootHolds.Table.ReleaseTicket` | internal/relay/admit.go:264-278 | The new state is that of the step `Release`: the ticket is gone, the root with its last ticket, and a root that stays keeps its last clearing |
| `BindingRuns.OneKey` | internal/relay/admit.go:348-393 | In every run all tickets granted or in flight on a session have one key; the key is empty exactly when none is in flight and none was ever granted |
| `BindingRuns.OpenedOnceAndFirst` | internal/relay/admit.go:380-393 | In every run usage is opened once, by the first grant and before any change to publisher; the session is a publisher exactly when some granted ticket publishes |
| `DeadlineRuns.ExpiresOnlyUnheld` | internal/relay/admit.go:449-467 | In every run the session is closed at most once per watch, and only from a timer since whose arming no grant was held, however long its callback waited for the mutex |
| `DeadlineRuns.ClosesExactlyWhen` | internal/relay/admit.go:449-467 | In every run the callback of a timer that fired closes the session, and records why, if and only if no timer was started since, no grant is held and the session is watched |
| `DeadlineRuns.WatchedUntilClosed` | internal/relay/admit.go:438-480 | A watch takes effect at once, and ends only by being ended or by closing the session |
| `DeadlineRuns.DeadlineAlwaysArmed` | internal/relay/admit.go:413-480 | In every run, while watched with no grant held, the timer started last runs; a timer that is armed is that one; the object's own fields agree with that history |
| `DeadlineRuns.PendingLeftOnce` | internal/relay/admit.go:397-410 | A session leaves the pending count at most once for each time it was counted, and is in it exactly if it did not leave |
| `PendingCount.NeverOverLimit` | internal/relay/admit.go:627-633 | However reservations interleave no more than the limit are pending, the counter is exact with no refusal half done, and a session is admitted exactly when pending and half refused ones together are below the limit |
| `PendingCount.RefusedWithRoom` | internal/relay/admit.go:627-633 | A run in which a session is refused while none is pending |
| `HeldGrants.Grants.BeginTicket` | internal/relay/admit.go:348-361 | The answer and the new binding are those of the step `BeginKey`; the deadline is untouched |
| `HeldGrants.Grants.SettleGranted` | internal/relay/admit.go:380-393 | The new binding and the calls made are those of the step `Grant` |
| `HeldGrants.Grants.TimerCallback` | internal/relay/admit.go:454-465 | The callback closes the session exactly if its timer is current, nothing is held and the session is watched, and only then is the watch over and the reason recorded |
| `UsageTheorems.DeliveredInOrder` | internal/auth/usage.go:309-408 | Over every run of recordings and flushes, the accepted records of a session come open, usage, close, at most one open and one close, totals never decreasing; a key's viewer totals never decrease |
| `UsageTheorems.EveryEventAccountedFor` | internal/auth/usage.go:222-228 | Every open and close recorded is accepted, refused, being sent, pending or dropped by the cap, each exactly once; the backlog never exceeds the cap |
| `UsageTheorems.DropsOnlyPastCap` | internal/auth/usage.go:222-228 | A recording that drops anything drops the oldest and leaves the queue full; what is dropped, followed by what is kept, is what was queued and what was recorded |
| `UsageTheorems.PutBackInFront` | internal/auth/usage.go:384-408 | The same of a failed flush, which puts its opens and closes before what was recorded since |
| `UsageTheorems.SettledWasSent` | internal/auth/usage.go:367-378 | A viewer total counts as settled only if a record of exactly that total, in each direction up to an int64, was sent and answered; every other total is in the next snapshot |
| `UsageTheorems.AnsweredIsSettled` | internal/auth/usage.go:367-378 | In every run an answered batch settles each viewer total it carried if and only if that has not changed since it was taken, and leaves all others as they were |
| `UsageTheorems.SettledUntilItGrows` | internal/auth/usage.go:193-208 | Whatever is recorded, totals never decrease and a settled one stays settled until it grows |
| `UsageTheorems.SnapshotTakesEverything` | internal/auth/usage.go:309-341 | A flush takes every open and close, every report, and a record of every unsettled total as it stands in each direction |
| `UsageOrder.RequeueKeeps` | internal/auth/usage.go:384-408 | What a failed flush puts back, with what was recorded meanwhile, is again in an order the receiver may see |
| `UsageOrder.SnapshotKeeps` | internal/auth/usage.go:309-341 | What a flush lays out, opens, usage, viewer totals, closes, is in order and after all that was accepted |
| `UsageSessions.SessionIsItsHistory` | internal/auth/usage.go:113-188 | In every run what the reporter holds of a session, its key, role, last sign of life and counted bytes, whether it is known and whether it ended, is what that session's own events make of it, forgotten after five minutes of silence; no report waits of a publisher that ended |
| `UsageSessions.RecordedExactly` | internal/auth/usage.go:113-188 | In every run each event records exactly the open or close the session's history asks for, a close carrying in each direction what the session moved beyond its viewer's share |
| `UsageReports.UsageCarriesAReport` | internal/auth/usage.go:146-165 | In every run each usage record sent, being sent or waiting is of a report of its session and carries in each direction the bytes reported beyond the share |
| `UsageReports.NewestReportIsNeverLost` | internal/auth/usage.go:309-408 | In every run the newest report of a live publisher that moved anything of its own waits, is being sent, or was answered, whatever failed meanwhile |
| `UsageBytes.ClosedSessionConserved` | internal/auth/usage.go:113-208 | For any order of revalidate, publishing and close with non-decreasing reports, a closed session's share of its key's viewer total plus its own bytes is its final bytes in each direction, and its close record, if it published, carries exactly final less share in each direction, up to an int64 |
| `UsageBytes.TotalIsSumOfShares` | internal/auth/usage.go:193-208 | In every run each viewer total is the sum of its sessions' shares, ended and forgotten ones included |
| `UsageBytes.ShareAndRest` | internal/auth/usage.go:439-442 | What was counted plus what moved since is the larger of the two, and exactly the bytes if and only if they cover what was counted |
| `UsageReporter.UsageReporter.Open` | internal/auth/usage.go:113-124 | The new state is that of the step `Opened`; an id already closed is not opened |
| `UsageReporter.UsageReporter.Publishing` | internal/auth/usage.go:131-141 | The new state is that of the step `Published` |
| `UsageReporter.UsageReporter.Revalidate` | internal/auth/usage.go:146-165 | The new state is that of the step `Revalidated` |
| `UsageReporter.UsageReporter.Close` | internal/auth/usage.go:169-188 | The new state is that of the step `Closed`, and the answer is whether the session was known |
| `UsageReporter.UsageReporter.CountViewer` | internal/auth/usage.go:193-208 | The key's total grows by what moved since the session was last counted; the session counts the larger in each direction |
| `UsageReporter.UsageReporter.AppendEvent` | internal/auth/usage.go:222-228 | The queue grows by the record and loses its oldest past the cap |
| `UsageReporter.UsageReporter.ForgetStale` | internal/auth/usage.go:283-297 | Exactly the sessions and closed ids not heard of for five minutes are forgotten |
| `UsageReporter.UsageReporter.Snapshot` | internal/auth/usage.go:309-341 | All that is pending and every unsettled total is taken, each once, in the order opens, usage, viewer totals, closes, for any order the maps are walked in |
| `UsageReporter.UsageReporter.Flush` | internal/auth/usage.go:309-363 | For every outcome of every batch and whatever is recorded before each answer is taken in, the loop over the batches leaves what `Flushed` says, and the answer is whether all were answered |
| `UsageTheorems.FlushIsARun` | internal/auth/usage.go:309-363 | The events of a flush, recordings in between included, lead to what `Flushed` says and leave nothing in flight, so all that holds of every run holds of the method |
| `UsageTheorems.QuietFlush` | internal/auth/usage.go:346-361 | With nothing recorded in between every flush is such a run; answered throughout, it loses nothing and every record was sent |
| `UsageReporter.UsageReporter.ChangedTotals` | internal/auth/usage.go:318-327 | The totals taken are exactly those that changed since they were reported or never were |
| `UsageReporter.UsageReporter.Acknowledge` | internal/auth/usage.go:367-378 | Exactly the viewers the batch names count as reported, at the totals taken with the snapshot |
| `UsageReporter.UsageReporter.Requeue` | internal/auth/usage.go:384-408 | Unsent opens and closes go before anything recorded since, up to the cap; unsent usage returns only for a live session with no newer report |
| `UsageReporter.Reports` | internal/auth/usage.go:309-341 | Walking the latest reports in any order gives each once |
| `UsageReporter.Pick` | internal/auth/usage.go:309-341 | The picked records are exactly those of the kind, in order |
| `Notify.NoLostWakeup` | internal/ingest/broadcast_notify.go:84-144 | In every interleaving of any number of notifiers and listeners, once a notify that advanced the sequence past what a parked listener compared with has returned, the listener's channel is closed |
| `Notify.TimerNotNeeded` | internal/ingest/handler.go:483-556 | With no push or notify under way, a listener parked while there is data it has not seen is parked on a closed channel |
| `Notify.UpToDateListenerParks` | internal/ingest/handler.go:483-556 | In every run a listener that is up to date looks for data once and parks, with no step of its own left until its channel is closed |
| `Notify.EachChannelClosedOnce` | internal/ingest/broadcast_notify.go:84-105 | No channel is closed twice, the current one is open, and every swapped-out one is closed once its notifier has left the mutex |
| `Notify.FastPathOnlyUnheard` | internal/ingest/broadcast_notify.go:84-126 | The listener count is zero exactly when nobody is registered |
| `Notify.WaitStepN` | internal/ingest/broadcast_notify.go:84-105 | Every step of a notifier keeps it true that each advance past a registered waiter's sequence has closed its channel, or will before it returns |
| `TrackRingRuns.ServedInOrder` | internal/ingest/handler.go:367-443 | For every interleaving of advance and store with a subscriber's reads, it is served strictly increasing stored sequences, each the next one after the last or after where it joined, except after a recorded skip of that next one; and only a group at least a ring behind the head is ever skipped |
| `TrackRingRuns.ServedExactlyWhenHeld` | internal/ingest/handler.go:409-443 | A subscriber reading a slot is served exactly if its group is stored and less than a ring old; otherwise the open of that very group is half done or it was lapped |
| `TrackRingRuns.BehindGetsAGroup` | internal/ingest/handler.go:424-443 | Behind, with no open half done, a subscriber gets the next group, or the newest if and only if the next has left the ring, with exactly that skip recorded |
| `TrackRingRuns.NewcomerGetsTheNewest` | internal/ingest/handler.go:449-469 | A new subscriber's first group is the newest, with no open half done |
| `TrackRing.StoreKeeps` | internal/ingest/handler.go:367-375 | Storing the next group keeps every slot holding the newest sequence that maps to it |
| `TrackRing.SlotHolds` | internal/ingest/handler.go:409-415 | A slot holds its asker's group exactly if that was stored and is less than a ring old |
| `TrackRing.TrackBuffer.OpenGroup` | internal/ingest/handler.go:367-375 | The new group has the next sequence and is in the ring |
| `TrackRing.TrackBuffer.EarliestAvailable` | internal/ingest/handler.go:395-401 | The groups from the result on are exactly those in the ring |
| `TrackRing.TrackBuffer.Get` | internal/ingest/handler.go:409-415 | The group asked for, and never another's, exactly if it is in the ring |
| `TrackRing.TrackBuffer.Next` | internal/ingest/handler.go:424-443 | Undisturbed, the next group if it is in the ring, else the newest, with the skip reported exactly then |
| `GroupServe.ServedIsPrefix` | internal/ingest/handler.go:516-543 | In every interleaving what is sent of a group is a prefix of it; a subscriber that is done was sent all of it if and only if no frame was appended after it last looked for one |
| `GroupServe.LookAfterCompletion` | internal/ingest/handler.go:516-543 | A subscriber that looks for a frame at least once after the group was completed, and is then done, was sent all of it |
| `GroupServe.LastFrameCanBeMissed` | internal/ingest/handler.go:516-530 | Wherever a subscriber has found no frame left of an open group, a frame appended and completed before it looks for completion is never sent |
| `DropRing.ReaderGetsSubsequence` | internal/relay/drop_distributor.go:38-88 | Across any run of records and reads a reader gets the log at strictly increasing positions, and returned plus lost is what it advanced |
| `DropRing.LostExactlyWhenOverwritten` | internal/relay/drop_distributor.go:38-88 | Over any run, of the positions a reader passed it got exactly those at most a ring behind the head at the read that passed them |
| `DropRing.OnlyOverwrittenAreLost` | internal/relay/drop_distributor.go:66-88 | A read loses exactly the drops more than a ring behind the head |
| `DropRing.OldestLosesNone` | internal/relay/drop_distributor.go:55-61 | A read loses none exactly if it starts no earlier than the oldest |
| `DropRing.Distributor.Record` | internal/relay/drop_distributor.go:38-45 | The log grows by the drop, and the ring still holds its newest part |
| `DropRing.Distributor.Oldest` | internal/relay/drop_distributor.go:55-61 | The least position from which a read loses nothing |
| `DropRing.Distributor.ReadSince` | internal/relay/drop_distributor.go:66-88 | Appended drops, new position and loss are those of a read of the unbounded log |
| `DropRing.Distributor.CopyFrom` | internal/relay/drop_distributor.go:82-87 | The copying loop appends exactly the log from the start position on |
| `Varint.DecodeEncode` | internal/hls/frame.go:136-165 | Reading what was written, followed by anything, gives its low 62 bits and its length; exactly it if and only if it fits a varint (section 16 of RFC 9000) |
| `Varint.EncodesShortest` | internal/hls/frame.go:136-148 | Of all bytes that read as a value, those written for it are the fewest |
| `Varint.DecodeBound` | internal/hls/frame.go:152-165 | No value read exceeds 2^62 - 1 |
| `Varint.Read` | internal/hls/frame.go:152-165 | On any bytes the loop stays in bounds and gives the value at the front, or 0 bytes when they are too few |
| `Frames.ZigZagInverse` | internal/hls/frame.go:115-118 | The two are inverse over all 64-bit values |
| `Frames.AddDeltaExact` | internal/hls/frame.go:122-132 | The check on the wrapped sum is the exact mathematical range check |
| `Frames.EncodeFrames` | internal/hls/frame.go:53-74 | The loop computes the encoding of the frames, each by its delta to the one before, or an error |
| `Frames.EncodesExactlyWhenFits` | internal/hls/frame.go:53-74 | Encoding succeeds if and only if every frame fits after the one before it |
| `Frames.FitsMeans` | internal/hls/frame.go:53-74 | A frame fits if and only if its timestamp is in the int64 timeline and within 2^61 of the one before, as far as a zigzag varint reaches |
| `Frames.RoundTrip` | internal/hls/frame.go:53-111 | Whenever encoding succeeds, decoding yields exactly those frames and no error |
| `Frames.ReadsOn` | internal/hls/frame.go:78-111 | Decoding what was encoded, followed by any bytes, yields exactly those frames and then what the rest decodes to from there |
| `Frames.CutPayload` | internal/hls/frame.go:78-111 | A payload cut off within a frame yields all frames before it and then the fault |
| `Frames.FirstExact` | internal/hls/frame.go:78-132 | Any delta before any body is decoded to the frame it leads to, or is a fault if that is outside the timeline |
| `Frames.AcceptedCanBeRewritten` | internal/hls/frame.go:53-111 | Every payload decoded without error can be encoded again and decodes to the same frames |
| `Frames.ReadFrame` | internal/hls/frame.go:82-108 | One turn of the loop reads the first frame of any bytes, within bounds, or reports the fault |
| `Frames.AllFrames` | internal/hls/frame.go:78-111 | On any bytes the loop ends and yields the frames before a fault, all with timestamps in the int64 timeline |
| `Loc.LocRoundTrip` | internal/cmaf/loc.go:16-89 | Decoding what was encoded, whatever follows, gives the timestamp's low 62 bits and the picture; exactly the timestamp if and only if it fits a varint |
| `Loc.CutLoc` | internal/cmaf/loc.go:16-33 | A LOC frame cut short anywhere is an error |
| `Package.StoredThenPackaged` | internal/hls/stream_handler.go:264-292 | Every stored group is decoded and packaged without error if and only if no gap exceeds ten seconds, and then its samples are positive, abut from MediaTime, and sum to exactly the recorded duration, one per frame with its picture |
| `Package.StoredButNotPackaged` | internal/hls/feed.go:1005-1012 | A stored group that cannot be packaged |
| `Package.StoredExactlyWhen` | internal/hls/feed.go:993-1018 | A group is stored if and only if it has two or more frames, all LOC, with advancing timestamps, that fit the encoding |
| `Package.StoredMeasure` | internal/hls/feed.go:1011-1018 | A stored group's duration is the span of its LOC timestamps plus that divided by the number of gaps, converted to 32 bits |
| `Package.StoredLasts` | internal/hls/feed.go:993-1018 | Every stored group has a positive duration that fits an int64 |
| `Package.SamplesCover` | internal/cmaf/cmaf.go:124-165 | Samples of advancing timestamps are positive, abut, and sum to the span plus the last duration |
| `Package.MeanWithinBound` | internal/hls/feed.go:1012-1013 | With no gap beyond ten seconds the mean interval is positive and within the bound, untouched by the 32-bit conversion |
| `Package.StoredGroup` | internal/hls/feed.go:993-1018 | The loop accepts exactly two or more LOC frames with advancing timestamps that can be encoded, and measures their span plus the mean interval |
| `Package.FrameGaps` | internal/cmaf/cmaf.go:182-199 | The gaps, or an error exactly if one is not positive or beyond ten seconds |
| `Package.GapMeans` | internal/cmaf/cmaf.go:182-199 | A gap is accepted if and only if it is positive and at most ten million microseconds |
| `Package.PackFragment` | internal/cmaf/cmaf.go:124-165 | The running totals give each sample the decode time its timestamp is from the first, or an error exactly as stated |
| `Package.FragmentGroup` | internal/hls/stream_handler.go:264-292 | The stored group decoded and packaged with what of its duration its timestamps do not span as the last sample's |
| `Manifest.Gather` | internal/hls/stream_handler.go:325-394 | Exactly the longest suffix of the log that keeps to both limits, with exactly the counts of the prefix left out |
| `Manifest.Walk` | internal/hls/stream_handler.go:325-380 | The ring unrolled is the newest `window` entries in commit order, with the counts of those before them |
| `Manifest.EpochsToDrop` | internal/hls/stream_handler.go:404-424 | The least number of leading entries to drop so that the rest shows at most `epochWindow` lifetimes |
| `Manifest.EvictLeading` | internal/hls/stream_handler.go:384-393 | Dropping leading entries leaves the rest and the counts of the longer prefix |
| `Manifest.EvictNext` | internal/hls/stream_handler.go:439-445 | Evicting the next entry turns the counts of a prefix into those of the prefix one longer |
| `Manifest.RenderHls` | internal/hls/playlist.go:53-101 | An error exactly if some group does not last; otherwise the groups in order, tagged exactly where the epoch changes, and EVENT exactly if no window of groups is set |
| `Manifest.NumbersAreTheLogs` | internal/hls/playlist.go:70-98 | A listed segment's media number is its place in the whole log, and its discontinuity number the epoch changes up to it, the latter if and only if no reset after epoch zero was cut off (sections 4.3.3.2 and 4.3.3.3 of RFC 8216) |
| `Manifest.WindowNeverMovesBack` | internal/hls/stream_handler.go:384-457 | As the log grows the first listed index never moves back |
| `Manifest.NumbersAreStable` | internal/hls/stream_handler.go:384-457 | A segment listed in two manifests of a growing log has the same media sequence and discontinuity numbers in both (section 6.2.2 of RFC 8216), epochs being non-zero |
| `Manifest.EventListsAll` | internal/hls/stream_handler.go:449-457 | With no window of groups the whole log is listed if and only if it shows no more lifetimes than allowed |
| `Manifest.EventOnlyGrows` | internal/hls/stream_handler.go:449-457 | As the log grows, a playlist marked EVENT keeps its media sequence and all its segments if and only if what it lists by then shows no more lifetimes than allowed |
| `Manifest.EventMayShrink` | internal/hls/stream_handler.go:449-457 | With one lifetime allowed a playlist marked EVENT drops what it listed |
| `Timeline.OneFeedPerEpochAlways` | internal/hls/feed.go:513-551 | Over every run of announcements and feeds with subscribes, appends and new epochs failing in any way, each epoch starts at media time zero and its groups abut if and only if no group that was committed by an append reporting failure is followed by another in its epoch; then no epoch holds groups of two feeds; none is epoch zero |
| `Timeline.TruthfulLedgerIsWellTimed` | internal/hls/feed.go:513-551 | So it is whenever no append that reports failure commits |
| `Timeline.EpochOfTwoFeeds` | internal/hls/feed.go:806-817 | A run in which one does, and an epoch holds groups of two feeds at the same media time |
| `Timeline.EverythingIsCommitted` | internal/hls/feed.go:513-551 | Over every run of announcements the ledger holds, each once and in order, exactly what arrived in the rounds that were run, could be measured and was not refused, each feed numbered in turn |
| `Timeline.FedIsWhatArrived` | internal/hls/feed.go:869-950 | What a feed commits corresponds one to one and in order to what arrived, could be measured and was not refused: with the measured duration, at the sum of the durations the feed was told of before, its wall clock less its media offset the clock of the first measured arrival |
| `Timeline.SilentFeedsOpenNone` | internal/hls/feed.go:513-551 | Feeds that commit nothing they are told of open no epoch |
| `Timeline.ClosedOnReturn` | internal/hls/feed.go:513-528 | When feeding a track is over and the last close works, the current epoch holds no group a feed was told of |
| `Timeline.SameEpoch` | internal/hls/feed.go:869-950 | Epochs never decrease, and groups of one epoch share feed and anchor |
| `Timeline.MediaOffsetExact` | internal/hls/dash.go:121-130 | The conversion split into seconds and remainder is the exact one, rounded toward zero, for any media time |
| `Timeline.RemainderFits` | internal/hls/dash.go:121-130 | The remainder's product fits an int64 for any 32-bit timescale |
| `Timeline.Track.FeedMedia` | internal/hls/feed.go:869-950 | The committed groups are those measured and taken, at the running sum of the durations the feed was told of, anchored at the clock of the first; the count returned is of those it was told of |
| `Timeline.Track.FeedAnnounced` | internal/hls/feed.go:513-551 | The rounds leave what `AfterRounds` says: a new epoch after every feed that committed, or no more feeds |
| `Timeline.Track.Announce` | internal/hls/feed.go:426-495 | A track that exists is adopted in a new epoch or not at all, then fed |
| `Dash.ImpliedIsStored` | internal/hls/dash.go:72-82 | The times a SegmentTimeline implies are the stored ones if and only if groups abut within each epoch |
| `Dash.TimelineIsTheLedgers` | internal/hls/dash.go:72-82 | For any window of a log the feeds produced, the implied times are the stored ones |
| `Dash.RenderTimeline` | internal/hls/dash.go:21-82 | An error exactly if some group does not last; otherwise a start is stated for the first entry and at each new epoch, and every duration |
| `Dash.TimelineStates` | internal/hls/dash.go:72-82 | Every entry states its group's duration, and its start exactly if it is the first or its epoch is new |
| `Dash.AvailabilityStart` | internal/hls/dash.go:107-116 | None exactly if no group has a wall clock; otherwise that of the first which has, less its media offset |
| `Dash.AnyGroupYieldsTheAnchor` | internal/hls/feed.go:1041-1051 | Every group of an epoch yields the same availability start, the wall clock its feed was anchored at |
| `Gate.OneHolder` | internal/hls/feed.go:335-369 | In every run at most one handler holds a broadcast, and one that waits waits on a holder or on a channel already closed |
| `Gate.AcquiredExactlyWhenFree` | internal/hls/feed.go:346-369 | In every run a handler that tries gets the broadcast if and only if no handler holds it |
| `Gate.ReleaseWakesWaiters` | internal/hls/feed.go:352-358 | A release frees the broadcast and wakes every handler that waits for it |
| `RtspTheorems.NothingLostOrReordered` | internal/ingest/rtsp.go:367-465 | Over any packets the units of the samples pushed plus those still open are, in order, exactly those extracted; each sample's units completed under one timestamp, none empty; the AVCC reader's verdict on each sample is the flag pushed |
| `RtspSender.SentIsExtracted` | internal/ingest/rtsp.go:401-515 | Whatever units are sent, each singly, aggregated or fragmented within the cap, and whatever was in flight before, exactly those units are extracted, in order |
| `RtspSender.SentIsDelivered` | internal/ingest/rtsp.go:367-515 | For any timestamps and markers, the units of the samples pushed followed by those still open are exactly the units sent, in order |
| `RtspSender.AccessUnitsBecomeSamples` | internal/ingest/rtsp.go:321-526 | Access units sent with their last packet marked become samples one for one: their units read back exactly, the key flag says whether one is an IDR slice, and the time is in microseconds of the 90 kHz clock from the first |
| `RtspSender.AvccRoundTrip` | internal/ingest/rtsp.go:520-526 | The units of a sample are read back from its AVCC form as they were |
| `RtspTheorems.KeyVerdict` | internal/integration/media.go:62-75 | The reader's verdict on the AVCC form of any units, up to the first malformed one, is whether one is an IDR slice |
| `RtspTheorems.FragmentsRebuilt` | internal/ingest/rtsp.go:485-515 | Any FU-A fragmentation of a unit is rebuilt exactly if and only if it is within the cap, whatever was in flight before (section 5.8 of RFC 6184) |
| `RtspTheorems.AggregateSplit` | internal/ingest/rtsp.go:420-432 | Units aggregated into a STAP-A packet come out as they went in, up to the first truncated or empty entry |
| `RtspTheorems.ExtractProper` | internal/ingest/rtsp.go:401-415 | No unit extracted from any packet is empty, and none in flight exceeds the cap |
| `Rtsp.Depacketizer.HandleVideoRtp` | internal/ingest/rtsp.go:367-389 | New state and samples pushed are those of the step `Handle` |
| `Rtsp.Depacketizer.ExtractNalus` | internal/ingest/rtsp.go:401-415 | The units and the unit in flight are those of `Extract` |
| `Rtsp.Depacketizer.ReassembleFu` | internal/ingest/rtsp.go:485-515 | The unit completed and the unit in flight are those of `Fragment` |
| `Rtsp.Depacketizer.FlushAccessUnit` | internal/ingest/rtsp.go:445-465 | The open units become one sample, unless there is none, with the time from the first sample's |
| `Rtsp.Assemble` | internal/ingest/rtsp.go:445-465 | The concatenating loop gives the AVCC form and whether one unit is an IDR slice |
| `Rtsp.ParseStapA` | internal/ingest/rtsp.go:420-432 | The loop gives the entries up to the first truncated or empty one |
| `Rtsp.IsAvccKeyframe` | internal/integration/media.go:62-75 | The loop over any bytes gives whether a unit before the first malformed one is an IDR slice |

## Left out

- The wire, signatures and key sets: applying a grant, subscribing, appending to the ledger and opening an epoch are steps with a success flag.
- Time: timers are tokens, clocks are parameters, goroutines are interleaved steps.
- The role of a ticket is given when it begins; that it follows from which patterns the ticket grants is a plain three-way case.
- The bound of 33 credentials per session, grant expiry and revalidation: they only add more releases at any time, which the runs allow already.
- HTTP, JSON and record timestamps of usage reports: a send is an outcome, and a send with the critical section after it is one step, since nothing depends on when within it the send happened.
- UsageBytes.ClosedSessionConserved: session ids are opened once (they are random) and a session's reports never decrease; both are conditions on the run, as the source relies on them.
- UsageReporter.UsageReporter.CountViewer: byte counts and totals do not wrap at 64 bits.
- Usage records are clamped to an int64 when written, which the model does; conservation is of the amounts before the clamp.
- Sequence numbers and ring positions do not wrap at 64 bits.
- The lazy creation of the first channel of a notification: the model starts with one.
- The relay's own broadcast notification publishes sequence and channel as one atomic value, an easier case of the one modelled.
- Frames.RoundTrip: bodies are shorter than 2^62 bytes, which every slice is.
- RtspTheorems.NothingLostOrReordered: packets are shorter than 2^32 bytes; an interleaved frame carries at most 65535.
- RtspSender.AccessUnitsBecomeSamples: units are shorter than 2^32 bytes, as the length in a sample has four bytes.
- Negative presentation times and the wrap-around of RTP timestamps, which the encodings do not carry.
- Manifest.NumbersAreStable: epochs are non-zero, since zero stands for nothing preceding.
- Manifest text, float formatting, MP4 boxes and codec descriptors: a manifest is a sequence of tagged entries, a fragment a sequence of samples.
- Shifts and masks are written as the division and remainder they are.
- The grouping of video frames by `videoTrack.push`, the audio depacketizer, the reporting of drops and the SPS reader of the FLV ingest.
- Tokens and path confinement, GeoDNS, configuration, command wiring, load generation and the playground: no property over runs.
