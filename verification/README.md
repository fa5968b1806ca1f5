# Verified model of binderbinder

binderbinder is a userspace library for the Linux binder driver. This project
models its four hard parts in Dafny and proves what they are for:

1. **Reference counts of local objects.** `RefState`, `PublishOrder`,
   `StrongRefs`, `PrematureZero`, `SendAccount`, `Registry`, `Device`, `Lifecycle`
   and `Service`. Each
   object has `local`, `remote` and `pending` counts under a lock, with their
   total published to a level-triggered watch. Guards, outgoing sends that mark
   and may roll back, and looper threads drive them concurrently. `StrongRefs`
   has one object, any number of sends and loopers, and the driver as an explicit
   environment. `Lifecycle` has all objects with their guards and service mode,
   one table access per step. `Service` runs both together on one object and states what
   the counts are for.
2. **Proxies of remote handles.** `HandleTables` interleaves the statements of
   creation and of the drop bodies of any number of threads and keeps the command
   trace; `Cookies` follows each death-notification cookie and each reference
   through its runs; `HandleDevice` has the same bodies as uninterrupted methods
   over objects.
3. **Payloads.** `Sys` (words and records), `Layout` (bytes, padding, records and
   the offset table), `Payload` (builder and reader with its two cursors),
   `Reads` (how each read ends, told from the bytes), `RoundTrip`, `Drain`, `Echo`
   and `Scan`.
4. **The return stream.** `Framing` (opcodes and sizes), `ReturnLoop` (the loop
   that takes one read buffer apart) and `Messages` (its frames built from the
   values they carry).

Concurrency is modelled as step systems: a run is a sequence of enabled steps
from an initial state, and a statement about every reachable state is one about
every interleaving. `PublishOrder` is the link between the two levels: it shows
that lock, mutate, publish and unlock as separate thread steps behave as the one
atomic update that every other module uses. `Runs` has the shape of a run.

The driver's contract in `StrongRefs` is: one BR_ACQUIRE for each 0-to-1
transition of a node; no BR_RELEASE before ACQUIRE_DONE; messages handed to
different looper threads are processed in any order; and a thread whose own work
list holds the BR_ACQUIRE of its send processes it before it sees that the send
failed (src/device.rs:949-965). The driver may also withdraw a BR_ACQUIRE that
nobody has read, if the last remote reference is gone.

Where the code does not meet the property in general, a condition is proved under
which it does, and a reachable state shows that it is needed:

- A published zero can be premature. `PrematureZero.ProtectedIff` names the three
  single steps that lose the protection, `NeverPremature` gives the schedule
  under which none of them happens, and two runs show that it is needed.
- A send that returned Ok can keep `pending` above zero. It owes a credit exactly if
  one of its marks found no remote reference and no BR_ACQUIRE was processed since
  (`StrongRefs.OwesExactly`); once nobody owes, zero is published on every run
  (`NeverStuck`), and under the schedule above only then
  (`PrematureZero.ZeroExactly`). One run leaves such a debt for good
  (`UnacquiredSendKeepsCredit`).
- The rollback of a failed send can take a credit of another one. The exact
  condition, for all histories, is in `Registry.FailedSendLeavesNoTrace` and
  `Registry.GivenUpInvisible`, and for updates at any place between the send's own
  in `SendAccount.InOrderIff`.
- A weak upgrade between the observation of zero and the removal of a service
  leaves a live counted guard on an unregistered object (`Lifecycle.UpgradeCanLose`).
- Two threads that look a handle up before either has inserted create two live
  proxies (`HandleTables.OverlapDuplicates`).
- ATTEMPT_ACQUIRE is read as 16 bytes although its opcode says 24
  (`Framing.SizesAgree`, `ReturnLoop.OnBoundaries`).
- The echo of a message is faithful only if both counts fit 32 bits
  (`Echo.EchoPreservesLayoutIff`).
- A two-way send is written again after every ENOSPC if and only if there is none
  (`Device.TwoWayResubmitsIff`, `Device.FullNotRetried`), whereas a one-way send is
  (`Device.OneWayResubmits`).

The code and its comments disagree in one place: examples/bench.rs:262-265 says
that scanning misreads adjacent objects. `Scan.EchoScan` shows that the scanning
echo copies the bytes of every record, a single one included, before it pushes
the objects again, and after each of them all that follows it once more.

## Model

| member | source | states |
|---|---|---|
| RefState.ObjectRefState.constructor | src/device.rs:104-110 | a new object has no references and publishes zero |
| RefState.ObjectRefState.Update | src/device.rs:126-193 | each of the six mutations changes the counts as its closure says, returns the snapshot, and leaves the watch equal to the total |
| RefState.ObjectRefState.PollZero | src/binder_object.rs:474-485 | a subscriber that polls, early or late, is ready exactly if the total is zero now |
| RefState.RepeatMark | src/device.rs:175-181 | any number of marks adds as many credits while there is no remote reference, and none otherwise |
| RefState.RepeatClear | src/device.rs:190-192 | any number of rollbacks takes as many credits and stops at zero |
| PublishOrder.StepRefines | src/device.rs:126-133 | of the four thread steps only the publication is visible, and it is one atomic update by the latest mutation in lock order |
| PublishOrder.PublishedInLockOrder | src/device.rs:114-133 | the published values are the totals in lock order, at most the newest is missing, and whenever the lock is free the watch is the true total |
| PublishOrder.OneInSection | src/device.rs:126-133 | never two threads between lock and unlock |
| StrongRefs.NeverUnderflows | src/device.rs:1022-1042 | on every run no release or guard drop takes a count below zero, and a pending credit never coexists with a remote reference |
| StrongRefs.ReferencesConserved | src/device.rs:142-163 | on every run remote + unprocessed acquires = driver-held strong + unprocessed releases, and the watch equals the total |
| StrongRefs.OwesExactly | src/device.rs:142-181 | a send that has not begun to roll back holds a credit if and only if one of its marks found no remote reference and no acquire was processed since; a re-send of a held object owes nothing |
| StrongRefs.NeverStuck | src/device.rs:142-192 | on every run, whatever overlaps, pending is at most the credits still owed, and zero is published when there is no guard, no remote reference, and every send failed, took its marks back or owes nothing |
| StrongRefs.SendsProceed | src/device.rs:661-696 | in every reachable state each active send can take its next step and gets closer to its end by it, and one in flight can fail unless its own acquire is due first |
| StrongRefs.ReferencesReach | src/device.rs:1022-1042 | remote references stand on a count that is there or on an acquire that can be processed, and whatever the driver counts can be released |
| PrematureZero.NeverPremature | src/device.rs:164-192 | if no release is processed while a send is unsettled, a published zero means that nobody else holds the object and no delivered send awaits its acquire |
| PrematureZero.ZeroExactly | src/device.rs:142-192 | under the same schedules the published value is guards + remote + owed credits, and it is zero if and only if the object is settled |
| PrematureZero.BreaksExactly | src/device.rs:160-192 | the step of ProtectedIff: a step loses the cover of a remote reference if and only if it is one of three named kinds |
| PrematureZero.ProtectedIff | src/device.rs:160-192 | with no hypothesis, a run is protected throughout if and only if it contains none of those steps |
| PrematureZero.RollbackCanStealCredit | src/device.rs:182-192 | a reachable state publishes zero under a held reference after an older send's rollback took its credit |
| PrematureZero.PendingReleaseLeavesNoCredit | src/device.rs:164-181 | a reachable state publishes zero under a held reference although every send was delivered, because the send began before a read release was processed |
| PrematureZero.UnacquiredSendKeepsCredit | src/device.rs:142-157 | a reachable state has one credit left, no guard, no remote reference, and no enabled step but taking a guard or starting a send |
| Registry.Projection | src/device.rs:666-696 | marking or unmarking a list of ids acts on each registered object once per occurrence and on nothing else |
| Registry.MarkUnmark | src/device.rs:661-696 | unmarking right after marking restores the whole table if and only if every embedded registered object has no remote count or no pending one |
| Registry.MarkUnmarkReachable | src/device.rs:142-192 | it always does on a table produced by registrations, removals and updates that do not underflow |
| SendAccount.InOrderIff | src/device.rs:164-192 | with the send's marks and rollbacks at any places between other updates of the object, acquires and releases among them, the object is at every point what it would be without the send plus the send's outstanding credits, if and only if no rollback takes a credit of another send |
| SendAccount.RolledBackLeavesNoTrace | src/device.rs:182-192 | a send that rolled back completely then leaves no trace |
| Registry.FailedSendLeavesNoTrace | src/device.rs:182-192 | a failed send, with any other updates of the object between its marks and its rollbacks, leaves what they alone would have left, if and only if nothing is pending at the end or its own credits were intact: taken at no remote reference, not replaced by an acquire, not taken by a starved rollback |
| Registry.GivenUpInvisible | src/device.rs:452-497 | the same for a whole table, any payload and any history between the marks and the rollbacks: the if and only if for every embedded object that is still registered |
| Device.BinderDevice.RegisterObject | src/device.rs:309-326 | hands out the counter with cookie 0, advances it with wrap-around, and enters the object in both tables with no references |
| Device.BinderDevice.RemoveBinderObject | src/device.rs:399-402 | removes the id from both tables and changes no other entry |
| Device.BinderDevice.Borrow | src/binder_object.rs:630-643 | counts if and only if the object still has counts, and remembers which |
| Device.BinderDevice.BorrowedFromId | src/binder_object.rs:346-359 | fails if and only if there is no handler, and then changes nothing |
| Device.BinderDevice.TypedFromId | src/binder_object.rs:694-705 | fails if and only if the handler or the counts are missing or the handler has another type, and then changes nothing |
| Device.BinderDevice.CloneGuard | src/binder_object.rs:313-327 | counts for the object if it still has counts; a borrowed clone remembers whether it did |
| Device.BinderDevice.DropGuard | src/binder_object.rs:334-343 | takes one local count off exactly if the guard is typed or had counted, and the object still has counts |
| Device.BinderDevice.ReadBinderRef | src/payload.rs:252-305 | a read object comes with a guard that counts while it is registered, a read handle with its proxy in the table; a failed read takes hold of nothing |
| Device.BinderDevice.ReaderFromBuilder | src/payload.rs:395-447 | a local delivery counts every registered strong object of the builder once more per push |
| Device.BinderDevice.LetGo | src/binder_object.rs:334-343 | dropping the kept guards takes off what the counted ones had added |
| Device.ReaderKeepsAlive | src/payload.rs:222-226 | while a local delivery's reader lives, whatever other threads do, a strong object that stays registered has its total raised by the number of its pushes and so is never at zero; dropping the reader leaves what the others alone would have left |
| Device.BinderDevice.MarkObjectsAsPendingRemote | src/device.rs:666-680 | marks every strong local object in the payload, once per embedding |
| Device.BinderDevice.UnmarkObjectsAsPendingRemote | src/device.rs:685-696 | takes one credit back per embedding |
| Device.BinderDevice.PerformCounts | src/device.rs:1022-1042 | carries out the count updates of one parsed buffer in order |
| Device.BinderDevice.RemoteTransactBlocking | src/device.rs:430-498 | for every sequence of answers: ends at the first that is neither empty nor ENOSPC (EndsExactly), with its error (CallerSees); marks once, takes the marks back once if it gives up and otherwise leaves them (SendKeepsMarks, FailedSendInvisible); writes the transaction once |
| Device.BinderDevice.RemoteTransactOneWay | src/device.rs:534-600 | for every sequence of answers: ends at the first that is not ENOSPC (EndsExactly), with its error (CallerSees); marks once, takes the marks back once if it gives up and otherwise leaves them (SendKeepsMarks, FailedSendInvisible); writes the transaction once per turn |
| Device.BinderDevice.SendReply | src/device.rs:934-984 | one turn; the marks are taken back if and only if it returned any error |
| Device.ReportsReachTable | src/device.rs:1022-1042 | any acquires and releases that the driver writes into the read buffer become exactly those count updates, in order |
| Device.SendMarks | src/device.rs:661-680 | a send of a built payload gives each strong object without a remote count one credit per push |
| Device.SendKeepsMarks | src/device.rs:452-600 | after a send that returned Ok or still waits, with any updates by other threads during it, each strong object pushed has one credit more per push than without the send, if and only if its credits are intact, and then a positive total; after an acquire its entry is what the others alone would have left |
| Device.EndsExactly | src/device.rs:460-495 | a two-way send goes on exactly after no answer or ENOSPC, a one-way one exactly after ENOSPC; each ends well exactly on its own success |
| Device.CallerSees | src/device.rs:465-496 | the error of either kind of send for each failure |
| Device.FailedSendInvisible | src/device.rs:452-497 | a given-up send of any built payload, after any retries, leaves the table as the other threads alone would have, if and only if the same holds of every strong object pushed |
| Device.OneWayResubmits | src/device.rs:565-571 | a one-way send that ended was written once more than the buffer was full |
| Device.TwoWayResubmitsIff | src/device.rs:460-495 | a two-way send that ended was, if and only if the buffer was never full |
| Device.FullNotRetried | src/device.rs:488-490 | for any number of full answers before the reply, it was written once |
| Device.IdsDistinct | src/device.rs:313-314 | ids are distinct for 2^64 registrations, and the next one repeats the first |
| Lifecycle.LocalCountsGuards | src/binder_object.rs:313-343 | on every interleaving the local count of a registered object is the number of its live counted guards, so no drop underflows |
| Lifecycle.OutlivingGuardHarmless | src/binder_object.rs:334-343 | a guard that outlives its object changes no count of any object, in every continuation of the run and whatever is registered later |
| Lifecycle.GuardTouchesOnlyItsObject | src/binder_object.rs:313-343 | its step: cloning or dropping a guard leaves all other entries alone |
| Lifecycle.NewObjectsAreNew | src/device.rs:309-326 | a new object has no counted guards and its id was never used |
| Lifecycle.GoneForGood | src/device.rs:399-402 | once out of all tables an object stays out in every continuation |
| Lifecycle.ServiceStarts | src/binder_object.rs:441-466 | neither expect of to_service can fail, and the clean-up task starts watching at a positive total |
| Lifecycle.ServiceStaysUntilZero | src/binder_object.rs:441-466 | on every run a service is in all three tables until some state, while it was watched, had a total of zero |
| Lifecycle.ZeroHolds | src/binder_object.rs:457-464 | between observation and removal a step keeps the total at zero if and only if it is not a new reference |
| Lifecycle.RemovedAtZero | src/binder_object.rs:457-464 | if nothing took a reference after the observation, the total is zero at the removal |
| Lifecycle.UpgradeCanLose | src/binder_object.rs:566-568 | a reachable state has a live counted guard on an object removed from every table |
| Lifecycle.ZeroSinceIff | src/binder_object.rs:457-464 | the total is zero in every state since the observation if and only if no step took a reference |
| Service.InUseStaysRegistered | src/binder_object.rs:441-466 | tables, guards, sends, loopers and driver together: if no release is processed while a send is unsettled and nothing marks the object after its observed zero, a service that another process holds or is about to acquire is in every table |
| Service.NeverBlocked | src/device.rs:1022-1042 | in that joint system each part can follow every step of the other |
| Service.AgreeRun | src/device.rs:126-133 | the entry in the count table is the protocol's counts as long as the object is registered |
| HandleTables.TraceBalances | src/binder_object.rs:114-161 | on every interleaving ACQUIRE minus RELEASE is the number of BinderRefs between the two, and likewise for INCREFS/DECREFS and death notifications |
| HandleTables.PrefixesNested | src/binder_object.rs:214-281 | at every point of the command stream no balance is negative, and a positive strong or death-notification balance stands on a positive weak one |
| HandleTables.DedupBreaksExactly | src/binder_object.rs:157-159 | a step makes some upgradable proxy differ from its table entry if and only if it inserts over an upgradable entry; in particular remove_if never loses a live one |
| HandleTables.DedupIff | src/binder_object.rs:114-161 | a run is free of duplicates throughout if and only if no step of it inserts over an upgradable entry |
| HandleTables.OneProxyPerHandle | src/binder_object.rs:114-127 | if creations do not overlap, with everything else interleaved there is at most one upgradable proxy of each kind and it is the one in its table |
| HandleTables.NoDeathLeaks | src/binder_object.rs:214-281 | each cookie in the notification table belongs to a creating thread or to a proxy that has not removed it yet (for the exact condition see Cookies.WatchedExactly); a fully dropped handle leaves none |
| HandleTables.OverlapDuplicates | src/binder_object.rs:214-241 | a reachable state has two upgradable weak proxies of one handle |
| Cookies.CookiesDistinct | src/binder_object.rs:218-238 | on every interleaving the cookies of all proxies ever created and of the threads about to create one differ pairwise, and the counter is past them |
| Cookies.WatchedExactly | src/binder_object.rs:218-223 | on every interleaving a cookie is in the notification table if and only if a creating thread or a proxy that has not removed it waits for it and its death was not reported, so no other proxy's drop takes it out |
| Cookies.LiveIsWatched | src/device.rs:1070-1084 | a live proxy's cookie is in the table if and only if DEAD_BINDER has not found it there |
| Cookies.RequestedExactly | src/binder_object.rs:224-273 | for each single cookie, on every interleaving, REQUEST_DEATH_NOTIFICATION minus CLEAR_DEATH_NOTIFICATION is one exactly between the two commands of its proxy, and otherwise zero |
| Cookies.CountsReferences | src/binder_object.rs:114-240 | on every interleaving the count of a proxy is the number of references that lookups, insertions, clones, upgrades and downgrades returned and that were not dropped |
| Cookies.NothingLeft | src/binder_object.rs:150-281 | on every interleaving a fully dropped handle leaves no entry in any of the three tables, and every balance at the driver, also by the cookie, is zero |
| HandleDevice.Handles.WeakFromRaw | src/binder_object.rs:214-241 | returns the live entry, or a new one after INCREFS and REQUEST_DEATH_NOTIFICATION with a new cookie |
| HandleDevice.Handles.StrongFromRaw | src/binder_object.rs:114-128 | returns the live entry, or a new one after the weak proxy's commands and then ACQUIRE |
| HandleDevice.Handles.DropWeak | src/binder_object.rs:261-281 | only the last drop sends CLEAR_DEATH_NOTIFICATION and DECREFS and removes the entry, if that is not in use |
| HandleDevice.Handles.DropStrong | src/binder_object.rs:150-161 | only the last drop sends RELEASE, removes the entry if that is not in use, and then drops the weak proxy |
| HandleDevice.Handles.TakeAndDropLive | src/binder_object.rs:114-161 | a further reference to a live proxy, taken and dropped, sends nothing and leaves both tables and all counts as they were |
| HandleDevice.Handles.TakeAndDropNew | src/binder_object.rs:114-161 | a first reference, taken and dropped, sends the opening and the closing commands and leaves both tables as they were but for dead entries |
| HandleDevice.OpenAndClose | src/binder_object.rs:114-281 | the closing commands undo the opening ones, each its own, in reverse order |
| Sys.LeRoundTrip | src/sys.rs:168-176 | a number that fits is recovered from its little-endian bytes |
| Sys.SlotRoundTrip | src/sys.rs:161-219 | an object record decodes to what was encoded |
| Sys.WordBytes | src/sys.rs:168-176 | four bytes are the word that has the first of them as its least significant, and the word is stored as those bytes |
| Sys.Tags | src/sys.rs:13-45 | the seven object tags as words |
| Layout.PaddingAligns | src/payload.rs:181-185 | the padding reaches a multiple of 8, and none is needed there |
| Layout.AssembleSpaced | src/payload.rs:51-98 | a builder's records lie inside the data, in order and without overlap |
| Layout.PlainInPlace | src/payload.rs:47-50 | pushed bytes stand where the preceding pushes end, and no record starts inside them |
| Layout.RecordInPlace | src/payload.rs:51-98 | a pushed record stands at the next table entry and nothing later moves it |
| Payload.SlotMeanings | src/binder_object.rs:129-142 | each kind of object or ref is recovered from the record that it is encoded as |
| Payload.ItemRoundTrip | src/payload.rs:51-98 | a pushed object, ref or descriptor decodes to what was pushed |
| Payload.PayloadBuilder.PushBytes | src/payload.rs:47-50 | appends the bytes and no table entry |
| Payload.PayloadBuilder.Align | src/payload.rs:181-185 | appends zeros up to the next multiple and no more, for every alignment |
| Payload.PayloadBuilder.PushBinderRef | src/payload.rs:51-64 | appends padding, the record and its offset, and keeps the object |
| Payload.PayloadBuilder.PushFd | src/payload.rs:65-80 | appends padding, the record and its offset |
| Payload.PayloadBuilder.PushOwnedFd | src/payload.rs:81-98 | the same, and keeps the descriptor |
| Payload.BytesUntilNextObj | src/payload.rs:349-358 | ends at a record start or at the end of the data, reaches over no record start, and is zero exactly at the end of the data |
| Payload.PayloadReader.FromKernelRaw | src/payload.rs:374-394 | a reader over delivered bytes, which are the driver's, with both cursors at the start |
| Payload.PayloadReader.CountBytesUntilNextObj | src/payload.rs:349-358 | the loop over the table computes that distance |
| Payload.PayloadReader.PeekObjectType | src/payload.rs:329-347 | tells the kind of the record at the offset cursor from its tag alone |
| Payload.PayloadReader.TakeBytes | src/payload.rs:233-250 | the method does what the read of Reads.ReadBytesExactly does: hands out the bytes and moves the data cursor, or reports which limit the read would cross and changes nothing |
| Payload.PayloadReader.TakeBinderRef | src/payload.rs:252-305 | decodes the object and moves both cursors behind its record, or reports why not and changes nothing (Reads.ReadBinderRefExactly) |
| Payload.PayloadReader.TakeFd | src/payload.rs:307-327 | hands out the descriptor and moves both cursors behind its record, or reports why not and changes nothing (Reads.ReadFdExactly) |
| Reads.ReadBytesExactly | src/payload.rs:233-250 | plain bytes are read if and only if they are there and no record starts inside them; ReadingIntoObject if and only if one does, OutOfBounds otherwise; a failed read moves nothing |
| Reads.ReadUpToRecord | src/payload.rs:349-358 | reading the announced distance always succeeds, and reading more never does |
| Reads.ReadBinderRefExactly | src/payload.rs:252-305 | from the record's bytes: Empty, UnknownBinderObject and IncorrectObject each exactly when, the four kinds told apart by their tags, and both cursors; a failed read moves nothing |
| Reads.ReadFdExactly | src/payload.rs:307-327 | the same for descriptors, with the two errors |
| Reads.KindExactly | src/payload.rs:329-347 | the announced kind is each of the seven exactly for its own tag, and none for another tag or at the end |
| Reads.AnnouncedIsRead | src/payload.rs:252-347 | the announced kind is the one that a read yields, and a read of the wrong kind is what fails as incorrect |
| Reads.RecordBytes | src/binder_object.rs:129-142 | the 24 bytes that are written for each kind of object, ref and descriptor: tag, flags, id or handle or descriptor, cookie |
| RoundTrip.RoundTrips | src/payload.rs:233-327 | for any pushes, reading the same items in order recovers every one, if and only if every strong local object among them still has a handler |
| RoundTrip.DeliveredBuild | src/payload.rs:395-447 | rewriting the descriptors in the bytes is the same as having pushed the duplicates |
| RoundTrip.DuplicateExactly | src/payload.rs:423-434 | the k-th descriptor becomes the k-th duplicate with its cookie kept, and every other push stays as it is |
| RoundTrip.FromBuilder | src/payload.rs:395-447 | the loop replaces each descriptor in place by its own duplicate and changes nothing else; the reader owns its bytes and keeps the builder's objects |
| RoundTrip.LocalDeliveryRoundTrips | src/payload.rs:395-447 | a payload delivered inside the process reads back as pushed, up to the duplicated descriptors |
| RoundTrip.ForEachEmbeddedBinderObject | src/device.rs:634-659 | the loop visits the strong local objects that the offset table leads to, in order |
| RoundTrip.WalkFindsStrongObjects | src/device.rs:634-659 | on any builder's bytes those are exactly the strong local objects pushed, in push order |
| Drain.DrainProgress | src/payload.rs:462-492 | the step of Drop: a turn passes one record and closes its descriptor, except on descriptor arrays and buffers, where it changes nothing |
| Drain.Drop | src/payload.rs:449-492 | the drain terminates, on dead objects too, closes exactly the descriptors between the offset cursor and the first record of an unknown kind, and frees the buffer if and only if it is the driver's |
| Drain.ReadThenDrop | src/payload.rs:307-327 | whatever the caller reads, in any order and with any errors, the descriptors taken and then closed are exactly those delivered up to the first record of an unknown kind, each once |
| Drain.DeliveredFds | src/payload.rs:423-434 | the descriptors in a local delivery are the duplicates, one for each descriptor pushed, in order, and no record in it is of an unknown kind |
| Drain.DeliverReadDrop | src/payload.rs:395-492 | for any pushes delivered locally, any reads and the drop, the duplicates handed out and those closed are all of the duplicates, each once |
| Drain.NothingTwice | src/payload.rs:307-327 | the descriptors handed out are a prefix of those delivered |
| Echo.ClientMessage | examples/bench.rs:673-686 | builds the two counts, the payload, the refs and the descriptors; keeps every ref pushed and owns no descriptor |
| Echo.EchoInto | examples/bench.rs:266-286 | on a message of any size, builds the data block and as many records as the header announces, and the builder comes to own what is echoed |
| Echo.CountsOfHead | examples/bench.rs:288-297 | the counts read are the true ones cut to 32 bits |
| Echo.MessageStarts | examples/bench.rs:673-686 | a message's bytes start with the number of refs, the number of descriptors and the payload, and it has that many records |
| Echo.EchoPreservesLayoutIff | examples/bench.rs:258-286 | the echo has the same offsets and bytes up to unused union bytes, if and only if both counts fit 32 bits |
| Scan.EchoScan | examples/self_transaction.rs:23-52 | the scanning echo terminates; its output is exactly all of the input and then, for each record up to the first it cannot echo, that record and once more all that follows it; so it equals the input exactly if there are no objects; the builder comes to own what is echoed |
| Scan.ScannedHolds | examples/self_transaction.rs:23-52 | that output starts with the input, has every echoed record in order and no other, and grows by at least a record each |
| Framing.SizesAgree | src/sys.rs:114-140 | an opcode identifies its kind; the loop takes the size that the opcode encodes if and only if the kind is not ATTEMPT_ACQUIRE; the benchmark's table agrees wherever it answers |
| Framing.Opcodes | src/sys.rs:114-140 | the 24 opcodes as numbers |
| ReturnLoop.TakeApart | src/device.rs:816-1124 | the loop over the read buffer visits, does and returns what the total specification of every input says |
| ReturnLoop.FramesHandled | src/device.rs:816-1124 | on any frames the loop stays on their boundaries, performs exactly the actions of those up to the first terminal one, and returns its outcome or consumes everything |
| ReturnLoop.HandledExactly | src/device.rs:823-1122 | only the last handled frame is terminal, and a drained stream was handled completely |
| ReturnLoop.TerminalExactly | src/device.rs:865-1100 | the frames meant by FramesHandled: one ends the loop if and only if it is one of the four replies or a transaction without a handler; the retry error comes from ENOSPC only |
| ReturnLoop.OnBoundaries | src/device.rs:1050-1055 | the loop stays on the boundaries if and only if it handles no ATTEMPT_ACQUIRE |
| ReturnLoop.CountedBeforeDone | src/device.rs:1022-1032 | on any bytes at all, the count is raised right before each ACQUIRE_DONE and never without one, and only remote counts move |
| ReturnLoop.AnsweredOnce | src/device.rs:865-985 | every handled two-way transaction, told by the lowest bit of the flags at offset 20, is answered exactly once, with an empty reply if its target is gone, and nothing else is answered |
| Messages.TransactionRoundTrip | src/sys.rs:273-285 | every field of a transaction is read back as it was written, field after field in the record's order, whatever follows it |
| Messages.TransactionOnto | src/sys.rs:273-285 | every 64 bytes are the record of the transaction read from them |
| Messages.CallHandled | src/device.rs:831-985 | an incoming transaction is handed to its target, one way exactly if its ONE_WAY flag is set; without a handler exactly its own buffer is freed, then a two-way caller gets the empty reply with its code and flags, and the loop reports it |
| Messages.CallsDelivered | src/device.rs:823-985 | any number of encoded transactions are delivered as they were sent, once each and in order, with a reply to exactly those that are not one way |
| Messages.ReplyReturned | src/device.rs:987-1002 | a reply is returned with the frame's code, buffers and sizes |
| Messages.ReferencesCounted | src/device.rs:1014-1049 | INCREFS is acknowledged with its id, ACQUIRE counts and is acknowledged, RELEASE counts, DECREFS does nothing |
| Messages.DeathReported | src/device.rs:1070-1084 | DEAD_BINDER cancels the token of its cookie and acknowledges the same cookie |
| Messages.FailuresReturned | src/device.rs:1007-1102 | each failed reply returns its own error, AsyncBufferFull exactly for ENOSPC |
| Messages.OthersIgnored | src/device.rs:826-1120 | the other thirteen kinds have no effect |

## Left out

- Registry.GivenUpInvisible: the updates of other threads lie between the marks and the rollbacks of the payload; SendAccount has them anywhere, for one object.
- SendAccount.RolledBackLeavesNoTrace: one direction only, because two mix-ups can cancel out; InOrderIff has both.
- HandleTables.OneProxyPerHandle: one direction only, because overlapping creations need not collide; DedupIff has both.
- HandleDevice.Handles.StrongFromRaw: calls do not overlap here; HandleTables interleaves them.
- Drain.Drop: excludes payloads with descriptor arrays and buffers, on which the source turns forever.
- RoundTrip.FromBuilder: excludes descriptor arrays and buffers, which the source does not implement.
- Payload.PayloadReader.TakeBinderRef: the guard or proxy that comes with a read object is in Device.BinderDevice.ReadBinderRef; here a read object is only its id or handle.
- Payload.PayloadReader.FromKernelRaw: the offsets the driver delivers are taken to be ordered and in bounds, which the source also assumes; a null table is an empty one.
- Device.BinderDevice.SendReply: what a nested reading turn does besides its result is part of the answer's events; attributing a nested error to the reply is the source's, not proved right.
- Counts and lengths are unbounded integers: overflow of a 32-bit count after 2^32 references, of a death cookie and of a cursor is not modelled.
- The context manager's node, which src/device.rs:370-394 hands to the driver outside of any transaction: the driver contract of StrongRefs does not describe it.
- Opcodes are the generic Linux encoding on a 64-bit little-endian machine.
- ioctl, mmap, opening devices, binderfs and the test pool are system calls; the driver is the environment of the step systems.
- Running handlers, local transactions, spawning loopers, futures and timers: only that a handler ran, a subscriber polls, or a thread takes a step.
- Child buffers and descriptor arrays in the builder: the reader does not implement them.
- Equality, hashing, debug output, downcasting and error texts would only add easy members.
- The benchmark's measurements, the raw benchmark client and the integration tests.
