# A verified model of sdd

This project models the scalable, delayed memory reclamation library sdd in Dafny and proves what its
documentation and comments promise. `dafny verify dfyconfig.toml` checks all of it.

There are four subjects, each treated twice: as a *machine*, where any number of threads interleave at
every access to shared memory, and as *code run by one thread*, imperative Dafny that follows the Rust
functions and is proved against the values that the machine, or a simple specification, computes.

| subject | machine | code |
|---|---|---|
| epoch-based reclaimer (`collector.rs`, `epoch.rs`, `guard.rs`) | `Reclaimer*` (what steps and scans answer: `ReclaimerAnswers`, `ReclaimerScan`), `EpochClock`, `EpochWrap`, `WrapReached`, `BoundedRuns` | `CollectorCode`, `GuardCode`, `CollectorAlone`, `ReclaimerAlone` |
| count and link word (`ref_counted.rs`, `collectible.rs`), handles and cells that own references (`shared.rs`, `atomic_shared.rs`) | `CountWord`, `CountAnswers`, `CountOverflow`, `SharedCells` | `LinkCode` |
| lists, queue, stack (`linked_list.rs`, `queue.rs`, `stack.rs`, `atomic_shared.rs`) | `Chain*` (what traversals answer: `ChainAnswers`, `ChainAlone`), `QueueRuns`, `ListRuns` | `ListCode`, `QueueCode`, `StackCode` |
| bag (`bag.rs`) | `SlotProtocol`, `SlotSafety`, `SlotDeath`, `SlotAnswers` | `Bits`, `StorageCode`, `BagCode`, `BagIteration` |

## How the machines follow the code

A machine is a value `State`, a datatype `Action`, a predicate `Can` and a function `Do`; a run is any
sequence of states that `Can` and `Do` allow. Each action is one access to shared memory together with
the thread-private work around it. Fields that do not exist in the program (unbounded epochs, dates of
retirement, ranks of list cells, owners of slots) are history: no enabling condition or branch of an
action looks at them to decide what the program would do. The exceptions are only apparent: the rank
that an insertion chooses is the position it has anyway, and `ChainProgress` and `ReclaimerChain.NeverStuck`
show that the enabling conditions never hold up a thread in the middle of an operation.

- Reclaimer: `ACreate`, `ALoad`, `ARetire` (src/collector.rs:216-222), `AEnter`, `ANest` (81-147), the
  end of a guard with its countdown and the walk over the chain one collector per step (151-183,
  346-426), `AAlloc`, `ALinkHead` and `ARelink` for `alloc` with its retries (251-278), the rotation and
  each single drop, with and without a failing destructor (281-321), invalidation (226-248), and
  `clear_chain` one step per access (429-466). Collectors and instances are unbounded in number. Adopted
  collectors are garbage items themselves, nested to any depth.
- **Modelling assumption.** Reading the global epoch and publishing it as one's own state
  (src/collector.rs:92-125) is one atomic step. The scan stores the successor of its own epoch without
  reading the global one again (359, 417-419); with load and publication apart, the global epoch would
  not be monotonic in the model.
- Atomic operations are sequentially consistent. Every weak compare-exchange may fail without reason.
- Count word: each load and each compare-exchange of `add_ref`, `try_add_ref` and `drop_ref` is a step
  (src/ref_counted.rs:45-114).
- Handles and cells: each method of `Shared` and `AtomicShared` is one atomic access and so one step
  (src/atomic_shared.rs:166-457), but for `get_shared`, which loads, tries to add a reference and loads
  again (400-409); instances are freed at any time after their retirement, unless a thread under a guard
  is about to add a reference. That adding and dropping a reference is atomic is what `CountWord` is about.
- Slots: each access to the metadata word or to a slot in `Storage::push`, `pop` and `pop_all` is a step
  (src/bag.rs:449-628), including the rollback of a push and the panicking fold.
- Lists: roots (`oldest`, `newest`, the head of a list owned by the user) and entries are cells. `push_back`,
  the pushes of queue and stack, `mark`, `unmark`, `delete_self`, `pop_all`, the pops and the clean-ups of
  roots are steps; `next_ptr_recursive` runs with its exact stack of activations, 64 deep. A retry is a
  new operation that knows nothing, so the machine allows every retry policy, every condition passed to
  `push_if` and `pop_if`, and any start of a traversal, in particular a stale `newest`. Entries die when no
  link and no handle is left, and their memory goes when no operation refers to it.

## Results that are not as one might expect

- **The epochs are exact modulo 64 unless an announcement is a positive multiple of 64 epochs old.** That
  reader looks up to date and skips one rotation. Nothing else changes; in particular no instance is
  freed early (`EpochWrap.ExactUnlessWrapped`, an equivalence). It takes 64 guards of another thread and a
  retirement outside a guard to get there (`WrapReached.WrappedReached`, a run).
- **The reference count is exact if and only if there are never more than 2^63 references at once**
  (`CountWord.ExactUnlessOverflow`, and `SharedCells.WordsCountReferences` for any number of instances);
  `CountOverflow.OverflowReached` is a run that gets there, `CountWord.Overflow` the step that goes wrong
  then: only debug builds check the count for overflow (src/ref_counted.rs:79).
- **A destructor that fails while an adopted collector is being dropped loses the rest of that
  collector's garbage**; what was left in the rotated list itself is collected again
  (`ReclaimerConservation.FreedExactly`, an equivalence).
- **A fold that panics in `Storage::pop_all` loses exactly the values it has claimed and not folded**
  (`SlotSafety.ValuesConserved`).
- **A push never comes to an end if the newest entry of the queue is marked**, or if the queue has no
  contents but its deleted entries have not been cleaned up; otherwise it does after at most two rounds
  (`QueueCode.Queue.Round`, an equivalence). `push_if_internal` looks for `Tag::First` (src/queue.rs:425)
  before it calls `cleanup_oldest`, whereas deletion sets `Tag::Second`; the compare-exchange expects a
  link without tag. It needs callers that mark or delete entries through the handles they hold; pushes and
  pops alone keep a queue open for pushes.
- **`push_if` may try its condition on a deleted entry**, when `newest` still points to one that a caller
  deleted, and give up because of it (`QueueCode.Queue.PushIf`).

## Model

| member | source | states |
|---|---|---|
| `Epochs.WrapNext` | src/epoch.rs:79-83 | `next` on stored values is the successor on the unbounded epochs they stand for |
| `Epochs.NextPrevInverse` | src/epoch.rs:79-106 | `next` and `prev` undo each other, across the wrap too |
| `Epochs.SameGenerationExact` | src/epoch.rs:35-60 | `false` always means that three epochs have passed, `true` means at most two have, exactly so within 64 epochs |
| `Epochs.NextGenerationIsFirst` | src/epoch.rs:29-60 | the next generation is the first epoch outside the generation |
| `ReclaimerSafety.InvStep` | src/collector.rs:81-466 | every step of every thread keeps the invariant: links, lock, scans, garbage places, ages, readers |
| `ReclaimerTheorems.ReclamationSafety` | src/collector.rs:94-105 | in every run an instance retired while a reader was active, by any thread, in or outside a guard, is freed only after that reader has gone inactive |
| `ReclaimerTheorems.StillReading` | src/collector.rs:94-105 | as long as that reader stays active the instance is not freed and the epoch moves by at most one |
| `ReclaimerTheorems.NoUseAfterFree` | src/collector.rs:281-321 | no reader ever holds a pointer to an instance that is freed or being dropped by `clear_chain` |
| `ReclaimerTheorems.EpochLag` | src/collector.rs:126-131 | in every reachable state an active collector has announced the global epoch or the one before |
| `ReclaimerRuns.EpochAdvances` | src/collector.rs:355-420 | only the end of a scan moves the epoch, by at most one, and exactly if the scanner was up to date; then every active reader is in the epoch left behind |
| `ReclaimerShape.ScanComplete` | src/collector.rs:361-408 | when a scan has passed the whole chain, although readers came, went and were linked in meanwhile, it is out of date or every active reader is up to date |
| `Reclaimer.ByteExact` | src/collector.rs:47-50 | epoch and flags share one byte without interfering: bytes are equal exactly if epochs and flags are, and the flags are bits 64 and 128 |
| `ReclaimerShape.ComparisonExact` | src/collector.rs:399-401 | the inequality of two active state bytes is the inequality of the unbounded epochs announced |
| `ReclaimerTheorems.GenerationContract` | src/guard.rs:42-55 | once the global epoch is not in the same generation as the value `epoch` returned, every reader active at a retirement under that guard has gone inactive |
| `ReclaimerTheorems.GenerationUnseen` | src/epoch.rs:35-42 | nor does any reader hold a pointer to the instance then |
| `ReclaimerTheorems.RetirementEpoch` | src/collector.rs:187-198 | under one guard the global epoch moves by at most one |
| `ReclaimerConservation.ExactlyOnce` | src/collector.rs:216-222 | each retired instance is in the lists of exactly one collector, once, until it is freed |
| `ReclaimerConservation.NoGarbageNoLists` | src/collector.rs:291-299 | `has_garbage` unset means that all three lists are empty |
| `ReclaimerConservation.RunRooted` | src/collector.rs:394-398 | nesting is well founded: from every piece of garbage owners lead to a collector in the chain, or to one being dropped or lost |
| `ReclaimerConservation.FreedExactly` | src/collector.rs:300-317 | each step frees exactly the item it drops, once; garbage is lost if and only if a destructor fails inside an adopted collector that holds more |
| `ReclaimerChain.ChainStep` | src/collector.rs:251-278 | a step pushes one collector in front, takes out one INVALID collector, or takes out all when all are INVALID; the order of the others stays (when a scan must take one out: `ReclaimerScan.UnlinkAnswers`) |
| `ReclaimerScan.UnlinkAnswers` | src/collector.rs:375-398 | an INVALID collector with a predecessor, or still at the head, is taken out of the chain, no other is, it joins the current list of the scanner and the flag is set; only if the head has moved it stays, and nothing else changes |
| `ReclaimerScan.VisitAnswers` | src/collector.rs:361-402 | by what the collector at its cursor is, found by its place in the chain, a scan goes on, turns to adopting it, or ends |
| `ReclaimerScan.ScanAdopts` | src/collector.rs:361-408 | in every run: a scan that comes to publish has adopted every collector that was INVALID and ahead of its cursor at any time, whatever others did meanwhile; but for one found at the head when the head had moved |
| `ReclaimerScan.WholeScanAdopts` | src/collector.rs:346-408 | in every run: if no collector is linked meanwhile, a scan that publishes has adopted all that were INVALID when it took the lock |
| `ReclaimerScan.OneEscapes` | src/collector.rs:375-393 | at most one INVALID collector stays in the chain in one scan |
| `ReclaimerScan.InvalidStays` | src/collector.rs:226-248 | once given up, a collector is INVALID for good |
| `ReclaimerAnswers.EnterAnswers` | src/collector.rs:281-299 | entering in a new epoch with garbage rotates, and afterwards the flag is set if and only if some list is not empty |
| `ReclaimerAnswers.FailAnswers` | src/collector.rs:300-317 | after a failing destructor what had not been dropped is in the current list again, last item first; the flag is set if it was or anything was left; the countdown stays |
| `ReclaimerAnswers.RetiredIsUnreachable` | src/collector.rs:216-222 | in every run: no reader finds an instance after its retirement |
| `ReclaimerAnswers.ClearCheckAnswers` | src/collector.rs:429-450 | `clear_chain` gives up exactly at a collector that is not INVALID, and meets them in the order of the chain |
| `ReclaimerAnswers.ClearSwapAnswers` | src/collector.rs:450-466 | it detaches the chain if and only if it is as long as when the lock was taken, although only the head is compared |
| `ReclaimerAnswers.ClearsTheChain` | src/collector.rs:429-466 | in every run: if all collectors are INVALID when it takes the lock and none is linked meanwhile, `clear_chain` does detach the chain and goes on to drop all of them |
| `ReclaimerChain.NeverLost` | src/collector.rs:375-398 | a collector linked by `alloc` stays in the chain, whatever scans unlink, until it is INVALID |
| `ReclaimerChain.ChainIsComplete` | src/collector.rs:361-408 | the links from the head visit every collector in use and none but those in use or INVALID |
| `ReclaimerChain.MutualExclusion` | src/collector.rs:469-501 | at most one thread is in a section under the chain lock |
| `ReclaimerChain.ClearedUnread` | src/collector.rs:429-466 | when `clear_chain` detaches the chain no thread is inside a guard |
| `ReclaimerChain.NeverStuck` | src/collector.rs:151-183 | a thread in the middle of an operation always has a next step |
| `ReclaimerChain.TeardownNeverStuck` | src/collector.rs:429-466 | so has `clear_chain` |
| `EpochClock.RefinesClock` | src/collector.rs:346-426 | every step is a step of a clock: a whole scan, however it interleaves, is one atomic advance guarded by "every announced epoch is current", or nothing |
| `EpochClock.RunRefinesClock` | src/collector.rs:346-426 | every run of the reclaimer is a run of the clock |
| `EpochWrap.ExactUnlessWrapped` | src/collector.rs:126-131 | a step on stored epochs is the same step on unbounded ones if and only if it is not a guard whose announcement is a positive multiple of 64 epochs old with a rotation or a countdown to do |
| `EpochWrap.RunExact` | src/collector.rs:47-50 | every run on stored epochs is a run on unbounded ones in which some guards skip a rotation |
| `WrapReached.WrappedReached` | src/collector.rs:126-133 | there is such a run: an idle collector with garbage looks up to date after 64 epochs, enters a guard and does not rotate |
| `BoundedRuns.BoundedReclamation` | src/collector.rs:151-183 | in every run of the machine: while no other thread is inside a guard, the lock is free when the thread scans and its destructors do not fail, whatever is in its lists is dropped within 196 further outermost guards; without `accelerate` by exactly the guard computed. Nested guards, destructors that retire, adopted collectors, and the steps of all other threads may come in between |
| `BoundedRuns.EveryStep` | src/collector.rs:81-183 | each single step keeps that count: an outermost guard uses up one, every other step none, and `accelerate` only saves some |
| `BoundedRuns.Counted` | src/collector.rs:81-183 | so along a run the count and the guards entered add up to what they were |
| `BoundedRuns.OthersLeaveAlone` | src/collector.rs:375-420 | threads outside guards, linking, invalidating, locking or clearing, touch neither the collector of another thread in use nor the epoch |
| `BoundedRuns.DropStep` | src/collector.rs:300-317 | what a rotation has taken is dropped or still to be dropped after each step, and stays dropped |
| `CollectorAlone.BoundedReclamation` | src/collector.rs:162-178 | with the other collectors inactive or invalid and the lock free, a retired instance is dropped within 196 further outermost guards from any countdown; without `accelerate` by exactly the guard computed |
| `CollectorAlone.BoundIsTight` | src/collector.rs:44 | 195 guards may not be enough |
| `CollectorAlone.GuardSpends` | src/collector.rs:291-319 | each guard uses up at least one of those an instance can survive, and drops it exactly when none is left |
| `CollectorAlone.EnterRests` | src/collector.rs:126-133 | entering rotates if and only if the epoch is new to the collector and it has garbage, and then drops exactly the oldest list |
| `CollectorAlone.UpdatedMeans` | src/collector.rs:281-321 | where the items of each list are after a rotation, with or without failing destructors, and that the flag tells whether there are any |
| `ReclaimerAlone.ReachableRests` | src/collector.rs:151-183 | every collector of every reachable state satisfies, between guards, what the bound assumes |
| `ReclaimerAlone.EnterAdds` | src/collector.rs:81-147 | when the oldest list holds instances only, the machine's steps of one entry add up to what the code does in one call |
| `ReclaimerAlone.DrainsAdd` | src/collector.rs:300-317 | the single drops add up to the loop that drops a list of instances |
| `CollectorCode.Root.LockChain` | src/collector.rs:469-481 | takes the lock exactly if it is free, and clears the mark |
| `CollectorCode.Root.UnlockChain` | src/collector.rs:484-501 | gives the lock back and keeps the mark |
| `CollectorCode.Root.Alloc` | src/collector.rs:251-278 | a fresh, inactive collector with full countdown is in front of the same chain, and lock and mark are as they were |
| `CollectorCode.Root.Unlink` | src/collector.rs:375-393 | the chain afterwards is the chain before without the one collector |
| `CollectorCode.Root.ClearChain` | src/collector.rs:429-466 | succeeds if and only if the lock is free and all collectors are INVALID; then the chain is empty and each has dropped exactly its three lists |
| `CollectorCode.Collector.Collect` | src/collector.rs:216-222 | the item joins the current list and the flag is set; nothing else changes |
| `CollectorCode.Collector.EpochUpdated` | src/collector.rs:281-321 | with garbage the lists move up by one, the oldest is dropped in order up to the first failing destructor and the rest is current again; afterwards the flag is set if and only if some list is not empty, so, if nothing fails, if and only if the old previous or current list was not |
| `CollectorCode.Collector.Walk` | src/collector.rs:361-408 | the loop leaves exactly the collectors the specification keeps, adopts exactly the others in order, and ends early exactly at the first active one in another epoch |
| `CollectorCode.ScanMeans` | src/collector.rs:361-408 | what that comes to for each collector: a scan reaches up to the first active one in another epoch; of those before, exactly the INVALID ones leave the chain and are adopted |
| `CollectorCode.Collector.Scan` | src/collector.rs:346-426 | lock, walk, publication and unlocking together |
| `CollectorCode.Collector.EndGuard` | src/collector.rs:151-183 | the countdown, the scan when it has run out, and the state byte |
| `CollectorCode.Collector.NewOutermost` | src/collector.rs:81-133 | announcement, rotation, and the end of the guard if a destructor fails |
| `CollectorCode.Collector.NewGuard` | src/collector.rs:81-147 | nested guards only count; too many fail |
| `CollectorCode.Collector.PassGarbage` | src/collector.rs:226-248 | refused inside a guard; otherwise INVALID exactly if there is garbage, and then the scan is enforced |
| `CollectorCode.Collector.ClearForDrop` | src/collector.rs:324-343 | all three lists are dropped, in the order of the code |
| `CollectorCode.Collector.Accelerate` | src/collector.rs:54-56 | the countdown is zero |
| `GuardCode.Guard.DeferExecute` | src/guard.rs:176-181 | the closure is one more instance in the current list |
| `GuardCode.Guard.Drop` | src/guard.rs:191-196 | dropping a guard is `end_guard` |
| `GuardCode.UseGuard` | src/guard.rs:36-40 | creating an outermost guard, working under it and dropping it does to collector and epoch exactly what one guard of `BoundedReclamation` does |
| `SlotSafety.ValuesConserved` | src/bag.rs:449-628 | in every reachable state the values pushed are the values given back, in slots, in flight, and lost by a panicking fold, as multisets |
| `SlotSafety.OwnedByExactlyOne` | src/bag.rs:50-60 | each owned bit belongs to exactly one operation in flight |
| `SlotSafety.FourStates` | src/bag.rs:50-60 | every step of every operation moves every slot along an edge of the documented four-state machine, or not at all |
| `SlotDeath.DeadForever` | src/bag.rs:457-459 | a fallback array without instantiated and unowned slot never gets one again |
| `SlotDeath.OnlyPublishFills` | src/bag.rs:474-495 | no step but publishing instantiates a slot or makes one live (when a push must publish: `SlotAnswers.PushPublishes`) |
| `SlotDeath.StepKnows` | src/bag.rs:535-544 | an operation that comes to know that an array is empty has just made it dead, or it was |
| `SlotDeath.SafeToLetGo` | src/bag.rs:170-180 | once a pop has reported emptiness or a drain is done, no value can be stranded: nothing is left but what operations in flight own, and when all are done everything was handed back |
| `SlotDeath.NothingStranded` | src/bag.rs:208-215 | in a dead array each value is in a slot whose owner will take it out |
| `SlotDeath.EmptiedOnce` | src/bag.rs:175-180 | the deletion of an array is asked for at most once |
| `SlotAnswers.PushAnswered` | src/bag.rs:449-513 | in every run a push is refused, with its own value, only if at some moment while it ran no slot was free, or no slot was live and it must not revive an empty array; otherwise its value was live at some moment |
| `SlotAnswers.PushPublishes` | src/bag.rs:474-490 | a push that may revive the array, or finds a live slot, succeeds when it comes to publish: its slot is live then and has its value |
| `SlotAnswers.PopAnswered` | src/bag.rs:516-561 | in every run a pop returns a value that was live while it ran, and `empty` is what it saw when it let the slot go; it finds nothing only if at some moment no slot was live |
| `SlotAnswers.DrainAnswered` | src/bag.rs:565-628 | in every run a drain ends only if at some moment while it ran no slot was live |
| `SlotAnswers.OthersLeave` | src/bag.rs:449-628 | no step of another operation touches the slots an operation owns |
| `SlotAnswers.AloneFinishes` | src/bag.rs:449-628 | wherever the others have stopped, a push left alone ends within 6 accesses, a pop within 4, a drain within 5 more than the array is long |
| `StorageCode.Storage.Len` | src/bag.rs:440-446 | the number of instantiated and unowned slots |
| `StorageCode.Storage.Push` | src/bag.rs:449-513 | the bit scan fills the lowest free slot exactly if one exists and the array may take a value; otherwise nothing changes and the value comes back |
| `StorageCode.Storage.Pop` | src/bag.rs:516-561 | the bit scan empties the lowest live slot exactly if one exists, and says whether the array is empty |
| `StorageCode.Storage.PopAll` | src/bag.rs:565-628 | all live values in ascending order of slots, and no others |
| `StorageCode.PushMeans` | src/bag.rs:449-513 | on multisets: the value is added, and the array is alive exactly if it holds a value |
| `StorageCode.PopMeans` | src/bag.rs:516-561 | on multisets: one value is taken out if there is any, and `empty` is exact |
| `StorageCode.PopAllRest` | src/bag.rs:565-628 | on multisets: the values returned are all values, and none is left |
| `BagCode.Bag.Push` | src/bag.rs:111-127 | the bag contains exactly one more value, for any array length and number of fallback arrays, which are values in a `StackCode.Stack`; an array is added exactly if the primary array and the newest fallback array have no free slot |
| `BagCode.Bag.TryPush` | src/bag.rs:146-148 | accepted exactly if the primary array has a free slot |
| `BagCode.Bag.Pop` | src/bag.rs:169-185 | `None` if and only if the bag is empty; otherwise the bag contains exactly one value less, the one returned; the fallback arrays are used first, and one left empty is deleted from the stack |
| `BagCode.Bag.PopAll` | src/bag.rs:208-215 | the values folded are the contents, and the bag is empty |
| `BagCode.Bag.Len` | src/bag.rs:240-246 | the number of values |
| `BagCode.Bag.IsEmpty` | src/bag.rs:265-271 | exactly if there is no value |
| `BagIteration.IterMut.Next` | src/bag.rs:359-398 | yields the slot at the next place of the list of all occupied slots, and `None` at its end, while it cleans up the entries of fallback arrays that are deleted |
| `BagIteration.EachPlaceOnce` | src/bag.rs:359-398 | that list has every occupied slot of every array exactly once |
| `BagIteration.ShiftFinds` | src/bag.rs:366-374 | the wrapping shift and the count of zeros find the next occupied slot, also when the shift amount is 32 and wraps |
| `CountWord.ExactUnlessOverflow` | src/ref_counted.rs:75-114 | in every run the word is twice the references minus one while there are any, and even afterwards, if and only if there are never more than 2^63 |
| `CountWord.Overflow` | src/ref_counted.rs:75-90 | with 2^63 references one more clone and a drop retire an instance that is still referenced |
| `CountOverflow.OverflowReached` | src/ref_counted.rs:75-90 | a run in which there are 2^63 references, counted exactly until then: from there that step is possible |
| `CountWord.ReportedOnce` | src/ref_counted.rs:96-114 | exactly one drop reports the last reference, when none is left |
| `CountWord.RetiredForGood` | src/collectible.rs:59-67 | after that no handle is created, no drop is pending and the word stays even, whatever links are stored in it |
| `CountWord.UpgradeFails` | src/ref_counted.rs:45-55 | an upgrade that starts after the retirement fails |
| `CountAnswers.UpgradeAnswered` | src/ref_counted.rs:45-55 | in every run an upgrade fails only if the instance was retired by then; if it succeeds, its handle has been one |
| `CountAnswers.CloneAnswered` | src/ref_counted.rs:75-90 | in every run a clone succeeds |
| `CountAnswers.AloneFinishes` | src/ref_counted.rs:45-114 | an operation left alone ends within two accesses |
| `CountWord.OneMeansUnique` | src/ref_counted.rs:59-65 | the word 1 means that the handle at hand is the only reference |
| `SharedCells.WordsCountReferences` | src/ref_counted.rs:75-114 | in every run with any number of instances, cells and threads each word is twice the handles and cells that refer to the instance minus one while there are any, and even with one report afterwards, in all states if and only if no instance ever has more than 2^63 references |
| `SharedCells.InvDo` | src/atomic_shared.rs:166-457 | every action keeps the counts and that what is referred to is there |
| `SharedCells.RefsConserved` | src/atomic_shared.rs:166-457 | references are conserved: handles and cells after an action are those before, plus what it adds, minus what it drops |
| `SharedCells.NothingDangles` | src/atomic_shared.rs:452-457 | what a handle or a cell refers to is not freed, nor has its last reference been reported |
| `SharedCells.ReportedOnce` | src/shared.rs:291-296 | exactly one drop, of a handle or of a cell, reports the last reference, when no handle and no cell is left |
| `SharedCells.RetiredForGood` | src/shared.rs:191-200 | after that no handle and no cell ever refers to the instance again |
| `SharedCells.MovesKeep` | src/atomic_shared.rs:166-230 | `swap`, `compare_exchange` in both outcomes and `update_tag_if` change no number of references and no word (what they do: `SwapTrades`, `ExchangeTrades`, `RetagSets`) |
| `SharedCells.ExchangeTrades` | src/atomic_shared.rs:268-294 | a compare-exchange that succeeds trades the handle for what the cell contained; one that fails gives it back and changes nothing |
| `SharedCells.SwapTrades` | src/atomic_shared.rs:166-176 | a swap trades the handle for what the cell contained, and the cell contains the new pointer and tag |
| `SharedCells.RetagSets` | src/atomic_shared.rs:211-230 | a successful `update_tag_if` sets exactly the tag of exactly this cell |
| `SharedCells.CellsComeAndGo` | src/atomic_shared.rs:452-457 | a new cell takes over its handle; dropping a cell leaves handles and other cells alone |
| `SharedCells.HandlesComeAndGo` | src/shared.rs:191-296 | creating and cloning yield exactly one handle, releasing takes exactly one away |
| `SharedCells.UpgradeObtains` | src/ref_counted.rs:45-55 | in every run a pointer becomes a handle if and only if there is a reference |
| `SharedCells.LoadFinds` | src/atomic_shared.rs:400-409 | `get_shared` finds nothing exactly if the cell is empty when loaded |
| `SharedCells.TryObtains` | src/atomic_shared.rs:400-409 | it obtains a handle exactly if the instance loaded is still referenced, so never to a retired or freed one, and loads again otherwise |
| `LinkCode.Link.SetNextPtr` | src/collectible.rs:59-67 | the pointer stored is the pointer read back, null included, and the word is even |
| `LinkCode.Link.NextPtr` | src/collectible.rs:51-57 | null exactly if the address word is zero; otherwise a pointer of the address and the vtable stored |
| `LinkCode.Link.TryAddRef` | src/ref_counted.rs:45-55 | succeeds exactly on an odd word |
| `LinkCode.Link.DropRef` | src/ref_counted.rs:96-114 | reports the last reference exactly when the word was 1; the subtraction saturates |
| `LinkCode.DeferredClosure.Drop` | src/collectible.rs:93-100 | the closure runs once, however often this is called |
| `ChainInv.InvDo` | src/linked_list.rs:70-558 | every access of every thread keeps the invariant of links, activations, dead entries and the abstract list |
| `ChainTheorems.NoLostEntry` | src/linked_list.rs:499-558 | an entry that is not deleted is reached along the links from every cell in front of it in its list, by cells in the order of the list |
| `ChainTheorems.NeverLost` | src/linked_list.rs:499-558 | so in every run |
| `ChainTheorems.AbstractList` | src/linked_list.rs:239-277 | the abstract list has exactly the roots and the entries not deleted, in the order in which links visit them |
| `ChainTheorems.DeletionIsFinal` | src/linked_list.rs:162-172 | an entry keeps its place, and once deleted stays deleted |
| `ChainTheorems.DeletedOnce` | src/linked_list.rs:162-172 | no two steps delete the same entry |
| `ChainTheorems.OnlyDeleteDeletes` | src/linked_list.rs:162-172 | only `delete_self` deletes, and it takes exactly that entry out of the abstract list |
| `ChainAnswers.DeletesExactly` | src/linked_list.rs:162-172 | an entry not deleted becomes deleted in exactly the steps of `delete_self` for it, by a caller or by a pop |
| `ChainAnswers.MarksExactly` | src/linked_list.rs:70-104 | it becomes marked, or unmarked, in exactly the steps of `mark`, or `unmark`, for it and of insertions behind it with that tag |
| `ChainTheorems.MarkIsKept` | src/linked_list.rs:527-554 | no step of a traversal changes a tag or the abstract list |
| `ChainTheorems.InsertionIsBehind` | src/linked_list.rs:251-272 | an insertion takes effect exactly if the link is still the one seen, then directly behind its head, with the successor that the head had |
| `ChainTheorems.NullIsLast` | src/linked_list.rs:506-522 | what follows a cell without successor in its list is deleted |
| `ChainTheorems.RootIsFirst` | src/queue.rs:447-473 | what lies between a root and what it points to is deleted |
| `ChainInv.InsertLinks` | src/stack.rs:411-421 | if no handle to the old top could be had, the following compare-exchange fails |
| `ChainInv.InvWalk` | src/linked_list.rs:499-558 | what the activations of the recursive clean-up have learnt stays true whatever others do (what they answer: `ChainAnswers.WalkAnswered`, `ChainAlone.WalkAlone`) |
| `ChainAnswers.WalkAnswered` | src/linked_list.rs:499-558 | in every run the answer of `next_ptr` is what the head was linked to at some moment of the call, with every cell in between deleted at that moment; an entry answered was not deleted during the call, namely at that very moment, unless the last access was the one that linked the head to it, and then everything it skipped was deleted |
| `ChainAlone.ActivationAlone` | src/linked_list.rs:499-558 | an activation left alone, at any depth, within whatever recursion, returns an entry that is not deleted, or null, with its head linked to it, within four accesses for every cell from its head on |
| `ChainAlone.WalkAlone` | src/linked_list.rs:310-312 | a traversal left alone, among operations that have stopped anywhere, answers the first entry behind its head that is not deleted, or null if there is none, links the head to it, and changes no tag, not the list, and no link in front of its head |
| `ChainAlone.CleanupAlone` | src/stack.rs:439-460 | a clean-up left alone moves the root from the deleted entry to the first entry that is not deleted |
| `ChainAnswers.StackBound` | src/linked_list.rs:499-530 | in every run a call has at most 65 activations at once |
| `ChainInv.InvDie` | src/atomic_shared.rs:268-310 | an entry loses its last reference only after it was deleted and unlinked |
| `ChainProgress.NeverStuck` | src/linked_list.rs:499-558 | an operation in flight always has a next step |
| `ListRuns.ListStep` | src/stack.rs:244-295 | for any number of lists at once, each step of each thread changes each list as a sequence operation (push at the front, insert behind, delete one, take all) or not at all |
| `ListRuns.RootStep` | src/stack.rs:244-249 | `pop_all` gives the new stack exactly the list of the old one |
| `ListRuns.ListsInRuns` | src/stack.rs:398-460 | so in every run |
| `ListRuns.EntriesFollow` | src/linked_list.rs:239-277 | the entries of a list follow its root and are not deleted |
| `ListRuns.FollowersAreEntries` | src/linked_list.rs:239-277 | and all such are its entries |
| `ListRuns.OneListOnly` | src/stack.rs:244-249 | no entry is in two lists |
| `ListRuns.InSomeList` | src/stack.rs:276-295 | every entry not deleted is in one |
| `ListRuns.EntriesReachable` | src/stack.rs:439-460 | and is found by following the links from the root of that list |
| `QueueRuns.FirstInFirstOut` | src/queue.rs:252-271 | in every run of a queue, what was popped followed by what is in the queue is what was pushed, in the same order |
| `QueueRuns.QueueStep` | src/queue.rs:377-440 | each step appends one entry, takes the oldest one, or leaves the queue as it is |
| `QueueRuns.PushIsLast` | src/queue.rs:393-409 | a push that takes effect comes last, wherever `newest` pointed |
| `QueueRuns.PopIsFirst` | src/queue.rs:258-269 | a pop that takes effect takes the oldest entry |
| `QueueRuns.ConditionalPush` | src/queue.rs:377-440 | when `push_if` takes effect, the entry judged last is the newest of the queue, or the queue is empty if none was judged |
| `QueueRuns.OldestIsOldest` | src/queue.rs:447-473 | `oldest` never passes an entry that is not deleted, and is null only if the queue is empty |
| `ListCode.Entry.Mark` | src/linked_list.rs:70-73 | succeeds exactly without tag; the successor stays |
| `ListCode.Entry.Unmark` | src/linked_list.rs:101-104 | succeeds exactly with the mark |
| `ListCode.Entry.DeleteSelf` | src/linked_list.rs:162-172 | succeeds exactly once |
| `ListCode.Entry.PushBack` | src/linked_list.rs:239-277 | refused exactly on a deleted entry; otherwise the list behind is the new entry and the list before |
| `ListCode.NextPtrRecursive` | src/linked_list.rs:499-558 | for any number of deleted successors and any depth: terminates, designates the first entry not deleted, links the head and as many deleted entries as the depth allows straight to it, and changes no tag and no other link |
| `ListCode.NextPtr` | src/linked_list.rs:310-312 | the first entry of the live sequence, which is unchanged |
| `ListCode.NextShared` | src/linked_list.rs:345-358 | a handle to the same entry |
| `ListCode.LiveSkips` | src/linked_list.rs:499-558 | skipping the deleted entries in front does not change the live sequence |
| `StackCode.Stack.PushIf` | src/stack.rs:398-436 | judged by the newest entry; the contents are the new entry and the contents before, or unchanged |
| `StackCode.Stack.PopIf` | src/stack.rs:276-295 | empty, refused or the newest entry, the contents losing exactly that |
| `StackCode.Stack.PopAll` | src/stack.rs:244-249 | a new stack with all the contents, leaving none |
| `StackCode.Stack.CleanupNewest` | src/stack.rs:439-460 | `newest` points to the newest entry not deleted, the contents are unchanged |
| `StackCode.Stack.Next` | src/stack.rs:542-549 | iteration moves to the next entry not deleted |
| `StackCode.Stack.Len` | src/stack.rs:344-346 | iteration meets each entry of the contents once |
| `StackCode.Stack.IsEmpty` | src/stack.rs:362-366 | exactly if there are no contents |
| `QueueCode.Queue.PushIf` | src/queue.rs:377-440 | judged by the newest entry, and by the entry that `newest` points to in case that is deleted; the contents are the contents before and the new entry, with `newest` pointing to it, or unchanged, with `newest` as before; whatever entries callers have deleted or marked, as long as the push comes to an end |
| `QueueCode.Queue.PopIf` | src/queue.rs:252-271 | empty, refused or the oldest entry, the contents losing exactly that; `newest` is null if this has emptied the queue, and otherwise as before |
| `QueueCode.Queue.CleanupOldest` | src/queue.rs:447-473 | `oldest` points to the oldest entry not deleted; `newest` is null if this has emptied the queue, and otherwise as before |
| `QueueCode.Queue.IsEmpty` | src/queue.rs:343-345 | exactly if there are no contents, in all states reached by pushes and pops (`Ready`, which they keep) |
| `QueueCode.Traverse` | src/queue.rs:476-486 | from any entry to the last one not deleted, the contents unchanged; at the start itself if everything behind is deleted |
| `QueueCode.Queue.Round` | src/queue.rs:396-439 | one round of a push takes effect if and only if the entry where the traversal ended has neither tag; if it fails the next one succeeds if and only if the queue is open, which failing does not change |
| `QueueCode.Queue.OpenMeans` | src/queue.rs:396-439 | open: the newest entry of the contents carries no mark, or there are no contents and no deleted entries left |
| `QueueCode.Queue.CallersKeep` | src/linked_list.rs:70-172 | marking, unmarking and deleting entries through handles keeps what the operations of the queue rely on |

## Left out

- Memory orderings, fences and the x86 `swap` (src/collector.rs:106-125): atomic steps are sequentially consistent.
- Thread-local storage, and the temporary collector with which `CollectorAnchor::drop` clears the chain (src/collector.rs:531-554): a thread ends by invalidating its collector, and `clear_chain` is a step sequence of its own. Retirements by destructors that run inside `clear_chain` are not modelled.
- Real memory, alignment and types: instances are numbers, addresses in `LinkCode` are even and not zero. In the reclaimer, reaching the last reference and `collect` are one step.
- The mark that enforces scans is always respected by the machine where the code may ignore it, and its setting is always available; both only add runs.
- Panics other than those of a destructor during a rotation and of a fold in `pop_all`.
- `ARRAY_LEN` outside 1..32 in the bag.
- Progress of threads that do interfere with each other: no lock-freedom, no fairness. Operations on slots, count words and lists are shown to end when left alone, those of the reclaimer to have a next step.
- What `Bag::pop` that returns `None`, `Queue::is_empty` or `len` say about one instant when others interfere; for `pop` this is proved of each single array (`SlotAnswers.PopAnswered`).
- The order in which a concurrent stack pops: the deletion tag is on the entry, so an entry may be pushed over one that is being popped. What is proved concurrently is that nothing is lost, doubled or reordered; strict last in, first out is proved for one thread.
- `newest` of the queue as a field of the machine: pushes may start at any cell, so its value cannot matter there; it is a field of the class.
- Entries of a queue that callers mark or delete directly, in the concurrent results on the queue; lists, stacks and the queue run by one thread allow it. A marked last entry makes pushes fail for ever (src/queue.rs:396-439), see above.
- Entries that callers link into a queue with `push_back`.
- `Tag::Both` on list links, and updates of `link_ref` other than through `LinkedList`.
- In the code run by one thread, repetitions after a failed compare-exchange: alone, none fails. The outer loops of `next_ptr_recursive` and `push_back` therefore appear as their one round; that of `push_if_internal` is there, since a deleted entry makes its exchange fail too.
- Iterators other than those of the bag and the stack, `peek`, `clone`, formatting, equality, `Owned`, `AtomicOwned`, `Ptr` and `Tag` as subjects of their own.
- `AtomicShared::clone` and `into_shared`, which are a `get_shared` and a `swap`, and `Shared::drop_in_place`.
- CollectorAlone.BoundedReclamation: destructors neither fail nor retire there; `BoundedRuns.BoundedReclamation` has destructors that retire. A failing destructor postpones the rest of its list (`ReclaimerConservation.FreedExactly`).
- ReclaimerAlone.EnterAdds: not for lists that hold adopted collectors, which the machine drops item by item and the class as one.
- ReclaimerAlone.DrainsAdd: likewise for lists of instances only.
- CollectorCode.Collector.EpochUpdated: an adopted collector in the rotated list is recorded as dropped; what it holds is followed by the machine, not by the class.
