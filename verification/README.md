# Fibers and their testbed: a Dafny model

The repository implements fibers twice, as a kernel module (`fibers/`) and in user space
(`libfibers/testbed/src/ult.c`, `jmp.S`), and measures them with a discrete-event simulation of GSM
cells whose events go through a calendar queue. This project models six parts of it and proves what
each promises; `dafny verify dfyconfig.toml` checks everything.

| files | what they model |
|---|---|
| `Events`, `Calendar`, `CalendarDequeue`, `CalendarCursor`, `CalendarWidth`, `CalendarRun`, `CalendarExact`, `CalendarConservation` | the calendar queue as functions on values, and its theorems |
| `CalendarTrace`, `CalendarFailure` | runs of the queue as written that go wrong |
| `Calqueue` | the same queue as the code runs it: one array of 65536 cells, a cursor, mutually recursive `put`, `deq`, `resize`, `new_width`, each method proved equal to its function |
| `FiberMachine` | the machine both fiber implementations refine: a fiber has at most one owner |
| `KernelFibers`, `KernelInvariant`, `KernelSteps`, `KernelTheorems`, `KernelRefinement` | the kernel protocol, one lock, field write, save, unlock or load per step, any number of threads and fibers, any interleaving |
| `KernelGuesses`, `KernelTrace` | the same protocol when callers name fids that were never returned to them, and two runs in which that goes wrong |
| `UserFibers`, `UserRefinement`, `UserResumption`, `UserTrace` | the user-space protocol in the same style, the second return of `set_jmp` included |
| `FiberStorage` | fiber-local storage, as functions and as a class over a bitmap and an array |
| `Jump` | `_set_jmp` and `_long_jmp` instruction by instruction on registers, flags and memory |
| `Generator` | the multiply-with-carry generator, the numbers a sequence of values of `random()` gives, and the exponential draw |
| `ChannelBits`, `ChannelTable` | the packed channel words, and the doubly linked list of busy channels updated in place |
| `Cell`, `Simulation`, `SeededRun`, `MainLoop` | the cell as a closed system, the cell on its queue, the run that a sequence of values of `random()` determines, and the event loop with all data structures in place |
| `SimulationTrace`, `SimulationFailure` | runs of the simulation as written that go wrong |
| `Options` | a value that may be missing |

## How to read it

Operations that the source performs in place are methods whose contracts equate the new state with a
function of the old one; the theorems are lemmas about those functions. The two fiber protocols are
transition systems over values instead, because what matters there is the interleaving of steps of
different threads. What `random()` returns is an arbitrary sequence of 31-bit values, and the logarithm
any function with its sign below one. In `Cell` and `Simulation` the draws of an event are arbitrary
values of the right sign; in `SeededRun` and `MainLoop` they are what the generator gives, as a function
of that sequence and of how many numbers have been drawn before.

A calendar operation has three outcomes: it succeeds, there is no event, or a resize computes a width
that is not a positive number. That last outcome is `None` in the functions and `ok == false` in the
methods, and the model of the run ends there. It is C's `0.0 / 0`, a zero from ties, or a negative
number from samples that came out in the wrong order; `CalendarWidth.WidthUsableIff` says which when,
and `CalendarFailure.CBucketNegative` where the code then links an event.

## What was found in the code

- The direct search of `calqueue_deq` moves `lastbucket` and `lastprio` but never recomputes
  `buckettop`, which `localinit` does for a fresh calendar. The distance between the two, the *cursor
  gap*, then decides whether the next removal is a minimum: it is for all contents if and only if the
  gap is safe (`CalendarCursor.SafeGapExact`), and from a safe gap a direct search leaves an unsafe one
  exactly when it leaves a gap of one (`CalendarCursor.DirectSearchGap`). From `calqueue_init`, the puts
  3.1, 3.7, 4.2 come out as 3.1, 4.2, 3.7 (`CalendarTrace.TimelyRunMisordered`), and the simulation built
  on the queue can run its clock from 4.2 back to 3.7 (`SimulationTrace.TimeRunsBackwards`). With
  `buckettop` recomputed after a direct search (the variant `Repaired`) no such premise is needed.
- The same happens while `new_width` takes its samples, and the width can then be negative. The five
  timely puts 3.1, 3.7, 4.2, 4.3, 4.4 into a new queue give the width -0.5, and 3.1 and 3.7 are linked
  in front of the new calendar, where no bucket is (`CalendarFailure.FivePuts`). The simulation gets
  there in five turns (`SimulationFailure.ResizeFails`). It cannot happen in a timely run whose direct
  searches leave safe gaps (`CalendarConservation.TimelyRunConserves`), nor in the repaired variant; in
  general a resize goes through if and only if the separations of at least twice the average add up to
  less than the stretch from first to last sample (`CalendarWidth.ResizeSucceedsIff`).
- The seed comes from a 31-bit `random()`, so its high word is zero and stays zero: the second of the
  two generators never contributes (`Generator.SeededKept`).
- `context_switch` resumes with the saved `rax` and tests `set_jmp(...) == 0` on its low 32 bits. A
  fiber whose `rax` had a zero low word when it was saved takes the saving branch again when resumed
  (`Jump.ResumedTest`): it clears its own flag while it is current, and jumps without a trylock to the
  fiber it had left for. In a run after which all threads are back in user code, the flag of every
  current fiber was set throughout if and only if this never happened
  (`UserResumption.FlaggedIffStraight`); one run ends with two threads in one fiber
  (`UserTrace.TwoThreadsOneFiber`). The test of `completed_fibers` at `ult.c:216` can leave such a
  zero behind once all fibers are done.
- The kernel protocol relies on callers naming only fids returned to them: `generate_fiber` puts a fiber
  into the table, unlocked, before the call that makes it is over. Two things can go wrong for callers
  that guess. If another thread holds the fiber of a conversion when its own trylock comes, that trylock
  fails and the thread stays in the table without a fiber for good; it happens in no other way
  (`KernelGuesses.FiberlessIffBlocked`); its next switch to a free fiber then fails with the target's
  lock held (`KernelGuesses.FiberlessSwitchStrandsLock`). In a run where no trylock of a conversion
  fails, whatever fids are named, ownership and locks are as they should be
  (`KernelTheorems.MutualExclusion`, `KernelTheorems.NoStrandedLock`). And if another thread loads a
  fiber before `ALLOC_CONTEXT` has written its context, it goes on in its creator's context, on the
  creator's stack; after that it gets the fiber's own (`KernelGuesses.CreatorsContext`). Both have runs
  from the start (`KernelTrace.ConversionBlocked`, `KernelTrace.TwoThreadsOneStack`).
- The time stamp of the INIT event is never set. It is also never used.

## Model

| member | source | states |
|---|---|---|
| CalendarDequeue.DequeueMinimumIff | libfibers/testbed/src/calqueue.c:165-230 | for every well-formed calendar, a removal hands out a minimum exactly when no event lies below the bucket top of the step that reaches it, or a minimal event is the first reached that does |
| CalendarDequeue.SafeGapMinimum | libfibers/testbed/src/calqueue.c:177-226 | with the cursor on `lastprio`, nothing pending before it and a safe gap, scan or direct search returns a global minimum |
| CalendarDequeue.AdmittedUnderSafeGap | libfibers/testbed/src/calqueue.c:38-40 | under a safe gap the half width of slack admits exactly the events of the current year, and none of a later one |
| CalendarDequeue.DirectSearchMin | libfibers/testbed/src/calqueue.c:214-226 | a direct search always finds a minimum, whatever the cursor |
| CalendarDequeue.DirectSearchIff | libfibers/testbed/src/calqueue.c:177-212 | the scan gives up exactly when nothing is below the bucket top of the step that reaches it |
| CalendarCursor.ScanHitKeepsGap | libfibers/testbed/src/calqueue.c:179-188 | a scan hit under a safe gap keeps the gap at the value it had |
| CalendarCursor.DirectSearchGap | libfibers/testbed/src/calqueue.c:214-226 | from a safe gap, the gap after a direct search is safe if and only if it is not one |
| CalendarCursor.CursorAfterHit | libfibers/testbed/src/calqueue.c:179-212 | where bucket top and cursor stand after a hit |
| CalendarCursor.CursorAfterDirectSearch | libfibers/testbed/src/calqueue.c:201-226 | the bucket top has moved one whole round, wherever the search ended; recomputed, it belongs to the event found |
| CalendarCursor.GoodRemoval | libfibers/testbed/src/calqueue.c:165-230 | a removal that does not spoil the gap keeps every premise of the minimum theorem |
| CalendarCursor.UnsafeGapFails | libfibers/testbed/src/calqueue.c:177-226 | for every cursor with an unsafe gap there are two pending events that come out in the wrong order |
| CalendarCursor.SafeGapExact | libfibers/testbed/src/calqueue.c:177-226 | a cursor removes a minimum for all contents not before `lastprio` if and only if its gap is safe |
| CalendarWidth.SamplingUndone | libfibers/testbed/src/calqueue.c:75-122 | without ties, taking samples and putting them back leaves every list, the size and the cursor exactly as found, in whatever order the samples came out |
| CalendarWidth.Canonical | libfibers/testbed/src/calqueue.c:250-269 | without ties the pending events, the width and the number of buckets determine every list |
| CalendarWidth.WidthUsableIff | libfibers/testbed/src/calqueue.c:90-116 | for samples in whatever order they came out, the new width is a positive number if and only if the separations of at least twice the average add up to less than the whole stretch, negative if and only if to more; a positive one is below six averages |
| CalendarWidth.WidthUsableSorted | libfibers/testbed/src/calqueue.c:90-116 | for samples in order, ties included, the width is never negative, and positive if and only if some separation is positive and below twice the average |
| CalendarWidth.WidthExact | libfibers/testbed/src/calqueue.c:90-116 | the width times the number of separations below twice the average is three times their sum, the average being that of the whole stretch; without such a separation there is none |
| CalendarWidth.ResizeSucceedsIff | libfibers/testbed/src/calqueue.c:130-163 | a resize goes through if and only if the samples it takes meet that criterion |
| CalendarWidth.WidthBound | libfibers/testbed/src/calqueue.c:83-116 | strictly increasing samples always have a separation below twice the average, so the divisor is not zero and 0 < width < 6 averages |
| CalendarRun.RunFromInit | libfibers/testbed/src/calqueue.c:130-292 | from `calqueue_init`, in every run of timely puts and gets whose direct searches leave safe gaps, the queue answers as a sorted list does and its outputs never decrease, across any number of resizes |
| CalendarRun.RunRefinesSortedList | libfibers/testbed/src/calqueue.c:130-292 | the same from any good state, with the final states still matching |
| CalendarRun.RepairedRunFromInit | libfibers/testbed/src/calqueue.c:38-40 | with the bucket top recomputed as `localinit` does, timely puts alone suffice |
| CalendarRun.ListNonDecreasing | libfibers/testbed/src/calqueue.c:184-199 | the sorted list itself never goes back in time under timely puts |
| CalendarExact.RunFromInitExact | libfibers/testbed/src/calqueue.c:130-292 | a timely run from `calqueue_init` that goes through answers as the sorted list does if and only if every get meets the criterion of a minimal removal |
| CalendarExact.OutputsExact | libfibers/testbed/src/calqueue.c:165-292 | the same from any calendar and list with the same events |
| CalendarExact.RunSucceedsIff | libfibers/testbed/src/calqueue.c:130-163 | any run, ordered or not, goes through if and only if no put is negative and every resize finds usable samples |
| CalendarRun.GoodSample | libfibers/testbed/src/calqueue.c:83-88 | samples come out strictly increasing when no direct search among them spoils the gap |
| CalendarRun.GoodResize | libfibers/testbed/src/calqueue.c:130-163 | a resize of a good calendar succeeds, keeps the contents and ends with gap zero |
| CalendarTrace.TimelyRunMisordered | libfibers/testbed/src/calqueue.c:214-226 | a timely run from `calqueue_init` whose gets return 3.1, 4.2, 3.7 |
| CalendarTrace.GapOfOne | libfibers/testbed/src/calqueue.c:201-226 | after its first get that run has a gap of one |
| CalendarFailure.CBucketIs | libfibers/testbed/src/calqueue.c:250-252 | with a positive width C's cast and remainder give the bucket of the model |
| CalendarFailure.CBucketNegative | libfibers/testbed/src/calqueue.c:250-252 | with a negative width they give the negated bucket of the width's size, so an event is linked in front of the calendar exactly when that bucket is not zero |
| CalendarFailure.FivePuts | libfibers/testbed/src/calqueue.c:100-116 | five timely puts into a new queue compute the width -0.5, and two of them land in front of the calendar |
| CalendarConservation.RunConserves | libfibers/testbed/src/calqueue.c:51-278 | in every run whose resizes all find a usable width, ordered or not, what was pending plus what was put is what is pending plus what was handed out |
| CalendarConservation.RunKeepsGeometry | libfibers/testbed/src/calqueue.c:43-44 | in every such run the number of buckets stays a power of two in 2..32768, and a calendar that can still grow never holds more than two events per bucket |
| CalendarConservation.RunKeepsFilled | libfibers/testbed/src/calqueue.c:43-43 | in every run that goes through the queue never holds fewer events than half its buckets less two |
| CalendarConservation.PutResizes | libfibers/testbed/src/calqueue.c:271-278 | a put doubles the buckets exactly when it makes more than two events per bucket and there are fewer than 32768, with a fresh cursor and the width its samples call for; otherwise buckets, width and cursor stay |
| CalendarConservation.GetResizes | libfibers/testbed/src/calqueue.c:194-196 | a get halves the buckets exactly when it leaves fewer events than half of them less two, with a fresh cursor and the width its samples call for, one if at most one event is left; otherwise buckets and width stay |
| CalendarConservation.UsableRunConserves | libfibers/testbed/src/calqueue.c:51-278 | a run whose puts are not negative and whose resizes find usable samples goes through, loses nothing and keeps the geometry |
| CalendarConservation.TimelyRunConserves | libfibers/testbed/src/calqueue.c:51-278 | a timely run from `calqueue_init` whose direct searches leave safe gaps goes through, loses nothing and keeps the geometry, the lower bound included |
| CalendarConservation.RepairedRunConserves | libfibers/testbed/src/calqueue.c:38-40 | with the bucket top recomputed every timely run does |
| Calendar.Enqueue | libfibers/testbed/src/calqueue.c:250-272 | one event more, every list still sorted in its right bucket, cursor untouched |
| Calendar.Dequeue | libfibers/testbed/src/calqueue.c:177-226 | one pending event handed out and removed, the cursor in its bucket and at its priority |
| Calendar.Resize | libfibers/testbed/src/calqueue.c:130-163 | a resize with a usable width, and only that, gives a well-formed calendar of the new size with the same contents and `lastprio` |
| Calendar.AfterSampling | libfibers/testbed/src/calqueue.c:75-122 | sampling keeps contents, size, width and cursor, ties or not |
| Calendar.SampleSize | libfibers/testbed/src/calqueue.c:67-73 | all of up to five events are sampled; above that five and one more for every ten pending, 25 exactly from 200 on; so never more than are pending, and none is null |
| Calendar.FirstHit | libfibers/testbed/src/calqueue.c:177-212 | the first step of the round that finds an event below its bucket top, if any |
| Calendar.Best | libfibers/testbed/src/calqueue.c:214-222 | the first bucket with the least head among those looked at |
| Events.InsertSorted | libfibers/testbed/src/calqueue.c:254-269 | insertion keeps a list sorted and adds exactly the event |
| Events.InsertAt | libfibers/testbed/src/calqueue.c:257-269 | the place where the traversal stops, after all equals, is where insertion puts the event |
| Calqueue.Calqueue.constructor | libfibers/testbed/src/calqueue.c:233-236 | a new queue is the initial calendar |
| Calqueue.Calqueue.LocalInit | libfibers/testbed/src/calqueue.c:19-45 | the cells of the new calendar are empty, the cursor is on the start priority, all other cells are as before |
| Calqueue.Calqueue.Link | libfibers/testbed/src/calqueue.c:250-272 | inserting into one cell is insertion into the calendar |
| Calqueue.Calqueue.Position | libfibers/testbed/src/calqueue.c:257-269 | the traversal stops before the first later event |
| Calqueue.Calqueue.Put | libfibers/testbed/src/calqueue.c:238-278 | put is insertion followed by a doubling when the calendar is over its threshold; while sampling, insertion alone; the number of buckets doubles exactly above two events per bucket |
| Calqueue.Calqueue.Resize | libfibers/testbed/src/calqueue.c:130-163 | the resize of the model, or nothing while sampling; never entered from within a resize |
| Calqueue.Calqueue.CopyFrom | libfibers/testbed/src/calqueue.c:153-162 | re-inserting from the old cells, which the new calendar does not overlap, never crosses the threshold |
| Calqueue.Calqueue.NewWidth | libfibers/testbed/src/calqueue.c:51-125 | the width and the calendar left behind are those of the model |
| Calqueue.Calqueue.Deq | libfibers/testbed/src/calqueue.c:165-230 | deq is a removal followed by a halving below the threshold; while sampling, removal alone; the number of buckets halves exactly below half of it less two |
| Calqueue.Calqueue.Scan | libfibers/testbed/src/calqueue.c:177-212 | the scan ends within one round, at the first hit |
| Calqueue.Calqueue.SearchDirectly | libfibers/testbed/src/calqueue.c:214-222 | the loop settles on the first bucket with the least head |
| Calqueue.Calqueue.Get | libfibers/testbed/src/calqueue.c:280-292 | get hands out the payload of what deq removes, and nothing when empty; the number of buckets halves exactly below half of it less two |
| Calqueue.Calqueue.Empty | libfibers/testbed/src/calqueue.c:294-296 | empty means nothing is pending |
| FiberMachine.OneOwnerAlways | fibers/fiber.c:210-283 | in every run of the abstract machine no two threads run one fiber |
| FiberMachine.ContextKept | fibers/fiber.c:264-280 | a fiber's context is as it left it until it runs again |
| KernelTheorems.RunInv | fibers/fiber.c:131-467 | the invariant of the kernel protocol holds in every world of every interleaving; its part about locks and states also when callers name any fid, as long as no trylock of a conversion has failed |
| KernelTheorems.MutualExclusion | fibers/fiber.c:250-274 | no fiber is current on two threads; a current fiber is locked by its thread and `state` is that thread's pid; for callers that guess fids too, as long as no trylock of a conversion has failed |
| KernelTheorems.LockedIffHeld | fibers/fiber.c:158-169 | an unlocked fiber has `state` zero, and a locked one is held by exactly one thread, in the same runs |
| KernelTheorems.NoStrandedLock | fibers/fiber.c:250-261 | after a successful trylock the second test never fires and the `-ESRCH` exit is never taken; in user code a thread holds its current fiber's lock and no other, in the same runs |
| KernelTheorems.BusySwitchFails | fibers/fiber.c:250-254 | switching to a held fiber changes only its count of failed activations and returns `-EAGAIN` |
| KernelTheorems.FailedActivations | fibers/fiber.c:250-254 | over runs, the count of failed activations of a fiber is the number of trylocks that found it locked |
| KernelTheorems.OwnFiberIsBusy | fibers/fiber.c:250-254 | switching to one's own fiber is such a switch |
| KernelTheorems.RunningTime | fibers/fiber.c:264-274 | the total running time is the sum of the completed slices, never negative; activations exceed switch-outs by one exactly while a thread counts the fiber as its own, in the same runs |
| KernelTheorems.SliceOnOneClock | fibers/include/fiber.h:91-96 | each slice starts with a stamp the leaving thread itself took and ends on that thread's clock, so the subtraction never underflows |
| KernelTheorems.SliceIsStay | fibers/include/fiber.h:91-96 | over runs, the slice added at a switch-out starts with what the clock of that thread showed at its own step that took the fiber, and ends with what it shows now |
| KernelTheorems.RefusedCalls | fibers/fiber.c:150-155 | a second conversion is refused with -17, creation and switching by an unconverted thread and switching to a fid not in the table with -3, at once and changing nothing; every other such call goes on |
| KernelTheorems.CallsEnd | fibers/fiber.c:131-467 | nobody waits: every step of a call brings it nearer to its end, whatever other threads do, and no call takes more than fifteen steps |
| KernelTheorems.StorageRefusals | fibers/fiber.c:317-323 | a storage call of a converted thread is refused exactly when the storage of its own fiber refuses it, with that number and nothing changed |
| KernelTheorems.StorageCallsAtomic | fibers/fiber.c:317-323 | between test and write of a storage call nothing interferes, so each call acts as one step |
| KernelTheorems.StorageStep | fibers/fiber.c:285-467 | only the thread running a fiber changes its storage |
| KernelTheorems.ValueKept | fibers/fiber.c:366-464 | a value set is the value got until the fiber sets or frees that index again, whatever other fibers do |
| KernelTheorems.GetReturnsSet | fibers/fiber.c:326-373 | a get returns what the same fiber last stored at that index, on whatever thread it ran then, unless it stored again or freed the index in between |
| KernelGuesses.FiberlessIffBlocked | fibers/fiber.c:151-165 | whatever fids callers name, at any point of any run some thread is in the table without a fiber, its conversion over, if and only if the trylock of a conversion has failed by then |
| KernelGuesses.ConvertedIffUnblocked | fibers/fiber.c:151-168 | and every thread in the table has had a current fiber whenever it was back in user code if and only if no such trylock has failed |
| KernelGuesses.FiberlessForGood | fibers/fiber.c:151-155 | a thread left without a fiber stays so: it is refused a second conversion, and none of its switches gets past the look-up of the old fiber |
| KernelGuesses.FiberlessSwitchStrandsLock | fibers/fiber.c:250-261 | the next switch of such a thread to a free fiber returns `-ESRCH` and keeps the lock |
| KernelGuesses.CreatedInTable | fibers/fiber.c:201-208 | while a fiber is being created it is in the table, free, with its creator's context, and nothing but its unreturned number keeps other threads from it |
| KernelGuesses.CreatorsContext | fibers/include/fiber.h:64-71 | a thread loading such a fiber ends up with the creator's context if it comes before the creator's last writes, and with the fiber's own if it comes after them |
| KernelTrace.CreatorsContextTaken | fibers/fiber.c:210-283 | in any world that keeps the invariant and where a fiber is being created, a switch of another thread that names it succeeds and leaves both threads with one context |
| KernelTrace.OwnContextTaken | fibers/fiber.c:210-283 | the same switch after the creator's last writes gets the context meant for the fiber |
| KernelTrace.Switches | fibers/fiber.c:210-283 | a switch to a free fiber that nothing interrupts returns SUCCESS and leaves registers, table, locks, states, counts, stamps and the slice of the old fiber exactly so |
| KernelTrace.Converts | fibers/fiber.c:131-168 | a conversion that nothing interrupts returns the next fid and leaves the thread running the new fiber, locked, counted and stamped |
| KernelTrace.ConversionBlocked | fibers/fiber.c:151-165 | a run from the start at whose end a thread is back in user code without a fiber and another fiber is locked by nobody that holds it |
| KernelTrace.TwoThreadsOneStack | fibers/fiber.c:201-208 | a run from the start without a failed conversion at whose end two threads are back in user code with the same registers and stack |
| KernelRefinement.StepRefines | fibers/fiber.c:131-283 | every kernel step is a step of the one-owner machine |
| KernelRefinement.RunRefinesOneOwner | fibers/fiber.c:131-283 | every kernel run is a run of the one-owner machine |
| KernelRefinement.ContextIntegrity | fibers/fiber.c:201-280 | between two points of a run a fiber's context changes only by the fiber itself computing: it resumes with what it was left or created with |
| KernelRefinement.CreatedContext | fibers/include/fiber.h:64-71 | a created fiber is published free, and its context has the entry point and the parameter of the call that made it, the stack and base pointers at the top of that call's stack, and all else as its caller had it then |
| KernelRefinement.FirstLoad | fibers/fiber.c:276-280 | the thread that first finds itself in that fiber has exactly that context |
| KernelRefinement.LoadedContext | fibers/fiber.c:276-280 | back in user code a thread has exactly the context of its current fiber |
| UserFibers.RunInv | libfibers/testbed/src/ult.c:170-221 | as long as no loaded context takes the saving branch again, the invariant of the user-space protocol holds under any interleaving |
| UserFibers.MutualExclusion | libfibers/testbed/src/ult.c:207-221 | as long as that holds, no fiber is current on two threads, and its flag is set while it is current |
| UserFibers.BusySwitchReturns | libfibers/testbed/src/ult.c:211-212 | switching to oneself or to a busy fiber leaves owners and contexts as they are |
| UserFibers.NullSwitchReturns | libfibers/testbed/src/ult.c:211-212 | switching to null changes nothing |
| UserFibers.CallsEnd | libfibers/testbed/src/ult.c:170-221 | the same in user space, for every step but a load that takes the saving branch again |
| UserResumption.FlaggedIffStraight | libfibers/testbed/src/ult.h:24-28 | in a run after which all threads are back in user code, the flag of every current fiber was set throughout if and only if no loaded context took the saving branch again |
| UserResumption.RetakeStarts | libfibers/testbed/src/ult.h:24-28 | such a load leaves a thread about to clear the flag of its own current fiber, or, in the boot frame of a created fiber, loading that fiber for good |
| UserResumption.RetakesIsTest | libfibers/testbed/src/ult.h:24-28 | on the machine of the assembly routines, the test of a resumed context_switch finds zero exactly when the model says that the context retakes |
| UserTrace.TwoThreadsOneFiber | libfibers/testbed/src/ult.h:24-28 | a run at whose end two threads have the same current fiber, its flag clear, and both run the context of a third |
| UserRefinement.StepRefines | libfibers/testbed/src/ult.h:24-28 | every user-space step but such a load is a step of the one-owner machine |
| UserRefinement.RunRefinesOneOwner | libfibers/testbed/src/ult.c:207-221 | every user-space run without such a load is a run of the one-owner machine |
| UserRefinement.ContextIntegrity | libfibers/testbed/src/ult.h:24-28 | in such a run a fiber resumes with the context it was left or created with |
| UserRefinement.LoadedContext | libfibers/testbed/src/ult.h:24-28 | in such a run a thread outside a switch has exactly the context of its current fiber |
| FiberStorage.AllocTakesLeastFree | fibers/fiber.c:317-323 | alloc returns the least free index and adds exactly it, or `-EINVAL` when all are taken |
| FiberStorage.FreeClearsExactly | fibers/fiber.c:412-419 | free succeeds exactly on a live index and removes exactly it; values stay |
| FiberStorage.SetThenGet | fibers/fiber.c:459-466 | after a set, get returns the value at that index and what it did elsewhere |
| FiberStorage.CodesExact | fibers/fiber.c:375-467 | which index each call accepts, what it answers to any other, and that a refused call changes nothing |
| FiberStorage.NewStorage | fibers/include/fiber.h:59-62 | a new storage has nothing live, refuses every index, and first hands out index 0 holding zero |
| FiberStorage.FreedIsRefused | fibers/fiber.c:412-419 | a freed index is refused by get, free and set alike |
| FiberStorage.AllocatedShowsWord | fibers/fiber.c:317-320 | an index just handed out shows the word stored there |
| FiberStorage.ReallocatedShowsOldValue | fibers/fiber.c:317-320 | an index freed and handed out again still shows its old value |
| FiberStorage.Storage.FindFirstZeroBit | fibers/fiber.c:317-317 | the search loop finds the first clear bit |
| FiberStorage.Storage.Allocate | fibers/fiber.c:285-324 | the class does what the function says |
| FiberStorage.Storage.Get | fibers/fiber.c:326-373 | the class does what the function says, error codes included |
| FiberStorage.Storage.Release | fibers/fiber.c:375-420 | the class does what the function says, error codes included |
| FiberStorage.Storage.Set | fibers/fiber.c:422-467 | the class does what the function says, error codes included |
| Jump.SetJmp | libfibers/testbed/src/jmp.S:25-69 | the buffer holds the caller's registers, flags and FPU state; control returns with rax zero, and besides the buffer only the three slots below the return address change |
| Jump.LongJmp | libfibers/testbed/src/jmp.S:93-132 | every register, the flags and the FPU state come from the buffer, rax from the second argument, control goes to the saved return address |
| Jump.RoundTrip | libfibers/testbed/src/jmp.S:25-132 | whatever ran in between, a jump through an intact buffer resumes where set_jmp returned, on its stack, with its registers, flags and FPU state, rdi as the macro pushed it and rax the value passed |
| Jump.ResumedMemory | libfibers/testbed/src/jmp.S:93-132 | of memory the jump writes the return address back where it was and the value into the slot below, on the stack resumed, and nothing else |
| Jump.ResumedTest | libfibers/testbed/src/ult.h:24-28 | resuming with the saved rax takes the saving branch again exactly when the low word of rax was zero |
| Jump.FlagsRoundTrip | libfibers/testbed/src/jmp.S:29-32 | all six status flags survive lahf, seto, the addition of 0x7f and sahf |
| Jump.StatusBits | libfibers/testbed/src/jmp.S:117-119 | sahf takes the flags from the bits of the byte, three of which it ignores, and the addition overflows exactly for a positive byte |
| Jump.RestoreFlags | libfibers/testbed/src/jmp.S:115-118 | the flags restored are those of the saved word, OF rebuilt by the addition |
| Generator.CarryExact | libfibers/testbed/src/numerical.c:22-23 | neither multiply-with-carry step wraps 32 bits |
| Generator.CarryDivides | libfibers/testbed/src/numerical.c:22-22 | 2^16 times the result is the argument plus a multiple of 36969 * 2^16 - 1 |
| Generator.CarryRange | libfibers/testbed/src/numerical.c:22-22 | the step maps [1, m-1] into itself |
| Generator.CarryInverse | libfibers/testbed/src/numerical.c:22-22 | multiplying by 2^16 modulo m takes the step back |
| Generator.CarryInjective | libfibers/testbed/src/numerical.c:22-22 | the step is injective below m |
| Generator.SeededKept | libfibers/testbed/src/numerical.c:15-23 | the high word of the seed stays zero |
| Generator.NeverReseeded | libfibers/testbed/src/numerical.c:15-17 | a non-zero seed from `random()` is never replaced, however many numbers are drawn |
| Generator.OneSeed | libfibers/testbed/src/numerical.c:15-26 | if the first value of `random()` is not zero, all numbers come from it |
| Generator.StreamsApart | libfibers/testbed/src/numerical.c:15-23 | two threads seeded differently never reach the same seed |
| Generator.OutputsApart | libfibers/testbed/src/numerical.c:19-26 | and so never draw the same number at the same turn |
| Generator.OutputRange | libfibers/testbed/src/numerical.c:25-26 | every output lies strictly between 0 and 1 |
| Generator.OutputReaches | libfibers/testbed/src/numerical.c:25-26 | over all words the output comes within one 32-bit step of 0 and four of 1 |
| Generator.ExpentQuantile | libfibers/testbed/src/numerical.c:36-36 | for any inverse `exp` of the logarithm, the draw x of a positive mean satisfies exp(-x / mean) = 1 - u |
| Generator.ExpentScales | libfibers/testbed/src/numerical.c:36-36 | the draw scales with the mean, and is zero for mean zero |
| Generator.Random.Draw | libfibers/testbed/src/numerical.c:11-27 | the number returned is the one the values of `random()` determine for this count of draws; a zero seed is replaced, any other advanced |
| Generator.Random.Expent | libfibers/testbed/src/numerical.c:30-37 | a negative mean is refused and draws nothing; otherwise one number is drawn and the result is its exponential around the mean, not negative, and positive for a positive mean |
| ChannelBits.MasksApart | libfibers/testbed/src/model.h:27-30 | different bits have disjoint masks |
| ChannelBits.SetAndReset | libfibers/testbed/src/model.h:34-42 | setting and clearing a bit of the packed words adds and removes exactly that channel |
| ChannelTable.MutuallyInverse | libfibers/testbed/src/channel.c:146-157 | the list is acyclic, and next and prev undo each other |
| ChannelTable.WalkEnds | libfibers/testbed/src/channel.c:30-35 | walking along prev visits the chain in order and ends after its last node |
| ChannelTable.Channels.constructor | libfibers/testbed/src/model.c:56-59 | no channel is busy, although half of the words allocated are never cleared |
| ChannelTable.Channels.SetChannel | libfibers/testbed/src/model.h:37-39 | the set bits gain exactly the channel |
| ChannelTable.Channels.ResetChannel | libfibers/testbed/src/model.h:40-42 | the set bits lose exactly the channel |
| ChannelTable.Channels.FindFree | libfibers/testbed/src/channel.c:128-134 | the least free channel, or -1 when every channel is busy |
| ChannelTable.Channels.Interference | libfibers/testbed/src/channel.c:159-167 | the sum is zero exactly when there is no other channel, and two numbers are drawn for each; the sum is over the powers of the others, each with the gain and fading of its own two numbers |
| ChannelTable.Channels.SetPower | libfibers/testbed/src/channel.c:169-177 | the power is within its limits, and the division is by a positive number; two numbers are drawn unless the sum is zero; the power is the least without interference, and otherwise brings the signal to ten times the interference or as near as the limits allow |
| ChannelTable.Channels.FadingRecheck | libfibers/testbed/src/channel.c:27-36 | every channel's fading is drawn anew and positive; nothing else changes; one number is drawn for each, the exponential of mean one it gives |
| ChannelTable.Channels.Allocation | libfibers/testbed/src/channel.c:120-188 | the least free channel becomes busy at the head of the list, or all are busy and the call aborts; list, words and powers stay in agreement; the count of numbers drawn depends only on how many channels are busy; the new channel's power fits the interference of the others, and every fading is that of its number |
| ChannelTable.Channels.Deallocation | libfibers/testbed/src/channel.c:86-117 | a live channel is removed, wherever its node sits, and nothing else; the abort is taken exactly when it is not busy; one number is drawn for each channel left |
| ChannelTable.Channels.Unlink | libfibers/testbed/src/channel.c:95-106 | unlinking head, middle or tail leaves a well-linked list without the node |
| Cell.RecomputeTaBounds | libfibers/testbed/src/channel.c:39-61 | the interval stays between 0.8 and 5 times the reference, so it is positive, and repeats weekly |
| Cell.RateByHour | libfibers/testbed/src/channel.c:45-60 | which factor holds in which hours of a working day, and at the weekend; its first second still counts as the early morning of a working day |
| Cell.RecomputeTaAt | libfibers/testbed/src/channel.c:40-43 | the interval is the reference times the factor of that second of the week, in every week |
| Cell.TurnKeepsClosed | libfibers/testbed/src/model.c:37-102 | whichever pending event comes next, a closed cell handles it without abort and stays closed |
| Cell.RunStaysClosed | libfibers/testbed/src/main.c:70-94 | with a queue that keeps its events, in whatever order it hands them out, the cell is closed after INIT in every run, the loop never aborts, never finds the queue empty nor a foreign event, and ends exactly with the last completed call |
| Cell.ClosedMeans | libfibers/testbed/src/model.c:37-102 | closed means one START_CALL pending, END_CALLs in bijection with the busy channels, nothing else pending, so never more than one event beyond the number of channels |
| Simulation.SimRunIsRun | libfibers/testbed/src/main.c:70-94 | the turns the loop makes on its calendar queue, in whatever order that hands out events, are a run of the closed system |
| Simulation.SimQueueBounded | libfibers/testbed/src/main.c:73-76 | after every turn made the queue is not empty and holds no more than 1001 events |
| Simulation.OrderlyGoesOn | libfibers/testbed/src/main.c:70-94 | without ties and spoiled gaps the next turn goes through as well, with a queue within those bounds |
| Simulation.RepairedGoesOn | libfibers/testbed/src/main.c:70-94 | with the repaired queue it does as long as nothing ties |
| Simulation.RunInOrder | libfibers/testbed/src/model.c:26-82 | without ties and spoiled gaps every event handled is the earliest pending and the cell's clock never decreases, because every put is at or after the event being handled |
| Simulation.RunMinimumIff | libfibers/testbed/src/main.c:70-82 | in any run, ties and gaps or not, a turn handles an earliest pending event if and only if its get meets the criterion of a minimal removal |
| Simulation.MinimaKeepTime | libfibers/testbed/src/model.c:26-82 | after a turn whose get meets it, the cell's clock does not run backwards, whatever ties or gap there are |
| Simulation.RepairedRunInOrder | libfibers/testbed/src/model.c:26-82 | with the repaired queue this needs no premise on gaps |
| Simulation.TurnInOrder | libfibers/testbed/src/model.c:62-82 | one such turn: every resize succeeds, the earliest event is handled, the clock moves to it |
| Simulation.PutsLater | libfibers/testbed/src/model.c:62-82 | every event put carries its own priority as time stamp, not before the event being handled |
| SimulationTrace.TimeRunsBackwards | libfibers/testbed/src/model.c:26-82 | a run of the program as written, without ties, whose clock goes from 4.2 back to 3.7, for draws of the right sign |
| SimulationFailure.ResizeFails | libfibers/testbed/src/model.c:68-84 | a run of the program as written, without ties, whose fifth turn computes the width -0.8 and a cursor in front of the calendar |
| SeededRun.FailedIff | libfibers/testbed/src/main.c:70-94 | the run that the values of `random()` determine is cut short within `n` turns if and only if one of its first `n` turns has a resize without a usable width |
| SeededRun.OrderlyTrace | libfibers/testbed/src/main.c:70-94 | if the turns that these values determine have no ties and spoil no gap, none fails, each handles the earliest pending event, and the loop ends only with the last call |
| SeededRun.TraceLength | libfibers/testbed/src/main.c:70-94 | a run not cut short makes all `n` turns or ends with the last call before |
| SeededRun.CallQuantiles | libfibers/testbed/src/model.c:68-84 | the time to the next call is exponential around the rate the call leaves in the cell, from the last number the call takes; the duration of an accepted call around sixty, from the first |
| MainLoop.Fiber.StartCall | libfibers/testbed/src/model.c:68-84 | counters, list, words and queue change as the model of the event says for the draws the next numbers determine, and that many numbers are taken; when a put finds no usable width, the cell is left as the lines before it leave it |
| MainLoop.Fiber.EndCall | libfibers/testbed/src/model.c:86-95 | the same for the end of a call |
| MainLoop.Fiber.ProcessInit | libfibers/testbed/src/model.c:39-66 | INIT makes a fresh cell and schedules the first call at twenty times the next number |
| MainLoop.Fiber.Turn | libfibers/testbed/src/main.c:70-94 | one turn of the loop on the real data structures is the turn of the model that the next numbers determine, or leaves of the cell what a failing turn leaves |
| MainLoop.Fiber.Run | libfibers/testbed/src/main.c:59-94 | the whole loop, for any number of turns: it ends in the state of the run that the numbers still to come determine, it is cut short if and only if a turn of that run fails, and leaves of the cell what that turn had done; otherwise it neither aborts nor runs out of events, and finishes exactly with the last completed call |

## Left out

- Calqueue: the bucket lists are sequences held in the cells of one array, so list nodes, their `malloc` and `free`, and sharing between lists are not modelled.
- Calqueue: priorities are reals, not doubles, so rounding is not modelled; the casts to `int` and `long` are floors without overflow, and priorities are not negative.
- Calendar.Resize: is `None` where the code goes on with a width that is not a positive number; where it then links events is `CalendarFailure.CBucketNegative`, but what later operations make of the cells in front of the calendar, or of a NaN, is not modelled.
- Calqueue.Calqueue.Put: says nothing of the queue after a doubling with such a width, for the same reason.
- Calqueue.Calqueue.Resize: returns false there, for the same reason.
- Calqueue.Calqueue.Deq: says nothing of the queue after a halving with such a width, for the same reason.
- Calqueue.Calqueue.Get: says nothing of the queue after a halving with such a width, for the same reason.
- CalendarConservation.RunConserves: is about runs that go through, which `CalendarExact.RunSucceedsIff` characterizes, since after a negative width the code does lose events.
- CalendarConservation.RunKeepsGeometry: is about the same runs.
- Cell.RunStaysClosed: takes a queue that keeps its events; the calendar queue is one as long as its resizes go through.
- Simulation.SimRunIsRun: is about the turns before the first failing resize, since after it the code may lose events.
- Simulation.SimQueueBounded: is about the same turns.
- CalendarRun.RunFromInit: assumes pairwise distinct pending priorities, because with ties sampling may reorder equals or yield width zero; the order of ties across a resize is not stated.
- KernelFibers: hash tables and RCU are atomic maps, one thread group, no allocation failures, no cleanup while fibers run; a thread converts itself while no other call of its own is under way.
- KernelFibers: the system call return path may write the call's result over the restored `rax`; that path is not part of this model.
- KernelFibers: the two fiber protocols are transition systems over values rather than classes, since a method call could not be interleaved with the steps of other threads.
- UserFibers: `ult_creat` is one step taken while nothing else runs, as the testbed waits for initialization to complete; the signal-stack trampoline and a timer signal arriving inside a switch are not modelled, nor is the test that `context_switch_create` (`ult.h:31-36`) makes when the creator is resumed with its saved `rax`: a creation that takes the saving branch again is not seen as such a load.
- UserFibers: stack memory is not part of a context. After `ult_unlock(context_old)` the thread still reads `context_new` from the released fiber's stack and its call of `_long_jmp` pushes onto it, while another thread may already run there.
- Jump: memory is read and written in aligned quadwords, the FPU block is 64 of them, and the buffer is disjoint from the stack slots used; only the six status flags are modelled.
- Generator: the logarithm and `pow` are any functions with the signs the code relies on. The numbers of a fiber come from one thread's generator that nothing else draws from meanwhile; a fiber that goes on in another thread, with that thread's seed, is not modelled.
- ChannelTable: the SIR record is part of its channel, path gains are positive numbers, and freed nodes are simply no longer in the list.
- Cell: counters are unbounded, so the wrap-around of a 32-bit counter of blocked calls is not modelled; time stays below 2^31 seconds.
- MainLoop.Fiber.Turn: says nothing of the queue, nor of how many numbers were drawn, after a resize without a usable width.
- MainLoop.Fiber.StartCall: says nothing of the queue, nor of how many numbers were drawn, after such a put.
- MainLoop.Fiber.Run: says nothing of the queue once it is cut short; the loop is cut off after a given number of turns, any number, since nothing bounds how long calls go on being blocked; its two FLS slots are a variable and a constant.
- Device registration, ioctl copying, `/proc`, kretprobes, timers, thread creation, the scheduler of the testbed and the benchmark script: no algorithm to prove.
