# GreenCloud scheduler and allocator: a verified model

GreenCloud simulates a data center on top of ns-2. This project models the C++ core that
schedules tasks on processor cores, reserves resources, hosts and migrates virtual machines, and
chooses where a task goes, and proves what that core promises: in every run, for every input.

## How it is organised

Two layers say the same thing twice. The first is a specification on values: what the state of a
provider looks like after each operation. The laws over all runs are proved there.

- `Scheduling`: the state of a provider (cores, active and in-fly allocations, finished and failed
  tasks, event timer) and each operation of the core scheduler as a function of it. `Simulation`:
  the events that reach a provider (clock, its queued event, probe, dispatch, arrival, a VM hosted or
  leaving) and all runs of them.
- `Admission`: the admission invariant of one core and the rates that follow from it. `Deadlines`,
  `Timers`, `Endings`, `Probing`, `Shares`, `WorkAccounting`: the laws of whole runs. `Landings`,
  `LateArrivals`: tasks that travel, and runs in which that goes wrong.
- `FirstFit`, `InFlight`: which core an allocation goes to, exactly, and what a placed task has in flight.
- `Allocation`, `Reservations`: the greedy scan with rollback, and the books of a provider over all runs.
  `Bookings`, `BookedRuns`, `Holdings`: books and cores together, over all runs: reservations last exactly
  as long as the work.
- `Nesting`, `NestedLoad`: free capacity and computing load over a tree of hosts and VMs, over all runs.
  `LiveCores`: the load of a tree in which every core has its own history; `AvailableRates`: a lemma for it.
- `Surveys`: a policy that tests a list of providers, reservations included, and chooses one.
- `RestartLoops`: why the loops that erase, fail and start again from the beginning compute one thing.

The second layer is the code as it is written: classes with fields that are updated in place.

- `CoreScheduling`: task allocations, tasks, cores and the provider, with the loops over the lists
  that shrink while they are walked. Each method is proved to take the provider to the state that
  `Scheduling` gives, under the back-pointer invariant `Linked`: what is on a list of a core points
  at that core, is on no other list, and is still among the allocations of its task, which has not
  failed. A task being placed is the one exception, and `Linked` names it.
- `ResourcePool`, `VmHosting`: capacities, demands, virtual cores and migrations, proved against
  `Allocation`, with the lockstep that attaches each virtual core to the core whose capacity pays for it.
- `CoreLoads`: what hosting promises, put in terms of the load of the cores.
- `Placement`: how the three placement policies choose. `OutputQueue`: the linked list and the agent that queues
  task output for TCP.

`Common`, `Arithmetic` and `AllocLists` hold helpers. `dafny verify dfyconfig.toml` checks everything.

## What is assumed

- MIPS, capacities and time are real numbers, without rounding. DBL_MAX as "no event" is `None`.
- Task ids are unique. The code matches allocations by id (`src/ns2/greencloud/corescheduler.cc:115`),
  and ids are only unique per user.
- Each task has at least one computing capacity. Each demand has a non-empty capacity vector of
  non-negative values: the scan reads the first element without looking
  (`src/ns2/greencloud/resourceprovider.cc:76-87`).
- A task placed on arrival or tested has its deadline ahead. A task that fails while it travels and is
  received all the same is part of the model; `Endings.OneEnding` says exactly what it then costs.
- The list size in `src/ns2/greencloud/corescheduler.cc:298` is read after the call beside it.
- Cancelling an event that has fired does nothing.
- Whether memory and storage of a task fit enters `Scheduling` as a flag; `BookedRuns` takes it from the books.
- Which tasks and cores exist is a fixed set; the links between them are not fixed.

## Where the code does less than it seems to

- Admission is no guarantee for a task that still has to travel (`LateArrivals.FlightMissesDeadline`);
  what is needed when it arrives is in `Deadlines.TravelGuarantee`, and exactly, for a task of one load
  with nothing else about, in `Landings.LandsAlone`.
- With DVFS a core can be given more than its available rate: only the most urgent rate is capped, not
  that rate times the number of allocations (`LateArrivals.FlightOverloads`; exactly when:
  `Admission.PaceWithin`). Where tasks are placed on arrival, and nothing is hosted meanwhile, it cannot
  (`Shares.SharesWithin`).
- Hosting a VM does not ask what the tasks that run on the host need; what they can spare, exactly, is in
  `Admission.SparePays`.
- A task that fails in flight is received all the same: a second failure is counted, or its reservation
  is never returned (`LateArrivals.FailedInFlight`; exact counts in `Endings.OneEnding`).
- Two demands of one type may fit on less and not on more (`Allocation.TwoOfAKind`).
- So a migration whose reservation stood may lose its VM (`Reservations.MigrationLosesVM`).
- Allocating again without releasing loses track of what was held (`Reservations.SecondAttempt`).
- A random draw of exactly 1 makes the HEROS choice miss the ties (`Placement.ChooseHeros`).
- A comment before `removeCompleted` asks for the deadline to be checked before completion. The code
  checks completion first, and counts 1 MI left as complete; so does the model.

## Model

| member | source | states |
|---|---|---|
| Deadlines.DeadlineGuarantee | src/ns2/greencloud/resourceprovider.cc:466-481 | In every run of a provider of constant capacity that places tasks on arrival, DVFS on or off: each task that passed the test `maxrate*(N+1) <= available` never fails, and has either been finished no later than its deadline or has its deadline still ahead and an event queued before it |
| Deadlines.TravelGuarantee | src/ns2/greencloud/resourceprovider.cc:228-266 | The same in every run, with dispatches and with VMs hosted meanwhile, for each started task that had not failed before it was started. Each travelling task that arrives, fits and has not failed must find room: on each core that waits for it, (active allocations + those to start) x (largest required rate among them) is at most the available rate; and hosting may take of a core only what its tasks can spare. Tasks that fail on the way do the others no harm, whether they are then turned away or started all the same |
| Deadlines.RunKeepsInv | src/ns2/greencloud/corescheduler.cc:251-306 | The invariant behind both, kept by every such run: (number of active allocations) x (largest required rate) is at most the available rate, every running allocation is paid at least its required rate, and the timer fires before any of them is done; and without dispatches, if hosting leaves each core the rate it runs at, every core runs within its available rate |
| Admission.TestAdmits | src/ns2/greencloud/resourceprovider.cc:474-478 | The admission test is sound: whatever it lets onto a core keeps the product invariant of that core for the new number of allocations, whatever else is travelling there |
| Deadlines.StepResize | src/ns2/greencloud/corescheduler.cc:308-317 | Hosting takes rate from a core, or gives it back, while tasks run on it: the invariant survives if what runs can spare it |
| Admission.SparePays | src/ns2/greencloud/corescheduler.cc:294-306 | And exactly then the next setComputingRate without DVFS still pays every active allocation its required rate; with DVFS it does if and only if each required rate alone is at most the new available rate |
| Deadlines.SetRateAdmitted | src/ns2/greencloud/corescheduler.cc:294-306 | setComputingRate keeps the invariant and gives every active allocation at least the rate its deadline requires, whether the rate is the most urgent one times the count or the whole available rate, and although finished work leaves in between and travelling work may fail |
| Timers.NoMissedCompletion | src/ns2/greencloud/resourceprovider.cc:270-303 | After any run whatever, with probes, dispatches, failures and late arrivals: if some allocation on any core has a rate, an event is queued, not in the past and no later than the time at which that allocation completes |
| Timers.StepOk | src/ns2/greencloud/corescheduler.cc:276-286 | Each single step keeps the timer invariant, in particular probes, which only split the work accounting and remove work, and nextEvent, which keeps an earlier event |
| Probing.ProbeLeavesNoTrace | src/ns2/greencloud/resourceprovider.cc:437-445 | After testSchedulingPossibility the task is on no core, and every core has the work it had, less only completed and expired work, at the same rates and with the same completion times; only tasks past their deadline have failed, only tasks that had done their work have finished, now, and only these have returned reservations |
| Surveys.SurveyLeavesNoTrace | src/ns2/greencloud/dcscheduler/herosscheduler.cc:80-85 | The same after any list of providers has been tested, with the attempt and the release on the reservations of each: the task holds nothing, each provider has no trace of it, its books balance and every reservation is as before but for tasks that ended, and where none ended so is every free value; and a provider passes exactly if the reservation has room and every allocation finds a core |
| Surveys.TestLeavesNoTrace | src/ns2/greencloud/resourceprovider.cc:437-445 | One provider of that list |
| Bookings.TestKeepsBookings | src/ns2/greencloud/cloudtask.cc:59-68 | A test keeps cores and books in agreement: all memory and storage of a task that still holds its reservation is located, nothing of any other task is, and nothing changes for the former nor for VMs and migrations |
| Bookings.SurveyKeepsBookings | src/ns2/greencloud/dcscheduler/herosscheduler.cc:80-85 | So does testing any list of providers, for each of them; so a task that ended in a test has returned what it held, however many ended with it |
| BookedRuns.ReservedWhileRunning | src/ns2/greencloud/resourceprovider.cc:228-266 | In every run, each reservation tried against what is free at that moment and VMs and migrations coming and going: everything a running task demands of memory and storage is reserved on capacities of its type, and nothing for a task that does not run, unless it had failed in flight and was started all the same; free plus held is the specification throughout |
| BookedRuns.StepCoheres | src/ns2/greencloud/corescheduler.cc:131-199 | Each step keeps that agreement, whatever ends in it and in whichever of its parts |
| BookedRuns.ArrivalReserves | src/ns2/greencloud/resourceprovider.cc:237-260 | With at most one demand of each type, an arriving task whose test found room is not turned away by the second tryToAllocate |
| Holdings.RunningIsAdmitted | src/ns2/greencloud/resourceprovider.cc:228-266 | In every run a task that runs is an admitted one, so the deadline guarantee speaks of every task that ever runs |
| InFlight.PlacedInFull | src/ns2/greencloud/resourceprovider.cc:466-497 | After a task that was on no core has been placed, it runs nowhere and has in flight, over all cores, exactly one allocation for each load: with that load as its work, the deadline of the task and no rate |
| FirstFit.AdmitsExactly | src/ns2/greencloud/resourceprovider.cc:474-478 | A core passes the admission test if and only if each allocation on it, active or in flight, and the new one, times their number, needs no more than the available rate (work left over time left); a core without any rate also takes what has no work left |
| FirstFit.PlacedFirstFit | src/ns2/greencloud/resourceprovider.cc:466-493 | An allocation goes to the first core that passes the test, each asked in the state its predecessors left, and fails only if none passes |
| FirstFit.PlacedEach | src/ns2/greencloud/resourceprovider.cc:447-501 | A task is placed, and passes a test, exactly if its reservation fits and each of its allocations in turn finds a core |
| Surveys.PlacedIsReserved | src/ns2/greencloud/resourceprovider.cc:237-260 | With at most one demand of each type, the second tryToAllocate of recv succeeds for each task just placed, whichever tasks ended meanwhile |
| Probing.ProbeEnds | src/ns2/greencloud/resourceprovider.cc:461-499 | Which tasks a test can end: only tasks past their deadline fail, and only tasks that have done their work finish |
| Probing.PlaceAllocsLater | src/ns2/greencloud/resourceprovider.cc:461-497 | The same of an attempt that fails halfway: what had been placed for the task is taken off all cores again |
| Endings.OneEnding | src/ns2/greencloud/corescheduler.cc:178-191 | In every run: a task placed or received has finished, has failed or is on some core, and exactly one of the three; outputs were handed over exactly as often as there are finished tasks, so for each at most once; the failure count of the provider is the number of failed tasks plus the times a task failed in flight was received and turned away; and reservations are held exactly by the running tasks and by those failed in flight and started all the same |
| Endings.EndingsAreFinal | src/ns2/greencloud/cloudtask.cc:59-68 | Whatever happens later, a finished task stays finished at the time recorded and a failed one failed |
| Endings.RunSound | src/ns2/greencloud/corescheduler.cc:158-199 | The ledger of endings, reservations and failure count that every run keeps |
| LateArrivals.FailedInFlight | src/ns2/greencloud/resourceprovider.cc:237-259 | A run in which a task fails while it travels and is received all the same: not fitting, it is counted as a second failure; fitting, it keeps its reservation although it is on no core |
| Landings.LandsAlone | src/ns2/greencloud/resourceprovider.cc:247-254 | A travelling task of one load that arrives at a provider of any number of cores on which nothing else runs or waits and no event is queued, and which is left alone afterwards, meets its deadline if and only if its load is at most available rate x (deadline - arrival), or is at most 1 MI and the deadline has not passed; DVFS on or off |
| LateArrivals.FlightMissesDeadline | src/ns2/greencloud/resourceprovider.cc:466-481 | A run in which a task passes the admission test when it is dispatched, travels, is started, and finishes after its deadline: the guarantee does need placement on arrival |
| WorkAccounting.WorkConserved | src/ns2/greencloud/taskalloc.cc:43-69 | Over any sequence of updateMIPS and rate changes at increasing times, the work left is max(0, initial work - sum of rate x interval) |
| WorkAccounting.WorkNeverRises | src/ns2/greencloud/taskalloc.cc:54-69 | The work left never rises, whatever changes follow |
| WorkAccounting.ExtraUpdate | src/ns2/greencloud/taskalloc.cc:54-81 | An extra updateMIPS at any time in between changes nothing that later changes compute, nor the predicted completion time of unfinished work |
| WorkAccounting.SameCompletion | src/ns2/greencloud/taskalloc.cc:73-81 | Updating unfinished work leaves the time now + execTime where it was |
| Shares.SharesAddUp | src/ns2/greencloud/corescheduler.cc:251-261 | Right after setComputingRate the equal rates of the active allocations add up to current_mips_, which is 0 for an empty list |
| Shares.SharesWithin | src/ns2/greencloud/corescheduler.cc:294-306 | In every run that places tasks on arrival, in both DVFS modes and at any time, current_mips_ of every core is between 0 and its available MIPS |
| Shares.RatesPaid | src/ns2/greencloud/corescheduler.cc:201-261 | After setComputingRate with DVFS every active allocation is paid the largest (work left)/(time left) on the core, active or in flight, or all of the available rate if that is less; without DVFS an equal part of the available rate |
| Shares.SharesSpared | src/ns2/greencloud/corescheduler.cc:294-317 | The same where VMs are hosted and leave meanwhile, as long as what hosting takes of a core can be spared and is not run at already |
| Admission.PaceWithin | src/ns2/greencloud/corescheduler.cc:294-306 | The rate setComputingRate gives a core is within the available rate without DVFS; with DVFS if and only if at most one allocation is active, or nothing is available, or each required rate on the core, in flight or not, times the number of active allocations is at most the available rate |
| LateArrivals.FlightOverloads | src/ns2/greencloud/corescheduler.cc:296-298 | A run from the start in which a core of 10 MIPS is given 14: two allocations that have become urgent on the way |
| Scheduling.Swept | src/ns2/greencloud/corescheduler.cc:201-247 | After getMostUrgentTaskRate no allocation on the core has reached its deadline |
| Scheduling.MaxRate | src/ns2/greencloud/corescheduler.cc:214-231 | The most urgent rate is an upper bound of all required rates and is reached by one of them, or is 0 |
| Scheduling.SoonestExec | src/ns2/greencloud/corescheduler.cc:276-284 | The next delay is the least execution time on the list, if any allocation runs |
| RestartLoops.PurgeFailOne | src/ns2/greencloud/corescheduler.cc:158-169 | Failing one expired task and starting the loop again from the beginning comes to the same final state as removeCompleted from the original state |
| RestartLoops.PurgeCompleteOne | src/ns2/greencloud/corescheduler.cc:178-188 | So does taking off one completed allocation, with the task finished exactly if that was its last one on any core |
| RestartLoops.PurgeDone | src/ns2/greencloud/corescheduler.cc:194-198 | Where nothing is completed or expired removeCompleted changes nothing |
| RestartLoops.SweepFailOne | src/ns2/greencloud/corescheduler.cc:232-244 | Failing one overdue task in flight and starting again comes to the same final state |
| RestartLoops.FailTwice | src/ns2/greencloud/cloudtask.cc:59-77 | Failing two disjoint sets of tasks one after the other is failing their union: counts, reservations and every list |
| RestartLoops.MaxRateNext | src/ns2/greencloud/corescheduler.cc:218-226 | One turn of the maximum over a list of unexpired allocations |
| Allocation.SucceedsExactly | src/ns2/greencloud/resourceprovider.cc:54-134 | With at most one reserved demand per type, tryToAllocate succeeds if and only if every reserved demand has an order-preserving placement on capacities of its type and architecture that fits what is free |
| Allocation.SuccessMeans | src/ns2/greencloud/resourceprovider.cc:86-130 | After success, type by type: each amount of memory and storage of a task, and of any type for a VM or a migration, is located on a capacity of its type with at least its architecture; computing and networking of a task is unchanged and takes nothing; each capacity has lost exactly what now sits on it |
| Allocation.NoRoomFails | src/ns2/greencloud/resourceprovider.cc:54-134 | It fails if one amount of memory or storage of a task, or of any type for a VM or a migration, exceeds what is free of every capacity of its type and architecture |
| Allocation.OneFits | src/ns2/greencloud/resourceprovider.cc:58-97 | A single amount fits if and only if some capacity of its type, with at least its architecture, has that much free; computing and networking of a task always fit |
| Allocation.GreedyStaysAhead | src/ns2/greencloud/resourceprovider.cc:86-114 | If any order-preserving placement of one demand fits, the first-fit scan that never goes back places all of it |
| Allocation.GreedyComplete | src/ns2/greencloud/resourceprovider.cc:71-125 | The scan of one demand succeeds if and only if such a placement exists |
| Allocation.FillSound | src/ns2/greencloud/resourceprovider.cc:74-98 | Where the scan places amounts: in order, only on suitable capacities, taking from each capacity exactly what it is to hold and never more than is free |
| Allocation.SuccessIsMonotone | src/ns2/greencloud/resourceprovider.cc:54-134 | With at most one demand per type, success is preserved when free capacities grow |
| Allocation.TwoOfAKind | src/ns2/greencloud/resourceprovider.cc:74-98 | Without that condition it is not: two demands of one type that fit on some free capacities, and not when one of these grows, although a placement exists |
| Allocation.AllOrNothing | src/ns2/greencloud/resourceprovider.cc:126-130 | A failed attempt by a consumer that held nothing restores every free value and every location |
| Allocation.AllocateRelease | src/ns2/greencloud/resourceprovider.cc:137-182 | Allocating and then releasing is the identity on free values and demands |
| Allocation.ReleaseTwice | src/ns2/greencloud/resourceprovider.cc:153-158 | Releasing leaves nothing held, and releasing twice is releasing once |
| Allocation.AllocConserves | src/ns2/greencloud/resourceprovider.cc:87-94 | For each capacity, what is left free plus what the consumer now holds of it is what was free, and free values stay non-negative |
| Reservations.RunBalanced | src/ns2/greencloud/resourceprovider.cc:47-182 | Conservation over all runs of allocations and releases by any number of consumers, tasks included, whose Computing demands shrink meanwhile: free plus everything held equals nominal at each capacity, and free is never negative |
| Reservations.StepBalanced | src/ns2/greencloud/resourceprovider.cc:58-158 | Each single step keeps that balance; work done by tasks does, because Computing demands of tasks are never reserved |
| Reservations.UnusedIsBalanced | src/ns2/greencloud/resourceprovider.cc:54-134 | A provider nobody has reserved on is balanced |
| Reservations.SecondAttempt | src/ns2/greencloud/resourceprovider.cc:94-94 | A consumer that allocates again while it holds something loses, of each capacity, exactly what the amounts placed by the second attempt held there, whether the attempt succeeds (then all it held) or gives up (then what it had reached) |
| Reservations.RoomAgain | src/ns2/greencloud/resourceprovider.cc:137-182 | What a release gives back has room for the same demands again, in any consumer |
| Reservations.MigrationKeepsVM | src/ns2/greencloud/vmmigration.cc:77-137 | Once a migration has reserved on its target, and whatever the other consumers allocate and release there meanwhile, returning the reservation leaves room for the VM: its tryToAllocate succeeds |
| Reservations.MigrationLosesVM | src/ns2/greencloud/vmmigration.cc:109-140 | With two demands of one type it can be lost: the reservation stands, another consumer leaves, and the VM no longer fits when the reservation is returned |
| Reservations.MigrationEnds | src/ns2/greencloud/vmmigration.cc:109-137 | The same from any balanced state in which the reservation stands |
| Nesting.FreeTelescopes | src/ns2/greencloud/resourceprovider.cc:305-328 | For a host with nested VMs to any depth: getFreeCapRecursive is the nominal total less what is held by everything in the tree except the VMs themselves, that is by tasks and pending migrations |
| Nesting.AddIdleVM | src/ns2/greencloud/resourceprovider.cc:199-210 | Adding a VM that nobody uses leaves the recursive free capacity unchanged |
| Nesting.TreeTelescopes | src/ns2/greencloud/resourceprovider.cc:305-328 | So it is in every run over the tree: tasks and migrations reserving and returning, VMs added and removed, at any depth |
| Nesting.ActSound | src/ns2/greencloud/resourceprovider.cc:199-222 | Each such step keeps the books of every provider in the tree balanced and each VM backed by what it holds of its host, and no specification changes |
| Nesting.UnusedIsSound | src/ns2/greencloud/resourceprovider.cc:54-134 | A provider nobody uses is where such runs begin |
| Nesting.BalancedTotals | src/ns2/greencloud/resourceprovider.cc:315-328 | Free capacity of a type plus all that consumers hold of it is the total of that type |
| NestedLoad.LoadExactly | src/ns2/greencloud/corescheduler.cc:46-55 | getCurrentMIPSRecursive is the nominal rate less what is idle anywhere in the tree of virtual cores |
| NestedLoad.LoadAtMostNominal | src/ns2/greencloud/corescheduler.cc:46-55 | If each core in the tree runs its own tasks within its available rate, the recursive rate is between 0 and the nominal rate |
| NestedLoad.UtilizationAtMostOne | src/ns2/greencloud/cpu.cc:110-127 | So the utilisation of a CPU is between 0 and 1 |
| NestedLoad.UtilizationExactly | src/ns2/greencloud/cpu.cc:110-127 | It is 1 less the idle rate, anywhere in the tree, over the total nominal rate |
| NestedLoad.UtilizationEnds | src/ns2/greencloud/cpu.cc:110-127 | It is 0 exactly if nothing runs on any core of any tree, and 1 exactly if every core at every depth runs at all it has and none of it is withheld |
| NestedLoad.UtilizationMoves | src/ns2/greencloud/cpu.cc:110-127 | A change of the rate of one core, at any depth, by x changes it by x over the total nominal rate |
| NestedLoad.ActAccounted | src/ns2/greencloud/corescheduler.cc:308-317 | Any rate change, and hosting and unhosting of a virtual core anywhere in the tree, keep available = nominal - nominal rates hosted at every core |
| NestedLoad.ActModest | src/ns2/greencloud/corescheduler.cc:294-317 | An event keeps every core within its available rate if and only if it is gentle: a rate within what is available, a virtual core hosted only where the own tasks leave room, itself within its rate |
| NestedLoad.NeverOverloaded | src/ns2/greencloud/corescheduler.cc:46-55 | In every run of gentle events the recursive rate stays within the nominal rate, which never changes |
| NestedLoad.RateOverload | src/ns2/greencloud/corescheduler.cc:294-306 | A new rate keeps the recursive rate within nominal if and only if it takes no more than what is idle |
| NestedLoad.HostingOverload | src/ns2/greencloud/corescheduler.cc:308-311 | Hosting a virtual core raises the recursive rate by that of the virtual core, and keeps it within nominal if and only if that is at most what is idle |
| LiveCores.LiveLoad | src/ns2/greencloud/corescheduler.cc:46-55 | In every joint history of a tree of cores, each with the events of its own provider, virtual cores and migrations taking and giving back rate while tasks run, the recursive rate is between 0 and the nominal rate, as long as tasks are placed on arrival and what is taken can be spared |
| LiveCores.DoSound | src/ns2/greencloud/corescheduler.cc:308-317 | Each step of such a history, at any depth, keeps every core accounted for and the admission invariant of every provider |
| LiveCores.LoadDoes | src/ns2/greencloud/corescheduler.cc:46-55 | To the recursive rate each step is a rate change, a hosting or a reservation as in NestedLoad |
| LiveCores.FreshIsSound | src/ns2/greencloud/corescheduler.cc:46-55 | A core on which nothing has run is where such histories begin |
| AvailableRates.StepRates | src/ns2/greencloud/resourceprovider.cc:228-303 | No event of a provider changes what is available to a core, except hosting on that core |
| CoreLoads.HostedAccounted | src/ns2/greencloud/resourceprovider.cc:86-113 | What addVM promises of free values and host lists keeps every core of the pool accounted for, with the virtual cores it then hosts |
| CoreLoads.UnhostedAccounted | src/ns2/greencloud/resourceprovider.cc:147-173 | So does what removeVM promises |
| CoreLoads.WithheldAccounted | src/ns2/greencloud/vmmigration.cc:81-86 | What a migration reserves of a core is withheld, and the core stays accounted for |
| Placement.ChooseWeighted | src/ns2/greencloud/dcscheduler/probabilisticscheduler.cc:30-49 | For non-negative scores and any draw in [0,1]: an index in range, with cumul[i-1] < r <= cumul[i] for r = draw x total (no lower bound at i = 0) |
| Placement.FillCumulative | src/ns2/greencloud/dcscheduler/probabilisticscheduler.cc:30-41 | The cumulative array holds the prefix sums of the scores |
| Placement.LowerBound | src/ns2/greencloud/dcscheduler/probabilisticscheduler.cc:45-46 | The binary search finds the first position not below r, if any |
| Placement.Partition | src/ns2/greencloud/dcscheduler/probabilisticscheduler.cc:43-49 | Each draw belongs to exactly one provider, and the interval a provider owns is as long as its score |
| Placement.NoScoreNoChoice | src/ns2/greencloud/dcscheduler/probabilisticscheduler.cc:43-49 | A provider with score 0 is chosen only if it is the first and the draw is 0 |
| Surveys.ScheduleBest | src/ns2/greencloud/dcscheduler/bestscorescheduler.cc:19-37 | Every provider is tested in turn and left as SurveyLeavesNoTrace says; none is chosen exactly if none passed, and otherwise the first of those that passed whose score no other of them exceeds |
| Surveys.ScheduleHeros | src/ns2/greencloud/dcscheduler/herosscheduler.cc:76-111 | Every provider is tested in turn; none is chosen exactly if none passed, whatever is chosen passed, and for a draw below 1 every provider that passed has a lower score than the chosen one, or the same score and no more to decide between equals |
| Placement.MaxElement | src/ns2/greencloud/dcscheduler/bestscorescheduler.cc:33-33 | The first of the largest scores |
| Placement.ScoredBest | src/ns2/greencloud/dcscheduler/bestscorescheduler.cc:22-37 | The first largest entry of the list of scored providers is the first best of the providers that passed |
| Placement.ChooseHeros | src/ns2/greencloud/dcscheduler/herosscheduler.cc:86-111 | No provider exactly if there is no candidate; otherwise one that no other exceeds in score, nor in the tie-breaker at equal score, if and only if the draw is below 1 or there is no tie: a draw of 1 among ties picks one too far or out of range |
| Placement.HerosPicksTop | src/ns2/greencloud/dcscheduler/herosscheduler.cc:90-100 | The ties counted from the end of the sorted list are exactly the candidates no other beats |
| Placement.PickMeaning | src/ns2/greencloud/dcscheduler/herosscheduler.cc:101-104 | For any sorted rearrangement, the index computed from the draw is a top candidate if and only if the draw is below 1 or there is no tie |
| Placement.EvenDraw | src/ns2/greencloud/dcscheduler/herosscheduler.cc:101-104 | Each of n tied candidates is chosen by the draws in one n-th of the interval from 0 to 1 |
| Placement.Sort | src/ns2/greencloud/dcscheduler/herosscheduler.cc:90-90 | A sorted rearrangement of the scored providers |
| Placement.CountTies | src/ns2/greencloud/dcscheduler/herosscheduler.cc:91-100 | The number of candidates at the end of the list that do not compare below the best |
| OutputQueue.Deliver | src/ns2/greencloud/provideroutagent.cc:48-61 | For every interleaving of sendmsg, tryToSend and "last packet sent": the messages handed to TCP followed by those queued are those submitted, in order; and how many have been handed over, and which pointer is outstanding, is a function of the events (`Given`) |
| OutputQueue.OneAtATime | src/ns2/greencloud/provideroutagent.cc:53-61 | TCP gets one message at a time: it is never given more than one message beyond the times it was free again |
| OutputQueue.Drained | src/ns2/greencloud/provideroutagent.cc:53-61 | After a message has been sent, k acknowledgements give TCP the next k messages, or all that are queued |
| OutputQueue.PoaBufList.Insert | src/ns2/greencloud/provideroutagent.cc:79-87 | The head/tail list appends to the FIFO sequence |
| OutputQueue.PoaBufList.Detach | src/ns2/greencloud/provideroutagent.cc:89-97 | It takes the first message off the sequence, or returns null exactly if that is empty |
| OutputQueue.ProviderOutAgent.TryToSend | src/ns2/greencloud/provideroutagent.cc:53-61 | Hands over the oldest queued message exactly if TCP has no pointer outstanding, and otherwise changes nothing |
| OutputQueue.ProviderOutAgent.SendMsg | src/ns2/greencloud/provideroutagent.cc:48-51 | Submits one message; nothing is handed over while a pointer is outstanding, and otherwise the oldest message not yet handed over is |
| OutputQueue.ProviderOutAgent.TcpSend | upstream/NS2-GreenCloud.diff:658-666 | TCP takes the message and remembers its pointer, unless all of it leaves at once |
| OutputQueue.ProviderOutAgent.LastPacketSent | upstream/NS2-GreenCloud.diff:675-679 | Clears the outstanding pointer |
| ResourcePool.Pool.TryToAllocate | src/ns2/greencloud/resourceprovider.cc:47-135 | On capacity, demand and core objects: same success, free values and locations as the specification TryAllocate on the state before; on success each virtual core is on the list of the core in step with the capacity that pays for it, and free plus hosted nominal rates is unchanged at every core; on failure all host lists are as before |
| ResourcePool.Pool.ReleaseAllocation | src/ns2/greencloud/resourceprovider.cc:137-182 | Same free values and locations as the specification Release; every virtual core is off all host lists and has no host |
| ResourcePool.Pool.PlaceDemand | src/ns2/greencloud/resourceprovider.cc:59-125 | The nested loops over resources and capacities, with the core iterators in lockstep, compute the flat greedy scan Fill |
| ResourcePool.Pool.ScanResource | src/ns2/greencloud/resourceprovider.cc:86-114 | The inner loop over the capacities of one resource places what the flat scan places there |
| ResourcePool.Pool.PlaceAmount | src/ns2/greencloud/resourceprovider.cc:87-97 | One amount placed: subtracted, its location set, and its virtual core hosted by the core at the same position |
| ResourcePool.Pool.ReleaseDemand | src/ns2/greencloud/resourceprovider.cc:148-159 | Each capacity gets back exactly what the demand held of it, and the locations are cleared |
| ResourcePool.Pool.UnhostDemand | src/ns2/greencloud/resourceprovider.cc:161-173 | Every virtual core of the demand leaves the list of its host |
| ResourcePool.Pool.AttachedNominal | src/ns2/greencloud/resourceprovider.cc:161-173 | What a release takes off the list of a core is, in nominal rate, what the VM held of the capacity in step with it |
| ResourcePool.Core.AddVcore | src/ns2/greencloud/corescheduler.cc:308-311 | The virtual core is appended and points at its host |
| ResourcePool.Core.RemoveVcore | src/ns2/greencloud/corescheduler.cc:313-317 | The virtual core is erased from the list and has no host |
| VmHosting.SetSpecification | src/ns2/greencloud/cpu.cc:61-83 | One core per nominal capacity, in step with it and with the same rate, and the sum of the rates; no CPU without a specification |
| VmHosting.VmResources.AddResource | src/ns2/greencloud/vm.cc:49-54 | The resource and a demand for it are appended: same type, architecture and amounts, no location, and for a CPU its cores one to one |
| VmHosting.Provider.AddVM | src/ns2/greencloud/resourceprovider.cc:199-210 | Hosted exactly if all its demands could be placed; then listed, attached to its host, and free plus hosted nominal rates is unchanged at every core; otherwise every host list is as before and none of its virtual cores has a host |
| VmHosting.Provider.RemoveVM | src/ns2/greencloud/resourceprovider.cc:212-222 | Everything it held is free again, its virtual cores have no host and are off the lists of their hosts, which lose nothing else, and it is off the list |
| VmHosting.CopyDemands | src/ns2/greencloud/vmmigration.cc:33-38 | Fresh copies of the demands of the VM, without location and without virtual cores |
| VmHosting.VmMigration.Start | src/ns2/greencloud/vmmigration.cc:77-86 | Succeeds exactly if the copies of the demands fit, and takes for them exactly what the specification TryAllocate takes; otherwise the target is as before; no core of the target hosts anything new |
| VmHosting.VmMigration.Finalize | src/ns2/greencloud/vmmigration.cc:109-140 | From a standing reservation: addVM on the target always succeeds; the source gets back exactly what the VM held there, the target is charged for the VM once the reservation is returned, and the VM is off the list of the source and runs, attached core for core, on the target |
| VmHosting.VmMigration.HandOver | src/ns2/greencloud/vmmigration.cc:109-112 | Returning the reservation and removing the VM from its host gives each provider back exactly what was held there, and leaves a target on which the VM fits |
| CoreScheduling.TaskAlloc.UpdateMIPS | src/ns2/greencloud/taskalloc.cc:54-69 | The allocation object is brought up to date as the specification Updated says |
| CoreScheduling.TaskAlloc.SetComputingRate | src/ns2/greencloud/taskalloc.cc:43-48 | Brought up to date first, and given the new rate |
| CoreScheduling.CloudTask.ReleaseAllTaskAllocs | src/ns2/greencloud/cloudtask.cc:70-77 | Clears the task from the active and in-fly list of every core of every provider, and touches no other allocation, although some core pointers are out of date |
| CoreScheduling.CloudTask.Fail | src/ns2/greencloud/cloudtask.cc:59-68 | Keeps the back-pointer invariant; the provider then is FailAll of what it was: off every core, counted once, reservation returned |
| CoreScheduling.CoreScheduler.RemoveTaskAlloc | src/ns2/greencloud/corescheduler.cc:148-156 | Erases the allocation from both lists |
| CoreScheduling.CoreScheduler.CompleteAt | src/ns2/greencloud/corescheduler.cc:131-188 | The allocation leaves the list and its task; the task is finished exactly if none of its allocations is left |
| CoreScheduling.CoreScheduler.CompletionTurn | src/ns2/greencloud/corescheduler.cc:178-198 | One turn of the loop, restarts included: the final state is still the same, and list length or position makes progress |
| CoreScheduling.CoreScheduler.RemoveCompleted | src/ns2/greencloud/corescheduler.cc:173-199 | The loop that erases, fails and restarts from the beginning terminates and leaves the provider as Purge says; back-pointer invariant kept |
| CoreScheduling.CoreScheduler.MaxInFly | src/ns2/greencloud/corescheduler.cc:232-244 | The loop over the in-fly list, which fails overdue tasks and restarts, terminates with the highest required rate of what remains |
| CoreScheduling.CoreScheduler.GetMostUrgentTaskRate | src/ns2/greencloud/corescheduler.cc:201-247 | Leaves the provider as Swept says and returns the most urgent rate, capped at the available rate; back-pointer invariant kept |
| CoreScheduling.CoreScheduler.UpdateTskComputingRates | src/ns2/greencloud/corescheduler.cc:251-261 | Every active allocation is brought up to date and gets an equal share |
| CoreScheduling.CoreScheduler.SetComputingRate | src/ns2/greencloud/corescheduler.cc:294-306 | Refines SetRate; back-pointer invariant kept |
| CoreScheduling.CoreScheduler.NextCompletion | src/ns2/greencloud/corescheduler.cc:276-284 | The least execution time on the list |
| CoreScheduling.CoreScheduler.UpdateTskList | src/ns2/greencloud/corescheduler.cc:263-292 | Refines Refresh, the event timer included, with the early return on an empty list |
| CoreScheduling.CoreScheduler.StartTaskExecution | src/ns2/greencloud/corescheduler.cc:110-128 | The loop that moves allocations of the task from the in-fly to the active list, then updateTskList: refines Turn |
| CoreScheduling.CoreScheduler.AssignTask | src/ns2/greencloud/corescheduler.cc:71-74 | Appended to the in-fly list, and points at the core |
| CoreScheduling.CoreScheduler.ExecuteTask | src/ns2/greencloud/corescheduler.cc:76-79 | Appended to the active list, and points at the core |
| CoreScheduling.CoreScheduler.AssignNext | src/ns2/greencloud/corescheduler.cc:71-74 | The back-pointer invariant of a task that is being placed moves on by one allocation |
| CoreScheduling.CloudTask.constructor | src/ns2/greencloud/cloudtask.cc:22-37 | One allocation per computing capacity: allocation j has the work of load j, the deadline of the task and no rate, and is on no core |
| CoreScheduling.ResourceProvider.constructor | src/ns2/greencloud/resourceprovider.cc:18-34 | A provider without tasks starts with the back-pointer invariant and no event |
| CoreScheduling.ResourceProvider.NextEvent | src/ns2/greencloud/resourceprovider.cc:270-289 | An event still ahead stays unless the new one is earlier |
| CoreScheduling.ResourceProvider.ScheduleNextExent | src/ns2/greencloud/resourceprovider.cc:565-570 | No event is asked for where nothing runs |
| CoreScheduling.ResourceProvider.Handle | src/ns2/greencloud/resourceprovider.cc:291-303 | Refines the specification Handle: every core has its turn; back-pointer invariant kept |
| CoreScheduling.ResourceProvider.TrySchedulingTsk | src/ns2/greencloud/resourceprovider.cc:447-501 | Refines TrySchedule: every allocation gets a core or none keeps one; scheduled_ exactly on success |
| CoreScheduling.ResourceProvider.TryCore | src/ns2/greencloud/resourceprovider.cc:474-481 | One core is asked: it takes the allocation exactly if the admission test passes |
| CoreScheduling.ResourceProvider.TestSchedulingPossibility | src/ns2/greencloud/resourceprovider.cc:437-445 | Refines Probe, and the task is unplaced, unscheduled and has all its allocations again |
| CoreScheduling.ResourceProvider.Recv | src/ns2/greencloud/resourceprovider.cc:228-266 | Refines Receive: placed now unless dispatched before, then reserved for and started on every core, or failed; back-pointer invariant kept |
| CoreScheduling.ResourceProvider.JoinedFail | src/ns2/greencloud/cloudtask.cc:59-77 | The back-pointer invariant survives a task that fails |
| CoreScheduling.ResourceProvider.JoinedAssigned | src/ns2/greencloud/corescheduler.cc:71-74 | It survives an assignment |
| CoreScheduling.ResourceProvider.JoinedBegun | src/ns2/greencloud/corescheduler.cc:110-123 | It survives the move from the in-fly to the active list |
| CoreScheduling.ResourceProvider.JoinedShed | src/ns2/greencloud/corescheduler.cc:131-146 | It survives the removal of one completed allocation |
| CoreScheduling.ResourceProvider.JoinedWithdraw | src/ns2/greencloud/resourceprovider.cc:437-497 | It survives the withdrawal of a task that keeps its allocations, out-of-date core pointers included |

## Left out

- The Tcl interface, printing, constructors that only bind variables, and memory management.
- Packets, links and TCP itself: what reaches the model is "last packet sent", "task arrived" and the clock.
- Energy and power models, network utilisation and link load.
- The formulas of the scores: a score is a given real number, and only the selection is modelled.
- The round-robin, Green, random and BestDENS policies, segmentation into packets, and traffic generators.
- The number of tasks received and other statistics, except the count of failures.
- The message of a finished task: the time of completion is recorded, and whether a task has any output is not.
- The order in which several tasks completed by one call hand over their output.
- The links from host capacities to VM capacities, which a release leaves in place; recursive free capacity is the sum over hosted VMs.
- Demands with an empty capacity vector.
- A change of the available MIPS of a core in the classes of `CoreScheduling`; it is an event of `Simulation`.
- Tasks on several providers at once; other providers appear in `CoreScheduling` as the other cores of the data center, whose lists a task also leaves.
- Aliasing between a task allocation and its demand: an allocation object carries the work left and the rate that the code keeps in the demand.
- Deadlines.TravelGuarantee: its condition on arrivals is sufficient, and counts allocations that have just completed and are not yet removed; it is exact for a task of one load on a provider where nothing else runs (`Landings.LandsAlone`).
- Reservations.MigrationKeepsVM: is about VMs with at most one demand of each type; with two the VM can be lost (`Reservations.MigrationLosesVM`).
- Reservations.MigrationEnds: likewise.
- VmHosting.VmMigration.Finalize: likewise, and source and target are different providers.
- VmHosting.VmMigration.HandOver: likewise.
- CoreScheduling.ResourceProvider.TrySchedulingTsk: the outcome of tryToAllocate is an argument here; `Surveys.Test` and the runs of `BookedRuns` put cores and reservations together, on values.
- CoreScheduling.ResourceProvider.TestSchedulingPossibility: likewise.
- CoreScheduling.ResourceProvider.Recv: likewise; that the second attempt succeeds after the first is `Surveys.PlacedIsReserved`.
- Placement.Sort: inserts, where the code calls the sort of the C++ library, whose order of ties is unspecified; the choice is proved for any sorted rearrangement.
