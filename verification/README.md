# Verified core of the bouchaud-os kernel

This project models the parts of the kernel whose correctness depends on
interleavings or on long histories, and proves what they promise. Each part is a
state machine or a class that does what the code does, one shared access per
step where concurrency matters, and the theorems hold for every number of CPUs,
tasks, writers and readers and for every interleaving of their accesses.

| part | files | what is proved |
|---|---|---|
| context-switch hand-off | `Passation`, `PassationInv`, `PassationSure`, `PassationElection`, `PassationRefus`, `PassationReveil`, `PassationChemin`, `PassationPerte`, `PassationRecyclage`, `PassationContre`, `PassationReveilContre` | no stack is ever on two CPUs, no check of the hand-off can fail, a dead task is never elected; what electors and publishers must have seen before they act; exactly when a wake-up on a busy task is refused, and that the hand-off then publishes it; exactly when the recycling of a slot can lose a ready task |
| retirement requests | `Retraite`, `RetraiteContre` | a frontier retires only a condemned or dead task and never lets pass one that was so when it began; who raises and lowers a CPU's flag; exactly when the CPU a killer flags is the right one |
| life cycle of a task | `CycleVie` | Zombie is absorbing, each task dies once, no condemned task sleeps interruptibly once its killers are done, at most one entry in user code after a condemnation, a killer ends only the waits it may end, and exactly when a kill in place lands as designed |
| end of a thread group | `Groupe` | past the wait of `exit_group` and `execve` the group is extinct, for good, unless another killer condemned the claimer |
| asynchronous console | `Console`, `ConsoleCle`, `ConsoleOrdre`, `ConsoleOctets`, `ConsoleContre`, `Differees` | lines come out whole and exactly once; exactly when a writer's order is broken; the byte rings are queues of records |
| CPU-time accounting | `ComptaSpec`, `Compta` | an accepted reading is the truth at an instant of its window, so readings never go back nor outrun the clock; a slice adds to each total the time spent on that side, however it is cut |
| damage of a frame | `Rectangles`, `DegatsSpec`, `Degats` | the sixteen regions are the boxes of a partition of what was asked, at bounded cost |
| kernel stack depth | `Pile` | the measured chain is real and the longest of the graph less the calls cut on cycles |
| text guards | `Blanc`, `BlancTexte`, `Blocs` | the text has one cutting into code, comments and strings, and blanking is what it does to each piece; blanking is idempotent; brackets and innermost functions are found |

`Commun` and `Runs` hold what they share. Memory is sequentially consistent in all the
machines; the code's fences and `SeqCst` accesses are what makes that so.

Positions in the rings, sequence numbers, generations and counters are unbounded
here. In `DegatsSpec` and `ComptaSpec` saturating and wrapping 64-bit arithmetic
is written out, and in `Rectangles` the 32-bit casts are.

## Where the code does less than its comments say

Each of these is a theorem with a concrete run or input beside the exact
condition.

- The publisher started by a hand-off's continuation holds no read guard of the
  registry. A slot recycled between its read and its store of the slot's identity
  can strand the new task: ready, in no queue under an identity the election
  accepts. `PassationContre.StaleIdentityStrandsTask` is such a run.
  `PassationRecyclage.RecyclingSafeIffQuiet` says a recycling is safe if and only if
  no publisher stands there, and `PassationPerte.NothingLost` that nothing is lost
  in a run whose recyclings are all so.
- A wake-up is meant to be refused while its task is owned by a CPU or leaving one,
  the end of the hand-off publishing it instead. A CPU that judged the task in an
  earlier wait can claim it between the two stores that end its hand-off; the
  wake-up's publisher, which reads owner and flag one after the other, then passes
  although the task was busy all along:
  `PassationReveilContre.BusyWakeCanGetThrough`. `PassationReveil.BusyWakeRefused`
  and `ClaimedOverLetsThrough` say this is the only way, and always one. The extra
  entry does no harm: an elector looks again, as `PassationRefus.ElectorSaw` says.
- A kill in place is decided on one wait and can land in a later one: an
  uninterruptible one (`CycleVie.KillCanHitLaterWait`), or an interruptible one on a
  task that is running, judged in that very wait (`KillCanHitRunningTask`). `KillAsDesigned` says it lands on
  a task off every core in an interruptible wait if and only if the task has begun
  no other wait since the killer read `on_cpu`.
- The retirement flag of a CPU is said to be touched by no other core, but a killer
  stores it from anywhere, after reading the owner of its victim: it can flag the
  CPU's next task, which nobody condemned (`RetraiteContre.RequestCanHitSuccessor`).
  `Retraite.AskHitsIffCurrent` says exactly when it flags the right one, and
  `RetiresOnlyTheDoomed` that the other task is not retired for it.
- The heads of the deferred rings are not read atomically, so a writer's line
  deferred behind the scan is overtaken by its next line, from the main ring or
  from another CPU: `ConsoleContre`. `ConsoleOrdre.OvertakesIffMissed` says this is
  the only way.
- For every count from three to sixteen, the regions of a frame can cost more
  pixels than the single box they replace: `DegatsSpec.SparseCanExceedBox`. Two
  never do: `SparseAgainstBox`.
- In the stack analyser a chain cut by recursion has depth 0 and never wins, so
  every function a root can reach is memoised, whatever its cycles, as
  `Pile.Parcours.Mesure` states. The comment there speaks of memoising off cycles
  only; `Pile` follows the code.

## Model

| member | source | states |
|---|---|---|
| PassationInv.StepInv | src/kernel/process/thread/ordonnancement.rs:268-395 | every access of every CPU, waker, killer and recycler keeps ownership, pending hand-offs and stacks consistent |
| PassationInv.CompleteInv | src/kernel/process/thread/courant.rs:381-457 | the five stores of complete_switch_handoff, one at a time, keep the invariant |
| PassationInv.ClaimInv | src/kernel/process/thread/ordonnancement.rs:71-89 | claiming a task by compare-and-swap gives it to one CPU only |
| PassationInv.ReleaseInv | src/kernel/process/thread/ordonnancement.rs:79-87 | giving a claim back leaves the task unowned and the rest untouched |
| PassationInv.RemetInv | src/kernel/process/thread/ordonnancement.rs:169-189 | putting a consumed entry back keeps the invariant |
| PassationInv.MarkInv | src/kernel/process/thread/courant.rs:341-373 | announcing a hand-off keeps the outgoing task owned by its CPU |
| PassationInv.FinInv | src/kernel/process/thread/commutation.rs:172-250 | finalising the incoming task keeps its ownership and touches no other flag |
| PassationInv.PubInv | src/kernel/process/thread/creation.rs:397-563 | a publisher changes no owner and no hand-off flag |
| PassationRefus.PublisherSaw | src/kernel/process/thread/creation.rs:397-423 | a publisher past its checks has seen, since it began and in this order, the task ready, without owner, not leaving a CPU |
| PassationRefus.PublisherStored | src/kernel/process/thread/creation.rs:424-484 | a publisher about to set a bit has written that queue's number in the task, then read the slot's identity, then stored it in the table |
| PassationRefus.QueueGrows | src/arch/x86_64/cpu_local.rs:311-315 | a task enters a queue only by a publisher at its last access, by remet_si_perdue or by the return of a stolen entry |
| PassationRefus.QueueShrinks | src/arch/x86_64/cpu_local.rs:322-332 | an entry leaves its queue exactly when a CPU takes it, into that CPU's hands |
| PassationRefus.ElectorSaw | src/kernel/process/thread/ordonnancement.rs:268-395 | a CPU about to switch to a task has seen it, in this order, ready, without owner, not leaving and of the queue the entry came from; has claimed it; has seen it ready and not leaving again; and, if it stole it, has renumbered it |
| PassationRefus.RemetSaw | src/kernel/process/thread/ordonnancement.rs:169-189 | an entry about to be put back goes to the queue whose number was read, after the task was seen ready, without owner, not leaving, not already queued there under its identity, and its identity stored |
| PassationRefus.StolenReturns | src/kernel/process/thread/ordonnancement.rs:361-381 | a stolen entry judged ineligible returns to the queue it was stolen from |
| PassationReveil.BusyWakeRefused | src/kernel/process/thread/creation.rs:408-411 | a publisher of a task owned or leaving in every state since it began is past its checks only if the task was vacated with its flag up and later owned with its flag down |
| PassationReveil.BusyWakeAddsNothing | src/kernel/process/thread/creation.rs:408-411 | without such a claim over the hand-off, a publisher begun on a busy task adds it to no queue while it is busy |
| PassationReveil.ClaimedOverLetsThrough | src/kernel/process/thread/creation.rs:408-411 | with one, a publisher that had not begun its checks has a run that puts the task in a queue while it is busy throughout |
| PassationReveilContre.BusyWakeCanGetThrough | src/kernel/process/thread/courant.rs:433-436 | a run from boot in which a wake-up queues a task that is owned or leaving in every state |
| PassationReveil.HandoffPublishes | src/kernel/process/thread/courant.rs:437-457 | a task made ready while a CPU hands it off is given to a new publisher by the end of that hand-off |
| PassationChemin.HandoffReadsState | src/kernel/process/thread/courant.rs:437-455 | a hand-off publishes its task if and only if it read it ready, after clearing owner and flag |
| PassationChemin.RunStraight | src/kernel/process/thread/lifecycle.rs:1262-1277 | in every run a CPU goes back to its idle stack only from a dead task, and returns to a queue without checks only an entry it stole |
| PassationChemin.RetiredRunsNoMore | src/kernel/process/thread/lifecycle.rs:1250-1277 | once retired, a task executes nothing for as long as it is current |
| PassationChemin.ScheduleElects | src/kernel/process/thread/ordonnancement.rs:515-557 | between a call of schedule and the next instruction of a task on that CPU an election has been opened, a refusal of the transition gate being one that finds nothing |
| PassationChemin.QueueNumber | src/kernel/process/thread/courant.rs:432-433 | the number of a task's queue is written by the CPU that enters, steals or leaves it, by its publisher and by its recycler, with the value each is to write, and by nobody else |
| PassationChemin.RunsOnItsOwnQueue | src/kernel/process/thread/commutation.rs:237-239 | from its entry by a CPU until another claims it a task bears that CPU's queue number, unless a publisher or the recycler has written another |
| PassationSure.OneCpuPerStack | gate0/apply_gate0.py:113-217 | in every reachable state two CPUs never stand on the same stack, nor have the same current task, the window before the stack pointer moves included |
| PassationSure.FreeTaskIsNowhere | gate0/apply_gate0.py:250-265 | a task the election may take, or a slot that may be recycled, is on no CPU: not as stack, current task, claim or unacknowledged hand-off |
| PassationSure.ChecksNeverFail | gate0/apply_gate0.py:124-189 | the assertions of prepare, complete, finalise and release on owner, hand-off flag and pending task hold in every reachable state, and SWITCH_PENDING is empty wherever a new hand-off may start |
| PassationSure.FlagIsPendingHandoff | src/kernel/process/thread/courant.rs:341-457 | switching_out is set exactly while one CPU, and only one, has the task pending and not yet cleared |
| PassationSure.OutgoingNotPublished | gate0/apply_gate0.py:205-216 | until its owner is cleared an outgoing task is neither selectable nor recyclable, whatever wakers and killers do |
| PassationPerte.StepKept | src/kernel/process/thread/ordonnancement.rs:92-189 | every step, other than a recycling under a publisher between its read and its store, leaves each ready free task in a queue under its own identity, with a publisher, or in the hands of the CPU that consumed its entry |
| PassationRecyclage.RecyclingSafeIffQuiet | src/kernel/process/thread/registre.rs:624-683 | after a recycling every continuation with quiet recyclings keeps every ready task accounted for, if and only if no publisher of the slot was between its read and its store of the identity |
| PassationRecyclage.OvertakenLoses | src/kernel/process/thread/creation.rs:397-484 | a publisher about to store an identity the slot no longer has can end, from any such state, with a ready task nobody accounts for |
| PassationElection.StepFit | src/kernel/process/thread/ordonnancement.rs:71-89 | a task claimed and found ready stays ready until it is made current |
| PassationElection.NotElected | src/kernel/process/thread/lifecycle.rs:1245-1247 | no step makes a dead task current |
| Retraite.StepGood | src/kernel/process/thread/commutation.rs:244-249 | starting a task, dying, condemning, passing a frontier and every step of the hand-off keep requests, deaths and condemnations consistent |
| Retraite.RetiresOnlyTheDoomed | src/kernel/process/thread/lifecycle.rs:1294-1318 | in every run the frontier retires only a condemned or dead task, whatever raised the flag |
| Retraite.StartFlags | src/kernel/process/thread/commutation.rs:244-249 | when a CPU ends finalise_task_running its flag is up if the task was condemned or dead when that began, and only if it is by then |
| Retraite.FrontierStopsDoomed | src/kernel/process/thread/lifecycle.rs:1296-1318 | a frontier begun by a task condemned, or dead of itself, never lets it pass, whichever killers found its CPU to flag |
| Retraite.PassLeavesFlagDown | src/kernel/process/thread/lifecycle.rs:1302-1308 | a frontier that found the flag up and lets its task pass leaves it down, unless a killer has stored it since |
| Retraite.DoomLeavesFlagDown | src/kernel/process/thread/lifecycle.rs:1302-1316 | a frontier that dooms its task leaves the flag down, unless a killer has stored it since |
| Retraite.LowersOnlyForReason | src/kernel/process/thread/lifecycle.rs:1302-1308 | a frontier lowers the flag only after finding it up or its task condemned |
| Retraite.FlagMoves | src/kernel/process/thread/lifecycle.rs:1283-1284 | a flag is raised only by a killer of a condemned task, by a task that died there or by the start of a condemned or dead task, and lowered only by the frontier of the task at work there or by a start |
| Retraite.CondemnedByKiller | src/kernel/process/thread/comptabilite.rs:308-312 | a condemned task was condemned by a killer in its present incarnation |
| Retraite.KillerSaw | src/kernel/process/thread/comptabilite.rs:308-328 | a killer about to store a flag has condemned the task, then read it ready, then read that CPU as its owner |
| Retraite.OwnDeathFlagsOwnCpu | src/kernel/process/thread/comptabilite.rs:261-266 | a dying task raises the flag of the CPU it is current on and no other |
| Retraite.AskHitsIffCurrent | src/kernel/process/thread/comptabilite.rs:322-328 | when a killer stores the flag, that CPU's current task is the condemned one if and only if the CPU still owns it, has entered it and has not handed it over |
| RetraiteContre.RequestCanHitSuccessor | gate0/apply_gate0.py:341-347 | a reachable state with the flag up for a CPU whose current task is ready and was never condemned, while the condemned one sleeps elsewhere |
| PassationPerte.NothingLost | src/kernel/process/thread/creation.rs:397-484 | every state of every run whose recyclings fall under no such publisher accounts for every ready task |
| PassationPerte.QuiescentReadyTask | src/kernel/process/thread/ordonnancement.rs:106-126 | with all CPUs out of the scheduler and no publisher at work, a ready task is current somewhere or queued under an identity the election accepts |
| PassationContre.StaleIdentityStrandsTask | src/arch/x86_64/cpu_local.rs:311-315 | a reachable state in which a ready free task is in no valid queue entry, no publisher and no hand; the waker held its read guard, the continuation's publisher held none |
| CycleVie.ZombieAbsorbs | src/kernel/scheduler/cycle_vie.rs:78-88 | no step leaves Zombie and every change of state is one of the four transitions |
| CycleVie.StepInv | src/kernel/process/thread/comptabilite.rs:308-360 | killer, sleeper, waker and scheduler keep the crossed protocol's invariant at each access |
| CycleVie.DeadForever | src/kernel/process/thread/modeles.rs:221-259 | once Zombie, Zombie for the rest of the run, with exactly one death counted |
| CycleVie.NoCondemnedSleeper | src/kernel/process/thread/blocage.rs:54-66 | with no killer left at work on a task it read blocked, a condemned task is not blocked in an interruptible wait it committed to |
| CycleVie.AtMostOneEntry | src/kernel/process/thread/preemption.rs:48-60 | after its condemnation a task enters user code at most once more |
| CycleVie.OnlyCondemnedDie | src/kernel/scheduler/cycle_vie.rs:78-88 | in every run only condemned tasks die, at their parking only in an interruptible wait, and no task is marked interruptible outside its waits |
| CycleVie.KillerEndsOnlyItsWaits | src/kernel/scheduler/cycle_vie.rs:113-126 | the access of a killer that takes a task out of Blocked wakes one it had read on a core or leaving one, or kills one whose wait it had read interruptible |
| CycleVie.ParkedIsLeftAlone | src/kernel/scheduler/cycle_vie.rs:124 | a killer that reads the task parked off every core in an uninterruptible wait changes nothing and is done |
| CycleVie.KillerStopsIffDone | src/kernel/process/thread/comptabilite.rs:313-357 | a killer stops exactly when it read the task ready or dead, or parked uninterruptibly, or has itself ended the wait; a failed compare-and-swap starts it over |
| CycleVie.KillAsDesigned | src/kernel/scheduler/cycle_vie.rs:13-15 | a kill in place about to land finds the task off every core in an interruptible wait if and only if no wait has begun since on_cpu was read; past its reread the wait is interruptible if and only if none has begun since that was read |
| CycleVie.KillCanHitLaterWait | src/kernel/process/thread/comptabilite.rs:313-357 | a run in which it kills a task on its CPU in a later uninterruptible wait |
| CycleVie.KillCanHitRunningTask | src/kernel/process/thread/comptabilite.rs:314-319 | a run in which a killer that found the task off its CPU in one wait judges and kills it, running, in a later interruptible one |
| Groupe.StepInv | src/kernel/process/thread/lifecycle.rs:509-577 | sweep, scan, clone and its reread of the claim keep every swept live sibling condemned or about to be, and none alive behind a scan, which registrations wait for |
| Groupe.AfterTheWait | src/kernel/process/thread/lifecycle.rs:1194-1228 | after the wait the group is extinct, unless the claimer, condemned itself, gave up; then a live sibling is condemned or its clone is unfinished |
| Groupe.CondemnsOnlySiblings | src/kernel/process/thread/lifecycle.rs:560-566 | the group's own steps condemn only siblings of the claimer, and only once it is claimed |
| Groupe.UncondemnedClaimerWaits | src/kernel/process/thread/lifecycle.rs:553-577 | in every run in which no other killer condemns the claimer, its wait ends with every sibling dead |
| Groupe.StopsForTheLiving | src/kernel/process/thread/lifecycle.rs:1202-1226 | the scan stops at a slot only for a live sibling there, and the claimer then gives up if and only if it is condemned |
| Groupe.ExtinctWaitEnds | src/kernel/process/thread/lifecycle.rs:1202-1210 | once every sibling is dead, the scan returns after the slots that are left |
| Groupe.ExtinctForever | src/kernel/process/thread/lifecycle.rs:553-577 | an extinct group stays extinct for the rest of the run |
| ConsoleCle.StepKeys | src/drivers/serial/uart16550.rs:712-745 | positions and numbers of a writer's lines stay ordered across rings and CPUs at every access |
| ConsoleOrdre.StepSound | src/drivers/serial/uart16550.rs:527-542 | the scan's choice stays the least key of all mature records that were there when it passed |
| ConsoleOrdre.OvertakesIffMissed | src/drivers/serial/uart16550.rs:1944-1994 | a line is begun before an earlier line of its writer exactly when that one was deferred behind the scan |
| ConsoleOrdre.OrderKeptIffNotMissed | src/drivers/serial/uart16550.rs:2000-2029 | the order of the output survives the beginning of a line exactly when it overtakes no line deferred behind the scan |
| ConsoleOrdre.WriterOrder | tools/verifie-console-asynchrone.py:47-57 | in every run without such an overtaking, each writer's output is in its own order at every moment |
| ConsoleOrdre.CalmRunsAreOrdered | tools/verifie-console-asynchrone.py:271-286 | deferrals that land behind no scan are enough for that |
| ConsoleOctets.WholeAndOnce | src/drivers/serial/uart16550.rs:2000-2041 | the port carries whole lines back to back, each published line at most once and, when nothing waits, exactly once |
| ConsoleOctets.NoLineVanishes | src/drivers/serial/uart16550.rs:712-745 | every line a writer is past was published, or lost where the writer counts the loss |
| ConsoleOrdre.HeadInProgress | src/drivers/serial/uart16550.rs:2005-2016 | a line in progress has been sent past its eight octets of stamp and not to its end |
| ConsoleContre.MainOvertakesDeferred | src/drivers/serial/uart16550.rs:1966-1976 | a run in which the main ring's head overtakes an earlier deferred line of its writer |
| ConsoleContre.DeferredOvertakesDeferred | src/drivers/serial/uart16550.rs:531-537 | a run in which a deferred line overtakes an earlier one of its writer on another CPU |
| Differees.Anneau.constructor | src/drivers/serial/differees.rs:31-33 | an empty ring |
| Differees.Anneau.RangeMorceaux | src/drivers/serial/differees.rs:117-154 | the record is queued, its length before it low octet first, exactly when the pieces add up to the announced length and fit; otherwise nothing changes |
| Differees.Anneau.Premier | src/drivers/serial/differees.rs:157-166 | position and length of the oldest record, or none |
| Differees.Anneau.Lis | src/drivers/serial/differees.rs:171-186 | the asked slice of the oldest record, around the end of the buffer |
| Differees.Anneau.Retire | src/drivers/serial/differees.rs:190-192 | the oldest record leaves, the others stay |
| Differees.LongueurPrefixee | src/drivers/serial/differees.rs:222-231 | the length announced for a prefixed text is the length of that text |
| Differees.PosePrefixee | src/drivers/serial/differees.rs:236-250 | the pieces posed are the text with the prefix before each non-empty line |
| Differees.PrefixedLine | src/drivers/serial/differees.rs:236-250 | line by line, newline being octet 10, the prefixed text is the prefix and the line, or the line alone when it is empty or continues one |
| Differees.PlusAncienneMure | src/drivers/serial/differees.rs:267-275 | the CPU of a mature head no other mature head precedes, none if none is mature |
| ComptaSpec.Compte.AccountUntil | src/kernel/process/thread/comptabilite.rs:124-202 | a fold empties the block and is invisible: at every later instant a reader computes what it would have computed without it |
| ComptaSpec.Compte.AccountSliceEnd | src/kernel/process/thread/comptabilite.rs:635-663 | every later reading is the one of the closing instant: nothing lost, nothing counted twice, the clock stopped |
| ComptaSpec.Compte.ArmeTranche | src/kernel/process/thread/comptabilite.rs:594-633 | no reading jumps, and from then on readings grow with the clock on the side the task was left on; an open slice is left alone |
| ComptaSpec.Compte.FrontiereBloc | src/kernel/process/thread/comptabilite.rs:758-774 | no reading moves, and from then on they grow on the side crossed to; the former side is returned |
| ComptaSpec.SliceConserved | src/kernel/process/thread/comptabilite.rs:594-663 | from election to end, through any folds and boundaries, each total grows by exactly the time spent on its side and both together by the time elapsed |
| ComptaSpec.EndDisarms | src/kernel/process/thread/comptabilite.rs:635-663 | after the end of a slice the CPU's block holds nothing and no boundary counts any time in it |
| ComptaSpec.ClockBackwards | src/kernel/process/thread/comptabilite.rs:124-202 | with a clock earlier than the open fragment, a fold, a boundary and a reading count it for nothing and take nothing back |
| ComptaSpec.FoldKeepsWhatWasSeen | tools/verifie-compta-seqlock.py:36-41 | a fold keeps what a live reading showed exactly if its instant is not earlier |
| Compta.StepInv | src/kernel/process/thread/comptabilite.rs:44-62 | sections, boundaries, ticks, migrations, foreign tasks and readers keep totals, blocks and readings consistent with the truth |
| Compta.ReadingIsTruth | src/kernel/process/thread/metriques.rs:689-741 | an accepted reading is the true user and kernel time at one instant of its window |
| Compta.SuccessiveReadings | tools/verifie-compta-seqlock.py:13-41 | a reading begun after another was accepted is no smaller on either side, and their growth is within the time between them |
| Rectangles.IntersectExact | src/gui/protocole.rs:301-315 | clipping keeps exactly the common pixels and gives the zero rectangle when there are none |
| Rectangles.UnionCoversIffFits | src/gui/protocole.rs:323-340 | the union holds both rectangles exactly when their extents fit in 32 bits, and is then the least to do so |
| DegatsSpec.ProfitableExactly | gate1a/degats_sparse.rs:58-74 | the saturating test is the exact one, an empty rectangle always merging, except for pairs reaching a fifth of the 64-bit range, which always merge |
| DegatsSpec.InsertOnScreen | gate1a/degats_sparse.rs:97-152 | at most sixteen regions, all non-empty and on the screen |
| DegatsSpec.InsertCovers | gate1a/degats_sparse.rs:115-152 | no dirty pixel is forgotten through merges, removals and overflow |
| DegatsSpec.InsertExplains | gate1a/degats_sparse.rs:115-152 | the regions stay the exact boxes of a partition of the rectangles asked, the new one included |
| DegatsSpec.AskedInOneRegion | gate1a/degats_sparse.rs:97-152 | every rectangle asked lies whole in one region |
| DegatsSpec.InsertApart | gate1a/degats_sparse.rs:115-135 | until an overflow no two regions are worth merging |
| DegatsSpec.ApartNotNested | gate1a/degats_sparse.rs:115-135 | regions not worth merging are not nested |
| DegatsSpec.InsertCost | gate1a/degats_sparse.rs:115-135 | an insertion that merges k times costs at most (5/4)^k of what was held and asked |
| DegatsSpec.RegionCost | gate1a/degats_sparse.rs:58-74 | a region built from n rectangles covers at most (5/4)^(n-1) of their pixels |
| DegatsSpec.OverflowMergedNothing | gate1a/degats_sparse.rs:137-152 | overflow means sixteen regions and no merge; the slot that grows has the least box |
| DegatsSpec.SparseAgainstBox | gate1a/degats_sparse.rs:171-188 | n regions cost less than 2n/5 of any box around them |
| DegatsSpec.SparseCanExceedBox | gate1a/degats_sparse.rs:171-188 | for every count from three to sixteen, requests that leave so many regions, none worth merging, costing more than the screen |
| Degats.Degats.constructor | gate1a/degats_sparse.rs:88-94 | a frame with nothing asked |
| Degats.Degats.RetireIndex | gate1a/degats_sparse.rs:108-113 | the last region takes the place of the removed one |
| Degats.Degats.Fusionne | gate1a/degats_sparse.rs:115-130 | the restarting loop, which ends, computes the transitive absorption |
| Degats.Degats.Deborde | gate1a/degats_sparse.rs:138-151 | the first slot with the least resulting box takes the rectangle |
| Degats.Degats.Insere | gate1a/degats_sparse.rs:115-152 | the regions become the insertion's result; what was asked, pixels and merges are counted exactly |
| Degats.Degats.Ajoute | gate1a/degats_sparse.rs:97-106 | a rectangle off the screen changes nothing; otherwise every pixel of it on the screen, and all those already covered, are covered |
| Degats.Degats.Tout | gate1a/degats_sparse.rs:155-161 | one region, the screen, which still accounts for all that was asked |
| Degats.Degats.Region | gate1a/degats_sparse.rs:182-188 | a rectangle holds the box exactly when it holds everything asked |
| Degats.Degats.PixelsRegions | gate1a/degats_sparse.rs:174-179 | the saturated sum of the regions, within (5/4)^merges of the pixels asked until an overflow |
| Degats.Degats.Efface | gate1a/degats_sparse.rs:194-197 | nothing asked, nothing held |
| Pile.Parcours.ProfondeurMax | tools/mesure-pile-noyau.py:143-177 | for any graph and memo: a real chain avoiding the current path, with its exact cost, memoised unless marked; a function on the path gives depth 0 |
| Pile.Parcours.Mesure | tools/mesure-pile-noyau.py:230-231 | from a root: a real simple chain; it takes no cut call and is the longest that takes none; on an acyclic graph, the longest of all; every function the root reaches is memoised; its cost is eight octets per function and the frames of the chain |
| Pile.MemoIsLongest | tools/mesure-pile-noyau.py:154-176 | a memoised depth bounds every chain without cut calls |
| Pile.Memoise | tools/mesure-pile-noyau.py:159-176 | memoising a function keeps chains real, calls followed or cut, and cut calls on cycles |
| Pile.UnParcours | tools/mesure-pile-noyau.py:229-233 | one order over all roots with one memo never lowers a root's measure |
| Pile.PireParRacine | tools/mesure-pile-noyau.py:226-234 | the worst over all orders is the cost of a real simple chain and dominates, for each order, all but that order's cut calls |
| Blanc.BlankKeepsCode | tools/verifie-compta-seqlock.py:72-91 | code characters stay at their index, nothing but blanks, newlines and quotes remains elsewhere, and the length changes by one exactly when the text ends by opening a string |
| Blanc.BlankIdempotent | tools/verifie-compta-seqlock.py:72-91 | blanking twice is blanking once |
| Blanc.SansCommentaires | tools/verifie-compta-seqlock.py:72-91 | the index-driven scan computes the character-by-character reading |
| BlancTexte.BlankByPieces | tools/verifie-compta-seqlock.py:77-90 | on the text alone: a string runs to the first quote with an even number of backslashes before it, a comment to the newline; blanks replace what is inside, code is kept, and one character is added exactly for a lone last quote |
| BlancTexte.CutsUnique | tools/verifie-compta-seqlock.py:77-90 | a text has one cutting into code, comments and strings |
| Blocs.DepthCounts | tools/verifie-compta-seqlock.py:100-108 | the depth is the number of openings less that of closings |
| Blocs.Apparie | tools/verifie-compta-seqlock.py:94-125 | the shortest balanced block from an opening, or the end of the text |
| Blocs.ExtentsNested | tools/verifie-compta-seqlock.py:94-125 | two blocks of a text are disjoint or nested |
| Blocs.Enclosante | tools/verifie-compta-seqlock.py:128-133 | the function around a position that opens last, the first listed among equals, none if there is none |
| Blocs.LastOpenedIsInnermost | tools/verifie-compta-seqlock.py:128-133 | it is inside every other block around the position |

## Left out

- Scheduler: run-queue bands and cursors, affinity, residency, stealing policy, priorities and placement; any refusal or choice they make is a non-deterministic step of the hand-off machine.
- Scheduler: the synchronous-launch continuation and rehousing from a mute CPU.
- Liveness: no theorem says that something eventually happens; the machines have no fairness.
- Weak memory: all machines are sequentially consistent.
- PassationSure.ChecksNeverFail: the assertions on the transition gate, which keeps interrupts from preempting a switch, and on the accounting cursor are not in the hand-off machine.
- PassationPerte.NothingLost: stated for runs with quiet recyclings; what one other recycling can lead to is RecyclingSafeIffQuiet.
- Retraite: only user tasks meet a frontier, and one inside the kernel is not preempted; kernel threads, and the rescheduling interrupt a killer sends, are left out; what a killer does to a blocked task is a wake-up or a kill of the hand-off machine, and `CycleVie` follows it access by access.
- Groupe: waiting time, log lines and the reaping of the process.
- Console: panic, double fault, the synchronous path and its bounds, ring capacity, the help given by producers (the token holder may be anyone) and the wake-up of the drain thread.
- Console: positions are counted in records; the octets of the deferred header are in the record's text.
- Differees.Anneau.RangeMorceaux: producer and consumer of a ring are not interleaved octet by octet; a record is published by the one store of the queue.
- ComptaSpec.Compte.AccountUntil: the per-CPU cumulative counters, the recent run time, the wake-up budget and the slice invariants are not in the model.
- Degats: the statistics counters, except merges, overflows and pixels asked since the frame was emptied.
- Pile: the disassembly and the shuffling of the orders, which are inputs.
- Blocs: the regular expressions that find where a function or a section opens.
- The font atlas, drivers, network, file systems and the other guard scripts.
