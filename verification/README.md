# Resource broker: the reservation ledger and its neighbours

A broker keeps one `ClusterAdvertisement` per provider cluster. Its `Reserved` field is a ledger of
locked CPU and memory. Five kinds of writer change the same record: the reservation handler and the
reservation reconciler lock, the reconciler releases, agents overwrite the record with what they
measured, and the advertisement reconciler recomputes `Available`. Each reads a copy that may be
stale, computes, and writes only if the stored version is still the one it read. This project models
that protocol, the reservation life cycle that drives it, the decision engine, and the agents on both
sides (the requester's retries and the provider's own count of what it holds), and proves what they
guarantee.

## How it is built

| file | content |
|---|---|
| Quantities.dfy, Availability.dfy | amounts; the resource block and its in-place updates, as a class |
| Decision.dfy | the selection loop against a reference arg-max |
| Merits.dfy | what that choice is in integers |
| Protocol.dfy | the broker as a state machine over API calls: objects with whole version histories, workers with program counters and snapshots, any interleaving, any staleness, crashes, failed writes |
| History.dfy, Invariant.dfy | what one step does to one object; the invariant every run keeps |
| Safety.dfy | theorems over every run: no lost update, no double-booking, bounded overdraft, phases, handler answers |
| Calm.dfy | calm runs (see below): exact conservation |
| Honesty.dfy | runs whose agents post non-negative data: when the engine's divisions are defined |
| Reasons.dfy | what a reconcile may do, spelled out on the fields, and why any release was ever committed |
| Expiry.dfy | overdue reservations are let go within two successful reconciles, in any interleaving, and released exactly once in calm runs |
| Staleness.dfy | how old an Active cluster can be |
| Broker.dfy | the handlers and reconcilers as methods of a class, with other workers running between any two API calls, each proved to be a run of the protocol in which the worker does its work |
| Requester.dfy, RequestController.dfy | a ResourceRequest, the HTTP retries, the handler and the ReservationInstruction, end to end; the reconciler and client as a class |
| Instructions.dfy, Collector.dfy, Ledgers.dfy | delivery, enforcement and expiry of provider instructions; the collector's loops; agreement of the two ledgers |
| Counterexamples.dfy | concrete reachable states that show which hypotheses cannot be dropped |

A run is a sequence of events from the empty state; the transition function is total, and an event
that is not enabled changes nothing. A stale read is a read of an older version; an optimistic write
names the index it read. `Reachable(s)` means that some run leads to `s`. `Works(w, patient, s, s')`
means that some events lead from `s` to `s'` in which worker `w` neither crashes nor has a write of
its own fail for other reasons than a conflict (`patient` also rules out giving up the retry loop).
`CalmlyReached(s)` means that a calm run leads to `s`, one in which

- each reservation has one worker at a time, and that worker read its current version;
- users neither signal nor delete a reservation while a worker is on it, and do not delete a held one that has no finalizer;
- no status write fails, and no worker crashes between a lock or release it committed and the write that records it;
- a release's list contains the target.

Counterexamples.dfy has a run for each of these: two lockers (`DoubleLocking`), a stale read
(`StaleReadRepeatsRelease`), a signal meanwhile (`SignalRepeatsLock`), a deletion without finalizer
(`UnfinalizedDeleteLeaks`), a failed status write (`UnstoredStatusRepeatsLock`), a crash (`CrashRepeatsLock`) and a
list without the target (`MissedInListLeaks`).
`HonestlyLeads(INIT, s)` means that some run, calm or not, whose agents post non-negative data leads to `s`.

## What the model assumes

- Quantities are exact integers, as they are in the Go code; printing and parsing a quantity gives the
  same number. Scores are reals, +Inf or NaN: division by zero and comparisons follow IEEE, rounding is not modelled.
- Cluster names, namespaces and reservation names are only compared, so numbers stand for them; 0 is the
  empty name. Advertisements are named `<clusterID>-adv`, one to one, so they are keyed by cluster here.
  Generated reservation names are unique.
- Advertisements are not deleted. A reservation's requester and amounts, and a ResourceRequest's spec, are
  fixed after creation.
- A write that returns an error was not stored. (A worker may still crash right after a write that was.)
- Clocks and lists read from a cache are parameters of the operations, and so is the number of
  turns the conflict-retry loop gets.
- A nil GPU count in `Allocated` next to a set one in `Allocatable` stops the Go code with a nil dereference
  (resource-broker/internal/resource/availability.go:48-57); `GpuComplete` is that precondition, and a lock, release or
  recalculation that meets it violated ends there. `PostedIsGpuComplete` says exactly when an agent posts such a record.
- The advertisement reconciler's score update is a second status write of the same values and is merged with the first.
- The staleness threshold is a parameter of each reconcile; zero means the default of two minutes.

## What was found

- The broker's README says that locking through `Reserved` prevents double-booking. It does on every record whose
  `Available` was recalculated since its last POST (`NoDoubleBooking`). A POST stores the agent's own `Available`, and in
  the window before the next recalculation one lock can overbook (`PostReopensRoom`); at most one per POST
  (`AtMostOneOverdraft`), by at most what the provider had not yet counted (`OverdraftIsBounded`).
- The handler leaves its reservation with an empty phase and a target, so the reconciler can lock it too:
  the same request is then held twice for good (`DoubleLocking`). The same follows from a crash or a failed status write
  after the lock (`CrashRepeatsLock`, `UnstoredStatusRepeatsLock`), and from a client retry after a lost answer
  (`LostAnswerLocksTwice`). A reconcile that reads a stale reservation can release it twice and make the ledger negative (`StaleReadRepeatsRelease`).
- An early release does not reach the provider: until the deadline its agent still counts the instruction
  (`EarlyReleaseStillCounts`).
- The score's divisions are defined for every eligible record whose Allocated and Reserved together are not negative, in
  any run with agents that post non-negative data (`Honesty.FeasibleIsScorable`), and so in every calm run. The condition is
  exact (`RoomOnNothing`): after a double release, a POST of a cluster without ready nodes and one recalculation, a cluster
  with nothing to allocate is eligible and scores +Inf, so that only such a cluster can win (`NothingWinsEverySelection`).
- A held reservation deleted before its finalizer was stored, and a release whose list misses the target, leave their
  amount in the ledger for good (`UnfinalizedDeleteLeaks`, `MissedInListLeaks`).
- Selection does not always find an eligible cluster, even above priority -190: an exact fit over a zero allocatable amount
  scores NaN and is never chosen (`NothingIsChosenThoughEligible`). That is the only exception
  (`SelectionComplete`), it does not arise in calm runs (`CalmSelectionComplete`), and -190 is the exact bound
  (`PriorityBoundIsTight`).
- A POST drops the cost information of the record it replaces
  (resource-broker/internal/transport/dto/conversion.go:38-52); the model follows the code.
- A comment announces a requeue after 30 seconds; the code requeues after 5 minutes
  (resource-broker/internal/controller/clusteradvertisement_controller.go:113-114). The freshness bound uses the code's.

## Model

| member | source | states |
|---|---|---|
| Safety.NoLostUpdate | resource-broker/internal/controller/reservation_controller.go:187-284 | in every run, every stored version's Reserved (nil as zero) is the sum of the locks minus the sum of the releases committed up to it, in CPU and in memory |
| History.LedgerIsNetOfCommits | resource-broker/internal/resource/calculator.go:32-71 | the same over one serial history: each version is derived from its immediate predecessor, so no committed write is lost |
| Safety.EveryHistoryIsSerial | resource-broker/internal/api/handlers/reservation.go:126-146 | however stale the snapshots, each stored version is the lock, release, POST, recalculation or status write of exactly the version before it, and a lock commits only what that version had room for |
| Invariant.EveryRunKeeps | resource-broker/internal/controller/reservation_controller.go:187-424 | the inductive invariant over all interleavings of any number of workers: what each program counter knows, which version each lock wrote, and the balance of ledger and reservations |
| Safety.LedgerIsSumOfReservations | resource-broker/internal/controller/reservation_controller.go:187-424 | in every run a cluster's ledger is the sum over reservations of what each accounts for: its phase, plus commits its phase does not show yet |
| Safety.PostKeepsLedger | resource-broker/internal/api/handlers/advertisement.go:57-73 | a committed POST, whatever its agent echoed, stores exactly the Reserved of the version it replaced |
| Safety.AbsentLedgerWasAbsentBefore | resource-agent/internal/transport/http/client.go:92-107 | when a stored record has no ledger, no earlier version had one, so the agent's earlier GET saw none either |
| History.LedgerStaysPresent | resource-broker/internal/transport/dto/conversion.go:51-58 | once a ledger exists it exists in every later version |
| Safety.NoDoubleBooking | resource-broker/internal/api/handlers/reservation.go:126-146 | a lock committed on a record recalculated since its last POST leaves Available = Allocatable - Allocated - Reserved >= 0, and all shares with the pods fit in Allocatable |
| Safety.NoDoubleBookingUntilPost | resource-broker/internal/resource/calculator.go:12-71 | and it stays so: once a recalculated version has Available >= 0, then whatever locks, releases and recalculations follow, until the next POST everything held fits with the pods in Allocatable |
| History.RoomStays | resource-broker/internal/resource/calculator.go:12-71 | along a serial history a recalculated Available that is not negative stays so until the next POST |
| Safety.AtMostOneOverdraft | resource-broker/internal/resource/calculator.go:44-49 | between two POSTs only the first lock can leave Available negative |
| Safety.OverdraftIsBounded | resource-agent/internal/metrics/collector.go:93-111 | and that lock leaves Available at least lr - R, where lr is what the agent had counted and R the ledger |
| History.SettledIsConsistent | resource-broker/internal/controller/clusteradvertisement_controller.go:64-71 | after any lock, release or recalculation that follows the last POST, stored Available is the formula's |
| Availability.LockLeavesHeadroom | resource-broker/internal/resource/calculator.go:12-52 | a lock that passed CanReserve leaves Available non-negative exactly when the real headroom held the request |
| Availability.BoundedDeficit | resource-broker/internal/resource/calculator.go:32-52 | the size of the deficit one lock can cause on a clamped Available |
| Availability.ResourceMetrics.UpdateAvailableResources | resource-broker/internal/resource/availability.go:24-60 | in place: Available becomes Allocatable - Allocated - Reserved in CPU, memory and, where counted, GPU, and nothing else changes |
| Availability.ResourceMetrics.AddReservation | resource-broker/internal/resource/calculator.go:32-52 | in place: Reserved grows by the request, starting from zero when absent, and Available is recomputed |
| Availability.ResourceMetrics.RemoveReservation | resource-broker/internal/resource/calculator.go:55-71 | in place: refuses and changes nothing without a ledger, otherwise takes the request off and recomputes |
| Calm.CalmConservation | resource-broker/internal/controller/reservation_controller.go:187-424 | with one worker per reservation and no failed status write: the ledger is non-negative and is the sum of the requests of held reservations, plus unmarked locks, minus unmarked releases; each reservation counts zero or one time |
| Calm.UnitsPinned | resource-broker/internal/controller/reservation_controller.go:253-269 | what a reservation accounts for is read off its phase and the program counter of the worker on it, and is zero or one |
| Calm.ReleaseIsCovered | resource-broker/internal/controller/reservation_controller.go:373-424 | whenever a release is under way, the current record of its target exists and has a ledger that covers the request, so a release that commits leaves the ledger non-negative |
| Safety.ReleaseReadExactly | resource-broker/internal/controller/reservation_controller.go:384-407 | in every run a release that reads version b of its target goes on exactly when a lock was committed at or before b and the record can be recalculated; otherwise its reconcile ends with nothing done |
| Safety.CommittedReleaseHadLedger | resource-broker/internal/resource/calculator.go:55-71 | every release ever committed had a ledger in the version it replaced |
| History.LedgerSinceFirstLock | resource-broker/internal/resource/calculator.go:32-42 | a version has a ledger exactly when a lock was committed at or before it |
| Calm.AllTerminalMeansEmpty | resource-broker/internal/controller/reservation_controller.go:75-91 | when all reservations are terminal or gone and no worker is busy, every ledger is zero |
| Calm.CalmWritesAreCurrent | resource-broker/internal/controller/reservation_controller.go:253-269 | no finalizer or status write of such a run meets a newer version |
| Honesty.FeasibleIsScorable | resource-broker/internal/broker/decision.go:52-103 | in every run whose agents post non-negative data, any eligible stored version, however stale, whose Allocated and Reserved together are not negative has positive allocatable CPU and memory |
| Honesty.RoomOnNothing | resource-broker/internal/broker/decision.go:74-103 | that condition is exact: a recalculated record with nothing allocatable has room for a positive request if and only if its Allocated and Reserved together are negative |
| Honesty.PostedIsScorable | resource-agent/internal/metrics/collector.go:93-111 | as an agent posted it, an eligible record always has positive allocatable amounts |
| Honesty.HonestlyReachedKeeps | resource-broker/internal/resource/availability.go:24-45 | in every run with such agents, in each stored version Allocated is not negative and Available exceeds Allocatable only where Allocated and Reserved together are negative |
| Honesty.CalmLedgersAreNonNegative | resource-broker/internal/controller/reservation_controller.go:187-424 | in calm runs no stored version has a negative ledger, so the condition always holds there |
| Safety.PhasesMoveForward | resource-broker/internal/controller/reservation_controller.go:115-135 | in every run the rank of the phase never falls, equal rank means equal phase, Failed and Released absorb, requester and amounts never change, and a reservation changes phase at most three times |
| History.AtMostThreeChanges | resource-broker/internal/controller/reservation_controller.go:115-135 | every phase change raises the rank, which bounds their number |
| History.LifelineForward | resource-broker/internal/controller/reservation_controller.go:158-174 | along a reservation's versions: request, requester and a set target are fixed, phases go forward, held phases have a valid spec and a target, and a gone object has no later version |
| Safety.FailedMeansNoLock | resource-broker/internal/controller/reservation_controller.go:221-251 | a worker about to record Failed has committed no lock on any cluster, given that a write that returns an error was not stored |
| Expiry.ExpiredReleasedInTwo | resource-broker/internal/controller/reservation_controller.go:287-370 | in a calm run, two successful reconciles at or after the deadline, with arbitrary calm steps of others before, between and during them and whatever conditions the requester sets, leave an overdue reservation Released or gone; no lock is committed for it meanwhile, and exactly one release |
| Expiry.TwoReconcilesLetGo | resource-broker/internal/controller/reservation_controller.go:287-370 | in every run, calm or not, with stale reads, crashes and failed writes of others included, two such reconciles leave it Released or gone; how often it is released is not bounded there |
| Expiry.OneReconcileMovesOn | resource-broker/internal/controller/reservation_controller.go:293-322 | one successful reconcile, whatever interleaves with it, moves an overdue reservation from Reserved to Active or lets it go, and from Active lets it go |
| Expiry.OverdueUntilLetGo | resource-broker/internal/controller/reservation_controller.go:115-135 | whatever happens, an overdue reservation stays held and overdue until it is let go, and only moves forward |
| Expiry.UnitsAreNetCommits | resource-broker/internal/controller/reservation_controller.go:187-424 | in every run what a reservation accounts for changes by exactly the locks minus the releases committed for it |
| Expiry.NoLocksOnceHeld | resource-broker/internal/controller/reservation_controller.go:115-135 | in a calm run no lock is committed for a reservation that has left its open phase |
| Expiry.FreesOnTarget | resource-broker/internal/controller/reservation_controller.go:396-424 | a committed release is one new version of the reservation's own target, with exactly its request taken off, and no other record changes |
| Reasons.EveryReleaseHadAReason | resource-broker/internal/controller/reservation_controller.go:75-91 | in every run each release ever stored was committed by a keeper that had read, at some clock reading of its own, a version that was deleted, given back by its requester while Active, or past its deadline with no promotion pending |
| Reasons.IdleExactly | resource-broker/internal/controller/reservation_controller.go:59-135 | on the fields: the reconciler has nothing to do exactly for a gone object, a deleted one without finalizer, and a valid finalized one that is terminal, or held without a promotion, a return or a passed deadline |
| Reasons.StatusWriteExactly | resource-broker/internal/controller/reservation_controller.go:253-269 | a status write sets the phase, on becoming Reserved the deadline from the duration, and nothing else |
| Expiry.ReleasedIsLeftAlone | resource-broker/internal/controller/reservation_controller.go:115-135 | a reconcile that reads the current version of a Released reservation changes nothing |
| Broker.Broker.LockWithRetry | resource-broker/internal/api/handlers/reservation.go:126-146 | read, check, add in place and versioned write, retried on conflict: granted means this worker's lock is the newest version of its target, with exactly the request added to the ledger before it; undisturbed on the current record it is granted if and only if Available is at least the request in CPU and in memory and the GPU counts are complete; one undisturbed turn is enough not to run out |
| Broker.Broker.TryLock | resource-broker/internal/controller/reservation_controller.go:195-219 | one turn: a conflict leaves the worker at the read again, a missing target or too little room at Failed, a turn nobody disturbs never conflicts |
| Broker.Broker.ReadForLock | resource-broker/internal/controller/reservation_controller.go:195-219 | the protocol's read step on the version the cache answered with, and exactly when it is a miss, a shortage or a panic |
| Broker.Broker.WriteLock | resource-broker/internal/controller/reservation_controller.go:195-219 | the protocol's commit step: it succeeds exactly when the version read is still current |
| Broker.Broker.PostReservation | resource-broker/internal/api/handlers/reservation.go:27-191 | refused input and an empty selection change nothing; otherwise a reservation exactly as asked for is created on the chosen cluster and the call ends; an answer names it, the chosen target, which is not the requester, and the requested amounts, and means exactly one committed lock of them; undisturbed up to its first lock attempt it answers if and only if Available is at least the request and the GPU counts are complete, and undisturbed throughout it records Reserved with its deadline, or Failed |
| Broker.Broker.FinishHandler | resource-broker/internal/api/handlers/reservation.go:119-174 | finalizer, lock with retries and status write as a run in which the handler does its work, for an unchanged request |
| Broker.Broker.Reconcile | resource-broker/internal/controller/reservation_controller.go:59-135 | from a possibly stale read to the last API call, on the fields of the version read: with nothing to do, which includes any held reservation without promotion, return or passed deadline, no state changes; otherwise the worker ends idle, and a stored closing write says what the rules allow (Failed for an invalid spec, Reserved on the named or chosen target with its deadline, or Failed, Active exactly for a confirmed Reserved one, Released only for a return or a passed deadline, gone for a deletion); undisturbed on a current read it does store, and an open one becomes Reserved if and only if there is room |
| Broker.Branch | resource-broker/internal/controller/reservation_controller.go:101-174 | validation, then the switch on the phase with selection for an empty target, each case spelled out; it refines the protocol's dispatch |
| Broker.First | resource-broker/internal/controller/reservation_controller.go:75-99 | gone, deletion, finalizer, then the branches, each case spelled out |
| Broker.Broker.ReleaseResources | resource-broker/internal/controller/reservation_controller.go:373-424 | list, subtract in place, versioned write without retry: if the target is listed and the reconcile goes on, the newest version of the target is this worker's release, with exactly the request taken off the ledger before it and Available by the formula |
| Broker.ReleaseTookOff | resource-broker/internal/resource/calculator.go:55-71 | in every run a stored release differs from its predecessor by exactly its request, and has Available by the formula |
| Broker.LockPutOn | resource-broker/internal/resource/calculator.go:32-52 | in every run a stored lock adds exactly its request to the ledger before it, which showed at least that much available, and has Available by the formula |
| Broker.Broker.ReadForRelease | resource-broker/internal/controller/reservation_controller.go:384-407 | skips the release exactly when the target is not listed, fails without a ledger |
| Broker.FindCluster | resource-broker/internal/controller/reservation_controller.go:426-453 | the first listed item with the id, and none exactly when there is none |
| Broker.Broker.UpdateReservation | resource-broker/internal/controller/reservation_controller.go:253-269 | an update succeeds exactly on the current version and appends exactly the given content |
| Broker.Broker.MarkStatus | resource-broker/internal/controller/reservation_controller.go:253-269 | the status write with its deadline from the duration; the handler counts as answered either way |
| Broker.Broker.AddFinalizer | resource-broker/internal/controller/reservation_controller.go:93-99 | finalizer write, after which the handler goes on even when it failed and the reconciler only when it succeeded |
| Broker.Broker.PostAdvertisement | resource-broker/internal/api/handlers/advertisement.go:42-87 | from the agent's GET to the versioned write or create: success stores everything the agent posted with the previous version's Reserved, and a POST nobody interferes with succeeds |
| Broker.Broker.ReadForPost | resource-broker/internal/api/handlers/advertisement.go:42-64 | the stored Reserved replaces the echoed one when present |
| Broker.Broker.WritePost | resource-agent/internal/publisher/broker_client.go:166-185 | an update succeeds only on the version read, a create only when nothing is stored |
| Broker.Broker.ReconcileAdvertisement | resource-broker/internal/controller/clusteradvertisement_controller.go:48-115 | with others running before each of its two writes: a stored status means that the record is settled, with Available = Allocatable - Allocated - Reserved, and that its Active flag is the staleness test for it at that time; undisturbed on a current read the status is stored, and without it nothing changes |
| Broker.Broker.WriteRecalculated | resource-broker/internal/controller/clusteradvertisement_controller.go:64-71 | the spec write; when it fails the status write still follows |
| Safety.AnsweredMeansOneLock | resource-broker/internal/api/handlers/reservation.go:126-191 | an answered handler call committed exactly one lock over all clusters, of its request, on its target, which is not the requester |
| Safety.LeadsKeepsRequest | resource-broker/internal/api/handlers/reservation.go:86-117 | along any run whom and what a handler call works for stays the same |
| Decision.SelectBestCluster | resource-broker/internal/broker/decision.go:36-118 | the loop computes the reference choice, which is always another active cluster with at least the requested amounts |
| Merits.ChoiceByMerit | resource-broker/internal/broker/decision.go:86-118 | over positive allocatable amounts and above priority -190 that choice is the cluster of the highest merit per size, the earliest of equals, and there is none exactly when no cluster is feasible; merit per size is nine or ten, with and without cost, times 2 plus the two remaining fractions, compared in integers |
| Merits.ScoreIsMerit | resource-broker/internal/broker/decision.go:86-118 | the score without its bonus, times twenty times the product of the allocatable amounts, is that integer |
| Merits.WinnerHasMostHeadroomInIntegers | resource-broker/internal/broker/decision.go:86-107 | among clusters without cost the winner has the greatest sum of remaining fractions of CPU and memory, multiplied out |
| Decision.ChoiceIsBest | resource-broker/internal/broker/decision.go:36-70 | the choice is i exactly when i is eligible, above the start value, unbeaten and the earliest such; none exactly when no eligible score beats the start value |
| Decision.SelectionComplete | resource-broker/internal/broker/decision.go:66-118 | for lists without negative allocatable amounts and priorities above -190 the engine errors exactly when every eligible cluster is an exact fit over a zero allocatable amount, whose score is NaN; so it fails to choose among eligible clusters exactly then |
| Decision.ScorableSelectionComplete | resource-broker/internal/broker/decision.go:66-118 | where all eligible clusters have positive allocatable amounts, it errors exactly when none is eligible |
| Decision.ScoreKinds | resource-broker/internal/broker/decision.go:86-119 | which eligible clusters score a number, +Inf or NaN, exactly |
| Honesty.HonestSelection | resource-broker/internal/broker/decision.go:36-70 | the same exact condition for any view of stored versions, however old, of any run with honest agents, where no allocatable amount is negative |
| Honesty.CoveredSelectionComplete | resource-broker/internal/broker/decision.go:36-70 | for such a view whose versions have non-negative Allocated and Reserved together, the engine errors exactly when no cluster is eligible |
| Honesty.CalmSelectionComplete | resource-broker/internal/broker/decision.go:36-70 | and so for every view of stored versions of a calm run with honest agents |
| Decision.PriorityBoundIsTight | resource-broker/internal/broker/decision.go:36-118 | at a priority that exact condition holds for all lists without negative allocatable amounts if and only if the priority is above -190 |
| Decision.PriorityDoesNotChoose | resource-broker/internal/broker/decision.go:116-118 | any two priorities above -190 choose the same cluster, zero allocatable amounts included |
| Decision.WinnerHasMostHeadroom | resource-broker/internal/broker/decision.go:86-119 | among clusters without cost information the winner maximises the post-reservation headroom fractions |
| Decision.InfiniteWins | resource-broker/internal/broker/decision.go:86-119 | an eligible cluster with more than a fit over one zero allocatable amount, and no exact fit over another, scores +Inf, and then the winner has a zero allocatable amount |
| Decision.ReorderingKeepsScore | resource-broker/internal/broker/decision.go:39-64 | reordering the list changes neither whether there is a winner nor the winning score |
| Staleness.ActiveIsFresh | resource-broker/internal/controller/clusteradvertisement_controller.go:73-114 | a stored Active flag means the record is no older than the configured threshold (two minutes when none is) plus requeue interval plus lag, when agents' timestamps do not go back and reconciles are on time |
| Staleness.VersionIsFresh | resource-broker/internal/controller/clusteradvertisement_controller.go:73-114 | the same for any version at the time when it was the newest |
| Staleness.SelectedIsFresh | resource-broker/internal/broker/decision.go:25-50 | nor, but for the age of the cached list, is any provider the engine selects |
| Staleness.EveryRunDecides | resource-broker/internal/controller/clusteradvertisement_controller.go:73-104 | in every run each stored status was decided from an earlier version of the same record |
| Requester.GrantedMeansOneLock | resource-agent/internal/controller/resourcerequest_controller.go:47-105 | in every run, a ResourceRequest status Reserved is its last one and names a reservation whose handler call committed exactly one lock of exactly the requested amount on the named target, not the agent itself, and whose instruction exists with that target and amount |
| Requester.EverySystemRunKeeps | resource-agent/internal/controller/resourcerequest_controller.go:35-106 | the invariant of agents and broker together: replies in flight, statuses and instructions are all backed by answered handler calls |
| Requester.OneAnswer | resource-agent/internal/controller/resourcerequest_controller.go:119-127 | an instruction found under a reservation's name says the same as the reply in hand |
| RequestController.RequestController.RequestReservation | resource-agent/internal/transport/http/client.go:252-305 | at most four attempts, each a new request: the outcome is the latest attempt's reply or a failure, as a run in which the client does its work; if one of the first four attempts is answered and no earlier one ended it, there is a reply |
| RequestController.RequestController.Attempt | resource-agent/internal/transport/http/client.go:268-302 | one attempt: an answer below 500 ends the loop, no answer uses up one attempt |
| RequestController.RequestController.CreateInstruction | resource-agent/internal/controller/resourcerequest_controller.go:108-153 | creates the instruction unless one of that name exists, and decides the status |
| RequestController.RequestController.UpdateStatus | resource-agent/internal/controller/resourcerequest_controller.go:155-170 | the status is stored exactly when the version read is still current |
| RequestController.RequestController.Reconcile | resource-agent/internal/controller/resourcerequest_controller.go:35-106 | final requests are left alone; otherwise the call ends, and a stored Reserved status is backed by an answered handler call and an instruction; while others leave requests and instructions alone and the read was current, the last status is Reserved with the reply's target and reservation if and only if a client is configured, the broker answered and the instruction was stored, and Failed otherwise; and if one of four attempts is served, the broker answered |
| RequestController.RequestController.AskAndStore | resource-agent/internal/controller/resourcerequest_controller.go:75-105 | an answer with a stored instruction settles on Reserved with that target and reservation, and the instruction is there with them; otherwise on Failed |
| Instructions.GetInstructions | resource-broker/internal/api/handlers/advertisement.go:177-214 | offers exactly the listed reservations that are Reserved with the caller as target, each with its requester, amounts and deadline |
| Ledgers.AnswerInstructions | resource-broker/internal/api/handlers/advertisement.go:177-214 | so from a cached list of stored versions a cluster is offered only versions that were Reserved on it, and all of those the cache shows |
| Instructions.DeliverAt | resource-agent/internal/controller/instruction_poller.go:55-108 | after a delivery: what was there stays, a new one is made from its first Reserved offer, and nothing else appears |
| Instructions.DeliverExactly | resource-agent/internal/controller/instruction_poller.go:55-108 | the same on the fields: a new instruction carries the offer's requester, CPU, memory and deadline and is not enforced, and every Reserved offer has one |
| Instructions.DeliveryIsIdempotent | resource-agent/internal/controller/instruction_poller.go:55-108 | delivering the same offers again changes nothing |
| Instructions.OrderDoesNotMatter | resource-agent/internal/controller/advertisement_controller.go:167-223 | the same agreeing offers in any order and repetition leave the same store |
| Ledgers.OffersPersist | resource-broker/internal/api/handlers/advertisement.go:196-203 | what an earlier state offered is still a version of that reservation in every later state |
| Ledgers.BrokerOffersAgree | resource-broker/internal/api/handlers/advertisement.go:196-203 | all offers of one reservation, from listings however stale, say the same |
| Instructions.ProviderAgent.ProcessAdvertised | resource-agent/internal/controller/advertisement_controller.go:167-223 | the second path, with its namespace fallback, in place |
| Instructions.ProviderAgent.ProcessPolled | resource-agent/internal/controller/instruction_poller.go:55-108 | the first path, in place |
| Instructions.FirstDeliveryFixes | resource-agent/internal/controller/instruction_poller.go:65-71 | over any run of deliveries and reconciles an instruction stays, and only its enforced flag moves |
| Instructions.AtMostOnePerReservation | resource-agent/internal/controller/advertisement_controller.go:173-186 | any mix of both paths, in any order and repetition, gives at most one instruction per reservation, for any namespaces |
| Instructions.PathsAgree | resource-agent/cmd/main.go:113-130 | with an empty instruction namespace defaulting to the advertisement's, both paths write to one namespace for every pair of flag values |
| Instructions.ProviderAgent.constructor | resource-agent/cmd/main.go:113-130 | the store starts empty with the defaulted namespaces |
| Instructions.ProviderAgent.Reconcile | resource-agent/internal/controller/providerinstruction_controller.go:27-105 | afterwards an instruction is enforced exactly when its deadline, if any, is not past, and nothing else of it changed; changes nothing on a failed write, and requeues at the deadline, after 300 seconds, or not at all exactly when expired or missing |
| Instructions.ExpiredStaysUnenforced | resource-agent/internal/controller/providerinstruction_controller.go:39-57 | after the first successful reconcile past the deadline the instruction is not enforced in any later state |
| Collector.CalculateAllocated | resource-agent/internal/metrics/collector.go:137-235 | the loops compute, over Running and Pending pods, max(sum of containers, max of init containers, 0) plus overhead in CPU, memory and GPU, with GPU present exactly when a counted pod names one |
| Collector.Contribution | resource-agent/internal/metrics/collector.go:157-224 | one pod's share, whichever way the GPU flag stood before it |
| Collector.PeakIsLargest | resource-agent/internal/metrics/collector.go:181-198 | the running maximum is non-negative, bounds every init request and is attained or zero |
| Collector.AddingPod | resource-agent/internal/metrics/collector.go:151-155 | a Running or Pending pod adds what it occupies to the sum, any other pod nothing |
| Collector.PodUseExactly | resource-agent/internal/metrics/collector.go:157-224 | what a pod occupies is its overhead and the least non-negative amount that covers its containers together and each init container alone |
| Collector.PlainPodAdds | resource-agent/internal/metrics/collector.go:157-202 | a Running or Pending pod without init containers and overhead adds exactly its containers' requests |
| Collector.OrderOfPods | resource-agent/internal/metrics/collector.go:151-228 | the sum does not depend on how the list is split |
| Collector.AddingNode | resource-agent/internal/metrics/collector.go:46-79 | a ready node adds its allocatable and its capacity, any other node nothing |
| Collector.ReadyExactly | resource-agent/internal/metrics/collector.go:309-316 | ready means that the first condition of kind Ready is true |
| Collector.AddingInstruction | resource-agent/internal/metrics/collector.go:253-289 | an instruction adds its amounts exactly when it is enforced and not past its deadline, with the parse failures of the loop |
| Collector.CalculateReserved | resource-agent/internal/metrics/collector.go:238-306 | sums enforced unexpired instructions, dropping a whole instruction whose CPU does not parse and only the memory otherwise |
| Collector.IsNodeReady | resource-agent/internal/metrics/collector.go:309-316 | the first Ready condition decides |
| Collector.SumNodes | resource-agent/internal/metrics/collector.go:46-83 | capacity and allocatable over ready nodes; both GPU counts appear exactly when a ready node has GPU capacity |
| Collector.CollectClusterResources | resource-agent/internal/metrics/collector.go:23-134 | nothing exactly without nodes, otherwise the sums and Available clamped at zero |
| Ledgers.DeliveredLedgersAgree | resource-agent/internal/metrics/collector.go:255-292 | after any run of deliveries and reconciles of the provider, once every reservation the ledger holds is stored, enforced and unexpired and no released one still counts, the agent's sum is the broker's Reserved |
| Ledgers.CountedOnce | resource-agent/internal/metrics/collector.go:255-292 | however its offers arrived, an instruction is counted at most once: the sum is that of the requests of the counted reservations |
| Ledgers.AvailableAgrees | resource-agent/internal/metrics/collector.go:87-111 | then, for the same Allocatable and Allocated, the agent's Available is max(0, the broker's) |
| Ledgers.HeldByPhase | resource-broker/internal/controller/reservation_controller.go:253-269 | between reconciles the ledger holds exactly the Reserved and Active reservations |
| Ledgers.ExpiryAgrees | resource-agent/internal/metrics/collector.go:255-264 | under one clock an enforced instruction is counted exactly while the broker would not expire its held reservation |
| Ledgers.StoreIsFaithful | resource-agent/internal/controller/instruction_poller.go:73-92 | every stored instruction says what some Reserved version of its reservation says |
| Ledgers.InstructionSays | resource-agent/internal/controller/instruction_poller.go:73-92 | a delivered instruction has the requester, amounts and, while held, the deadline of its reservation |
| Ledgers.ReservedIsFixed | resource-broker/internal/controller/reservation_controller.go:253-269 | while a reservation is Reserved its target, amounts and deadline do not change |
| Ledgers.PostedIsHonest | resource-agent/internal/metrics/collector.go:93-125 | from non-negative inputs the agent posts 0 <= Available <= Allocatable and Allocated >= 0 |
| Ledgers.PostedIsGpuComplete | resource-broker/internal/resource/availability.go:47-59 | the broker can recalculate a posted record exactly when no ready node has GPU capacity or some counted pod names a GPU |
| Ledgers.PostedIsClamped | resource-agent/internal/metrics/collector.go:93-111 | what the agent posts meets the hypothesis of the overdraft bound, with its own count |
| Counterexamples.DoubleLocking | resource-broker/internal/api/handlers/reservation.go:86-117 | a reachable state in which handler and reconciler locked one reservation of four, and the ledger stays at eight |
| Counterexamples.CrashRepeatsLock | resource-broker/internal/controller/reservation_controller.go:253-269 | a crash between lock and status write makes the next reconcile lock again |
| Counterexamples.UnstoredStatusRepeatsLock | resource-broker/internal/api/handlers/reservation.go:171-174 | a status write that fails after the lock makes the next reconcile lock again |
| Counterexamples.SignalRepeatsLock | resource-broker/internal/controller/reservation_controller.go:253-269 | a signal of the requester between lock and status write makes the latter conflict, and the next reconcile locks again |
| Counterexamples.UnfinalizedDeleteLeaks | resource-broker/internal/api/handlers/reservation.go:119-123 | a held reservation whose finalizer was not stored is deleted at once, and its amount stays in the ledger |
| Counterexamples.MissedInListLeaks | resource-broker/internal/controller/reservation_controller.go:396-399 | a release whose list misses the target is skipped: the reservation is Released, and its amount stays |
| Counterexamples.StaleReadRepeatsRelease | resource-broker/internal/controller/reservation_controller.go:305-320 | a reconcile on a stale reservation releases twice: the ledger is negative |
| Counterexamples.PostReopensRoom | resource-broker/internal/transport/dto/conversion.go:27-47 | a POST reopens room: reservations of twelve are held on a cluster of ten |
| Counterexamples.LostAnswerLocksTwice | resource-agent/internal/transport/http/client.go:268-302 | a lost answer and a client retry: one granted request of four holds eight, and one instruction exists |
| Counterexamples.EarlyReleaseStillCounts | resource-agent/internal/metrics/collector.go:255-264 | after an early release the broker's ledger is empty while the agent, which was offered and enforced the instruction, still counts it |
| Counterexamples.NothingIsChosenThoughEligible | resource-broker/internal/broker/decision.go:46-68 | in the same state, asked for an exact fit, the engine errors above priority -190 although the only cluster is eligible |
| Counterexamples.NothingWinsEverySelection | resource-broker/internal/broker/decision.go:86-103 | with honest agents, after a double release, a POST without ready nodes and a recalculation, a cluster with nothing allocatable is eligible, scores +Inf, and wins or is beaten only by another such |

## Left out

- HTTP, TLS, certificates, JSON, middleware, logging, flags and wiring: the requester's identity is an input.
- `liqoctl`, the peering controller of ReservationInstructions and its delivered flag: a foreign process.
- Kubernetes internals: informers, work queues, garbage collection and back-off are only stale reads, versioned writes and a bounded number of attempts.
- The legacy reservation watcher: a third delivery path with its own reset of `Enforced`.
- Conditions, messages, cost strings, the stored base score and the overcommitted flag: shown or stored only; of the cost only its presence matters.
- The GPU count of a reservation request: the broker never locks GPUs.
- The wait times in the client's retry loop: only the number of attempts is modelled.
- Deletion or editing of provider and reservation instructions by users: the model only creates, enforces and expires them.
- Broker.Broker.PostAdvertisement: one POST is modelled for both the HTTP handler and the legacy publisher, whose steps on the record are the same with no echo.
- Instructions.ProviderAgent.Process: the two loops are one here, called with each path's namespace; a failing Create is an offer that did not arrive.
- Staleness.ActiveIsFresh: says what holds while reconciles come on time, up to a lag; that they do is an assumption about the work queue.
- Calm.CalmConservation: holds in calm runs as listed above; Safety.LedgerIsSumOfReservations holds in every run.
- Safety.FailedMeansNoLock: a lock write that is stored and whose answer is lost to an error is not modelled; the handler would then record Failed with its lock in the ledger.
- Expiry.TwoReconcilesLetGo: says what two successful reconciles do; that the work queue brings them is an assumption. Broker.Broker.Reconcile says when one succeeds.
