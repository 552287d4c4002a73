# Desired-state control plane of the dynamic-DNS pilot, in Dafny

Devices submit their complete address set to a controller over `PUT`. The
controller commits it to a store of two tables under a strong precondition and
an idempotency key. One publisher projects the store into a DNS zone by dynamic
update and asks the public servers whether they agree. Leases expire lazily (in
the handlers) and eagerly (in a sweep). The agent keeps one pending submission on
disk and retries it across crashes and lost replies.

The project models these four parts, states what each step does, and proves what
holds over whole runs in which the steps interleave, crash, repeat and are lost.

## Layout

| file | content |
|---|---|
| `Order`, `Results`, `Names` | sorted arrangements, error returns, domain names |
| `Addresses`, `ETag`, `Wire` | canonical address sets, the generation ETag, the wire form and its validation |
| `DesiredState` | the two tables as values and every store operation as a function |
| `SQLite` | the store as a class over mutable maps, each method proved equal to its function |
| `StoreLaws` | what each store operation does, column by column, without the functions above |
| `StoreRuns`, `Finality`, `LeaseExpiry`, `History` | what the store keeps over any sequence of operations |
| `DnsUpdate`, `Observer` | the update message by the rules of RFC 2136, and the public observation |
| `Publication`, `OriginTruth`, `ObservedTruth`, `Convergence` | store, publisher and zone as one machine, and its theorems |
| `Publisher`, `PublisherRuns` | one pass as the code runs it, proved to be a run of that machine, and what many passes come to |
| `Controller`, `ControllerLaws` | the handlers, and what they answer by the fields of request and row alone |
| `Agent`, `AgentLaws`, `SelfStabilising` | the agent, how one update ends on each reply, and from which stores and files it succeeds |
| `AgentRuns`, `AgentTruth` | agent, network and store as one machine with crashes, and its theorems |
| `AgentSteps` | one update as the code runs it, with others at work between its steps, proved to be a run of that machine |
| `WholeSystem`, `StaleReplays`, `EndToEnd` | both machines over one pair of tables, and when an update ends with the agent's addresses at the origin |

Two step machines carry the main results. `Publication.Play` runs controller
operations and expiry sweeps at arbitrary clock values between any two steps of a publisher that
may crash anywhere; an update to the origin is acknowledged, applied with its
reply lost, or not applied. `AgentRuns.Play` runs one device's agent over a network
that loses, delays and repeats its requests and replies, over a disk and a database
that may fail, with arbitrary operations on other devices in between, also between
the store calls of its own status request. `WholeSystem.Play` runs both together. `hist` in both machines is history only: the
address set of every generation, `hist[d][0]` being empty.

The code's own loops are tied to these machines: `Publisher.Service.RunOnce` and
`Agent.DeviceAgent.UpdateOnce` let others act between any two of their steps, and
each is proved to be a run. The agent's clock and the controller's are two clocks throughout.

Methods are proved against functions, and the functions against statements that use neither:
the `...Laws` modules and `Observer.Confirms` speak of columns, headers, statuses, record
counts and file states only.

## Where a stronger claim fails

Each of these is stated as an exact condition, with the code kept as it is.

- The update section assigns the address set unless a CNAME sits at the name: then
  every addition is ignored (`DnsUpdate.UpdateRefinesAssignment`).
- A 412 is final exactly when the generation it names had been reached; a
  request sent too early can still win, after nothing more than writes the
  controller itself would send (`Finality.RejectionIsFinalOnceReached`).
- `docs/architecture.md:51` says delayed requests cannot overwrite newer desired
  state. They can: an unchanged renewal of a live lease keeps the generation, and a
  delayed request with the same If-Match wins after it unless the renewed lease is
  over by then (`StoreRuns.RenewalDoesNotFence`, with the input in
  `StoreRuns.DelayedWriteWins`).
- A replay returns the original renew-after value exactly when that value was
  positive or the repeated request carries it (`StoreRuns.LaterDelivery`).
- Sweeping before or after a write gives the same tables unless the store is asked
  for a lease that is already over (`LeaseExpiry.UpsertCommutesWithExpiry`). The
  controller never asks for one (`dns/internal/controller/controller.go:52`), so every
  PUT commutes with the sweep (`Controller.PutCommutesWithExpiry`). The device's row
  is the same unless a request against a lapsed row is a replay or conflict, has an
  invalid precondition, or comes under another hostname
  (`LeaseExpiry.LazyExpiryIsEager`).
- One update succeeds from every store and pending file except two kinds of file,
  neither of which a run of the agent can leave behind, provided it is in time: the
  agent's clock has not reached the end of a lease granted now, or of the one in the reply
  kept for its file (`SelfStabilising.UpdateSucceedsUnlessPoisoned`,
  `AgentTruth.UpdateRecovers`).
- A successful update is not always served. A repeated request can be answered from the
  idempotency table after an older request of the same agent has replaced the row.
  Once the publisher has worked off its backlog the origin shows the agent's addresses
  exactly if the update was no such stale replay and the lease has lasted
  (`EndToEnd.UpdateIsServed`), and every device can run into one
  (`EndToEnd.StaleReplayIsReachable`).
- With n rows waiting and no lease running out on the way, ceil(n/b) passes are always
  needed, and enough if every listed write succeeds. Rows that lapse join the queue; then
  it is empty exactly when from no pass on more has to be written than the batches still
  to come hold (`Convergence.BacklogIsCovered`). In general it is empty exactly when the
  writes that succeeded number what there was and what joined
  (`Convergence.OriginBacklogEmpties`), which a failure on the way need not prevent
  (`Convergence.OneFailureInTwoPasses`); but while no write of the first batch
  succeeds nothing behind it is ever reached (`Convergence.FailingBatchStarvesTheRest`).
  Public observation is the same queue behind the first (`Convergence.AllObserved`), and
  starves the same way (`Convergence.DisagreeingBatchStarvesTheRest`).

## Model

| member | source | states |
|---|---|---|
| `Addresses.CanonicalAddresses` | dns/internal/model/model.go:47-60 | the loop and sort return the one sorted, duplicate-free list of the unmapped members |
| `Addresses.CanonicalIdempotent` | dns/internal/model/model.go:45-60 | canonicalising twice changes nothing |
| `Addresses.CanonicalDecidesSetEquality` | dns/internal/model/model.go:45-60 | two lists have equal canonical forms if and only if their unmapped sets are equal |
| `Addresses.UnmapMeans` | dns/internal/model/model.go:47-60 | an IPv4 address stands for itself and for exactly one mapped IPv6 address, ::ffff:0:0 plus it; nothing else is changed |
| `Addresses.CanonicalAscends` | dns/internal/model/model.go:54-59 | the canonical list has the IPv4 addresses first, each family in strictly ascending numeric order |
| `Addresses.AddressesEqual` | dns/internal/model/model.go:62-74 | true if and only if the unmapped sets are equal |
| `ETag.ETagRoundTrip` | dns/internal/api/precondition.go:15-37 | the parser yields g if and only if g is a positive int64 and the text is exactly the printed ETag of g |
| `ETag.FormatIntInjective` | dns/internal/store/store.go:41 | decimal printing of any two integers is injective |
| `ETag.DecimalDigits` | dns/internal/store/store.go:41 | every printed digit is the number's digit at that power of ten |
| `Wire.AddressesFromNetIP` | dns/internal/api/types.go:34-44 | the wire list is the canonical set, each member under its family |
| `Wire.ValidateAddresses` | dns/internal/controller/controller.go:184-215 | accepts exactly the non-empty documents of at most 32 clean items, returns their canonical set, and otherwise reports the first problem |
| `Wire.AcceptableExactly` | dns/internal/controller/controller.go:184-215 | accepted are exactly 1 to 32 distinct addresses, each admitted and under the name of its own family, none of them IPv4-mapped |
| `Wire.ProblemIsTrue` | dns/internal/controller/controller.go:193-211 | the reason reported for an item is true of it and those checked before it are not |
| `Wire.AgentDocumentAccepted` | dns/internal/controller/controller.go:184-215 | the agent's own document is accepted if and only if its canonical set has 1 to 32 members, all admitted by the routability policy |
| `Wire.WireRoundTrip` | dns/internal/api/types.go:34-44 | the agent's document reads back as the agent's canonical list |
| `DesiredState.PreconditionKeyInjective` | dns/internal/store/store.go:33-42 | the stored precondition text tells all valid preconditions apart |
| `SQLiteStore.SQLite.UpsertIntent` | dns/internal/store/sqlite.go:260-387 | the transaction's outcome and both tables are those of `DesiredState.UpsertUnder`: replay, conflict, lazy expiry, compare-and-set, bump, response row; when a database step it reaches fails, a storage error with both tables untouched; and when the commit takes effect and is still reported as failed, the new tables with a storage error |
| `SQLiteStore.SQLite.ExpireLeases` | dns/internal/store/sqlite.go:431-470 | every lapsed row and no other becomes an empty next generation, those rows returned in device order; a failed sweep changes nothing |
| `SQLiteStore.SQLite.List` | dns/internal/store/sqlite.go:472-493 | exactly the first `limit` pending rows in device order, 100 when no limit is given |
| `SQLiteStore.SQLite.MarkOriginApplied` | dns/internal/store/sqlite.go:510-512 | marks only a row still at that generation, clears its error, changes nothing else |
| `SQLiteStore.SQLite.MarkPubliclyObserved` | dns/internal/store/sqlite.go:514-516 | marks only a row still at that generation and already applied there |
| `SQLiteStore.SQLite.MarkPublicationError` | dns/internal/store/sqlite.go:518-520 | records the message only on a row still at that generation |
| `StoreLaws.Verdicts` | dns/internal/store/sqlite.go:271-355 | each outcome, in the source's order, by the key's stored use, the condition asked for, the generation met and the hostnames in use |
| `StoreLaws.RefusalsKeep` | dns/internal/store/sqlite.go:327-342 | a refusal or replay leaves both tables as they were, except that a failed condition empties the row of a lease that is over |
| `StoreLaws.AcceptedRow` | dns/internal/store/sqlite.go:347-373 | every column of the row an accepted write leaves; a renewal in time keeps generation and error, and no write touches what has been applied or observed |
| `StoreLaws.AcceptedResponse` | dns/internal/store/sqlite.go:374-386 | exactly one response is added, bound to set and condition, a copy of that row |
| `StoreLaws.ReplayReturns` | dns/internal/store/sqlite.go:272-299 | a replay returns the stored row, with the request's renew-after only when none is stored |
| `StoreLaws.FaultsStrike` | dns/internal/store/sqlite.go:265-386 | a database call that fails makes the transaction fail without effect exactly if the transaction gets to it, by the list of its calls in order |
| `StoreLaws.SweepEmpties` | dns/internal/store/sqlite.go:431-470 | a sweep empties exactly the rows with addresses whose lease end is not after now, one generation on, and leaves what was published of them |
| `StoreLaws.SweepReturns` | dns/internal/store/sqlite.go:437-470 | it returns exactly those rows as they are now, each once, in device order |
| `StoreLaws.MarksAreGuarded` | dns/internal/store/sqlite.go:503-520 | a mark changes its one column of one row, only at the marked generation, and observation only of an applied one |
| `StoreLaws.ListingHolds` | dns/internal/store/sqlite.go:472-501 | a listing holds current waiting rows in device order, and leaves one out only when it is full and every listed one comes before |
| `StoreRuns.WriteKeeps` | dns/internal/store/sqlite.go:260-387 | any upsert keeps the table invariant; rows, responses and counters only advance |
| `StoreRuns.RunKeeps` | dns/internal/store/sqlite.go:431-520 | in every run 0 <= public_observed <= origin_applied <= generation for any mark arguments, hostnames stay unique, stored responses never change, and status falls only when the generation moves |
| `StoreRuns.StrongValidator` | dns/internal/api/precondition.go:12-17 | between any two points of a run generations never fall and equal generations name equal address sets |
| `StoreRuns.UniqueWinner` | dns/internal/store/sqlite.go:327-373 | over any run and any clock values at most one write carrying If-Match g moves a device past g |
| `StoreRuns.UniqueCreation` | dns/internal/store/sqlite.go:328-331 | over any run at most one If-None-Match write is accepted for a device, none once it has a row |
| `StoreRuns.ExactlyOnce` | dns/internal/store/sqlite.go:271-299 | however often requests are delivered, each (device, key) is accepted as a write at most once |
| `StoreRuns.LaterDelivery` | dns/internal/store/sqlite.go:271-299 | after acceptance any later delivery leaves both tables alone and returns the original result for the same body and precondition, a conflict otherwise; when the renew-after value survives |
| `StoreRuns.RejectionIsFinal` | dns/internal/store/sqlite.go:327-342 | after a 412 against a reached generation no later state of any run accepts that key and precondition |
| `StoreRuns.RenewalDoesNotFence` | dns/internal/store/sqlite.go:327-366 | after an accepted If-Match write, a delayed one with the same If-Match wins if and only if the first found a live lease with the same set and its own lease is not over when the delayed one arrives |
| `StoreRuns.DelayedWriteWins` | dns/internal/store/sqlite.go:358-366 | the concrete tables, renewal and older write for another address where the older write replaces the renewed set |
| `Finality.RejectionIsFinalOnceReached` | dns/internal/store/sqlite.go:327-342 | a 412 is final over all runs, and already over runs of non-empty writes with lasting leases, if and only if the generation had been reached |
| `Finality.Reachable` | dns/internal/store/sqlite.go:347-373 | from any undelivered request ahead of its device, writes with non-empty sets and positive leases over any two different addresses lead to a state that accepts it |
| `LeaseExpiry.SameVerdict` | dns/internal/store/sqlite.go:315-342 | sweeping first changes neither verdict nor response of any request |
| `LeaseExpiry.UpsertCommutesWithExpiry` | dns/internal/store/sqlite.go:431-470 | sweep then write equals write then sweep if and only if the request is not one whose guards all hold and that asks for addresses under a lease already over |
| `LeaseExpiry.LazyExpiryIsEager` | dns/internal/store/sqlite.go:315-373 | lazy and eager expiry end in the same device row if and only if the row was live or the key is new, the precondition valid, and the precondition fails or the hostname matches |
| `LeaseExpiry.GenerationBumps` | dns/internal/store/sqlite.go:358-366 | a committed write adds 2 after a lapse, 0 exactly when the lease was live and the set unchanged, 1 otherwise |
| `History.ControlOpMoves` | dns/internal/store/sqlite.go:315-373 | controller operations leave origin_applied and public_observed alone, clear the error exactly with the generation, and create rows at generation 1 with neither |
| `DnsUpdate.Primary.UpdateSection` | dns/internal/dnswriter/dnswriter.go:50-65 | the loop builds two RRset deletions and one addition per unmapped address |
| `DnsUpdate.Primary.ReplaceAddressRRsets` | dns/internal/dnswriter/dnswriter.go:36-89 | success only inside the zone, with credentials and acknowledged; a lost reply has still changed the zone |
| `DnsUpdate.ReplacementAssigns` | dns/internal/dnswriter/dnswriter.go:50-65 | applied by section 3.4.2 of RFC 2136 to any zone without an alias at the name, the A and AAAA records there are exactly the given set and every other record is untouched |
| `DnsUpdate.UpdateRefinesAssignment` | dns/internal/dnswriter/dnswriter.go:50-65 | the update is that assignment if and only if there is nothing to add or no alias |
| `DnsUpdate.ReplacementIdempotent` | dns/internal/dnswriter/dnswriter.go:50-65 | applying the update twice equals applying it once, for any zone |
| `DnsUpdate.AssignedIsUnique` | dns/internal/dnswriter/dnswriter.go:50-65 | the assignment determines the resulting zone |
| `Observer.SortedTextsCompareMultisets` | dns/internal/dnswriter/dnswriter.go:161-184 | sorting and comparing texts decides equality of the address multisets |
| `Observer.ComparisonDecidesAgreement` | dns/internal/dnswriter/dnswriter.go:96-111 | the query's sorted text equals the expected text, with authority, if and only if both answers are authoritative for this name alone and together hold exactly the expected multiset |
| `Observer.Query` | dns/internal/dnswriter/dnswriter.go:113-163 | fails exactly on an unusable reply; otherwise returns the sorted texts of all answers for the name and whether all were authoritative |
| `Observer.EqualStrings` | dns/internal/dnswriter/dnswriter.go:174-184 | true if and only if the lists are equal |
| `Observer.AskServer` | dns/internal/dnswriter/dnswriter.go:101-109 | one server's outcome: an error exactly on an unusable reply, true if and only if its answers agree |
| `Observer.AgreementConfirms` | dns/internal/dnswriter/dnswriter.go:139-163 | agreement, from the replies' own fields: both responses have a usable rcode and the authoritative flag and answer for this name only, and every address is there exactly as often as expected, IPv4 in A and IPv6 in AAAA records |
| `Observer.ObserveAddressRRsets` | dns/internal/dnswriter/dnswriter.go:96-111 | true if and only if there are servers and each of them confirms in that sense; otherwise the outcome of the first that does not |
| `OriginTruth.NextKeeps` | dns/internal/publisher/publisher.go:77-110 | every step of store, publisher and zone keeps the joint invariant and moves generations and the origin only forward |
| `OriginTruth.OriginServesAGeneration` | dns/internal/publisher/publisher.go:77-91 | in every reachable world the origin shows, at a device's hostname, one of its generations between origin_applied and the current one |
| `OriginTruth.AppliedMeansServed` | dns/internal/publisher/publisher.go:77-91 | whenever origin_applied equals the generation the origin shows exactly the row's addresses |
| `OriginTruth.OriginNeverReverts` | dns/internal/publisher/publisher.go:77-91 | over a whole run the generations shown form one ascending sequence, each within its row's bounds and naming its historical addresses |
| `OriginTruth.ErrorMeansPending` | dns/internal/publisher/publisher.go:81-91 | a recorded publication error belongs to a row still waiting for the origin |
| `OriginTruth.HistoryIsTrue` | dns/internal/store/sqlite.go:347-373 | the recorded history is what rows really held at every earlier point |
| `OriginTruth.MarksMatchTheListing` | dns/internal/publisher/publisher.go:82-109 | a publisher step changes a row only by a recorded mark, only the row it listed and only while that is at the listed generation; and how |
| `OriginTruth.SendsTouchOneName` | dns/internal/dnswriter/dnswriter.go:36-89 | the zone changes only by an update that gets there, only at that row's hostname, to exactly the listed addresses unless an alias is there |
| `ObservedTruth.PublicObservationIsTrue` | dns/internal/publisher/publisher.go:93-109 | when a generation is marked publicly observed, its row was listed earlier, from that listing through the mark it kept generation and addresses and the origin showed them, and every public server gave one agreeing answer inside that window |
| `ObservedTruth.WindowOpens` | dns/internal/publisher/publisher.go:94-98 | a queued row was listed at one point and has been queued ever since |
| `ObservedTruth.ServerAnswered` | dns/internal/publisher/publisher.go:98-104 | each counted server agreed at one step of the current pass |
| `ObservedTruth.ObservedWasConfirmed` | dns/internal/store/sqlite.go:514-516 | in every run a row is publicly observed at a generation only because a confirmation of that device at that generation was recorded, with the window above: no write, sweep or other step makes it so |
| `ObservedTruth.ReportedStatusIsTrue` | dns/internal/model/model.go:34-43 | in every run a row reported as applied or observed is what the origin shows, and it is reported as observed if and only if its generation was confirmed |
| `Convergence.SweepRequeues` | dns/internal/publisher/publisher.go:74-77 | a sweep puts exactly the lapsed rows into the origin backlog and takes them out of the observation backlog |
| `Convergence.OriginHalfDrains` | dns/internal/publisher/publisher.go:77-91 | with any outcome per row, exactly the listed devices whose write is acknowledged and recorded leave the origin backlog, and exactly those join the observation backlog |
| `Convergence.ObservationHalfDrains` | dns/internal/publisher/publisher.go:93-109 | with any replies per row, exactly the listed devices on which every server agrees and whose mark is recorded leave the observation backlog |
| `Convergence.PassDrains` | dns/internal/publisher/publisher.go:77-110 | a pass that does both moves exactly those devices, and ends idle |
| `Convergence.StillWaiting` | dns/internal/publisher/publisher.go:77-91 | after any number of passes a device waits for the origin if and only if it waited at first or lapsed in some pass and no pass from there on wrote it |
| `Convergence.BacklogAfter` | dns/internal/store/sqlite.go:472-497 | each backlog is what it was and what lapsed into it less what left it, and no pass takes more than a batch off either |
| `Convergence.OriginBacklogEmpties` | dns/internal/publisher/publisher.go:77-91 | the origin backlog is empty if and only if the writes that succeeded number what waited and what lapsed into it, which takes at least the batches that hold them, and then the origin shows every row |
| `Convergence.QuietConvergence` | dns/internal/publisher/publisher.go:77-91 | if every listed write succeeds, the backlog is a queue served in full batches |
| `Convergence.LeftExactly` | dns/internal/store/sqlite.go:472-475 | at most m rows of such a queue are left if and only if from every pass on what has to leave exceeds the batches still to come by at most m |
| `Convergence.BacklogIsCovered` | dns/internal/publisher/publisher.go:77-91 | so it is empty if and only if from no pass on more has to be written than the batches still to come hold |
| `Convergence.CoveredAlone` | dns/internal/publisher/publisher.go:77-91 | with nothing lapsing on the way that is as many batches as hold the n rows, ceil(n / b) |
| `Convergence.AllObserved` | dns/internal/publisher/publisher.go:93-109 | every row is publicly observed if and only if the rows seen agreed on number what both backlogs held and what lapsed out of neither, which takes at least the batches that hold them |
| `Convergence.QuietObservation` | dns/internal/publisher/publisher.go:93-109 | if every listed write and every listed observation succeeds, the two backlogs together are a queue served in full batches |
| `Convergence.FailingBatchStarvesTheRest` | dns/internal/publisher/publisher.go:81-87 | while no write of the first batch succeeds and nothing new lapses, every pass lists that batch again and the backlog stays |
| `Convergence.DisagreeingBatchStarvesTheRest` | dns/internal/publisher/publisher.go:98-104 | with nothing left to write and nothing lapsing, a first batch on which the servers never agree is listed in every pass and the observation backlog stays |
| `Convergence.OneFailureInTwoPasses` | dns/internal/publisher/publisher.go:81-87 | the concrete world with three waiting rows whose backlog, in batches of two, is empty after two passes although one write failed |
| `PublisherRuns.RunDrains` | dns/internal/publisher/publisher.go:61-113 | one undisturbed `RunOnce` ends idle, puts exactly the lapsed rows into the origin backlog, takes exactly the rows written and recorded off the origin backlog, and exactly those then agreed on by every server off the observation backlog |
| `PublisherRuns.RunOnceConverges` | dns/internal/publisher/publisher.go:61-113 | the count, with what lapses on the way, the exact condition for an empty backlog and the lower bound, for any number of such runs with any outcomes |
| `PublisherRuns.RunOnceObserves` | dns/internal/publisher/publisher.go:61-113 | every row is publicly observed after such runs if and only if the rows seen agreed on number what both backlogs held and what lapsed out of neither |
| `PublisherRuns.WorkingRunsConverge` | dns/internal/publisher/publisher.go:61-113 | when every write is acknowledged and recorded, the runs empty the backlog if and only if their batches cover it and what lapses on the way |
| `PublisherRuns.AgreeingRunsObserveAll` | dns/internal/publisher/publisher.go:61-113 | when moreover all servers agree on every listed row, the runs observe every row if and only if their batches cover both backlogs and what lapses on the way |
| `PublisherRuns.RunSweeps` | dns/internal/publisher/publisher.go:74-76 | after an undisturbed `RunOnce` whose sweep works no row has addresses under a lease that was over: exactly those rows are empty, one generation on |
| `PublisherRuns.RunsAge` | dns/internal/publisher/publisher.go:61-113 | over any number of such runs a row keeps its hostname, lease, addresses and generation, except that it is emptied once if its lease is over at one of their sweeps |
| `PublisherRuns.ExpiredIsWithdrawn` | dns/internal/publisher/publisher.go:61-113 | after working runs that cover the backlog the origin shows at every hostname what its row held, and nothing where the lease was over at a sweep |
| `PublisherRuns.RunMarks` | dns/internal/publisher/publisher.go:77-110 | what one `RunOnce` records in each row: applied without error, or the error text, by that row's own exchange; observed when it is listed after the writes and every server agrees; all other rows' columns untouched |
| `PublisherRuns.ReportsExactly` | dns/internal/publisher/publisher.go:74-112 | a failure is reported if and only if a step was the one it names |
| `Publisher.Service.RunOnce` | dns/internal/publisher/publisher.go:61-113 | a pass is exactly the machine run `PassTrace`: sweep, list, write and mark every listed row in order, list again, ask and mark, with controller operations in between, also between two servers; it ends idle and reports exactly that run's failures |
| `Publisher.Service.PublishRow` | dns/internal/publisher/publisher.go:81-91 | one row: write, then mark applied or record the error, with controller operations in between |
| `Publisher.Service.ObserveRow` | dns/internal/publisher/publisher.go:98-109 | one row: ask the servers in turn, with controller operations before each of them, mark only if all agree |
| `Controller.Handler.PutEndpoints` | dns/internal/controller/controller.go:87-148 | status, ETag, body and tables are those of `Controller.PutUnder`, checks in the source's order, storage failures included |
| `Controller.Handler.GetStatus` | dns/internal/controller/controller.go:217-246 | 404 without a row; otherwise the row after a sweep that runs only if this row had lapsed, whatever others do between its three store calls; 500 when one it reaches fails |
| `ControllerLaws.PreconditionExactly` | dns/internal/controller/controller.go:150-170 | a precondition is read if and only if exactly one conditional header is there exactly once, holding but for space an asterisk or the printed ETag of a positive int64; 428 for none or both, 400 for everything else |
| `ControllerLaws.PutRefuses` | dns/internal/controller/controller.go:87-123 | without a readable key, an acceptable document and such a header a PUT is refused with 400, or 428 for none or both headers, and the tables stay |
| `ControllerLaws.PutAnswers` | dns/internal/controller/controller.go:124-148 | every other PUT leaves the store's tables; 202 with the returned row's ETag, identity, set, status and lease, or 409, 412, 428, 500 by the store's error |
| `ControllerLaws.OnlyConditionalPutsWrite` | dns/internal/controller/controller.go:118-148 | no PUT is answered 202 or changes the tables without exactly one conditional header |
| `ControllerLaws.StatusAnswers` | dns/internal/controller/controller.go:217-246 | each status reply by the row's fields: 404, the row as it is, the row emptied one generation on after a sweep, or 500 for a failed store call |
| `Controller.PutCommutesWithExpiry` | dns/internal/controller/controller.go:124-129 | for every PUT, whatever its headers and body, sweeping first or afterwards gives the same reply and tables |
| `Controller.HeadersReadBack` | dns/internal/controller/controller.go:150-170 | the headers the agent sends are read back as the precondition it means |
| `Controller.StatusSettles` | dns/internal/controller/controller.go:217-246 | after a status read the row is live, at most one generation on, and the ETag is its generation's |
| `Controller.StatusAdmitsWrite` | dns/internal/controller/controller.go:87-148 | the condition a status reply gives holds at that moment: a fresh-key write under it is accepted with a lease from now, and leaves the row at the reported generation with exactly the set sent |
| `Agent.DeviceAgent.FetchPrecondition` | dns/internal/agent/agent.go:315-355 | the condition or error drawn from the status exchange: not sent, answered, or its answer lost after the effect; a body and ETag that differ |
| `Agent.DeviceAgent.LoadOrCreatePending` | dns/internal/agent/agent.go:287-313 | reuses the file only for the same payload with a valid condition; otherwise saves a fresh key with a fetched condition before anything is sent; a file that cannot be read or written ends it |
| `Agent.DeviceAgent.UpdateOnce` | dns/internal/agent/agent.go:113-195 | result, file, tables and number of PUTs are those of `Agent.UpdateUnder` in any weather: lost requests and replies, storage failures, a file that will not clear; others at work before the GET, inside it, before the PUT and before the reply; one refresh after a 412 or an expired replay |
| `AgentLaws.FetchReads` | dns/internal/agent/agent.go:315-355 | a 404 asks for creation, a 200 whose ETag prints its generation for that ETag, and everything else ends the update with its error |
| `AgentLaws.LoadsOrCreates` | dns/internal/agent/agent.go:287-313 | which files are reused, by their fields; otherwise key and condition are on file before the submission is handed out, and any failure leaves the old file |
| `AgentLaws.FileOutlives` | dns/internal/agent/agent.go:150-194 | the file survives an attempt unless a reply comes that is 409, 412 or 202 with its own ETag and the file can be removed; and the result of each reply |
| `AgentLaws.RepeatsOnce` | dns/internal/agent/agent.go:163-191 | a second attempt, with a new key, follows exactly a cleared 412 or an acknowledgement whose lease is over |
| `AgentLaws.NothingToSend` | dns/internal/agent/agent.go:117-140 | without addresses or a submission nothing is sent, the old file stays and the error is that of the step that failed |
| `AgentLaws.UnseenIsRecovered` | dns/internal/agent/agent.go:158-172 | when a write takes effect and its reply is lost or its commit reported as failed, the update fails and keeps its file, and the next one, over whatever the store has done since, returns the row written then and writes nothing |
| `SelfStabilising.FreshAttempt` | dns/internal/agent/agent.go:117-195 | without a reusable file one GET and one PUT leave the row with exactly the agent's set; they succeed and clear the file if and only if the agent's clock is before the end of the new lease |
| `SelfStabilising.KeptAttempt` | dns/internal/agent/agent.go:158-194 | one PUT of a kept file ends with a live lease, with a refresh that can succeed, or with 409 exactly when the key is bound to something else |
| `SelfStabilising.UpdateSucceedsUnlessPoisoned` | dns/internal/agent/agent.go:117-195 | for a sole writer, whatever the agent's and the controller's clock, one update takes at most two PUTs and succeeds, with a lease after the agent's now, from exactly the store and file pairs that are not poisoned and in time |
| `SelfStabilising.UpdateWrites` | dns/internal/agent/agent.go:117-195 | a successful update leaves the row with exactly the agent's set at the reported generation, unless a live reply already kept for the file's key answers it: then it leaves both tables alone |
| `SelfStabilising.ConflictIsTransient` | dns/internal/agent/agent.go:160-162 | a 409 clears the file and the next update succeeds |
| `AgentTruth.NextKeeps` | dns/internal/agent/agent.go:117-195 | every step of agent, network and store, crashes included, keeps the joint invariant |
| `AgentTruth.AcknowledgementIsDurable` | dns/internal/agent/agent.go:173-194 | whenever the agent has returned a state, that state is the response stored under the key it sent, renew-after included, and its generation names exactly the agent's canonical addresses |
| `AgentTruth.HonestAgentNeverConflicts` | dns/internal/agent/agent.go:287-313 | over all crashes, losses, repetitions and address changes no request of the agent is answered 409 |
| `AgentTruth.KeysStayBound` | dns/internal/agent/agent.go:287-313 | every stored response answers one request the agent sent, and all requests under that key carry that payload and precondition |
| `AgentTruth.RefusedKeyNeverTakesEffect` | dns/internal/agent/agent.go:163-170 | a key answered 412 is stored in no continuation of the run, so dropping it loses nothing |
| `AgentTruth.UpdateRecovers` | dns/internal/agent/agent.go:117-195 | from every reachable store and pending file one update over reliable exchanges takes at most two PUTs and succeeds if and only if it is in time: always, if the agent's clock is not ahead by the lease or more |
| `AgentSteps.UpdateIsARun` | dns/internal/agent/agent.go:113-195 | the code's update, in any weather and with others at work between its steps (any operation on other devices, any earlier request of its own delivered again), is a run of the machine: same tables, file, outcome and number of PUTs, through allowed events only |
| `AgentSteps.UpdateReportsTheStore` | dns/internal/agent/agent.go:173-194 | so after any run and in any weather the code's update is never answered 409, and a state it returns is, in the run it ends, the response stored under some key for exactly its addresses, its generation naming exactly them |
| `WholeSystem.NextKeeps` | dns/internal/publisher/publisher.go:77-110 | agent, controller, store, publisher and origin over one pair of tables keep both invariants and the device's hostname |
| `WholeSystem.AcknowledgedIsServed` | dns/internal/publisher/publisher.go:77-91 | whenever the agent's acknowledged generation is current and no longer waits for the origin, the origin shows at the device's own hostname exactly the addresses submitted |
| `StaleReplays.Overtaken` | dns/internal/store/sqlite.go:327-373 | after a renewal of a live row an older request under the same If-Match still replaces the set, while the renewal's key keeps its reply |
| `StaleReplays.StaleReplayHappens` | dns/internal/agent/agent.go:287-313 | from any store without the device, allowed steps of one agent lead to a file whose key has a live reply for addresses the row no longer holds |
| `EndToEnd.UpdateIsServed` | dns/internal/publisher/publisher.go:61-113 | from every reachable system one calm update in time is acknowledged, and after any working runs whose batches cover the backlog the origin shows exactly the agent's addresses at its hostname if and only if the lease lasts through their sweeps and the update was not a stale replay; the file is gone, so the next update is none |
| `EndToEnd.StaleReplayIsReachable` | dns/internal/agent/agent.go:287-313 | a run of the whole system to such a stale replay, for any two accepted address sets |

## Left out

- SQLite itself: engine, locking, busy retry, SQL text and schema migration. Each store method is one atomic step on two maps; of migration only the rule that a blank stored precondition matches any is kept.
- Storage failures are the failing steps of `UpsertIntent`, `ExpireLeases` and `GetIntent`. Only the commit of `UpsertIntent` may take effect and still report failure; the publisher's lists and marks and the sweep fail as a whole without effect.
- SQLiteStore.SQLite.UpsertIntent: the two database errors for hostnames are told apart by name and shown as the same 500.
- The payload digest stands for the canonical list itself: that JSON text and SHA-256 are injective is taken, not proved.
- Identity: TLS, certificates, SPIFFE, fleet authorization. The device id and hostname are inputs, with a fixed hostname per device.
- HTTP and JSON mechanics, body limits, DNS wire encoding, TSIG verification, UDP to TCP fallback, timeouts: only their outcomes (delivered, lost, repeated, refused, applied with the reply lost).
- Late effects: an update that takes effect after its call has returned, and two publishers at once.
- Zone rules at the apex (SOA, NS) and the serial number; the update section never touches them.
- Addresses: zones of IPv6 addresses and the invalid address. Printing and parsing of address text are taken as inverse and the routability table is a parameter.
- Text: hostname lower-casing and the trailing dot (names are canonical label sequences); `TrimSpace` knows the Latin-1 spaces, header values having no others.
- Integer width: generations and times are unbounded except in the ETag round trip; `Placed` keeps generations inside int64 where an ETag must be read back. The zero time is not set apart.
- Address discovery, random keys, jitter, backoff and the `Run` loops. New keys are assumed unused and readable.
- AgentTruth.UpdateRecovers: the one update it speaks of has reliable exchanges and nobody else acting; the run before it is arbitrary. In `AgentRuns` the agent is the only writer for its own device.
- PublisherRuns.RunOnceConverges: no controller operation falls into these runs. The same holds for the runs in `EndToEnd.UpdateIsServed`.
- Convergence.FailingBatchStarvesTheRest: nothing new lapses meanwhile; a lapsed row that sorts first is listed first. The same holds for `Convergence.DisagreeingBatchStarvesTheRest`.
- Finality.Reachable: its keys are new but not held to the 128 characters a handler accepts, since a store may already hold every such key.
- `errors.Join` texts and the wording of API error messages.
- Command lines, environment parsing, the test clock, Nix modules, site and reports.
