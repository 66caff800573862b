# StarCraft concurrency challenge — verified model of the unit, registry and resource cores

This project models three sequential cores of a Go teaching repository about
concurrency. The repository's games are themed on StarCraft.

- **The unit** (`Types`, types.dfy). `UnitType` and `UnitState` are int-backed
  enums with `String` and `IsValid`. `Unit` is a mutable object with health,
  damage, armor, state, position, target and a bounded command inbox of 10.
  It also has a lifecycle flag that `Shutdown` sets. The unit's run loop is
  modelled one step at a time: `ProcessNext` takes the oldest command and
  `Handle` dispatches it to the Move, Attack, Stop or Hold rule.
- **The unit registry** (`Units`, units.dfy). `UnitManager` keeps a map from
  ID to unit with add, remove, get, snapshot and by-type queries.
  `findTargetUnits` is a three-stage pipeline: IDs, then a predicate, then a
  `MaxTargets` prefix. `processCommand` hands one queued command to its
  unit's inbox. Broadcasts go onto a bounded queue of 100. The dispatcher
  fans each broadcast out into one queued command per target, onto a work
  queue of 500 that drops commands when full. When no IDs are given,
  targeting follows Go's map iteration order, which is unspecified, so the
  contract says the result is the pipeline applied to *some* ordering of the
  registry's keys.
- **The resource ledger** (`Resources`, resources.dfy). Named counters carry
  `current`, `maximum` and `reserved`. Transactions are maps of signed
  deltas: positive adds and negative consumes. A transaction either applies
  every delta or changes nothing. A Reserve holds capacity under the
  transaction's ID until it is released, consumed, or swept after expiry.
  Every executed transaction appends one record, with the remaining levels,
  to the allocation log. Time is an integer `now` passed by the caller. The
  class invariant states:
  - `0 <= reserved <= current <= maximum`;
  - each entry's `reserved` equals the sum held for it by the open
    reservations (`HeldBy`).

`Wrappers` holds an `Option` type. `Decimal` renders Go's `%d` and proves
that rendering injective, which the `"UnitState(n)"` fallback needs.

Most Go bodies in these files are stubs with commented-out templates. The
model follows the templates, the doc comments and the unit tests, as listed
below. Where they leave a choice open, the choice is given under "Left out".
Where they say different things, the model follows one of them as follows:
- `AddResource` requires positive amounts, as its doc comment at
  internal/resources/manager.go:155 says. It also requires an initial
  amount no larger than the maximum, because an entry's current amount never
  exceeds its maximum.
- A transaction's deltas are signed, as the field comment at
  internal/resources/manager.go:51 says. The resource example allocates
  positive amounts in order to spend them, which contradicts that comment.
- The stats template at internal/types/types.go:526-544 leaves most values
  open. Only the stats the unit tests pin are filled in: Marine 40/6/0,
  Zergling 35/5/0, Zealot 100/16/1 and Battlecruiser armor 3. Every other
  value is the template's default: 50 health, 5 damage, 0 armor.

Five methods are worked examples rather than models of one operation. They
restate unit tests against the model, and each claim in them is an `assert`
the verifier checks:
- `Types.HandlerScenarios` restates the handler tests for Move, Attack,
  Stop and Hold (internal/types/types_test.go:473-569).
- `Types.NilAttackScenario` restates the nil-target Attack test
  (internal/types/types_test.go:513-527).
- `Types.InboxScenario` restates the inbox tests: backpressure once full,
  and refusal after shutdown (internal/types/types_test.go:731-769).
- `Types.RunLoopScenario` runs three queued commands through `ProcessNext`:
  two attacks on one Zergling, then a move.
- `Units.RegistryScenario` walks the registry through add, duplicate,
  lookup, snapshot and remove.

## Model

| member | source | states |
|---|---|---|
| Decimal.Format | internal/types/types.go:172 | the `%d` rendering is non-empty and starts with `-` exactly for negative numbers |
| Decimal.ParseFormat | internal/types/types.go:172 | parsing the `%d` rendering of any integer gives it back |
| Decimal.FormatInjective | internal/types/types.go:172 | different integers render differently |
| Types.EnumStringNamed | internal/types/types.go:167-173 | for a name table without `(`, a value is in range exactly when its rendering is one of the table's names |
| Types.EnumStringInjective | internal/types/types.go:269-274 | with distinct names, different values render differently, whether named or not |
| Types.UnitTypeNamesWellFormed | internal/types/types.go:116-153 | the name table has one entry per type below the sentinel; the entries are distinct and none contains `(` |
| Types.UnitTypeValidIffNamed | internal/types/types.go:201-203 | `IsValid` holds exactly when `String` returns a table name; valid types get their own name, and any other value gets `"UnitType(n)"` |
| Types.UnitTypeStringInjective | internal/types/types.go:167-173 | two unit types with the same `String` are equal |
| Types.UnitStateNamesWellFormed | internal/types/types.go:245-256 | the state name table has 9 distinct entries without `(` |
| Types.UnitStateValidIffNamed | internal/types/types.go:280-282 | `IsValid` holds exactly when `String` returns a table name; otherwise it gives `"UnitState(n)"` |
| Types.UnitStateStringInjective | internal/types/types.go:269-274 | two states with the same `String` are equal |
| Types.EnumExamples | internal/types/types_test.go:16-72 | the `String` and `IsValid` cases of the enum tests, including 999, -1 and the sentinels |
| Types.DeadIsTerminal | internal/types/types.go:236-238 | Dead can only transition to Dead, so Dead to Attacking is invalid |
| Types.BaseStats | internal/types/types.go:526-544 | stats are positive health with non-negative damage and armor; every type outside the table gets the default 50/5/0 |
| Types.DamageAfterArmor | internal/types/types_test.go:575-615 | damage is `max(0, damage - armor)`: never negative, and exactly the difference when that is positive |
| Types.DamageExamples | internal/types/types_test.go:575-615 | Marine on Zergling is 6, Marine on Zealot 5, Probe on Battlecruiser 2; 40 - 10 leaves 30 and 40 - 100 leaves 0 |
| Types.HealthAfter | internal/types/types_test.go:417-441 | one hit leaves `max(0, health - amount)`, which is never above the old health |
| Types.HealthAfterAllClamps | internal/types/types_test.go:443-467 | any sequence of hits leaves `max(0, health - total)`, which stays within [0, maxHealth]; a unit at 0 stays at 0 |
| Types.Admission | internal/types/types_test.go:731-769 | a send is accepted exactly when the unit is not shut down and fewer than 10 commands are queued; otherwise the answer is "shutting down" first, then "backpressure" |
| Types.Unit.constructor | internal/types/types_test.go:188-275 | a new unit has the given ID, type and position, stats from the table with full health, state Idle, no target and an empty open inbox |
| Types.Unit.SetState | internal/types/types_test.go:375-388 | the state becomes the given one and nothing else changes |
| Types.Unit.SetPosition | internal/types/types_test.go:389-400 | the position becomes the given one and nothing else changes |
| Types.Unit.SetTarget | internal/types/types_test.go:401-416 | the target becomes the given one and nothing else changes |
| Types.Unit.TakeDamage | internal/types/types_test.go:417-441 | health becomes `max(0, health - amount)` and is returned; the unit stays valid and nothing else changes |
| Types.Unit.CalculateDamageAgainst | internal/types/types_test.go:575-615 | the result is `max(0, own damage - target armor)`, computed by reading both units only |
| Types.Unit.SendCommand | internal/types/types_test.go:731-769 | the answer is `Admission` of the unit's state; the command is appended exactly when accepted, and nothing else changes |
| Types.Unit.Shutdown | internal/types/types_test.go:642-654 | the unit is shut down and nothing else changes, so repeated calls are harmless |
| Types.Unit.Die | internal/types/types.go:657-659 | the unit becomes Dead and is shut down |
| Types.Unit.Handle | internal/types/types_test.go:473-569 | applies the `Handled` rules. Move: Moving at the destination. Attack on a live target: Attacking, the target recorded, the target hurt by `DamageAfterArmor`. Attack on nil: nothing changes. Stop: Idle with no target. Hold: HoldingPosition. Only an Attack can change the target's health; Move, Stop and Hold leave it alone. A Dead unit ignores everything. No transition leaves Dead |
| Types.Unit.ProcessNext | internal/types/types.go:645-650 | a running unit with queued commands removes the oldest and applies `Handled` to it; otherwise nothing changes. Only the health of an Attack's target may change, and every queued command's target stays valid, so steps compose |
| Units.ByIds | internal/units/manager.go:950-956 | each candidate is the unit registered under one of the IDs, and every listed ID that is registered contributes its unit |
| Units.Filter | internal/units/manager.go:964-972 | exactly the candidates satisfying the predicate are kept |
| Units.FilterAppend | internal/units/manager.go:964-972 | filtering distributes over concatenation, so candidate order is preserved |
| Units.SelectTargets | internal/units/manager.go:939-979 | the three stages composed: look up the IDs (or every key in the given order), keep what the predicate accepts, cut to `MaxTargets`; a positive limit bounds the count |
| Units.Limit | internal/units/manager.go:975-977 | the result is a prefix of the filtered list of length `min(MaxTargets, n)` when `MaxTargets > 0`, otherwise all of it |
| Units.SelectTargetsSound | internal/units/manager.go:939-979 | every target is a registered unit that satisfies the predicate; with IDs given, its ID is one of them |
| Units.SelectTargetsBounded | internal/units/manager.go:975-977 | a positive `MaxTargets` bounds the number of targets |
| Units.SelectTargetsLimitIsPrefix | internal/units/manager.go:975-977 | the limited target list is a prefix of the unlimited one |
| Units.SelectTargetsEveryone | internal/units/manager.go:120 | with no IDs, no predicate and no limit, the targets are exactly the registered units, each once |
| Units.ByIdsAllKeys | internal/units/manager.go:957-960 | looking up only registered IDs yields one unit per ID |
| Units.FanOut | internal/units/manager.go:829-843 | one queued command per target, in target order, carrying the target's ID and the broadcast's command and priority |
| Units.FilterUnits | internal/units/manager.go:964-972 | the predicate append loop computes `Filter` |
| Units.UnitManager.constructor | internal/units/manager.go:201-275 | a new manager is running, with an empty registry and empty queues |
| Units.UnitManager.AddUnit | internal/units/manager.go:305-355 | rejects nil, an empty ID, or an ID already present, changing nothing; otherwise only that key is added |
| Units.UnitManager.RemoveUnit | internal/units/manager.go:371-383 | a missing ID is an error that changes nothing; otherwise only that key is deleted and its unit is shut down |
| Units.UnitManager.GetUnit | internal/units/manager.go:394-397 | found exactly when the ID is registered, with that unit; otherwise nil |
| Units.UnitManager.GetAllUnits | internal/units/manager.go:410-424 | the copy loop returns a map equal to the registry, a value that later registry changes cannot alter |
| Units.UnitManager.GetUnitsByType | internal/units/manager.go:429-432 | exactly the registered units of the type, each once |
| Units.UnitManager.CandidatesByIds | internal/units/manager.go:950-956 | the lookup loop computes `ByIds` over the listed IDs |
| Units.UnitManager.CandidatesAll | internal/units/manager.go:957-961 | the range loop visits every key once in some order and collects `ByIds` over that order |
| Units.UnitManager.FindTargetUnits | internal/units/manager.go:939-979 | the result is `SelectTargets` over the registry ordering the method returns; with IDs given it is the pipeline over the ID list, whatever the ordering |
| Units.UnitManager.FanOutBroadcast | internal/units/manager.go:826-843 | the receive branch: the work queue becomes its old contents plus the broadcast's fan-out over the selected targets, for some registry ordering, cut to the queue's room (`FannedOut`) |
| Units.UnitManager.ProcessCommand | internal/units/manager.go:776-796 | always echoes the unit ID; an unknown ID fails with "not found"; otherwise success holds exactly when the unit's inbox accepts the command, which is then appended |
| Units.BroadcastAdmission | internal/units/manager.go:462-473 | a broadcast is admitted exactly when the manager runs and the queue holds fewer than 100; a stopped manager answers "shutting down" first, a full queue "full" |
| Units.TemplateBroadcastOutcomes | internal/units/manager.go:466-473 | the template `select` always ends; it can panic exactly when the channel is closed, answer "shutting down" exactly when the context is done, and answer "full" only when neither holds and 100 broadcasts are queued |
| Units.TemplateBroadcastMayPanic | internal/units/manager.go:466-473 | after the template `Shutdown` (context cancelled, channel closed) the template's `select` can panic on its send as well as answer "shutting down" |
| Units.BroadcastAdmissionRefinesTemplate | internal/units/manager.go:466-473 | the model's answer is one the template's `select` can give, and never the panic |
| Units.UnitManager.BroadcastCommand | internal/units/manager.go:462-473 | answers `BroadcastAdmission` of the manager's state; the broadcast is appended exactly when admitted, and a refusal changes nothing |
| Units.UnitManager.Enqueue | internal/units/manager.go:829-843 | appends the fan-out while the work queue (500) has room and drops the rest |
| Units.TemplateDispatchOutcomes | internal/units/manager.go:824-854 | one turn of the dispatcher template can panic exactly when the channels are closed and the received broadcast has a target, can exit exactly when the context is done, and blocks exactly when nothing is ready |
| Units.TemplateDispatchMayPanic | internal/units/manager.go:824-854 | after the template `Shutdown` with a unit registered, the dispatcher template can receive the zero broadcast, which targets every unit, and panic on the closed work queue |
| Units.DispatchStep | internal/units/manager.go:824-854 | the model's dispatcher turn dispatches exactly when the manager runs and a broadcast is pending, and exits exactly when it is stopped |
| Units.DispatchStepRefinesTemplate | internal/units/manager.go:824-854 | the model's dispatcher turn is one the template's `select` can take, and never the panic |
| Units.UnitManager.DispatchNext | internal/units/manager.go:816-854 | dispatches exactly when `DispatchStep` of the state before the turn says so. A running manager with a pending broadcast removes the oldest one, and the work queue becomes `FannedOut` from its old contents. Otherwise neither queue changes |
| Units.UnitManager.Shutdown | internal/units/manager.go:604-624 | the manager stops running and every registered unit is shut down |
| Units.OrderingExists | internal/units/manager.go:957-960 | every finite registry has an iteration order |
| Resources.Validate | internal/resources/manager.go:420-428 | a transaction passes exactly when its timeout is non-negative, every name is registered, and a Reserve only takes; an unknown-name error names exactly unregistered names |
| Resources.Check | internal/resources/manager.go:431-436 | a transaction is admitted exactly when it validates and every delta fits its entry; an "insufficient" error names only resources that do not fit |
| Resources.AppliedKeepsLedgerOk | internal/resources/manager.go:431-436 | an admitted non-Reserve transaction adds each delta to its resource, leaves reserved amounts, maxima and unlisted resources alone, and keeps every entry in bounds |
| Resources.HoldKeepsLedgerOk | internal/resources/manager.go:182-193 | an admitted Reserve raises `reserved` by exactly the requested amounts, leaves `current` alone and keeps every entry in bounds |
| Resources.ReserveAdmittedIffAllocateAdmitted | internal/resources/manager.go:182-193 | a reservation is admitted exactly when the same deltas would be admitted as an allocation |
| Resources.HoldingNarrowsAdmission | internal/resources/manager.go:182-193 | held capacity is unavailable: availability drops by the held amount, and whatever is admitted with the hold is admitted without it |
| Resources.ReserveThenReleaseRestores | internal/resources/manager.go:197-201 | releasing a reservation restores the ledger exactly |
| Resources.ReserveThenConsumeIsAllocate | internal/resources/manager.go:205-209 | reserving and then consuming has the same effect as allocating |
| Resources.TransferConserves | internal/resources/manager.go:213-223 | a transfer takes the amount from the source, gives it to the destination and touches nothing else |
| Resources.TransferToSelfIsIdentity | internal/resources/manager.go:213-223 | a transfer from a resource to itself changes nothing |
| Resources.ReservationBlocksUntilReleased | internal/resources/manager.go:182-201 | with 100 minerals and 50 held, a draw of 80 fails as insufficient; once the hold is released the same draw succeeds and leaves 20 |
| Resources.HeldByRemove | internal/resources/manager.go:79-84 | the total held for a resource is one reservation's hold plus the rest's total |
| Resources.HeldByAdd | internal/resources/manager.go:79-84 | opening a reservation adds its hold to the total |
| Resources.HeldByUnmentioned | internal/resources/manager.go:79-84 | a resource no reservation mentions has nothing held |
| Resources.ResourceManager.constructor | internal/resources/manager.go:130-149 | a new ledger is empty, with no reservations and an empty log |
| Resources.ResourceManager.AddResource | internal/resources/manager.go:152-161 | fails on an empty name, a non-positive amount, an initial amount above the maximum, or a registered name, changing nothing. Otherwise it registers the name as `Entry(initial, max, 0)` with a low threshold of 20% of the maximum |
| Resources.ResourceManager.ExecuteTransaction | internal/resources/manager.go:431-436 | all or nothing. A rejected transaction changes no amount. An admitted Reserve holds its amounts under its ID until `now + timeout`. Any other admitted kind adds its deltas. One log record with the remaining levels is appended |
| Resources.ResourceManager.NewTransaction | internal/resources/manager.go:169 | issues a fresh transaction ID that no open reservation uses |
| Resources.ResourceManager.AllocateResources | internal/resources/manager.go:166-178 | executes an Allocate transaction under a fresh ID |
| Resources.ResourceManager.ReserveResources | internal/resources/manager.go:182-193 | executes a Reserve under a fresh ID; on success the result carries that ID as the reservation ID |
| Resources.ResourceManager.TransferResources | internal/resources/manager.go:213-223 | executes the source/destination deltas as one transaction, so a transfer is never half applied |
| Resources.ResourceManager.ReleaseReservation | internal/resources/manager.go:197-201 | an ID never issued, already retired, or expired by `now` is "not found" and changes nothing; otherwise the hold is returned to availability and the reservation retired |
| Resources.ResourceManager.ConsumeReserved | internal/resources/manager.go:205-209 | an ID never issued, already retired, or expired by `now` is "not found" and changes nothing; otherwise the held amounts leave both `current` and `reserved`, and the reservation is retired |
| Resources.ResourceManager.ReturnHold | internal/resources/manager.go:445-449 | releasing one open reservation during the sweep: its hold returns to availability, it is retired, and the ledger invariant is kept |
| Resources.ResourceManager.CleanupExpiredReservations | internal/resources/manager.go:445-449 | exactly the reservations whose expiry has passed are released (by the invariant, their holds leave `reserved`); unexpired ones, all current amounts and all maxima are untouched |
| Resources.ResourceManager.GetResourceLevels | internal/resources/manager.go:227-231 | the copy loop returns every resource's current amount, as a fresh value |

## Left out

- Goroutines, channels as synchronisation, `context` cancellation and
  `WaitGroup` are not modelled. These are the unit's run loop, the
  manager's worker pool and status aggregator, the resource manager's
  transaction processor, monitor and generator coordinator, and both timed
  `Shutdown(timeout)` calls. Each queue is a bounded sequence, and each
  background loop is modelled as a single step.
- Event outboxes and listeners (`events`, `AddEventListener`,
  `notifyEventListeners`, `AddResourceListener`, `notifyListeners`) are not
  modelled. They drop notifications when full and affect no state.
- Floating point is not modelled: `Position` arithmetic, `Distance`,
  `GetUnitsInRange`, `UnitStats` averages, `RateLimiter`,
  `ResourceGenerator` and `ResourceStatistics`. `Position` is an opaque
  value compared only for equality. `Command.String` formatting is left
  out too.
- The manager's asynchronous `SendCommand` is left out. It returns a
  response channel from a goroutine. `GetStats` and `GetResourceInfo` are
  left out as reporting. `SetLowThreshold` is left out too, because its
  validation is unstated.
- `NewResourceManager`'s initial resource map is left out, because it gives
  no maxima. The constructor starts empty and resources are added with
  `AddResource`.
- The `ElevationLayer` and `TerrainType` enums are not part of this model.
  Their definitions are in no file of the core.
- `types.Resource` is not part of this model. A ledger entry is modelled as
  `(current, maximum, reserved)`.
- Types.Unit.TakeDamage: takes a natural-number amount. Negative damage,
  which the Go `int` parameter admits, is not modelled.
- Types.Unit.Handle: when the Attack handler's target is already Dead, the
  command is ignored. The tests do not pin this. The handlers'
  event emission is left out.
- Types.Unit.SendCommand: a unit that is both shut down and full answers
  "shutting down". The Go `select` may pick either case; the timed wait
  before "backpressure" is left out.
- Units.UnitManager.BroadcastCommand: the filter sees only a unit's identity (`Unit ->
  bool` reads no mutable fields). A Go predicate such as "health above 50"
  cannot be expressed. A stopped manager always answers "shutting down".
  The template's `select` can instead send on the channel `Shutdown`
  closed, which panics (see Findings).
- Units.UnitManager.DispatchNext: a stopped manager dispatches nothing. The
  dispatcher template can instead receive zero broadcasts from the closed
  channel and panic sending to the closed work queue (see Findings).
- Resources.ResourceManager.ReleaseReservation and
  Resources.ResourceManager.ConsumeReserved take the current time `now` as a
  parameter, where Go would read the clock. Their Go signatures take no time
  and name reservations by string.
- Resources.ResourceManager.TransferResources: takes `(from, to, amount)`
  between two ledger entries. Go's third argument is a map whose relation
  to `from` and `to` the source does not define. A transfer of a resource
  to itself is a zero delta.
- Resources.Validate: the only timeout rule is "not negative". Transfers
  have no timeout parameter and use 0. "Reasonable amounts" has no rule
  beyond the admission check.
- Resources.ResourceManager.ExecuteTransaction: Release and Batch
  transactions apply their deltas like Allocate. Priority does not reorder
  anything, since transactions run one at a time.
- Resources.ResourceManager.CleanupExpiredReservations: a reservation
  expires when `expiresAt < now`, with `expiresAt = start + timeout`.

## Findings

| source | as written | input that shows it | evidently intended | confidence | as-written member | corrected member |
|---|---|---|---|---|---|---|
| internal/units/manager.go:466-473 | the commented `BroadcastCommand` select offers the send on `commandBroadcast` alongside `ctx.Done()`; the `Shutdown` template closes that channel (manager.go:608) | any `BroadcastCommand` after `Shutdown`: both cases are ready, and if Go picks the send it panics | a stopped manager answers "manager shutting down" | not executed; read from the commented template | Units.TemplateBroadcastMayPanic | Units.BroadcastAdmissionRefinesTemplate |
| internal/units/manager.go:824-854 | the commented dispatcher select receives from `commandBroadcast` alongside `ctx.Done()`; after `Shutdown` closes both queues (manager.go:608-609) the receive yields zero broadcasts | `Shutdown` with one unit registered: the zero broadcast has no IDs, no filter and limit 0, so it targets that unit, and the send to the closed `commandQueue` panics | a stopped dispatcher exits and dispatches nothing | not executed; read from the commented template | Units.TemplateDispatchMayPanic | Units.DispatchStepRefinesTemplate |
