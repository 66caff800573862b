/**
 * The unit registry of internal/units/manager.go: a map from ID to unit, the
 * three-stage broadcast targeting (IDs, predicate, limit), and the two
 * bounded queues that carry broadcasts and the per-unit commands they fan
 * out into. Channel sends become appends to bounded sequences with explicit
 * "full" and "shut down" outcomes; the goroutines reading them are modelled
 * one iteration at a time.
 */
module Units {
  import opened Wrappers
  import opened Types

  /** Buffer size of `commandBroadcast`. */
  const BroadcastCapacity: nat := 100
  /** Buffer size of `commandQueue`. */
  const CommandQueueCapacity: nat := 500

  /**
   * One command for many units. An empty `targetIds` means every unit; the
   * predicate sees a unit's identity (its ID and type).
   */
  datatype BroadcastCommand = BroadcastCommand(
    command: Command,
    targetIds: seq<string>,
    filter: Option<Unit -> bool>,
    maxTargets: int,
    priority: int)

  datatype QueuedCommand = QueuedCommand(unitId: string, command: Command, priority: int)

  datatype CommandError = UnitNotFound(id: string) | Rejected(reason: SendError)

  datatype CommandResult = CommandResult(success: bool, error: Option<CommandError>, unitId: string)

  datatype ManagerError =
    | NilUnit
    | EmptyId
    | AlreadyExists(id: string)
    | NotFound(id: string)
    | ManagerShuttingDown
    | BroadcastFull

  // ---------------------------------------------------------------------
  // Targeting, as functions of the registry
  // ---------------------------------------------------------------------

  /** `order` lists every key of the registry exactly once: one possible map iteration order. */
  ghost predicate IsOrdering(order: seq<string>, keys: set<string>) {
    |order| == |keys|
    && (forall k :: k in order <==> k in keys)
    && (forall i, j :: 0 <= i < j < |order| ==> order[i] != order[j])
  }

  /** `u` is the unit registered under one of `ids`. */
  ghost predicate RegisteredUnder(units: map<string, Unit>, ids: seq<string>, u: Unit) {
    exists j :: 0 <= j < |ids| && ids[j] in units && units[ids[j]] == u
  }

  /** Stage 1: the registered units among `ids`, in list order, unknown IDs skipped. */
  function ByIds(units: map<string, Unit>, ids: seq<string>): (r: seq<Unit>)
    ensures |r| <= |ids|
    ensures forall i :: 0 <= i < |r| ==> RegisteredUnder(units, ids, r[i])
    ensures forall id :: id in ids && id in units ==> units[id] in r
    decreases |ids|
  {
    if ids == [] then []
    else
      var last := ids[|ids| - 1];
      var init := ByIds(units, ids[..|ids| - 1]);
      var r := init + (if last in units then [units[last]] else []);
      assert forall id :: id in ids <==> id in ids[..|ids| - 1] || id == last;
      assert forall i :: 0 <= i < |init| ==> RegisteredUnder(units, ids, r[i]) by {
        forall i | 0 <= i < |init|
          ensures RegisteredUnder(units, ids, r[i])
        {
          var front := ids[..|ids| - 1];
          assert RegisteredUnder(units, front, init[i]);
          var j :| 0 <= j < |front| && front[j] in units && units[front[j]] == init[i];
          assert ids[j] == front[j] && r[i] == init[i];
        }
      }
      assert last in units ==> RegisteredUnder(units, ids, units[last]);
      r
  }

  /** Stage 2: the units of `s` that satisfy `p`, in order. */
  function Filter(s: seq<Unit>, p: Unit -> bool): (r: seq<Unit>)
    ensures |r| <= |s|
    ensures forall i :: 0 <= i < |r| ==> r[i] in s && p(r[i])
    ensures forall i :: 0 <= i < |s| && p(s[i]) ==> s[i] in r
    decreases |s|
  {
    if s == [] then []
    else
      var last := s[|s| - 1];
      var init := Filter(s[..|s| - 1], p);
      assert forall i :: 0 <= i < |s| - 1 ==> s[i] == s[..|s| - 1][i];
      init + (if p(last) then [last] else [])
  }

  /** Stage 3: the first `max` units when `max > 0`, else all of them. */
  function Limit(s: seq<Unit>, max: int): (r: seq<Unit>)
    ensures r <= s
    ensures |r| == if max > 0 && |s| > max then max else |s|
  {
    if max > 0 && |s| > max then s[..max] else s
  }

  /** `findTargetUnits` when the registry is iterated in `order`. */
  function SelectTargets(units: map<string, Unit>, bc: BroadcastCommand, order: seq<string>): (r: seq<Unit>)
    ensures bc.maxTargets > 0 ==> |r| <= bc.maxTargets
  {
    var candidates := ByIds(units, if |bc.targetIds| > 0 then bc.targetIds else order);
    var kept := if bc.filter.Some? then Filter(candidates, bc.filter.value) else candidates;
    Limit(kept, bc.maxTargets)
  }

  /** Filtering distributes over concatenation, so relative order is preserved. */
  lemma {:induction false} FilterAppend(a: seq<Unit>, b: seq<Unit>, p: Unit -> bool)
    ensures Filter(a + b, p) == Filter(a, p) + Filter(b, p)
    decreases |b|
  {
    if b == [] {
      assert a + b == a;
    } else {
      var b' := b[..|b| - 1];
      assert (a + b)[..|a + b| - 1] == a + b';
      assert (a + b)[|a + b| - 1] == b[|b| - 1];
      FilterAppend(a, b', p);
    }
  }

  /**
   * Every target is a registered unit that passed the predicate; with IDs
   * given it is one of those IDs.
   */
  lemma SelectTargetsSound(units: map<string, Unit>, bc: BroadcastCommand, order: seq<string>, t: Unit)
    requires forall id :: id in units ==> units[id].id == id
    requires t in SelectTargets(units, bc, order)
    ensures t in units.Values && units[t.id] == t
    ensures bc.filter.Some? ==> bc.filter.value(t)
    ensures |bc.targetIds| > 0 ==> t.id in bc.targetIds
  {
  }

  lemma SelectTargetsBounded(units: map<string, Unit>, bc: BroadcastCommand, order: seq<string>)
    ensures bc.maxTargets > 0 ==> |SelectTargets(units, bc, order)| <= bc.maxTargets
    ensures |SelectTargets(units, bc, order)| <= if |bc.targetIds| > 0 then |bc.targetIds| else |order|
  {
  }

  /** The limited target list is a prefix of the unlimited one. */
  lemma SelectTargetsLimitIsPrefix(units: map<string, Unit>, bc: BroadcastCommand, order: seq<string>)
    ensures SelectTargets(units, bc, order) <= SelectTargets(units, bc.(maxTargets := 0), order)
  {
  }

  /** With no IDs, no predicate and no limit, every registered unit is targeted once. */
  lemma SelectTargetsEveryone(units: map<string, Unit>, bc: BroadcastCommand, order: seq<string>)
    requires forall id :: id in units ==> units[id].id == id
    requires IsOrdering(order, units.Keys)
    requires bc.targetIds == [] && bc.filter.None? && bc.maxTargets <= 0
    ensures forall u :: u in SelectTargets(units, bc, order) <==> u in units.Values
    ensures |SelectTargets(units, bc, order)| == |units|
    ensures forall i, j :: 0 <= i < j < |SelectTargets(units, bc, order)| ==>
      SelectTargets(units, bc, order)[i] != SelectTargets(units, bc, order)[j]
  {
    ByIdsAllKeys(units, order);
    var r := SelectTargets(units, bc, order);
    forall i, j | 0 <= i < j < |r|
      ensures r[i] != r[j]
    {
      assert r[i].id == order[i] && r[j].id == order[j];
    }
  }

  lemma {:induction false} ByIdsAllKeys(units: map<string, Unit>, ids: seq<string>)
    requires forall id :: id in ids ==> id in units
    ensures |ByIds(units, ids)| == |ids|
    ensures forall i :: 0 <= i < |ids| ==> ByIds(units, ids)[i] == units[ids[i]]
    decreases |ids|
  {
    if ids != [] {
      var init := ids[..|ids| - 1];
      ByIdsAllKeys(units, init);
      assert ByIds(units, ids) == ByIds(units, init) + [units[ids[|ids| - 1]]];
    }
  }

  /** The queued commands one broadcast fans out into, one per target, in target order. */
  function FanOut(bc: BroadcastCommand, targets: seq<Unit>): (r: seq<QueuedCommand>)
    ensures |r| == |targets|
    ensures forall i :: 0 <= i < |r| ==>
      r[i].unitId == targets[i].id && r[i].command == bc.command && r[i].priority == bc.priority
  {
    seq(|targets|, i requires 0 <= i < |targets| => QueuedCommand(targets[i].id, bc.command, bc.priority))
  }

  // ---------------------------------------------------------------------
  // Admission of broadcasts and dispatcher turns, against the templates'
  // `select` statements
  // ---------------------------------------------------------------------

  /**
   * How one `select` of the manager can end. Go picks at random among the
   * ready cases and takes `default` only when none is ready; a send on a
   * closed channel is always ready, and panics.
   */
  datatype SelectOutcome =
    | Queued
    | RefusedShuttingDown
    | RefusedFull
    | Dispatched
    | Exited
    | Blocked
    | Panicked

  /**
   * The outcomes the commented `BroadcastCommand` template allows: the send
   * case (ready when the channel has room or is closed), the `ctx.Done()`
   * case, and `default`. `Shutdown` cancels the context and closes the
   * channel together.
   */
  function TemplateBroadcastOutcomes(ctxDone: bool, closed: bool, queued: nat): (r: set<SelectOutcome>)
    ensures r != {}
    ensures Panicked in r <==> closed
    ensures RefusedShuttingDown in r <==> ctxDone
    ensures RefusedFull in r <==> !ctxDone && !closed && queued >= BroadcastCapacity
  {
    var send := if closed then {Panicked} else if queued < BroadcastCapacity then {Queued} else {};
    var ready := send + (if ctxDone then {RefusedShuttingDown} else {});
    if ready == {} then {RefusedFull} else ready
  }

  /** After `Shutdown`, the template may send on the closed channel and panic. */
  lemma TemplateBroadcastMayPanic(queued: nat)
    ensures TemplateBroadcastOutcomes(true, true, queued) == {Panicked, RefusedShuttingDown}
  {
  }

  /** The model's admission of a broadcast: a stopped manager refuses first, then a full queue. */
  function BroadcastAdmission(running: bool, queued: nat): (r: Option<ManagerError>)
    ensures r == None <==> running && queued < BroadcastCapacity
    ensures !running ==> r == Some(ManagerShuttingDown)
    ensures running && queued >= BroadcastCapacity ==> r == Some(BroadcastFull)
  {
    if !running then Some(ManagerShuttingDown)
    else if queued >= BroadcastCapacity then Some(BroadcastFull)
    else None
  }

  function AdmissionOutcome(err: Option<ManagerError>): SelectOutcome {
    match err
    case None => Queued
    case Some(ManagerShuttingDown) => RefusedShuttingDown
    case Some(_) => RefusedFull
  }

  /**
   * The model's admission is always one of the template's outcomes and never
   * the panic: after `Shutdown` it takes the `ctx.Done()` case.
   */
  lemma BroadcastAdmissionRefinesTemplate(running: bool, queued: nat)
    ensures AdmissionOutcome(BroadcastAdmission(running, queued)) in TemplateBroadcastOutcomes(!running, !running, queued)
    ensures AdmissionOutcome(BroadcastAdmission(running, queued)) != Panicked
  {
  }

  /**
   * The outcomes of one turn of the commented `commandDispatcher` template:
   * receiving is ready when a broadcast is buffered or the channel is closed
   * (a closed, drained channel yields the zero broadcast), and fanning out
   * to a closed work queue panics at the first of its `targets`. With no
   * case ready the select blocks.
   */
  function TemplateDispatchOutcomes(ctxDone: bool, closed: bool, pending: nat, targets: nat): (r: set<SelectOutcome>)
    ensures Panicked in r <==> closed && targets > 0
    ensures Exited in r <==> ctxDone
    ensures Blocked in r <==> !ctxDone && !closed && pending == 0
  {
    var received := if closed && targets > 0 then Panicked else Dispatched;
    var ready := (if pending > 0 || closed then {received} else {}) + (if ctxDone then {Exited} else {});
    if ready == {} then {Blocked} else ready
  }

  /**
   * After `Shutdown` with a unit still registered, the template may receive
   * the zero broadcast (no IDs, no predicate, no limit), which targets every
   * registered unit, and panic sending the first queued command.
   */
  lemma TemplateDispatchMayPanic(units: map<string, Unit>, zero: BroadcastCommand, order: seq<string>)
    requires forall id :: id in units ==> units[id].id == id
    requires IsOrdering(order, units.Keys) && |units| > 0
    requires zero.targetIds == [] && zero.filter.None? && zero.maxTargets == 0
    ensures Panicked in TemplateDispatchOutcomes(true, true, 0, |SelectTargets(units, zero, order)|)
  {
    SelectTargetsEveryone(units, zero, order);
  }

  /** The model's dispatcher turn: a stopped manager exits, otherwise it dispatches or waits. */
  function DispatchStep(running: bool, pending: nat): (r: SelectOutcome)
    ensures r == Dispatched <==> running && pending > 0
    ensures r == Exited <==> !running
  {
    if !running then Exited else if pending > 0 then Dispatched else Blocked
  }

  /** The model's dispatcher turn is one of the template's outcomes and never the panic. */
  lemma DispatchStepRefinesTemplate(running: bool, pending: nat, targets: nat)
    ensures DispatchStep(running, pending) in TemplateDispatchOutcomes(!running, !running, pending, targets)
    ensures DispatchStep(running, pending) != Panicked
  {
  }

  /** The first `n` elements, or all of them when there are fewer. */
  function Take<T>(s: seq<T>, n: int): (r: seq<T>)
    ensures r <= s
    ensures |r| == if 0 <= n < |s| then n else if n < 0 then 0 else |s|
  {
    if n <= 0 then [] else if n < |s| then s[..n] else s
  }

  /** Stage 2 as the append loop it is. */
  method FilterUnits(candidates: seq<Unit>, p: Unit -> bool) returns (kept: seq<Unit>)
    ensures kept == Filter(candidates, p)
  {
    kept := [];
    var i := 0;
    while i < |candidates|
      invariant 0 <= i <= |candidates|
      invariant kept == Filter(candidates[..i], p)
    {
      assert candidates[..i + 1][..i] == candidates[..i];
      if p(candidates[i]) {
        kept := kept + [candidates[i]];
      }
      i := i + 1;
    }
    assert candidates[..i] == candidates;
  }

  // ---------------------------------------------------------------------
  // The manager
  // ---------------------------------------------------------------------

  class UnitManager {
    var units: map<string, Unit>
    /** Broadcasts accepted but not yet dispatched, oldest first. */
    var commandBroadcast: seq<BroadcastCommand>
    /** Per-unit commands waiting for a worker, oldest first. */
    var commandQueue: seq<QueuedCommand>
    var running: bool

    ghost predicate Valid()
      reads this
    {
      (forall id :: id in units ==> units[id].id == id)
      && |commandBroadcast| <= BroadcastCapacity
      && |commandQueue| <= CommandQueueCapacity
    }

    /** `NewUnitManager`: an empty, running manager. */
    constructor ()
      ensures Valid()
      ensures units == map[] && commandBroadcast == [] && commandQueue == [] && running
    {
      units := map[];
      commandBroadcast := [];
      commandQueue := [];
      running := true;
    }

    /** Registers `unit` under its ID; nil, an empty ID and a taken ID are refused. */
    method AddUnit(unit: Unit?) returns (err: Option<ManagerError>)
      requires Valid()
      modifies this`units
      ensures Valid()
      ensures unit == null ==> err == Some(NilUnit) && units == old(units)
      ensures unit != null && unit.id == "" ==> err == Some(EmptyId) && units == old(units)
      ensures unit != null && unit.id != "" && unit.id in old(units) ==>
        err == Some(AlreadyExists(unit.id)) && units == old(units)
      ensures unit != null && unit.id != "" && unit.id !in old(units) ==>
        err == None && units == old(units)[unit.id := unit]
    {
      if unit == null {
        return Some(NilUnit);
      }
      if unit.id == "" {
        return Some(EmptyId);
      }
      if unit.id in units {
        return Some(AlreadyExists(unit.id));
      }
      units := units[unit.id := unit];
      err := None;
    }

    /** Deregisters the unit with `id` and shuts it down. */
    method RemoveUnit(id: string) returns (err: Option<ManagerError>)
      requires Valid()
      modifies this`units, (if id in units then {units[id]} else {})`shutDown
      ensures Valid()
      ensures id !in old(units) ==> err == Some(NotFound(id)) && units == old(units)
      ensures id in old(units) ==> err == None && units == old(units) - {id} && old(units)[id].shutDown
    {
      if id !in units {
        return Some(NotFound(id));
      }
      var unit := units[id];
      units := units - {id};
      unit.Shutdown();
      err := None;
    }

    method GetUnit(id: string) returns (unit: Unit?, found: bool)
      ensures found <==> id in units
      ensures found ==> unit == units[id]
      ensures !found ==> unit == null
    {
      if id in units {
        unit, found := units[id], true;
      } else {
        unit, found := null, false;
      }
    }

    /** A fresh map with exactly the registry's entries; the units themselves are shared. */
    method GetAllUnits() returns (snapshot: map<string, Unit>)
      ensures snapshot == units
    {
      snapshot := map[];
      var rest := units.Keys;
      while rest != {}
        invariant rest <= units.Keys
        invariant snapshot.Keys == units.Keys - rest
        invariant forall id :: id in snapshot ==> snapshot[id] == units[id]
        decreases |rest|
      {
        var id :| id in rest;
        snapshot := snapshot[id := units[id]];
        rest := rest - {id};
      }
    }

    /** Every registered unit of type `kind`, each once, in registry iteration order. */
    method GetUnitsByType(kind: UnitType) returns (result: seq<Unit>)
      requires Valid()
      ensures forall u :: u in result <==> u in units.Values && u.kind == kind
      ensures forall i, j :: 0 <= i < j < |result| ==> result[i] != result[j]
    {
      result := [];
      var rest := units.Keys;
      while rest != {}
        invariant rest <= units.Keys
        invariant forall u :: u in result <==> u in units.Values && u.id !in rest && u.kind == kind
        invariant forall i, j :: 0 <= i < j < |result| ==> result[i] != result[j]
        decreases |rest|
      {
        var id :| id in rest;
        var unit := units[id];
        if unit.kind == kind {
          result := result + [unit];
        }
        rest := rest - {id};
      }
    }

    /** Stage 1 with IDs: look each one up, in list order. */
    method CandidatesByIds(ids: seq<string>) returns (candidates: seq<Unit>)
      ensures candidates == ByIds(units, ids)
    {
      candidates := [];
      var i := 0;
      while i < |ids|
        invariant 0 <= i <= |ids|
        invariant candidates == ByIds(units, ids[..i])
      {
        assert ids[..i + 1][..i] == ids[..i];
        if ids[i] in units {
          candidates := candidates + [units[ids[i]]];
        }
        i := i + 1;
      }
      assert ids[..i] == ids;
    }

    /** Stage 1 without IDs: every unit, in the registry's (arbitrary) iteration order. */
    method CandidatesAll() returns (candidates: seq<Unit>, ghost order: seq<string>)
      ensures IsOrdering(order, units.Keys)
      ensures candidates == ByIds(units, order)
    {
      candidates, order := [], [];
      var rest := units.Keys;
      ghost var visited: set<string> := {};
      while rest != {}
        invariant rest <= units.Keys && visited == units.Keys - rest
        invariant IsOrdering(order, visited)
        invariant candidates == ByIds(units, order)
        decreases |rest|
      {
        var id :| id in rest;
        VisitStep(units, order, visited, id);
        order := order + [id];
        candidates := candidates + [units[id]];
        visited := visited + {id};
        rest := rest - {id};
      }
    }

    /**
     * `findTargetUnits`. With IDs the candidates follow the list; without
     * them they follow the registry's iteration order, which is arbitrary:
     * the result is the pipeline applied to some ordering of the keys.
     */
    method FindTargetUnits(bc: BroadcastCommand) returns (targets: seq<Unit>, ghost order: seq<string>)
      ensures |bc.targetIds| > 0 ==> targets == SelectTargets(units, bc, [])
      ensures IsOrdering(order, units.Keys) && targets == SelectTargets(units, bc, order)
    {
      // Stage 1: candidates
      var candidates: seq<Unit>;
      if |bc.targetIds| > 0 {
        candidates := CandidatesByIds(bc.targetIds);
        order := OrderingOf(units.Keys);
        SelectTargetsIgnoresOrder(units, bc, order, []);
      } else {
        candidates, order := CandidatesAll();
      }
      // Stage 2: predicate
      if bc.filter.Some? {
        targets := FilterUnits(candidates, bc.filter.value);
      } else {
        targets := candidates;
      }
      // Stage 3: limit
      if bc.maxTargets > 0 && |targets| > bc.maxTargets {
        targets := targets[..bc.maxTargets];
      }
      assert targets == SelectTargets(units, bc, order);
    }

    /** `processCommand`: hands a queued command to its unit's inbox. */
    method ProcessCommand(cmd: QueuedCommand) returns (result: CommandResult)
      requires Valid()
      requires cmd.unitId in units ==> units[cmd.unitId].Valid()
      modifies (if cmd.unitId in units then {units[cmd.unitId]} else {})`commands
      ensures result.unitId == cmd.unitId
      ensures cmd.unitId !in units ==> !result.success && result.error == Some(UnitNotFound(cmd.unitId))
      ensures cmd.unitId in units ==>
        var u := units[cmd.unitId];
        var e := Admission(u.shutDown, |old(u.commands)|);
        u.Valid()
        && (result.success <==> e == None)
        && result.error == (if e == None then None else Some(Rejected(e.value)))
        && u.commands == (if e == None then old(u.commands) + [cmd.command] else old(u.commands))
    {
      var unit, found := GetUnit(cmd.unitId);
      if !found {
        return CommandResult(false, Some(UnitNotFound(cmd.unitId)), cmd.unitId);
      }
      var err := unit.SendCommand(cmd.command);
      result := CommandResult(err == None, if err == None then None else Some(Rejected(err.value)), cmd.unitId);
    }

    /** Queues a broadcast without blocking. */
    method BroadcastCommand(bc: BroadcastCommand) returns (err: Option<ManagerError>)
      requires Valid()
      modifies this`commandBroadcast
      ensures Valid()
      ensures err == BroadcastAdmission(running, |old(commandBroadcast)|)
      ensures err == None ==> commandBroadcast == old(commandBroadcast) + [bc]
      ensures err != None ==> commandBroadcast == old(commandBroadcast)
    {
      err := BroadcastAdmission(running, |commandBroadcast|);
      if err == None {
        commandBroadcast := commandBroadcast + [bc];
      }
    }

    /**
     * Appends one queued command per target while the work queue has room
     * and drops the rest.
     */
    method Enqueue(bc: BroadcastCommand, targets: seq<Unit>)
      requires Valid()
      modifies this`commandQueue
      ensures Valid()
      ensures commandQueue ==
        old(commandQueue) + Take(FanOut(bc, targets), CommandQueueCapacity - |old(commandQueue)|)
    {
      ghost var room := CommandQueueCapacity - |commandQueue|;
      ghost var all := FanOut(bc, targets);
      var i := 0;
      while i < |targets|
        invariant 0 <= i <= |targets|
        invariant Valid()
        invariant commandQueue == old(commandQueue) + Take(all[..i], room)
      {
        var queued := QueuedCommand(targets[i].id, bc.command, bc.priority);
        assert all[..i + 1] == all[..i] + [queued];
        if |commandQueue| < CommandQueueCapacity {
          commandQueue := commandQueue + [queued];
        }
        i := i + 1;
      }
      assert all[..i] == all;
    }

    /**
     * The receive branch of `commandDispatcher`: selects the broadcast's
     * targets and fans it out onto the work queue.
     */
    method FanOutBroadcast(bc: BroadcastCommand)
      requires Valid()
      modifies this`commandQueue
      ensures Valid()
      ensures FannedOut(units, bc, old(commandQueue), commandQueue)
    {
      var targets, order := FindTargetUnits(bc);
      FanOutWitness(units, bc, order, targets, commandQueue);
      Enqueue(bc, targets);
    }

    /**
     * One iteration of `commandDispatcher`: takes the oldest broadcast,
     * selects its targets and fans it out onto the work queue.
     */
    method DispatchNext() returns (dispatched: bool)
      requires Valid()
      modifies this`commandBroadcast, this`commandQueue
      ensures Valid()
      ensures dispatched <==> DispatchStep(old(running), |old(commandBroadcast)|) == Dispatched
      ensures !dispatched ==> commandBroadcast == old(commandBroadcast) && commandQueue == old(commandQueue)
      ensures dispatched ==>
        var bc := old(commandBroadcast)[0];
        commandBroadcast == old(commandBroadcast)[1..] && FannedOut(units, bc, old(commandQueue), commandQueue)
    {
      if !running || commandBroadcast == [] {
        return false;
      }
      var bc := commandBroadcast[0];
      commandBroadcast := commandBroadcast[1..];
      FanOutBroadcast(bc);
      dispatched := true;
    }

    /** Stops accepting broadcasts and shuts every registered unit down. */
    method Shutdown()
      requires Valid()
      modifies this`running, units.Values`shutDown
      ensures Valid()
      ensures !running
      ensures forall u :: u in units.Values ==> u.shutDown
    {
      running := false;
      var rest := units.Values;
      while rest != {}
        invariant !running
        invariant rest <= units.Values
        invariant forall u :: u in units.Values - rest ==> u.shutDown
        decreases |rest|
      {
        var unit :| unit in rest;
        unit.Shutdown();
        rest := rest - {unit};
      }
    }
  }

  /**
   * `q1` is `q0` with the fan-out of `bc` appended up to the work queue's
   * room, for the targets `findTargetUnits` selects under some iteration
   * order of the registry.
   */
  ghost predicate FannedOut(units: map<string, Unit>, bc: BroadcastCommand, q0: seq<QueuedCommand>, q1: seq<QueuedCommand>) {
    exists order :: IsOrdering(order, units.Keys)
      && q1 == q0 + Take(FanOut(bc, SelectTargets(units, bc, order)), CommandQueueCapacity - |q0|)
  }

  /** With IDs given, the registry's order plays no part in the targets. */
  lemma SelectTargetsIgnoresOrder(units: map<string, Unit>, bc: BroadcastCommand, o1: seq<string>, o2: seq<string>)
    requires |bc.targetIds| > 0
    ensures SelectTargets(units, bc, o1) == SelectTargets(units, bc, o2)
  {
  }

  lemma FanOutWitness(units: map<string, Unit>, bc: BroadcastCommand, order: seq<string>, targets: seq<Unit>,
                      q0: seq<QueuedCommand>)
    requires IsOrdering(order, units.Keys) && targets == SelectTargets(units, bc, order)
    ensures FannedOut(units, bc, q0, q0 + Take(FanOut(bc, targets), CommandQueueCapacity - |q0|))
  {
  }

  /** One step of the registry's range loop: visiting `id` extends the ordering and the candidates. */
  lemma VisitStep(units: map<string, Unit>, order: seq<string>, visited: set<string>, id: string)
    requires IsOrdering(order, visited) && id !in visited && id in units
    ensures IsOrdering(order + [id], visited + {id})
    ensures ByIds(units, order + [id]) == ByIds(units, order) + [units[id]]
  {
    OrderingExtend(order, visited, id);
    ByIdsSnoc(units, order, id);
  }

  lemma OrderingExtend(order: seq<string>, keys: set<string>, k: string)
    requires IsOrdering(order, keys) && k !in keys
    ensures IsOrdering(order + [k], keys + {k})
  {
  }

  lemma ByIdsSnoc(units: map<string, Unit>, ids: seq<string>, id: string)
    ensures ByIds(units, ids + [id]) == ByIds(units, ids) + (if id in units then [units[id]] else [])
  {
    assert (ids + [id])[..|ids|] == ids;
  }

  /** Some ordering of any finite set of keys exists. */
  lemma {:induction false} OrderingExists(keys: set<string>)
    ensures exists order :: IsOrdering(order, keys)
    decreases |keys|
  {
    if keys == {} {
      assert IsOrdering([], keys);
    } else {
      var k :| k in keys;
      OrderingExists(keys - {k});
      var order :| IsOrdering(order, keys - {k});
      OrderingExtend(order, keys - {k}, k);
      assert keys - {k} + {k} == keys;
    }
  }

  ghost function OrderingOf(keys: set<string>): (order: seq<string>)
    ensures IsOrdering(order, keys)
  {
    OrderingExists(keys);
    var order :| IsOrdering(order, keys); order
  }

  /**
   * Registry round trip: a unit is found after it is added, a second unit
   * with the same ID is refused, a snapshot taken before the removal keeps
   * the unit, and after the removal it is gone and shut down.
   */
  method RegistryScenario(pos: Position)
  {
    var um := new UnitManager();
    var marine := new Unit("m1", Marine, pos);
    var twin := new Unit("m1", Zergling, pos);
    var added := um.AddUnit(marine);
    assert added == None;
    var again := um.AddUnit(twin);
    assert again == Some(AlreadyExists("m1"));
    var u, found := um.GetUnit("m1");
    assert found && u == marine;
    var snapshot := um.GetAllUnits();
    var removed := um.RemoveUnit("m1");
    assert removed == None && marine.shutDown;
    var _, stillThere := um.GetUnit("m1");
    assert !stillThere && snapshot["m1"] == marine;
    var missing := um.RemoveUnit("m1");
    assert missing == Some(NotFound("m1"));
  }
}
