/**
 * The unit actor of internal/types/types.go: the unit-type and unit-state
 * enums with their `String`/`IsValid` methods, the per-type stat table, the
 * damage rules, and the mutable `Unit` object with its bounded command inbox.
 * The goroutine that drains the inbox is modelled one iteration at a time
 * (`Unit.ProcessNext`); locks, contexts and the event outbox are not modelled.
 */
module Types {
  import opened Wrappers
  import Decimal

  // ---------------------------------------------------------------------
  // Enum rendering, shared by UnitType and UnitState
  // ---------------------------------------------------------------------

  /** `String()` of an int-backed enum: the table name, else "<TypeName>(<n>)". */
  function EnumString(names: seq<string>, typeName: string, v: int): string {
    if 0 <= v < |names| then names[v] else typeName + "(" + Decimal.Format(v) + ")"
  }

  ghost predicate DistinctNames(names: seq<string>) {
    forall i, j :: 0 <= i < j < |names| ==> names[i] != names[j]
  }

  ghost predicate DisjointNames(a: seq<string>, b: seq<string>) {
    forall i, j :: 0 <= i < |a| && 0 <= j < |b| ==> a[i] != b[j]
  }

  /** Two name tables without duplicates or shared names join without duplicates. */
  lemma DistinctConcat(a: seq<string>, b: seq<string>)
    requires DistinctNames(a) && DistinctNames(b) && DisjointNames(a, b)
    ensures DistinctNames(a + b)
  {
    forall i, j | 0 <= i < j < |a + b|
      ensures (a + b)[i] != (a + b)[j]
    {
      if j < |a| {
        assert (a + b)[i] == a[i] && (a + b)[j] == a[j];
      } else if i < |a| {
        assert (a + b)[i] == a[i] && (a + b)[j] == b[j - |a|];
      } else {
        assert (a + b)[i] == b[i - |a|] && (a + b)[j] == b[j - |a|];
      }
    }
  }

  lemma DisjointConcat(a: seq<string>, b: seq<string>, c: seq<string>)
    requires DisjointNames(a, c) && DisjointNames(b, c)
    ensures DisjointNames(a + b, c)
  {
    forall i, j | 0 <= i < |a + b| && 0 <= j < |c|
      ensures (a + b)[i] != c[j]
    {
      if i < |a| {
        assert (a + b)[i] == a[i];
      } else {
        assert (a + b)[i] == b[i - |a|];
      }
    }
  }

  ghost predicate NoParenthesis(names: seq<string>) {
    forall i :: 0 <= i < |names| ==> '(' !in names[i]
  }

  /** The fallback rendering never collides with a table name. */
  lemma EnumStringNamed(names: seq<string>, typeName: string, v: int)
    requires NoParenthesis(names)
    ensures 0 <= v < |names| <==> EnumString(names, typeName, v) in names
  {
    if !(0 <= v < |names|) {
      var s := EnumString(names, typeName, v);
      assert s[|typeName|] == '(';
    }
  }

  /** Distinct values render distinctly. */
  lemma EnumStringInjective(names: seq<string>, typeName: string, a: int, b: int)
    requires DistinctNames(names) && NoParenthesis(names)
    ensures EnumString(names, typeName, a) == EnumString(names, typeName, b) ==> a == b
  {
    var sa, sb := EnumString(names, typeName, a), EnumString(names, typeName, b);
    if sa == sb {
      EnumStringNamed(names, typeName, a);
      EnumStringNamed(names, typeName, b);
      if !(0 <= a < |names|) {
        var k := |typeName| + 1;
        assert sa[k..|sa| - 1] == Decimal.Format(a);
        assert sb[k..|sb| - 1] == Decimal.Format(b);
        Decimal.FormatInjective(a, b);
      }
    }
  }

  // ---------------------------------------------------------------------
  // UnitType
  // ---------------------------------------------------------------------

  /** Go's `type UnitType int`; out-of-range values can be built by conversion. */
  newtype UnitType = int {
    /** `ut >= SCV && ut < unitTypeCount`. */
    predicate IsValid() {
      SCV <= this < UnitTypeCount
    }

    function String(): string {
      EnumString(UnitTypeNames, "UnitType", this as int)
    }
  }

  const SCV: UnitType := 0
  const Marine: UnitType := 1
  const Firebat: UnitType := 2
  const Medic: UnitType := 3
  const Vulture: UnitType := 4
  const SiegeTank: UnitType := 5
  const Goliath: UnitType := 6
  const Wraith: UnitType := 7
  const DropShip: UnitType := 8
  const Valkyrie: UnitType := 9
  const ScienceVessel: UnitType := 10
  const Battlecruiser: UnitType := 11
  const Drone: UnitType := 12
  const Overlord: UnitType := 13
  const Zergling: UnitType := 14
  const Hydralisk: UnitType := 15
  const Lurker: UnitType := 16
  const Mutalisk: UnitType := 17
  const Guardian: UnitType := 18
  const Devourer: UnitType := 19
  const Queen: UnitType := 20
  const Ultralisk: UnitType := 21
  const Defiler: UnitType := 22
  const Probe: UnitType := 23
  const Zealot: UnitType := 24
  const Dragoon: UnitType := 25
  const Templar: UnitType := 26
  const DarkTemplar: UnitType := 27
  const Shuttle: UnitType := 28
  const Reaver: UnitType := 29
  const Observer: UnitType := 30
  const Corsair: UnitType := 31
  const Carrier: UnitType := 32
  const Arbiter: UnitType := 33
  /** The sentinel `unitTypeCount`. */
  const UnitTypeCount: UnitType := 34

  /** `unitTypeNames`, indexed by value, one race after another. */
  const UnitTypeNames: seq<string> := TerranNames + ZergNames + ProtossNames

  const TerranNames: seq<string> := [
    "SCV", "Marine", "Firebat", "Medic", "Vulture", "SiegeTank", "Goliath",
    "Wraith", "DropShip", "Valkyrie", "ScienceVessel", "Battlecruiser"
  ]

  const ZergNames: seq<string> := [
    "Drone", "Overlord", "Zergling", "Hydralisk", "Lurker", "Mutalisk",
    "Guardian", "Devourer", "Queen", "Ultralisk", "Defiler"
  ]

  const ProtossNames: seq<string> := [
    "Probe", "Zealot", "Dragoon", "Templar", "DarkTemplar", "Shuttle",
    "Reaver", "Observer", "Corsair", "Carrier", "Arbiter"
  ]

  lemma RaceNamesDistinct()
    ensures DistinctNames(TerranNames) && DistinctNames(ZergNames) && DistinctNames(ProtossNames)
  {
  }

  lemma RaceNamesDisjoint()
    ensures DisjointNames(TerranNames, ZergNames)
    ensures DisjointNames(TerranNames, ProtossNames) && DisjointNames(ZergNames, ProtossNames)
  {
  }

  lemma RaceNamesNoParenthesis()
    ensures NoParenthesis(TerranNames) && NoParenthesis(ZergNames) && NoParenthesis(ProtossNames)
  {
    TerranNoParenthesis();
    ZergNoParenthesis();
    ProtossNoParenthesis();
  }

  lemma TerranNoParenthesis() ensures NoParenthesis(TerranNames) { }
  lemma ZergNoParenthesis() ensures NoParenthesis(ZergNames) { }
  lemma ProtossNoParenthesis() ensures NoParenthesis(ProtossNames) { }

  lemma UnitTypeNamesWellFormed()
    ensures |UnitTypeNames| == UnitTypeCount as int
    ensures DistinctNames(UnitTypeNames) && NoParenthesis(UnitTypeNames)
  {
    RaceNamesDistinct();
    RaceNamesDisjoint();
    RaceNamesNoParenthesis();
    DistinctConcat(TerranNames, ZergNames);
    DisjointConcat(TerranNames, ZergNames, ProtossNames);
    DistinctConcat(TerranNames + ZergNames, ProtossNames);
    forall i | 0 <= i < |UnitTypeNames|
      ensures '(' !in UnitTypeNames[i]
    {
      var tz := TerranNames + ZergNames;
      if i < |TerranNames| {
        assert UnitTypeNames[i] == TerranNames[i];
      } else if i < |tz| {
        assert UnitTypeNames[i] == ZergNames[i - |TerranNames|];
      } else {
        assert UnitTypeNames[i] == ProtossNames[i - |tz|];
      }
    }
  }

  /** A value is valid exactly when `String` finds it in the name table. */
  lemma UnitTypeValidIffNamed(t: UnitType)
    ensures t.IsValid() <==> t.String() in UnitTypeNames
    ensures t.IsValid() ==> t.String() == UnitTypeNames[t]
    ensures !t.IsValid() ==> t.String() == "UnitType(" + Decimal.Format(t as int) + ")"
  {
    UnitTypeNamesWellFormed();
    EnumStringNamed(UnitTypeNames, "UnitType", t as int);
  }

  // ---------------------------------------------------------------------
  // UnitState
  // ---------------------------------------------------------------------

  newtype UnitState = int {
    /** `us >= Idle && us < unitStateCount`. */
    predicate IsValid() {
      Idle <= this < UnitStateCount
    }

    function String(): string {
      EnumString(UnitStateNames, "UnitState", this as int)
    }
  }

  const Idle: UnitState := 0
  const Moving: UnitState := 1
  const Attacking: UnitState := 2
  const Defending: UnitState := 3
  const HoldingPosition: UnitState := 4
  const Patrolling: UnitState := 5
  const Repairing: UnitState := 6
  const Building: UnitState := 7
  const Dead: UnitState := 8
  /** The sentinel `unitStateCount`. */
  const UnitStateCount: UnitState := 9

  const UnitStateNames: seq<string> := [
    "Idle", "Moving", "Attacking", "Defending", "HoldingPosition",
    "Patrolling", "Repairing", "Building", "Dead"
  ]

  lemma UnitStateNamesWellFormed()
    ensures |UnitStateNames| == UnitStateCount as int
    ensures DistinctNames(UnitStateNames) && NoParenthesis(UnitStateNames)
  {
  }

  lemma UnitStateValidIffNamed(s: UnitState)
    ensures s.IsValid() <==> s.String() in UnitStateNames
    ensures s.IsValid() ==> s.String() == UnitStateNames[s]
    ensures !s.IsValid() ==> s.String() == "UnitState(" + Decimal.Format(s as int) + ")"
  {
    UnitStateNamesWellFormed();
    EnumStringNamed(UnitStateNames, "UnitState", s as int);
  }

  lemma UnitTypeStringInjective(a: UnitType, b: UnitType)
    ensures a.String() == b.String() ==> a == b
  {
    UnitTypeNamesWellFormed();
    EnumStringInjective(UnitTypeNames, "UnitType", a as int, b as int);
  }

  lemma UnitStateStringInjective(a: UnitState, b: UnitState)
    ensures a.String() == b.String() ==> a == b
  {
    UnitStateNamesWellFormed();
    EnumStringInjective(UnitStateNames, "UnitState", a as int, b as int);
  }

  /** The cases of the enum unit tests. */
  lemma EnumExamples()
    ensures Marine.String() == "Marine" && Zergling.String() == "Zergling" && Zealot.String() == "Zealot"
    ensures (999 as UnitType).String() == "UnitType(999)"
    ensures SCV.IsValid() && Marine.IsValid() && Arbiter.IsValid()
    ensures !(-1 as UnitType).IsValid() && !(999 as UnitType).IsValid() && !UnitTypeCount.IsValid()
    ensures Idle.String() == "Idle" && Moving.String() == "Moving"
    ensures Attacking.String() == "Attacking" && Dead.String() == "Dead"
    ensures (999 as UnitState).String() == "UnitState(999)"
    ensures Idle.IsValid() && Dead.IsValid()
    ensures !(-1 as UnitState).IsValid() && !(999 as UnitState).IsValid() && !UnitStateCount.IsValid()
  {
  }

  /**
   * State-machine rule: Dead is terminal, so the only transition out of Dead
   * is to Dead itself; every other transition is allowed.
   */
  predicate CanTransition(from: UnitState, to: UnitState) {
    from != Dead || to == Dead
  }

  lemma DeadIsTerminal(to: UnitState)
    ensures CanTransition(Dead, to) <==> to == Dead
    ensures !CanTransition(Dead, Attacking)
  {
  }

  // ---------------------------------------------------------------------
  // Stats and damage rules
  // ---------------------------------------------------------------------

  datatype Stats = Stats(maxHealth: int, damage: int, armor: int)

  /** `initializeStats`'s `default` case. */
  const DefaultStats := Stats(50, 5, 0)

  /**
   * `initializeStats`: the per-type stat table, with a default for every
   * other type. Only the values the unit tests pin are filled in; the
   * Battlecruiser's 3 armor is pinned, its health and damage are the default.
   */
  function BaseStats(t: UnitType): (s: Stats)
    ensures s.maxHealth > 0 && s.damage >= 0 && s.armor >= 0
    ensures t !in {Marine, Zergling, Zealot, Battlecruiser} ==> s == DefaultStats
  {
    if t == Marine then Stats(40, 6, 0)
    else if t == Zergling then Stats(35, 5, 0)
    else if t == Zealot then Stats(100, 16, 1)
    else if t == Battlecruiser then DefaultStats.(armor := 3)
    else DefaultStats
  }

  /** Damage dealt after armor: `max(0, damage - armor)`, never negative. */
  function DamageAfterArmor(damage: int, armor: int): (r: nat)
    ensures r >= damage - armor
    ensures r == 0 || r == damage - armor
  {
    if damage > armor then damage - armor else 0
  }

  /** Health after one hit: subtract, clamp at 0. */
  function HealthAfter(health: int, amount: nat): (h: int)
    ensures h >= 0 && h >= health - amount
    ensures h == 0 || h == health - amount
    ensures health >= 0 ==> h <= health
  {
    if health - amount < 0 then 0 else health - amount
  }

  /** The damage pairings of the unit tests: Marine on Zergling, on Zealot, Probe on Battlecruiser. */
  lemma DamageExamples()
    ensures DamageAfterArmor(BaseStats(Marine).damage, BaseStats(Zergling).armor) == 6
    ensures DamageAfterArmor(BaseStats(Marine).damage, BaseStats(Zealot).armor) == 5
    ensures DamageAfterArmor(BaseStats(Probe).damage, BaseStats(Battlecruiser).armor) == 2
    ensures HealthAfter(BaseStats(Marine).maxHealth, 10) == 30
    ensures HealthAfter(BaseStats(Marine).maxHealth, 100) == 0
  {
  }

  function TotalDamage(amounts: seq<nat>): nat {
    if amounts == [] then 0 else amounts[0] + TotalDamage(amounts[1..])
  }

  /** Health after a sequence of `TakeDamage` calls, in order. */
  function HealthAfterAll(health: int, amounts: seq<nat>): int
    decreases |amounts|
  {
    if amounts == [] then health else HealthAfterAll(HealthAfter(health, amounts[0]), amounts[1..])
  }

  /**
   * Any sequence of hits on a unit with health in [0, maxHealth] leaves it
   * at `max(0, health - total)`: inside [0, maxHealth], and 0 stays 0.
   */
  lemma {:induction false} HealthAfterAllClamps(health: int, maxHealth: int, amounts: seq<nat>)
    requires 0 <= health <= maxHealth
    ensures HealthAfterAll(health, amounts) == HealthAfter(health, TotalDamage(amounts))
    ensures 0 <= HealthAfterAll(health, amounts) <= maxHealth
    ensures health == 0 ==> HealthAfterAll(health, amounts) == 0
    decreases |amounts|
  {
    if amounts != [] {
      HealthAfterAllClamps(HealthAfter(health, amounts[0]), maxHealth, amounts[1..]);
    }
  }

  // ---------------------------------------------------------------------
  // Commands and the inbox
  // ---------------------------------------------------------------------

  /** A coordinate pair; only its identity matters here. */
  type Position(==)

  datatype CommandType = CmdMove | CmdAttack | CmdStop | CmdHold

  datatype Command = Command(kind: CommandType, target: Unit?, dest: Position)

  /** Buffer size of the `commands` channel. */
  const InboxCapacity: nat := 10

  datatype SendError = ShuttingDown | Backpressure

  /** What `SendCommand` answers for a unit in the given lifecycle and inbox state. */
  function Admission(shutDown: bool, queued: nat): (r: Option<SendError>)
    ensures r == None <==> !shutDown && queued < InboxCapacity
    ensures shutDown ==> r == Some(ShuttingDown)
    ensures !shutDown && queued >= InboxCapacity ==> r == Some(Backpressure)
  {
    if shutDown then Some(ShuttingDown)
    else if queued >= InboxCapacity then Some(Backpressure)
    else None
  }

  // ---------------------------------------------------------------------
  // The unit
  // ---------------------------------------------------------------------

  class Unit {
    const id: string
    const kind: UnitType
    var health: int
    var maxHealth: int
    var damage: int
    var armor: int
    var state: UnitState
    var position: Position
    var target: Unit?
    /** Commands accepted but not yet handled, oldest first. */
    var commands: seq<Command>
    /** Set once the unit's context is cancelled. */
    var shutDown: bool

    ghost predicate Valid()
      reads this
    {
      0 <= health <= maxHealth && 0 <= damage && 0 <= armor && |commands| <= InboxCapacity
    }

    /** `NewUnit`: stats from the type table, Idle, at `pos`, no target, empty inbox. */
    constructor (id: string, kind: UnitType, pos: Position)
      ensures Valid()
      ensures this.id == id && this.kind == kind
      ensures maxHealth == BaseStats(kind).maxHealth && health == maxHealth
      ensures damage == BaseStats(kind).damage && armor == BaseStats(kind).armor
      ensures state == Idle && position == pos && target == null
      ensures commands == [] && !shutDown
    {
      this.id := id;
      this.kind := kind;
      var stats := BaseStats(kind);
      maxHealth := stats.maxHealth;
      health := stats.maxHealth;
      damage := stats.damage;
      armor := stats.armor;
      state := Idle;
      position := pos;
      target := null;
      commands := [];
      shutDown := false;
    }

    method SetState(s: UnitState)
      modifies this`state
      ensures state == s
    {
      state := s;
    }

    method SetPosition(p: Position)
      modifies this`position
      ensures position == p
    {
      position := p;
    }

    method SetTarget(t: Unit?)
      modifies this`target
      ensures target == t
    {
      target := t;
    }

    /** Subtracts `amount`, clamps at 0, and returns the new health. */
    method TakeDamage(amount: nat) returns (remaining: int)
      requires Valid()
      modifies this`health
      ensures Valid()
      ensures health == HealthAfter(old(health), amount) && remaining == health
    {
      health := health - amount;
      if health < 0 {
        health := 0;
      }
      remaining := health;
    }

    /** Reads both units and changes nothing. */
    function CalculateDamageAgainst(t: Unit): (r: int)
      reads this, t
      ensures r >= 0 && r >= damage - t.armor
      ensures r == 0 || r == damage - t.armor
    {
      DamageAfterArmor(damage, t.armor)
    }

    /** Enqueues `cmd` unless the unit is shut down or its inbox is full. */
    method SendCommand(cmd: Command) returns (err: Option<SendError>)
      requires Valid()
      modifies this`commands
      ensures Valid()
      ensures err == Admission(shutDown, |old(commands)|)
      ensures commands == if err == None then old(commands) + [cmd] else old(commands)
    {
      if shutDown {
        err := Some(ShuttingDown);
      } else if |commands| >= InboxCapacity {
        err := Some(Backpressure);
      } else {
        commands := commands + [cmd];
        err := None;
      }
    }

    /** Cancels the unit's lifecycle; calling it again changes nothing. */
    method Shutdown()
      modifies this`shutDown
      ensures shutDown
    {
      shutDown := true;
    }

    /** `Die`: the unit enters the terminal Dead state and shuts down. */
    method Die()
      modifies this`state, this`shutDown
      ensures state == Dead && shutDown
    {
      state := Dead;
      shutDown := true;
    }

    /**
     * The effect of handling `cmd`: nothing for a Dead unit; otherwise Move
     * goes to Moving at the destination, Attack on a live target goes to
     * Attacking, records the target and hurts it (a nil or Dead target is
     * ignored), Stop goes to Idle and clears the target, Hold goes to
     * HoldingPosition and keeps the target.
     */
    twostate predicate Handled(cmd: Command)
      reads this, cmd.target
    {
      var t := cmd.target;
      if old(state) == Dead || (cmd.kind == CmdAttack && (t == null || old(t.state) == Dead)) then
        state == old(state) && position == old(position) && target == old(target)
        && (t != null ==> t.health == old(t.health))
      else
        match cmd.kind
        case CmdMove =>
          state == Moving && position == cmd.dest && target == old(target)
          && (t != null ==> t.health == old(t.health))
        case CmdAttack =>
          state == Attacking && position == old(position) && target == t
          && t.health == HealthAfter(old(t.health), DamageAfterArmor(damage, t.armor))
        case CmdStop =>
          state == Idle && position == old(position) && target == null
          && (t != null ==> t.health == old(t.health))
        case CmdHold =>
          state == HoldingPosition && position == old(position) && target == old(target)
          && (t != null ==> t.health == old(t.health))
    }

    /** The handler switch of the unit's run loop. */
    method Handle(cmd: Command)
      requires Valid() && (cmd.target != null ==> cmd.target.Valid())
      modifies this`state, this`position, this`target
      modifies (if cmd.kind == CmdAttack && cmd.target != null then {cmd.target} else {})`health
      ensures Valid() && (cmd.target != null ==> cmd.target.Valid())
      ensures Handled(cmd)
      ensures CanTransition(old(state), state)
    {
      if state == Dead {
        return;
      }
      match cmd.kind
      case CmdMove =>
        state := Moving;
        position := cmd.dest;
      case CmdAttack =>
        var t := cmd.target;
        if t != null && t.state != Dead {
          state := Attacking;
          target := t;
          var dmg := CalculateDamageAgainst(t);
          var _ := t.TakeDamage(dmg);
        }
      case CmdStop =>
        state := Idle;
        target := null;
      case CmdHold =>
        state := HoldingPosition;
    }

    /** One iteration of the run loop: take the oldest command and handle it. */
    method ProcessNext() returns (handled: bool)
      requires Valid()
      requires forall c :: c in commands && c.target != null ==> c.target.Valid()
      modifies this`state, this`position, this`target, this`commands
      modifies (if commands != [] && commands[0].kind == CmdAttack && commands[0].target != null
        then {commands[0].target} else {})`health
      ensures Valid()
      ensures forall c :: c in old(commands) && c.target != null ==> c.target.Valid()
      ensures handled <==> !shutDown && old(commands) != []
      ensures !handled ==> unchanged(this)
      ensures handled ==> commands == old(commands)[1..] && Handled(old(commands)[0])
    {
      if shutDown || commands == [] {
        return false;
      }
      var cmd := commands[0];
      commands := commands[1..];
      Handle(cmd);
      handled := true;
    }
  }

  /**
   * The handler unit tests, restated against the model: Move, Attack on a live
   * target, Stop after an attack, and Hold.
   */
  method HandlerScenarios(origin: Position, dest: Position)
  {
    var marine := new Unit("marine", Marine, origin);
    var zergling := new Unit("zergling", Zergling, origin);

    marine.Handle(Command(CmdMove, null, dest));
    assert marine.state == Moving && marine.position == dest;

    marine.Handle(Command(CmdAttack, zergling, origin));
    assert marine.state == Attacking && marine.target == zergling;
    assert zergling.health == 29;

    marine.Handle(Command(CmdStop, null, origin));
    assert marine.state == Idle && marine.target == null;

    marine.Handle(Command(CmdHold, null, origin));
    assert marine.state == HoldingPosition;
  }

  /** An Attack without a target leaves the unit out of the attacking state. */
  method NilAttackScenario(origin: Position)
  {
    var idle := new Unit("idle", Marine, origin);
    idle.Handle(Command(CmdAttack, null, origin));
    assert idle.state != Attacking && idle.target == null;
  }

  /** The inbox refuses with backpressure once full, and after shutdown. */
  method InboxScenario(origin: Position)
  {
    var idle := new Unit("idle", Marine, origin);
    var i := 0;
    while i < InboxCapacity
      invariant 0 <= i <= InboxCapacity
      invariant idle.Valid() && |idle.commands| == i && !idle.shutDown
    {
      var err := idle.SendCommand(Command(CmdStop, null, origin));
      assert err == None;
      i := i + 1;
    }
    var full := idle.SendCommand(Command(CmdStop, null, origin));
    assert full == Some(Backpressure);
    idle.Shutdown();
    idle.Shutdown();
    var closed := idle.SendCommand(Command(CmdStop, null, origin));
    assert closed == Some(ShuttingDown);
  }

  /**
   * The run loop over several steps: two queued attacks on one Zergling hit
   * it twice, and a queued move leaves it alone.
   */
  method RunLoopScenario(origin: Position, dest: Position)
  {
    var marine := new Unit("marine", Marine, origin);
    var zergling := new Unit("zergling", Zergling, origin);
    var e1 := marine.SendCommand(Command(CmdAttack, zergling, origin));
    var e2 := marine.SendCommand(Command(CmdAttack, zergling, origin));
    var e3 := marine.SendCommand(Command(CmdMove, zergling, dest));
    assert e1 == None && e2 == None && e3 == None;

    var h1 := marine.ProcessNext();
    assert zergling.health == 29;
    var h2 := marine.ProcessNext();
    assert zergling.health == 23;
    var h3 := marine.ProcessNext();
    assert h1 && h2 && h3;
    assert zergling.health == 23 && zergling.state == Idle;
    assert marine.state == Moving && marine.position == dest && marine.commands == [];
  }
}
