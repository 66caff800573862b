/**
 * The resource ledger of internal/resources/manager.go: named counters with a
 * capacity, changed by all-or-nothing transactions of signed deltas
 * (positive adds, negative consumes), reservations that hold capacity until
 * they are released, consumed or swept after expiry, and an audit log of
 * executed transactions. Time is an integer clock passed in by the caller.
 */
module Resources {
  import opened Wrappers

  /** One named counter: `reserved` of `current` is held by open reservations. */
  datatype Entry = Entry(current: int, maximum: int, reserved: int) {
    predicate Ok() {
      0 <= reserved <= current <= maximum
    }

    function Available(): int {
      current - reserved
    }
  }

  type Ledger = map<string, Entry>

  predicate LedgerOk(l: Ledger) {
    forall n :: n in l ==> l[n].Ok()
  }

  datatype TransactionType = Allocate | Reserve | Release | Transfer | Batch

  /** A transaction; `deltas` maps resource names to signed changes. */
  datatype Transaction = Transaction(
    id: nat,
    kind: TransactionType,
    deltas: map<string, int>,
    timeout: int,
    priority: int,
    requester: string)

  datatype TxError =
    | InvalidTimeout
    | UnknownResources(unknown: set<string>)
    | ReserveAddsResources(adding: set<string>)
    | Insufficient(short: set<string>)

  datatype TransactionResult = TransactionResult(
    success: bool,
    error: Option<TxError>,
    allocatedResources: map<string, int>,
    reservationId: Option<nat>)

  /** An open reservation: what it holds of each resource and when it lapses. */
  datatype PendingTransaction = PendingTransaction(
    tx: Transaction,
    startTime: int,
    held: map<string, nat>,
    expiresAt: int)

  datatype AllocationRecord = AllocationRecord(
    timestamp: int,
    requester: string,
    deltas: map<string, int>,
    success: bool,
    remaining: map<string, int>)

  datatype LedgerError =
    | EmptyName
    | NonPositiveAmount
    | InitialAboveMaximum
    | AlreadyRegistered(name: string)
    | ReservationNotFound(id: nat)

  // ---------------------------------------------------------------------
  // Validation and the effect of a transaction, as functions of the ledger
  // ---------------------------------------------------------------------

  /** `validateTransaction`: a non-negative timeout, known names, and a Reserve may only take. */
  function Validate(l: Ledger, tx: Transaction): (r: Option<TxError>)
    ensures r == None <==>
      tx.timeout >= 0
      && (forall n :: n in tx.deltas ==> n in l)
      && (tx.kind == Reserve ==> forall n :: n in tx.deltas ==> tx.deltas[n] <= 0)
    ensures r.Some? && r.value.UnknownResources? ==>
      r.value.unknown != {} && forall n :: n in r.value.unknown ==> n in tx.deltas && n !in l
  {
    if tx.timeout < 0 then Some(InvalidTimeout)
    else
      var unknown := set n | n in tx.deltas && n !in l;
      assert forall n :: n in tx.deltas && n !in l ==> n in unknown;
      if unknown != {} then
        assert exists n :: n in unknown;
        Some(UnknownResources(unknown))
      else if tx.kind == Reserve then
        var adding := set n | n in tx.deltas && tx.deltas[n] > 0;
        assert forall n :: n in tx.deltas && tx.deltas[n] > 0 ==> n in adding;
        if adding != {} then
          assert exists n :: n in adding;
          Some(ReserveAddsResources(adding))
        else None
      else None
  }

  /**
   * Whether one delta can be met by one entry: a reservation of `-d` needs
   * that much unreserved; any other change must keep the amount between
   * what is reserved and the maximum.
   */
  predicate Fits(e: Entry, d: int, kind: TransactionType) {
    if kind == Reserve then e.reserved - d <= e.current
    else e.reserved <= e.current + d <= e.maximum
  }

  /** The full admission check of `executeTransaction`: validation, then every delta fits. */
  function Check(l: Ledger, tx: Transaction): (r: Option<TxError>)
    ensures r == None <==>
      Validate(l, tx) == None && forall n :: n in tx.deltas ==> n in l && Fits(l[n], tx.deltas[n], tx.kind)
    ensures r.Some? && r.value.Insufficient? ==>
      r.value.short != {} && forall n :: n in r.value.short ==> n in l && n in tx.deltas && !Fits(l[n], tx.deltas[n], tx.kind)
  {
    var v := Validate(l, tx);
    if v.Some? then v
    else
      var short := set n | n in tx.deltas && !Fits(l[n], tx.deltas[n], tx.kind);
      assert forall n :: n in tx.deltas && !Fits(l[n], tx.deltas[n], tx.kind) ==> n in short;
      if short != {} then
        assert exists n :: n in short;
        Some(Insufficient(short))
      else None
  }

  /** Every delta added to `current`. */
  function Applied(l: Ledger, deltas: map<string, int>): Ledger {
    map n | n in l :: if n in deltas then l[n].(current := l[n].current + deltas[n]) else l[n]
  }

  /** What a Reserve of these (non-positive) deltas holds. */
  function Holds(deltas: map<string, int>): map<string, nat> {
    map n | n in deltas :: if deltas[n] <= 0 then -deltas[n] else 0
  }

  function HeldOf(h: map<string, nat>, n: string): nat {
    if n in h then h[n] else 0
  }

  /** Holding: `reserved` grows, `current` stays. */
  function Hold(l: Ledger, h: map<string, nat>): Ledger {
    map n | n in l :: l[n].(reserved := l[n].reserved + HeldOf(h, n))
  }

  /** Releasing: `reserved` shrinks, `current` stays. */
  function Unhold(l: Ledger, h: map<string, nat>): Ledger {
    map n | n in l :: l[n].(reserved := l[n].reserved - HeldOf(h, n))
  }

  /** Consuming: both `reserved` and `current` shrink. */
  function Consume(l: Ledger, h: map<string, nat>): Ledger {
    map n | n in l :: l[n].(current := l[n].current - HeldOf(h, n), reserved := l[n].reserved - HeldOf(h, n))
  }

  /** The current amount of every resource. */
  function Levels(l: Ledger): map<string, int> {
    map n | n in l :: l[n].current
  }

  /** The deltas of `TransferResources`: take `amount` from `from`, add it to `to`. */
  function TransferDeltas(from: string, to: string, amount: int): map<string, int> {
    if from == to then map[from := 0] else map[from := -amount, to := amount]
  }

  predicate Expired(p: PendingTransaction, now: int) {
    p.expiresAt < now
  }

  function Unexpired(pending: map<nat, PendingTransaction>, now: int): map<nat, PendingTransaction> {
    map id | id in pending && !Expired(pending[id], now) :: pending[id]
  }

  // ---------------------------------------------------------------------
  // Properties of transactions
  // ---------------------------------------------------------------------

  /**
   * An admitted non-Reserve transaction keeps every entry within
   * `reserved <= current <= maximum`, adds each delta to its resource and
   * leaves the reservations and every unlisted resource alone.
   */
  lemma AppliedKeepsLedgerOk(l: Ledger, tx: Transaction)
    requires LedgerOk(l) && tx.kind != Reserve && Check(l, tx) == None
    ensures LedgerOk(Applied(l, tx.deltas))
    ensures Applied(l, tx.deltas).Keys == l.Keys
    ensures forall n :: n in l ==>
      Applied(l, tx.deltas)[n].reserved == l[n].reserved
      && Applied(l, tx.deltas)[n].maximum == l[n].maximum
      && Applied(l, tx.deltas)[n].current == l[n].current + (if n in tx.deltas then tx.deltas[n] else 0)
  {
  }

  /** An admitted Reserve holds exactly the requested amounts and keeps every entry in bounds. */
  lemma HoldKeepsLedgerOk(l: Ledger, tx: Transaction)
    requires LedgerOk(l) && tx.kind == Reserve && Check(l, tx) == None
    ensures LedgerOk(Hold(l, Holds(tx.deltas)))
    ensures forall n :: n in l ==>
      Hold(l, Holds(tx.deltas))[n].current == l[n].current
      && Hold(l, Holds(tx.deltas))[n].reserved == l[n].reserved - (if n in tx.deltas then tx.deltas[n] else 0)
  {
  }

  /** A reservation is admitted exactly when the same deltas would be admitted as an allocation. */
  lemma ReserveAdmittedIffAllocateAdmitted(l: Ledger, tx: Transaction)
    requires LedgerOk(l) && tx.kind == Reserve
    requires forall n :: n in tx.deltas ==> tx.deltas[n] <= 0
    ensures Check(l, tx) == None <==> Check(l, tx.(kind := Allocate)) == None
  {
  }

  /** Capacity held by a reservation is not available to anyone else. */
  lemma HoldingNarrowsAdmission(l: Ledger, h: map<string, nat>, tx: Transaction)
    requires LedgerOk(l)
    ensures Check(Hold(l, h), tx) == None ==> Check(l, tx) == None
    ensures forall n :: n in l ==> Hold(l, h)[n].Available() == l[n].Available() - HeldOf(h, n)
  {
    if Check(Hold(l, h), tx) == None {
      forall n | n in tx.deltas
        ensures n in l && Fits(l[n], tx.deltas[n], tx.kind)
      {
        assert Fits(Hold(l, h)[n], tx.deltas[n], tx.kind);
      }
    }
  }

  /** Reserving and then consuming has the same effect as allocating at once. */
  lemma ReserveThenConsumeIsAllocate(l: Ledger, deltas: map<string, int>)
    requires forall n :: n in deltas ==> deltas[n] <= 0
    ensures Consume(Hold(l, Holds(deltas)), Holds(deltas)) == Applied(l, deltas)
  {
    var h := Holds(deltas);
    var lhs, rhs := Consume(Hold(l, h), h), Applied(l, deltas);
    forall n | n in l
      ensures lhs[n] == rhs[n]
    {
      if n in deltas {
        assert HeldOf(h, n) == -deltas[n];
      }
    }
  }

  /** Reserving and then releasing changes nothing. */
  lemma ReserveThenReleaseRestores(l: Ledger, h: map<string, nat>)
    ensures Unhold(Hold(l, h), h) == l
  {
    var lhs := Unhold(Hold(l, h), h);
    assert forall n :: n in l ==> lhs[n] == l[n];
  }

  /** A transfer takes from one resource what it gives the other; their total is unchanged. */
  lemma TransferConserves(l: Ledger, from: string, to: string, amount: int)
    requires from in l && to in l && from != to
    ensures Applied(l, TransferDeltas(from, to, amount))[from].current == l[from].current - amount
    ensures Applied(l, TransferDeltas(from, to, amount))[to].current == l[to].current + amount
    ensures forall n :: n in l && n != from && n != to ==> Applied(l, TransferDeltas(from, to, amount))[n] == l[n]
  {
  }

  /** A transfer to the resource it comes from changes nothing. */
  lemma TransferToSelfIsIdentity(l: Ledger, from: string, amount: int)
    ensures Applied(l, TransferDeltas(from, from, amount)) == l
  {
    var r := Applied(l, TransferDeltas(from, from, amount));
    assert forall n :: n in l ==> r[n] == l[n];
  }

  /**
   * With 100 of 1000 minerals, holding 50 makes a draw of 80 fail for want
   * of minerals; releasing the hold lets the same draw through, leaving 20.
   */
  lemma ReservationBlocksUntilReleased()
    ensures var l := map["minerals" := Entry(100, 1000, 0)];
      var h: map<string, nat> := map["minerals" := 50];
      var draw := Transaction(1, Allocate, map["minerals" := -80], 5, 0, "army");
      Check(Hold(l, h), draw) == Some(Insufficient({"minerals"}))
      && Check(Unhold(Hold(l, h), h), draw) == None
      && Applied(Unhold(Hold(l, h), h), draw.deltas)["minerals"].current == 20
  {
    var l := map["minerals" := Entry(100, 1000, 0)];
    var h: map<string, nat> := map["minerals" := 50];
    var draw := Transaction(1, Allocate, map["minerals" := -80], 5, 0, "army");
    assert Hold(l, h)["minerals"] == Entry(100, 1000, 50);
    assert !Fits(Hold(l, h)["minerals"], -80, Allocate);
    assert (set n | n in draw.deltas && !Fits(Hold(l, h)[n], draw.deltas[n], draw.kind)) == {"minerals"};
    ReserveThenReleaseRestores(l, h);
  }

  // ---------------------------------------------------------------------
  // What the open reservations hold
  // ---------------------------------------------------------------------

  /** The total amount of `n` held by open reservations. */
  ghost function HeldBy(pending: map<nat, PendingTransaction>, n: string): nat
    decreases |pending|
  {
    if pending == map[] then 0
    else
      var id :| id in pending;
      HeldOf(pending[id].held, n) + HeldBy(pending - {id}, n)
  }

  /** The total splits into any one reservation and the rest. */
  lemma {:induction false} HeldByRemove(pending: map<nat, PendingTransaction>, id: nat, n: string)
    requires id in pending
    ensures HeldBy(pending, n) == HeldOf(pending[id].held, n) + HeldBy(pending - {id}, n)
    decreases |pending|
  {
    var k :| k in pending && HeldBy(pending, n) == HeldOf(pending[k].held, n) + HeldBy(pending - {k}, n);
    if k != id {
      HeldByRemove(pending - {k}, id, n);
      HeldByRemove(pending - {id}, k, n);
      assert pending - {k} - {id} == pending - {id} - {k};
    }
  }

  lemma HeldByAdd(pending: map<nat, PendingTransaction>, id: nat, p: PendingTransaction, n: string)
    requires id !in pending
    ensures HeldBy(pending[id := p], n) == HeldOf(p.held, n) + HeldBy(pending, n)
  {
    HeldByRemove(pending[id := p], id, n);
    assert pending[id := p] - {id} == pending;
  }

  /** A resource no reservation mentions has nothing held. */
  lemma {:induction false} HeldByUnmentioned(pending: map<nat, PendingTransaction>, n: string)
    requires forall id :: id in pending ==> n !in pending[id].held
    ensures HeldBy(pending, n) == 0
    decreases |pending|
  {
    if pending != map[] {
      var k :| k in pending && HeldBy(pending, n) == HeldOf(pending[k].held, n) + HeldBy(pending - {k}, n);
      HeldByUnmentioned(pending - {k}, n);
      assert HeldOf(pending[k].held, n) == 0;
    }
  }

  // ---------------------------------------------------------------------
  // The manager
  // ---------------------------------------------------------------------

  class ResourceManager {
    var resources: Ledger
    /** Open reservations by ID. */
    var pendingTxs: map<nat, PendingTransaction>
    var allocationLog: seq<AllocationRecord>
    var lowThresholds: map<string, int>
    /** The next transaction ID; every issued ID is below it. */
    var nextTxId: nat

    ghost predicate Valid()
      reads this
    {
      LedgerOk(resources)
      && (forall n :: n in resources ==> resources[n].reserved == HeldBy(pendingTxs, n))
      && (forall id :: id in pendingTxs ==> id < nextTxId && pendingTxs[id].held.Keys <= resources.Keys)
      && lowThresholds.Keys == resources.Keys
    }

    /** An empty ledger with no reservations and an empty log. */
    constructor ()
      ensures Valid()
      ensures resources == map[] && pendingTxs == map[] && allocationLog == [] && lowThresholds == map[]
      ensures nextTxId == 0
    {
      resources := map[];
      pendingTxs := map[];
      allocationLog := [];
      lowThresholds := map[];
      nextTxId := 0;
    }

    /** Registers a resource with its initial amount, maximum and a 20% low threshold. */
    method AddResource(name: string, initial: int, maxCap: int) returns (err: Option<LedgerError>)
      requires Valid()
      modifies this`resources, this`lowThresholds
      ensures Valid()
      ensures err == None <==> name != "" && initial > 0 && maxCap > 0 && initial <= maxCap && name !in old(resources)
      ensures name == "" ==> err == Some(EmptyName)
      ensures name != "" && (initial <= 0 || maxCap <= 0) ==> err == Some(NonPositiveAmount)
      ensures name != "" && 0 < maxCap < initial ==> err == Some(InitialAboveMaximum)
      ensures name != "" && 0 < initial <= maxCap && name in old(resources) ==> err == Some(AlreadyRegistered(name))
      ensures err != None ==> resources == old(resources) && lowThresholds == old(lowThresholds)
      ensures err == None ==>
        resources == old(resources)[name := Entry(initial, maxCap, 0)]
        && lowThresholds == old(lowThresholds)[name := maxCap / 5]
    {
      if name == "" {
        return Some(EmptyName);
      }
      if initial <= 0 || maxCap <= 0 {
        return Some(NonPositiveAmount);
      }
      if initial > maxCap {
        return Some(InitialAboveMaximum);
      }
      if name in resources {
        return Some(AlreadyRegistered(name));
      }
      HeldByUnmentioned(pendingTxs, name);
      resources := resources[name := Entry(initial, maxCap, 0)];
      lowThresholds := lowThresholds[name := maxCap / 5];
      err := None;
    }

    /**
     * The effect of executing `tx` at time `now`: if the admission check
     * fails nothing but the log changes; otherwise a Reserve holds its
     * amounts under the transaction's ID until `now + timeout`, and any other
     * kind adds its deltas. Either way one record with the remaining levels
     * is logged.
     */
    twostate predicate Executed(tx: Transaction, now: int, result: TransactionResult)
      reads this
    {
      var err := Check(old(resources), tx);
      result.success == (err == None) && result.error == err
      && (err != None ==>
            resources == old(resources) && pendingTxs == old(pendingTxs)
            && result.allocatedResources == map[] && result.reservationId == None)
      && (err == None && tx.kind == Reserve ==>
            resources == Hold(old(resources), Holds(tx.deltas))
            && pendingTxs == old(pendingTxs)[tx.id := PendingTransaction(tx, now, Holds(tx.deltas), now + tx.timeout)]
            && result.allocatedResources == tx.deltas && result.reservationId == Some(tx.id))
      && (err == None && tx.kind != Reserve ==>
            resources == Applied(old(resources), tx.deltas) && pendingTxs == old(pendingTxs)
            && result.allocatedResources == tx.deltas && result.reservationId == None)
      && allocationLog == old(allocationLog) + [AllocationRecord(now, tx.requester, tx.deltas, result.success, Levels(resources))]
    }

    /** The reserve half of `executeTransaction` once the check has passed: hold the amounts and record the reservation. */
    method PlaceHold(tx: Transaction, now: int)
      requires Valid() && tx.id < nextTxId && tx.id !in pendingTxs
      requires Check(resources, tx) == None && tx.kind == Reserve
      modifies this`resources, this`pendingTxs
      ensures Valid()
      ensures resources == Hold(old(resources), Holds(tx.deltas))
      ensures pendingTxs == old(pendingTxs)[tx.id := PendingTransaction(tx, now, Holds(tx.deltas), now + tx.timeout)]
    {
      var h := Holds(tx.deltas);
      var p := PendingTransaction(tx, now, h, now + tx.timeout);
      HoldKeepsLedgerOk(resources, tx);
      forall n | n in resources
        ensures HeldBy(pendingTxs[tx.id := p], n) == HeldOf(h, n) + HeldBy(pendingTxs, n)
      {
        HeldByAdd(pendingTxs, tx.id, p, n);
      }
      resources := Hold(resources, h);
      pendingTxs := pendingTxs[tx.id := p];
    }

    /** The allocate/release half of `executeTransaction` once the check has passed. */
    method ApplyDeltas(tx: Transaction)
      requires Valid() && Check(resources, tx) == None && tx.kind != Reserve
      modifies this`resources
      ensures Valid()
      ensures resources == Applied(old(resources), tx.deltas)
    {
      AppliedKeepsLedgerOk(resources, tx);
      resources := Applied(resources, tx.deltas);
    }

    /** `executeTransaction`, all or nothing. */
    method ExecuteTransaction(tx: Transaction, now: int) returns (result: TransactionResult)
      requires Valid() && tx.id < nextTxId && tx.id !in pendingTxs
      modifies this`resources, this`pendingTxs, this`allocationLog
      ensures Valid()
      ensures Executed(tx, now, result)
    {
      var err := Check(resources, tx);
      if err.Some? {
        result := TransactionResult(false, err, map[], None);
      } else if tx.kind == Reserve {
        PlaceHold(tx, now);
        result := TransactionResult(true, None, tx.deltas, Some(tx.id));
      } else {
        ApplyDeltas(tx);
        result := TransactionResult(true, None, tx.deltas, None);
      }
      allocationLog := allocationLog + [AllocationRecord(now, tx.requester, tx.deltas, result.success, Levels(resources))];
    }

    /** Issues the next transaction ID. */
    method NewTransaction(kind: TransactionType, deltas: map<string, int>, timeout: int, requester: string)
      returns (tx: Transaction)
      requires Valid()
      modifies this`nextTxId
      ensures Valid()
      ensures tx == Transaction(old(nextTxId), kind, deltas, timeout, 0, requester)
      ensures nextTxId == old(nextTxId) + 1 && tx.id !in pendingTxs
    {
      tx := Transaction(nextTxId, kind, deltas, timeout, 0, requester);
      nextTxId := nextTxId + 1;
    }

    method AllocateResources(requester: string, deltas: map<string, int>, timeout: int, now: int)
      returns (result: TransactionResult)
      requires Valid()
      modifies this`resources, this`pendingTxs, this`allocationLog, this`nextTxId
      ensures Valid() && nextTxId == old(nextTxId) + 1
      ensures Executed(Transaction(old(nextTxId), Allocate, deltas, timeout, 0, requester), now, result)
    {
      var tx := NewTransaction(Allocate, deltas, timeout, requester);
      result := ExecuteTransaction(tx, now);
    }

    /** Holds `-deltas[n]` of each resource until `now + timeout`; the result carries the reservation ID. */
    method ReserveResources(requester: string, deltas: map<string, int>, timeout: int, now: int)
      returns (result: TransactionResult)
      requires Valid()
      modifies this`resources, this`pendingTxs, this`allocationLog, this`nextTxId
      ensures Valid() && nextTxId == old(nextTxId) + 1
      ensures Executed(Transaction(old(nextTxId), Reserve, deltas, timeout, 0, requester), now, result)
    {
      var tx := NewTransaction(Reserve, deltas, timeout, requester);
      result := ExecuteTransaction(tx, now);
    }

    /** Moves `amount` from resource `from` to resource `to` in one transaction. */
    method TransferResources(requester: string, from: string, to: string, amount: int, now: int)
      returns (result: TransactionResult)
      requires Valid()
      modifies this`resources, this`pendingTxs, this`allocationLog, this`nextTxId
      ensures Valid() && nextTxId == old(nextTxId) + 1
      ensures Executed(Transaction(old(nextTxId), Transfer, TransferDeltas(from, to, amount), 0, 0, requester), now, result)
    {
      var tx := NewTransaction(Transfer, TransferDeltas(from, to, amount), 0, requester);
      result := ExecuteTransaction(tx, now);
    }

    /** Returns an open reservation's amounts to availability and retires it. */
    method ReturnHold(id: nat)
      requires Valid() && id in pendingTxs
      modifies this`resources, this`pendingTxs
      ensures Valid()
      ensures resources == Unhold(old(resources), old(pendingTxs)[id].held)
      ensures pendingTxs == old(pendingTxs) - {id}
    {
      var h := pendingTxs[id].held;
      forall n | n in resources
        ensures HeldBy(pendingTxs, n) == HeldOf(h, n) + HeldBy(pendingTxs - {id}, n)
      {
        HeldByRemove(pendingTxs, id, n);
      }
      resources := Unhold(resources, h);
      pendingTxs := pendingTxs - {id};
    }

    /**
     * Makes a reservation's amounts available again and retires it. An ID
     * that was never issued, was already released or consumed, or has
     * expired by `now` is not found.
     */
    method ReleaseReservation(id: nat, now: int) returns (err: Option<LedgerError>)
      requires Valid()
      modifies this`resources, this`pendingTxs
      ensures Valid()
      ensures id !in old(pendingTxs) || Expired(old(pendingTxs)[id], now) ==>
        err == Some(ReservationNotFound(id)) && resources == old(resources) && pendingTxs == old(pendingTxs)
      ensures id in old(pendingTxs) && !Expired(old(pendingTxs)[id], now) ==>
        err == None
        && resources == Unhold(old(resources), old(pendingTxs)[id].held)
        && pendingTxs == old(pendingTxs) - {id}
    {
      if id !in pendingTxs || Expired(pendingTxs[id], now) {
        return Some(ReservationNotFound(id));
      }
      ReturnHold(id);
      err := None;
    }

    /**
     * Turns a reservation into an actual decrease of its amounts and retires
     * it. An ID that was never issued, was already released or consumed, or
     * has expired by `now` is not found.
     */
    method ConsumeReserved(id: nat, now: int) returns (err: Option<LedgerError>)
      requires Valid()
      modifies this`resources, this`pendingTxs
      ensures Valid()
      ensures id !in old(pendingTxs) || Expired(old(pendingTxs)[id], now) ==>
        err == Some(ReservationNotFound(id)) && resources == old(resources) && pendingTxs == old(pendingTxs)
      ensures id in old(pendingTxs) && !Expired(old(pendingTxs)[id], now) ==>
        err == None
        && resources == Consume(old(resources), old(pendingTxs)[id].held)
        && pendingTxs == old(pendingTxs) - {id}
    {
      if id !in pendingTxs || Expired(pendingTxs[id], now) {
        return Some(ReservationNotFound(id));
      }
      var h := pendingTxs[id].held;
      forall n | n in resources
        ensures HeldBy(pendingTxs, n) == HeldOf(h, n) + HeldBy(pendingTxs - {id}, n)
      {
        HeldByRemove(pendingTxs, id, n);
      }
      resources := Consume(resources, h);
      pendingTxs := pendingTxs - {id};
      err := None;
    }

    /**
     * Releases every reservation that expired before `now`; unexpired ones
     * and all current amounts and maxima are untouched.
     */
    method CleanupExpiredReservations(now: int)
      requires Valid()
      modifies this`resources, this`pendingTxs
      ensures Valid()
      ensures pendingTxs == Unexpired(old(pendingTxs), now)
      ensures resources.Keys == old(resources).Keys
      ensures forall n :: n in resources ==>
        resources[n].current == old(resources)[n].current && resources[n].maximum == old(resources)[n].maximum
    {
      var ids := pendingTxs.Keys;
      while ids != {}
        invariant Valid()
        invariant ids <= old(pendingTxs).Keys
        invariant pendingTxs == map id | id in old(pendingTxs) && (id in ids || !Expired(old(pendingTxs)[id], now)) :: old(pendingTxs)[id]
        invariant resources.Keys == old(resources).Keys
        invariant forall n :: n in resources ==>
          resources[n].current == old(resources)[n].current && resources[n].maximum == old(resources)[n].maximum
        decreases |ids|
      {
        var id :| id in ids;
        if Expired(pendingTxs[id], now) {
          ReturnHold(id);
        }
        ids := ids - {id};
      }
    }

    /** A fresh map of every resource's current amount. */
    method GetResourceLevels() returns (levels: map<string, int>)
      ensures levels == Levels(resources)
    {
      levels := map[];
      var rest := resources.Keys;
      while rest != {}
        invariant rest <= resources.Keys
        invariant levels.Keys == resources.Keys - rest
        invariant forall n :: n in levels ==> levels[n] == resources[n].current
        decreases |rest|
      {
        var n :| n in rest;
        levels := levels[n := resources[n].current];
        rest := rest - {n};
      }
    }
  }
}
