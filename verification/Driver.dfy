/** The driver aggregate: capacity, held orders and status. */
module Drivers {
  import opened Prelude
  import opened Messages

  datatype DriverStatus = Available | Reserved | Offline

  datatype DriverError =
    | IsOffline | NoRemainingCapacity | HasActiveReservations | DisplayNameRequired | CapacityNotPositive

  datatype DriverRow = DriverRow(capacity: int, reservedOrderIds: seq<OrderId>, status: DriverStatus, createdAt: int)

  predicate NoDuplicates<T(==)>(s: seq<T>) {
    forall i, j :: 0 <= i < j < |s| ==> s[i] != s[j]
  }

  /** The held orders are distinct and within capacity, and the status tells whether any capacity is left. */
  predicate ValidRow(r: DriverRow) {
    && 1 <= r.capacity && |r.reservedOrderIds| <= r.capacity
    && NoDuplicates(r.reservedOrderIds)
    && (r.status.Reserved? <==> |r.reservedOrderIds| == r.capacity)
    && (r.status.Offline? ==> r.reservedOrderIds == [])
  }

  function IndexOf<T(==)>(s: seq<T>, x: T): (r: int)
    ensures -1 <= r < |s|
    ensures r < 0 <==> x !in s
    ensures r >= 0 ==> s[r] == x && x !in s[..r]
  {
    if s == [] then -1
    else if s[0] == x then 0
    else
      var rest := IndexOf(s[1..], x);
      if rest < 0 then -1 else
        assert s[..rest + 1] == [s[0]] + s[1..][..rest];
        rest + 1
  }

  function Removed<T(==)>(s: seq<T>, x: T): seq<T> {
    var i := IndexOf(s, x);
    if i < 0 then s else s[..i] + s[i + 1..]
  }

  function ReservedRow(r: DriverRow, o: OrderId): Result<DriverRow, DriverError> {
    if r.status.Offline? then Failure(IsOffline)
    else if o in r.reservedOrderIds then Success(r)
    else if |r.reservedOrderIds| >= r.capacity then Failure(NoRemainingCapacity)
    else
      var held := r.reservedOrderIds + [o];
      Success(r.(reservedOrderIds := held, status := if |held| >= r.capacity then Reserved else Available))
  }

  function ReleasedRow(r: DriverRow, o: OrderId): DriverRow {
    if o !in r.reservedOrderIds then r
    else r.(reservedOrderIds := Removed(r.reservedOrderIds, o), status := Available)
  }

  /** Manual availability changes are refused while orders are held. */
  function SwitchedRow(r: DriverRow, status: DriverStatus): Result<DriverRow, DriverError> {
    if |r.reservedOrderIds| > 0 then Failure(HasActiveReservations) else Success(r.(status := status))
  }

  class Driver {
    const capacity: int
    const createdAt: int
    var reservedOrderIds: seq<OrderId>
    var status: DriverStatus

    ghost function View(): DriverRow
      reads this
    {
      DriverRow(capacity, reservedOrderIds, status, createdAt)
    }

    constructor Rehydrate(row: DriverRow)
      ensures View() == row
    {
      capacity, createdAt := row.capacity, row.createdAt;
      reservedOrderIds, status := row.reservedOrderIds, row.status;
    }

    /** A driver needs a display name, which is not kept here, and an integer capacity of at least one. */
    static method Create(displayName: string, capacity: real, now: int) returns (r: Result<Driver, DriverError>)
      ensures r.Success? <==> !Blank(displayName) && capacity == capacity.Floor as real && capacity >= 1.0
      ensures r.Success? ==> fresh(r.value) && r.value.View() == DriverRow(capacity.Floor, [], Available, now)
      ensures r.Success? ==> ValidRow(r.value.View())
      ensures r.Failure? ==> r.error == if Blank(displayName) then DisplayNameRequired else CapacityNotPositive
    {
      if Blank(displayName) { return Failure(DisplayNameRequired); }
      if capacity != capacity.Floor as real || capacity < 1.0 { return Failure(CapacityNotPositive); }
      var driver := new Driver.Rehydrate(DriverRow(capacity.Floor, [], Available, now));
      r := Success(driver);
    }

    method Reserve(orderId: OrderId) returns (error: Option<DriverError>)
      modifies this`reservedOrderIds, this`status
      ensures ReservedRow(old(View()), orderId) == if error.Some? then Failure(error.value) else Success(View())
      ensures error.Some? ==> View() == old(View())
    {
      if status.Offline? { return Some(IsOffline); }
      if orderId in reservedOrderIds { return None; }
      if |reservedOrderIds| >= capacity { return Some(NoRemainingCapacity); }
      reservedOrderIds := reservedOrderIds + [orderId];
      status := if |reservedOrderIds| >= capacity then Reserved else Available;
      error := None;
    }

    method Release(orderId: OrderId)
      modifies this`reservedOrderIds, this`status
      ensures View() == ReleasedRow(old(View()), orderId)
    {
      var index := IndexOf(reservedOrderIds, orderId);
      if index < 0 { return; }
      reservedOrderIds := reservedOrderIds[..index] + reservedOrderIds[index + 1..];
      status := Available;
    }

    method SetOffline() returns (error: Option<DriverError>)
      modifies this`status
      ensures SwitchedRow(old(View()), Offline) == if error.Some? then Failure(error.value) else Success(View())
      ensures error.Some? ==> View() == old(View())
    {
      if |reservedOrderIds| > 0 { return Some(HasActiveReservations); }
      status := Offline;
      error := None;
    }

    method SetAvailable() returns (error: Option<DriverError>)
      modifies this`status
      ensures SwitchedRow(old(View()), Available) == if error.Some? then Failure(error.value) else Success(View())
      ensures error.Some? ==> View() == old(View())
    {
      if |reservedOrderIds| > 0 { return Some(HasActiveReservations); }
      status := Available;
      error := None;
    }
  }

  lemma RemovedExactly<T>(s: seq<T>, x: T)
    requires NoDuplicates(s)
    ensures NoDuplicates(Removed(s, x))
    ensures forall y :: y in Removed(s, x) <==> y in s && y != x
    ensures |Removed(s, x)| == if x in s then |s| - 1 else |s|
  {
    var i := IndexOf(s, x);
    if i >= 0 {
      assert s == s[..i] + [s[i]] + s[i + 1..];
    }
  }

  /**
   * Reserving keeps the row valid. A new order is added last, and then the driver is RESERVED exactly when full; an
   * order already held changes nothing; an offline driver and a full one refuse, each with its own error.
   */
  lemma ReservedRowValid(r: DriverRow, o: OrderId)
    requires ValidRow(r)
    ensures
      var result := ReservedRow(r, o);
      && (result.Success? ==> ValidRow(result.value))
      && (result.Success? ==> forall x :: x in result.value.reservedOrderIds <==> x in r.reservedOrderIds || x == o)
      && (r.status.Available? ==> result.Success?)
      && (o !in r.reservedOrderIds ==> (result.Success? <==> r.status.Available?))
      && (result == Failure(IsOffline) <==> r.status.Offline?)
      && (result == Failure(NoRemainingCapacity) <==> r.status.Reserved? && o !in r.reservedOrderIds)
      && (o in r.reservedOrderIds ==> result == Success(r))
      && (result.Success? ==> result.value.capacity == r.capacity && result.value.createdAt == r.createdAt)
      && (result.Success? && o !in r.reservedOrderIds ==>
            && |result.value.reservedOrderIds| == |r.reservedOrderIds| + 1
            && result.value.reservedOrderIds[|r.reservedOrderIds|] == o
            && forall k :: 0 <= k < |r.reservedOrderIds| ==> result.value.reservedOrderIds[k] == r.reservedOrderIds[k])
  {
  }

  /**
   * Releasing keeps the row valid and removes exactly that order, the others keeping their places, and makes the
   * driver AVAILABLE; a driver that does not hold the order is left as it is.
   */
  lemma ReleasedRowValid(r: DriverRow, o: OrderId)
    requires ValidRow(r)
    ensures
      var result := ReleasedRow(r, o);
      && ValidRow(result)
      && (forall x :: x in result.reservedOrderIds <==> x in r.reservedOrderIds && x != o)
      && (o !in r.reservedOrderIds ==> result == r)
      && result.capacity == r.capacity && result.createdAt == r.createdAt
      && (o in r.reservedOrderIds ==>
            && result.status.Available?
            && LeavesOne(r.reservedOrderIds, result.reservedOrderIds, o))
  {
    RemovedExactly(r.reservedOrderIds, o);
    if o in r.reservedOrderIds {
      assert WithoutOne(r.reservedOrderIds, ReleasedRow(r, o).reservedOrderIds, o, IndexOf(r.reservedOrderIds, o));
    }
  }

  ghost predicate LeavesOne(held: seq<OrderId>, left: seq<OrderId>, o: OrderId) {
    exists k: nat :: k < |held| && WithoutOne(held, left, o, k)
  }

  /** The second list is the first without the order at place k. */
  predicate WithoutOne(held: seq<OrderId>, left: seq<OrderId>, o: OrderId, k: nat)
    requires k < |held|
  {
    && held[k] == o && |left| == |held| - 1
    && (forall i :: 0 <= i < k ==> left[i] == held[i])
    && forall i :: k <= i < |left| ==> left[i] == held[i + 1]
  }

  /** A change of availability is refused exactly while orders are held; else the status is the one asked for. */
  lemma SwitchedRowValid(r: DriverRow, status: DriverStatus)
    requires ValidRow(r) && !status.Reserved?
    ensures
      var result := SwitchedRow(r, status);
      && (result == Failure(HasActiveReservations) <==> r.reservedOrderIds != [])
      && (r.reservedOrderIds == [] ==>
            result.Success? && ValidRow(result.value) && result.value == DriverRow(r.capacity, [], status, r.createdAt))
  {
  }

  /** Releasing undoes a reservation that took capacity. */
  lemma ReleaseUndoesReserve(r: DriverRow, o: OrderId)
    requires ValidRow(r) && r.status.Available? && o !in r.reservedOrderIds
    ensures ReservedRow(r, o).Success? && ReleasedRow(ReservedRow(r, o).value, o) == r
  {
    var held := r.reservedOrderIds + [o];
    assert held[|r.reservedOrderIds|] == o;
    assert IndexOf(held, o) == |r.reservedOrderIds|;
    assert held[..|r.reservedOrderIds|] + held[|r.reservedOrderIds| + 1..] == r.reservedOrderIds;
  }
}
