/** The Trip and UserTrip records, the trip status machine that startTrip, completeTrip and
    cancelTrip of api/src/services/trip.service.ts enforce, and the user-trip queries and cascade
    they run. */
module TripLifecycle {
  import opened Results

  type TripId = nat
  type LocationId = nat
  type UserId = nat
  /** A `new Date()` reading. */
  type Time = int

  datatype TripStatus = Pending | InProgress | Completed | Cancelled

  /** IN_PROGRESS, COMPLETED and CANCELLED of the source's UserTripStatus. */
  datatype UserTripStatus = UserTripInProgress | UserTripCompleted | UserTripCancelled

  datatype Trip = Trip(
    id: TripId,
    referenceId: string,
    status: TripStatus,
    totalCapacity: int,
    startTime: Option<Time>,
    endTime: Option<Time>,
    locationFromId: LocationId,
    locationToId: Option<LocationId>,
    createdById: UserId)

  datatype UserTrip = UserTrip(
    id: nat,
    tripId: TripId,
    userId: UserId,
    status: UserTripStatus,
    startTime: Option<Time>,
    endTime: Option<Time>)

  /** The legal status changes: PENDING to IN_PROGRESS to COMPLETED, and PENDING or IN_PROGRESS
      to CANCELLED. */
  predicate Edge(from: TripStatus, to: TripStatus)
  {
    || (from == Pending && to == InProgress)
    || (from == InProgress && to == Completed)
    || (from == Pending && to == Cancelled)
    || (from == InProgress && to == Cancelled)
  }

  predicate IsTerminal(s: TripStatus) { s == Completed || s == Cancelled }

  /** How far along the lifecycle a status is. */
  function Rank(s: TripStatus): nat
  {
    match s
    case Pending => 0
    case InProgress => 1
    case Completed => 2
    case Cancelled => 2
  }

  /** The check and the update of startTrip on the loaded trip. */
  function Start(t: Trip, now: Time): (r: Result<Trip>)
    ensures r.Success? <==> t.status == Pending
    ensures r.Success? ==> Edge(t.status, r.value.status) && r.value.status == InProgress
    ensures r.Success? ==> r.value == t.(status := r.value.status, startTime := Some(now))
    ensures r.Failure? ==> r.error == ValidationError("Trip is not pending")
  {
    if t.status != Pending then Failure(ValidationError("Trip is not pending"))
    else Success(t.(status := InProgress, startTime := Some(now)))
  }

  /** The check and the update of completeTrip on the loaded trip. */
  function Complete(t: Trip, now: Time): (r: Result<Trip>)
    ensures r.Success? <==> t.status == InProgress
    ensures r.Success? ==> Edge(t.status, r.value.status) && r.value.status == Completed
    ensures r.Success? ==> r.value == t.(status := r.value.status, endTime := Some(now))
    ensures r.Failure? ==> r.error == ValidationError("Trip is not in progress")
  {
    if t.status != InProgress then Failure(ValidationError("Trip is not in progress"))
    else Success(t.(status := Completed, endTime := Some(now)))
  }

  /** The check and the update of cancelTrip on the loaded trip. */
  function Cancel(t: Trip, now: Time): (r: Result<Trip>)
    ensures r.Success? <==> t.status == Pending || t.status == InProgress
    ensures r.Success? ==> Edge(t.status, r.value.status) && r.value.status == Cancelled
    ensures r.Success? ==> r.value == t.(status := r.value.status, endTime := Some(now))
    ensures r.Failure? ==> r.error == ValidationError("Trip is not pending or in progress")
  {
    if t.status != Pending && t.status != InProgress then
      Failure(ValidationError("Trip is not pending or in progress"))
    else Success(t.(status := Cancelled, endTime := Some(now)))
  }

  /** The three trip operations. */
  datatype Op = StartOp | CompleteOp | CancelOp

  function Apply(t: Trip, op: Op, now: Time): Result<Trip>
  {
    match op
    case StartOp => Start(t, now)
    case CompleteOp => Complete(t, now)
    case CancelOp => Cancel(t, now)
  }

  /** Each successful operation follows an edge and moves strictly forward. */
  lemma ApplyFollowsEdge(t: Trip, op: Op, now: Time)
    requires Apply(t, op, now).Success?
    ensures Edge(t.status, Apply(t, op, now).value.status)
    ensures Rank(t.status) < Rank(Apply(t, op, now).value.status)
  {
  }

  /** `op` takes every trip in status `from` to status `to`. */
  ghost predicate Moves(op: Op, from: TripStatus, to: TripStatus)
  {
    forall t: Trip, now: Time :: t.status == from ==>
      Apply(t, op, now).Success? && Apply(t, op, now).value.status == to
  }

  /** The edges are exactly the moves the operations make. */
  lemma EdgeIsOperation(from: TripStatus, to: TripStatus)
    ensures Edge(from, to) <==> exists op: Op :: Moves(op, from, to)
  {
    if Edge(from, to) {
      var op := if to == InProgress then StartOp else if to == Completed then CompleteOp else CancelOp;
      assert Moves(op, from, to);
    } else {
      forall op: Op
        ensures !Moves(op, from, to)
      {
        var t := Trip(0, "", from, 0, None, None, 0, None, 0);
        assert !(Apply(t, op, 0).Success? && Apply(t, op, 0).value.status == to);
      }
    }
  }

  /** COMPLETED and CANCELLED are terminal: every operation on such a trip fails and changes
      nothing. */
  lemma TerminalRejectsAll(t: Trip, op: Op, now: Time)
    requires IsTerminal(t.status)
    ensures Apply(t, op, now).Failure? && Apply(t, op, now).error.ValidationError?
  {
  }

  /** Runs operations in order on one trip, skipping the ones that fail; yields the final trip
      and the number of operations that succeeded. */
  function Run(t: Trip, ops: seq<Op>, now: Time): (Trip, nat)
    decreases |ops|
  {
    if ops == [] then (t, 0)
    else match Apply(t, ops[0], now)
      case Success(t') => var (u, k) := Run(t', ops[1..], now); (u, k + 1)
      case Failure(_) => Run(t, ops[1..], now)
  }

  /** Whatever operations are tried, a trip changes status at most 2 - Rank times, and ranks only
      go up. */
  lemma {:induction false} RunBounded(t: Trip, ops: seq<Op>, now: Time)
    ensures Run(t, ops, now).1 + Rank(t.status) <= Rank(Run(t, ops, now).0.status)
    ensures Rank(Run(t, ops, now).0.status) <= 2
    decreases |ops|
  {
    if ops != [] {
      match Apply(t, ops[0], now)
      case Success(t') =>
        ApplyFollowsEdge(t, ops[0], now);
        RunBounded(t', ops[1..], now);
      case Failure(_) =>
        RunBounded(t, ops[1..], now);
    }
  }

  /** Once terminal, a trip is never changed again by any sequence of operations. */
  lemma {:induction false} RunFromTerminal(t: Trip, ops: seq<Op>, now: Time)
    requires IsTerminal(t.status)
    ensures Run(t, ops, now) == (t, 0)
    decreases |ops|
  {
    if ops != [] {
      TerminalRejectsAll(t, ops[0], now);
      RunFromTerminal(t, ops[1..], now);
    }
  }

  // ---- user trips ----------------------------------------------------------------------------

  predicate IsOpenOn(u: UserTrip, tripId: TripId) { u.tripId == tripId && u.status == UserTripInProgress }

  /** `userTripRepository.find({ where: { tripId, status: IN_PROGRESS } })`. */
  function InProgressOf(s: seq<UserTrip>, tripId: TripId): (r: seq<UserTrip>)
    ensures |r| <= |s|
    ensures forall u :: u in r <==> u in s && IsOpenOn(u, tripId)
    ensures forall u :: multiset(r)[u] == if IsOpenOn(u, tripId) then multiset(s)[u] else 0
    ensures multiset(r) <= multiset(s)
    decreases |s|
  {
    if s == [] then []
    else
      assert s == [s[0]] + s[1..];
      if IsOpenOn(s[0], tripId) then [s[0]] + InProgressOf(s[1..], tripId)
      else InProgressOf(s[1..], tripId)
  }

  /** One row of the completeTrip / cancelTrip cascade: an open row of the trip gets the new
      status and end time, any other row is left alone. */
  function CloseRow(u: UserTrip, tripId: TripId, status: UserTripStatus, now: Time): (r: UserTrip)
    ensures r.(status := u.status, endTime := u.endTime) == u
    ensures status != UserTripInProgress ==> !IsOpenOn(r, tripId)
    ensures IsOpenOn(u, tripId) ==> r.status == status && r.endTime == Some(now)
    ensures !IsOpenOn(u, tripId) ==> r == u
  {
    if IsOpenOn(u, tripId) then u.(status := status, endTime := Some(now)) else u
  }

  /** The cascade over the whole user-trip table. */
  function Cascade(s: seq<UserTrip>, tripId: TripId, status: UserTripStatus, now: Time): (r: seq<UserTrip>)
    ensures |r| == |s|
    ensures forall k :: 0 <= k < |s| ==>
      r[k].id == s[k].id && r[k].tripId == s[k].tripId && r[k].userId == s[k].userId
    ensures status != UserTripInProgress ==> forall k :: 0 <= k < |r| ==> !IsOpenOn(r[k], tripId)
  {
    seq(|s|, k requires 0 <= k < |s| => CloseRow(s[k], tripId, status, now))
  }

  /** After the cascade no user trip of that trip is still IN_PROGRESS, so its seats are free. */
  lemma {:induction false} CascadeClosesAll(s: seq<UserTrip>, tripId: TripId, status: UserTripStatus, now: Time)
    requires status != UserTripInProgress
    ensures InProgressOf(Cascade(s, tripId, status, now), tripId) == []
    decreases |s|
  {
    if s != [] {
      assert Cascade(s, tripId, status, now)[1..] == Cascade(s[1..], tripId, status, now);
      CascadeClosesAll(s[1..], tripId, status, now);
    }
  }

  /** The cascade does not touch the open seats of any other trip. */
  lemma {:induction false} CascadeKeepsOtherTrips(s: seq<UserTrip>, tripId: TripId, other: TripId,
                                                  status: UserTripStatus, now: Time)
    requires other != tripId
    ensures InProgressOf(Cascade(s, tripId, status, now), other) == InProgressOf(s, other)
    decreases |s|
  {
    if s != [] {
      assert Cascade(s, tripId, status, now)[1..] == Cascade(s[1..], tripId, status, now);
      CascadeKeepsOtherTrips(s[1..], tripId, other, status, now);
    }
  }

  /** Exactly the rows that were IN_PROGRESS on this trip are closed, with the given status and
      end time; every other row is left as it was. */
  lemma CascadeRows(s: seq<UserTrip>, tripId: TripId, status: UserTripStatus, now: Time, k: nat)
    requires k < |s|
    ensures |Cascade(s, tripId, status, now)| == |s|
    ensures var c := Cascade(s, tripId, status, now)[k];
      if IsOpenOn(s[k], tripId)
      then c.status == status && c.endTime == Some(now) && c.(status := s[k].status, endTime := s[k].endTime) == s[k]
      else c == s[k]
  {
  }

  /** Re-running a cascade is a no-op once it has been applied. */
  lemma CascadeIdempotent(s: seq<UserTrip>, tripId: TripId, status: UserTripStatus, now: Time, later: Time)
    requires status != UserTripInProgress
    ensures Cascade(Cascade(s, tripId, status, now), tripId, status, later) == Cascade(s, tripId, status, now)
  {
  }

  // ---- capacity ------------------------------------------------------------------------------

  datatype Capacity = Capacity(availableCapacity: int, totalCapacity: int)

  /** The seats of a trip that its user trips leave free: not clamped at zero. */
  function AvailableSeats(t: Trip, s: seq<UserTrip>): (r: int)
    ensures r <= t.totalCapacity
    ensures r == t.totalCapacity <==> forall u :: u in s ==> !IsOpenOn(u, t.id)
  {
    t.totalCapacity - |InProgressOf(s, t.id)|
  }

  /** Available capacity is non-negative only while the IN_PROGRESS user trips fit the trip. */
  lemma AvailableNonNegative(t: Trip, s: seq<UserTrip>)
    ensures AvailableSeats(t, s) >= 0 <==> |InProgressOf(s, t.id)| <= t.totalCapacity
  {
  }

  /** The source does not clamp: one IN_PROGRESS user trip on a trip of capacity 0 gives -1. */
  lemma AvailableCanBeNegative()
    ensures var t := Trip(0, "TRIP-00000", InProgress, 0, None, None, 0, None, 0);
      AvailableSeats(t, [UserTrip(0, 0, 0, UserTripInProgress, None, None)]) == -1
  {
    var u := UserTrip(0, 0, 0, UserTripInProgress, None, None);
    assert [u][1..] == [];
  }

  /** After a cascade the trip's whole capacity is available again. */
  lemma CascadeFreesCapacity(t: Trip, s: seq<UserTrip>, status: UserTripStatus, now: Time)
    requires status != UserTripInProgress
    ensures AvailableSeats(t, Cascade(s, t.id, status, now)) == t.totalCapacity
  {
    CascadeClosesAll(s, t.id, status, now);
  }
}
