/** TripService of api/src/services/trip.service.ts over in-memory stores: the trip table keyed by
    id, the user-trip table in row order, and the ids of the existing locations and users. */
module TripServices {
  import opened Results
  import opened StringHelper
  import opened TripLifecycle

  /** The fields of a trip that createTrip takes from its validated body. */
  datatype TripInput = TripInput(
    locationFromId: LocationId,
    locationToId: Option<LocationId>,
    totalCapacity: int,
    createdById: UserId)

  /** The fields updateTrip may overwrite; `None` leaves a field as it is. */
  datatype TripPatch = TripPatch(
    locationFromId: Option<LocationId>,
    locationToId: Option<LocationId>,
    totalCapacity: Option<int>)

  /** `generateReferenceId(5, 'TRIP')` for a given draw. */
  function TripReference(n: Draw): (r: string)
    ensures |r| == 10 && r[..5] == "TRIP-"
  {
    FiveDigits(n, "TRIP");
    GenerateReferenceId(n, 5, "TRIP")
  }

  /** Every reference id createTrip draws has the form TRIP-NNNNN. */
  lemma TripReferenceShape(n: Draw)
    ensures |TripReference(n)| == 10 && TripReference(n)[..5] == "TRIP-"
    ensures AllDigits(TripReference(n)[5..])
  {
    FiveDigits(n, "TRIP");
  }

  /** The reference ids of the stored trips. */
  function ReferenceIds(trips: map<TripId, Trip>): set<string>
  {
    set id | id in trips :: trips[id].referenceId
  }

  /** `tripRepository.findOne({ where: { referenceId } })` finds a row. */
  predicate ReferenceInUse(trips: map<TripId, Trip>, referenceId: string)
  {
    referenceId in ReferenceIds(trips)
  }

  /** No two user-trip rows share a primary key, so updating a row by its id, as the source's
      cascade does, is updating that row. */
  ghost predicate UserTripIdsUnique(s: seq<UserTrip>)
  {
    forall i, j :: 0 <= i < j < |s| ==> s[i].id != s[j].id
  }

  ghost predicate ReferenceIdsUnique(trips: map<TripId, Trip>)
  {
    forall a, b :: a in trips && b in trips && a != b ==> trips[a].referenceId != trips[b].referenceId
  }

  /** With unique reference ids, the stored trips and their reference ids are in one-to-one
      correspondence: there are exactly as many reference ids in use as trips. */
  lemma {:induction false} ReferenceIdsCount(trips: map<TripId, Trip>)
    requires ReferenceIdsUnique(trips)
    ensures |ReferenceIds(trips)| == |trips|
    decreases |trips|
  {
    if trips == map[] {
      assert ReferenceIds(trips) == {};
    } else {
      var id :| id in trips;
      var rest := trips - {id};
      assert rest.Keys == trips.Keys - {id};
      assert |rest| == |trips| - 1 by {
        assert |rest.Keys| == |trips.Keys| - 1;
      }
      ReferenceIdsCount(rest);
      forall x | x in ReferenceIds(trips)
        ensures x in ReferenceIds(rest) || x == trips[id].referenceId
      {
        var i :| i in trips && trips[i].referenceId == x;
        if i != id {
          assert i in rest;
        }
      }
      assert ReferenceIds(trips) == ReferenceIds(rest) + {trips[id].referenceId};
      assert trips[id].referenceId !in ReferenceIds(rest);
    }
  }

  /** The trip with the patch's supplied fields written over it. */
  function Patched(t: Trip, p: TripPatch): (r: Trip)
    ensures r.(locationFromId := t.locationFromId, locationToId := t.locationToId,
               totalCapacity := t.totalCapacity) == t
    ensures p.locationFromId.Some? ==> r.locationFromId == p.locationFromId.value
    ensures p.locationToId.Some? ==> r.locationToId == p.locationToId
    ensures p.totalCapacity.Some? ==> r.totalCapacity == p.totalCapacity.value
    ensures p.locationFromId.None? ==> r.locationFromId == t.locationFromId
    ensures p.locationToId.None? ==> r.locationToId == t.locationToId
    ensures p.totalCapacity.None? ==> r.totalCapacity == t.totalCapacity
    ensures p == TripPatch(None, None, None) ==> r == t
  {
    t.(locationFromId := if p.locationFromId.Some? then p.locationFromId.value else t.locationFromId,
       locationToId := if p.locationToId.Some? then p.locationToId else t.locationToId,
       totalCapacity := if p.totalCapacity.Some? then p.totalCapacity.value else t.totalCapacity)
  }

  class TripService {
    var trips: map<TripId, Trip>
    var userTrips: seq<UserTrip>
    var locations: set<LocationId>
    var users: set<UserId>
    /** The id the store gives the next trip it saves. */
    var nextId: TripId

    ghost predicate Valid()
      reads this
    {
      && (forall id :: id in trips ==> trips[id].id == id && id < nextId)
      && ReferenceIdsUnique(trips)
      && UserTripIdsUnique(userTrips)
    }

    constructor (trips: map<TripId, Trip>, userTrips: seq<UserTrip>, locations: set<LocationId>,
                 users: set<UserId>, nextId: TripId)
      requires forall id :: id in trips ==> trips[id].id == id && id < nextId
      requires ReferenceIdsUnique(trips)
      requires UserTripIdsUnique(userTrips)
      ensures Valid()
      ensures this.trips == trips && this.userTrips == userTrips && this.locations == locations
      ensures this.users == users && this.nextId == nextId
    {
      this.trips := trips;
      this.userTrips := userTrips;
      this.locations := locations;
      this.users := users;
      this.nextId := nextId;
    }

    /** The reference-id loop of createTrip: the first draw whose reference id no stored trip
        uses, or `None` when every draw collides. */
    method DrawReference(draws: seq<Draw>) returns (r: Option<nat>)
      ensures r.None? <==> forall k :: 0 <= k < |draws| ==> ReferenceInUse(trips, TripReference(draws[k]))
      ensures r.Some? ==> r.value < |draws| && !ReferenceInUse(trips, TripReference(draws[r.value]))
      ensures r.Some? ==> forall j :: 0 <= j < r.value ==> ReferenceInUse(trips, TripReference(draws[j]))
    {
      if |draws| == 0 {
        return None;
      }
      var inUse := ReferenceIds(trips);
      var k := 0;
      var referenceId := TripReference(draws[0]);
      while referenceId in inUse
        invariant 0 <= k < |draws|
        invariant referenceId == TripReference(draws[k])
        invariant forall j :: 0 <= j < k ==> TripReference(draws[j]) in inUse
        decreases |draws| - k
      {
        if k + 1 == |draws| {
          return None;
        }
        k := k + 1;
        referenceId := TripReference(draws[k]);
      }
      r := Some(k);
    }

    /** All of createTrip's checks on its input pass. */
    ghost predicate CreateChecksPass(input: TripInput, validate: TripInput -> Option<string>)
      reads this
    {
      && validate(input).None?
      && input.locationFromId in locations
      && (input.locationToId.Some? ==> input.locationToId.value in locations)
      && input.createdById in users
    }

    /** createTrip: validation, the three reference checks, then draws until a reference id no
        stored trip uses, then one new PENDING trip. */
    method CreateTrip(input: TripInput, validate: TripInput -> Option<string>, draws: seq<Draw>)
      returns (r: Result<Trip>)
      requires Valid()
      modifies this
      ensures Valid()
      ensures userTrips == old(userTrips) && locations == old(locations) && users == old(users)
      ensures validate(input).Some? ==> r == Failure(ValidationError(validate(input).value))
      ensures validate(input).None? && input.locationFromId !in locations ==>
        r == Failure(ValidationError("Starting location not found"))
      ensures validate(input).None? && input.locationFromId in locations
              && input.locationToId.Some? && input.locationToId.value !in locations ==>
        r == Failure(ValidationError("Destination location not found"))
      ensures validate(input).None? && input.locationFromId in locations
              && (input.locationToId.Some? ==> input.locationToId.value in locations)
              && input.createdById !in users ==>
        r == Failure(NotFoundError("Created by not found"))
      ensures r == Failure(DrawsExhausted) <==>
        CreateChecksPass(input, validate)
        && forall k :: 0 <= k < |draws| ==> ReferenceInUse(old(trips), TripReference(draws[k]))
      ensures r.Failure? ==> trips == old(trips) && nextId == old(nextId)
      ensures r.Success? ==> nextId == old(nextId) + 1
      ensures CreateChecksPass(input, validate)
              && (exists k :: 0 <= k < |draws| && !ReferenceInUse(old(trips), TripReference(draws[k]))) ==>
        r.Success?
      ensures r.Success? ==> CreateChecksPass(input, validate)
      ensures r.Success? ==>
        && r.value.id !in old(trips)
        && trips == old(trips)[r.value.id := r.value]
        && r.value == Trip(r.value.id, r.value.referenceId, Pending, input.totalCapacity, None, None,
                           input.locationFromId, input.locationToId, input.createdById)
        && !ReferenceInUse(old(trips), r.value.referenceId)
        && exists k :: 0 <= k < |draws| && r.value.referenceId == TripReference(draws[k])
             && forall j :: 0 <= j < k ==> ReferenceInUse(old(trips), TripReference(draws[j]))
    {
      var error := validate(input);
      if error.Some? {
        return Failure(ValidationError(error.value));
      }
      if input.locationFromId !in locations {
        return Failure(ValidationError("Starting location not found"));
      }
      if input.locationToId.Some? && input.locationToId.value !in locations {
        return Failure(ValidationError("Destination location not found"));
      }
      if input.createdById !in users {
        return Failure(NotFoundError("Created by not found"));
      }
      var k := DrawReference(draws);
      if k.None? {
        return Failure(DrawsExhausted);
      }
      var trip := Trip(nextId, TripReference(draws[k.value]), Pending, input.totalCapacity, None, None,
                       input.locationFromId, input.locationToId, input.createdById);
      trips := trips[nextId := trip];
      nextId := nextId + 1;
      r := Success(trip);
    }

    /** updateTrip: validation, then not-found, then the supplied fields overwrite the trip. */
    method UpdateTrip(id: TripId, patch: TripPatch, validate: TripPatch -> Option<string>)
      returns (r: Result<Trip>)
      requires Valid()
      modifies this
      ensures Valid()
      ensures userTrips == old(userTrips) && locations == old(locations) && users == old(users)
      ensures nextId == old(nextId)
      ensures validate(patch).Some? ==> r == Failure(ValidationError(validate(patch).value))
      ensures validate(patch).None? && id !in old(trips) ==> r == Failure(NotFoundError("Trip not found"))
      ensures r.Success? <==> validate(patch).None? && id in old(trips)
      ensures r.Success? ==> r.value == Patched(old(trips)[id], patch) && trips == old(trips)[id := r.value]
      ensures r.Failure? ==> trips == old(trips)
    {
      var error := validate(patch);
      if error.Some? {
        return Failure(ValidationError(error.value));
      }
      if id !in trips {
        return Failure(NotFoundError("Trip not found"));
      }
      var trip := trips[id];
      if patch.locationFromId.Some? {
        trip := trip.(locationFromId := patch.locationFromId.value);
      }
      if patch.locationToId.Some? {
        trip := trip.(locationToId := patch.locationToId);
      }
      if patch.totalCapacity.Some? {
        trip := trip.(totalCapacity := patch.totalCapacity.value);
      }
      trips := trips[id := trip];
      r := Success(trip);
    }

    /** deleteTrip: not-found, or the trip's row is removed and nothing else. */
    method DeleteTrip(id: TripId) returns (r: Result<()>)
      requires Valid()
      modifies this
      ensures Valid()
      ensures userTrips == old(userTrips) && locations == old(locations) && users == old(users)
      ensures nextId == old(nextId)
      ensures r.Success? <==> id in old(trips)
      ensures r.Failure? ==> r.error == NotFoundError("Trip not found") && trips == old(trips)
      ensures r.Success? ==> trips == old(trips) - {id}
    {
      if id !in trips {
        return Failure(NotFoundError("Trip not found"));
      }
      trips := trips - {id};
      r := Success(());
    }

    method GetTripById(id: TripId) returns (r: Result<Trip>)
      ensures r.Success? <==> id in trips
      ensures r.Success? ==> r.value == trips[id]
      ensures r.Failure? ==> r.error == NotFoundError("Trip not found")
    {
      if id !in trips {
        return Failure(NotFoundError("Trip not found"));
      }
      r := Success(trips[id]);
    }

    /** getTripByReferenceId: the one trip with that reference id, or not-found. */
    method GetTripByReferenceId(referenceId: string) returns (r: Result<Trip>)
      requires Valid()
      ensures r.Success? <==> ReferenceInUse(trips, referenceId)
      ensures r.Success? ==> r.value.id in trips && trips[r.value.id] == r.value
      ensures r.Success? ==> r.value.referenceId == referenceId
      ensures r.Success? ==> forall id :: id in trips && trips[id].referenceId == referenceId ==> id == r.value.id
      ensures r.Failure? ==> r.error == NotFoundError("Trip not found")
    {
      if !ReferenceInUse(trips, referenceId) {
        return Failure(NotFoundError("Trip not found"));
      }
      var id :| id in trips && trips[id].referenceId == referenceId;
      r := Success(trips[id]);
    }

    /** countAvailableCapacity: a pure read of the trip's capacity and its open user trips. */
    method CountAvailableCapacity(tripId: TripId) returns (r: Result<Capacity>)
      requires Valid()
      ensures r.Success? <==> tripId in trips
      ensures r.Failure? ==> r.error == NotFoundError("Trip not found")
      ensures r.Success? ==> r.value.totalCapacity == trips[tripId].totalCapacity
      ensures r.Success? ==>
        r.value.availableCapacity == trips[tripId].totalCapacity - |InProgressOf(userTrips, tripId)|
      ensures r.Success? ==> r.value.availableCapacity == AvailableSeats(trips[tripId], userTrips)
    {
      if tripId !in trips {
        return Failure(NotFoundError("Trip not found"));
      }
      var trip := trips[tripId];
      var inProgressUserTrips := InProgressOf(userTrips, trip.id);
      r := Success(Capacity(trip.totalCapacity - |inProgressUserTrips|, trip.totalCapacity));
    }

    /** startTrip: PENDING to IN_PROGRESS with a start time; user trips are not touched. */
    method StartTrip(id: TripId, now: Time) returns (r: Result<Trip>)
      requires Valid()
      modifies this
      ensures Valid()
      ensures userTrips == old(userTrips) && locations == old(locations) && users == old(users)
      ensures nextId == old(nextId)
      ensures id !in old(trips) ==> r == Failure(NotFoundError("Trip not found"))
      ensures id in old(trips) ==> r == Start(old(trips)[id], now)
      ensures r.Success? <==> id in old(trips) && old(trips)[id].status == Pending
      ensures r.Success? ==> trips == old(trips)[id := r.value]
      ensures r.Failure? ==> trips == old(trips)
    {
      if id !in trips {
        return Failure(NotFoundError("Trip not found"));
      }
      var trip := trips[id];
      if trip.status != Pending {
        return Failure(ValidationError("Trip is not pending"));
      }
      trip := trip.(status := InProgress, startTime := Some(now));
      trips := trips[id := trip];
      r := Success(trip);
    }

    /** The cascade of completeTrip and cancelTrip, one user-trip row after the other. */
    method CloseUserTrips(tripId: TripId, status: UserTripStatus, now: Time)
      modifies this`userTrips
      ensures userTrips == Cascade(old(userTrips), tripId, status, now)
    {
      var i := 0;
      while i < |userTrips|
        invariant 0 <= i <= |userTrips| == |old(userTrips)|
        invariant forall k :: 0 <= k < i ==> userTrips[k] == CloseRow(old(userTrips)[k], tripId, status, now)
        invariant forall k :: i <= k < |userTrips| ==> userTrips[k] == old(userTrips)[k]
      {
        if IsOpenOn(userTrips[i], tripId) {
          userTrips := userTrips[i := userTrips[i].(status := status, endTime := Some(now))];
        }
        i := i + 1;
      }
    }

    /** completeTrip: IN_PROGRESS to COMPLETED with an end time; its open user trips are
        completed too. */
    method CompleteTrip(id: TripId, now: Time) returns (r: Result<Trip>)
      requires Valid()
      modifies this
      ensures Valid()
      ensures locations == old(locations) && users == old(users) && nextId == old(nextId)
      ensures id !in old(trips) ==> r == Failure(NotFoundError("Trip not found"))
      ensures id in old(trips) ==> r == Complete(old(trips)[id], now)
      ensures r.Success? <==> id in old(trips) && old(trips)[id].status == InProgress
      ensures r.Success? ==> trips == old(trips)[id := r.value]
      ensures r.Success? ==> userTrips == Cascade(old(userTrips), id, UserTripCompleted, now)
      ensures r.Success? ==> InProgressOf(userTrips, id) == []
      ensures r.Failure? ==> trips == old(trips) && userTrips == old(userTrips)
    {
      if id !in trips {
        return Failure(NotFoundError("Trip not found"));
      }
      var trip := trips[id];
      if trip.status != InProgress {
        return Failure(ValidationError("Trip is not in progress"));
      }
      CloseUserTrips(trip.id, UserTripCompleted, now);
      CascadeClosesAll(old(userTrips), id, UserTripCompleted, now);
      trip := trip.(status := Completed, endTime := Some(now));
      trips := trips[id := trip];
      r := Success(trip);
    }

    /** cancelTrip: PENDING or IN_PROGRESS to CANCELLED with an end time; its open user trips are
        cancelled too. */
    method CancelTrip(id: TripId, now: Time) returns (r: Result<Trip>)
      requires Valid()
      modifies this
      ensures Valid()
      ensures locations == old(locations) && users == old(users) && nextId == old(nextId)
      ensures id !in old(trips) ==> r == Failure(NotFoundError("Trip not found"))
      ensures id in old(trips) ==> r == Cancel(old(trips)[id], now)
      ensures r.Success? <==> id in old(trips) && old(trips)[id].status in {Pending, InProgress}
      ensures r.Success? ==> trips == old(trips)[id := r.value]
      ensures r.Success? ==> userTrips == Cascade(old(userTrips), id, UserTripCancelled, now)
      ensures r.Success? ==> InProgressOf(userTrips, id) == []
      ensures r.Failure? ==> trips == old(trips) && userTrips == old(userTrips)
    {
      if id !in trips {
        return Failure(NotFoundError("Trip not found"));
      }
      var trip := trips[id];
      if trip.status != Pending && trip.status != InProgress {
        return Failure(ValidationError("Trip is not pending or in progress"));
      }
      CloseUserTrips(trip.id, UserTripCancelled, now);
      CascadeClosesAll(old(userTrips), id, UserTripCancelled, now);
      trip := trip.(status := Cancelled, endTime := Some(now));
      trips := trips[id := trip];
      r := Success(trip);
    }
  }

  /** A caller's view: after a successful completeTrip the trip's whole capacity is available. */
  method CompleteFreesCapacity(service: TripService, id: TripId, now: Time) returns (c: Result<Capacity>)
    requires service.Valid()
    modifies service
    ensures service.Valid()
    ensures id in old(service.trips) && old(service.trips)[id].status == InProgress ==>
      c == Success(Capacity(old(service.trips)[id].totalCapacity, old(service.trips)[id].totalCapacity))
  {
    var r := service.CompleteTrip(id, now);
    c := service.CountAvailableCapacity(id);
  }
}
