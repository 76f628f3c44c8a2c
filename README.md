# Trip lifecycle, reference ids, roles and client state: a Dafny model

This project models the core of a public-transport trip management application: a REST API
over a relational store and the dashboard that calls it. The model covers:

- `TripService`, the trip lifecycle. Trips move PENDING, then IN_PROGRESS, then COMPLETED, and
  can be CANCELLED from PENDING or IN_PROGRESS. Completing or cancelling a trip closes every
  user trip (passenger reservation) on it that is still IN_PROGRESS. Available capacity is the
  total capacity minus the IN_PROGRESS user trips. Creating a trip checks that its locations and
  creator exist and draws random reference ids of the form `TRIP-NNNNN` until one is unused.
- `generateReferenceId`, which builds a reference id from a random integer.
- `getGenderLabel` and the `Gender` and `UserStatus` enums of the client.
- `RoleService`, a role table with get-or-create by name, lookups and delete.
- Five client state slices (user trips, users, transport cards, locations, roles) and their
  reducers.

Modules, one per source file, plus two shared ones:

- `Results`: `Option`, the service errors (`ValidationError`, `NotFoundError`) and `Result`.
- `StringHelper` (string_helper.dfy): reference-id formatting, its parser and their lemmas.
- `UserConstants` (user_constants.dfy): the enums and the gender label lookup.
- `TripLifecycle` (trip_lifecycle.dfy): the `Trip` and `UserTrip` records, the status machine as
  pure functions on one trip, the user-trip query and cascade, and capacity.
- `TripServices` (trip_service.dfy): the class `TripService` over its stores. The stores are a
  map of trips by id, the user-trip table as a sequence in row order, and the sets of existing
  location and user ids. Its methods update these fields in place. `StartTrip`, `CompleteTrip`,
  `CancelTrip`, `CloseUserTrips` and `CountAvailableCapacity` are proved against the
  `TripLifecycle` functions, and `UpdateTrip` against the merge `Patched`. `CreateTrip`,
  `DeleteTrip` and the getters state their results directly over the stores.
  `ReferenceInUse` defines the `findOne` by reference id. `DrawReference`, `CreateTrip` and
  `GetTripByReferenceId` are stated over it.
- `RoleServices` (role_service.dfy): the class `RoleService` over a map of roles by id.
  `NameInUse` defines the `findOne` by name, over which `CreateRole` is stated.
- `UserTripSlice`, `UserSlice`, `TransportCardSlice`, `LocationSlice`, `RoleSlice`: one class per
  slice. The constructor is `initialState` and each reducer is a method that assigns fields in
  place. Each class is generic in the payload type, because the client's entity types are not
  part of this model.

Modelling choices:

- Database ids (UUIDs) are natural numbers. Each store gives a new row the id held in its `nextId`
  field, and its `Valid()` invariant keeps every stored id below `nextId`.
- `new Date()` is a `now` parameter. One operation uses one instant, for the trip and for every
  user trip it closes.
- The random number `Math.floor(Math.random() * 100000)` is a `Draw`, a natural number below
  100000. `generateReferenceId` takes it as an argument. The retry loop of `createTrip` takes a
  finite sequence of draws.
- `createTripValidation` and `updateTripValidation` are function parameters. Each returns the
  validation error message, or `None` when the input is valid.
- The user-trip statuses IN_PROGRESS, COMPLETED and CANCELLED are named `UserTripInProgress`,
  `UserTripCompleted` and `UserTripCancelled`, so that they stay apart from the trip statuses.
- User-trip ids are primary keys: `TripService.Valid()` keeps them distinct. The cascade therefore
  updates each row once, as the update by primary key does.
- The two `Promise.all` cascades become one sequential loop over the user-trip table,
  `TripService.CloseUserTrips`. The loop closes each row that is IN_PROGRESS on the trip.
- The model follows the code where it is more permissive than one might expect.
  `availableCapacity` is not clamped, so it can be negative (`AvailableCanBeNegative`).
  `updateTrip` does not reject location ids that do not exist, unlike `createTrip`.

## Model

| member | source | states |
|---|---|---|
| `StringHelper.GenerateReferenceId` | api/src/helpers/string.helper.ts:7-15 | the result is the prefix, a dash, then only decimal digits; its length is the prefix's + 1 + the larger of `length` and the number's digit count |
| `StringHelper.NatToString` | api/src/helpers/string.helper.ts:11-12 | `toString` of a non-negative integer: at least one character, all digits, no leading zero except for 0 itself |
| `StringHelper.DecimalValueOfNatToString` | api/src/helpers/string.helper.ts:11-12 | the decimal form of n denotes n |
| `StringHelper.DigitsValue` | api/src/helpers/string.helper.ts:11-13 | the zero-padded digit part is non-empty, all digits, and still denotes the drawn number |
| `StringHelper.PadStartShape` | api/src/helpers/string.helper.ts:13 | `padStart` keeps the whole string as a suffix, fills only in front with the pad character, and gives length max(length, \|s\|) |
| `StringHelper.PadStart` | api/src/helpers/string.helper.ts:13 | the padded string has length max(length, \|s\|) |
| `StringHelper.ParseGenerated` | api/src/helpers/string.helper.ts:11-14 | stripping the prefix, the dash and the leading zeros of a generated id gives back the draw |
| `StringHelper.GenerateInjective` | api/src/helpers/string.helper.ts:11-14 | for a fixed prefix and length, equal reference ids come from equal draws |
| `StringHelper.NatToStringLength` | api/src/helpers/string.helper.ts:11-12 | a number below 10^k has at most max(k, 1) decimal digits |
| `StringHelper.FiveDigits` | api/src/helpers/string.helper.ts:11-13 | with length 5, every draw below 100000 gives a digit part of exactly five decimal digits |
| `StringHelper.NoTruncation` | api/src/helpers/string.helper.ts:13 | when the number has at least `length` digits, the digit part is its plain decimal form |
| `StringHelper.DefaultArguments` | api/src/helpers/string.helper.ts:8-9 | the defaults are length 5 and prefix "REF", so the id starts "REF-" |
| `UserConstants.FindByValue` | client/src/constants/user.constants.ts:13 | `find` over the entries: `None` exactly when no entry has the value, otherwise the first index whose value matches |
| `UserConstants.LabelOfMale` | client/src/constants/user.constants.ts:1-15 | getGenderLabel("M") is "MALE" |
| `UserConstants.LabelOfFemale` | client/src/constants/user.constants.ts:1-15 | getGenderLabel("F") is "FEMALE" |
| `UserConstants.LabelRoundTrip` | client/src/constants/user.constants.ts:11-15 | for every Gender member, looking up its value gives its key |
| `UserConstants.LabelNotAvailable` | client/src/constants/user.constants.ts:13 | the label is "N/A" if and only if the string is not a Gender value |
| `UserConstants.LabelIsKey` | client/src/constants/user.constants.ts:11-15 | any label other than "N/A" is the key of the member whose value was looked up |
| `UserConstants.ValuesDistinct` | client/src/constants/user.constants.ts:1-4 | the Gender values are distinct, so the reverse lookup is well defined |
| `UserConstants.GetGenderLabel` | client/src/constants/user.constants.ts:11-15 | either the key of a Gender member whose value is the string, or "N/A" and no member has that value |
| `UserConstants.UserStatusValues` | client/src/constants/user.constants.ts:6-9 | each UserStatus value equals its key, and distinct members have distinct values |
| `TripLifecycle.Start` | api/src/services/trip.service.ts:341-351 | succeeds iff the trip is PENDING; then it follows a legal edge to IN_PROGRESS and sets only status and startTime; otherwise "Trip is not pending" |
| `TripLifecycle.Complete` | api/src/services/trip.service.ts:381-409 | succeeds iff the trip is IN_PROGRESS; then it follows a legal edge to COMPLETED and sets only status and endTime; otherwise "Trip is not in progress" |
| `TripLifecycle.Cancel` | api/src/services/trip.service.ts:434-465 | succeeds iff the trip is PENDING or IN_PROGRESS; then it follows a legal edge to CANCELLED and sets only status and endTime; otherwise "Trip is not pending or in progress" |
| `TripLifecycle.ApplyFollowsEdge` | api/src/services/trip.service.ts:341-465 | every successful start, complete or cancel follows a legal edge and strictly raises the status rank |
| `TripLifecycle.EdgeIsOperation` | api/src/services/trip.service.ts:342-465 | a status change is a legal edge if and only if one of the three operations makes it on every trip in the source status |
| `TripLifecycle.TerminalRejectsAll` | api/src/services/trip.service.ts:342-443 | on a COMPLETED or CANCELLED trip, each of the three operations fails with a validation error |
| `TripLifecycle.RunBounded` | api/src/services/trip.service.ts:324-468 | over any sequence of operations, the number that succeed is at most the rise in rank, which is at most 2 |
| `TripLifecycle.RunFromTerminal` | api/src/services/trip.service.ts:342-443 | once terminal, no sequence of operations changes the trip or succeeds |
| `TripLifecycle.InProgressOf` | api/src/services/trip.service.ts:303-308 | the user-trip query: exactly the rows of that trip that are IN_PROGRESS, each with its multiplicity in the table, and no other row |
| `TripLifecycle.CascadeClosesAll` | api/src/services/trip.service.ts:390-405 | after a cascade with a non-IN_PROGRESS status, the trip has no IN_PROGRESS user trip |
| `TripLifecycle.CascadeKeepsOtherTrips` | api/src/services/trip.service.ts:446-461 | a cascade leaves the IN_PROGRESS user trips of every other trip as they were |
| `TripLifecycle.CascadeRows` | api/src/services/trip.service.ts:398-405 | exactly the rows that were IN_PROGRESS on the trip get the new status and the end time, with no other field changed; every other row is unchanged |
| `TripLifecycle.CascadeIdempotent` | api/src/services/trip.service.ts:454-461 | applying a cascade a second time changes nothing |
| `TripLifecycle.CloseRow` | api/src/services/trip.service.ts:398-405 | a row open on the trip gets the new status and end time `now`; any other row is unchanged; only status and end time can change; a non-IN_PROGRESS status leaves the row closed |
| `TripLifecycle.Cascade` | api/src/services/trip.service.ts:454-461 | same length, ids, trips and users row by row, and with a non-IN_PROGRESS status no row stays open on the trip |
| `TripLifecycle.AvailableSeats` | api/src/services/trip.service.ts:311 | at most the total capacity, and equal to it exactly when no user trip is IN_PROGRESS on the trip |
| `TripLifecycle.AvailableNonNegative` | api/src/services/trip.service.ts:310-311 | available capacity is non-negative if and only if the IN_PROGRESS count is at most the total capacity |
| `TripLifecycle.AvailableCanBeNegative` | api/src/services/trip.service.ts:310-311 | a trip of capacity 0 with one IN_PROGRESS user trip has available capacity -1 |
| `TripLifecycle.CascadeFreesCapacity` | api/src/services/trip.service.ts:303-311 | after a cascade the available capacity equals the total capacity |
| `TripServices.TripReferenceShape` | api/src/services/trip.service.ts:90 | every reference id createTrip draws is "TRIP-" and five decimal digits |
| `TripServices.TripReference` | api/src/services/trip.service.ts:90 | the reference id for a draw has ten characters and starts with "TRIP-" |
| `TripServices.ReferenceIdsCount` | api/src/services/trip.service.ts:89-95 | with unique reference ids, exactly as many reference ids are in use as trips are stored |
| `TripServices.Patched` | api/src/services/trip.service.ts:159-164 | updating touches only locationFromId, locationToId and totalCapacity: each supplied one takes the new value and each unsupplied one keeps the stored value; an empty patch changes nothing |
| `TripServices.TripService.constructor` | api/src/services/trip.service.ts:28-33 | the stores are as given and satisfy the id and reference-uniqueness invariant |
| `TripServices.TripService.DrawReference` | api/src/services/trip.service.ts:89-95 | the retry loop yields the first draw whose reference id no stored trip uses, and none only when every draw collides |
| `TripServices.TripService.CreateTrip` | api/src/services/trip.service.ts:41-107 | the four failures in the source's order (validation, starting location, destination, creator); success whenever all checks pass and some draw is unused; on success exactly one new PENDING trip with a fresh id and an unused reference id, so reference ids stay unique, and the id counter advances by one; user trips unchanged |
| `TripServices.TripService.UpdateTrip` | api/src/services/trip.service.ts:119-167 | a validation error, or not-found, or the stored trip is replaced by the patched one and nothing else changes |
| `TripServices.TripService.DeleteTrip` | api/src/services/trip.service.ts:179-194 | not-found and no change, or exactly that trip's row is removed |
| `TripServices.TripService.GetTripById` | api/src/services/trip.service.ts:240-258 | the stored trip with that id, or not-found exactly when there is none |
| `TripServices.TripService.GetTripByReferenceId` | api/src/services/trip.service.ts:265-283 | the one stored trip with that reference id, or not-found exactly when none has it |
| `TripServices.TripService.CountAvailableCapacity` | api/src/services/trip.service.ts:288-314 | a read only: not-found for an unknown id, otherwise totalCapacity unchanged and availableCapacity = totalCapacity minus the IN_PROGRESS user trips of the trip |
| `TripServices.TripService.StartTrip` | api/src/services/trip.service.ts:324-354 | succeeds iff the trip exists and is PENDING; only that trip changes, as `Start` says; user trips are untouched; on failure nothing changes |
| `TripServices.TripService.CloseUserTrips` | api/src/services/trip.service.ts:389-405 | the table becomes the cascade of the old table, one row at a time |
| `TripServices.TripService.CompleteTrip` | api/src/services/trip.service.ts:364-412 | succeeds iff the trip is IN_PROGRESS; the trip changes as `Complete` says and the user trips as the COMPLETED cascade, leaving none IN_PROGRESS; on failure nothing changes |
| `TripServices.TripService.CancelTrip` | api/src/services/trip.service.ts:422-468 | succeeds iff the trip is PENDING or IN_PROGRESS; the trip changes as `Cancel` says and the user trips as the CANCELLED cascade, leaving none IN_PROGRESS; on failure nothing changes |
| `TripServices.CompleteFreesCapacity` | api/src/services/trip.service.ts:288-313 | after a successful completeTrip, countAvailableCapacity reports the whole capacity as available |
| `RoleServices.RoleService.constructor` | api/src/services/role.service.ts:16-18 | attaches to a given role table whose ids are consistent and whose names are unique, and keeps it as given |
| `RoleServices.RoleService.CreateRole` | api/src/services/role.service.ts:21-33 | returns a stored role with that name; if one existed nothing changes, otherwise exactly one new role is added and the id counter advances by one; names stay unique |
| `RoleServices.CreateRoleTwice` | api/src/services/role.service.ts:21-32 | two createRole calls with one name return the same role and add at most one row |
| `RoleServices.RoleService.GetRoleById` | api/src/services/role.service.ts:36-46 | the role with that id, or "Role not found" exactly when there is none |
| `RoleServices.RoleService.GetRolesByNames` | api/src/services/role.service.ts:49-53 | exactly the stored roles whose name is in the list |
| `RoleServices.RoleService.DeleteRole` | api/src/services/role.service.ts:78-90 | not-found and no change, or exactly that role is removed |
| `UserTripSlice.UserTripState.constructor` | client/src/states/slices/userTripSlice.ts:11-16 | empty list, the three single fields undefined |
| `UserTripSlice.UserTripState.SetUserTripsList` | client/src/states/slices/userTripSlice.ts:22-24 | replaces only the list |
| `UserTripSlice.UserTripState.SetUserTrip` | client/src/states/slices/userTripSlice.ts:25-27 | changes only `userTrip` |
| `UserTripSlice.UserTripState.SetSelectedUserTrip` | client/src/states/slices/userTripSlice.ts:28-30 | changes only `selectedUserTrip` |
| `UserTripSlice.UserTripState.SetAddToUserTripList` | client/src/states/slices/userTripSlice.ts:31-33 | the list becomes [payload] + old: one longer, old elements shifted by one, other fields unchanged |
| `UserTripSlice.UserTripState.SetCurrentUserTrip` | client/src/states/slices/userTripSlice.ts:34-36 | changes only `currentUserTrip` |
| `UserSlice.UserState.constructor` | client/src/states/slices/userSlice.ts:10-14 | `user` and `selectedUser` undefined, empty list |
| `UserSlice.UserState.SetUser` | client/src/states/slices/userSlice.ts:20-22 | changes only `user` |
| `UserSlice.UserState.SetSelectedUser` | client/src/states/slices/userSlice.ts:23-25 | changes only `selectedUser` |
| `UserSlice.UserState.SetUsersList` | client/src/states/slices/userSlice.ts:26-28 | replaces only `usersList` |
| `UserSlice.UserState.SetAddUserToUsersList` | client/src/states/slices/userSlice.ts:29-31 | the list becomes [payload] + old; other fields unchanged |
| `TransportCardSlice.TransportCardState.constructor` | client/src/states/slices/transportCardSlice.ts:10-14 | empty list, both single fields undefined |
| `TransportCardSlice.TransportCardState.SetTransportCardsList` | client/src/states/slices/transportCardSlice.ts:20-22 | replaces only the list |
| `TransportCardSlice.TransportCardState.SetTransportCard` | client/src/states/slices/transportCardSlice.ts:23-25 | changes only `transportCard` |
| `TransportCardSlice.TransportCardState.SetSelectedTransportCard` | client/src/states/slices/transportCardSlice.ts:26-28 | changes only `selectedTransportCard` |
| `TransportCardSlice.TransportCardState.ResetTransportCard` | client/src/states/slices/transportCardSlice.ts:29-32 | both single fields undefined, the list unchanged |
| `LocationSlice.LocationState.constructor` | client/src/states/slices/locationSlice.ts:11-15 | empty list, both single fields undefined |
| `LocationSlice.LocationState.SetLocationsList` | client/src/states/slices/locationSlice.ts:21-23 | replaces only the list |
| `LocationSlice.LocationState.SetLocation` | client/src/states/slices/locationSlice.ts:24-26 | changes only `location` |
| `LocationSlice.LocationState.SetSelectedLocation` | client/src/states/slices/locationSlice.ts:27-29 | changes only `selectedLocation` |
| `RoleSlice.RoleState.constructor` | client/src/states/slices/roleSlice.ts:10-14 | empty list, both single fields undefined |
| `RoleSlice.RoleState.SetRolesList` | client/src/states/slices/roleSlice.ts:20-22 | replaces only the list |
| `RoleSlice.RoleState.SetRole` | client/src/states/slices/roleSlice.ts:23-25 | changes only `role` |
| `RoleSlice.RoleState.SetSelectedRole` | client/src/states/slices/roleSlice.ts:26-28 | changes only `selectedRole` |

## Left out

- `TripServices.TripService.CreateTrip`: the random source is a finite sequence of draws. When
  every draw collides, the model fails with the model-only `DrawsExhausted`; the source would
  keep drawing, with no bound.
- `TripServices.TripService.CompleteTrip`, `TripServices.TripService.CancelTrip`: the cascade runs
  one row after the other, with one clock reading. The source runs the row updates concurrently
  with `Promise.all`, reads the clock once per row, and does not roll back a partial cascade.
- `TripServices.TripService.UpdateTrip`: only the not-found check and the overwrite of the supplied
  fields are modelled. The source loads the location relations and saves them, possibly as null,
  and the model does not capture that effect on the stored row. Which fields
  `updateTripValidation` admits is not visible; the model takes the two locations and the capacity.
- Validation (`createTripValidation`, `updateTripValidation`): they are not part of this model.
  They are parameters, and the model assumes the validated value equals the input.
- `TripServices.TripService.CreateTrip`: a `locationToId` given as an empty string counts as
  absent in the source; ids here are numbers, so that case does not arise.
- `RoleServices.RoleService.CreateRole`: takes the role name only. A role without a name (a TypeORM
  `where` on `undefined` matches any row) and the other fields of a role are not modelled.
- Paging: `fetchTrips` and `fetchRoles` are not modelled, because the pagination helpers are not
  part of this model.
- Audit logging (`@AuditUpdate`, `@AuditDelete`): left out, because the decorators are not part of
  this model.
- ORM relation loading (`relations: { locationFrom, locationTo, createdBy }`) is left out. The
  model returns the stored trip record.
- Joining and leaving a trip (creating and updating user trips) is left out, because the
  user-trip service is not part of this model. So the model does not enforce capacity at join
  time.
- `generateRandomString` is left out: it depends on floating-point `Math.random().toString(36)`.
- Concurrency between requests is left out. Each operation is one sequential step on the stores.
- Authentication, users, dashboard counts, controllers, routes, React pages and hooks, and store
  wiring are left out. They are I/O and presentation outside this core.
