/** The userTrip slice of client/src/states/slices/userTripSlice.ts: its state and reducers. */
module UserTripSlice {
  import opened Results

  /** `UserTripState`; the reducers update it in place. */
  class UserTripState<UserTrip> {
    var userTripsList: seq<UserTrip>
    var userTrip: Option<UserTrip>
    var selectedUserTrip: Option<UserTrip>
    var currentUserTrip: Option<UserTrip>

    /** `initialState`. */
    constructor ()
      ensures userTripsList == [] && userTrip == None && selectedUserTrip == None && currentUserTrip == None
    {
      userTripsList := [];
      userTrip := None;
      selectedUserTrip := None;
      currentUserTrip := None;
    }

    method SetUserTripsList(payload: seq<UserTrip>)
      modifies this
      ensures userTripsList == payload
      ensures userTrip == old(userTrip) && selectedUserTrip == old(selectedUserTrip)
      ensures currentUserTrip == old(currentUserTrip)
    {
      userTripsList := payload;
    }

    method SetUserTrip(payload: Option<UserTrip>)
      modifies this
      ensures userTrip == payload
      ensures userTripsList == old(userTripsList) && selectedUserTrip == old(selectedUserTrip)
      ensures currentUserTrip == old(currentUserTrip)
    {
      userTrip := payload;
    }

    method SetSelectedUserTrip(payload: Option<UserTrip>)
      modifies this
      ensures selectedUserTrip == payload
      ensures userTripsList == old(userTripsList) && userTrip == old(userTrip)
      ensures currentUserTrip == old(currentUserTrip)
    {
      selectedUserTrip := payload;
    }

    /** `state.userTripsList.unshift(payload)`: the new element first, the old ones shifted by one. */
    method SetAddToUserTripList(payload: UserTrip)
      modifies this
      ensures userTripsList == [payload] + old(userTripsList)
      ensures |userTripsList| == |old(userTripsList)| + 1 && userTripsList[0] == payload
      ensures forall i :: 0 <= i < |old(userTripsList)| ==> userTripsList[i + 1] == old(userTripsList)[i]
      ensures userTrip == old(userTrip) && selectedUserTrip == old(selectedUserTrip)
      ensures currentUserTrip == old(currentUserTrip)
    {
      userTripsList := [payload] + userTripsList;
    }

    method SetCurrentUserTrip(payload: Option<UserTrip>)
      modifies this
      ensures currentUserTrip == payload
      ensures userTripsList == old(userTripsList) && userTrip == old(userTrip)
      ensures selectedUserTrip == old(selectedUserTrip)
    {
      currentUserTrip := payload;
    }
  }
}
