/** The user slice of client/src/states/slices/userSlice.ts: its state and reducers. */
module UserSlice {
  import opened Results

  /** `UserState`; the reducers update it in place. */
  class UserState<User> {
    var user: Option<User>
    var selectedUser: Option<User>
    var usersList: seq<User>

    /** `initialState`. */
    constructor ()
      ensures user == None && selectedUser == None && usersList == []
    {
      user := None;
      selectedUser := None;
      usersList := [];
    }

    method SetUser(payload: Option<User>)
      modifies this
      ensures user == payload
      ensures selectedUser == old(selectedUser) && usersList == old(usersList)
    {
      user := payload;
    }

    method SetSelectedUser(payload: Option<User>)
      modifies this
      ensures selectedUser == payload
      ensures user == old(user) && usersList == old(usersList)
    {
      selectedUser := payload;
    }

    method SetUsersList(payload: seq<User>)
      modifies this
      ensures usersList == payload
      ensures user == old(user) && selectedUser == old(selectedUser)
    {
      usersList := payload;
    }

    /** `state.usersList.unshift(payload)`: the new user first, the old ones shifted by one. */
    method SetAddUserToUsersList(payload: User)
      modifies this
      ensures usersList == [payload] + old(usersList)
      ensures |usersList| == |old(usersList)| + 1 && usersList[0] == payload
      ensures forall i :: 0 <= i < |old(usersList)| ==> usersList[i + 1] == old(usersList)[i]
      ensures user == old(user) && selectedUser == old(selectedUser)
    {
      usersList := [payload] + usersList;
    }
  }
}
