/** The role slice of client/src/states/slices/roleSlice.ts: its state and reducers. */
module RoleSlice {
  import opened Results

  /** `RoleState`; the reducers update it in place. */
  class RoleState<Role> {
    var rolesList: seq<Role>
    var role: Option<Role>
    var selectedRole: Option<Role>

    /** `initialState`. */
    constructor ()
      ensures rolesList == [] && role == None && selectedRole == None
    {
      rolesList := [];
      role := None;
      selectedRole := None;
    }

    method SetRolesList(payload: seq<Role>)
      modifies this
      ensures rolesList == payload
      ensures role == old(role) && selectedRole == old(selectedRole)
    {
      rolesList := payload;
    }

    method SetRole(payload: Option<Role>)
      modifies this
      ensures role == payload
      ensures rolesList == old(rolesList) && selectedRole == old(selectedRole)
    {
      role := payload;
    }

    method SetSelectedRole(payload: Option<Role>)
      modifies this
      ensures selectedRole == payload
      ensures rolesList == old(rolesList) && role == old(role)
    {
      selectedRole := payload;
    }
  }
}
