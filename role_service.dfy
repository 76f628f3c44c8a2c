/** RoleService of api/src/services/role.service.ts over an in-memory role table keyed by id. */
module RoleServices {
  import opened Results

  type RoleId = nat

  datatype Role = Role(id: RoleId, name: string)

  /** `roleRepository.findOne({ where: { name } })` finds a row. */
  predicate NameInUse(roles: map<RoleId, Role>, name: string)
  {
    exists id :: id in roles && roles[id].name == name
  }

  class RoleService {
    var roles: map<RoleId, Role>
    /** The id the store gives the next role it saves. */
    var nextId: RoleId

    /** Ids index their rows, lie below `nextId`, and no two roles share a name (createRole never
        saves a second role under a name already stored). */
    ghost predicate Valid()
      reads this
    {
      && (forall id :: id in roles ==> roles[id].id == id && id < nextId)
      && (forall a, b :: a in roles && b in roles && roles[a].name == roles[b].name ==> a == b)
    }

    /** Attaches to an existing role table. */
    constructor (roles: map<RoleId, Role>, nextId: RoleId)
      requires forall id :: id in roles ==> roles[id].id == id && id < nextId
      requires forall a, b :: a in roles && b in roles && roles[a].name == roles[b].name ==> a == b
      ensures Valid() && this.roles == roles && this.nextId == nextId
    {
      this.roles := roles;
      this.nextId := nextId;
    }

    /** createRole: the stored role of that name if there is one, otherwise a new role. */
    method CreateRole(name: string) returns (r: Role)
      requires Valid()
      modifies this
      ensures Valid()
      ensures r.name == name && r.id in roles && roles[r.id] == r
      ensures old(NameInUse(roles, name)) ==> roles == old(roles) && nextId == old(nextId)
      ensures !old(NameInUse(roles, name)) ==> r.id !in old(roles) && roles == old(roles)[r.id := r]
      ensures !old(NameInUse(roles, name)) ==> nextId == old(nextId) + 1
      ensures |roles| <= |old(roles)| + 1
    {
      if NameInUse(roles, name) {
        var id :| id in roles && roles[id].name == name;
        return roles[id];
      }
      r := Role(nextId, name);
      roles := roles[nextId := r];
      nextId := nextId + 1;
    }

    /** getRoleById: the role with that id, or not-found. */
    method GetRoleById(id: RoleId) returns (r: Result<Role>)
      ensures r.Success? <==> id in roles
      ensures r.Success? ==> r.value == roles[id]
      ensures r.Failure? ==> r.error == NotFoundError("Role not found")
    {
      if id !in roles {
        return Failure(NotFoundError("Role not found"));
      }
      r := Success(roles[id]);
    }

    /** getRolesByNames: the stored roles whose name is one of `names`. */
    method GetRolesByNames(names: seq<string>) returns (r: set<Role>)
      ensures forall x :: x in r <==> x in roles.Values && x.name in names
    {
      r := set id | id in roles && roles[id].name in names :: roles[id];
    }

    /** deleteRole: not-found, or that role's row is removed and nothing else. */
    method DeleteRole(id: RoleId) returns (r: Result<()>)
      requires Valid()
      modifies this
      ensures Valid() && nextId == old(nextId)
      ensures r.Success? <==> id in old(roles)
      ensures r.Failure? ==> r.error == NotFoundError("Role not found") && roles == old(roles)
      ensures r.Success? ==> roles == old(roles) - {id} && |roles| == |old(roles)| - 1
    {
      if id !in roles {
        return Failure(NotFoundError("Role not found"));
      }
      roles := roles - {id};
      r := Success(());
    }
  }

  /** A caller's view: createRole twice with one name saves at most one role and returns the same
      role both times. */
  method CreateRoleTwice(service: RoleService, name: string) returns (first: Role, second: Role)
    requires service.Valid()
    modifies service
    ensures service.Valid()
    ensures first == second && first.name == name
    ensures |service.roles| <= |old(service.roles)| + 1
  {
    first := service.CreateRole(name);
    second := service.CreateRole(name);
  }
}
