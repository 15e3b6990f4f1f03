/**
 * Users and their roles (apps/users/models.py). Saving a user first derives the
 * staff and superuser flags from the role, then persists the row, then adds the
 * user to the group that belongs to the role.
 */
module Users {
  import opened Common

  type UserId = nat

  const ADMIN: string := "admin"
  const BRANCH_MANAGER: string := "branch_manager"

  const ADMIN_GROUP: string := "Admin"
  const BRANCH_MANAGER_GROUP: string := "Branch Manager"

  /** The fields of a user that `save` reads or writes. `role` is free text: nothing validates it on save. */
  datatype User = User(role: string, isStaff: bool, isSuperuser: bool)

  /** The flags `save` assigns before persisting: set for an admin, cleared for a branch manager, untouched otherwise. */
  function WithRoleFlags(u: User): (v: User)
    ensures v.role == u.role
    ensures u.role == ADMIN ==> v.isStaff && v.isSuperuser
    ensures u.role == BRANCH_MANAGER ==> !v.isStaff && !v.isSuperuser
    ensures u.role != ADMIN && u.role != BRANCH_MANAGER ==> v == u
    ensures FlagsAgreeWithRole(v)
  {
    if u.role == ADMIN then u.(isStaff := true, isSuperuser := true)
    else if u.role == BRANCH_MANAGER then u.(isStaff := false, isSuperuser := false)
    else u
  }

  /** What the role demands of the flags; a user of any other role may hold either value. */
  predicate FlagsAgreeWithRole(u: User) {
    && (u.role == ADMIN ==> u.isStaff && u.isSuperuser)
    && (u.role == BRANCH_MANAGER ==> !u.isStaff && !u.isSuperuser)
  }

  /** The group `save` adds the user to, by role. */
  function RoleGroup(role: string): (g: Option<string>)
    ensures g.Some? <==> role == ADMIN || role == BRANCH_MANAGER
    ensures g == Some(ADMIN_GROUP) <==> role == ADMIN
    ensures g == Some(BRANCH_MANAGER_GROUP) <==> role == BRANCH_MANAGER
  {
    if role == ADMIN then Some(ADMIN_GROUP)
    else if role == BRANCH_MANAGER then Some(BRANCH_MANAGER_GROUP)
    else None
  }

  /** One database write made by `User.save`, in the order it is made. */
  datatype UserWrite = UserRow(id: UserId, row: User) | GroupRow(name: string) | MembershipRow(id: UserId, group: string)

  /** The user table, the group table and the user-to-group membership table. */
  class UserTable {
    var users: map<UserId, User>
    var groups: set<string>
    var memberships: set<(UserId, string)>
    var journal: seq<UserWrite>

    /** Every stored user's flags agree with its role and the user is in its role's group. */
    ghost predicate Valid()
      reads this
    {
      forall id :: id in users ==>
        && FlagsAgreeWithRole(users[id])
        && (RoleGroup(users[id].role).Some? ==>
              RoleGroup(users[id].role).value in groups &&
              (id, RoleGroup(users[id].role).value) in memberships)
    }

    constructor ()
      ensures Valid()
      ensures users == map[] && groups == {} && memberships == {} && journal == []
    {
      users, groups, memberships, journal := map[], {}, {}, [];
    }

    /** `User.save` (apps/users/models.py:13-28). */
    method Save(id: UserId, u: User) returns (saved: User)
      requires Valid()
      modifies this
      ensures Valid()
      ensures saved == WithRoleFlags(u)
      ensures users == old(users)[id := saved]
      // groups and memberships are only ever added to: a role change keeps the old group
      ensures old(memberships) <= memberships && old(groups) <= groups
      ensures RoleGroup(u.role).None? ==> memberships == old(memberships) && groups == old(groups)
      ensures RoleGroup(u.role).Some? ==>
                groups == old(groups) + {RoleGroup(u.role).value} &&
                memberships == old(memberships) + {(id, RoleGroup(u.role).value)}
      // the flags are part of the persisted row; the membership is written after it
      ensures journal == old(journal) + [UserRow(id, saved)] + GroupWrites(old(groups), old(memberships), id, u.role)
    {
      saved := WithRoleFlags(u);
      users := users[id := saved];
      journal := journal + [UserRow(id, saved)];
      var group := RoleGroup(u.role);
      if group.Some? {
        // Group.objects.get_or_create(name=...) then self.groups.add(...)
        var name := group.value;
        if name !in groups {
          groups := groups + {name};
          journal := journal + [GroupRow(name)];
        }
        // groups.add inserts only a membership that is not there yet
        if (id, name) !in memberships {
          memberships := memberships + {(id, name)};
          journal := journal + [MembershipRow(id, name)];
        }
      }
    }
  }

  /**
   * The writes that follow the user row: the group row when the group is new, then
   * the membership row when the membership is new, and nothing else.
   */
  function GroupWrites(groups: set<string>, memberships: set<(UserId, string)>, id: UserId, role: string)
    : (w: seq<UserWrite>)
    ensures RoleGroup(role).None? ==> w == []
    ensures RoleGroup(role).Some? ==>
              var name := RoleGroup(role).value;
              && (GroupRow(name) in w <==> name !in groups)
              && (MembershipRow(id, name) in w <==> (id, name) !in memberships)
              && (forall i :: 0 <= i < |w| ==> w[i] == GroupRow(name) || w[i] == MembershipRow(id, name))
              && |w| <= 2
              && (|w| == 2 ==> w == [GroupRow(name), MembershipRow(id, name)])
  {
    match RoleGroup(role)
    case None => []
    case Some(name) =>
      (if name in groups then [] else [GroupRow(name)]) +
      (if (id, name) in memberships then [] else [MembershipRow(id, name)])
  }
}
