/**
 * `getUserPermissions`: merges the organization-role table and, when a project is named,
 * the project-role table into one list without duplicates.
 */
module Resolver {
  import opened Wrappers
  import opened Seqs
  import opened Permissions
  import opened Domain

  /** The tokens the organization row contributes: none when there is no row. */
  function OrgPart(store: RoleStore, userId: string, orgId: string): seq<Token> {
    match Find(store.orgRoles, (orgId, userId))
    case Some(role) => OrgPermissions(role)
    case None => []
  }

  /**
   * The tokens the project row contributes. The project store is consulted only when
   * `projectId` is truthy (present and not `""`), keyed on exactly `(projectId, userId)`.
   */
  function ProjectPart(store: RoleStore, userId: string, projectId: Option<string>): seq<Token> {
    if !Truthy(projectId) then []
    else match Find(store.projectRoles, (projectId.value, userId))
      case Some(role) => ProjectPermissions(role)
      case None => []
  }

  /** The user's permissions in the context `(orgId, projectId?)`. */
  function UserPermissions(store: RoleStore, userId: string, orgId: string, projectId: Option<string>)
    : (r: seq<Token>)
    ensures NoDup(r)
    ensures Elems(r) == Elems(OrgPart(store, userId, orgId)) + Elems(ProjectPart(store, userId, projectId))
    ensures (orgId, userId) !in store.orgRoles && !(Truthy(projectId) && (projectId.value, userId) in store.projectRoles)
            ==> r == []
  {
    Dedup(OrgPart(store, userId, orgId) + ProjectPart(store, userId, projectId))
  }

  /**
   * The order of the result: the organization tokens in table order, then the project tokens
   * not already present, in table order.
   */
  lemma {:induction false} UserPermissionsOrder(store: RoleStore, userId: string, orgId: string, projectId: Option<string>)
    ensures UserPermissions(store, userId, orgId, projectId)
         == OrgPart(store, userId, orgId)
            + DedupFrom(ProjectPart(store, userId, projectId), Elems(OrgPart(store, userId, orgId)))
  {
    var o := OrgPart(store, userId, orgId);
    var p := ProjectPart(store, userId, projectId);
    TablesHaveNoDuplicates();
    DedupFromAppend(o, p, {});
    DedupFromOfNoDup(o, {});
    assert {} + Elems(o) == Elems(o);
  }

  /** With an organization row of role `role` and no project, the result is exactly that role's table. */
  lemma {:induction false} OrgOnlyContext(store: RoleStore, userId: string, orgId: string, role: OrgRole)
    requires (orgId, userId) in store.orgRoles && store.orgRoles[(orgId, userId)] == role
    ensures UserPermissions(store, userId, orgId, None) == OrgPermissions(role)
  {
    UserPermissionsOrder(store, userId, orgId, None);
    assert DedupFrom([], Elems(OrgPermissions(role))) == [];
  }

  /**
   * With no organization row and a project row of role `role` on a truthy project, the result
   * is exactly that project role's table.
   */
  lemma {:induction false} ProjectOnlyContext(store: RoleStore, userId: string, orgId: string, projectId: string, role: ProjectRole)
    requires (orgId, userId) !in store.orgRoles
    requires projectId != "" && (projectId, userId) in store.projectRoles && store.projectRoles[(projectId, userId)] == role
    ensures UserPermissions(store, userId, orgId, Some(projectId)) == ProjectPermissions(role)
  {
    UserPermissionsOrder(store, userId, orgId, Some(projectId));
    assert OrgPart(store, userId, orgId) == [];
    assert Elems<Token>([]) == {};
    assert ProjectPart(store, userId, Some(projectId)) == ProjectPermissions(role);
    TablesHaveNoDuplicates();
    DedupFromOfNoDup(ProjectPermissions(role), {});
  }

  /**
   * Context isolation: a project row on `p1` contributes nothing when the context names
   * another project `p2` on which the user has no row.
   */
  lemma ProjectRoleStaysInItsProject(store: RoleStore, userId: string, orgId: string, p1: string, p2: string)
    requires (p1, userId) in store.projectRoles
    requires p2 != p1 && (p2, userId) !in store.projectRoles
    ensures UserPermissions(store, userId, orgId, Some(p2)) == UserPermissions(store, userId, orgId, None)
  {}

  /** No membership in either scope: no permissions, and no failure. */
  lemma NoMembershipNoPermissions(store: RoleStore, userId: string, orgId: string, projectId: Option<string>)
    requires (orgId, userId) !in store.orgRoles
    requires projectId.Some? ==> (projectId.value, userId) !in store.projectRoles
    ensures UserPermissions(store, userId, orgId, projectId) == []
  {}

  /** Every token in the result comes from a table of a role the user actually holds. */
  lemma {:induction false} OnlyHeldRolesContribute(store: RoleStore, userId: string, orgId: string, projectId: Option<string>, t: Token)
    requires t in UserPermissions(store, userId, orgId, projectId)
    ensures || ((orgId, userId) in store.orgRoles && t in OrgPermissions(store.orgRoles[(orgId, userId)]))
            || (Truthy(projectId) && (projectId.value, userId) in store.projectRoles
                && t in ProjectPermissions(store.projectRoles[(projectId.value, userId)]))
  {
    var r := UserPermissions(store, userId, orgId, projectId);
    assert t in Elems(r);
  }
}
