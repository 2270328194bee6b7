/**
 * `services/Projects.ts`: a user's role in one project, and the projects a user reaches only
 * through project membership (those outside every organization the user belongs to).
 */
module ProjectsService {
  import opened Wrappers
  import opened Seqs
  import opened Permissions
  import opened Domain
  import opened Resolver

  /** What a service call gives: a value, or the `Error` it throws with that message. */
  datatype Answer<T> = Value(value: T) | Raised(message: string)

  /**
   * A store failure: the foreign-key violation (code P2003) the service names, or any other
   * failure.
   */
  datatype StoreFault = ForeignKeyViolation | OtherFault

  /** A project membership row with its project (and so the project's organization) joined in. */
  datatype ProjectMembership = ProjectMembership(userId: string, project: Project, role: ProjectRole)

  /** `getUserRoleInProject`: the row's role, `null` (here `None`) without a row. */
  function UserRoleInProject(store: RoleStore, userId: string, projectId: string, fault: Option<StoreFault>)
    : (r: Answer<Option<ProjectRole>>)
    ensures fault == Some(ForeignKeyViolation) ==> r == Raised("Invalid project or user ID")
    ensures fault == Some(OtherFault) ==> r == Raised("Failed to retrieve user role in project")
    ensures fault.None? ==> r.Value?
    ensures r.Value? ==> (r.value.Some? <==> (projectId, userId) in store.projectRoles)
    ensures r.Value? && r.value.Some? ==> r.value.value == store.projectRoles[(projectId, userId)]
  {
    match fault
    case Some(ForeignKeyViolation) => Raised("Invalid project or user ID")
    case Some(OtherFault) => Raised("Failed to retrieve user role in project")
    case None => Value(Find(store.projectRoles, (projectId, userId)))
  }

  /**
   * The role this service reports is the one whose table the resolver adds for that project:
   * a reported role contributes its table, no role contributes nothing.
   */
  lemma RoleMatchesResolver(store: RoleStore, userId: string, projectId: string)
    requires projectId != ""
    ensures var r := UserRoleInProject(store, userId, projectId, None);
            ProjectPart(store, userId, Some(projectId))
              == (match r.value case Some(role) => ProjectPermissions(role) case None => [])
  {}

  /** The organizations the user holds a membership row in. */
  function UserOrgIds(orgRoles: map<(string, string), OrgRole>, userId: string): (r: set<string>)
    ensures forall o :: o in r <==> (o, userId) in orgRoles
  {
    set k | k in orgRoles && k.1 == userId :: k.0
  }

  /** `projectMember.findMany({ where: { userId } })`, in the store's row order. */
  function MembershipsOf(rows: seq<ProjectMembership>, userId: string): seq<ProjectMembership> {
    Filter(rows, (pm: ProjectMembership) => pm.userId == userId)
  }

  /**
   * `getUserContributorProjects`: the user's project memberships whose project lies in an
   * organization the user is not a member of. `rows` are all project membership rows in store
   * order.
   */
  function ContributorProjects(rows: seq<ProjectMembership>, orgRoles: map<(string, string), OrgRole>,
                               userId: string, fault: Option<StoreFault>): (r: Answer<seq<ProjectMembership>>)
    ensures fault == Some(ForeignKeyViolation) ==> r == Raised("Invalid user ID")
    ensures fault == Some(OtherFault) ==> r == Raised("Failed to retrieve contributor projects")
    ensures fault.None? ==> r.Value?
    ensures r.Value? ==> forall pm | pm in r.value ::
              pm in rows && pm.userId == userId && (pm.project.organizationId, userId) !in orgRoles
    ensures r.Value? ==> forall pm | pm in rows ::
              pm.userId == userId && (pm.project.organizationId, userId) !in orgRoles ==> pm in r.value
  {
    match fault
    case Some(ForeignKeyViolation) => Raised("Invalid user ID")
    case Some(OtherFault) => Raised("Failed to retrieve contributor projects")
    case None =>
      var orgIds := UserOrgIds(orgRoles, userId);
      var mine := MembershipsOf(rows, userId);
      var kept := Filter(mine, (pm: ProjectMembership) => pm.project.organizationId !in orgIds);
      assert forall pm | pm in rows && pm.userId == userId :: pm in mine;
      Value(kept)
  }

  /** The result keeps the user's memberships in their row order, dropping some. */
  lemma {:induction false} ContributorProjectsKeepOrder(rows: seq<ProjectMembership>,
                                                       orgRoles: map<(string, string), OrgRole>, userId: string)
    ensures IsSubsequence(ContributorProjects(rows, orgRoles, userId, None).value, MembershipsOf(rows, userId))
  {
    var orgIds := UserOrgIds(orgRoles, userId);
    FilterIsSubsequence(MembershipsOf(rows, userId), (pm: ProjectMembership) => pm.project.organizationId !in orgIds);
  }

  /** A user in no organization gets every one of their project memberships back. */
  lemma {:induction false} NoOrganizationsKeepsEverything(rows: seq<ProjectMembership>,
                                                         orgRoles: map<(string, string), OrgRole>, userId: string)
    requires forall k | k in orgRoles :: k.1 != userId
    ensures ContributorProjects(rows, orgRoles, userId, None).value == MembershipsOf(rows, userId)
  {
    var orgIds := UserOrgIds(orgRoles, userId);
    assert forall pm: ProjectMembership :: pm.project.organizationId !in orgIds;
    FilterKeepsAll(MembershipsOf(rows, userId), (pm: ProjectMembership) => pm.project.organizationId !in orgIds);
  }
}
