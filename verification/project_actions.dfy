/** The authorization gates of the project actions. */
module ProjectActions {
  import opened Wrappers
  import opened Domain
  import opened Permissions
  import opened Gates

  /** `createProject`: evaluated in the organization alone (no project), needs `project:create`. */
  function CreateProject(session: Option<User>, w: World, data: ProjectData, fault: Option<Thrown>): (r: Run)
    ensures session.None? ==> r == Run(Fail("Unauthorized"), [], None)
    ensures session.Some? ==> r.lookups == [LoadPermissions(session.value.id, data.organizationId, None)]
    ensures r.write.Some? <==>
              session.Some? && ProjectCreate in PermissionsIn(w, session.value.id, data.organizationId, None)
    ensures r.write.Some? ==> r.write.value == CreateProjectWrite(data)
    ensures r.response.Ok? <==> r.write.Some? && fault.None?
  {
    if session.None? then Refuse([], "Unauthorized")
    else
      var u := session.value;
      var looked := [LoadPermissions(u.id, data.organizationId, None)];
      if !HasPermission(PermissionsIn(w, u.id, data.organizationId, None), ProjectCreate) then
        Refuse(looked, "Insufficient permissions")
      else Issue(looked, CreateProjectWrite(data), fault, "Failed to create project")
  }

  /** The project's own context: its organization and itself. */
  function ProjectPermissionsIn(w: World, userId: string, projectId: string): seq<Token>
    requires projectId in w.projects
  {
    PermissionsIn(w, userId, w.projects[projectId].organizationId, Some(projectId))
  }

  /** `updateProject`: needs `project:update` in the organization-plus-project context. */
  function UpdateProject(session: Option<User>, w: World, projectId: string, changes: ProjectChanges,
                         fault: Option<Thrown>): (r: Run)
    ensures session.None? ==> r == Run(Fail("Unauthorized"), [], None)
    ensures session.Some? && projectId !in w.projects ==> r == Run(Fail("Project not found"), [FindProject(projectId)], None)
    ensures r.write.Some? <==>
              session.Some? && projectId in w.projects && ProjectUpdate in ProjectPermissionsIn(w, session.value.id, projectId)
    ensures r.write.Some? ==> r.write.value == UpdateProjectWrite(projectId, changes)
    ensures r.response.Ok? <==> r.write.Some? && fault.None?
  {
    if session.None? then Refuse([], "Unauthorized")
    else
      var u := session.value;
      if projectId !in w.projects then Refuse([FindProject(projectId)], "Project not found")
      else
        var looked := [FindProject(projectId), LoadPermissions(u.id, w.projects[projectId].organizationId, Some(projectId))];
        if !HasPermission(ProjectPermissionsIn(w, u.id, projectId), ProjectUpdate) then
          Refuse(looked, "Insufficient permissions")
        else Issue(looked, UpdateProjectWrite(projectId, changes), fault, "Failed to update project")
  }

  /** `deleteProject`: needs `project:delete`. */
  function DeleteProject(session: Option<User>, w: World, projectId: string, fault: Option<Thrown>): (r: Run)
    ensures session.None? ==> r == Run(Fail("Unauthorized"), [], None)
    ensures session.Some? && projectId !in w.projects ==> r == Run(Fail("Project not found"), [FindProject(projectId)], None)
    ensures r.write.Some? <==>
              session.Some? && projectId in w.projects && ProjectDelete in ProjectPermissionsIn(w, session.value.id, projectId)
    ensures r.write.Some? ==> r.write.value == DeleteProjectWrite(projectId)
    ensures r.response.Ok? <==> r.write.Some? && fault.None?
  {
    if session.None? then Refuse([], "Unauthorized")
    else
      var u := session.value;
      if projectId !in w.projects then Refuse([FindProject(projectId)], "Project not found")
      else
        var looked := [FindProject(projectId), LoadPermissions(u.id, w.projects[projectId].organizationId, Some(projectId))];
        if !HasPermission(ProjectPermissionsIn(w, u.id, projectId), ProjectDelete) then
          Refuse(looked, "Insufficient permissions")
        else Issue(looked, DeleteProjectWrite(projectId), fault, "Failed to delete project")
  }

  /** Only an organization owner or admin can delete a project: no project role grants it. */
  lemma {:induction false} DeleteNeedsOwnerOrAdmin(u: User, w: World, projectId: string, fault: Option<Thrown>)
    requires DeleteProject(Some(u), w, projectId, fault).write.Some?
    ensures projectId in w.projects
    ensures var key := (w.projects[projectId].organizationId, u.id);
            key in w.roles.orgRoles && w.roles.orgRoles[key] in {Owner, Admin}
  {
    var org := w.projects[projectId].organizationId;
    Resolver.OnlyHeldRolesContribute(w.roles, u.id, org, Some(projectId), ProjectDelete);
    ProjectDeleteHolders();
  }

  /** `followProject`: authentication only, no permission token. */
  function FollowProject(session: Option<User>, projectId: string, fault: Option<Thrown>): (r: Run)
    ensures r.lookups == []
    ensures session.None? ==> r == Run(Fail("Unauthorized"), [], None)
    ensures session.Some? ==> r.write == Some(FollowWrite(session.value.id, projectId))
    ensures r.response.Ok? <==> session.Some? && fault.None?
  {
    if session.None? then Refuse([], "Unauthorized")
    else Issue([], FollowWrite(session.value.id, projectId), fault, "Failed to follow project")
  }

  /** `unfollowProject`: authentication only, no permission token. */
  function UnfollowProject(session: Option<User>, projectId: string, fault: Option<Thrown>): (r: Run)
    ensures r.lookups == []
    ensures session.None? ==> r == Run(Fail("Unauthorized"), [], None)
    ensures session.Some? ==> r.write == Some(UnfollowWrite(session.value.id, projectId))
    ensures r.response.Ok? <==> session.Some? && fault.None?
  {
    if session.None? then Refuse([], "Unauthorized")
    else Issue([], UnfollowWrite(session.value.id, projectId), fault, "Failed to unfollow project")
  }
}
