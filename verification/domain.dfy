/**
 * The entities the core reads: users, threads, comments, projects, and the two role stores.
 * Timestamps are integers (milliseconds); identifiers are opaque strings.
 */
module Domain {
  import opened Wrappers
  import opened Permissions

  /** The signed-in user carried by the session. */
  datatype User = User(id: string, email: string, preferredLanguage: Option<string>)

  datatype ThreadStatus = New | UnderReview | Planned | Completed | WontFix

  /**
   * A thread as the thread store returns it, with its project's organization joined in
   * (`thread.project.organizationId`) and its comment count (`_count.comments`).
   */
  datatype Thread = Thread(
    id: string,
    projectId: string,
    organizationId: string,
    authorId: string,
    title: string,
    content: string,
    status: ThreadStatus,
    priorityWeight: int,
    assignedTo: Option<string>,
    originalLanguage: string,
    createdAt: int,
    commentCount: nat)

  datatype Comment = Comment(id: string, threadId: string, authorId: string, content: string)

  datatype Project = Project(id: string, organizationId: string)

  /**
   * The membership rows: `(organizationId, userId) -> role` and `(projectId, userId) -> role`.
   * Each pair has at most one row, as the stores' compound unique keys demand.
   */
  datatype RoleStore = RoleStore(
    orgRoles: map<(string, string), OrgRole>,
    projectRoles: map<(string, string), ProjectRole>)

  /** JavaScript truthiness of an optional string: absent and `""` are both false. */
  predicate Truthy(s: Option<string>) {
    s.Some? && s.value != ""
  }

  /** `session.user.preferredLanguage || "en"`. */
  function LanguageOf(u: User): (r: string)
    ensures Truthy(u.preferredLanguage) ==> r == u.preferredLanguage.value
    ensures !Truthy(u.preferredLanguage) ==> r == "en"
    ensures r != ""
  {
    if Truthy(u.preferredLanguage) then u.preferredLanguage.value else "en"
  }
}
