/**
 * What every server action shares: the response shape, the exception-to-message rule, the
 * record of which collaborators were consulted, and the one store write an action may issue.
 */
module Gates {
  import opened Wrappers
  import opened Domain
  import opened Permissions
  import opened Resolver

  /** `{ success: true }` or `{ success: false, error }`. */
  datatype Response = Ok | Fail(error: string)

  /**
   * A value thrown by a collaborator: an `Error` (with its message) or anything else (with
   * what `String(value)` gives).
   */
  datatype Thrown = ErrorInstance(message: string) | NonError(text: string)

  /** `error instanceof Error ? error.message : fallback`. */
  function MessageOf(t: Thrown, fallback: string): string {
    match t
    case ErrorInstance(m) => m
    case NonError(_) => fallback
  }

  /** `error instanceof Error ? error.message : String(error)`. */
  function Describe(t: Thrown): string {
    match t
    case ErrorInstance(m) => m
    case NonError(text) => text
  }

  /** A read the action performs before deciding. */
  datatype Lookup =
    | FindThread(threadId: string)
    | FindComment(commentId: string)
    | FindProject(projectId: string)
    | LoadPermissions(userId: string, orgId: string, contextProject: Option<string>)

  /** `UpdateThreadData`: every field optional; `assignedTo` may be present and `null`. */
  datatype ThreadPatch = ThreadPatch(
    title: Option<string>,
    content: Option<string>,
    status: Option<ThreadStatus>,
    priorityWeight: Option<int>,
    assignedTo: Option<Option<string>>)

  /** `CreateThreadData` as the thread store receives it. */
  datatype ThreadDraft = ThreadDraft(
    projectId: string, authorId: string, title: string, content: string, originalLanguage: string)

  /** `CreateCommentData` as the comment store receives it. */
  datatype CommentDraft = CommentDraft(
    threadId: string, authorId: string, content: string, originalLanguage: string)

  /** The project payloads, passed to the project store unchanged. */
  datatype ProjectData = ProjectData(
    organizationId: string, name: string, description: Option<string>, slug: string, isPublic: bool)
  datatype ProjectChanges = ProjectChanges(
    name: Option<string>, description: Option<string>, slug: Option<string>, isPublic: Option<bool>)

  /** The single store mutation an action may issue. */
  datatype Write =
    | CreateThreadWrite(draft: ThreadDraft)
    | UpdateThreadWrite(threadId: string, patch: ThreadPatch)
    | DeleteThreadWrite(threadId: string)
    | CreateCommentWrite(commentDraft: CommentDraft)
    | UpdateCommentWrite(commentId: string, newContent: string)
    | DeleteCommentWrite(commentId: string)
    | CreateProjectWrite(data: ProjectData)
    | UpdateProjectWrite(projectId: string, changes: ProjectChanges)
    | DeleteProjectWrite(projectId: string)
    | FollowWrite(userId: string, followedProject: string)
    | UnfollowWrite(userId: string, unfollowedProject: string)

  /**
   * One run of an action: its response, the reads it made in order, and the write it issued
   * (`None` when the store was left untouched).
   */
  datatype Run = Run(response: Response, lookups: seq<Lookup>, write: Option<Write>)

  /** The stores an action reads. */
  datatype World = World(
    roles: RoleStore,
    threads: map<string, Thread>,
    comments: map<string, Comment>,
    projects: map<string, Project>)

  /** The acting user's permissions in a thread's or project's context. */
  function PermissionsIn(w: World, userId: string, orgId: string, projectId: Option<string>): seq<Token> {
    UserPermissions(w.roles, userId, orgId, projectId)
  }

  /**
   * The final step of every action: issue `write`; if the store throws, the exception is
   * caught and turned into `success: false` with its message, never rethrown.
   */
  function Issue(lookups: seq<Lookup>, write: Write, fault: Option<Thrown>, fallback: string): (r: Run)
    ensures r.write == Some(write) && r.lookups == lookups
    ensures fault.None? ==> r.response == Ok
    ensures fault.Some? ==> r.response == Fail(MessageOf(fault.value, fallback))
  {
    match fault
    case None => Run(Ok, lookups, Some(write))
    case Some(t) => Run(Fail(MessageOf(t, fallback)), lookups, Some(write))
  }

  /** A refusal: the store is not touched. */
  function Refuse(lookups: seq<Lookup>, error: string): (r: Run)
    ensures r.write.None? && r.response == Fail(error) && r.lookups == lookups
  {
    Run(Fail(error), lookups, None)
  }

  /**
   * The own/any choice at the call site: the `:own` token when the actor wrote the resource,
   * otherwise the `:any` token. Only the chosen token is consulted.
   */
  function OwnOrAny(actorId: string, authorId: string, own: Token, any: Token): (t: Token)
    ensures actorId == authorId ==> t == own
    ensures actorId != authorId ==> t == any
  {
    if actorId == authorId then own else any
  }
}
