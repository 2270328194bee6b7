/** The authorization gates of `createThread`, `updateThread` and `deleteThread`. */
module ThreadActions {
  import opened Wrappers
  import opened Domain
  import opened Permissions
  import opened Gates

  /** The title/content group is present when either field is truthy: `""` does not count. */
  predicate TextGroupPresent(p: ThreadPatch) {
    Truthy(p.title) || Truthy(p.content)
  }

  /** Every field group the patch carries is backed by its own token. */
  predicate PatchAuthorized(perms: seq<Token>, isOwn: bool, p: ThreadPatch) {
    && (TextGroupPresent(p) ==> (if isOwn then ThreadUpdateOwn in perms else ThreadUpdateAny in perms))
    && (p.status.Some? ==> ThreadStatusUpdate in perms)
    && (p.priorityWeight.Some? ==> ThreadPriorityUpdate in perms)
    && (p.assignedTo.Some? ==> ThreadAssign in perms)
  }

  const TextDenied := "Insufficient permissions to update thread"
  const StatusDenied := "Insufficient permissions to update status"
  const PriorityDenied := "Insufficient permissions to update priority"
  const AssignDenied := "Insufficient permissions to assign thread"

  /** `createThread`: the author is the actor and the language is theirs, or `"en"`. */
  function CreateThread(session: Option<User>, w: World, projectId: string, title: string, content: string,
                        fault: Option<Thrown>): (r: Run)
    ensures session.None? ==> r == Run(Fail("Unauthorized"), [], None)
    ensures session.Some? && projectId !in w.projects ==> r == Run(Fail("Project not found"), [FindProject(projectId)], None)
    ensures r.write.Some? <==>
              && session.Some? && projectId in w.projects
              && ThreadCreate in PermissionsIn(w, session.value.id, w.projects[projectId].organizationId, Some(projectId))
    ensures r.write.Some? ==> r.write.value == CreateThreadWrite(
              ThreadDraft(projectId, session.value.id, title, content, LanguageOf(session.value)))
    ensures r.response.Ok? <==> r.write.Some? && fault.None?
  {
    if session.None? then Refuse([], "Unauthorized")
    else
      var u := session.value;
      if projectId !in w.projects then Refuse([FindProject(projectId)], "Project not found")
      else
        var org := w.projects[projectId].organizationId;
        var looked := [FindProject(projectId), LoadPermissions(u.id, org, Some(projectId))];
        if !HasPermission(PermissionsIn(w, u.id, org, Some(projectId)), ThreadCreate) then
          Refuse(looked, "Insufficient permissions")
        else
          Issue(looked, CreateThreadWrite(ThreadDraft(projectId, u.id, title, content, LanguageOf(u))),
                fault, "Failed to create thread")
  }

  /** The thread's own context: its organization and its project. */
  function ThreadPermissions(w: World, userId: string, t: Thread): seq<Token> {
    PermissionsIn(w, userId, t.organizationId, Some(t.projectId))
  }

  /**
   * `updateThread`. The field groups are checked in the order title/content, status, priority,
   * assignment; the first failing group decides the message, and the single store update is
   * issued only after every present group has passed.
   */
  function UpdateThread(session: Option<User>, w: World, threadId: string, patch: ThreadPatch,
                        fault: Option<Thrown>): (r: Run)
    ensures session.None? ==> r == Run(Fail("Unauthorized"), [], None)
    ensures session.Some? && threadId !in w.threads ==> r == Run(Fail("Thread not found"), [FindThread(threadId)], None)
    ensures r.write.Some? <==>
              && session.Some? && threadId in w.threads
              && PatchAuthorized(ThreadPermissions(w, session.value.id, w.threads[threadId]),
                                 w.threads[threadId].authorId == session.value.id, patch)
    ensures r.write.Some? ==> r.write.value == UpdateThreadWrite(threadId, patch)
    ensures r.response.Ok? <==> r.write.Some? && fault.None?
    ensures session.Some? && threadId in w.threads ==>
              var perms := ThreadPermissions(w, session.value.id, w.threads[threadId]);
              var isOwn := w.threads[threadId].authorId == session.value.id;
              var textOk := TextGroupPresent(patch) ==> (if isOwn then ThreadUpdateOwn in perms else ThreadUpdateAny in perms);
              var statusOk := patch.status.Some? ==> ThreadStatusUpdate in perms;
              var priorityOk := patch.priorityWeight.Some? ==> ThreadPriorityUpdate in perms;
              && r.lookups == [FindThread(threadId), LoadPermissions(session.value.id, w.threads[threadId].organizationId,
                                                                     Some(w.threads[threadId].projectId))]
              && (!textOk ==> r.response == Fail(TextDenied))
              && (textOk && !statusOk ==> r.response == Fail(StatusDenied))
              && (textOk && statusOk && !priorityOk ==> r.response == Fail(PriorityDenied))
              && (textOk && statusOk && priorityOk && patch.assignedTo.Some? && ThreadAssign !in perms
                  ==> r.response == Fail(AssignDenied))
  {
    if session.None? then Refuse([], "Unauthorized")
    else
      var u := session.value;
      if threadId !in w.threads then Refuse([FindThread(threadId)], "Thread not found")
      else
        var t := w.threads[threadId];
        var looked := [FindThread(threadId), LoadPermissions(u.id, t.organizationId, Some(t.projectId))];
        var perms := ThreadPermissions(w, u.id, t);
        var isOwn := t.authorId == u.id;
        if TextGroupPresent(patch)
           && !HasPermission(perms, OwnOrAny(u.id, t.authorId, ThreadUpdateOwn, ThreadUpdateAny)) then
          Refuse(looked, TextDenied)
        else if patch.status.Some? && !HasPermission(perms, ThreadStatusUpdate) then
          Refuse(looked, StatusDenied)
        else if patch.priorityWeight.Some? && !HasPermission(perms, ThreadPriorityUpdate) then
          Refuse(looked, PriorityDenied)
        else if patch.assignedTo.Some? && !HasPermission(perms, ThreadAssign) then
          Refuse(looked, AssignDenied)
        else
          Issue(looked, UpdateThreadWrite(threadId, patch), fault, "Failed to update thread")
  }

  /** `deleteThread`: `thread:delete:own` on one's own thread, `thread:delete:any` otherwise. */
  function DeleteThread(session: Option<User>, w: World, threadId: string, fault: Option<Thrown>): (r: Run)
    ensures session.None? ==> r == Run(Fail("Unauthorized"), [], None)
    ensures session.Some? && threadId !in w.threads ==> r == Run(Fail("Thread not found"), [FindThread(threadId)], None)
    ensures r.write.Some? <==>
              && session.Some? && threadId in w.threads
              && (if w.threads[threadId].authorId == session.value.id
                  then ThreadDeleteOwn in ThreadPermissions(w, session.value.id, w.threads[threadId])
                  else ThreadDeleteAny in ThreadPermissions(w, session.value.id, w.threads[threadId]))
    ensures r.write.Some? ==> r.write.value == DeleteThreadWrite(threadId)
    ensures r.response.Ok? <==> r.write.Some? && fault.None?
    ensures session.Some? && threadId in w.threads && r.write.None? ==> r.response == Fail("Insufficient permissions")
  {
    if session.None? then Refuse([], "Unauthorized")
    else
      var u := session.value;
      if threadId !in w.threads then Refuse([FindThread(threadId)], "Thread not found")
      else
        var t := w.threads[threadId];
        var looked := [FindThread(threadId), LoadPermissions(u.id, t.organizationId, Some(t.projectId))];
        if !HasPermission(ThreadPermissions(w, u.id, t), OwnOrAny(u.id, t.authorId, ThreadDeleteOwn, ThreadDeleteAny)) then
          Refuse(looked, "Insufficient permissions")
        else
          Issue(looked, DeleteThreadWrite(threadId), fault, "Failed to delete thread")
  }

  /** A patch whose only text is `""` skips the title/content check altogether. */
  lemma EmptyTextSkipsCheck(session: Option<User>, w: World, threadId: string, fault: Option<Thrown>)
    requires session.Some? && threadId in w.threads
    ensures UpdateThread(session, w, threadId, ThreadPatch(Some(""), Some(""), None, None, None), fault).write.Some?
  {}

  /** `assignedTo: null` is present: it needs `thread:assign`. */
  lemma NullAssigneeNeedsAssign(session: Option<User>, w: World, threadId: string, fault: Option<Thrown>)
    requires session.Some? && threadId in w.threads
    requires ThreadAssign !in ThreadPermissions(w, session.value.id, w.threads[threadId])
    ensures UpdateThread(session, w, threadId, ThreadPatch(None, None, None, None, Some(None)), fault)
         == Run(Fail(AssignDenied),
                [FindThread(threadId), LoadPermissions(session.value.id, w.threads[threadId].organizationId,
                                                       Some(w.threads[threadId].projectId))],
                None)
  {}

  /**
   * An organization owner editing the text of a thread they wrote is refused: the owner table
   * holds `thread:update:any` but not `thread:update:own`, and only the latter is consulted.
   * The same owner may edit someone else's thread.
   */
  lemma OwnerCannotEditOwnThread(u: User, w: World, threadId: string, fault: Option<Thrown>)
    requires threadId in w.threads
    requires (w.threads[threadId].organizationId, u.id) in w.roles.orgRoles
    requires w.roles.orgRoles[(w.threads[threadId].organizationId, u.id)] == Owner
    requires (w.threads[threadId].projectId, u.id) !in w.roles.projectRoles
    ensures var p := ThreadPatch(Some("New title"), None, None, None, None);
            var r := UpdateThread(Some(u), w, threadId, p, fault);
            (w.threads[threadId].authorId == u.id ==> r.write.None? && r.response == Fail(TextDenied))
            && (w.threads[threadId].authorId != u.id ==> r.write.Some?)
  {
    var t := w.threads[threadId];
    var p := ThreadPatch(Some("New title"), None, None, None, None);
    Resolver.OrgOnlyContext(w.roles, u.id, t.organizationId, Owner);
    var perms := ThreadPermissions(w, u.id, t);
    assert perms == OwnerTokens;
    assert ThreadUpdateAny in perms by { assert OwnerTokens[18] == ThreadUpdateAny; }
    assert ThreadUpdateOwn !in perms by {
      HighRolesHoldNoOwnQualified();
      assert IsOwnQualified(ThreadUpdateOwn);
    }
    assert TextGroupPresent(p);
    assert PatchAuthorized(perms, t.authorId == u.id, p) <==> t.authorId != u.id;
  }

  /** A member may edit their own thread and not anyone else's. */
  lemma MemberEditsOnlyOwnThread(u: User, w: World, threadId: string, fault: Option<Thrown>)
    requires threadId in w.threads
    requires (w.threads[threadId].organizationId, u.id) in w.roles.orgRoles
    requires w.roles.orgRoles[(w.threads[threadId].organizationId, u.id)] == Member
    requires (w.threads[threadId].projectId, u.id) !in w.roles.projectRoles
    ensures var p := ThreadPatch(None, Some("Edited"), None, None, None);
            UpdateThread(Some(u), w, threadId, p, fault).write.Some? <==> w.threads[threadId].authorId == u.id
  {
    var t := w.threads[threadId];
    var p := ThreadPatch(None, Some("Edited"), None, None, None);
    Resolver.OrgOnlyContext(w.roles, u.id, t.organizationId, Member);
    var perms := ThreadPermissions(w, u.id, t);
    assert perms == MemberTokens;
    assert ThreadUpdateOwn in perms by { assert MemberTokens[5] == ThreadUpdateOwn; }
    assert ThreadUpdateAny !in perms by {
      LowRolesHoldOnlyOwnQualified();
      assert IsAnyQualified(ThreadUpdateAny);
    }
    assert TextGroupPresent(p);
    assert PatchAuthorized(perms, t.authorId == u.id, p) <==> t.authorId == u.id;
  }

  /**
   * All or nothing: a patch touching status and priority, by someone who may change the
   * status but not the priority, is refused in full and the store is never written.
   */
  lemma PartialAuthorityWritesNothing(session: Option<User>, w: World, threadId: string,
                                      s: ThreadStatus, weight: int, fault: Option<Thrown>)
    requires session.Some? && threadId in w.threads
    requires ThreadStatusUpdate in ThreadPermissions(w, session.value.id, w.threads[threadId])
    requires ThreadPriorityUpdate !in ThreadPermissions(w, session.value.id, w.threads[threadId])
    ensures UpdateThread(session, w, threadId, ThreadPatch(None, None, Some(s), Some(weight), None), fault)
              .write.None?
  {}
}
