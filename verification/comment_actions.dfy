/**
 * The authorization gates of `createComment`, `updateComment` and `deleteComment`.
 * Permissions are always evaluated in the parent thread's organization and project.
 */
module CommentActions {
  import opened Wrappers
  import opened Domain
  import opened Permissions
  import opened Gates

  function ThreadPermissions(w: World, userId: string, t: Thread): seq<Token> {
    PermissionsIn(w, userId, t.organizationId, Some(t.projectId))
  }

  /** `createComment`: needs `comment:create` on the thread's context. */
  function CreateComment(session: Option<User>, w: World, threadId: string, content: string,
                         fault: Option<Thrown>): (r: Run)
    ensures session.None? ==> r == Run(Fail("Unauthorized"), [], None)
    ensures session.Some? && threadId !in w.threads ==> r == Run(Fail("Thread not found"), [FindThread(threadId)], None)
    ensures r.write.Some? <==>
              && session.Some? && threadId in w.threads
              && CommentCreate in ThreadPermissions(w, session.value.id, w.threads[threadId])
    ensures r.write.Some? ==> r.write.value == CreateCommentWrite(
              CommentDraft(threadId, session.value.id, content, LanguageOf(session.value)))
    ensures r.response.Ok? <==> r.write.Some? && fault.None?
  {
    if session.None? then Refuse([], "Unauthorized")
    else
      var u := session.value;
      if threadId !in w.threads then Refuse([FindThread(threadId)], "Thread not found")
      else
        var t := w.threads[threadId];
        var looked := [FindThread(threadId), LoadPermissions(u.id, t.organizationId, Some(t.projectId))];
        if !HasPermission(ThreadPermissions(w, u.id, t), CommentCreate) then
          Refuse(looked, "Insufficient permissions")
        else
          Issue(looked, CreateCommentWrite(CommentDraft(threadId, u.id, content, LanguageOf(u))),
                fault, "Failed to create comment")
  }

  /**
   * The steps shared by update and delete: the comment, then its thread, then the own/any
   * check. Returns the refusal, or `None` when the write may go ahead.
   */
  function CheckComment(u: User, w: World, commentId: string, own: Token, any: Token): (r: Option<Run>)
    ensures commentId !in w.comments ==> r == Some(Run(Fail("Comment not found"), [FindComment(commentId)], None))
    ensures commentId in w.comments && w.comments[commentId].threadId !in w.threads ==>
              r == Some(Run(Fail("Thread not found"), [FindComment(commentId), FindThread(w.comments[commentId].threadId)], None))
    ensures r.None? <==>
              && commentId in w.comments && w.comments[commentId].threadId in w.threads
              && (if w.comments[commentId].authorId == u.id
                  then own in ThreadPermissions(w, u.id, w.threads[w.comments[commentId].threadId])
                  else any in ThreadPermissions(w, u.id, w.threads[w.comments[commentId].threadId]))
    ensures r.Some? ==> r.value.write.None?
  {
    if commentId !in w.comments then Some(Refuse([FindComment(commentId)], "Comment not found"))
    else
      var c := w.comments[commentId];
      if c.threadId !in w.threads then Some(Refuse([FindComment(commentId), FindThread(c.threadId)], "Thread not found"))
      else
        var t := w.threads[c.threadId];
        var looked := [FindComment(commentId), FindThread(c.threadId), LoadPermissions(u.id, t.organizationId, Some(t.projectId))];
        if !HasPermission(ThreadPermissions(w, u.id, t), OwnOrAny(u.id, c.authorId, own, any)) then
          Some(Refuse(looked, "Insufficient permissions"))
        else None
  }

  /** The reads made when every lookup succeeds. */
  function CommentLookups(u: User, w: World, commentId: string): seq<Lookup>
    requires commentId in w.comments && w.comments[commentId].threadId in w.threads
  {
    var c := w.comments[commentId];
    var t := w.threads[c.threadId];
    [FindComment(commentId), FindThread(c.threadId), LoadPermissions(u.id, t.organizationId, Some(t.projectId))]
  }

  /** `updateComment`: `comment:update:own` for one's own comment, else `comment:update:any`; only the content changes. */
  function UpdateComment(session: Option<User>, w: World, commentId: string, content: string,
                         fault: Option<Thrown>): (r: Run)
    ensures session.None? ==> r == Run(Fail("Unauthorized"), [], None)
    ensures session.Some? && commentId !in w.comments ==> r == Run(Fail("Comment not found"), [FindComment(commentId)], None)
    ensures r.write.Some? <==>
              && session.Some? && commentId in w.comments && w.comments[commentId].threadId in w.threads
              && (if w.comments[commentId].authorId == session.value.id
                  then CommentUpdateOwn in ThreadPermissions(w, session.value.id, w.threads[w.comments[commentId].threadId])
                  else CommentUpdateAny in ThreadPermissions(w, session.value.id, w.threads[w.comments[commentId].threadId]))
    ensures r.write.Some? ==> r.write.value == UpdateCommentWrite(commentId, content)
                              && r.lookups == CommentLookups(session.value, w, commentId)
    ensures r.response.Ok? <==> r.write.Some? && fault.None?
  {
    if session.None? then Refuse([], "Unauthorized")
    else
      var u := session.value;
      match CheckComment(u, w, commentId, CommentUpdateOwn, CommentUpdateAny)
      case Some(refusal) => refusal
      case None => Issue(CommentLookups(u, w, commentId), UpdateCommentWrite(commentId, content), fault, "Failed to update comment")
  }

  /** `deleteComment`: `comment:delete:own` for one's own comment, else `comment:delete:any`. */
  function DeleteComment(session: Option<User>, w: World, commentId: string, fault: Option<Thrown>): (r: Run)
    ensures session.None? ==> r == Run(Fail("Unauthorized"), [], None)
    ensures session.Some? && commentId !in w.comments ==> r == Run(Fail("Comment not found"), [FindComment(commentId)], None)
    ensures r.write.Some? <==>
              && session.Some? && commentId in w.comments && w.comments[commentId].threadId in w.threads
              && (if w.comments[commentId].authorId == session.value.id
                  then CommentDeleteOwn in ThreadPermissions(w, session.value.id, w.threads[w.comments[commentId].threadId])
                  else CommentDeleteAny in ThreadPermissions(w, session.value.id, w.threads[w.comments[commentId].threadId]))
    ensures r.write.Some? ==> r.write.value == DeleteCommentWrite(commentId)
                              && r.lookups == CommentLookups(session.value, w, commentId)
    ensures r.response.Ok? <==> r.write.Some? && fault.None?
  {
    if session.None? then Refuse([], "Unauthorized")
    else
      var u := session.value;
      match CheckComment(u, w, commentId, CommentDeleteOwn, CommentDeleteAny)
      case Some(refusal) => refusal
      case None => Issue(CommentLookups(u, w, commentId), DeleteCommentWrite(commentId), fault, "Failed to delete comment")
  }

  /**
   * A project contributor without an organization row deletes a comment exactly when they
   * wrote it: the contributor table holds only `comment:delete:own`.
   */
  lemma {:induction false} ContributorDeletesOnlyOwnComments(u: User, w: World, commentId: string, fault: Option<Thrown>)
    requires commentId in w.comments && w.comments[commentId].threadId in w.threads
    requires var t := w.threads[w.comments[commentId].threadId];
             && (t.organizationId, u.id) !in w.roles.orgRoles
             && t.projectId != ""
             && (t.projectId, u.id) in w.roles.projectRoles
             && w.roles.projectRoles[(t.projectId, u.id)] == Contributor
    ensures DeleteComment(Some(u), w, commentId, fault).write.Some? <==> w.comments[commentId].authorId == u.id
  {
    var t := w.threads[w.comments[commentId].threadId];
    Resolver.ProjectOnlyContext(w.roles, u.id, t.organizationId, t.projectId, Contributor);
    assert ThreadPermissions(w, u.id, t) == ContributorTokens;
    LowRolesHoldOnlyOwnQualified();
    assert CommentDeleteAny !in ContributorTokens by { assert IsAnyQualified(CommentDeleteAny); }
  }

  /** A project maintainer deletes anyone else's comment in that project. */
  lemma {:induction false} MaintainerDeletesOthersComments(u: User, w: World, commentId: string, fault: Option<Thrown>)
    requires commentId in w.comments && w.comments[commentId].threadId in w.threads
    requires w.comments[commentId].authorId != u.id
    requires var t := w.threads[w.comments[commentId].threadId];
             && (t.organizationId, u.id) !in w.roles.orgRoles
             && t.projectId != ""
             && (t.projectId, u.id) in w.roles.projectRoles
             && w.roles.projectRoles[(t.projectId, u.id)] == Maintainer
    ensures DeleteComment(Some(u), w, commentId, fault).write == Some(DeleteCommentWrite(commentId))
  {
    var t := w.threads[w.comments[commentId].threadId];
    Resolver.ProjectOnlyContext(w.roles, u.id, t.organizationId, t.projectId, Maintainer);
    assert ThreadPermissions(w, u.id, t) == MaintainerTokens;
    assert MaintainerTokens[15] == CommentDeleteAny;
  }
}
