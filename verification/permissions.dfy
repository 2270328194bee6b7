/**
 * The permission catalog: five static role tables, the exact-match permission test and
 * the role lookups.
 *
 * Tokens are an enumeration whose constructors stand for the source's string literals;
 * `Spelling` gives each one its exact string.
 */
module Permissions {
  import opened Seqs

  datatype OrgRole = Owner | Admin | Member
  datatype ProjectRole = Maintainer | Contributor

  datatype Token =
    | OrgView | OrgUpdate | OrgDelete | OrgInviteGenerate | OrgMemberView | OrgMemberAdd
    | OrgMemberRemove | OrgMemberRoleUpdate | OrgOwnershipTransfer
    | ProjectViewAll | ProjectViewAssigned | ProjectCreate | ProjectUpdate | ProjectDelete
    | ProjectVisibilityUpdate | ProjectMemberAdd | ProjectMemberRemove
    | ThreadView | ThreadCreate | ThreadUpdateAny | ThreadUpdateOwn | ThreadStatusUpdate
    | ThreadAssign | ThreadPriorityUpdate | ThreadDeleteAny | ThreadDeleteOwn
    | LabelCreate | LabelUpdate | LabelDelete
    | CommentCreate | CommentUpdateAny | CommentUpdateOwn | CommentDeleteAny | CommentDeleteOwn
    | BillingView | BillingUpdate | BillingCancel

  /** The token's string, as written in the source. */
  function Spelling(t: Token): string {
    match t
    case OrgView => "org:view"
    case OrgUpdate => "org:update"
    case OrgDelete => "org:delete"
    case OrgInviteGenerate => "org:invite:generate"
    case OrgMemberView => "org:member:view"
    case OrgMemberAdd => "org:member:add"
    case OrgMemberRemove => "org:member:remove"
    case OrgMemberRoleUpdate => "org:member:role:update"
    case OrgOwnershipTransfer => "org:ownership:transfer"
    case ProjectViewAll => "project:view:all"
    case ProjectViewAssigned => "project:view:assigned"
    case ProjectCreate => "project:create"
    case ProjectUpdate => "project:update"
    case ProjectDelete => "project:delete"
    case ProjectVisibilityUpdate => "project:visibility:update"
    case ProjectMemberAdd => "project:member:add"
    case ProjectMemberRemove => "project:member:remove"
    case ThreadView => "thread:view"
    case ThreadCreate => "thread:create"
    case ThreadUpdateAny => "thread:update:any"
    case ThreadUpdateOwn => "thread:update:own"
    case ThreadStatusUpdate => "thread:status:update"
    case ThreadAssign => "thread:assign"
    case ThreadPriorityUpdate => "thread:priority:update"
    case ThreadDeleteAny => "thread:delete:any"
    case ThreadDeleteOwn => "thread:delete:own"
    case LabelCreate => "label:create"
    case LabelUpdate => "label:update"
    case LabelDelete => "label:delete"
    case CommentCreate => "comment:create"
    case CommentUpdateAny => "comment:update:any"
    case CommentUpdateOwn => "comment:update:own"
    case CommentDeleteAny => "comment:delete:any"
    case CommentDeleteOwn => "comment:delete:own"
    case BillingView => "billing:view"
    case BillingUpdate => "billing:update"
    case BillingCancel => "billing:cancel"
  }

  // The tables are written as the concatenation of the groups the source's comments mark
  // ("Organization management", "Project management", ...), in source order.

  const OwnerOrgManagement: seq<Token> := [
    OrgView, OrgUpdate, OrgDelete, OrgInviteGenerate, OrgMemberView, OrgMemberAdd,
    OrgMemberRemove, OrgMemberRoleUpdate, OrgOwnershipTransfer]
  const AdminOrgManagement: seq<Token> := [
    OrgView, OrgUpdate, OrgInviteGenerate, OrgMemberView, OrgMemberAdd, OrgMemberRemove,
    OrgMemberRoleUpdate]
  const ProjectManagement: seq<Token> := [
    ProjectViewAll, ProjectCreate, ProjectUpdate, ProjectDelete, ProjectVisibilityUpdate,
    ProjectMemberAdd, ProjectMemberRemove]
  const ThreadManagement: seq<Token> := [
    ThreadView, ThreadCreate, ThreadUpdateAny, ThreadStatusUpdate, ThreadAssign,
    ThreadPriorityUpdate, ThreadDeleteAny]
  const LabelManagement: seq<Token> := [LabelCreate, LabelUpdate, LabelDelete]
  const CommentManagement: seq<Token> := [CommentCreate, CommentUpdateAny, CommentDeleteAny]
  const OwnerBilling: seq<Token> := [BillingView, BillingUpdate, BillingCancel]
  const AdminBilling: seq<Token> := [BillingView]
  const MemberOrg: seq<Token> := [OrgView, OrgMemberView]
  const MemberProjects: seq<Token> := [ProjectViewAssigned]
  const OwnThreads: seq<Token> := [ThreadView, ThreadCreate, ThreadUpdateOwn, ThreadDeleteOwn]
  const OwnComments: seq<Token> := [CommentCreate, CommentUpdateOwn, CommentDeleteOwn]
  const MaintainerProjectManagement: seq<Token> := [ProjectUpdate, ProjectMemberAdd, ProjectMemberRemove]

  /** `PERMISSIONS.OWNER`. */
  const OwnerTokens: seq<Token> :=
    OwnerOrgManagement + ProjectManagement + ThreadManagement + LabelManagement
    + CommentManagement + OwnerBilling

  /** `PERMISSIONS.ADMIN`. */
  const AdminTokens: seq<Token> :=
    AdminOrgManagement + ProjectManagement + ThreadManagement + LabelManagement
    + CommentManagement + AdminBilling

  /** `PERMISSIONS.MEMBER`. */
  const MemberTokens: seq<Token> := MemberOrg + MemberProjects + OwnThreads + OwnComments

  /** `PERMISSIONS.PROJECT_MAINTAINER`. */
  const MaintainerTokens: seq<Token> :=
    MaintainerProjectManagement + ThreadManagement + LabelManagement + CommentManagement

  /** `PERMISSIONS.PROJECT_CONTRIBUTOR`. */
  const ContributorTokens: seq<Token> := OwnThreads + OwnComments

  /** Tokens qualified `:own`: the call site must check that the actor authored the resource. */
  predicate IsOwnQualified(t: Token) {
    t in {ThreadUpdateOwn, ThreadDeleteOwn, CommentUpdateOwn, CommentDeleteOwn}
  }

  /** Tokens qualified `:any`. */
  predicate IsAnyQualified(t: Token) {
    t in {ThreadUpdateAny, ThreadDeleteAny, CommentUpdateAny, CommentDeleteAny}
  }

  /**
   * `hasPermission`: `Array.prototype.includes`, i.e. the token occurs in the list by exact
   * equality. There is no wildcard, prefix or qualifier matching.
   */
  function HasPermission(ps: seq<Token>, t: Token): (r: bool)
    ensures r <==> exists i | 0 <= i < |ps| :: ps[i] == t
  {
    t in ps
  }

  /** `getOrgPermissions`: a fresh copy of the role's table. */
  function OrgPermissions(role: OrgRole): (r: seq<Token>)
    ensures role == Owner ==> r == OwnerTokens
    ensures role == Admin ==> r == AdminTokens
    ensures role == Member ==> r == MemberTokens
  {
    match role
    case Owner => OwnerTokens
    case Admin => AdminTokens
    case Member => MemberTokens
  }

  /** `getProjectPermissions`: a fresh copy of the role's table. */
  function ProjectPermissions(role: ProjectRole): (r: seq<Token>)
    ensures role == Maintainer ==> r == MaintainerTokens
    ensures role == Contributor ==> r == ContributorTokens
  {
    match role
    case Maintainer => MaintainerTokens
    case Contributor => ContributorTokens
  }

  /** Every table lists each token once. */
  lemma TablesHaveNoDuplicates()
    ensures NoDup(OwnerTokens) && NoDup(AdminTokens) && NoDup(MemberTokens)
    ensures NoDup(MaintainerTokens) && NoDup(ContributorTokens)
  {
    OwnerNoDup();
    AdminNoDup();
    MemberNoDup();
    MaintainerNoDup();
    NoDupAppend(OwnThreads, OwnComments);
  }

  /** The thread, label, comment and billing groups, with either billing group, repeat nothing. */
  lemma WorkGroupsNoDup(billing: seq<Token>)
    requires billing == OwnerBilling || billing == AdminBilling
    ensures NoDup(ThreadManagement + LabelManagement + (CommentManagement + billing))
  {
    NoDupAppend(ThreadManagement, LabelManagement);
    NoDupAppend(CommentManagement, billing);
    NoDupAppend(ThreadManagement + LabelManagement, CommentManagement + billing);
  }

  lemma OwnerNoDup()
    ensures NoDup(OwnerTokens)
  {
    var a := OwnerOrgManagement + ProjectManagement;
    NoDupAppend(OwnerOrgManagement, ProjectManagement);
    var rest := ThreadManagement + LabelManagement + (CommentManagement + OwnerBilling);
    WorkGroupsNoDup(OwnerBilling);
    NoDupAppend(a, rest);
    assert OwnerTokens == a + rest;
  }

  lemma AdminNoDup()
    ensures NoDup(AdminTokens)
  {
    var a := AdminOrgManagement + ProjectManagement;
    NoDupAppend(AdminOrgManagement, ProjectManagement);
    var rest := ThreadManagement + LabelManagement + (CommentManagement + AdminBilling);
    WorkGroupsNoDup(AdminBilling);
    NoDupAppend(a, rest);
    assert AdminTokens == a + rest;
  }

  lemma MemberNoDup()
    ensures NoDup(MemberTokens)
  {
    NoDupAppend(MemberOrg, MemberProjects);
    NoDupAppend(OwnThreads, OwnComments);
    NoDupAppend(MemberOrg + MemberProjects, OwnThreads + OwnComments);
    assert MemberTokens == (MemberOrg + MemberProjects) + (OwnThreads + OwnComments);
  }

  lemma MaintainerNoDup()
    ensures NoDup(MaintainerTokens)
  {
    NoDupAppend(MaintainerProjectManagement, ThreadManagement);
    NoDupAppend(LabelManagement, CommentManagement);
    NoDupAppend(MaintainerProjectManagement + ThreadManagement, LabelManagement + CommentManagement);
    assert MaintainerTokens
        == (MaintainerProjectManagement + ThreadManagement) + (LabelManagement + CommentManagement);
  }

  /** ADMIN is OWNER minus exactly the ownership-transfer, org-deletion and billing-mutation tokens. */
  lemma {:induction false} AdminWithinOwner()
    ensures Elems(AdminTokens) <= Elems(OwnerTokens)
    ensures Elems(OwnerTokens) - Elems(AdminTokens)
         == {OrgDelete, OrgOwnershipTransfer, BillingUpdate, BillingCancel}
  {
    var work := ProjectManagement + ThreadManagement + LabelManagement + CommentManagement;
    assert OwnerTokens == OwnerOrgManagement + work + OwnerBilling;
    assert AdminTokens == AdminOrgManagement + work + AdminBilling;
    ElemsAppend(OwnerOrgManagement, work);
    ElemsAppend(OwnerOrgManagement + work, OwnerBilling);
    ElemsAppend(AdminOrgManagement, work);
    ElemsAppend(AdminOrgManagement + work, AdminBilling);
    assert Elems(OwnerOrgManagement) == Elems(AdminOrgManagement) + {OrgDelete, OrgOwnershipTransfer};
    assert Elems(OwnerBilling) == Elems(AdminBilling) + {BillingUpdate, BillingCancel};
    WorkLacksOwnerOnlyTokens(work);
  }

  /** The shared groups hold none of the tokens only OWNER has. */
  lemma WorkLacksOwnerOnlyTokens(work: seq<Token>)
    requires work == ProjectManagement + ThreadManagement + LabelManagement + CommentManagement
    ensures Elems(work) !! {OrgDelete, OrgOwnershipTransfer, BillingUpdate, BillingCancel}
    ensures Elems(AdminOrgManagement) !! {OrgDelete, OrgOwnershipTransfer, BillingUpdate, BillingCancel}
    ensures Elems(AdminBilling) !! {OrgDelete, OrgOwnershipTransfer, BillingUpdate, BillingCancel}
  {}

  /** The project tables sit inside the matching organization tables. */
  lemma ProjectTablesWithinOrgTables()
    ensures Elems(MaintainerTokens) <= Elems(AdminTokens)
    ensures Elems(ContributorTokens) <= Elems(MemberTokens)
  {}

  /**
   * MEMBER and PROJECT_CONTRIBUTOR hold no `:any` token; their thread and comment
   * update/delete rights are the `:own` ones.
   */
  lemma LowRolesHoldOnlyOwnQualified()
    ensures forall t | t in MemberTokens :: !IsAnyQualified(t)
    ensures forall t | t in ContributorTokens :: !IsAnyQualified(t)
    ensures {ThreadUpdateOwn, ThreadDeleteOwn, CommentUpdateOwn, CommentDeleteOwn} <= Elems(MemberTokens)
    ensures {ThreadUpdateOwn, ThreadDeleteOwn, CommentUpdateOwn, CommentDeleteOwn} <= Elems(ContributorTokens)
  {}

  /** No token of `s` is `:own`-qualified. */
  predicate HoldsNoOwn(s: seq<Token>) {
    forall t | t in s :: !IsOwnQualified(t)
  }

  lemma HoldsNoOwnAppend(a: seq<Token>, b: seq<Token>)
    requires HoldsNoOwn(a) && HoldsNoOwn(b)
    ensures HoldsNoOwn(a + b)
  {}

  /** The groups the three high tables are built from carry no `:own` token. */
  lemma HighGroupsHoldNoOwn()
    ensures HoldsNoOwn(OwnerOrgManagement) && HoldsNoOwn(AdminOrgManagement) && HoldsNoOwn(ProjectManagement)
    ensures HoldsNoOwn(ThreadManagement) && HoldsNoOwn(LabelManagement) && HoldsNoOwn(CommentManagement)
    ensures HoldsNoOwn(OwnerBilling) && HoldsNoOwn(AdminBilling) && HoldsNoOwn(MaintainerProjectManagement)
  {}

  /**
   * OWNER, ADMIN and PROJECT_MAINTAINER hold no `:own` token, so the tables do not nest:
   * MEMBER is not contained in ADMIN, although the role matrix in the file's header comment
   * grants owners and admins "delete own thread" and "delete own comment".
   */
  lemma {:induction false} HighRolesHoldNoOwnQualified()
    ensures forall t | t in OwnerTokens :: !IsOwnQualified(t)
    ensures forall t | t in AdminTokens :: !IsOwnQualified(t)
    ensures forall t | t in MaintainerTokens :: !IsOwnQualified(t)
    ensures !(Elems(MemberTokens) <= Elems(AdminTokens))
    ensures !(Elems(MemberTokens) <= Elems(OwnerTokens))
  {
    HighGroupsHoldNoOwn();
    var work := ProjectManagement + ThreadManagement + LabelManagement + CommentManagement;
    HoldsNoOwnAppend(ProjectManagement, ThreadManagement);
    HoldsNoOwnAppend(ProjectManagement + ThreadManagement, LabelManagement);
    HoldsNoOwnAppend(ProjectManagement + ThreadManagement + LabelManagement, CommentManagement);
    HoldsNoOwnAppend(OwnerOrgManagement, work);
    HoldsNoOwnAppend(OwnerOrgManagement + work, OwnerBilling);
    assert OwnerTokens == OwnerOrgManagement + work + OwnerBilling;
    HoldsNoOwnAppend(AdminOrgManagement, work);
    HoldsNoOwnAppend(AdminOrgManagement + work, AdminBilling);
    assert AdminTokens == AdminOrgManagement + work + AdminBilling;
    HoldsNoOwnAppend(MaintainerProjectManagement, ThreadManagement);
    HoldsNoOwnAppend(MaintainerProjectManagement + ThreadManagement, LabelManagement);
    HoldsNoOwnAppend(MaintainerProjectManagement + ThreadManagement + LabelManagement, CommentManagement);
    assert ThreadUpdateOwn in Elems(MemberTokens) by { assert MemberTokens[5] == ThreadUpdateOwn; }
    assert IsOwnQualified(ThreadUpdateOwn);
  }

  /** Only OWNER and ADMIN may delete a project. */
  lemma ProjectDeleteHolders()
    ensures ProjectDelete in OwnerTokens && ProjectDelete in AdminTokens
    ensures ProjectDelete !in MemberTokens && ProjectDelete !in MaintainerTokens
    ensures ProjectDelete !in ContributorTokens
  {}
}
