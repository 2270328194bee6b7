/**
 * `actions/organizations.action.ts`: creating an organization (its creator becomes the owner)
 * and joining one through an invitation token. Each action answers a reply and the store as
 * it is afterwards; the store's two writes in a join run in one transaction.
 */
module OrganizationActions {
  import opened Wrappers
  import opened Domain
  import opened Permissions
  import opened Gates
  import opened Resolver

  datatype Organization = Organization(id: string, name: string, slug: string)

  /** An invitation row with its organization joined in; `usedAt` is absent until used. */
  datatype Invitation = Invitation(
    token: string,
    organization: Organization,
    email: string,
    role: OrgRole,
    expiresAt: int,
    usedAt: Option<int>)

  /** Organizations by id, membership rows keyed `(organizationId, userId)`, invitations by token. */
  datatype OrgStore = OrgStore(
    organizations: map<string, Organization>,
    members: map<(string, string), OrgRole>,
    invitations: map<string, Invitation>)

  datatype Reply = Success(organization: Organization) | Failure(error: string)

  datatype Outcome = Outcome(reply: Reply, store: OrgStore)

  const NotAuthenticated := "Not authenticated"
  const SlugTakenMessage := "This URL is already taken"
  const InvalidToken := "Invalid invitation token"
  const AlreadyUsed := "This invitation has already been used"
  const Expired := "This invitation has expired"
  const WrongEmail := "This invitation was sent to a different email address"
  const AlreadyMember := "You are already a member of this organization"

  predicate SlugTaken(s: OrgStore, slug: string) {
    exists id | id in s.organizations :: s.organizations[id].slug == slug
  }

  /** No two organizations share a slug. */
  predicate SlugsUnique(s: OrgStore) {
    forall a, b | a in s.organizations && b in s.organizations && a != b ::
      s.organizations[a].slug != s.organizations[b].slug
  }

  /**
   * `createOrganization`. `newId` is the id the store assigns; `fault` is an exception from the
   * create call, after which nothing was written.
   */
  function CreateOrganization(session: Option<User>, s: OrgStore, name: string, slug: string,
                              newId: string, fault: Option<Thrown>): (r: Outcome)
    ensures session.None? ==> r == Outcome(Failure(NotAuthenticated), s)
    ensures session.Some? && SlugTaken(s, slug) ==> r == Outcome(Failure(SlugTakenMessage), s)
    ensures session.Some? && !SlugTaken(s, slug) && fault.Some? ==>
              r == Outcome(Failure("Failed to create organization: " + Describe(fault.value)), s)
    ensures r.reply.Success? <==> session.Some? && !SlugTaken(s, slug) && fault.None?
    ensures r.reply.Failure? ==> r.store == s
    ensures r.reply.Success? ==>
              && r.reply.organization == Organization(newId, name, slug)
              && r.store.organizations == s.organizations[newId := r.reply.organization]
              && r.store.members == s.members[(newId, session.value.id) := Owner]
              && r.store.invitations == s.invitations
  {
    if session.None? then Outcome(Failure(NotAuthenticated), s)
    else if SlugTaken(s, slug) then Outcome(Failure(SlugTakenMessage), s)
    else match fault
      case Some(t) => Outcome(Failure("Failed to create organization: " + Describe(t)), s)
      case None =>
        var org := Organization(newId, name, slug);
        Outcome(Success(org), OrgStore(s.organizations[newId := org],
                                       s.members[(newId, session.value.id) := Owner],
                                       s.invitations))
  }

  /** With a fresh id, creating an organization keeps slugs unique. */
  lemma {:induction false} CreateKeepsSlugsUnique(session: Option<User>, s: OrgStore, name: string, slug: string,
                                                 newId: string, fault: Option<Thrown>)
    requires SlugsUnique(s)
    requires newId !in s.organizations
    ensures SlugsUnique(CreateOrganization(session, s, name, slug, newId, fault).store)
  {
    var r := CreateOrganization(session, s, name, slug, newId, fault);
    if r.reply.Success? {
      forall a, b | a in r.store.organizations && b in r.store.organizations && a != b
        ensures r.store.organizations[a].slug != r.store.organizations[b].slug
      {
        if a == newId {
          assert b in s.organizations;
        } else if b == newId {
          assert a in s.organizations;
        }
      }
    }
  }

  /** The creator of an organization holds exactly the owner table in it. */
  lemma {:induction false} CreatorIsOwner(u: User, s: OrgStore, name: string, slug: string, newId: string,
                                          projectRoles: map<(string, string), ProjectRole>)
    requires !SlugTaken(s, slug)
    ensures var r := CreateOrganization(Some(u), s, name, slug, newId, None);
            UserPermissions(RoleStore(r.store.members, projectRoles), u.id, newId, None) == OwnerTokens
  {
    var r := CreateOrganization(Some(u), s, name, slug, newId, None);
    OrgOnlyContext(RoleStore(r.store.members, projectRoles), u.id, newId, Owner);
  }

  /**
   * `joinOrganization`, with `now` the clock. The checks run in a fixed order and the first
   * failing one decides; `fault` is an exception from the transaction, which then wrote nothing.
   */
  function JoinOrganization(session: Option<User>, s: OrgStore, token: string, now: int,
                            fault: Option<Thrown>): (r: Outcome)
    ensures r.reply.Failure? ==> r.store == s
    ensures session.None? ==> r.reply == Failure(NotAuthenticated)
    ensures session.Some? && token !in s.invitations ==> r.reply == Failure(InvalidToken)
    ensures session.Some? && token in s.invitations && s.invitations[token].usedAt.Some? ==>
              r.reply == Failure(AlreadyUsed)
    ensures session.Some? && token in s.invitations && s.invitations[token].usedAt.None?
            && now > s.invitations[token].expiresAt ==>
              r.reply == Failure(Expired)
    ensures session.Some? && token in s.invitations && s.invitations[token].usedAt.None?
            && now <= s.invitations[token].expiresAt && s.invitations[token].email != session.value.email ==>
              r.reply == Failure(WrongEmail)
    ensures session.Some? && token in s.invitations && s.invitations[token].usedAt.None?
            && now <= s.invitations[token].expiresAt && s.invitations[token].email == session.value.email
            && (s.invitations[token].organization.id, session.value.id) in s.members ==>
              r.reply == Failure(AlreadyMember)
    ensures r.reply.Success? <==>
              && session.Some? && token in s.invitations && s.invitations[token].usedAt.None?
              && now <= s.invitations[token].expiresAt && s.invitations[token].email == session.value.email
              && (s.invitations[token].organization.id, session.value.id) !in s.members
              && fault.None?
    ensures r.reply.Success? ==>
              var inv := s.invitations[token];
              && r.reply.organization == inv.organization
              && r.store.members == s.members[(inv.organization.id, session.value.id) := inv.role]
              && r.store.invitations == s.invitations[token := inv.(usedAt := Some(now))]
              && r.store.organizations == s.organizations
  {
    if session.None? then Outcome(Failure(NotAuthenticated), s)
    else
      var u := session.value;
      if token !in s.invitations then Outcome(Failure(InvalidToken), s)
      else
        var inv := s.invitations[token];
        if inv.usedAt.Some? then Outcome(Failure(AlreadyUsed), s)
        else if now > inv.expiresAt then Outcome(Failure(Expired), s)
        else if inv.email != u.email then Outcome(Failure(WrongEmail), s)
        else if (inv.organization.id, u.id) in s.members then Outcome(Failure(AlreadyMember), s)
        else match fault
          case Some(t) => Outcome(Failure("Failed to join organization: " + Describe(t)), s)
          case None =>
            Outcome(Success(inv.organization),
                    OrgStore(s.organizations,
                             s.members[(inv.organization.id, u.id) := inv.role],
                             s.invitations[token := inv.(usedAt := Some(now))]))
  }

  /** The new member holds exactly the invitation's role table in the organization. */
  lemma {:induction false} JoinGrantsInvitedRole(u: User, s: OrgStore, token: string, now: int,
                                                 projectRoles: map<(string, string), ProjectRole>)
    requires JoinOrganization(Some(u), s, token, now, None).reply.Success?
    ensures var r := JoinOrganization(Some(u), s, token, now, None);
            var inv := s.invitations[token];
            UserPermissions(RoleStore(r.store.members, projectRoles), u.id, inv.organization.id, None)
              == OrgPermissions(inv.role)
  {
    var r := JoinOrganization(Some(u), s, token, now, None);
    var inv := s.invitations[token];
    OrgOnlyContext(RoleStore(r.store.members, projectRoles), u.id, inv.organization.id, inv.role);
  }

  /** An invitation works once: any later join with the same token, by anyone, is refused. */
  lemma {:induction false} InvitationIsSingleUse(u: User, v: User, s: OrgStore, token: string, now: int, later: int,
                                                 fault: Option<Thrown>)
    requires JoinOrganization(Some(u), s, token, now, None).reply.Success?
    ensures var s' := JoinOrganization(Some(u), s, token, now, None).store;
            JoinOrganization(Some(v), s', token, later, fault) == Outcome(Failure(AlreadyUsed), s')
  {
    var s' := JoinOrganization(Some(u), s, token, now, None).store;
    assert s'.invitations[token].usedAt == Some(now);
  }

  /** Expiry is strict: joining at the very expiry instant still succeeds. */
  lemma ExpiryIsStrict(u: User, s: OrgStore, token: string)
    requires token in s.invitations
    requires s.invitations[token].usedAt.None? && s.invitations[token].email == u.email
    requires (s.invitations[token].organization.id, u.id) !in s.members
    ensures JoinOrganization(Some(u), s, token, s.invitations[token].expiresAt, None).reply.Success?
  {}
}
