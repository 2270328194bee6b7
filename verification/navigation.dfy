/** `config/navigation.ts`: which sidebar table a role sees, and `[slug]` route templating. */
module Navigation {
  import opened Strings
  import opened Permissions

  /** The sidebar tables of `NAVIGATION`. */
  datatype Section = OwnedOrg | OrgAdminItems | OrgMemberItems | ProjectContributorItems | UserActivity

  const SlugSlot := "[slug]"

  // The templated hrefs share these heads: "/organizations/[slug]/projects" is
  // `OrgTemplate + "projects"`, and so on.
  const OrgTemplate := "/organizations/[slug]/"
  const ProjectTemplate := "/projects/[slug]/"

  /** Each table's `href`s in declaration order. */
  function Hrefs(s: Section): seq<string> {
    match s
    case OwnedOrg => ["/space/projects", "/space/team", "/space/settings", "/space/billing"]
    case OrgAdminItems =>
      [OrgTemplate + "projects", OrgTemplate + "team", OrgTemplate + "settings", OrgTemplate + "billing"]
    case OrgMemberItems => [OrgTemplate + "projects"]
    case ProjectContributorItems => [ProjectTemplate + "threads"]
    case UserActivity => ["/contributions", "/threads", "/profile"]
  }

  /**
   * `getOrgNavigationItems`: ownership decides first, whatever the role; then admins get the
   * admin table and everyone else, an `owner` role without ownership included, the member table.
   */
  function OrgNavigationItems(role: OrgRole, isOwned: bool): (r: Section)
    ensures r in {OwnedOrg, OrgAdminItems, OrgMemberItems}
    ensures r == OwnedOrg <==> isOwned
    ensures r == OrgAdminItems <==> !isOwned && role == Admin
  {
    if isOwned then OwnedOrg
    else if role == Admin then OrgAdminItems
    else OrgMemberItems
  }

  /** `getProjectNavigationItems`: the role is ignored. */
  function ProjectNavigationItems(role: ProjectRole): (r: Section)
    ensures r == ProjectContributorItems
  {
    ProjectContributorItems
  }

  /**
   * `buildOrgRoute` / `buildProjectRoute` (the two bodies are the same): `String.replace` with a
   * string pattern, so only the first `[slug]` is replaced.
   */
  function BuildRoute(template: string, slug: string): (r: string)
    ensures !Contains(template, SlugSlot) ==> r == template
    ensures Contains(template, SlugSlot) ==>
              exists i | 0 <= i <= |template| - |SlugSlot| ::
                && OccursAt(template, SlugSlot, i)
                && (forall j | 0 <= j < i :: !OccursAt(template, SlugSlot, j))
                && r == template[..i] + slug + template[i + |SlugSlot|..]
  {
    var i := IndexOf(template, SlugSlot);
    if i == -1 then template else template[..i] + slug + template[i + |SlugSlot|..]
  }

  predicate NoBracket(s: string) {
    forall j | 0 <= j < |s| :: s[j] != '['
  }

  /** The template holds `[slug]` at `i` and no other `[`. */
  predicate SingleSlotAt(template: string, i: int) {
    && OccursAt(template, SlugSlot, i)
    && NoBracket(template[..i])
    && NoBracket(template[i + |SlugSlot|..])
  }

  lemma NoBracketNoSlot(s: string)
    requires NoBracket(s)
    ensures !Contains(s, SlugSlot)
  {
    forall i | 0 <= i <= |s| ensures !OccursAt(s, SlugSlot, i) {
      if i + |SlugSlot| <= |s| {
        assert s[i..i + |SlugSlot|][0] == s[i] != SlugSlot[0];
      }
    }
  }

  /** In a single-slot template, the slot is the first occurrence. */
  lemma SlotIsFirst(template: string, i: int)
    requires SingleSlotAt(template, i)
    ensures IndexOf(template, SlugSlot) == i
  {
    forall j | 0 <= j < i ensures !OccursAt(template, SlugSlot, j) {
      assert template[..i][j] == template[j] != SlugSlot[0];
      assert template[j..j + |SlugSlot|][0] == template[j];
    }
  }

  lemma NoBracketConcat(a: string, b: string, c: string)
    requires NoBracket(a) && NoBracket(b) && NoBracket(c)
    ensures NoBracket(a + b + c)
  {
    forall j | 0 <= j < |a + b + c| ensures (a + b + c)[j] != '[' {
      if j < |a| {
        assert (a + b + c)[j] == a[j];
      } else if j < |a| + |b| {
        assert (a + b + c)[j] == b[j - |a|];
      } else {
        assert (a + b + c)[j] == c[j - |a| - |b|];
      }
    }
  }

  /**
   * Building a single-slot template with a slug free of `[` (every slug over `[a-z0-9-]` is)
   * leaves no `[slug]` behind.
   */
  lemma {:induction false} BuiltRouteHasNoSlot(template: string, i: int, slug: string)
    requires SingleSlotAt(template, i)
    requires NoBracket(slug)
    ensures !Contains(BuildRoute(template, slug), SlugSlot)
    ensures BuildRoute(template, slug) == template[..i] + slug + template[i + |SlugSlot|..]
  {
    SlotIsFirst(template, i);
    NoBracketConcat(template[..i], slug, template[i + |SlugSlot|..]);
    NoBracketNoSlot(BuildRoute(template, slug));
  }

  /** Every href of the templated tables holds exactly one `[slug]` and no other `[`. */
  lemma TemplatedTablesHaveOneSlot()
    ensures forall h | h in Hrefs(OrgAdminItems) || h in Hrefs(OrgMemberItems) :: SingleSlotAt(h, 15)
    ensures forall h | h in Hrefs(ProjectContributorItems) :: SingleSlotAt(h, 10)
  {
    OrganizationsSlot("projects");
    OrganizationsSlot("team");
    OrganizationsSlot("settings");
    OrganizationsSlot("billing");
    ProjectsSlot("threads");
  }

  lemma OrganizationsSlot(tail: string)
    requires NoBracket(tail)
    ensures SingleSlotAt(OrgTemplate + tail, 15)
  {
    var h := OrgTemplate + tail;
    assert h[15..21] == SlugSlot;
    assert h[..15] == "/organizations/";
    assert h[21..] == "/" + tail;
  }

  lemma ProjectsSlot(tail: string)
    requires NoBracket(tail)
    ensures SingleSlotAt(ProjectTemplate + tail, 10)
  {
    var h := ProjectTemplate + tail;
    assert h[10..16] == SlugSlot;
    assert h[..10] == "/projects/";
    assert h[16..] == "/" + tail;
  }

  lemma SpaceHref(tail: string)
    requires NoBracket(tail)
    ensures NoBracket("/space/" + tail)
  {
    NoBracketConcat("/space/", tail, "");
    assert "/space/" + tail + "" == "/space/" + tail;
  }

  /** The owned-organization table has no templates at all. */
  lemma OwnedHrefsHaveNoBracket()
    ensures forall h | h in Hrefs(OwnedOrg) :: NoBracket(h)
  {
    SpaceHref("projects");
    SpaceHref("team");
    SpaceHref("settings");
    SpaceHref("billing");
    assert "/space/projects" == "/space/" + "projects";
    assert "/space/team" == "/space/" + "team";
    assert "/space/settings" == "/space/" + "settings";
    assert "/space/billing" == "/space/" + "billing";
  }

  /**
   * Whatever table `getOrgNavigationItems` picks, building its hrefs with a slug free of `[`
   * leaves no `[slug]` in any link.
   */
  lemma {:induction false} OrgLinksFullyBuilt(role: OrgRole, isOwned: bool, h: string, slug: string)
    requires h in Hrefs(OrgNavigationItems(role, isOwned))
    requires NoBracket(slug)
    ensures !Contains(BuildRoute(h, slug), SlugSlot)
  {
    if isOwned {
      OwnedHrefsHaveNoBracket();
      NoBracketNoSlot(h);
    } else {
      TemplatedTablesHaveOneSlot();
      BuiltRouteHasNoSlot(h, 15, slug);
    }
  }
}
