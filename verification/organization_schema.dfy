/**
 * `schemas/organization.schema.ts`: the rules an organization's name and URL slug must meet.
 * As with the project form, every rule runs and each failure is reported in declaration order.
 */
module OrganizationSchema {
  import ProjectSchema

  /** `[a-z0-9]`. */
  predicate Alnum(c: char) {
    ('a' <= c <= 'z') || ('0' <= c <= '9')
  }

  datatype OrganizationForm = OrganizationForm(name: string, slug: string)

  datatype Issue =
    | NameRequired | NameTooShort | NameTooLong
    | SlugRequired | SlugTooShort | SlugTooLong | SlugPattern | SlugBadStart | SlugBadEnd

  function Message(i: Issue): string {
    match i
    case NameRequired => "Organization name is required"
    case NameTooShort => "Organization name must be at least 2 characters"
    case NameTooLong => "Organization name must not exceed 100 characters"
    case SlugRequired => "URL slug is required"
    case SlugTooShort => "URL slug must be at least 2 characters"
    case SlugTooLong => "URL slug must not exceed 50 characters"
    case SlugPattern => "URL slug must contain only lowercase letters, numbers, and hyphens"
    case SlugBadStart => "URL slug must start with a letter or number"
    case SlugBadEnd => "URL slug must end with a letter or number"
  }

  function When(cond: bool, i: Issue): seq<Issue> {
    if cond then [i] else []
  }

  function NameIssues(name: string): (r: seq<Issue>)
    ensures r == [] <==> 2 <= |name| <= 100
  {
    When(|name| < 1, NameRequired) + When(|name| < 2, NameTooShort) + When(|name| > 100, NameTooLong)
  }

  function SlugIssues(slug: string): (r: seq<Issue>)
    ensures r == [] <==>
              && 2 <= |slug| <= 50 && ProjectSchema.AllSlugChars(slug)
              && Alnum(slug[0]) && Alnum(slug[|slug| - 1])
  {
    When(|slug| < 1, SlugRequired) + When(|slug| < 2, SlugTooShort) + When(|slug| > 50, SlugTooLong)
    + When(!(|slug| >= 1 && ProjectSchema.AllSlugChars(slug)), SlugPattern)
    + When(!(|slug| >= 1 && Alnum(slug[0])), SlugBadStart)
    + When(!(|slug| >= 1 && Alnum(slug[|slug| - 1])), SlugBadEnd)
  }

  function Issues(f: OrganizationForm): (r: seq<Issue>)
    ensures r == [] <==> NameIssues(f.name) == [] && SlugIssues(f.slug) == []
  {
    NameIssues(f.name) + SlugIssues(f.slug)
  }

  /** The one-character minimum never decides alone: whenever it fails, the two-character one fails too. */
  lemma MinOneIsSubsumed(name: string)
    ensures NameRequired in NameIssues(name) ==> NameTooShort in NameIssues(name)
    ensures NameIssues(name) != [] <==> |name| < 2 || |name| > 100
  {}

  /** Hyphens are allowed between the ends, doubled or not. */
  lemma InteriorDoubleHyphenPasses()
    ensures SlugIssues("a--b") == []
  {
    assert ProjectSchema.AllSlugChars("a--b");
  }

  /** Every slug an organization may take is also a slug a project may take. */
  lemma {:induction false} OrganizationSlugIsProjectSlug(slug: string)
    requires SlugIssues(slug) == []
    ensures ProjectSchema.SlugIssues(slug) == []
  {}
}
