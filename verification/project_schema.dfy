/**
 * `schemas/project.schema.ts`: the rules a new project's fields must meet. Every rule of a field
 * is checked and each failure is reported, in the order the rules are declared; the input is
 * accepted when nothing is reported. Lengths count characters (ASCII text is assumed).
 */
module ProjectSchema {
  import opened Wrappers

  /** `[a-z0-9-]`: the characters a project slug may hold. */
  predicate SlugChar(c: char) {
    ('a' <= c <= 'z') || ('0' <= c <= '9') || c == '-'
  }

  /** Every character is a slug character: the pattern `^[a-z0-9-]+$` without its non-empty part. */
  predicate AllSlugChars(s: string) {
    forall i | 0 <= i < |s| :: SlugChar(s[i])
  }

  /**
   * The form's fields. `isPublic` is `None` when it is missing or is not a boolean;
   * `description` is `None` when it is omitted.
   */
  datatype ProjectForm = ProjectForm(name: string, description: Option<string>, slug: string, isPublic: Option<bool>)

  datatype Issue =
    | NameRequired | NameTooLong
    | DescriptionTooLong
    | SlugRequired | SlugTooLong | SlugPattern
    | IsPublicNotBoolean

  /**
   * The message each issue is reported with; a missing or non-boolean `isPublic` gets the
   * validation library's own default message, which is not modelled.
   */
  function Message(i: Issue): Option<string> {
    match i
    case NameRequired => Some("Name is required")
    case NameTooLong => Some("Name is too long")
    case DescriptionTooLong => Some("Description is too long")
    case SlugRequired => Some("Slug is required")
    case SlugTooLong => Some("Slug is too long")
    case SlugPattern => Some("Slug must be lowercase letters, numbers, and hyphens only")
    case IsPublicNotBoolean => None
  }

  /** `cond ? [issue] : []`. */
  function When(cond: bool, i: Issue): seq<Issue> {
    if cond then [i] else []
  }

  function NameIssues(name: string): (r: seq<Issue>)
    ensures r == [] <==> 1 <= |name| <= 100
  {
    When(|name| < 1, NameRequired) + When(|name| > 100, NameTooLong)
  }

  function DescriptionIssues(description: Option<string>): (r: seq<Issue>)
    ensures r == [] <==> description.None? || |description.value| <= 500
  {
    if description.None? then [] else When(|description.value| > 500, DescriptionTooLong)
  }

  /** The slug's rules, shared with every form that takes a project slug. */
  function SlugIssues(slug: string): (r: seq<Issue>)
    ensures r == [] <==> 1 <= |slug| <= 50 && AllSlugChars(slug)
    ensures |slug| == 0 ==> r == [SlugRequired, SlugPattern]
  {
    When(|slug| < 1, SlugRequired) + When(|slug| > 50, SlugTooLong)
    + When(!(|slug| >= 1 && AllSlugChars(slug)), SlugPattern)
  }

  function Issues(f: ProjectForm): (r: seq<Issue>)
    ensures r == [] <==>
              && 1 <= |f.name| <= 100
              && (f.description.None? || |f.description.value| <= 500)
              && 1 <= |f.slug| <= 50 && AllSlugChars(f.slug)
              && f.isPublic.Some?
  {
    NameIssues(f.name) + DescriptionIssues(f.description) + SlugIssues(f.slug)
    + When(f.isPublic.None?, IsPublicNotBoolean)
  }

  predicate Accepts(f: ProjectForm) {
    Issues(f) == []
  }

  /** Nothing constrains where hyphens go: slugs made only of hyphens pass. */
  lemma HyphenOnlySlugsPass()
    ensures SlugIssues("-") == [] && SlugIssues("---") == []
  {
    assert AllSlugChars("-");
    assert AllSlugChars("---");
  }
}
