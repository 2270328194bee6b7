# Feedoise core in Dafny

Feedoise is a multilingual feedback board. Organizations own projects, and users open threads and comments on those projects. Who may do what is decided by fixed role→permission tables. Thread titles and bodies are shown in the reader's language through a translation service.

This project models the parts of the TypeScript code that make decisions. It leaves out the parts that store data or draw screens. The model covers:

- **Permission catalog and resolver.** The five role tables, `hasPermission` and the role lookups in `lib/permissions.ts` (`Permissions`). `getUserPermissions` merges org and project tokens over two membership maps (`Resolver`).
- **Authorization gates.** The thread, comment and project server actions, as pure functions. Each takes a session option, an abstract world of maps and an optional fault for the one store write. It returns the response, the lookups made, and the write issued, if any (`Gates`, `ThreadActions`, `CommentActions`, `ProjectActions`).
- **Organization creation and invitation join.** Over an abstract store (`OrganizationActions`).
- **The project service.** Role lookup and the contributor-project filter (`ProjectsService`).
- **Translation.** The translation library with an arbitrary, possibly failing engine whose calls are recorded (`Lingo`). The server actions' response shapes (`TranslationActions`).
- **The two translation hooks.** Explicit state machines over a shared request cache with a per-request mounted flag (`RequestCache`, `TranslationHook`, `BatchTranslationHook`).
- **The request proxy** (`Proxy`), sidebar table selection and `[slug]` templating (`Navigation`).
- **The auto-slug generator and the two zod schemas** (`ProjectSlug`, `ProjectSchema`, `OrganizationSchema`).
- **The thread list.** Its filter, stable sort and card props (`ThreadList`), plus the priority and status badges (`PriorityIndicator`, `StatusBadge`, `Badge`).

Shared vocabulary lives in `Wrappers` (Option), `Seqs` (Filter, Dedup, subsequences) and `Strings` (prefixes, search, code-unit order, a stable insertion sort). `Domain` holds users, threads, comments, projects and the membership maps.

Modelling conventions:

- **I/O and failure.** Database reads are map lookups. A write that may throw takes an `Option<Thrown>` fault parameter. The translation engine is a function value returning `Option` (`None` = it threw).
- **Time.** The clock is an `int` parameter (`now`).
- **React effects.** Effects, resolutions, rejections, unmounts and toggles are events fed to a step function.
- **JavaScript semantics.** `x || y` on strings and options is written out with `Truthy`. `String(error)` is `Gates.Describe`.

## Model

| member | source | states |
|---|---|---|
| Permissions.HasPermission | lib/permissions.ts:197-202 | a token is held exactly when it occurs in the list; tokens are compared whole, with no wildcard or prefix matching |
| Permissions.OrgPermissions | lib/permissions.ts:209-217 | owner, admin and member each get exactly their own table, whole and in table order |
| Permissions.ProjectPermissions | lib/permissions.ts:224-231 | maintainer and contributor each get exactly their own table |
| Permissions.TablesHaveNoDuplicates | lib/permissions.ts:38-187 | no table lists a token twice |
| Permissions.AdminWithinOwner | lib/permissions.ts:40-126 | every admin token is an owner token, and the owner holds exactly org:delete, org:ownership:transfer, billing:update and billing:cancel beyond the admin |
| Permissions.ProjectTablesWithinOrgTables | lib/permissions.ts:86-186 | the maintainer table is within the admin table and the contributor table is within the member table |
| Permissions.LowRolesHoldOnlyOwnQualified | lib/permissions.ts:128-146 | member and contributor hold no `:any` token, and both hold the four `:own` thread/comment update and delete tokens |
| Permissions.HighRolesHoldNoOwnQualified | lib/permissions.ts:23-26 | owner, admin and maintainer hold no `:own` token, so the member table is not within the admin or owner table, unlike the doc-comment matrix's "delete own" rows |
| Permissions.ProjectDeleteHolders | lib/permissions.ts:40-186 | project:delete is held by the owner and admin tables and by no other table |
| Seqs.Dedup | services/permissions.ts:50-51 | `[...new Set(xs)]`: the result has no duplicates and the same elements as its input |
| Resolver.UserPermissions | services/permissions.ts:15-52 | the result has no duplicates, its elements are the org-role tokens together with the project-role tokens, and it is empty when there is no org row and no project row to consult |
| Resolver.UserPermissionsOrder | services/permissions.ts:20-51 | the list is the org tokens in table order, then the project tokens not already present, each at its first occurrence |
| Resolver.OrgOnlyContext | services/permissions.ts:22-33 | with an org role and no project id, the result is exactly that role's table |
| Resolver.ProjectOnlyContext | services/permissions.ts:35-48 | with no org row and a project role on the given project, the result is exactly the project role's table |
| Resolver.ProjectRoleStaysInItsProject | services/permissions.ts:36-43 | a role on one project adds nothing when another project is evaluated |
| Resolver.NoMembershipNoPermissions | services/permissions.ts:20-52 | no org row and no project row gives the empty list, not an error |
| Resolver.OnlyHeldRolesContribute | services/permissions.ts:31-48 | every token in the result comes from the caller's org role or from their role on exactly the given project |
| Domain.LanguageOf | actions/threads.action.ts:54 | the author's language is their preferred language when it is set and non-empty, and "en" otherwise; it is never empty |
| Gates.Issue | actions/threads.action.ts:137-146 | once the write is issued, the reply is success without a fault; with a fault it carries the error's message, or the action's fallback text for a non-Error throw |
| Gates.OwnOrAny | actions/threads.action.ts:95-100 | an author acting on their own resource is checked against the `:own` token only, anyone else against the `:any` token only |
| ThreadActions.CreateThread | actions/threads.action.ts:22-65 | no session gives "Unauthorized" with no lookup; a missing project gives "Project not found"; a thread is written exactly when thread:create is held in the project's context, authored by the actor in their language; the reply is success exactly when the write is issued and does not throw |
| ThreadActions.UpdateThread | actions/threads.action.ts:70-147 | the write is issued exactly when every present field group passes; denials come in the fixed order title/content, status, priority, assignee, each with its own message; the lookups are the thread and then the permissions |
| ThreadActions.DeleteThread | actions/threads.action.ts:152-192 | the delete is issued exactly when the own/any delete token applies; otherwise the reply is "Insufficient permissions" |
| ThreadActions.EmptyTextSkipsCheck | actions/threads.action.ts:97 | a patch whose title and content are both "" skips the text check and is written even with no permissions |
| ThreadActions.NullAssigneeNeedsAssign | actions/threads.action.ts:128-135 | an explicit null assignee counts as present and is refused without thread:assign |
| ThreadActions.OwnerCannotEditOwnThread | actions/threads.action.ts:95-108 | an organization owner editing the title of their own thread is refused, yet may edit someone else's thread |
| ThreadActions.MemberEditsOnlyOwnThread | actions/threads.action.ts:95-108 | an organization member may edit a thread exactly when they wrote it |
| ThreadActions.PartialAuthorityWritesNothing | actions/threads.action.ts:110-137 | a patch touching status and priority by someone holding only the status token writes nothing |
| CommentActions.CreateComment | actions/comments.action.ts:23-70 | no session gives "Unauthorized"; a missing thread gives "Thread not found"; a comment is written exactly when comment:create is held in the thread's org and project, authored by the actor in their language |
| CommentActions.CheckComment | actions/comments.action.ts:84-110 | a missing comment is reported before the thread lookup; a missing thread is reported next; otherwise the check passes exactly when the own/any token for the comment's author is held in the parent thread's context |
| CommentActions.UpdateComment | actions/comments.action.ts:74-126 | the update writes the new content only, and only when the own/any update check passes |
| CommentActions.DeleteComment | actions/comments.action.ts:130-179 | the delete is issued only after the own/any delete check passes |
| CommentActions.ContributorDeletesOnlyOwnComments | actions/comments.action.ts:159-168 | a project contributor without an org role may delete a comment exactly when they wrote it |
| CommentActions.MaintainerDeletesOthersComments | actions/comments.action.ts:159-168 | a project maintainer may delete another author's comment |
| ProjectActions.CreateProject | actions/projects.action.ts:21-52 | no session gives "Unauthorized"; the permissions are looked up in the org-only context; the project is created exactly when project:create is held there |
| ProjectActions.UpdateProject | actions/projects.action.ts:57-96 | a missing project gives "Project not found"; otherwise the update is written exactly when project:update is held in the org and project context |
| ProjectActions.DeleteProject | actions/projects.action.ts:101-139 | the delete is written exactly when project:delete is held in the org and project context |
| ProjectActions.DeleteNeedsOwnerOrAdmin | actions/projects.action.ts:118-128 | a delete that goes through was made by an owner or admin of the project's organization |
| ProjectActions.FollowProject | actions/projects.action.ts:144-165 | following needs a session and no permission token, and does no lookup |
| ProjectActions.UnfollowProject | actions/projects.action.ts:170-191 | unfollowing needs a session and no permission token, and does no lookup |
| OrganizationActions.CreateOrganization | actions/organizations.action.ts:9-44 | no session gives "Not authenticated"; a taken slug gives "This URL is already taken"; a failing create gives "Failed to create organization: " and the error text; any failure leaves the store unchanged; success adds the organization |
| OrganizationActions.CreateKeepsSlugsUnique | actions/organizations.action.ts:20-32 | when slugs are unique before creation they are unique after it |
| OrganizationActions.CreatorIsOwner | services/Organizations.ts:53-70 | in the new organization the creator holds exactly the owner table |
| OrganizationActions.JoinOrganization | actions/organizations.action.ts:46-107 | the checks run in the order session, token known, unused, unexpired, email matches, not already a member, each with its own message; every failure leaves the store unchanged; success adds the membership with the invitation's role, marks the invitation used at `now` and replies with the invitation's organization |
| OrganizationActions.JoinGrantsInvitedRole | services/Organizations.ts:129-141 | after a successful join the user holds exactly the invitation role's table in the organization |
| OrganizationActions.InvitationIsSingleUse | actions/organizations.action.ts:61-63 | after a successful join the same token is refused for any user at any later time |
| OrganizationActions.ExpiryIsStrict | actions/organizations.action.ts:65-67 | an invitation is still accepted at exactly its expiry instant |
| ProjectsService.UserRoleInProject | services/Projects.ts:15-44 | the result is the membership's role, or none when there is no row; a foreign-key fault and any other fault raise their two messages |
| ProjectsService.RoleMatchesResolver | services/Projects.ts:20-32 | the role it reports is the one the permission resolver uses for that project |
| ProjectsService.UserOrgIds | services/Projects.ts:65-70 | the set of organizations the user belongs to |
| ProjectsService.ContributorProjects | services/Projects.ts:52-88 | no returned membership is in an org the user belongs to; every membership of the user outside those orgs is returned; faults raise their two messages |
| ProjectsService.ContributorProjectsKeepOrder | services/Projects.ts:73-75 | the result is a subsequence of the user's memberships, in order |
| ProjectsService.NoOrganizationsKeepsEverything | services/Projects.ts:70-75 | a user in no organization gets all their memberships |
| Lingo.TranslateContent | lib/lingo.ts:14-35 | the same locale returns the content with no engine call; otherwise exactly one call is made, and the content comes back unchanged if that call fails |
| Lingo.TranslateText | lib/lingo.ts:41-60 | the same two behaviours for a single string |
| Lingo.BatchTranslate | lib/lingo.ts:66-164 | the output has the input's length, ids and contents; with nothing to translate no call is made and the titles are unchanged; if any call fails, every thread keeps its original title |
| Lingo.ChangedTitleWasAnswered | lib/lingo.ts:142-154 | a title that changed is non-empty and is what a successful call answered for that id |
| Lingo.AnsweredTitleIsApplied | lib/lingo.ts:117-154 | the converse: when no call failed, with distinct ids and an engine that answers only the keys it was sent, a thread needing translation takes the non-empty title its locale's call answered for its id, and keeps its original title when that answer is missing or empty |
| Lingo.OtherCallOmitsId | lib/lingo.ts:117-130 | under the same assumptions, the call for another locale never answers a thread's id |
| Lingo.GroupFields | lib/lingo.ts:120-122 | the object sent for a group has exactly the group's ids as keys, each mapped to the title of a thread with that id |
| Lingo.Merge | lib/lingo.ts:142-147 | every id answered by some call is in the merged map, and each merged title is what some call answered for that id |
| Lingo.BatchSourcesDistinct | lib/lingo.ts:96-137 | at most one call is made per source locale |
| Lingo.BatchCallShape | lib/lingo.ts:117-130 | each call goes from a locale other than the target into the target, sends exactly the ids of the threads in that locale, and sends only their titles |
| Lingo.BatchCoversPending | lib/lingo.ts:82-113 | every locale of a thread needing translation gets a call |
| Lingo.AnsweredIdWasSent | lib/lingo.ts:120-147 | with an engine that answers only the keys it was sent, every answered id is that of a thread needing translation |
| Lingo.TargetLocaleKeepsTitle | lib/lingo.ts:82-84 | with distinct ids, a thread already in the target locale keeps its title |
| TranslationActions.TranslateContentAction | actions/translation.action.ts:16-32 | success carries the library's result; a throw replies "Translation failed" with the original content |
| TranslationActions.TranslateTextAction | actions/translation.action.ts:34-46 | the same for one string |
| TranslationActions.BatchTranslateAction | actions/translation.action.ts:54-78 | success returns the library's `{id, title, content}` items; a throw returns `{id, translatedTitle, translatedContent}` items built from the originals |
| TranslationActions.TitleFieldDependsOnPath | actions/translation.action.ts:63-77 | a `title` field exists on the success path and never on the fallback path |
| TranslationActions.EngineFailureReportsSuccess | actions/translation.action.ts:21-27 | an engine failure surfaces as success carrying the original content |
| TranslationActions.TextEngineFailureReportsSuccess | actions/translation.action.ts:39-41 | an engine failure surfaces as success carrying the original text |
| TranslationActions.BatchEngineFailureReportsOriginals | actions/translation.action.ts:63-65 | a failing batch call surfaces as success with every original title |
| RequestCache.Begin | hooks/use-translation.ts:39-50 | a request starts only when wanted and the key is neither requested nor cached; it marks the key before the call and records one call |
| RequestCache.Settle | hooks/use-translation.ts:62-68 | a result is cached only if its request is still mounted and carries data |
| RequestCache.Reject | hooks/use-translation.ts:69-75 | a rejected call caches nothing and unmarks its key only while mounted |
| RequestCache.BeginInv | hooks/use-translation.ts:41-50 | starting keeps the invariant: at most one request in flight per key, and every in-flight key is marked and not cached |
| RequestCache.SettleInv | hooks/use-translation.ts:62-68 | resolving keeps that invariant |
| RequestCache.RejectInv | hooks/use-translation.ts:69-75 | rejecting keeps that invariant |
| RequestCache.Orphan | hooks/use-translation.ts:78-80 | the cleanup clears the mounted flag of every request in flight and changes nothing else: the same keys stay in flight, marked and cached as before |
| RequestCache.OrphanInv | hooks/use-translation.ts:78-80 | the effect's cleanup keeps that invariant |
| TranslationHook.CacheKey | hooks/use-translation.ts:22-28 | the key begins with the source locale, "-", the target locale and "-"; `KeyIgnoresFieldOrder` states what the rest depends on |
| TranslationHook.KeyIgnoresFieldOrder | hooks/use-translation.ts:22-28 | the cache key depends only on the two locales and the set of (field, value) pairs, not on field order |
| TranslationHook.ToFieldsKeys | hooks/use-translation.ts:7 | the object handed to the action has exactly the listed fields |
| TranslationHook.ToFieldsValues | hooks/use-translation.ts:7 | with distinct field names, each field carries its own value |
| TranslationHook.TranslatedContent | hooks/use-translation.ts:83-88 | when not translating, the original content even if a translation is cached; otherwise the whole cached object or the whole original, never a mix |
| TranslationHook.IsTranslating | hooks/use-translation.ts:90-91 | translating implies the hook should translate and the key is not cached |
| TranslationHook.Step | hooks/use-translation.ts:39-81 | a step never drops a cached translation; it makes at most one call, only on an effect, only for that effect's key, and only when translation is wanted and the key is neither marked nor cached; only a toggle flips the display mode, and a toggle leaves the requests alone |
| TranslationHook.StepInv | hooks/use-translation.ts:39-81 | every event keeps the request invariant |
| TranslationHook.ToggleTwice | hooks/use-translation.ts:97 | toggling twice restores the state, and a toggle leaves the requests alone |
| TranslationHook.ResolvedShowsAnswer | hooks/use-translation.ts:62-68 | once a mounted request for the current key resolves, its answer is shown and the hook is no longer translating |
| TranslationHook.RerunOrphansCall | hooks/use-translation.ts:41-81 | as written, re-running the effect while the key's call is in flight orphans that call yet keeps the key marked |
| TranslationHook.RerunStrandsKey | hooks/use-translation.ts:41-81 | as written, there is a run after which the key is marked, not cached and has no live request, so it is never translated |
| TranslationHook.StepCorrected | hooks/use-translation.ts:52-80 | the corrected hook, where `isMounted` is cleared only on unmount: an effect re-run keeps every request in flight live, every other event is as written, and the call and cache properties of `Step` still hold |
| TranslationHook.CorrectedStaysLive | hooks/use-translation.ts:39-81 | in the corrected hook, while the component stays mounted, every marked, uncached key keeps a live request |
| TranslationHook.CorrectedEffectProgress | hooks/use-translation.ts:39-81 | in the corrected hook, an effect that should translate leaves its key cached or with a live request |
| BatchTranslationHook.CacheKey | hooks/use-batch-translation.ts:21-27 | the key ends with "-" and the target locale; `KeyDependsOnlyOnIds` states what the rest depends on |
| BatchTranslationHook.KeyDependsOnlyOnIds | hooks/use-batch-translation.ts:21-27 | the batch key depends only on the multiset of ids and the target locale, not on order, titles or contents |
| BatchTranslationHook.Stored | hooks/use-batch-translation.ts:67-73 | only a successful response is cached |
| BatchTranslationHook.TranslatedThreads | hooks/use-batch-translation.ts:88-105 | with nothing to translate or no cache hit, the identity items in input order; with a hit, the cached items |
| BatchTranslationHook.IsTranslating | hooks/use-batch-translation.ts:109 | translating implies the key is not cached |
| BatchTranslationHook.Wanted | hooks/use-batch-translation.ts:43-51 | the effect goes on exactly when the hook is enabled and the library would find some thread to translate |
| BatchTranslationHook.NeedsTranslationIsPending | hooks/use-batch-translation.ts:43-46 | `threads.some(...)` holds exactly when the library's list of threads to translate is non-empty |
| BatchTranslationHook.Step | hooks/use-batch-translation.ts:48-86 | a step never drops a cached list; an effect makes one call for its key exactly when it is wanted and the key is neither marked nor cached, and no other step makes a call |
| BatchTranslationHook.StepInv | hooks/use-batch-translation.ts:48-86 | every event keeps the request invariant |
| BatchTranslationHook.NoCallUnlessWanted | hooks/use-batch-translation.ts:49-51 | disabled, empty or all-in-target lists make no call |
| BatchTranslationHook.FailureIsNotRetried | hooks/use-batch-translation.ts:67-73 | a `success:false` answer caches nothing and leaves the key marked, so it is never requested again |
| BatchTranslationHook.RejectionIsRetried | hooks/use-batch-translation.ts:74-79 | a thrown call unmarks the key, so the next effect requests it again |
| BatchTranslationHook.SuccessIsShown | hooks/use-batch-translation.ts:67-73 | a successful answer is shown and ends translating |
| Proxy.Decide | proxy.ts:6-36 | public and auth-API paths pass; a sign-in page with a session redirects to "/threads"; any other path without a session redirects to "/login"; everything else passes |
| Proxy.SessionPassesOutsideAuthPages | proxy.ts:25-35 | a signed-in request outside the sign-in pages passes |
| Proxy.PrefixAdmitsNeighbours | proxy.ts:19-23 | the auth-API test is a prefix match, so "/api/authx" passes too |
| Proxy.SignedOutLoginRedirectsToItself | proxy.ts:25-33 | as written, a signed-out request for "/login" is redirected to "/login" |
| Proxy.DecideCorrected | proxy.ts:25-33 | sign-in pages let signed-out visitors through; it differs from the gate as written only there |
| Proxy.CorrectedNeverLoops | proxy.ts:25-33 | the corrected gate never redirects a path to itself |
| Navigation.OrgNavigationItems | config/navigation.ts:302-318 | ownership picks the owned-org table whatever the role; otherwise admins get the admin table and every other role the member table |
| Navigation.ProjectNavigationItems | config/navigation.ts:323-327 | both project roles get the contributor table |
| Navigation.BuildRoute | config/navigation.ts:332-338 | only the first "[slug]" is replaced, and a template without one is returned unchanged |
| Navigation.TemplatedTablesHaveOneSlot | config/navigation.ts:137-210 | every admin, member and project-contributor href holds exactly one "[slug]" and no other "[" |
| Navigation.BuiltRouteHasNoSlot | config/navigation.ts:332-338 | building a one-slot template with a slug free of "[" leaves no "[slug]" |
| Navigation.OrgLinksFullyBuilt | config/navigation.ts:95-210 | whichever org table is picked, its built links contain no "[slug]" |
| ProjectSlug.Slugify | components/features/projects/create-project-form.tsx:47-55 | the generated slug has at most 50 characters, all in [a-z0-9-], and never contains "--" |
| ProjectSlug.SlugifyIsIdempotent | components/features/projects/create-project-form.tsx:47-53 | generating a slug from a generated slug returns it unchanged |
| ProjectSlug.SlugifyMeetsSchema | components/features/projects/create-project-form.tsx:47-54 | a non-empty generated slug passes the project slug rules, and an empty one fails them |
| ProjectSlug.EmptyProposal | components/features/projects/create-project-form.tsx:48-50 | the slug is empty exactly when the lower-cased name has no letter, digit, space or hyphen |
| ProjectSlug.LeadingSpaceProposesHyphen | components/features/projects/create-project-form.tsx:51 | a name starting with white space gives a slug starting with "-", because nothing trims |
| ProjectSlug.Truncate | components/features/projects/create-project-form.tsx:53 | `substring(0, 50)`: a prefix of at most 50 characters, the whole string when shorter |
| ProjectSlug.Squeeze | components/features/projects/create-project-form.tsx:51-52 | each run of matching characters becomes a single "-", and every other character is kept |
| ProjectSchema.NameIssues | schemas/project.schema.ts:4 | the name is accepted exactly when it has 1 to 100 characters |
| ProjectSchema.DescriptionIssues | schemas/project.schema.ts:5 | the description is accepted when absent or at most 500 characters long |
| ProjectSchema.SlugIssues | schemas/project.schema.ts:6-13 | the slug is accepted exactly when it has 1 to 50 characters, all in [a-z0-9-]; an empty slug fails both the length and the pattern rule |
| ProjectSchema.Issues | schemas/project.schema.ts:3-15 | the form is accepted exactly when every field is, including a present boolean isPublic |
| ProjectSchema.HyphenOnlySlugsPass | schemas/project.schema.ts:10-13 | "-" and "---" are accepted, since no rule concerns hyphen placement |
| OrganizationSchema.NameIssues | schemas/organization.schema.ts:8-13 | the name is accepted exactly when it has 2 to 100 characters |
| OrganizationSchema.SlugIssues | schemas/organization.schema.ts:14-26 | the slug is accepted exactly when it has 2 to 50 characters, all in [a-z0-9-], with an alphanumeric first and last character |
| OrganizationSchema.Issues | schemas/organization.schema.ts:7-27 | the form is accepted exactly when both fields are |
| OrganizationSchema.MinOneIsSubsumed | schemas/organization.schema.ts:10-11 | the min(1) rule never fails alone, because min(2) fails with it |
| OrganizationSchema.InteriorDoubleHyphenPasses | schemas/organization.schema.ts:19-24 | an interior "--" is accepted |
| OrganizationSchema.OrganizationSlugIsProjectSlug | schemas/organization.schema.ts:14-26 | every accepted organization slug is an accepted project slug |
| ThreadList.FilterByStatus | components/features/threads/thread-list.tsx:34-37 | "all" keeps every thread; otherwise exactly the threads with that status are kept |
| ThreadList.FilterKeepsOrder | components/features/threads/thread-list.tsx:34-37 | the filtered threads keep their order |
| ThreadList.SortDescending | components/features/threads/thread-list.tsx:40-52 | the sort of a copy gives a non-increasing order of the key, holding the same threads |
| ThreadList.DescendingPairs | components/features/threads/thread-list.tsx:40-52 | in that order every earlier thread's key is at least every later one's |
| ThreadList.SortIsStable | components/features/threads/thread-list.tsx:40-52 | threads with equal keys keep their relative order |
| ThreadList.VisibleThreads | components/features/threads/thread-list.tsx:34-52 | the list shown holds exactly the filtered threads, in non-increasing order of the key chosen by the sort mode (priority, comment count, or creation time by default) |
| ThreadList.VisibleTiesKeepOrder | components/features/threads/thread-list.tsx:40-52 | ties keep the order the filter left them in |
| ThreadList.FindItem | components/features/threads/thread-list.tsx:81-83 | `find` returns the first item with the id, or nothing when none has it |
| ThreadList.Card | components/features/threads/thread-list.tsx:81-91 | the language badge shows exactly when the thread's language differs from the user's; the title passed is the `title` field of the first item with the thread's id, so none when no item has that id or when that item has the fallback shape |
| ThreadList.FallbackGivesNoTitle | components/features/threads/thread-list.tsx:89 | with fallback-shaped items no title is ever passed, because they have no `title` field |
| PriorityIndicator.Render | components/features/threads/priority-indicator.tsx:10-36 | the flame shows exactly for priority ≥ 7; the badge shows unless showLabel is false; it is destructive for high, default for 4..6 and secondary below 4 |
| PriorityIndicator.BandsPartition | components/features/threads/priority-indicator.tsx:15-16 | high and medium never hold together, and neither holds exactly below 4 |
| PriorityIndicator.BandsAreMonotone | components/features/threads/priority-indicator.tsx:15-23 | raising the priority never lowers the band |
| StatusBadge.LocaleOf | components/features/threads/status-badge.tsx:14-22 | a recognized locale code names the locale whose code it is |
| StatusBadge.CodesRoundTrip | components/features/threads/status-badge.tsx:14-22 | each of the eight locale codes is recognized as its own locale |
| StatusBadge.LabelsAreNonEmpty | components/features/threads/status-badge.tsx:12-85 | every status has a non-empty label in all eight locales |
| StatusBadge.SelectStatusLabel | components/features/threads/status-badge.tsx:87-90 | a known locale reads its own label; any other locale reads the English one; the label is never empty |
| StatusBadge.KnownLocaleReadsOwnLabel | components/features/threads/status-badge.tsx:89 | the English fallback never fires for the eight locales |
| StatusBadge.StatusVariant | components/features/threads/status-badge.tsx:24-82 | "new" is secondary, "wont_fix" is destructive, and the other three are default |

## Behaviour of the code worth knowing

The model follows the code in each case below.
- **Batch translation.** In `lib/lingo.ts` the calls for every language group are awaited by one `Promise.all` inside one `try`. One failing group therefore sends every thread back to its original title, including the threads of groups whose calls succeeded (`Lingo.BatchTranslate`).
- **Permission tables.** The doc-comment matrix in `lib/permissions.ts` shows owners, admins and maintainers deleting their own threads and comments. Their tables hold only the `:any` tokens, and the gates consult only the `:own` token for one's own resource. An owner therefore cannot edit or delete their own thread (`ThreadActions.OwnerCannotEditOwnThread`). For the same reason the member table is not within the admin table.
- **Batch response fields.** The batch action's success path returns items with `title`, and its fallback returns items with `translatedTitle`. The thread list reads only `title`, so fallback items never supply a title (`ThreadList.FallbackGivesNoTitle`).
- **Joining an organization.** The "Failed to join organization" reply cannot occur. `updateInvitationAsUsed` either returns true or throws, and a throw is reported as "Failed to join organization: " with the message.

## Left out

- **Storage.** Prisma queries, transactions and error-code mapping are replaced by maps and a fault parameter. Only the foreign-key versus other distinction is kept, in `ProjectsService`.
- **Failing reads in the server actions.** Only the single store write of each action takes a fault. The reads inside the same `try` — `getUserSession`, the `findById` lookups and `getUserPermissions` — are assumed not to throw. In the source, such a throw is turned by the `catch` into `{success: false, error}` with the thrown error's message, as a failing write is (`Gates.Issue`).
- **Sessions.** Session plumbing, the auth library and the login, signup and reset flows are left out. The session is an `Option<User>`.
- **The translation SDK.** The SDK is an arbitrary function. What it translates to is not modelled.
- **React scheduling.** `useTransition`, effect timing and `Promise.all` parallelism are modelled as a sequence of events. `isPending` is modelled as "some call is in flight".
- **Out of scope.** Rendering, styling, pages, sidebars, static label tables, `getLabel`/`formatDate`, email templates, the legacy `actions/organizations.ts`, and the API route handlers.
- **Dates.** Dates are integers, so invalid dates are not modelled. The thread list's "recent" key is `createdAt` as an integer.
- **ProjectSlug.Slugify: Unicode.** `toLowerCase` is modelled on ASCII letters only, so Unicode case mapping and UTF-16 length are not modelled. `\s` is the list of JavaScript white-space code units.
- **ProjectSchema.Issues and OrganizationSchema.Issues: zod transforms.** The trailing `.trim()` and `.toLowerCase()` transforms are not modelled. They change the parsed value, not whether it is accepted.
- **TranslationHook.KeyIgnoresFieldOrder: `localeCompare`.** Field names are ordered by code unit. `localeCompare` orders differently, but the property only needs some fixed total order.
- **Permissions.HasPermission: token spelling.** Tokens are an enumeration with a `Spelling` function giving each source string. The proof that distinct tokens have distinct spellings is not written out.
- **StatusBadge.SelectStatusLabel: inherited keys.** Locale strings that name inherited object properties (such as "constructor") are not modelled. They are treated as unknown locales.
- **Navigation.BuildRoute: replacement patterns.** The `$` patterns of `String.replace` in the replacement slug are not interpreted. Slugs over [a-z0-9-] contain none.
- **PriorityIndicator.Render: fractional priorities.** The priority is an integer, so fractional numbers and NaN are not modelled.
- **The proxy's route lists.** They come from a configuration module that is not part of this model. `Proxy.ConfigRoutes` uses the lists in `config/config.ts`. The proxy's matcher excludes paths starting with "api", so the auth-API branch is modelled but would not be reached in deployment.
- **Thread card.** The card component ignores its translated-title prop. Only the props the list passes are modelled.

## Findings

| source | as written | input that shows it | evidently intended | confidence | as-written member | corrected member |
|---|---|---|---|---|---|---|
| proxy.ts:25-33 | a sign-in route without a session falls through to the redirect to "/login" | GET "/login" with no session cookie | signed-out visitors may load the sign-in pages | not executed; medium, since the route lists are taken from config/config.ts | Proxy.SignedOutLoginRedirectsToItself | Proxy.CorrectedNeverLoops |
| hooks/use-translation.ts:41-81 | the effect's cleanup clears `isMounted` on every re-run, not only on unmount, so a re-run while the call is in flight discards its answer and leaves the key marked with no live request | a key requested, then the effect re-run (for example with a new `content` object of the same values) before the call settles | `isMounted` means what its name says: only unmounting the component orphans a call, so an effect re-run leaves the call in flight live and its answer is stored | not executed; high | TranslationHook.RerunStrandsKey | TranslationHook.CorrectedEffectProgress |
