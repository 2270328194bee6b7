/**
 * `hooks/use-batch-translation.ts`: translates the titles of a list of threads with one
 * batch action call per distinct list, cached per instance.
 */
module BatchTranslationHook {
  import opened Wrappers
  import opened Strings
  import opened Lingo
  import opened RequestCache
  import opened TranslationActions

  datatype Props = Props(threads: seq<ThreadText>, targetLocale: string, enabled: bool)

  function Ids(ts: seq<ThreadText>): (r: seq<string>)
    ensures |r| == |ts| && forall i | 0 <= i < |ts| :: r[i] == ts[i].id
  {
    seq(|ts|, i requires 0 <= i < |ts| => ts[i].id)
  }

  /** The ids in default `sort` order (code-unit order), joined by ",", then "-" and the locale. */
  function CacheKey(p: Props): (r: string)
    ensures |r| > |p.targetLocale| && r[|r| - |p.targetLocale| - 1..] == "-" + p.targetLocale
  {
    Join(SortBy(Ids(p.threads), Self), ",") + "-" + p.targetLocale
  }

  /**
   * The key depends only on the multiset of ids and the locale: not on thread order, titles,
   * contents or languages.
   */
  lemma {:induction false} KeyDependsOnlyOnIds(p: Props, q: Props)
    requires multiset(Ids(p.threads)) == multiset(Ids(q.threads))
    requires p.targetLocale == q.targetLocale
    ensures CacheKey(p) == CacheKey(q)
  {
    SortByIgnoresOrder(Ids(p.threads), Ids(q.threads), Self);
  }

  predicate NeedsTranslation(p: Props) {
    exists i | 0 <= i < |p.threads| :: p.threads[i].originalLanguage != p.targetLocale
  }

  /** The effect's early return: disabled, nothing to show, or nothing to translate. */
  /** Some thread needs translation exactly when the library's pending list is non-empty. */
  lemma NeedsTranslationIsPending(p: Props)
    ensures NeedsTranslation(p) <==> |Lingo.Pending(p.threads, p.targetLocale)| > 0
  {
    var pending := Lingo.Pending(p.threads, p.targetLocale);
    if NeedsTranslation(p) {
      var i :| 0 <= i < |p.threads| && p.threads[i].originalLanguage != p.targetLocale;
      assert p.threads[i] in pending;
    }
    if |pending| > 0 {
      assert pending[0] in p.threads;
    }
  }

  predicate Wanted(p: Props)
    ensures Wanted(p) <==> p.enabled && |Lingo.Pending(p.threads, p.targetLocale)| > 0
  {
    NeedsTranslationIsPending(p);
    p.enabled && |p.threads| > 0 && NeedsTranslation(p)
  }

  datatype Event =
    | Effect(props: Props)
    | Resolve(index: int, response: BatchResponse)
    | Reject(index: int)
    | Unmount

  /** Only a successful response is stored. */
  function Stored(response: BatchResponse): (r: Option<seq<BatchItem>>)
    ensures r.Some? <==> response.success
    ensures r.Some? ==> r.value == response.data
  {
    if response.success then Some(response.data) else None
  }

  function Step(s: State<seq<BatchItem>>, e: Event): (r: State<seq<BatchItem>>)
    ensures s.cache.Keys <= r.cache.Keys
    ensures r.sent == s.sent || (e.Effect? && r.sent == s.sent + [CacheKey(e.props)])
    ensures e.Effect? && r.sent != s.sent ==> Wanted(e.props) && CacheKey(e.props) !in s.requested + s.cache.Keys
    ensures e.Effect? && Wanted(e.props) && CacheKey(e.props) !in s.requested + s.cache.Keys ==>
              r.sent == s.sent + [CacheKey(e.props)]
  {
    match e
    case Effect(p) => Begin(Orphan(s), Wanted(p), CacheKey(p))
    case Resolve(i, response) => Settle(s, i, Stored(response))
    case Reject(i) => RequestCache.Reject(s, i)
    case Unmount => Orphan(s)
  }

  /**
   * `translatedThreads`: the identity mapping in the fallback shape unless something needs
   * translation and the key is cached, in which case the whole cached list.
   */
  function TranslatedThreads(s: State<seq<BatchItem>>, p: Props): (r: seq<BatchItem>)
    ensures !NeedsTranslation(p) ==> r == FallbackItems(p.threads)
    ensures r == FallbackItems(p.threads) || (CacheKey(p) in s.cache && r == s.cache[CacheKey(p)])
    ensures NeedsTranslation(p) && CacheKey(p) in s.cache ==> r == s.cache[CacheKey(p)]
  {
    if !NeedsTranslation(p) then FallbackItems(p.threads)
    else if CacheKey(p) in s.cache then s.cache[CacheKey(p)]
    else FallbackItems(p.threads)
  }

  function IsTranslating(s: State<seq<BatchItem>>, p: Props): (r: bool)
    ensures r ==> CacheKey(p) !in s.cache
  {
    |s.inflight| > 0 && CacheKey(p) !in s.cache
  }

  lemma {:induction false} StepInv(s: State<seq<BatchItem>>, e: Event)
    requires Inv(s)
    ensures Inv(Step(s, e))
  {
    match e
    case Effect(p) =>
      OrphanInv(s);
      BeginInv(Orphan(s), Wanted(p), CacheKey(p));
    case Resolve(i, response) => SettleInv(s, i, Stored(response));
    case Reject(i) => RejectInv(s, i);
    case Unmount => OrphanInv(s);
  }

  /** No call is made when disabled, when the list is empty, or when nothing needs translation. */
  lemma NoCallUnlessWanted(s: State<seq<BatchItem>>, p: Props)
    requires !p.enabled || |p.threads| == 0 || forall t | t in p.threads :: t.originalLanguage == p.targetLocale
    ensures Step(s, Effect(p)).sent == s.sent
  {}

  /**
   * A mounted call answered with `success: false` stores nothing and leaves its key marked, so
   * later runs with the same props make no call: the fallback stays.
   */
  lemma {:induction false} FailureIsNotRetried(s: State<seq<BatchItem>>, p: Props, i: int, response: BatchResponse)
    requires Inv(s)
    requires 0 <= i < |s.inflight| && s.inflight[i] == Pending(CacheKey(p), true)
    requires !response.success
    ensures var s' := Step(s, Resolve(i, response));
            && CacheKey(p) !in s'.cache
            && Step(s', Effect(p)).sent == s'.sent
            && TranslatedThreads(Step(s', Effect(p)), p) == FallbackItems(p.threads)
  {
    var s' := Step(s, Resolve(i, response));
    assert CacheKey(p) in s'.requested;
  }

  /** A mounted call that rejects unmarks its key, so the next run that wants it calls again. */
  lemma {:induction false} RejectionIsRetried(s: State<seq<BatchItem>>, p: Props, i: int)
    requires Inv(s)
    requires 0 <= i < |s.inflight| && s.inflight[i] == Pending(CacheKey(p), true)
    requires Wanted(p)
    ensures var s' := Step(s, Reject(i));
            Step(s', Effect(p)).sent == s'.sent + [CacheKey(p)]
  {
    var s' := Step(s, Reject(i));
    assert CacheKey(p) !in s'.requested;
    assert CacheKey(p) !in s'.cache;
  }

  /** A successful answer for the displayed key replaces the fallback with the action's items. */
  lemma {:induction false} SuccessIsShown(s: State<seq<BatchItem>>, p: Props, i: int, response: BatchResponse)
    requires 0 <= i < |s.inflight| && s.inflight[i] == Pending(CacheKey(p), true)
    requires response.success && NeedsTranslation(p)
    ensures TranslatedThreads(Step(s, Resolve(i, response)), p) == response.data
    ensures !IsTranslating(Step(s, Resolve(i, response)), p)
  {
    assert Step(s, Resolve(i, response)).cache == s.cache[CacheKey(p) := response.data];
  }
}
