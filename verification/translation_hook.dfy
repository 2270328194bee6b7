/**
 * `hooks/use-translation.ts`: translates one object of fields for display, through the
 * content action, with a per-instance cache and a show-original toggle.
 */
module TranslationHook {
  import opened Wrappers
  import opened Strings
  import opened Lingo
  import opened RequestCache
  import opened TranslationActions

  /** One field of the content object; the object's fields are listed in its own key order. */
  datatype Entry = Entry(field: string, value: string)

  datatype Props = Props(content: seq<Entry>, originalLanguage: string, targetLanguage: string, enabled: bool)

  /** A JavaScript object has each key once. */
  predicate DistinctFields(es: seq<Entry>) {
    forall i, j | 0 <= i < j < |es| :: es[i].field != es[j].field
  }

  function FieldOf(e: Entry): string { e.field }

  function Render(e: Entry): string { e.field + ":" + e.value }

  function RenderAll(es: seq<Entry>): (r: seq<string>)
    ensures |r| == |es| && forall i | 0 <= i < |es| :: r[i] == Render(es[i])
  {
    seq(|es|, i requires 0 <= i < |es| => Render(es[i]))
  }

  /**
   * The cache key: the two locales, then the `field:value` pairs sorted by field and joined
   * with `|` (field names compared by code unit, standing in for `localeCompare`).
   */
  function CacheKey(p: Props): (r: string)
    ensures p.originalLanguage + "-" + p.targetLanguage + "-" <= r
  {
    p.originalLanguage + "-" + p.targetLanguage + "-" + Join(RenderAll(SortBy(p.content, FieldOf)), "|")
  }

  /** With distinct fields, the field names an entry. */
  lemma DistinctFieldsDetermine(es: seq<Entry>)
    requires DistinctFields(es)
    ensures KeyDetermines(multiset(es), FieldOf)
  {
    forall x, y | x in multiset(es) && y in multiset(es) && FieldOf(x) == FieldOf(y) ensures x == y {
      var i :| 0 <= i < |es| && es[i] == x;
      var j :| 0 <= j < |es| && es[j] == y;
      assert !(i < j) && !(j < i);
    }
  }

  /** The key depends on the locales and the set of (field, value) pairs, not on field order. */
  lemma {:induction false} KeyIgnoresFieldOrder(p: Props, q: Props)
    requires DistinctFields(p.content)
    requires multiset(p.content) == multiset(q.content)
    requires p.originalLanguage == q.originalLanguage && p.targetLanguage == q.targetLanguage
    ensures CacheKey(p) == CacheKey(q)
  {
    DistinctFieldsDetermine(p.content);
    SortByIgnoresOrder(p.content, q.content, FieldOf);
  }

  /** Dropping the last entry keeps the fields distinct, and the last field is not among the rest. */
  lemma DistinctInit(es: seq<Entry>)
    requires |es| > 0 && DistinctFields(es)
    ensures DistinctFields(es[..|es| - 1])
    ensures forall e | e in es[..|es| - 1] :: e.field != es[|es| - 1].field
  {
    forall e | e in es[..|es| - 1] ensures e.field != es[|es| - 1].field {
      var i :| 0 <= i < |es| - 1 && es[..|es| - 1][i] == e;
      assert es[i] == e;
    }
  }

  /** The field names of `es`. */
  function FieldNames(es: seq<Entry>): set<string> {
    set e | e in es :: e.field
  }

  lemma FieldNamesOfInit(es: seq<Entry>)
    requires |es| > 0
    ensures FieldNames(es) == FieldNames(es[..|es| - 1]) + {es[|es| - 1].field}
  {
    assert es == es[..|es| - 1] + [es[|es| - 1]];
    assert forall e | e in es :: e in es[..|es| - 1] || e == es[|es| - 1];
  }

  /** The content as the object handed to the action: later entries win, as in an object literal. */
  function ToFields(es: seq<Entry>): Fields
    decreases |es|
  {
    if |es| == 0 then map[] else ToFields(es[..|es| - 1])[es[|es| - 1].field := es[|es| - 1].value]
  }

  /** The object has exactly the listed fields. */
  lemma {:induction false} ToFieldsKeys(es: seq<Entry>)
    ensures ToFields(es).Keys == FieldNames(es)
    decreases |es|
  {
    if |es| > 0 {
      ToFieldsKeys(es[..|es| - 1]);
      FieldNamesOfInit(es);
    }
  }

  /** With distinct fields, each field carries its entry's value. */
  lemma {:induction false} ToFieldsValues(es: seq<Entry>)
    requires DistinctFields(es)
    ensures forall e | e in es :: e.field in ToFields(es) && ToFields(es)[e.field] == e.value
    decreases |es|
  {
    if |es| > 0 {
      var init := es[..|es| - 1];
      var last := es[|es| - 1];
      DistinctInit(es);
      ToFieldsValues(init);
      assert es == init + [last];
      forall e | e in es ensures e.field in ToFields(es) && ToFields(es)[e.field] == e.value {
        if e != last {
          assert e in init;
        }
      }
    }
  }

  predicate NeedsTranslation(p: Props) {
    p.originalLanguage != p.targetLanguage
  }

  predicate ShouldTranslate(p: Props, showOriginal: bool) {
    p.enabled && !showOriginal && NeedsTranslation(p)
  }

  datatype Hook = Hook(requests: State<Fields>, showOriginal: bool)

  datatype Event =
    | Effect(props: Props)                        // the effect (re-)ran with these props
    | Resolve(index: int, response: ContentResponse)
    | Reject(index: int)                          // the action call itself rejected
    | Unmount
    | Toggle

  function Mount(): Hook {
    Hook(Init(), false)
  }

  /**
   * The value `result.data` stores: a response object always has `data`, and an object is
   * truthy, so a settled call is always stored (a failed one stores the original content).
   */
  function Stored(response: ContentResponse): (r: Option<Fields>)
    ensures r == Some(response.data)
  {
    Some(response.data)
  }

  /**
   * One step of the hook as written. Before an effect re-runs, React runs the previous run's
   * cleanup, which clears the `isMounted` of whatever it started.
   */
  function Step(h: Hook, e: Event): (r: Hook)
    ensures h.requests.cache.Keys <= r.requests.cache.Keys
    ensures r.requests.sent == h.requests.sent || (e.Effect? && r.requests.sent == h.requests.sent + [CacheKey(e.props)])
    ensures e.Effect? && r.requests.sent != h.requests.sent ==>
              ShouldTranslate(e.props, h.showOriginal) && CacheKey(e.props) !in h.requests.requested + h.requests.cache.Keys
    ensures r.showOriginal != h.showOriginal <==> e.Toggle?
    ensures e.Toggle? ==> r.requests == h.requests
  {
    match e
    case Effect(p) => h.(requests := Begin(Orphan(h.requests), ShouldTranslate(p, h.showOriginal), CacheKey(p)))
    case Resolve(i, response) => h.(requests := Settle(h.requests, i, Stored(response)))
    case Reject(i) => h.(requests := RequestCache.Reject(h.requests, i))
    case Unmount => h.(requests := Orphan(h.requests))
    case Toggle => h.(showOriginal := !h.showOriginal)
  }

  /** `translatedContent`: the original unless translation is wanted and the key is cached. */
  function TranslatedContent(h: Hook, p: Props): (r: Fields)
    ensures !ShouldTranslate(p, h.showOriginal) ==> r == ToFields(p.content)
    ensures r == ToFields(p.content) || (CacheKey(p) in h.requests.cache && r == h.requests.cache[CacheKey(p)])
    ensures ShouldTranslate(p, h.showOriginal) && CacheKey(p) in h.requests.cache ==> r == h.requests.cache[CacheKey(p)]
  {
    if !ShouldTranslate(p, h.showOriginal) then ToFields(p.content)
    else if CacheKey(p) in h.requests.cache then h.requests.cache[CacheKey(p)]
    else ToFields(p.content)
  }

  /** `isTranslating`; the transition is pending while any call of this instance is in flight. */
  function IsTranslating(h: Hook, p: Props): (r: bool)
    ensures r ==> ShouldTranslate(p, h.showOriginal) && CacheKey(p) !in h.requests.cache
  {
    ShouldTranslate(p, h.showOriginal) && |h.requests.inflight| > 0 && CacheKey(p) !in h.requests.cache
  }

  /** Every step keeps the request bookkeeping consistent: at most one call in flight per key. */
  lemma {:induction false} StepInv(h: Hook, e: Event)
    requires Inv(h.requests)
    ensures Inv(Step(h, e).requests)
  {
    match e
    case Effect(p) =>
      OrphanInv(h.requests);
      BeginInv(Orphan(h.requests), ShouldTranslate(p, h.showOriginal), CacheKey(p));
    case Resolve(i, response) => SettleInv(h.requests, i, Stored(response));
    case Reject(i) => RejectInv(h.requests, i);
    case Unmount => OrphanInv(h.requests);
    case Toggle =>
  }

  /** Toggling twice restores the display mode and touches nothing else. */
  lemma ToggleTwice(h: Hook)
    ensures Step(Step(h, Toggle), Toggle) == h
    ensures Step(h, Toggle).requests == h.requests
  {}

  /**
   * Once the call for the displayed key settles while its run is mounted, the display is the
   * answer and the hook is no longer translating.
   */
  lemma {:induction false} ResolvedShowsAnswer(h: Hook, p: Props, i: int, response: ContentResponse)
    requires 0 <= i < |h.requests.inflight|
    requires h.requests.inflight[i] == Pending(CacheKey(p), true)
    requires ShouldTranslate(p, h.showOriginal)
    ensures TranslatedContent(Step(h, Resolve(i, response)), p) == response.data
    ensures !IsTranslating(Step(h, Resolve(i, response)), p)
  {
    var h' := Step(h, Resolve(i, response));
    assert h'.requests.cache == h.requests.cache[CacheKey(p) := response.data];
  }

  /**
   * As written, an effect re-run for a key whose call is still in flight makes no call and
   * orphans that call: its answer will not be stored, and the key stays marked.
   */
  lemma {:induction false} RerunOrphansCall(h: Hook, p: Props)
    requires Inv(h.requests)
    requires CacheKey(p) in KeysOf(h.requests.inflight)
    ensures Step(h, Effect(p)).requests.sent == h.requests.sent
    ensures CacheKey(p) !in MountedKeys(Step(h, Effect(p)).requests.inflight)
    ensures CacheKey(p) in Step(h, Effect(p)).requests.requested
  {
    var k := CacheKey(p);
    var i :| 0 <= i < |h.requests.inflight| && h.requests.inflight[i].key == k;
    var o := Orphan(h.requests);
    assert Begin(o, ShouldTranslate(p, h.showOriginal), k) == o;
    forall q | q in o.inflight ensures !q.mounted {
      var j :| 0 <= j < |o.inflight| && o.inflight[j] == q;
    }
  }

  /**
   * The discrepancy on a concrete run: the effect runs, the component re-renders with a new
   * but equal content object (so the effect re-runs), then the call answers. One call was
   * made, nothing was cached, and a further run makes no call: the original stays on screen.
   */
  lemma {:induction false} RerunStrandsKey()
    ensures var p := Props([Entry("title", "Hola")], "es", "en", true);
            var h1 := Step(Mount(), Effect(p));
            var h2 := Step(h1, Effect(p));
            var h3 := Step(h2, Resolve(0, ContentResponse(true, None, map["title" := "Hello"])));
            var h4 := Step(h3, Effect(p));
            && h4.requests.sent == [CacheKey(p)]
            && CacheKey(p) !in h4.requests.cache
            && TranslatedContent(h4, p) == ToFields(p.content)
  {
    var p := Props([Entry("title", "Hola")], "es", "en", true);
    var k := CacheKey(p);
    var h1 := Step(Mount(), Effect(p));
    assert h1.requests == State(map[], {k}, [Pending(k, true)], [k]);
    var h2 := Step(h1, Effect(p));
    assert h2.requests == State(map[], {k}, [Pending(k, false)], [k]);
    var h3 := Step(h2, Resolve(0, ContentResponse(true, None, map["title" := "Hello"])));
    assert h3.requests == State(map[], {k}, [], [k]);
  }

  /**
   * The evidently intended behaviour: `isMounted` tracks whether the component is mounted, as
   * its name says (for example a ref cleared only by an unmount-time cleanup). An effect re-run
   * on the same mounted component then leaves the call in flight live; only unmounting orphans
   * it. Every other event behaves as written.
   */
  function StepCorrected(h: Hook, e: Event): (r: Hook)
    ensures !e.Effect? ==> r == Step(h, e)
    ensures e.Effect? ==> forall q | q in h.requests.inflight :: q in r.requests.inflight
    ensures h.requests.cache.Keys <= r.requests.cache.Keys
    ensures r.requests.sent == h.requests.sent || (e.Effect? && r.requests.sent == h.requests.sent + [CacheKey(e.props)])
    ensures e.Effect? && r.requests.sent != h.requests.sent ==>
              ShouldTranslate(e.props, h.showOriginal) && CacheKey(e.props) !in h.requests.requested + h.requests.cache.Keys
  {
    match e
    case Effect(p) => h.(requests := Begin(h.requests, ShouldTranslate(p, h.showOriginal), CacheKey(p)))
    case _ => Step(h, e)
  }

  /**
   * With the correction, while the component stays mounted no key is ever stranded: every
   * marked, uncached key has a live call that will store its answer.
   */
  lemma {:induction false} CorrectedStaysLive(h: Hook, e: Event)
    requires Inv(h.requests) && Live(h.requests)
    requires !e.Unmount?
    ensures Inv(StepCorrected(h, e).requests) && Live(StepCorrected(h, e).requests)
  {
    match e
    case Effect(p) =>
      BeginInv(h.requests, ShouldTranslate(p, h.showOriginal), CacheKey(p));
      BeginLive(h.requests, ShouldTranslate(p, h.showOriginal), CacheKey(p));
    case Resolve(i, response) =>
      SettleInv(h.requests, i, Stored(response));
      SettleLive(h.requests, i, Stored(response));
    case Reject(i) =>
      RejectInv(h.requests, i);
      RejectLive(h.requests, i);
    case Toggle =>
  }

  /**
   * With the correction, right after an effect run that wants a translation, the key is either
   * cached or has a live call in flight.
   */
  lemma {:induction false} CorrectedEffectProgress(h: Hook, p: Props)
    requires Inv(h.requests) && Live(h.requests)
    requires ShouldTranslate(p, h.showOriginal)
    ensures var r := StepCorrected(h, Effect(p)).requests;
            CacheKey(p) in r.cache || CacheKey(p) in MountedKeys(r.inflight)
  {
    var r := StepCorrected(h, Effect(p)).requests;
    BeginLive(h.requests, true, CacheKey(p));
    assert CacheKey(p) in r.requested;
  }
}
