/**
 * `lib/lingo.ts`: single-object, single-text and batch translation in front of an external
 * engine. The engine (`localizeObject` / `localizeText`) is an arbitrary function that either
 * answers (`Some`) or throws (`None`); every call is recorded, in issue order.
 */
module Lingo {
  import opened Wrappers
  import opened Seqs

  /** A string-to-string object, as sent to and returned by `localizeObject`. */
  type Fields = map<string, string>

  type ObjectEngine = (Fields, string, string) -> Option<Fields>
  type TextEngine = (string, string, string) -> Option<string>

  datatype ObjectRequest = ObjectRequest(fields: Fields, source: string, target: string)
  datatype TextRequest = TextRequest(text: string, source: string, target: string)

  /** A result together with the engine calls made to obtain it. */
  datatype Traced<T, Q> = Traced(value: T, calls: seq<Q>)

  function Ask(engine: ObjectEngine, q: ObjectRequest): Option<Fields> {
    engine(q.fields, q.source, q.target)
  }

  /**
   * `translateContent`: the same locale on both sides answers the input without calling the
   * engine; otherwise exactly one call is made and a throw is answered with the input.
   */
  function TranslateContent(engine: ObjectEngine, content: Fields, source: string, target: string)
    : (r: Traced<Fields, ObjectRequest>)
    ensures source == target ==> r == Traced(content, [])
    ensures source != target ==> r.calls == [ObjectRequest(content, source, target)]
    ensures source != target ==> (Ask(engine, r.calls[0]).None? ==> r.value == content)
    ensures source != target ==> (Ask(engine, r.calls[0]).Some? ==> r.value == Ask(engine, r.calls[0]).value)
  {
    if source == target then Traced(content, [])
    else
      var q := ObjectRequest(content, source, target);
      match Ask(engine, q)
      case Some(translated) => Traced(translated, [q])
      case None => Traced(content, [q])
  }

  /** `translateText`: the same two behaviours for a single string. */
  function TranslateText(engine: TextEngine, text: string, source: string, target: string)
    : (r: Traced<string, TextRequest>)
    ensures source == target ==> r == Traced(text, [])
    ensures source != target ==> r.calls == [TextRequest(text, source, target)]
    ensures source != target && engine(text, source, target).None? ==> r.value == text
    ensures source != target && engine(text, source, target).Some? ==> r.value == engine(text, source, target).value
  {
    if source == target then Traced(text, [])
    else
      var q := TextRequest(text, source, target);
      match engine(text, source, target)
      case Some(translated) => Traced(translated, [q])
      case None => Traced(text, [q])
  }

  /** A thread as handed to the batch translator. */
  datatype ThreadText = ThreadText(id: string, title: string, content: Option<string>, originalLanguage: string)

  /** A thread as the batch translator answers it: `{id, title, content}`. */
  datatype Titled = Titled(id: string, title: string, content: Option<string>)

  function Original(t: ThreadText): Titled {
    Titled(t.id, t.title, t.content)
  }

  /** The untranslated answer, one entry per input thread in input order. */
  function Originals(ts: seq<ThreadText>): (r: seq<Titled>)
    ensures |r| == |ts|
    ensures forall i | 0 <= i < |ts| :: r[i] == Original(ts[i])
  {
    seq(|ts|, i requires 0 <= i < |ts| => Original(ts[i]))
  }

  /** No two threads share an id. */
  predicate DistinctIds(ts: seq<ThreadText>) {
    forall i, j | 0 <= i < j < |ts| :: ts[i].id != ts[j].id
  }

  /** The threads whose language differs from the target, in order. */
  function Pending(ts: seq<ThreadText>, target: string): seq<ThreadText> {
    Filter(ts, (t: ThreadText) => t.originalLanguage != target)
  }

  /** The threads written in `language`, in order: the batch for that source locale. */
  function Group(ts: seq<ThreadText>, language: string): seq<ThreadText> {
    Filter(ts, (t: ThreadText) => t.originalLanguage == language)
  }

  function LanguagesOf(ts: seq<ThreadText>): (r: seq<string>)
    ensures |r| == |ts| && forall i | 0 <= i < |ts| :: r[i] == ts[i].originalLanguage
  {
    seq(|ts|, i requires 0 <= i < |ts| => ts[i].originalLanguage)
  }

  /**
   * The source locales in the order their groups are built: first appearance among the
   * pending threads (object keys keep insertion order).
   */
  function SourceLocales(ts: seq<ThreadText>, target: string): seq<string> {
    Dedup(LanguagesOf(Pending(ts, target)))
  }

  /**
   * `Object.fromEntries(items.map(t => [t.id, t.title]))`: one key per id, the title of the
   * last thread with that id winning. Only titles are sent.
   */
  function GroupFields(items: seq<ThreadText>): (r: Fields)
    ensures r.Keys == set t | t in items :: t.id
    ensures forall k | k in r :: exists t | t in items :: t.id == k && t.title == r[k]
    decreases |items|
  {
    if |items| == 0 then map[]
    else
      var init := items[..|items| - 1];
      var last := items[|items| - 1];
      var before := GroupFields(init);
      assert items == init + [last];
      assert (set t | t in items :: t.id) == (set t | t in init :: t.id) + {last.id};
      before[last.id := last.title]
  }

  /** One request per source locale, each carrying that locale's group. */
  function Requests(ts: seq<ThreadText>, locales: seq<string>, target: string): (r: seq<ObjectRequest>)
    ensures |r| == |locales|
    ensures forall j | 0 <= j < |r| ::
              r[j].source == locales[j] && r[j].target == target && r[j].fields == GroupFields(Group(ts, locales[j]))
  {
    seq(|locales|, j requires 0 <= j < |locales| =>
          ObjectRequest(GroupFields(Group(ts, locales[j])), locales[j], target))
  }

  /**
   * Folding every answer into one `Map` with `set`: an id answered twice keeps the later
   * answer's title.
   */
  function Merge(answers: seq<Fields>): (r: Fields)
    ensures forall j, k | 0 <= j < |answers| && k in answers[j] :: k in r
    ensures forall k | k in r :: exists j | 0 <= j < |answers| :: k in answers[j] && r[k] == answers[j][k]
    decreases |answers|
  {
    if |answers| == 0 then map[]
    else
      var init := answers[..|answers| - 1];
      var before := Merge(init);
      assert forall j | 0 <= j < |init| :: init[j] == answers[j];
      before + answers[|answers| - 1]
  }

  /** `translationMap.get(id) || title`: a missing or empty translation keeps the original title. */
  function TitleFrom(translations: Fields, t: ThreadText): string {
    if t.id in translations && translations[t.id] != "" then translations[t.id] else t.title
  }

  predicate AnyFailed(engine: ObjectEngine, calls: seq<ObjectRequest>) {
    exists j | 0 <= j < |calls| :: Ask(engine, calls[j]).None?
  }

  /** The answers of calls none of which failed. */
  function Answers(engine: ObjectEngine, calls: seq<ObjectRequest>): (r: seq<Fields>)
    requires !AnyFailed(engine, calls)
    ensures |r| == |calls| && forall j | 0 <= j < |calls| :: Some(r[j]) == Ask(engine, calls[j])
  {
    seq(|calls|, j requires 0 <= j < |calls| => Ask(engine, calls[j]).value)
  }

  /** Every thread, in input order, with its title looked up in `translations`. */
  function Retitle(threads: seq<ThreadText>, translations: Fields): (r: seq<Titled>)
    ensures |r| == |threads|
    ensures forall i | 0 <= i < |threads| :: r[i] == Titled(threads[i].id, TitleFrom(translations, threads[i]), threads[i].content)
  {
    seq(|threads|, i requires 0 <= i < |threads| =>
          Titled(threads[i].id, TitleFrom(translations, threads[i]), threads[i].content))
  }

  /** The calls a batch makes: one per source locale, in first-appearance order. */
  function BatchCalls(threads: seq<ThreadText>, target: string): seq<ObjectRequest> {
    Requests(Pending(threads, target), SourceLocales(threads, target), target)
  }

  /**
   * `batchTranslateThreads`. Every group's call is issued before any is awaited; if any of
   * them throws, the single surrounding `catch` answers every thread with its original title.
   */
  function BatchTranslate(engine: ObjectEngine, threads: seq<ThreadText>, target: string)
    : (r: Traced<seq<Titled>, ObjectRequest>)
    ensures |r.value| == |threads|
    ensures forall i | 0 <= i < |threads| ::
              r.value[i].id == threads[i].id && r.value[i].content == threads[i].content
    ensures |Pending(threads, target)| == 0 ==> r == Traced(Originals(threads), [])
    ensures AnyFailed(engine, r.calls) ==> r.value == Originals(threads)
  {
    if |Pending(threads, target)| == 0 then Traced(Originals(threads), [])
    else
      var calls := BatchCalls(threads, target);
      if AnyFailed(engine, calls) then Traced(Originals(threads), calls)
      else Traced(Retitle(threads, Merge(Answers(engine, calls))), calls)
  }

  /**
   * A title that changed is non-empty and is what some successful call answered for that
   * thread's id.
   */
  lemma {:induction false} ChangedTitleWasAnswered(engine: ObjectEngine, threads: seq<ThreadText>, target: string, i: int)
    requires 0 <= i < |threads|
    requires BatchTranslate(engine, threads, target).value[i].title != threads[i].title
    ensures var r := BatchTranslate(engine, threads, target);
            && r.value[i].title != ""
            && exists j | 0 <= j < |r.calls| ::
                 && Ask(engine, r.calls[j]).Some?
                 && threads[i].id in Ask(engine, r.calls[j]).value
                 && Ask(engine, r.calls[j]).value[threads[i].id] == r.value[i].title
  {
    var r := BatchTranslate(engine, threads, target);
    var calls := BatchCalls(threads, target);
    assert |Pending(threads, target)| != 0 && !AnyFailed(engine, calls) && r.calls == calls;
    var answers := Answers(engine, calls);
    var translations := Merge(answers);
    assert r.value[i].title == TitleFrom(translations, threads[i]);
    var id := threads[i].id;
    var j :| 0 <= j < |answers| && id in answers[j] && translations[id] == answers[j][id];
    assert Ask(engine, calls[j]) == Some(answers[j]);
  }

  /** The locales the calls were made for. */
  function Sources(calls: seq<ObjectRequest>): (r: seq<string>)
    ensures |r| == |calls| && forall j | 0 <= j < |calls| :: r[j] == calls[j].source
  {
    seq(|calls|, j requires 0 <= j < |calls| => calls[j].source)
  }

  /** A source locale differs from the target and is the locale of some pending thread. */
  lemma {:induction false} SourceLocaleIsPending(threads: seq<ThreadText>, target: string, l: string)
    requires l in SourceLocales(threads, target)
    ensures l != target
    ensures exists t | t in threads :: t.originalLanguage == l
  {
    var pending := Pending(threads, target);
    assert l in Elems(LanguagesOf(pending));
    var p :| 0 <= p < |pending| && LanguagesOf(pending)[p] == l;
    assert pending[p] in pending;
  }

  /** Every locale other than the target that some thread is written in gets a call. */
  lemma {:induction false} PendingLocaleIsSource(threads: seq<ThreadText>, t: ThreadText, target: string)
    requires t in threads && t.originalLanguage != target
    ensures t.originalLanguage in SourceLocales(threads, target)
  {
    var pending := Pending(threads, target);
    assert t in pending;
    var p :| 0 <= p < |pending| && pending[p] == t;
    assert LanguagesOf(pending)[p] == t.originalLanguage;
    assert t.originalLanguage in Elems(LanguagesOf(pending));
  }

  /** The call for locale `l` sends exactly the id-to-title pairs of the threads written in `l`. */
  lemma {:induction false} CallFields(threads: seq<ThreadText>, target: string, l: string)
    requires l != target
    ensures GroupFields(Group(Pending(threads, target), l)).Keys
         == set t | t in threads && t.originalLanguage == l :: t.id
    ensures forall k | k in GroupFields(Group(Pending(threads, target), l)) ::
              exists t | t in threads :: t.id == k && t.originalLanguage == l
                                       && t.title == GroupFields(Group(Pending(threads, target), l))[k]
  {
    var g := Group(Pending(threads, target), l);
    assert forall t :: t in g <==> t in threads && t.originalLanguage == l;
    assert (set t | t in g :: t.id) == set t | t in threads && t.originalLanguage == l :: t.id;
  }

  /** The batch makes at most one call per source language. */
  lemma {:induction false} BatchSourcesDistinct(engine: ObjectEngine, threads: seq<ThreadText>, target: string)
    ensures NoDup(Sources(BatchTranslate(engine, threads, target).calls))
  {
    if |Pending(threads, target)| != 0 {
      BatchCallSources(threads, target);
    }
  }

  /** The batch's calls go out one per source locale, in order. */
  lemma BatchCallSources(threads: seq<ThreadText>, target: string)
    ensures Sources(BatchCalls(threads, target)) == SourceLocales(threads, target)
  {
  }

  /**
   * Each call translates from a language other than the target into the target, and sends
   * exactly the titles of the threads written in its source language, keyed by id.
   */
  lemma {:induction false} BatchCallShape(engine: ObjectEngine, threads: seq<ThreadText>, target: string, j: int)
    requires 0 <= j < |BatchTranslate(engine, threads, target).calls|
    ensures var call := BatchTranslate(engine, threads, target).calls[j];
            && call.target == target && call.source != target
            && call.fields.Keys == (set t | t in threads && t.originalLanguage == call.source :: t.id)
            && (forall k | k in call.fields ::
                  exists t | t in threads :: t.id == k && t.originalLanguage == call.source && t.title == call.fields[k])
  {
    var calls := BatchTranslate(engine, threads, target).calls;
    assert |Pending(threads, target)| != 0;
    var locales := SourceLocales(threads, target);
    assert calls == BatchCalls(threads, target);
    assert calls[j].source == locales[j];
    SourceLocaleIsPending(threads, target, locales[j]);
    CallFields(threads, target, locales[j]);
  }

  /** Every language other than the target that some thread is written in gets a call. */
  lemma {:induction false} BatchCoversPending(engine: ObjectEngine, threads: seq<ThreadText>, target: string,
                                              t: ThreadText)
    requires t in threads && t.originalLanguage != target
    ensures t.originalLanguage in Sources(BatchTranslate(engine, threads, target).calls)
  {
    var calls := BatchTranslate(engine, threads, target).calls;
    assert t in Pending(threads, target);
    assert calls == BatchCalls(threads, target);
    assert Sources(calls) == SourceLocales(threads, target);
    PendingLocaleIsSource(threads, t, target);
  }

  /** The engine answers only keys it was sent. */
  ghost predicate KeepsKeys(engine: ObjectEngine) {
    forall f: Fields, s: string, t: string :: engine(f, s, t).Some? ==> engine(f, s, t).value.Keys <= f.Keys
  }

  /** Among threads with distinct ids, the id picks out the thread. */
  lemma SameIdSameThread(threads: seq<ThreadText>, t: ThreadText, i: int)
    requires DistinctIds(threads)
    requires t in threads && 0 <= i < |threads| && t.id == threads[i].id
    ensures t == threads[i]
  {
    var k :| 0 <= k < |threads| && threads[k] == t;
    assert !(k < i) && !(i < k);
  }

  /** Under `KeepsKeys`, an id named in an answer is the id of a thread the batch sent. */
  lemma {:induction false} AnsweredIdWasSent(engine: ObjectEngine, threads: seq<ThreadText>, target: string, j: int, id: string)
    requires KeepsKeys(engine)
    requires 0 <= j < |BatchTranslate(engine, threads, target).calls|
    requires var q := BatchTranslate(engine, threads, target).calls[j];
             Ask(engine, q).Some? && id in Ask(engine, q).value
    ensures exists t | t in threads :: t.id == id && t.originalLanguage != target
  {
    var calls := BatchTranslate(engine, threads, target).calls;
    assert |Pending(threads, target)| != 0;
    assert calls == BatchCalls(threads, target);
    var locales := SourceLocales(threads, target);
    var q := calls[j];
    assert q.source == locales[j];
    assert engine(q.fields, q.source, q.target).value.Keys <= q.fields.Keys;
    SourceLocaleIsPending(threads, target, q.source);
    CallFields(threads, target, q.source);
    assert id in set t | t in threads && t.originalLanguage == q.source :: t.id;
  }

  /**
   * Under `KeepsKeys` and distinct ids, a call for another source locale never answers the id of
   * thread `i`: that id was sent only in the call for the thread's own locale.
   */
  lemma {:induction false} OtherCallOmitsId(engine: ObjectEngine, threads: seq<ThreadText>, target: string, i: int, j: int)
    requires KeepsKeys(engine) && DistinctIds(threads)
    requires 0 <= i < |threads| && 0 <= j < |BatchCalls(threads, target)|
    requires BatchCalls(threads, target)[j].source != threads[i].originalLanguage
    requires Ask(engine, BatchCalls(threads, target)[j]).Some?
    ensures threads[i].id !in Ask(engine, BatchCalls(threads, target)[j]).value
  {
    var q := BatchCalls(threads, target)[j];
    var locales := SourceLocales(threads, target);
    assert q.source == locales[j];
    SourceLocaleIsPending(threads, target, q.source);
    CallFields(threads, target, q.source);
    assert engine(q.fields, q.source, q.target).value.Keys <= q.fields.Keys;
  }

  /** Two calls of one batch never share a source locale. */
  lemma BatchCallsDistinctSources(threads: seq<ThreadText>, target: string, j: int, k: int)
    requires 0 <= j < |BatchCalls(threads, target)| && 0 <= k < |BatchCalls(threads, target)| && j != k
    ensures BatchCalls(threads, target)[j].source != BatchCalls(threads, target)[k].source
  {
    BatchCallSources(threads, target);
    var srcs := Sources(BatchCalls(threads, target));
    assert NoDup(srcs);
    if j < k { assert srcs[j] != srcs[k]; } else { assert srcs[k] != srcs[j]; }
  }

  /**
   * The converse of `ChangedTitleWasAnswered`: when no call failed, a thread written in another
   * language than the target takes the title that its locale's call answered for its id; a
   * missing or empty answer leaves the original title.
   */
  lemma {:induction false} AnsweredTitleIsApplied(engine: ObjectEngine, threads: seq<ThreadText>, target: string, i: int, j: int)
    requires KeepsKeys(engine) && DistinctIds(threads)
    requires 0 <= i < |threads| && threads[i].originalLanguage != target
    requires !AnyFailed(engine, BatchCalls(threads, target))
    requires 0 <= j < |BatchCalls(threads, target)| && BatchCalls(threads, target)[j].source == threads[i].originalLanguage
    ensures BatchTranslate(engine, threads, target).calls == BatchCalls(threads, target)
    ensures var answer := Ask(engine, BatchCalls(threads, target)[j]).value;
            threads[i].id in answer && answer[threads[i].id] != "" ==>
              BatchTranslate(engine, threads, target).value[i].title == answer[threads[i].id]
    ensures var answer := Ask(engine, BatchCalls(threads, target)[j]).value;
            !(threads[i].id in answer && answer[threads[i].id] != "") ==>
              BatchTranslate(engine, threads, target).value[i].title == threads[i].title
  {
    var calls := BatchCalls(threads, target);
    assert threads[i] in Pending(threads, target);
    var answers := Answers(engine, calls);
    var translations := Merge(answers);
    var r := BatchTranslate(engine, threads, target);
    assert r == Traced(Retitle(threads, translations), calls);
    var id := threads[i].id;
    assert Ask(engine, calls[j]) == Some(answers[j]);
    forall k | 0 <= k < |answers| && k != j ensures id !in answers[k] {
      BatchCallsDistinctSources(threads, target, j, k);
      OtherCallOmitsId(engine, threads, target, i, k);
    }
    if id in translations {
      var k :| 0 <= k < |answers| && id in answers[k] && translations[id] == answers[k][id];
      assert k == j;
    }
  }

  /**
   * With distinct ids and an engine that answers only the keys it was sent, a thread already in
   * the target locale keeps its original title: it is in no group, so no answer names its id.
   */
  lemma {:induction false} TargetLocaleKeepsTitle(engine: ObjectEngine, threads: seq<ThreadText>, target: string, i: int)
    requires KeepsKeys(engine)
    requires DistinctIds(threads)
    requires 0 <= i < |threads| && threads[i].originalLanguage == target
    ensures BatchTranslate(engine, threads, target).value[i].title == threads[i].title
  {
    var r := BatchTranslate(engine, threads, target);
    if r.value[i].title != threads[i].title {
      ChangedTitleWasAnswered(engine, threads, target, i);
      var id := threads[i].id;
      var j :| 0 <= j < |r.calls| && Ask(engine, r.calls[j]).Some? && id in Ask(engine, r.calls[j]).value;
      AnsweredIdWasSent(engine, threads, target, j, id);
      var t :| t in threads && t.id == id && t.originalLanguage != target;
      SameIdSameThread(threads, t, i);
      assert false;
    }
  }
}
