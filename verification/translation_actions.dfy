/**
 * `actions/translation.action.ts`: server actions wrapping the translation library in a
 * `{success, data, error}` response. `libThrows` stands for the library call itself rejecting;
 * an engine failure never does, because the library answers it with the original text.
 */
module TranslationActions {
  import opened Wrappers
  import opened Lingo

  datatype ContentResponse = ContentResponse(success: bool, error: Option<string>, data: Fields)
  datatype TextResponse = TextResponse(success: bool, error: Option<string>, data: string)

  /**
   * One thread of a batch response. The success path passes the library's `{id, title, content}`
   * through; the failure path builds `{id, translatedTitle, translatedContent}`.
   */
  datatype BatchItem =
    | LibraryShape(id: string, title: string, content: Option<string>)
    | FallbackShape(id: string, translatedTitle: string, translatedContent: Option<string>)

  datatype BatchResponse = BatchResponse(success: bool, error: Option<string>, data: seq<BatchItem>)

  const Failed := "Translation failed"

  /** Reading `item.title`: absent on the fallback shape. */
  function TitleField(item: BatchItem): (r: Option<string>)
    ensures r.Some? <==> item.LibraryShape?
    ensures item.LibraryShape? ==> r.value == item.title
  {
    match item
    case LibraryShape(_, title, _) => Some(title)
    case FallbackShape(_, _, _) => None
  }

  /** `translateContentAction`. */
  function TranslateContentAction(engine: ObjectEngine, content: Fields, source: string, target: string,
                                  libThrows: bool): (r: ContentResponse)
    ensures r.success <==> !libThrows
    ensures r.success ==> r.error.None? && r.data == TranslateContent(engine, content, source, target).value
    ensures !r.success ==> r.error == Some(Failed) && r.data == content
  {
    if libThrows then ContentResponse(false, Some(Failed), content)
    else ContentResponse(true, None, TranslateContent(engine, content, source, target).value)
  }

  /** `translateTextAction`. */
  function TranslateTextAction(engine: TextEngine, text: string, source: string, target: string,
                               libThrows: bool): (r: TextResponse)
    ensures r.success <==> !libThrows
    ensures r.success ==> r.error.None? && r.data == TranslateText(engine, text, source, target).value
    ensures !r.success ==> r.error == Some(Failed) && r.data == text
  {
    if libThrows then TextResponse(false, Some(Failed), text)
    else TextResponse(true, None, TranslateText(engine, text, source, target).value)
  }

  function AsLibraryItems(ts: seq<Titled>): (r: seq<BatchItem>)
    ensures |r| == |ts|
    ensures forall i | 0 <= i < |ts| :: r[i] == LibraryShape(ts[i].id, ts[i].title, ts[i].content)
  {
    seq(|ts|, i requires 0 <= i < |ts| => LibraryShape(ts[i].id, ts[i].title, ts[i].content))
  }

  /** The identity answer in the fallback shape, as both the action and the batch hook build it. */
  function FallbackItems(threads: seq<ThreadText>): (r: seq<BatchItem>)
    ensures |r| == |threads|
    ensures forall i | 0 <= i < |threads| :: r[i] == FallbackShape(threads[i].id, threads[i].title, threads[i].content)
  {
    seq(|threads|, i requires 0 <= i < |threads| => FallbackShape(threads[i].id, threads[i].title, threads[i].content))
  }

  /** `batchTranslateThreadsAction`. */
  function BatchTranslateAction(engine: ObjectEngine, threads: seq<ThreadText>, target: string,
                                libThrows: bool): (r: BatchResponse)
    ensures r.success <==> !libThrows
    ensures |r.data| == |threads|
    ensures forall i | 0 <= i < |threads| :: r.data[i].id == threads[i].id
    ensures r.success ==> r.error.None? && forall i | 0 <= i < |threads| ::
              && r.data[i].LibraryShape?
              && r.data[i].title == BatchTranslate(engine, threads, target).value[i].title
              && r.data[i].content == threads[i].content
    ensures !r.success ==> r.error == Some(Failed) && r.data == FallbackItems(threads)
  {
    if libThrows then BatchResponse(false, Some(Failed), FallbackItems(threads))
    else BatchResponse(true, None, AsLibraryItems(BatchTranslate(engine, threads, target).value))
  }

  /**
   * The two paths disagree on field names: every success item carries `title`, no failure
   * item does.
   */
  lemma TitleFieldDependsOnPath(engine: ObjectEngine, threads: seq<ThreadText>, target: string, libThrows: bool, i: int)
    requires 0 <= i < |threads|
    ensures var r := BatchTranslateAction(engine, threads, target, libThrows);
            TitleField(r.data[i]).Some? <==> r.success
  {}

  /**
   * An engine failure is absorbed by the library, so the content action still reports success,
   * carrying the original content.
   */
  lemma EngineFailureReportsSuccess(engine: ObjectEngine, content: Fields, source: string, target: string)
    requires source != target && engine(content, source, target).None?
    ensures TranslateContentAction(engine, content, source, target, false) == ContentResponse(true, None, content)
  {}

  /** Likewise for single strings. */
  lemma TextEngineFailureReportsSuccess(engine: TextEngine, text: string, source: string, target: string)
    requires source != target && engine(text, source, target).None?
    ensures TranslateTextAction(engine, text, source, target, false) == TextResponse(true, None, text)
  {}

  /** A failing group makes the batch action succeed with every original title. */
  lemma BatchEngineFailureReportsOriginals(engine: ObjectEngine, threads: seq<ThreadText>, target: string)
    requires AnyFailed(engine, BatchTranslate(engine, threads, target).calls)
    ensures var r := BatchTranslateAction(engine, threads, target, false);
            r.success && forall i | 0 <= i < |threads| :: TitleField(r.data[i]) == Some(threads[i].title)
  {}
}
