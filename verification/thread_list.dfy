/**
 * `components/features/threads/thread-list.tsx`: which threads a project page lists and in what
 * order, and what each card is given. The list keeps the threads of the chosen status and
 * sorts a copy of them, largest key first, with ties left in their listed order.
 */
module ThreadList {
  import opened Wrappers
  import opened Seqs
  import opened Domain
  import opened Lingo
  import opened TranslationActions

  datatype StatusFilter = AllStatuses | Only(status: ThreadStatus)

  /** The three orders; `Recent` is also what any other choice falls back to. */
  datatype SortMode = Recent | Priority | Discussed

  /** The status filter, in list order. */
  function FilterByStatus(ts: seq<Thread>, f: StatusFilter): (r: seq<Thread>)
    ensures f.AllStatuses? ==> r == ts
    ensures f.Only? ==> forall t | t in r :: t in ts && t.status == f.status
    ensures f.Only? ==> forall t | t in ts && t.status == f.status :: t in r
  {
    match f
    case AllStatuses => ts
    case Only(s) => Filter(ts, (t: Thread) => t.status == s)
  }

  /** The filter drops threads but never reorders the ones it keeps. */
  lemma {:induction false} FilterKeepsOrder(ts: seq<Thread>, f: StatusFilter)
    ensures IsSubsequence(FilterByStatus(ts, f), ts)
  {
    match f
    case AllStatuses => SubsequenceOfItself(ts);
    case Only(s) => FilterIsSubsequence(ts, (t: Thread) => t.status == s);
  }

  lemma {:induction false} SubsequenceOfItself<T>(s: seq<T>)
    ensures IsSubsequence(s, s)
    decreases |s|
  {
    if |s| > 0 {
      SubsequenceOfItself(s[1..]);
    }
  }

  /**
   * The value the comparator subtracts: the priority weight, the comment count, or the
   * creation time.
   */
  function SortKey(mode: SortMode, t: Thread): int {
    match mode
    case Priority => t.priorityWeight
    case Discussed => t.commentCount
    case Recent => t.createdAt
  }

  function KeyOf(mode: SortMode): Thread -> int {
    (t: Thread) => SortKey(mode, t)
  }

  /** `a` may come before `b`: its key is at least `b`'s. */
  predicate Ranks<T>(key: T -> int, a: T, b: T) {
    key(a) >= key(b)
  }

  /** Keys never increase from one element to the next. */
  predicate Descending<T>(s: seq<T>, key: T -> int) {
    forall i | 0 <= i < |s| - 1 :: Ranks(key, s[i], s[i + 1])
  }

  /** In a descending sequence every earlier element ranks before every later one. */
  lemma {:induction false} DescendingPairs<T>(s: seq<T>, key: T -> int)
    requires Descending(s, key)
    ensures forall i, j | 0 <= i < j < |s| :: key(s[i]) >= key(s[j])
    decreases |s|
  {
    if |s| > 1 {
      DescendingPairs(s[1..], key);
      forall j | 1 <= j < |s| ensures key(s[0]) >= key(s[j]) {
        assert s[1..][0] == s[1] && s[1..][j - 1] == s[j];
      }
    }
  }

  /** Places `x` after every leading element whose key is at least its own. */
  function InsertDescending<T>(x: T, s: seq<T>, key: T -> int): (r: seq<T>)
    ensures multiset(r) == multiset(s) + multiset{x}
    ensures |r| == |s| + 1
    ensures r[0] == (if |s| > 0 && key(s[0]) >= key(x) then s[0] else x)
    decreases |s|
  {
    if |s| == 0 then [x]
    else if key(s[0]) >= key(x) then
      assert s == [s[0]] + s[1..];
      [s[0]] + InsertDescending(x, s[1..], key)
    else
      [x] + s
  }

  /** Insertion keeps a descending sequence descending. */
  lemma {:induction false} InsertKeepsDescending<T>(x: T, s: seq<T>, key: T -> int)
    requires Descending(s, key)
    ensures Descending(InsertDescending(x, s, key), key)
    decreases |s|
  {
    if |s| > 0 && key(s[0]) >= key(x) {
      var rest := InsertDescending(x, s[1..], key);
      assert Descending(s[1..], key) by {
        forall i | 0 <= i < |s[1..]| - 1 ensures Ranks(key, s[1..][i], s[1..][i + 1]) {
          assert s[1..][i] == s[i + 1] && s[1..][i + 1] == s[i + 2];
        }
      }
      InsertKeepsDescending(x, s[1..], key);
      var r := [s[0]] + rest;
      forall i | 0 <= i < |r| - 1 ensures Ranks(key, r[i], r[i + 1]) {
        if i > 0 {
          assert r[i] == rest[i - 1] && r[i + 1] == rest[i];
        }
      }
    }
  }

  /**
   * A stable sort, largest key first: each element is placed after the ones before it that
   * share its key.
   */
  function SortDescending<T>(s: seq<T>, key: T -> int): (r: seq<T>)
    ensures Descending(r, key)
    ensures multiset(r) == multiset(s)
    decreases |s|
  {
    if |s| == 0 then []
    else
      assert s == s[..|s| - 1] + [s[|s| - 1]];
      InsertKeepsDescending(s[|s| - 1], SortDescending(s[..|s| - 1], key), key);
      InsertDescending(s[|s| - 1], SortDescending(s[..|s| - 1], key), key)
  }

  /** What `x` adds to the elements with key `k`: itself when its key is `k`, else nothing. */
  function Tie<T>(x: T, key: T -> int, k: int): seq<T> {
    if key(x) == k then [x] else []
  }

  /** The elements of `s` whose key is exactly `k`, in order. */
  function Ties<T>(s: seq<T>, key: T -> int, k: int): seq<T>
    decreases |s|
  {
    if |s| == 0 then [] else Tie(s[0], key, k) + Ties(s[1..], key, k)
  }

  lemma {:induction false} TiesAppend<T>(a: seq<T>, b: seq<T>, key: T -> int, k: int)
    ensures Ties(a + b, key, k) == Ties(a, key, k) + Ties(b, key, k)
    decreases |a|
  {
    if |a| == 0 {
      assert a + b == b;
    } else {
      assert (a + b)[0] == a[0];
      assert (a + b)[1..] == a[1..] + b;
      TiesAppend(a[1..], b, key, k);
    }
  }

  lemma DescendingTail<T>(s: seq<T>, key: T -> int)
    requires |s| > 0 && Descending(s, key)
    ensures Descending(s[1..], key)
  {
    forall i | 0 <= i < |s[1..]| - 1 ensures Ranks(key, s[1..][i], s[1..][i + 1]) {
      assert s[1..][i] == s[i + 1] && s[1..][i + 1] == s[i + 2];
    }
  }

  /** Nothing in a descending sequence has a key larger than its head's. */
  lemma {:induction false} NoTieAboveHead<T>(s: seq<T>, key: T -> int, k: int)
    requires Descending(s, key) && (|s| == 0 || key(s[0]) < k)
    ensures Ties(s, key, k) == []
    decreases |s|
  {
    if |s| > 0 {
      DescendingTail(s, key);
      if |s| > 1 {
        assert s[1..][0] == s[1];
        assert Ranks(key, s[0], s[1]);
      }
      NoTieAboveHead(s[1..], key, k);
    }
  }

  /** Inserting `x` puts it behind every element that shares its key. */
  lemma TiesCons<T>(h: T, t: seq<T>, key: T -> int, k: int)
    ensures Ties([h] + t, key, k) == Tie(h, key, k) + Ties(t, key, k)
  {
    assert ([h] + t)[0] == h && ([h] + t)[1..] == t;
  }

  lemma AppendAssoc<T>(a: seq<T>, b: seq<T>, c: seq<T>)
    ensures a + (b + c) == (a + b) + c
  {
  }

  lemma InsertUnfold<T>(x: T, s: seq<T>, key: T -> int)
    requires |s| > 0 && key(s[0]) >= key(x)
    ensures InsertDescending(x, s, key) == [s[0]] + InsertDescending(x, s[1..], key)
  {
  }

  /** Inserting below the head: the head's tie comes first, then the rest as inserted. */
  lemma InsertBelowHead<T>(x: T, s: seq<T>, key: T -> int, k: int)
    requires |s| > 0 && key(s[0]) >= key(x)
    requires Ties(InsertDescending(x, s[1..], key), key, k) == Ties(s[1..], key, k) + Tie(x, key, k)
    ensures Ties(InsertDescending(x, s, key), key, k) == Ties(s, key, k) + Tie(x, key, k)
  {
    InsertUnfold(x, s, key);
    TiesCons(s[0], InsertDescending(x, s[1..], key), key, k);
    AppendAssoc(Tie(s[0], key, k), Ties(s[1..], key, k), Tie(x, key, k));
  }

  lemma {:induction false} InsertKeepsTies<T>(x: T, s: seq<T>, key: T -> int, k: int)
    requires Descending(s, key)
    ensures Ties(InsertDescending(x, s, key), key, k) == Ties(s, key, k) + Tie(x, key, k)
    decreases |s|
  {
    if |s| == 0 {
      TiesCons(x, [], key, k);
    } else if key(s[0]) >= key(x) {
      DescendingTail(s, key);
      InsertKeepsTies(x, s[1..], key, k);
      InsertBelowHead(x, s, key, k);
    } else {
      assert InsertDescending(x, s, key) == [x] + s;
      TiesCons(x, s, key, k);
      if key(x) == k {
        NoTieAboveHead(s, key, k);
      }
    }
  }

  /**
   * The sort is stable: for every key, the elements with that key come out in the order they
   * went in.
   */
  lemma {:induction false} SortIsStable<T>(s: seq<T>, key: T -> int, k: int)
    ensures Ties(SortDescending(s, key), key, k) == Ties(s, key, k)
    decreases |s|
  {
    if |s| > 0 {
      var init := s[..|s| - 1];
      var last := s[|s| - 1];
      assert s[..|s| - 1] == init;
      var sorted := SortDescending(init, key);
      assert SortDescending(s, key) == InsertDescending(last, sorted, key);
      calc {
        Ties(InsertDescending(last, sorted, key), key, k);
        { InsertKeepsTies(last, sorted, key, k); }
        Ties(sorted, key, k) + Tie(last, key, k);
        { SortIsStable(init, key, k); }
        Ties(init, key, k) + Tie(last, key, k);
        { assert Ties([last], key, k) == Tie(last, key, k) + Ties([], key, k); }
        Ties(init, key, k) + Ties([last], key, k);
        { TiesAppend(init, [last], key, k); assert init + [last] == s; }
        Ties(s, key, k);
      }
    }
  }

  /** The list as shown: filtered, then sorted. */
  function VisibleThreads(ts: seq<Thread>, f: StatusFilter, mode: SortMode): (r: seq<Thread>)
    ensures Descending(r, KeyOf(mode))
    ensures multiset(r) == multiset(FilterByStatus(ts, f))
  {
    SortDescending(FilterByStatus(ts, f), KeyOf(mode))
  }

  /** Threads that tie on the sort key keep the order the status filter left them in. */
  lemma VisibleTiesKeepOrder(ts: seq<Thread>, f: StatusFilter, mode: SortMode, k: int)
    ensures Ties(VisibleThreads(ts, f, mode), KeyOf(mode), k) == Ties(FilterByStatus(ts, f), KeyOf(mode), k)
  {
    SortIsStable(FilterByStatus(ts, f), KeyOf(mode), k);
  }

  /** What a card is handed besides the thread itself. */
  datatype CardProps = CardProps(translatedTitle: Option<string>, showLanguageBadge: bool)

  /** `translatedThreads.find((t) => t.id === id)`. */
  function FindItem(items: seq<BatchItem>, id: string): (r: Option<BatchItem>)
    ensures r.Some? ==> r.value in items && r.value.id == id
    ensures r.None? ==> forall item | item in items :: item.id != id
    ensures r.Some? ==> exists i | 0 <= i < |items| :: items[i] == r.value && forall j | 0 <= j < i :: items[j].id != id
    ensures forall i | 0 <= i < |items| && items[i].id == id && (forall j | 0 <= j < i :: items[j].id != id) ::
              r == Some(items[i])
  {
    if |items| == 0 then None
    else if items[0].id == id then Some(items[0])
    else
      var r := FindItem(items[1..], id);
      assert forall item | item in items[1..] :: item in items;
      if r.Some? then
        var i :| 0 <= i < |items[1..]| && items[1..][i] == r.value && forall j | 0 <= j < i :: items[1..][j].id != id;
        assert items[i + 1] == r.value;
        r
      else r
  }

  /**
   * The card's props: the `title` field of the matching translated item, and the language
   * badge whenever the thread was written in another language than the reader's.
   */
  function Card(t: Thread, items: seq<BatchItem>, userLanguage: string): (r: CardProps)
    ensures r.showLanguageBadge <==> t.originalLanguage != userLanguage
    ensures r.translatedTitle.Some? ==>
              exists item | item in items :: item.LibraryShape? && item.id == t.id && item.title == r.translatedTitle.value
    ensures forall i | 0 <= i < |items| && items[i].id == t.id && (forall j | 0 <= j < i :: items[j].id != t.id) ::
              r.translatedTitle == TitleField(items[i])
    ensures (forall item | item in items :: item.id != t.id) ==> r.translatedTitle.None?
  {
    var found := FindItem(items, t.id);
    CardProps(if found.Some? then TitleField(found.value) else None, t.originalLanguage != userLanguage)
  }

  /**
   * The identity mapping the batch hook falls back to names its field `translatedTitle`, so a
   * card built from it never receives a title.
   */
  lemma FallbackGivesNoTitle(t: Thread, threads: seq<ThreadText>, userLanguage: string)
    ensures Card(t, FallbackItems(threads), userLanguage).translatedTitle.None?
  {
    var items := FallbackItems(threads);
    var found := FindItem(items, t.id);
    if found.Some? {
      var i :| 0 <= i < |items| && items[i] == found.value;
      assert found.value.FallbackShape?;
    }
  }
}
