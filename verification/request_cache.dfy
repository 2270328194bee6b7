/**
 * The request bookkeeping shared by the two translation hooks: a cache keyed by a string, a
 * `requested` set (a ref, so it survives renders), and the requests still in flight, each with
 * the `isMounted` flag of the effect run that started it. React's scheduling is reduced to
 * sequential steps.
 */
module RequestCache {
  import opened Wrappers
  import opened Seqs

  /** A request started by one effect run; `mounted` is that run's `isMounted` variable. */
  datatype Pending = Pending(key: string, mounted: bool)

  /**
   * `sent` lists the key of every call made, in order; it is bookkeeping for the properties,
   * not program state.
   */
  datatype State<V> = State(cache: map<string, V>, requested: set<string>, inflight: seq<Pending>, sent: seq<string>)

  function Init<V>(): State<V> {
    State(map[], {}, [], [])
  }

  function KeysOf(rs: seq<Pending>): (r: seq<string>)
    ensures |r| == |rs| && forall i | 0 <= i < |rs| :: r[i] == rs[i].key
  {
    seq(|rs|, i requires 0 <= i < |rs| => rs[i].key)
  }

  /** The keys of in-flight requests whose effect run has not been cleaned up. */
  function MountedKeys(rs: seq<Pending>): set<string> {
    set q | q in rs && q.mounted :: q.key
  }

  function RemoveAt<T>(s: seq<T>, i: int): (r: seq<T>)
    requires 0 <= i < |s|
    ensures |r| == |s| - 1
    ensures forall j | 0 <= j < |r| :: r[j] == if j < i then s[j] else s[j + 1]
  {
    s[..i] + s[i + 1..]
  }

  /**
   * The bookkeeping invariant: at most one request in flight per key; every in-flight key is
   * marked requested and not yet cached; every cached key is marked requested.
   */
  predicate Inv<V>(s: State<V>) {
    && NoDup(KeysOf(s.inflight))
    && (forall i | 0 <= i < |s.inflight| :: s.inflight[i].key in s.requested && s.inflight[i].key !in s.cache)
    && s.cache.Keys <= s.requested
  }

  lemma InitInv<V>()
    ensures Inv(Init<V>())
  {}

  /** The effect's cleanup: `isMounted = false` for every request still in flight. */
  function Orphan<V>(s: State<V>): (r: State<V>)
    ensures r.cache == s.cache && r.requested == s.requested && r.sent == s.sent
    ensures KeysOf(r.inflight) == KeysOf(s.inflight)
    ensures forall i | 0 <= i < |r.inflight| :: !r.inflight[i].mounted
  {
    s.(inflight := seq(|s.inflight|, i requires 0 <= i < |s.inflight| => Pending(s.inflight[i].key, false)))
  }

  /**
   * The effect body: when translation is wanted and `key` is neither requested nor cached,
   * mark it requested and make exactly one call; otherwise do nothing.
   */
  function Begin<V>(s: State<V>, wanted: bool, key: string): (r: State<V>)
    ensures wanted && key !in s.requested && key !in s.cache ==>
              && r.sent == s.sent + [key]
              && r.requested == s.requested + {key}
              && r.inflight == s.inflight + [Pending(key, true)]
              && r.cache == s.cache
    ensures !(wanted && key !in s.requested && key !in s.cache) ==> r == s
  {
    if wanted && key !in s.requested && key !in s.cache then
      State(s.cache, s.requested + {key}, s.inflight + [Pending(key, true)], s.sent + [key])
    else s
  }

  /**
   * Request `i` settled with a response; `value` is what the hook would store (`None` when its
   * guard on the response fails). The cache is written only if the request's run is still
   * mounted. An index naming no request changes nothing.
   */
  function Settle<V>(s: State<V>, i: int, value: Option<V>): (r: State<V>)
    ensures r.requested == s.requested && r.sent == s.sent
    ensures 0 <= i < |s.inflight| && s.inflight[i].mounted && value.Some? ==>
              r.cache == s.cache[s.inflight[i].key := value.value]
    ensures !(0 <= i < |s.inflight| && s.inflight[i].mounted && value.Some?) ==> r.cache == s.cache
    ensures 0 <= i < |s.inflight| ==> r.inflight == RemoveAt(s.inflight, i)
    ensures !(0 <= i < |s.inflight|) ==> r == s
  {
    if 0 <= i < |s.inflight| then
      var q := s.inflight[i];
      var rest := RemoveAt(s.inflight, i);
      if q.mounted && value.Some? then s.(cache := s.cache[q.key := value.value], inflight := rest)
      else s.(inflight := rest)
    else s
  }

  /** Request `i` rejected: the key is unmarked, so it can be retried, only if still mounted. */
  function Reject<V>(s: State<V>, i: int): (r: State<V>)
    ensures r.cache == s.cache && r.sent == s.sent
    ensures 0 <= i < |s.inflight| && s.inflight[i].mounted ==> r.requested == s.requested - {s.inflight[i].key}
    ensures !(0 <= i < |s.inflight| && s.inflight[i].mounted) ==> r.requested == s.requested
    ensures 0 <= i < |s.inflight| ==> r.inflight == RemoveAt(s.inflight, i)
    ensures !(0 <= i < |s.inflight|) ==> r == s
  {
    if 0 <= i < |s.inflight| then
      var q := s.inflight[i];
      var rest := RemoveAt(s.inflight, i);
      if q.mounted then s.(requested := s.requested - {q.key}, inflight := rest)
      else s.(inflight := rest)
    else s
  }

  /** Removing one request from a duplicate-free key list removes exactly its key. */
  lemma {:induction false} RemoveAtKeys(rs: seq<Pending>, i: int)
    requires 0 <= i < |rs| && NoDup(KeysOf(rs))
    ensures NoDup(KeysOf(RemoveAt(rs, i)))
    ensures forall j | 0 <= j < |RemoveAt(rs, i)| :: RemoveAt(rs, i)[j].key != rs[i].key
    ensures forall q | q in RemoveAt(rs, i) :: q in rs
  {
    var r := RemoveAt(rs, i);
    forall j | 0 <= j < |r| ensures r[j].key != rs[i].key {
      var k := if j < i then j else j + 1;
      assert KeysOf(rs)[k] != KeysOf(rs)[i];
    }
    forall a, b | 0 <= a < b < |r| ensures KeysOf(r)[a] != KeysOf(r)[b] {
      var a' := if a < i then a else a + 1;
      var b' := if b < i then b else b + 1;
      assert KeysOf(rs)[a'] != KeysOf(rs)[b'];
    }
    forall q | q in r ensures q in rs {
      var j :| 0 <= j < |r| && r[j] == q;
      var k := if j < i then j else j + 1;
      assert rs[k] == q;
    }
  }

  /** Appending a request for a key not yet in flight keeps the keys distinct. */
  lemma AppendKey(rs: seq<Pending>, q: Pending)
    requires NoDup(KeysOf(rs))
    requires forall i | 0 <= i < |rs| :: rs[i].key != q.key
    ensures NoDup(KeysOf(rs + [q]))
  {
    assert KeysOf(rs + [q]) == KeysOf(rs) + [q.key];
    NoDupAppend(KeysOf(rs), [q.key]);
  }

  lemma {:induction false} OrphanInv<V>(s: State<V>)
    requires Inv(s)
    ensures Inv(Orphan(s))
  {
    var r := Orphan(s);
    forall i | 0 <= i < |r.inflight| ensures r.inflight[i].key in r.requested && r.inflight[i].key !in r.cache {
      assert KeysOf(r.inflight)[i] == KeysOf(s.inflight)[i];
    }
  }

  lemma {:induction false} BeginInv<V>(s: State<V>, wanted: bool, key: string)
    requires Inv(s)
    ensures Inv(Begin(s, wanted, key))
  {
    if wanted && key !in s.requested && key !in s.cache {
      AppendKey(s.inflight, Pending(key, true));
    }
  }

  lemma {:induction false} SettleInv<V>(s: State<V>, i: int, value: Option<V>)
    requires Inv(s)
    ensures Inv(Settle(s, i, value))
  {
    if 0 <= i < |s.inflight| {
      RemoveAtKeys(s.inflight, i);
      var r := Settle(s, i, value);
      forall j | 0 <= j < |r.inflight| ensures r.inflight[j].key in r.requested && r.inflight[j].key !in r.cache {
        assert r.inflight[j] in s.inflight;
        var k :| 0 <= k < |s.inflight| && s.inflight[k] == r.inflight[j];
      }
    }
  }

  lemma {:induction false} RejectInv<V>(s: State<V>, i: int)
    requires Inv(s)
    ensures Inv(Reject(s, i))
  {
    if 0 <= i < |s.inflight| {
      RemoveAtKeys(s.inflight, i);
      var r := Reject(s, i);
      forall j | 0 <= j < |r.inflight| ensures r.inflight[j].key in r.requested && r.inflight[j].key !in r.cache {
        assert r.inflight[j] in s.inflight;
        var k :| 0 <= k < |s.inflight| && s.inflight[k] == r.inflight[j];
      }
    }
  }

  /** No key is left requested but uncached without a live request that will settle it. */
  predicate Live<V>(s: State<V>) {
    forall k | k in s.requested && k !in s.cache :: k in MountedKeys(s.inflight)
  }

  lemma {:induction false} BeginLive<V>(s: State<V>, wanted: bool, key: string)
    requires Live(s)
    ensures Live(Begin(s, wanted, key))
  {
    var r := Begin(s, wanted, key);
    forall k | k in r.requested && k !in r.cache ensures k in MountedKeys(r.inflight) {
      if k in s.requested {
        var q :| q in s.inflight && q.mounted && q.key == k;
        assert q in r.inflight;
      } else {
        assert r.inflight[|r.inflight| - 1] == Pending(key, true);
      }
    }
  }

  /** Under `Inv` and `Live`, every in-flight request is mounted. */
  lemma {:induction false} LiveMeansMounted<V>(s: State<V>, i: int)
    requires Inv(s) && Live(s) && 0 <= i < |s.inflight|
    ensures s.inflight[i].mounted
  {
    var k := s.inflight[i].key;
    var q :| q in s.inflight && q.mounted && q.key == k;
    var j :| 0 <= j < |s.inflight| && s.inflight[j] == q;
    assert KeysOf(s.inflight)[i] == KeysOf(s.inflight)[j];
  }

  /**
   * Settling keeps every key live when the response is stored. A response the hook declines
   * to store (`None`) leaves its key marked with nothing in flight: it is never requested again.
   */
  lemma {:induction false} SettleLive<V>(s: State<V>, i: int, value: Option<V>)
    requires Inv(s) && Live(s) && value.Some?
    ensures Live(Settle(s, i, value))
  {
    if 0 <= i < |s.inflight| {
      LiveMeansMounted(s, i);
      RemoveAtKeys(s.inflight, i);
      KeepOthers(s.inflight, i);
    }
  }

  lemma {:induction false} RejectLive<V>(s: State<V>, i: int)
    requires Inv(s) && Live(s)
    ensures Live(Reject(s, i))
  {
    if 0 <= i < |s.inflight| {
      LiveMeansMounted(s, i);
      RemoveAtKeys(s.inflight, i);
      KeepOthers(s.inflight, i);
    }
  }

  /** Removing request `i` keeps every other key's mounted request. */
  lemma {:induction false} KeepOthers(rs: seq<Pending>, i: int)
    requires 0 <= i < |rs|
    ensures MountedKeys(rs) - {rs[i].key} <= MountedKeys(RemoveAt(rs, i))
  {
    var r := RemoveAt(rs, i);
    forall k | k in MountedKeys(rs) - {rs[i].key} ensures k in MountedKeys(r) {
      var q :| q in rs && q.mounted && q.key == k;
      var j :| 0 <= j < |rs| && rs[j] == q;
      assert j != i;
      assert r[if j < i then j else j - 1] == q;
    }
  }
}
