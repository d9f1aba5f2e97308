/**
 * The episodic memory store: memories kept in a dictionary by id, found again
 * by keyword, type and importance, newest first.
 */
module EpisodicMemory {
  import opened Wrappers
  import opened OrderedMaps
  import opened Strings
  import opened Json

  datatype MemoryType = Experience | Fact | Procedure | Reflection

  /** A memory; the timestamp is a point in time as a count of microseconds. */
  datatype Memory = Memory(
    memoryId: string,
    kind: MemoryType,
    content: string,
    context: Object,
    embedding: Option<seq<real>>,
    importance: real,
    timestamp: int)

  /** A query, with the model's defaults: no type filter, a limit of 5, no minimum importance. */
  datatype MemoryQuery = MemoryQuery(queryText: string, kind: Option<MemoryType>, limit: int, minImportance: real)

  function DefaultQuery(text: string): MemoryQuery {
    MemoryQuery(text, None, 5, 0.0)
  }

  datatype MemorySearchResult = MemorySearchResult(memories: seq<Memory>, totalFound: nat)

  /** `Memory(...)` as `store` builds it: default importance 0.5, no embedding, `context or {}`. */
  function NewMemory(id: string, kind: MemoryType, content: string, context: Option<Object>, now: int): Memory {
    Memory(id, kind, content, if context.Some? then context.value else [], None, 0.5, now)
  }

  // ---------------------------------------------------------------------------
  // Specification of `retrieve`

  /** `any(term in content_lower for term in query_terms)`. */
  predicate MentionsAny(terms: seq<string>, text: string) {
    exists i :: 0 <= i < |terms| && Contains(text, terms[i])
  }

  /** The three filters of the loop in `retrieve`, in their order. */
  predicate Matches(q: MemoryQuery, terms: seq<string>, m: Memory) {
    && (q.kind.None? || m.kind == q.kind.value)
    && m.importance >= q.minImportance
    && MentionsAny(terms, Lower(m.content))
  }

  function QueryTerms(q: MemoryQuery): seq<string> {
    Words(Lower(q.queryText))
  }

  /** The memories the loop appends, in the dictionary's order. */
  function Filtered(q: MemoryQuery, terms: seq<string>, ms: seq<Memory>): seq<Memory> {
    if ms == [] then []
    else Filtered(q, terms, ms[..|ms| - 1]) + (if Matches(q, terms, ms[|ms| - 1]) then [ms[|ms| - 1]] else [])
  }

  /** Newest first: timestamps never increase along the sequence. */
  predicate NewestFirst(s: seq<Memory>) {
    forall i, j :: 0 <= i < j < |s| ==> s[i].timestamp >= s[j].timestamp
  }

  /** Places `x` after every memory at least as new, as a stable sort does with a later element. */
  function InsertNewest(x: Memory, s: seq<Memory>): seq<Memory> {
    if s == [] then [x]
    else if s[0].timestamp >= x.timestamp then [s[0]] + InsertNewest(x, s[1..])
    else [x] + s
  }

  /** `results.sort(key=lambda x: x.timestamp, reverse=True)`: a stable sort, newest first. */
  function SortNewest(s: seq<Memory>): seq<Memory> {
    if s == [] then [] else InsertNewest(s[|s| - 1], SortNewest(s[..|s| - 1]))
  }

  /** `retrieve` as a value of the stored memories. */
  function Retrieval(q: MemoryQuery, stored: seq<Memory>): MemorySearchResult {
    var results := SortNewest(Filtered(q, QueryTerms(q), stored));
    MemorySearchResult(PyPrefix(results, q.limit), |results|)
  }

  /** The memories of `s` with timestamp `t`, in their order. */
  function AtTime(s: seq<Memory>, t: int): seq<Memory> {
    if s == [] then [] else AtTime(s[..|s| - 1], t) + (if s[|s| - 1].timestamp == t then [s[|s| - 1]] else [])
  }

  // ---------------------------------------------------------------------------
  // Properties of the search

  /** Exactly the matching memories are kept, in the order they were stored. */
  lemma {:induction false} FilteredFacts(q: MemoryQuery, terms: seq<string>, ms: seq<Memory>)
    ensures forall m :: m in Filtered(q, terms, ms) <==> m in ms && Matches(q, terms, m)
    ensures |Filtered(q, terms, ms)| <= |ms|
    decreases |ms|
  {
    if ms != [] {
      var init := ms[..|ms| - 1];
      FilteredFacts(q, terms, init);
      assert ms == init + [ms[|ms| - 1]];
    }
  }

  /** A query without a word matches nothing. */
  lemma {:induction false} NoTermsNoMatches(q: MemoryQuery, ms: seq<Memory>)
    requires AllSpace(Lower(q.queryText))
    ensures Filtered(q, QueryTerms(q), ms) == []
    decreases |ms|
  {
    if ms != [] {
      NoTermsNoMatches(q, ms[..|ms| - 1]);
    }
  }

  /** Inserting adds exactly one copy of `x`. */
  lemma {:induction false} InsertCounts(x: Memory, s: seq<Memory>)
    ensures multiset(InsertNewest(x, s)) == multiset(s) + multiset{x}
    decreases |s|
  {
    if s != [] && s[0].timestamp >= x.timestamp {
      InsertCounts(x, s[1..]);
      assert s == [s[0]] + s[1..];
    }
  }

  /** Inserting into a newest-first sequence keeps it newest first. */
  lemma {:induction false} InsertOrdered(x: Memory, s: seq<Memory>)
    requires NewestFirst(s)
    ensures NewestFirst(InsertNewest(x, s))
    decreases |s|
  {
    if s != [] && s[0].timestamp >= x.timestamp {
      NewestTail(s);
      InsertOrdered(x, s[1..]);
      InsertCounts(x, s[1..]);
      InsertHead(s[0], InsertNewest(x, s[1..]), s[1..], x);
    } else {
      AtTimeOlder(s, x.timestamp);
      NewerHead(x, s);
    }
  }

  /** Inserting into a newest-first sequence puts `x` after the memories with its timestamp. */
  lemma {:induction false} InsertStable(x: Memory, s: seq<Memory>, t: int)
    requires NewestFirst(s)
    ensures AtTime(InsertNewest(x, s), t) == AtTime(s, t) + (if x.timestamp == t then [x] else [])
    decreases |s|
  {
    if s != [] && s[0].timestamp >= x.timestamp {
      var head := if s[0].timestamp == t then [s[0]] else [];
      var added := if x.timestamp == t then [x] else [];
      NewestTail(s);
      InsertStable(x, s[1..], t);
      assert AtTime(InsertNewest(x, s), t) == head + AtTime(InsertNewest(x, s[1..]), t) by {
        AtTimeCons(s[0], InsertNewest(x, s[1..]), t);
      }
      assert AtTime(s, t) == head + AtTime(s[1..], t) by {
        assert s == [s[0]] + s[1..];
        AtTimeCons(s[0], s[1..], t);
      }
      AppendAssociates(head, AtTime(s[1..], t), added);
    } else {
      AtTimeCons(x, s, t);
      if x.timestamp == t {
        AtTimeOlder(s, x.timestamp);
        AtTimeNone(s, t);
      }
    }
  }

  /** The tail of a newest-first sequence is newest first, and its head is at least as new as all of it. */
  lemma NewestTail(s: seq<Memory>)
    requires s != [] && NewestFirst(s)
    ensures NewestFirst(s[1..])
    ensures forall k :: 0 <= k < |s[1..]| ==> s[0].timestamp >= s[1..][k].timestamp
  {
    var t := s[1..];
    forall i, j | 0 <= i < j < |t| ensures t[i].timestamp >= t[j].timestamp {
      assert t[i] == s[i + 1] && t[j] == s[j + 1];
    }
    forall k | 0 <= k < |t| ensures s[0].timestamp >= t[k].timestamp {
      assert t[k] == s[k + 1];
    }
  }

  /** A head newer than everything after it keeps the order newest first. */
  lemma NewerHead(h: Memory, s: seq<Memory>)
    requires NewestFirst(s) && forall k :: 0 <= k < |s| ==> s[k].timestamp <= h.timestamp
    ensures NewestFirst([h] + s)
  {
    var hs := [h] + s;
    forall i, j | 0 <= i < j < |hs| ensures hs[i].timestamp >= hs[j].timestamp {
      if i == 0 {
        assert hs[j] == s[j - 1];
      } else {
        assert hs[i] == s[i - 1] && hs[j] == s[j - 1];
      }
    }
  }

  /** Inserting below a head that is at least as new as the inserted memory and the rest. */
  lemma InsertHead(h: Memory, r: seq<Memory>, s: seq<Memory>, x: Memory)
    requires NewestFirst(r) && h.timestamp >= x.timestamp
    requires forall k :: 0 <= k < |s| ==> h.timestamp >= s[k].timestamp
    requires multiset(r) == multiset(s) + multiset{x}
    ensures NewestFirst([h] + r)
  {
    forall k | 0 <= k < |r| ensures r[k].timestamp <= h.timestamp {
      assert r[k] in multiset(r);
      if r[k] != x {
        assert r[k] in multiset(s);
        var i :| 0 <= i < |s| && s[i] == r[k];
      }
    }
    NewerHead(h, r);
  }

  lemma {:induction false} AtTimeCons(h: Memory, s: seq<Memory>, t: int)
    ensures AtTime([h] + s, t) == (if h.timestamp == t then [h] else []) + AtTime(s, t)
    decreases |s|
  {
    if s != [] {
      var init := s[..|s| - 1];
      AtTimeCons(h, init, t);
      assert ([h] + s)[..|s|] == [h] + init;
    } else {
      assert AtTime([h], t) == AtTime([], t) + (if h.timestamp == t then [h] else []);
    }
  }

  /** Nothing in a newest-first sequence that is empty or starts older than `t` has timestamp `t` or newer. */
  lemma AtTimeOlder(s: seq<Memory>, t: int)
    requires NewestFirst(s) && (s == [] || s[0].timestamp < t)
    ensures forall k :: 0 <= k < |s| ==> s[k].timestamp < t
  {
    forall k | 0 < k < |s| ensures s[k].timestamp < t {
      assert s[0].timestamp >= s[k].timestamp;
    }
  }

  lemma {:induction false} AtTimeNone(s: seq<Memory>, t: int)
    requires forall k :: 0 <= k < |s| ==> s[k].timestamp != t
    ensures AtTime(s, t) == []
    decreases |s|
  {
    if s != [] {
      AtTimeNone(s[..|s| - 1], t);
    }
  }

  /**
   * The sort returns the same memories, newest first, and memories with equal
   * timestamps stay in the order they had.
   */
  lemma SortNewestFacts(s: seq<Memory>)
    ensures multiset(SortNewest(s)) == multiset(s)
    ensures NewestFirst(SortNewest(s))
    ensures forall t :: AtTime(SortNewest(s), t) == AtTime(s, t)
  {
    SortCounts(s);
    SortOrdered(s);
    forall t ensures AtTime(SortNewest(s), t) == AtTime(s, t) {
      SortStable(s, t);
    }
  }

  lemma {:induction false} SortCounts(s: seq<Memory>)
    ensures multiset(SortNewest(s)) == multiset(s)
    decreases |s|
  {
    if s != [] {
      var init, x := s[..|s| - 1], s[|s| - 1];
      SortCounts(init);
      InsertCounts(x, SortNewest(init));
      assert s == init + [x];
    }
  }

  lemma {:induction false} SortOrdered(s: seq<Memory>)
    ensures NewestFirst(SortNewest(s))
    decreases |s|
  {
    if s != [] {
      var init := s[..|s| - 1];
      SortOrdered(init);
      InsertOrdered(s[|s| - 1], SortNewest(init));
    }
  }

  lemma {:induction false} SortStable(s: seq<Memory>, t: int)
    ensures AtTime(SortNewest(s), t) == AtTime(s, t)
    decreases |s|
  {
    if s != [] {
      var init := s[..|s| - 1];
      SortStable(init, t);
      SortOrdered(init);
      InsertStable(s[|s| - 1], SortNewest(init), t);
    }
  }

  /**
   * The search returns only stored memories that pass the filters, newest
   * first, at most `limit` of them for a non-negative limit, and counts every
   * match; when the limit covers them all, every match is returned.
   */
  lemma RetrievalFacts(q: MemoryQuery, stored: seq<Memory>)
    ensures var r := Retrieval(q, stored);
      && (forall m :: m in r.memories ==> m in stored && Matches(q, QueryTerms(q), m))
      && NewestFirst(r.memories)
      && r.totalFound == |Filtered(q, QueryTerms(q), stored)|
      && (q.limit >= 0 ==> |r.memories| <= q.limit)
      && (q.limit >= r.totalFound ==> multiset(r.memories) == multiset(Filtered(q, QueryTerms(q), stored)))
  {
    var f := Filtered(q, QueryTerms(q), stored);
    var sorted := SortNewest(f);
    FilteredFacts(q, QueryTerms(q), stored);
    SortNewestFacts(f);
    var r := Retrieval(q, stored);
    assert |sorted| == |f| by {
      assert |multiset(sorted)| == |multiset(f)|;
    }
    forall m | m in r.memories ensures m in stored && Matches(q, QueryTerms(q), m) {
      assert m in multiset(sorted);
      assert m in multiset(f);
    }
    assert NewestFirst(r.memories) by {
      var p := r.memories;
      forall i, j | 0 <= i < j < |p| ensures p[i].timestamp >= p[j].timestamp {
        assert p[i] == sorted[i] && p[j] == sorted[j];
      }
    }
    if q.limit >= r.totalFound {
      assert r.memories == sorted;
    }
  }

  /**
   * With a non-negative limit the search returns the `limit` newest matches
   * (all of them when there are fewer): no match left out is newer than one
   * returned.
   */
  lemma RetrievalKeepsNewest(q: MemoryQuery, stored: seq<Memory>)
    ensures var r := Retrieval(q, stored);
      && (q.limit >= 0 ==> |r.memories| == (if q.limit < r.totalFound then q.limit else r.totalFound)
                           && r.memories == SortNewest(Filtered(q, QueryTerms(q), stored))[..|r.memories|])
      && (forall m, x :: m in Filtered(q, QueryTerms(q), stored) && m !in r.memories && x in r.memories
                         ==> x.timestamp >= m.timestamp)
  {
    var f := Filtered(q, QueryTerms(q), stored);
    var sorted := SortNewest(f);
    SortNewestFacts(f);
    assert |sorted| == |f| by {
      assert |multiset(sorted)| == |multiset(f)|;
    }
    var r := Retrieval(q, stored);
    assert r.memories == sorted[..|r.memories|];
    forall m, x | m in f && m !in r.memories && x in r.memories ensures x.timestamp >= m.timestamp {
      PrefixNewest(sorted, f, |r.memories|, m, x);
    }
  }

  lemma PrefixNewest(sorted: seq<Memory>, f: seq<Memory>, n: nat, m: Memory, x: Memory)
    requires NewestFirst(sorted) && multiset(sorted) == multiset(f) && n <= |sorted|
    requires m in f && m !in sorted[..n] && x in sorted[..n]
    ensures x.timestamp >= m.timestamp
  {
    assert m in multiset(sorted);
    var j :| 0 <= j < |sorted| && sorted[j] == m;
    var i :| 0 <= i < n && sorted[..n][i] == x;
  }

  /** A negative limit drops that many of the oldest matches, as Python slicing does. */
  lemma NegativeLimit(q: MemoryQuery, stored: seq<Memory>)
    requires q.limit < 0
    ensures var r := Retrieval(q, stored);
      |r.memories| == if r.totalFound + q.limit < 0 then 0 else r.totalFound + q.limit
  {
  }

  // ---------------------------------------------------------------------------
  // The store

  class MemoryStore {
    var storage: Dict<string, Memory>

    /** Every id is stored once, under the memory's own id. */
    ghost predicate Valid()
      reads this
    {
      && DistinctKeys(storage)
      && forall i :: 0 <= i < |storage| ==> storage[i].1.memoryId == storage[i].0
    }

    constructor ()
      ensures Valid() && storage == []
    {
      storage := [];
    }

    /** `store`: the id `uuid4` draws and the time `datetime.now` reads are parameters. */
    method Store(content: string, kind: MemoryType, context: Option<Object>, id: string, now: int) returns (memory: Memory)
      requires Valid()
      modifies this
      ensures Valid()
      ensures memory == NewMemory(id, kind, content, context, now)
      ensures storage == Put(old(storage), id, memory)
    {
      memory := NewMemory(id, kind, content, context, now);
      StorePreserves(storage, id, memory);
      storage := Put(storage, id, memory);
    }

    /** `retrieve`: filter in the dictionary's order, sort newest first, cut at the limit. */
    method Retrieve(q: MemoryQuery) returns (result: MemorySearchResult)
      ensures result == Retrieval(q, Values(storage))
    {
      var terms := Words(Lower(q.queryText));
      var results := CollectMatches(q, terms, Values(storage));
      results := SortNewest(results);
      result := MemorySearchResult(PyPrefix(results, q.limit), |results|);
    }

    /** `get_memory`: `self._storage.get(memory_id)`. */
    function GetMemory(id: string): (r: Option<Memory>)
      reads this
      requires Valid()
      ensures r.Some? <==> HasKey(storage, id)
      ensures r.Some? ==> r.value.memoryId == id && r.value in Values(storage)
    {
      var r := Get(storage, id);
      if r.Some? then
        var i :| 0 <= i < |storage| && storage[i] == (id, r.value);
        assert Values(storage)[i] == r.value;
        r
      else r
    }

    /** `delete`: True and the entry removed when the id is present, False and nothing changed otherwise. */
    method Delete(id: string) returns (deleted: bool)
      requires Valid()
      modifies this
      ensures Valid()
      ensures deleted <==> HasKey(old(storage), id)
      ensures storage == Remove(old(storage), id)
    {
      deleted := HasKey(storage, id);
      if deleted {
        DeletePreserves(storage, id);
        storage := Remove(storage, id);
      }
    }
  }

  /** The loop of `retrieve`: each memory passing the filters is appended. */
  method CollectMatches(q: MemoryQuery, terms: seq<string>, ms: seq<Memory>) returns (results: seq<Memory>)
    ensures results == Filtered(q, terms, ms)
  {
    results := [];
    var i := 0;
    while i < |ms|
      invariant 0 <= i <= |ms|
      invariant results == Filtered(q, terms, ms[..i])
    {
      assert ms[..i + 1][..i] == ms[..i];
      var m := ms[i];
      if (q.kind.None? || m.kind == q.kind.value) && m.importance >= q.minImportance && MentionsAny(terms, Lower(m.content)) {
        results := results + [m];
      }
      i := i + 1;
    }
    assert ms[..i] == ms;
  }

  /** Storing under a memory's own id keeps every id stored once, under its own memory. */
  lemma StorePreserves(d: Dict<string, Memory>, id: string, m: Memory)
    requires DistinctKeys(d) && forall i :: 0 <= i < |d| ==> d[i].1.memoryId == d[i].0
    requires m.memoryId == id
    ensures var r := Put(d, id, m);
      DistinctKeys(r) && forall i :: 0 <= i < |r| ==> r[i].1.memoryId == r[i].0
  {
    PutGet(d, id, m, id);
    PutMembers(d, id, m);
    var r := Put(d, id, m);
    forall i | 0 <= i < |r| ensures r[i].1.memoryId == r[i].0 {
      assert r[i] in r;
      if r[i] != (id, m) {
        var j :| 0 <= j < |d| && d[j] == r[i];
      }
    }
  }

  lemma DeletePreserves(d: Dict<string, Memory>, id: string)
    requires DistinctKeys(d) && forall i :: 0 <= i < |d| ==> d[i].1.memoryId == d[i].0
    ensures var r := Remove(d, id);
      DistinctKeys(r) && forall i :: 0 <= i < |r| ==> r[i].1.memoryId == r[i].0
  {
    RemoveDistinct(d, id);
    var r := Remove(d, id);
    forall i | 0 <= i < |r| ensures r[i].1.memoryId == r[i].0 {
      assert r[i] in r;
      var j :| 0 <= j < |d| && d[j] == r[i];
    }
  }

  /** A stored memory is found again by its id, and every other id is unaffected. */
  lemma StoreThenGet(d: Dict<string, Memory>, id: string, m: Memory, other: string)
    requires DistinctKeys(d)
    ensures Get(Put(d, id, m), id) == Some(m)
    ensures other != id ==> Get(Put(d, id, m), other) == Get(d, other)
  {
    PutGet(d, id, m, id);
    PutGet(d, id, m, other);
  }

  /** A deleted id is gone, every other id is unaffected, and a second delete finds nothing. */
  lemma DeleteThenGet(d: Dict<string, Memory>, id: string, other: string)
    requires DistinctKeys(d)
    ensures Get(Remove(d, id), id) == None && !HasKey(Remove(d, id), id)
    ensures other != id ==> Get(Remove(d, id), other) == Get(d, other)
  {
    RemoveGet(d, id, id);
    RemoveGet(d, id, other);
  }
}
