// The cache for DNS SRV lookups (srvcache/cache.go).
module SrvCache {
  import opened Options

  datatype Query = Query(service: string, proto: string, name: string)

  datatype Srv = Srv(target: string, port: nat)

  /** A canonical name and addresses, which may be nil. */
  datatype Answer = Answer(cname: string, addrs: Option<seq<Srv>>)

  datatype Result = Ok(answer: Answer) | Failed

  datatype Entry = Entry(answer: Answer, expTime: int)

  type Entries = map<Query, Entry>

  /** One lookup: when the cache was read, what the resolver would answer, and when the result was stored. */
  datatype Lookup = Lookup(query: Query, read: int, resolution: Result, stored: int)

  /** What a lookup answers, and the name the resolver was asked for, if it was. */
  datatype Outcome = Outcome(result: Result, asked: Option<string>)

  // ---------------------------------------------------------------------------------------------------------
  // The cache object

  /** The entry still counts at that time. */
  predicate Fresh(entries: Entries, q: Query, now: int) {
    q in entries && now < entries[q].expTime
  }

  /** The answer of the cache, if it has one with addresses. */
  function Cached(entries: Entries, q: Query, now: int): Option<Answer> {
    if Fresh(entries, q, now) && entries[q].answer.addrs.Some? then Some(entries[q].answer) else None
  }

  function Answered(entries: Entries, l: Lookup): Outcome {
    match Cached(entries, l.query, l.read)
    case Some(answer) => Outcome(Ok(answer), None)
    case None => Outcome(l.resolution, Some(l.query.name))
  }

  /** A stale entry is dropped when it is read; a successful lookup stores its answer, a cached one included. */
  function After(entries: Entries, maxAge: int, l: Lookup): Entries {
    var kept := if Fresh(entries, l.query, l.read) then entries else entries - {l.query};
    match Answered(entries, l).result
    case Ok(answer) => kept[l.query := Entry(answer, l.stored + maxAge)]
    case Failed => kept
  }

  class Cache {
    const maxAge: int
    var entries: Entries

    constructor (maxAge: int)
      ensures this.maxAge == maxAge && entries == map[]
    {
      this.maxAge := maxAge;
      entries := map[];
    }

    method Store(q: Query, answer: Answer, now: int)
      modifies this`entries
      ensures entries == old(entries)[q := Entry(answer, now + maxAge)]
    {
      entries := entries[q := Entry(answer, now + maxAge)];
    }

    method Retrieve(q: Query, now: int) returns (answer: Answer)
      modifies this`entries
      ensures entries == if Fresh(old(entries), q, now) then old(entries) else old(entries) - {q}
      ensures answer == if Fresh(old(entries), q, now) then old(entries)[q].answer else Answer("", None)
    {
      if q !in entries {
        assert entries == entries - {q};
        return Answer("", None);
      }
      var entry := entries[q];
      if now < entry.expTime {
        return entry.answer;
      }
      entries := entries - {q};
      return Answer("", None);
    }

    /** A lookup with the resolver's answer, should it be asked. */
    method LookupSRV(l: Lookup) returns (o: Outcome)
      modifies this`entries
      ensures o == Answered(old(entries), l)
      ensures entries == After(old(entries), maxAge, l)
    {
      var answer := Retrieve(l.query, l.read);
      var asked := None;
      if answer.addrs == None {
        asked := Some(l.query.name);
        if l.resolution.Failed? {
          return Outcome(Failed, asked);
        }
        answer := l.resolution.answer;
      }
      Store(l.query, answer, l.stored);
      return Outcome(Ok(answer), asked);
    }
  }

  // ---------------------------------------------------------------------------------------------------------
  // Runs of lookups

  /** The clock does not go back. */
  ghost predicate InOrder(ls: seq<Lookup>) {
    && (forall i :: 0 <= i < |ls| ==> ls[i].read <= ls[i].stored)
    && forall i, j :: 0 <= i < j < |ls| ==> ls[i].stored <= ls[j].read
  }

  function CacheAfter(ls: seq<Lookup>, maxAge: int, n: nat): Entries
    requires n <= |ls|
  {
    if n == 0 then map[] else After(CacheAfter(ls, maxAge, n - 1), maxAge, ls[n - 1])
  }

  /** The outcome of the i'th lookup of a run that starts with an empty cache. */
  function OutcomeOf(ls: seq<Lookup>, maxAge: int, i: nat): Outcome
    requires i < |ls|
  {
    Answered(CacheAfter(ls, maxAge, i), ls[i])
  }

  /** The last of the first `n` lookups of that query. */
  function LastOf(ls: seq<Lookup>, n: nat, q: Query): (p: Option<nat>)
    requires n <= |ls|
    ensures p.Some? ==> p.value < n && ls[p.value].query == q && forall k :: p.value < k < n ==> ls[k].query != q
    ensures p.None? ==> forall k :: 0 <= k < n ==> ls[k].query != q
  {
    if n == 0 then None else if ls[n - 1].query == q then Some(n - 1) else LastOf(ls, n - 1, q)
  }

  /** What the cache holds for a query follows from the last lookup of that query. */
  ghost predicate Reflects(entries: Entries, ls: seq<Lookup>, maxAge: int, n: nat, q: Query)
    requires n <= |ls|
  {
    match LastOf(ls, n, q)
    case None => q !in entries
    case Some(p) =>
      match OutcomeOf(ls, maxAge, p).result
      case Ok(answer) => q in entries && entries[q] == Entry(answer, ls[p].stored + maxAge)
      case Failed => q in entries ==> entries[q].answer.addrs.None?
  }

  lemma {:induction false} CacheReflects(ls: seq<Lookup>, maxAge: int, n: nat, q: Query)
    requires n <= |ls|
    ensures Reflects(CacheAfter(ls, maxAge, n), ls, maxAge, n, q)
  {
    if n > 0 {
      CacheReflects(ls, maxAge, n - 1, q);
    }
  }

  /** The last lookup of the same query was answered with addresses, and this one starts in time. */
  ghost predicate InTime(ls: seq<Lookup>, maxAge: int, p: nat, i: nat)
    requires p < |ls| && i < |ls|
  {
    && OutcomeOf(ls, maxAge, p).result.Ok? && OutcomeOf(ls, maxAge, p).result.answer.addrs.Some?
    && ls[i].read - ls[p].stored < maxAge
  }

  /**
   * A lookup is served from the cache exactly when the last lookup of its query was answered with addresses less than
   * maxAge before, and then with the same answer; otherwise the resolver is asked, for the name only.
   */
  lemma HitExactly(ls: seq<Lookup>, maxAge: int, i: nat)
    requires i < |ls|
    ensures var last := LastOf(ls, i, ls[i].query);
      && (OutcomeOf(ls, maxAge, i).asked.None? <==> last.Some? && InTime(ls, maxAge, last.value, i))
      && (OutcomeOf(ls, maxAge, i).asked.None? ==>
            OutcomeOf(ls, maxAge, i).result == OutcomeOf(ls, maxAge, last.value).result)
      && (OutcomeOf(ls, maxAge, i).asked.Some? ==>
            OutcomeOf(ls, maxAge, i) == Outcome(ls[i].resolution, Some(ls[i].query.name)))
  {
    CacheReflects(ls, maxAge, i, ls[i].query);
  }

  /** A failure, or an answer without addresses, never comes from the cache. */
  lemma CacheServesOnlyAddresses(ls: seq<Lookup>, maxAge: int, i: nat)
    requires i < |ls| && OutcomeOf(ls, maxAge, i).asked.None?
    ensures OutcomeOf(ls, maxAge, i).result.Ok? && OutcomeOf(ls, maxAge, i).result.answer.addrs.Some?
  {
    HitExactly(ls, maxAge, i);
  }

  /** All lookups of that query after the j'th up to the i'th were served from the cache, each in time. */
  ghost predicate CachedSince(ls: seq<Lookup>, maxAge: int, j: nat, i: nat, q: Query)
    requires j <= i < |ls|
  {
    forall k :: j < k <= i && ls[k].query == q ==>
      && OutcomeOf(ls, maxAge, k).asked.None?
      && LastOf(ls, k, q).Some? && InTime(ls, maxAge, LastOf(ls, k, q).value, k)
  }

  /**
   * Every successful answer is the latest successful answer of the resolver for that query, and every lookup of the
   * query since then came less than maxAge after the one before it.
   */
  lemma {:induction false} AnswersComeFromTheResolver(ls: seq<Lookup>, maxAge: int, i: nat) returns (j: nat)
    requires i < |ls| && OutcomeOf(ls, maxAge, i).result.Ok?
    ensures j <= i && ls[j].query == ls[i].query
    ensures OutcomeOf(ls, maxAge, j).asked.Some? && ls[j].resolution == OutcomeOf(ls, maxAge, i).result
    ensures CachedSince(ls, maxAge, j, i, ls[i].query)
  {
    HitExactly(ls, maxAge, i);
    if OutcomeOf(ls, maxAge, i).asked.Some? {
      j := i;
    } else {
      var p := LastOf(ls, i, ls[i].query).value;
      j := AnswersComeFromTheResolver(ls, maxAge, p);
    }
  }

  // ---------------------------------------------------------------------------------------------------------
  // The term is not fixed

  /** The i'th lookup is served from the cache with what the resolver answered at the j'th. */
  ghost predicate Serves(ls: seq<Lookup>, maxAge: int, j: nat, i: nat) {
    && j < i < |ls| && ls[j].query == ls[i].query && OutcomeOf(ls, maxAge, j).asked.Some?
    && OutcomeOf(ls, maxAge, j).result.Ok? && CachedSince(ls, maxAge, j, i, ls[i].query)
  }

  const SomeQuery := Query("", "", "")
  const SomeAnswer := Answer("", Some([]))

  /** One lookup after the other, each storing its answer one tick after it read it. */
  function Polling(k: nat): Lookup {
    Lookup(SomeQuery, if k == 0 then 0 else k - 1, Ok(SomeAnswer), k)
  }

  function Polls(n: nat): (ls: seq<Lookup>)
    ensures |ls| == n && forall k :: 0 <= k < n ==> ls[k] == Polling(k)
  {
    if n == 0 then [] else Polls(n - 1) + [Polling(n - 1)]
  }

  lemma {:induction false} PollingIsCached(ls: seq<Lookup>, maxAge: int, k: nat)
    requires maxAge > 0 && k < |ls| && ls == Polls(|ls|)
    ensures CacheAfter(ls, maxAge, k + 1) == map[SomeQuery := Entry(SomeAnswer, k + maxAge)]
    ensures OutcomeOf(ls, maxAge, k).result == Ok(SomeAnswer)
    ensures OutcomeOf(ls, maxAge, k).asked.None? <==> k > 0
  {
    assert ls[k] == Polling(k);
    if k == 0 {
      assert CacheAfter(ls, maxAge, 0) == map[];
    } else {
      PollingIsCached(ls, maxAge, k - 1);
    }
  }

  /** Any maxAge above 0 allows answers of any age. */
  lemma AnswersOfAnyAge(maxAge: int, age: nat) returns (ls: seq<Lookup>)
    requires maxAge > 0
    ensures InOrder(ls) && |ls| == age + 2 && Serves(ls, maxAge, 0, age + 1)
    ensures ls[age + 1].read - ls[0].stored == age
  {
    ls := Polls(age + 2);
    PollingIsCached(ls, maxAge, 0);
    forall k | 0 < k <= age + 1
      ensures OutcomeOf(ls, maxAge, k).asked.None? && LastOf(ls, k, SomeQuery).Some?
      ensures InTime(ls, maxAge, LastOf(ls, k, SomeQuery).value, k)
    {
      PollingIsCached(ls, maxAge, k);
      HitExactly(ls, maxAge, k);
    }
  }

  lemma NothingCached(ls: seq<Lookup>, maxAge: int, i: nat)
    requires maxAge <= 0 && InOrder(ls) && i < |ls|
    ensures OutcomeOf(ls, maxAge, i).asked.Some?
  {
    HitExactly(ls, maxAge, i);
    var last := LastOf(ls, i, ls[i].query);
    assert last.Some? ==> ls[last.value].stored <= ls[i].read;
  }

  /** No cached answer of any run in order is maxAge old or older. */
  ghost predicate FixedTerm(maxAge: int) {
    forall ls: seq<Lookup>, j: nat, i: nat ::
      InOrder(ls) && Serves(ls, maxAge, j, i) ==> ls[i].read - ls[j].stored < maxAge
  }

  /** The cache has the fixed term it is documented to have only if it caches nothing. */
  lemma FixedTermExactly(maxAge: int)
    ensures FixedTerm(maxAge) <==> maxAge <= 0
  {
    if maxAge > 0 {
      var ls := AnswersOfAnyAge(maxAge, maxAge);
      assert !(ls[maxAge + 1].read - ls[0].stored < maxAge);
    } else {
      forall ls: seq<Lookup>, j: nat, i: nat
        ensures InOrder(ls) && Serves(ls, maxAge, j, i) ==> ls[i].read - ls[j].stored < maxAge
      {
        if InOrder(ls) && i < |ls| {
          NothingCached(ls, maxAge, i);
        }
      }
    }
  }
}
