/** Yield pools: the cached DefiLlama fetch, and the merge over several providers. */
module YieldProvider {
  import opened Wrappers

  datatype YieldPool = YieldPool(
    poolId: string, protocol: string, chain: string, symbol: string, apy: real, tvlUsd: real)

  // -- The merge ------------------------------------------------------------

  /** `format!("{}:{}:{}")`. */
  function Key(p: YieldPool): string {
    p.protocol + ":" + p.chain + ":" + p.symbol
  }

  /** The index of the pool kept for a key: the first among those with the greatest APY. */
  function Best(pools: seq<YieldPool>, key: string): Option<nat> {
    if |pools| == 0 then None
    else
      var last := |pools| - 1;
      match Best(pools[..last], key)
      case None => if Key(pools[last]) == key then Some(last) else None
      case Some(i) =>
        if Key(pools[last]) == key && i < last && pools[last].apy > pools[i].apy then Some(last) else Some(i)
  }

  /** `i` is where the first pool of its key with the greatest APY of that key stands. */
  ghost predicate FirstGreatest(pools: seq<YieldPool>, key: string, i: nat) {
    && i < |pools| && Key(pools[i]) == key
    && (forall j :: 0 <= j < |pools| && Key(pools[j]) == key ==> pools[j].apy <= pools[i].apy)
    && (forall j :: 0 <= j < i && Key(pools[j]) == key ==> pools[j].apy < pools[i].apy)
  }

  lemma {:induction false} BestIsFirstGreatest(pools: seq<YieldPool>, key: string)
    ensures Best(pools, key) == None <==> forall j :: 0 <= j < |pools| ==> Key(pools[j]) != key
    ensures Best(pools, key).Some? ==> FirstGreatest(pools, key, Best(pools, key).value)
  {
    hide Key;
    if |pools| > 0 {
      BestIsFirstGreatest(pools[..|pools| - 1], key);
    }
  }

  /** The map holds, for every key, the best pool of that key. */
  ghost predicate Deduped(m: map<string, YieldPool>, pools: seq<YieldPool>) {
    forall key :: DedupedAt(m, pools, key)
  }

  ghost predicate DedupedAt(m: map<string, YieldPool>, pools: seq<YieldPool>, key: string) {
    && (key in m <==> Best(pools, key).Some?)
    && (key in m ==> Best(pools, key).value < |pools| && m[key] == pools[Best(pools, key).value])
  }

  lemma {:induction false} BestInRange(pools: seq<YieldPool>, key: string)
    ensures Best(pools, key).Some? ==> Best(pools, key).value < |pools|
  {
    if |pools| > 0 { BestInRange(pools[..|pools| - 1], key); }
  }

  lemma NothingDeduped()
    ensures Deduped(map[], [])
  {
    forall key ensures DedupedAt(map[], [], key) {}
  }

  /** One more pool replaces the kept one of its key only with a strictly greater APY. */
  lemma DedupeStep(m: map<string, YieldPool>, m': map<string, YieldPool>, pools: seq<YieldPool>, pool: YieldPool)
    requires Deduped(m, pools)
    requires m' == if Key(pool) in m && pool.apy <= m[Key(pool)].apy then m else m[Key(pool) := pool]
    ensures Deduped(m', pools + [pool])
  {
    hide Key;
    assert (pools + [pool])[..|pools|] == pools;
    forall key ensures DedupedAt(m', pools + [pool], key) {
      assert DedupedAt(m, pools, key);
    }
  }

  /** The dedupe loop: a set of keys seen, and the best pool for each so far. */
  method Dedupe(pools: seq<YieldPool>) returns (deduped: map<string, YieldPool>)
    ensures Deduped(deduped, pools)
  {
    hide Key, DedupedAt;
    NothingDeduped();
    deduped := map[];
    var seen: set<string> := {};
    for i := 0 to |pools|
      invariant seen == deduped.Keys
      invariant Deduped(deduped, pools[..i])
    {
      var pool := pools[i];
      var key := Key(pool);
      ghost var before := deduped;
      if key !in seen {
        seen := seen + {key};
        deduped := deduped[key := pool];
      } else if pool.apy > deduped[key].apy {
        deduped := deduped[key := pool];
      }
      DedupeStep(before, deduped, pools[..i], pool);
      assert pools[..i] + [pool] == pools[..i + 1];
    }
    assert pools[..|pools|] == pools;
  }

  ghost predicate Descending(pools: seq<YieldPool>) {
    forall i, j :: 0 <= i < j < |pools| ==> pools[i].apy >= pools[j].apy
  }

  ghost predicate DistinctKeys(pools: seq<YieldPool>) {
    forall i, j :: 0 <= i < j < |pools| ==> Key(pools[i]) != Key(pools[j])
  }

  /** `r` is `s` with the pool put in at place `i`. */
  ghost predicate InsertedAt(r: seq<YieldPool>, s: seq<YieldPool>, i: nat, pool: YieldPool) {
    && i <= |s| && |r| == |s| + 1 && r[i] == pool
    && (forall j :: 0 <= j < i ==> r[j] == s[j])
    && (forall j :: i < j < |r| ==> r[j] == s[j - 1])
  }

  lemma InsertionKeepsOrder(r: seq<YieldPool>, s: seq<YieldPool>, i: nat, pool: YieldPool)
    requires InsertedAt(r, s, i, pool) && Descending(s) && DistinctKeys(s)
    requires forall j :: 0 <= j < |s| ==> Key(s[j]) != Key(pool)
    requires forall j :: 0 <= j < i ==> s[j].apy >= pool.apy
    requires forall j :: i <= j < |s| ==> s[j].apy <= pool.apy
    ensures Descending(r) && DistinctKeys(r)
  {
    hide Key;
    forall x, y | 0 <= x < y < |r|
      ensures r[x].apy >= r[y].apy && Key(r[x]) != Key(r[y])
    {
      assert r[x] == if x < i then s[x] else if x == i then pool else s[x - 1];
      assert r[y] == if y < i then s[y] else if y == i then pool else s[y - 1];
    }
  }

  lemma InsertionMembers(r: seq<YieldPool>, s: seq<YieldPool>, i: nat, pool: YieldPool)
    requires InsertedAt(r, s, i, pool)
    ensures forall p :: p in r <==> p in s || p == pool
  {
    forall p | p in s
      ensures p in r
    {
      var j :| 0 <= j < |s| && s[j] == p;
      assert r[if j < i then j else j + 1] == p;
    }
  }

  function Spliced(s: seq<YieldPool>, i: nat, pool: YieldPool): (r: seq<YieldPool>)
    requires i <= |s|
    ensures InsertedAt(r, s, i, pool)
  {
    s[..i] + [pool] + s[i..]
  }

  /** Puts a pool behind every sorted one with at least its APY. */
  method Insert(sorted: seq<YieldPool>, pool: YieldPool) returns (r: seq<YieldPool>)
    requires Descending(sorted) && DistinctKeys(sorted)
    requires forall p :: p in sorted ==> Key(p) != Key(pool)
    ensures Descending(r) && DistinctKeys(r)
    ensures forall p :: p in r <==> p in sorted || p == pool
  {
    hide Key, DistinctKeys, InsertedAt;
    var i := |sorted|;
    while i > 0 && sorted[i - 1].apy < pool.apy
      invariant 0 <= i <= |sorted|
      invariant forall j :: i <= j < |sorted| ==> sorted[j].apy < pool.apy
    {
      i := i - 1;
    }
    r := Spliced(sorted, i, pool);
    InsertionMembers(r, sorted, i, pool);
    InsertionKeepsOrder(r, sorted, i, pool);
  }

  /** Exactly one pool for every key of the input: the first with that key's greatest APY, best keys first. */
  ghost predicate Merged(result: seq<YieldPool>, pools: seq<YieldPool>) {
    && Descending(result)
    && DistinctKeys(result)
    && (forall r :: r in result ==> exists i: nat :: FirstGreatest(pools, Key(r), i) && pools[i] == r)
    && (forall p :: p in pools ==> exists r :: r in result && Key(r) == Key(p))
  }

  /** What a merge is: APYs go down, no key comes twice, each pool is the first of its key with its greatest APY. */
  lemma MergedMeans(result: seq<YieldPool>, pools: seq<YieldPool>)
    requires Merged(result, pools)
    ensures forall i, j :: 0 <= i < j < |result| ==>
              result[i].apy >= result[j].apy && Key(result[i]) != Key(result[j])
    ensures forall r :: r in result ==>
              exists i :: && 0 <= i < |pools| && pools[i] == r
                          && forall j :: 0 <= j < |pools| && Key(pools[j]) == Key(r) ==>
                               pools[j].apy <= r.apy && (j < i ==> pools[j].apy < r.apy)
    ensures forall p :: p in pools ==> exists r :: r in result && Key(r) == Key(p)
  {
    hide Key;
    forall r | r in result
      ensures exists i :: && 0 <= i < |pools| && pools[i] == r
                          && forall j :: 0 <= j < |pools| && Key(pools[j]) == Key(r) ==>
                               pools[j].apy <= r.apy && (j < i ==> pools[j].apy < r.apy)
    {
      var i: nat :| FirstGreatest(pools, Key(r), i) && pools[i] == r;
      assert 0 <= i < |pools| && pools[i] == r;
    }
  }

  /** The values of a map in any order, sorted by APY, greatest first. */
  method SortedValues(deduped: map<string, YieldPool>) returns (result: seq<YieldPool>)
    requires forall k :: k in deduped ==> Key(deduped[k]) == k
    ensures Descending(result) && DistinctKeys(result)
    ensures forall r :: r in result <==> Key(r) in deduped && r == deduped[Key(r)]
  {
    result := [];
    var todo := deduped.Keys;
    while todo != {}
      invariant todo <= deduped.Keys
      invariant Descending(result) && DistinctKeys(result)
      invariant forall r :: r in result <==> Key(r) in deduped && Key(r) !in todo && r == deduped[Key(r)]
      decreases todo
    {
      var k :| k in todo;
      result := Insert(result, deduped[k]);
      todo := todo - {k};
    }
  }

  method Merge(pools: seq<YieldPool>) returns (result: seq<YieldPool>)
    ensures Merged(result, pools)
  {
    hide Best;
    var deduped := Dedupe(pools);
    forall k
      ensures k in deduped ==> Key(deduped[k]) == k
      ensures k in deduped ==> exists i: nat :: FirstGreatest(pools, k, i) && pools[i] == deduped[k]
    {
      assert DedupedAt(deduped, pools, k);
      BestIsFirstGreatest(pools, k);
    }
    result := SortedValues(deduped);
    forall p | p in pools
      ensures exists r :: r in result && Key(r) == Key(p)
    {
      assert DedupedAt(deduped, pools, Key(p));
      BestIsFirstGreatest(pools, Key(p));
      assert deduped[Key(p)] in result;
    }
  }

  /** All pools of the providers that answered, in provider order. */
  function Gathered(answers: seq<Result<seq<YieldPool>, ()>>): seq<YieldPool> {
    if |answers| == 0 then []
    else
      Gathered(answers[..|answers| - 1])
      + match answers[|answers| - 1]
        case Ok(pools) => pools
        case Err(_) => []
  }

  /**
   * The registry: with several providers the merge of all that answered, and never an error; a
   * single provider's answer, or its error, is passed on as it is, neither deduplicated nor sorted.
   */
  method FetchAll(answers: seq<Result<seq<YieldPool>, ()>>) returns (r: Result<seq<YieldPool>, ()>)
    ensures |answers| == 0 ==> r == Ok([])
    ensures |answers| == 1 ==> r == answers[0]
    ensures |answers| > 1 ==> r.Ok? && Merged(r.value, Gathered(answers))
  {
    if |answers| == 0 { return Ok([]); }
    if |answers| == 1 { return answers[0]; }
    hide Merged;
    var allPools := [];
    for i := 0 to |answers|
      invariant allPools == Gathered(answers[..i])
    {
      assert answers[..i + 1][..i] == answers[..i];
      match answers[i] {
        case Ok(pools) => allPools := allPools + pools;
        case Err(_) =>
      }
    }
    assert answers[..|answers|] == answers;
    var merged := Merge(allPools);
    r := Ok(merged);
  }

  /** Answers come in provider order, and one that failed adds nothing. */
  lemma GatheredAppend(answers: seq<Result<seq<YieldPool>, ()>>, pools: seq<YieldPool>)
    ensures Gathered([]) == []
    ensures Gathered(answers + [Ok(pools)]) == Gathered(answers) + pools
    ensures Gathered(answers + [Err(())]) == Gathered(answers)
  {
    assert (answers + [Ok(pools)])[..|answers|] == answers;
    assert (answers + [Err(())])[..|answers|] == answers;
  }

  predicate SameNames(p: YieldPool, q: YieldPool) {
    p.protocol == q.protocol && p.chain == q.chain && p.symbol == q.symbol
  }

  predicate NoColon(p: YieldPool) {
    ':' !in p.protocol && ':' !in p.chain && ':' !in p.symbol
  }

  function Colons(s: string): nat {
    if |s| == 0 then 0 else Colons(s[..|s| - 1]) + if s[|s| - 1] == ':' then 1 else 0
  }

  lemma {:induction false} ColonsConcat(a: string, b: string)
    ensures Colons(a + b) == Colons(a) + Colons(b)
  {
    if |b| == 0 {
      assert a + b == a;
    } else {
      assert (a + b)[..|a + b| - 1] == a + b[..|b| - 1];
      ColonsConcat(a, b[..|b| - 1]);
    }
  }

  lemma {:induction false} ColonsZero(s: string)
    ensures Colons(s) == 0 <==> ':' !in s
  {
    if |s| > 0 {
      ColonsZero(s[..|s| - 1]);
      assert s == s[..|s| - 1] + [s[|s| - 1]];
    }
  }

  lemma KeyColons(p: YieldPool)
    ensures Colons(Key(p)) == Colons(p.protocol) + Colons(p.chain) + Colons(p.symbol) + 2
  {
    ColonsConcat(p.protocol + ":" + p.chain + ":", p.symbol);
    ColonsConcat(p.protocol + ":" + p.chain, ":");
    ColonsConcat(p.protocol + ":", p.chain);
    ColonsConcat(p.protocol, ":");
    assert ":"[..0] == "";
    assert Colons(":") == 1;
  }

  lemma {:induction false} FirstColon(a: string, x: string, b: string, y: string)
    requires ':' !in a && ':' !in b && a + [':'] + x == b + [':'] + y
    ensures a == b && x == y
  {
    var s := a + [':'] + x;
    assert s[|a|] == ':' && s[|b|] == ':';
    assert forall i :: 0 <= i < |b| ==> s[i] == b[i] && s[i] != ':';
    assert forall i :: 0 <= i < |a| ==> s[i] == a[i] && s[i] != ':';
    assert a == s[..|a|] && b == s[..|b|] && x == s[|a| + 1..] && y == s[|b| + 1..];
  }

  /** The key of a pool belongs to its names alone exactly when none of them has a colon. */
  lemma KeysAreInjective(p: YieldPool)
    ensures (forall q :: Key(q) == Key(p) ==> SameNames(p, q)) <==> NoColon(p)
  {
    hide Key;
    if NoColon(p) {
      forall q | Key(q) == Key(p) ensures SameNames(p, q) { NoColonIsUnique(p, q); }
    } else {
      var q := ColonMakesKeysCollide(p);
    }
  }

  lemma NoColonIsUnique(p: YieldPool, q: YieldPool)
    requires NoColon(p) && Key(p) == Key(q)
    ensures SameNames(p, q)
  {
    hide Colons;
    KeyColons(p);
    KeyColons(q);
    ColonsZero(p.protocol);
    ColonsZero(p.chain);
    ColonsZero(p.symbol);
    ColonsZero(q.protocol);
    ColonsZero(q.chain);
    var p', q' := p.chain + ":" + p.symbol, q.chain + ":" + q.symbol;
    assert Key(p) == p.protocol + [':'] + p' && Key(q) == q.protocol + [':'] + q';
    FirstColon(p.protocol, p', q.protocol, q');
    assert p' == p.chain + [':'] + p.symbol && q' == q.chain + [':'] + q.symbol;
    FirstColon(p.chain, p.symbol, q.chain, q.symbol);
  }

  /** Cutting a name at a colon. */
  lemma CutAtColon(s: string) returns (a: string, b: string)
    requires ':' in s
    ensures s == a + ":" + b
  {
    var i :| 0 <= i < |s| && s[i] == ':';
    a, b := s[..i], s[i + 1..];
  }

  /** Every pool with a colon in one of its names shares its key with a pool of other names. */
  lemma ColonMakesKeysCollide(p: YieldPool) returns (q: YieldPool)
    requires !NoColon(p)
    ensures Key(q) == Key(p) && !SameNames(p, q)
  {
    var a, b;
    if ':' in p.protocol {
      a, b := CutAtColon(p.protocol);
      q := p.(protocol := a, chain := b + ":" + p.chain);
      assert Key(q) == Key(p);
      assert |q.protocol| < |p.protocol|;
    } else if ':' in p.chain {
      a, b := CutAtColon(p.chain);
      q := p.(protocol := p.protocol + ":" + a, chain := b);
      assert Key(q) == Key(p);
      assert |q.chain| < |p.chain|;
    } else {
      a, b := CutAtColon(p.symbol);
      q := p.(chain := p.chain + ":" + a, symbol := b);
      assert Key(q) == Key(p);
      assert |q.symbol| < |p.symbol|;
    }
  }

  // -- The cached provider --------------------------------------------------

  const CACHE_MIN_TVL: real := 10000.0
  const CACHE_MIN_APY: real := 0.1

  /** A pool as the upstream reports it; a missing number counts as zero, missing text as empty. */
  datatype LlamaPool = LlamaPool(pool: Option<string>, project: Option<string>, chain: Option<string>,
                                 symbol: Option<string>, apy: Option<real>, tvlUsd: Option<real>)

  function Lower(c: char): char {
    if 'A' <= c <= 'Z' then c - 'A' + 'a' else c
  }

  function ToLower(s: string): string {
    seq(|s|, i requires 0 <= i < |s| => Lower(s[i]))
  }

  /** Chains are compared letter by letter without regard to case. */
  lemma SameChainWhen(a: string, b: string)
    ensures ToLower(a) == ToLower(b) <==>
            && |a| == |b|
            && forall i :: 0 <= i < |a| ==>
                 || a[i] == b[i]
                 || ('A' <= a[i] <= 'Z' && b[i] as int == a[i] as int + 32)
                 || ('A' <= b[i] <= 'Z' && a[i] as int == b[i] as int + 32)
  {
    if ToLower(a) == ToLower(b) {
      assert |ToLower(a)| == |a| && |ToLower(b)| == |b|;
      forall i | 0 <= i < |a|
        ensures || a[i] == b[i]
                || ('A' <= a[i] <= 'Z' && b[i] as int == a[i] as int + 32)
                || ('A' <= b[i] <= 'Z' && a[i] as int == b[i] as int + 32)
      {
        assert ToLower(a)[i] == ToLower(b)[i];
      }
    }
  }

  function Or<T>(o: Option<T>, default: T): T {
    match o case Some(v) => v case None => default
  }

  predicate OnChain(p: LlamaPool, chain: Option<string>) {
    chain.Some? ==> ToLower(Or(p.chain, "")) == ToLower(chain.value)
  }

  function ToPool(p: LlamaPool): YieldPool {
    YieldPool(Or(p.pool, ""), Or(p.project, ""), Or(p.chain, ""), Or(p.symbol, ""), Or(p.apy, 0.0), Or(p.tvlUsd, 0.0))
  }

  /** Everything on the chain that meets the thresholds, in upstream order. */
  function Filtered(upstream: seq<LlamaPool>, chain: Option<string>, minTvl: real, minApy: real): seq<YieldPool> {
    if |upstream| == 0 then []
    else
      var p := upstream[|upstream| - 1];
      Filtered(upstream[..|upstream| - 1], chain, minTvl, minApy)
      + if OnChain(p, chain) && ToPool(p).tvlUsd >= minTvl && ToPool(p).apy >= minApy then [ToPool(p)] else []
  }

  /** What one more upstream pool adds: nothing, or its own fields with blanks for what is missing. */
  lemma FilteredAppend(upstream: seq<LlamaPool>, p: LlamaPool, chain: Option<string>, minTvl: real, minApy: real)
    ensures Filtered([], chain, minTvl, minApy) == []
    ensures var name := if p.chain.Some? then p.chain.value else "";
            var apy, tvl :=
              if p.apy.Some? then p.apy.value else 0.0, if p.tvlUsd.Some? then p.tvlUsd.value else 0.0;
            Filtered(upstream + [p], chain, minTvl, minApy) ==
            Filtered(upstream, chain, minTvl, minApy) +
            if (chain == None || ToLower(name) == ToLower(chain.value)) && tvl >= minTvl && apy >= minApy then
              [YieldPool(if p.pool.Some? then p.pool.value else "", if p.project.Some? then p.project.value else "",
                         name, if p.symbol.Some? then p.symbol.value else "", apy, tvl)]
            else []
  {
    hide ToLower;
    assert (upstream + [p])[..|upstream|] == upstream;
  }

  function AtLeast(pools: seq<YieldPool>, minTvl: real, minApy: real): seq<YieldPool> {
    if |pools| == 0 then []
    else
      var p := pools[|pools| - 1];
      AtLeast(pools[..|pools| - 1], minTvl, minApy) + if p.tvlUsd >= minTvl && p.apy >= minApy then [p] else []
  }

  function CacheKey(chain: Option<string>): string {
    "vespra:yield_pools:" + Or(chain, "all")
  }

  function Larger(a: real, b: real): real {
    if a >= b then a else b
  }

  lemma {:induction false} AtLeastAppend(a: seq<YieldPool>, b: seq<YieldPool>, minTvl: real, minApy: real)
    ensures AtLeast(a + b, minTvl, minApy) == AtLeast(a, minTvl, minApy) + AtLeast(b, minTvl, minApy)
  {
    if |b| == 0 {
      assert a + b == a;
    } else {
      assert (a + b)[..|a + b| - 1] == a + b[..|b| - 1];
      AtLeastAppend(a, b[..|b| - 1], minTvl, minApy);
    }
  }

  lemma FilterOne(p: LlamaPool, chain: Option<string>, tvl: real, apy: real)
    ensures Filtered([p], chain, tvl, apy)
            == if OnChain(p, chain) && ToPool(p).tvlUsd >= tvl && ToPool(p).apy >= apy then [ToPool(p)] else []
  {
    assert [p][..0] == [];
  }

  lemma AtLeastOne(p: YieldPool, tvl: real, apy: real)
    ensures AtLeast([p], tvl, apy) == if p.tvlUsd >= tvl && p.apy >= apy then [p] else []
  {
    assert [p][..0] == [];
  }

  lemma NothingAtLeast(tvl: real, apy: real)
    ensures AtLeast([], tvl, apy) == []
  {
  }

  /** Filtering the loosely filtered pools is filtering the upstream by the stricter thresholds. */
  lemma {:induction false} FilterTwice(
      upstream: seq<LlamaPool>, chain: Option<string>, tvl0: real, apy0: real, tvl: real, apy: real)
    ensures AtLeast(Filtered(upstream, chain, tvl0, apy0), tvl, apy)
            == Filtered(upstream, chain, Larger(tvl0, tvl), Larger(apy0, apy))
  {
    hide OnChain, ToPool, AtLeast;
    NothingAtLeast(tvl, apy);
    if |upstream| > 0 {
      var before, p := upstream[..|upstream| - 1], upstream[|upstream| - 1];
      FilterTwice(before, chain, tvl0, apy0, tvl, apy);
      var kept := if OnChain(p, chain) && ToPool(p).tvlUsd >= tvl0 && ToPool(p).apy >= apy0 then [ToPool(p)] else [];
      AtLeastAppend(Filtered(before, chain, tvl0, apy0), kept, tvl, apy);
      AtLeastOne(ToPool(p), tvl, apy);
      assert Filtered(upstream, chain, tvl0, apy0) == Filtered(before, chain, tvl0, apy0) + kept;
    }
  }

  /** What a caller gets whether or not the cache answers. */
  function Answer(upstream: seq<LlamaPool>, chain: Option<string>, minTvl: real, minApy: real): seq<YieldPool> {
    Filtered(upstream, chain, Larger(CACHE_MIN_TVL, minTvl), Larger(CACHE_MIN_APY, minApy))
  }

  // -- Runs of calls --------------------------------------------------------

  /** What an entry was filed from: the upstream of that moment, and the chain that was asked for. */
  datatype Filing = Filing(upstream: seq<LlamaPool>, chain: Option<string>)

  type Filings = map<string, Filing>

  /**
   * One call and what it meets: whether the cache answers with a live entry if it has one, whether
   * the upstream answers, and whether the cache takes the new entry.
   */
  datatype Call = Call(upstream: seq<LlamaPool>, chain: Option<string>, minTvl: real, minApy: real,
                       cacheUp: bool, upstreamUp: bool, cacheWritable: bool)

  predicate Hits(f: Filings, c: Call) {
    c.cacheUp && CacheKey(c.chain) in f
  }

  /** The entries after a call, for every key: only a miss that reaches upstream and cache files one. */
  function FiledAfter(f: Filings, c: Call): Filings {
    if Hits(f, c) || !c.upstreamUp || !c.cacheWritable then f
    else f[CacheKey(c.chain) := Filing(c.upstream, c.chain)]
  }

  /** A hit answers for whoever filed the entry, a miss for the call itself. */
  function Served(f: Filings, c: Call): Result<seq<YieldPool>, ()> {
    if Hits(f, c) then
      var entry := f[CacheKey(c.chain)];
      Ok(Answer(entry.upstream, entry.chain, c.minTvl, c.minApy))
    else if c.upstreamUp then Ok(Answer(c.upstream, c.chain, c.minTvl, c.minApy))
    else Err(())
  }

  function FiledBy(calls: seq<Call>): Filings {
    if |calls| == 0 then map[] else FiledAfter(FiledBy(calls[..|calls| - 1]), calls[|calls| - 1])
  }

  /**
   * One call, told by what it meets. A live entry under the chain's key answers, for the chain it was
   * filed for; otherwise the upstream does, if it can, and is then filed under the key if the cache
   * takes it. Thresholds looser than the cache's count as the cache's.
   */
  lemma CallMeets(f: Filings, c: Call)
    ensures var key := "vespra:yield_pools:" + (if c.chain.Some? then c.chain.value else "all");
            var hit := c.cacheUp && key in f;
            var tvl := if c.minTvl > 10000.0 then c.minTvl else 10000.0;
            var apy := if c.minApy > 0.1 then c.minApy else 0.1;
            && Served(f, c) == (if hit then Ok(Filtered(f[key].upstream, f[key].chain, tvl, apy))
                                else if c.upstreamUp then Ok(Filtered(c.upstream, c.chain, tvl, apy))
                                else Err(()))
            && FiledAfter(f, c) == (if !hit && c.upstreamUp && c.cacheWritable
                                    then f[key := Filing(c.upstream, c.chain)] else f)
  {
    hide Filtered;
  }

  class DefiLlamaProvider {
    var cache: map<string, seq<YieldPool>>
    ghost var filings: Filings

    constructor ()
      ensures Valid() && filings == map[]
    {
      cache, filings := map[], map[];
    }

    /** Every entry is the loosely filtered upstream of its filing. */
    ghost predicate Valid()
      reads this
    {
      && cache.Keys == filings.Keys
      && forall k :: k in cache ==>
           cache[k] == Filtered(filings[k].upstream, filings[k].chain, CACHE_MIN_TVL, CACHE_MIN_APY)
    }

    /** For every chain, the answer and the cache afterwards, whatever was called before. */
    method FetchPools(c: Call) returns (r: Result<seq<YieldPool>, ()>)
      requires Valid()
      modifies this
      ensures Valid() && filings == FiledAfter(old(filings), c)
      ensures r == Served(old(filings), c)
    {
      var key := CacheKey(c.chain);
      if c.cacheUp && key in cache {
        FilterTwice(filings[key].upstream, filings[key].chain, CACHE_MIN_TVL, CACHE_MIN_APY, c.minTvl, c.minApy);
        var hit := Select(cache[key], c.minTvl, c.minApy);
        return Ok(hit);
      }
      if !c.upstreamUp { return Err(()); }
      FilterTwice(c.upstream, c.chain, CACHE_MIN_TVL, CACHE_MIN_APY, c.minTvl, c.minApy);
      var allPools := Convert(c.upstream, c.chain);
      if c.cacheWritable {
        cache := cache[key := allPools];
        filings := filings[key := Filing(c.upstream, c.chain)];
      }
      var miss := Select(allPools, c.minTvl, c.minApy);
      r := Ok(miss);
    }

    method Convert(upstream: seq<LlamaPool>, chain: Option<string>) returns (pools: seq<YieldPool>)
      ensures pools == Filtered(upstream, chain, CACHE_MIN_TVL, CACHE_MIN_APY)
    {
      pools := [];
      for i := 0 to |upstream|
        invariant pools == Filtered(upstream[..i], chain, CACHE_MIN_TVL, CACHE_MIN_APY)
      {
        assert upstream[..i + 1][..i] == upstream[..i];
        var p := ToPool(upstream[i]);
        if OnChain(upstream[i], chain) && !(p.tvlUsd < CACHE_MIN_TVL || p.apy < CACHE_MIN_APY) {
          pools := pools + [p];
        }
      }
      assert upstream[..|upstream|] == upstream;
    }

    method Select(pools: seq<YieldPool>, minTvl: real, minApy: real) returns (r: seq<YieldPool>)
      ensures r == AtLeast(pools, minTvl, minApy)
    {
      r := [];
      for i := 0 to |pools|
        invariant r == AtLeast(pools[..i], minTvl, minApy)
      {
        assert pools[..i + 1][..i] == pools[..i];
        if pools[i].tvlUsd >= minTvl && pools[i].apy >= minApy { r := r + [pools[i]]; }
      }
      assert pools[..|pools|] == pools;
    }
  }

  /** The answer is the direct filter of every upstream exactly for thresholds no looser than the cache's. */
  lemma AnswerIsDirectWhen(chain: Option<string>, minTvl: real, minApy: real)
    ensures (minTvl >= CACHE_MIN_TVL && minApy >= CACHE_MIN_APY) <==>
            forall upstream :: Answer(upstream, chain, minTvl, minApy) == Filtered(upstream, chain, minTvl, minApy)
  {
    if minTvl >= CACHE_MIN_TVL && minApy >= CACHE_MIN_APY {
    } else {
      var p := LlamaPool(None, None, chain, None, Some(minApy), Some(minTvl));
      assert OnChain(p, chain);
      FilterOne(p, chain, minTvl, minApy);
      FilterOne(p, chain, Larger(CACHE_MIN_TVL, minTvl), Larger(CACHE_MIN_APY, minApy));
      assert Answer([p], chain, minTvl, minApy) != Filtered([p], chain, minTvl, minApy);
    }
  }

  // -- Whose answer a call gets ---------------------------------------------

  /** The two names of the one key that is not a chain's alone. */
  predicate SharesKey(chain: Option<string>) {
    chain == None || chain == Some("all")
  }

  lemma KeyIsShared(a: Option<string>, b: Option<string>)
    ensures CacheKey(a) == CacheKey(b) <==> a == b || (SharesKey(a) && SharesKey(b))
  {
    var prefix := "vespra:yield_pools:";
    assert CacheKey(a)[|prefix|..] == Or(a, "all") && CacheKey(b)[|prefix|..] == Or(b, "all");
  }

  /** Every entry is filed under the key of its chain, from an upstream that some call met. */
  lemma {:induction false} FiledUnderOwnKey(calls: seq<Call>)
    ensures forall k :: k in FiledBy(calls) ==>
              && CacheKey(FiledBy(calls)[k].chain) == k
              && exists i :: 0 <= i < |calls| && FiledBy(calls)[k] == Filing(calls[i].upstream, calls[i].chain)
  {
    if |calls| > 0 {
      var before, f, last := calls[..|calls| - 1], FiledBy(calls[..|calls| - 1]), |calls| - 1;
      FiledUnderOwnKey(before);
      forall k | k in FiledBy(calls)
        ensures exists i :: 0 <= i < |calls| && FiledBy(calls)[k] == Filing(calls[i].upstream, calls[i].chain)
      {
        if k in f && FiledBy(calls)[k] == f[k] {
          var i :| 0 <= i < |before| && f[k] == Filing(before[i].upstream, before[i].chain);
          assert calls[i] == before[i];
        } else {
          assert FiledBy(calls)[k] == Filing(calls[last].upstream, calls[last].chain);
        }
      }
    }
  }

  /**
   * Over any run of calls that meet one upstream, a hit, a miss and a direct filter agree for every
   * chain but the two that share a key; each of those may get the other's answer, and only that.
   */
  lemma AnswersAreDirect(calls: seq<Call>, c: Call)
    requires forall i :: 0 <= i < |calls| ==> calls[i].upstream == c.upstream
    requires Served(FiledBy(calls), c).Ok?
    ensures var r := Served(FiledBy(calls), c).value;
            if SharesKey(c.chain) then
              || r == Answer(c.upstream, None, c.minTvl, c.minApy)
              || r == Answer(c.upstream, Some("all"), c.minTvl, c.minApy)
            else r == Answer(c.upstream, c.chain, c.minTvl, c.minApy)
  {
    FiledUnderOwnKey(calls);
    if Hits(FiledBy(calls), c) { KeyIsShared(FiledBy(calls)[CacheKey(c.chain)].chain, c.chain); }
  }

  /** A pool that meets both thresholds and is on no chain. */
  function Stray(minTvl: real, minApy: real): LlamaPool {
    LlamaPool(None, None, None, None, Some(Larger(CACHE_MIN_APY, minApy)), Some(Larger(CACHE_MIN_TVL, minTvl)))
  }

  lemma StrayTells(minTvl: real, minApy: real)
    ensures var u := [Stray(minTvl, minApy)];
            Answer(u, None, minTvl, minApy) != Answer(u, Some("all"), minTvl, minApy)
  {
    var p := Stray(minTvl, minApy);
    FilterOne(p, None, Larger(CACHE_MIN_TVL, minTvl), Larger(CACHE_MIN_APY, minApy));
    FilterOne(p, Some("all"), Larger(CACHE_MIN_TVL, minTvl), Larger(CACHE_MIN_APY, minApy));
    assert |ToLower("")| == 0 && |ToLower("all")| == 3;
  }

  /**
   * At every threshold: whoever filed the entry under a chain's key, the answer is the chain's own
   * for every upstream, exactly when the chain is neither absent nor named "all".
   */
  lemma AnswerIsOwnWhen(chain: Option<string>, minTvl: real, minApy: real)
    ensures (forall filer, upstream :: CacheKey(filer) == CacheKey(chain) ==>
               Answer(upstream, filer, minTvl, minApy) == Answer(upstream, chain, minTvl, minApy))
            <==> !SharesKey(chain)
  {
    hide Answer, CacheKey;
    if SharesKey(chain) {
      var filer := if chain == None then Some("all") else None;
      KeyIsShared(filer, chain);
      StrayTells(minTvl, minApy);
      var u := [Stray(minTvl, minApy)];
      assert Answer(u, filer, minTvl, minApy) != Answer(u, chain, minTvl, minApy);
    } else {
      forall filer, upstream | CacheKey(filer) == CacheKey(chain)
        ensures Answer(upstream, filer, minTvl, minApy) == Answer(upstream, chain, minTvl, minApy)
      {
        KeyIsShared(filer, chain);
      }
    }
  }

  /** The pools that would be in the unfiltered answer and are on no chain called "all". */
  predicate Elsewhere(p: LlamaPool, minTvl: real, minApy: real) {
    && ToPool(p).tvlUsd >= Larger(CACHE_MIN_TVL, minTvl) && ToPool(p).apy >= Larger(CACHE_MIN_APY, minApy)
    && !OnChain(p, Some("all"))
  }

  lemma {:induction false} OnlyAll(upstream: seq<LlamaPool>, minTvl: real, minApy: real)
    ensures var all, own := Answer(upstream, None, minTvl, minApy), Answer(upstream, Some("all"), minTvl, minApy);
            && |own| <= |all|
            && (all == own <==> forall p :: p in upstream ==> !Elsewhere(p, minTvl, minApy))
            && (all == own <==> |own| == |all|)
  {
    hide ToPool, Larger, OnChain;
    AnyChain();
    if |upstream| > 0 {
      var before, p := upstream[..|upstream| - 1], upstream[|upstream| - 1];
      OnlyAll(before, minTvl, minApy);
      assert upstream == before + [p];
      assert (forall q :: q in upstream ==> !Elsewhere(q, minTvl, minApy))
             <==> (forall q :: q in before ==> !Elsewhere(q, minTvl, minApy)) && !Elsewhere(p, minTvl, minApy);
      var all, own := Answer(before, None, minTvl, minApy), Answer(before, Some("all"), minTvl, minApy);
      var fits := ToPool(p).tvlUsd >= Larger(CACHE_MIN_TVL, minTvl) && ToPool(p).apy >= Larger(CACHE_MIN_APY, minApy);
      var x := if fits then [ToPool(p)] else [];
      var y := if OnChain(p, Some("all")) && fits then [ToPool(p)] else [];
      assert Answer(upstream, None, minTvl, minApy) == all + x;
      assert Answer(upstream, Some("all"), minTvl, minApy) == own + y;
      assert all + x == own + y ==> |all + x| == |own + y|;
    }
  }

  lemma AnyChain()
    ensures forall p :: OnChain(p, None)
  {
  }

  /**
   * Two calls on an empty cache, one for the chain "all" and one unfiltered, in either order: the
   * second is served the first one's answer, at its own thresholds. That is its own exactly when
   * every pool of the upstream within the thresholds is on a chain called "all".
   */
  lemma ChainNamedAllCollides(first: Call, second: Call)
    requires SharesKey(first.chain) && SharesKey(second.chain) && first.chain != second.chain
    requires first.upstream == second.upstream && first.upstreamUp && first.cacheWritable && second.cacheUp
    ensures Served(FiledBy([first]), second) == Ok(Answer(second.upstream, first.chain, second.minTvl, second.minApy))
    ensures Served(FiledBy([first]), second) == Ok(Answer(second.upstream, second.chain, second.minTvl, second.minApy))
            <==> forall p :: p in second.upstream ==> !Elsewhere(p, second.minTvl, second.minApy)
  {
    assert [first][..0] == [];
    assert FiledBy([first]) == map[CacheKey(first.chain) := Filing(first.upstream, first.chain)];
    KeyIsShared(first.chain, second.chain);
    OnlyAll(second.upstream, second.minTvl, second.minApy);
  }
}
