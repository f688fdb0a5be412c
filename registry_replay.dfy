/** Properties of the registry over a run of lookups with a fixed handler:
    every lookup returns what resolution would, a successfully resolved target
    is parsed at most once, and a malformed policy faults on every lookup
    because a fault is never cached. */
module RegistryReplay {
  import opened Wrappers
  import opened Collaborators
  import opened PreAuthorize

  /** The attributes returned, the parser calls made by each lookup, and the
      cache left behind by the lookups of `keys`, in order. */
  datatype Replay = Replay(
    results: seq<Result<ExpressionAttribute, Fault>>,
    parses: seq<nat>,
    cache: map<MethodClassKey, ExpressionAttribute>)

  function LookupAll(meta: Metadata, handler: MethodSecurityExpressionHandler,
                     cache: map<MethodClassKey, ExpressionAttribute>, keys: seq<MethodClassKey>): (r: Replay)
    ensures |r.results| == |r.parses| == |keys|
    decreases |keys|
  {
    if keys == [] then
      Replay([], [], cache)
    else
      var first := RegistryLookup(meta, handler, cache, keys[0]);
      var rest := LookupAll(meta, handler, first.cache, keys[1..]);
      Replay([first.attribute] + rest.results, [first.parses] + rest.parses, rest.cache)
  }

  /** Over a consistent cache, every lookup in the run returns exactly what
      resolution of its key returns, so all lookups of one target agree; the
      cache left behind is consistent too. */
  lemma {:induction false} LookupAllAgreesWithResolution(meta: Metadata, handler: MethodSecurityExpressionHandler,
                                                         cache: map<MethodClassKey, ExpressionAttribute>,
                                                         keys: seq<MethodClassKey>)
    requires Consistent(meta, handler, cache)
    ensures var r := LookupAll(meta, handler, cache, keys);
            && Consistent(meta, handler, r.cache)
            && forall i :: 0 <= i < |keys| ==>
                 r.results[i] == ResolveAttribute(meta, handler, keys[i].keyMethod, keys[i].targetClass)
    decreases |keys|
  {
    if keys != [] {
      var first := RegistryLookup(meta, handler, cache, keys[0]);
      LookupIsTransparent(meta, handler, cache, keys[0]);
      LookupAllAgreesWithResolution(meta, handler, first.cache, keys[1..]);
      var r := LookupAll(meta, handler, cache, keys);
      forall i | 0 <= i < |keys|
        ensures r.results[i] == ResolveAttribute(meta, handler, keys[i].keyMethod, keys[i].targetClass)
      {
        if i > 0 {
          assert keys[i] == keys[1..][i - 1];
        }
      }
    }
  }

  /** Entries are never evicted or replaced during a run. */
  lemma {:induction false} CacheOnlyGrows(meta: Metadata, handler: MethodSecurityExpressionHandler,
                                          cache: map<MethodClassKey, ExpressionAttribute>,
                                          keys: seq<MethodClassKey>, k: MethodClassKey)
    requires k in cache
    ensures var r := LookupAll(meta, handler, cache, keys);
            k in r.cache && r.cache[k] == cache[k]
    decreases |keys|
  {
    if keys != [] {
      var first := RegistryLookup(meta, handler, cache, keys[0]);
      CacheOnlyGrows(meta, handler, first.cache, keys[1..], k);
    }
  }

  /** A target already in the cache is never parsed again, and every lookup of
      it returns the cached attribute. */
  lemma {:induction false} CachedTargetNeverReparsed(meta: Metadata, handler: MethodSecurityExpressionHandler,
                                                     cache: map<MethodClassKey, ExpressionAttribute>,
                                                     keys: seq<MethodClassKey>, k: MethodClassKey)
    requires k in cache
    ensures var r := LookupAll(meta, handler, cache, keys);
            forall i :: 0 <= i < |keys| && keys[i] == k ==> r.parses[i] == 0 && r.results[i] == Success(cache[k])
    decreases |keys|
  {
    if keys != [] {
      var first := RegistryLookup(meta, handler, cache, keys[0]);
      CachedTargetNeverReparsed(meta, handler, first.cache, keys[1..], k);
      var r := LookupAll(meta, handler, cache, keys);
      forall i | 0 <= i < |keys| && keys[i] == k
        ensures r.parses[i] == 0 && r.results[i] == Success(cache[k])
      {
        if i > 0 {
          assert keys[1..][i - 1] == k;
        }
      }
    }
  }

  /** A target whose policy resolves successfully is parsed by at most one
      lookup of the run: every later lookup of it is a cache hit. */
  lemma {:induction false} ParsedAtMostOnce(meta: Metadata, handler: MethodSecurityExpressionHandler,
                                            cache: map<MethodClassKey, ExpressionAttribute>,
                                            keys: seq<MethodClassKey>, k: MethodClassKey)
    requires ResolveAttribute(meta, handler, k.keyMethod, k.targetClass).Success?
    ensures var r := LookupAll(meta, handler, cache, keys);
            forall i, j :: 0 <= i < j < |keys| && keys[i] == k && keys[j] == k ==> r.parses[j] == 0
    decreases |keys|
  {
    if keys != [] {
      var first := RegistryLookup(meta, handler, cache, keys[0]);
      var rest := LookupAll(meta, handler, first.cache, keys[1..]);
      var r := LookupAll(meta, handler, cache, keys);
      if keys[0] == k {
        CachedTargetNeverReparsed(meta, handler, first.cache, keys[1..], k);
      }
      ParsedAtMostOnce(meta, handler, first.cache, keys[1..], k);
      forall i, j | 0 <= i < j < |keys| && keys[i] == k && keys[j] == k
        ensures r.parses[j] == 0
      {
        assert r.parses[j] == rest.parses[j - 1];
        assert keys[1..][j - 1] == k;
        if i > 0 {
          assert keys[1..][i - 1] == k;
        }
      }
    }
  }

  /** A malformed policy is never cached: every lookup of its target calls the
      parser again and surfaces the parse fault. */
  lemma {:induction false} MalformedPolicyFaultsEveryTime(meta: Metadata, handler: MethodSecurityExpressionHandler,
                                                          cache: map<MethodClassKey, ExpressionAttribute>,
                                                          keys: seq<MethodClassKey>, k: MethodClassKey)
    requires k !in cache
    requires ResolveAttribute(meta, handler, k.keyMethod, k.targetClass).Failure?
    ensures var r := LookupAll(meta, handler, cache, keys);
            && k !in r.cache
            && forall i :: 0 <= i < |keys| && keys[i] == k ==>
                 r.results[i] == ResolveAttribute(meta, handler, k.keyMethod, k.targetClass)
                 && r.results[i].error.ParseFault? && r.parses[i] == 1
    decreases |keys|
  {
    if keys != [] {
      var first := RegistryLookup(meta, handler, cache, keys[0]);
      MalformedPolicyFaultsEveryTime(meta, handler, first.cache, keys[1..], k);
      var r := LookupAll(meta, handler, cache, keys);
      forall i | 0 <= i < |keys| && keys[i] == k
        ensures r.results[i] == ResolveAttribute(meta, handler, k.keyMethod, k.targetClass)
                && r.results[i].error.ParseFault? && r.parses[i] == 1
      {
        if i > 0 {
          assert keys[1..][i - 1] == k;
        }
      }
    }
  }
}
