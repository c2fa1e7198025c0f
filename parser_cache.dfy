/**
 * The expression cache kept by jmespath's Parser: parse results keyed by the
 * expression text, at most MaxSize of them, with half of the entries dropped
 * (an arbitrary half) whenever an insertion takes the cache over its bound.
 *
 * Parsing itself (the lexer and the LALR engine driving the Grammar actions)
 * is a parameter of the model: `engine` maps an expression to the tree the
 * grammar builds or to the error it raises.
 */
module ParserCache {
  import opened Ast
  import opened Wrappers

  /** What the cache stores: the expression text and its parsed tree. */
  datatype ParsedResult = ParsedResult(expression: string, parsed: Node)

  /** The bound on the number of cached expressions. */
  const MaxSize: nat := 64

  /** The number of entries one eviction removes: int(_max_size / 2). */
  const EvictCount: nat := MaxSize / 2

  /** No element of `s` occurs twice. */
  predicate Distinct(s: seq<string>) {
    forall i, j | 0 <= i < j < |s| :: s[i] != s[j]
  }

  /** The set of elements of `s`. */
  function Elements(s: seq<string>): (r: set<string>)
    ensures forall x :: x in r <==> x in s
  {
    set x | x in s
  }

  /** A sequence without repetitions has as many elements as its length. */
  lemma {:induction false} DistinctElements(s: seq<string>)
    requires Distinct(s)
    ensures |Elements(s)| == |s|
  {
    if s != [] {
      DistinctElements(s[1..]);
      assert Elements(s) == {s[0]} + Elements(s[1..]);
      assert s[0] !in Elements(s[1..]) by {
        forall i | 0 <= i < |s[1..]| ensures s[1..][i] != s[0] {
          assert s[1..][i] == s[i + 1];
        }
      }
    }
  }

  /**
   * A sample of k distinct members of a set exists whenever the set has at
   * least k members: the choice random.sample makes is always possible.
   */
  lemma {:induction false} SampleExists(s: set<string>, k: nat) returns (sample: seq<string>)
    requires k <= |s|
    ensures |sample| == k && Distinct(sample)
    ensures forall i | 0 <= i < |sample| :: sample[i] in s
  {
    if k == 0 {
      sample := [];
    } else {
      var x :| x in s;
      var rest := SampleExists(s - {x}, k - 1);
      sample := [x] + rest;
      forall i, j | 0 <= i < j < |sample| ensures sample[i] != sample[j] {
        assert sample[j] == rest[j - 1];
        if i > 0 {
          assert sample[i] == rest[i - 1];
        }
      }
      forall i | 0 <= i < |sample| ensures sample[i] in s {
        if i > 0 {
          assert sample[i] == rest[i - 1];
        }
      }
    }
  }

  /** m keeps a subset of the keys of n, each with its value in n. */
  predicate SubMap(m: map<string, ParsedResult>, n: map<string, ParsedResult>) {
    m.Keys <= n.Keys && forall k | k in m :: m[k] == n[k]
  }

  /** The Parser class with its class-level cache. */
  class Parser {
    /** The class-level _cache dictionary. */
    var cache: map<string, ParsedResult>
    /** Lexing and parsing an expression without the cache. */
    const engine: string -> Result<Node, Error>

    /**
     * The reference `Parse` is measured against: the result of lexing and
     * parsing `expression` from scratch, without the cache (lines 293-303).
     * `Valid` requires every cached entry to equal it, and `Parse` is
     * proved to return it on every path.
     */
    function FreshParse(expression: string): (r: Result<ParsedResult, Error>)
      ensures r.Success? <==> engine(expression).Success?
      ensures r.Success? ==> r.value.expression == expression && r.value.parsed == engine(expression).value
      ensures r.Failure? ==> r.error == engine(expression).error
    {
      match engine(expression)
      case Success(tree) => Success(ParsedResult(expression, tree))
      case Failure(e) => Failure(e)
    }

    /** The cache is within its bound and holds only fresh-parse results. */
    ghost predicate Valid()
      reads this
    {
      && |cache| <= MaxSize
      && forall e | e in cache :: FreshParse(e) == Success(cache[e])
    }

    /** An empty cache in front of the given parsing engine. */
    constructor (engine: string -> Result<Node, Error>)
      ensures this.engine == engine && cache == map[]
      ensures Valid()
    {
      this.engine := engine;
      cache := map[];
    }

    /**
     * Parse: return the cached result when there is one, otherwise parse,
     * store the result and free entries once the cache is over its bound.
     * Whatever path is taken, the answer is the fresh parse's.
     */
    method Parse(expression: string) returns (r: Result<ParsedResult, Error>)
      requires Valid()
      modifies this
      ensures Valid()
      ensures r == FreshParse(expression)
      ensures expression in old(cache) ==> cache == old(cache)
      ensures expression !in old(cache) && r.Failure? ==> cache == old(cache)
      ensures expression !in old(cache) && r.Success? && |old(cache)| < MaxSize ==>
        cache == old(cache)[expression := r.value]
      ensures expression !in old(cache) && r.Success? && |old(cache)| == MaxSize ==>
        SubMap(cache, old(cache)[expression := r.value]) && |cache| == MaxSize + 1 - EvictCount
    {
      if expression in cache {
        return Success(cache[expression]);
      }
      var parsed := engine(expression);
      if parsed.Failure? {
        return Failure(parsed.error);
      }
      var result := ParsedResult(expression, parsed.value);
      cache := cache[expression := result];
      if |cache| > MaxSize {
        FreeCacheEntries();
      }
      r := Success(result);
    }

    /**
     * _free_cache_entries: delete EvictCount distinct keys, chosen
     * arbitrarily. Only called with more than MaxSize entries, so the
     * sample always exists.
     */
    method FreeCacheEntries()
      requires EvictCount <= |cache|
      modifies this
      ensures SubMap(cache, old(cache))
      ensures |cache| == |old(cache)| - EvictCount
    {
      var population := cache.Keys;
      var _ := SampleExists(population, EvictCount);
      var victims: seq<string> :| |victims| == EvictCount && Distinct(victims)
        && forall i | 0 <= i < |victims| :: victims[i] in population;
      for i := 0 to |victims|
        invariant cache.Keys == old(cache).Keys - Elements(victims[..i])
        invariant forall k | k in cache :: cache[k] == old(cache)[k]
      {
        assert victims[..i + 1] == victims[..i] + [victims[i]];
        cache := cache - {victims[i]};
      }
      assert victims[..|victims|] == victims;
      DistinctElements(victims);
      assert Elements(victims) <= old(cache).Keys;
    }

    /** purge: clear the cache. */
    method Purge()
      modifies this
      ensures cache == map[]
    {
      cache := map[];
    }
  }
}
