/**
 * The step both copies of `generateResultsList` run for one subset of parameter names:
 * start from an empty query (`combinationUrl.search = ""`) and, for each name of the subset,
 * `set` it to its first value in the scrubbed query when that value is non-empty.
 */
module Combinations {
  import opened Options
  import opened SearchParams

  /** The name has a first value in `source`, and that value is not the empty string. */
  predicate HasNonEmptyValue(source: seq<Param>, name: string) {
    Get(source, name).Some? && Get(source, name).value != ""
  }

  /** The query after handling the names of `combination` in order. */
  function CombinationQuery(source: seq<Param>, combination: seq<string>): seq<Param> {
    if combination == [] then []
    else
      var q := CombinationQuery(source, combination[..|combination| - 1]);
      var name := combination[|combination| - 1];
      if HasNonEmptyValue(source, name) then Set(q, name, Get(source, name).value) else q
  }

  /**
   * The query keeps exactly the subset's names that have a non-empty value, once each, with
   * their first value in `source`; nothing outside the subset and nothing absent from `source`
   * gets in.
   */
  lemma {:induction false} CombinationQueryKeeps(source: seq<Param>, combination: seq<string>)
    ensures var q := CombinationQuery(source, combination);
      && (forall p :: p in q ==>
            p.name in combination && p.value != "" && Get(source, p.name) == Some(p.value) && p in source)
      && (forall name :: name in Names(q) <==> name in combination && HasNonEmptyValue(source, name))
      && DistinctNames(q)
  {
    if combination != [] {
      var front := combination[..|combination| - 1];
      CombinationQueryKeeps(source, front);
      assert combination == front + [combination[|combination| - 1]];
    }
  }

  /** Builds the query for one subset, name by name. */
  method BuildCombinationQuery(source: seq<Param>, combination: seq<string>) returns (q: seq<Param>)
    ensures q == CombinationQuery(source, combination)
  {
    q := [];
    var i := 0;
    while i < |combination|
      invariant 0 <= i <= |combination|
      invariant q == CombinationQuery(source, combination[..i])
    {
      var name := combination[i];
      assert combination[..i + 1][..i] == combination[..i];
      var originalValue := Get(source, name);
      if originalValue.Some? && originalValue.value != "" {
        q := Set(q, name, originalValue.value);
      }
      i := i + 1;
    }
    assert combination[..i] == combination;
  }

  /**
   * A candidate query: pairs of `source`, none named in `ids`, none with an empty value, no
   * name twice, each carrying its name's first value in `source`.
   */
  ghost predicate CleanQuery(source: seq<Param>, ids: seq<string>, q: seq<Param>) {
    && DistinctNames(q)
    && forall p :: p in q ==>
      p in source && p.name !in ids && p.value != "" && Get(source, p.name) == Some(p.value)
  }

  /** Every subset of the names left after deleting `ids` gives a clean query. */
  lemma CombinationQueryIsClean(source: seq<Param>, ids: seq<string>, combination: seq<string>)
    ensures CleanQuery(source, ids, CombinationQuery(Without(source, ids), combination))
  {
    var q := CombinationQuery(Without(source, ids), combination);
    CombinationQueryKeeps(Without(source, ids), combination);
    forall p | p in q ensures Get(source, p.name) == Some(p.value) {
      GetWithout(source, ids, p.name);
    }
  }

  /** A subset holding every name keeps exactly the names that have a non-empty value. */
  lemma FullCombinationKeeps(source: seq<Param>, combination: seq<string>, name: string)
    requires multiset(combination) == multiset(Keys(source))
    ensures name in Names(CombinationQuery(source, combination)) <==> HasNonEmptyValue(source, name)
  {
    CombinationQueryKeeps(source, combination);
    assert name in combination <==> name in multiset(Keys(source));
    if HasNonEmptyValue(source, name) {
      var k :| 0 <= k < |source| && source[k].name == name;
      assert Keys(source)[k] == name;
    }
  }

}
