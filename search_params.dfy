/**
 * The query of a URL as the ordered list of name/value pairs that `URLSearchParams` keeps,
 * with the operations the engine uses, each as section 6.2 of the WHATWG URL Standard
 * defines it: `delete`, `get`, `set` and `keys`.
 */
module SearchParams {
  import opened Options

  datatype Param = Param(name: string, value: string)

  /** The names that occur in a query. */
  function Names(q: seq<Param>): set<string> {
    set p | p in q :: p.name
  }

  /** No name occurs twice. */
  predicate DistinctNames(q: seq<Param>) {
    forall i, j :: 0 <= i < j < |q| ==> q[i].name != q[j].name
  }

  /** `searchParams.keys()`: the names in order, repetitions included. */
  function Keys(q: seq<Param>): (r: seq<string>)
    ensures |r| == |q|
    ensures forall k :: 0 <= k < |q| ==> r[k] == q[k].name
  {
    if q == [] then [] else [q[0].name] + Keys(q[1..])
  }

  /** The pairs of `q` whose name is not listed in `names`, in their original order. */
  function Without(q: seq<Param>, names: seq<string>): (r: seq<Param>)
    ensures |r| <= |q|
    ensures forall p :: p in r <==> p in q && p.name !in names
  {
    if q == [] then []
    else if q[0].name in names then Without(q[1..], names)
    else [q[0]] + Without(q[1..], names)
  }

  /** `searchParams.delete(name)`: removes every pair with that name. */
  function Delete(q: seq<Param>, name: string): (r: seq<Param>)
    ensures forall p :: p in r <==> p in q && p.name != name
  {
    if q == [] then []
    else if q[0].name == name then Delete(q[1..], name)
    else [q[0]] + Delete(q[1..], name)
  }

  /** Deleting one more name is filtering by one more name. */
  lemma {:induction false} DeleteWithout(q: seq<Param>, names: seq<string>, name: string)
    ensures Delete(Without(q, names), name) == Without(q, names + [name])
  {
    if q != [] {
      DeleteWithout(q[1..], names, name);
    }
  }

  /** Filtering twice is filtering once by both lists. */
  lemma {:induction false} WithoutWithout(q: seq<Param>, first: seq<string>, second: seq<string>)
    ensures Without(Without(q, first), second) == Without(q, first + second)
  {
    if q != [] {
      WithoutWithout(q[1..], first, second);
    }
  }

  /** Filtering by no name changes nothing. */
  lemma {:induction false} WithoutNothing(q: seq<Param>)
    ensures Without(q, []) == q
  {
    if q != [] {
      WithoutNothing(q[1..]);
    }
  }

  /** `ids.forEach(id => searchParams.delete(id))`. */
  method DeleteAll(q: seq<Param>, ids: seq<string>) returns (r: seq<Param>)
    ensures r == Without(q, ids)
    ensures forall p :: p in r ==> p in q && p.name !in ids
  {
    r := q;
    WithoutNothing(q);
    assert ids[..0] == [];
    var i := 0;
    while i < |ids|
      invariant 0 <= i <= |ids|
      invariant r == Without(q, ids[..i])
    {
      DeleteWithout(q, ids[..i], ids[i]);
      assert ids[..i + 1] == ids[..i] + [ids[i]];
      r := Delete(r, ids[i]);
      i := i + 1;
    }
    assert ids[..i] == ids;
  }

  /**
   * Deleting the global identifiers and then those of the platform, skipped when it has none:
   * the pairs named in neither list stay, in order.
   */
  method DeleteIdentifiers(q: seq<Param>, globalIds: seq<string>, platformIds: seq<string>) returns (r: seq<Param>)
    ensures r == Without(q, globalIds + platformIds)
  {
    r := DeleteAll(q, globalIds);
    WithoutWithout(q, globalIds, platformIds);
    if platformIds != [] {
      r := DeleteAll(r, platformIds);
    } else {
      WithoutNothing(r);
    }
  }

  /** `searchParams.get(name)`: the value of the first pair with that name, if any. */
  function Get(q: seq<Param>, name: string): (r: Option<string>)
    ensures r.None? <==> name !in Names(q)
    ensures r.Some? ==> Param(name, r.value) in q
  {
    if q == [] then None
    else if q[0].name == name then Some(q[0].value)
    else
      assert q == [q[0]] + q[1..];
      Get(q[1..], name)
  }

  /** `get` answers with the value of the first pair carrying the name. */
  lemma {:induction false} GetIsFirst(q: seq<Param>, name: string, k: nat)
    requires k < |q| && q[k].name == name
    requires forall m :: 0 <= m < k ==> q[m].name != name
    ensures Get(q, name) == Some(q[k].value)
  {
    if k > 0 {
      GetIsFirst(q[1..], name, k - 1);
    }
  }

  /** Removing other names does not change which value `get` finds for a name. */
  lemma {:induction false} GetWithout(q: seq<Param>, names: seq<string>, name: string)
    requires name !in names
    ensures Get(Without(q, names), name) == Get(q, name)
  {
    if q != [] {
      GetWithout(q[1..], names, name);
    }
  }

  /** Replaces the value of the first pair named `name` and drops the later ones. */
  function ReplaceFirst(q: seq<Param>, name: string, value: string): (r: seq<Param>)
    requires name in Names(q)
    ensures forall p :: p in r <==> p == Param(name, value) || (p in q && p.name != name)
  {
    assert q == [q[0]] + q[1..];
    if q[0].name == name then [Param(name, value)] + Delete(q[1..], name)
    else [q[0]] + ReplaceFirst(q[1..], name, value)
  }

  /** The position of the first pair carrying `name`. */
  function FirstWith(q: seq<Param>, name: string): (k: nat)
    requires name in Names(q)
    ensures k < |q| && q[k].name == name
    ensures forall m :: 0 <= m < k ==> q[m].name != name
  {
    assert q == [q[0]] + q[1..];
    if q[0].name == name then 0
    else
      assert name in Names(q[1..]);
      1 + FirstWith(q[1..], name)
  }

  /** Putting an element in front of a spliced sequence moves the splice point by one. */
  lemma ConsSplice<T>(x: T, tail: seq<T>, k: nat, mid: seq<T>, rest: seq<T>)
    requires k <= |tail|
    ensures [x] + (tail[..k] + mid + rest) == ([x] + tail)[..k + 1] + mid + rest
  {
    assert ([x] + tail)[..k + 1] == [x] + tail[..k];
  }

  /**
   * The replacement happens at the first pair carrying the name: the pairs before it are
   * kept, it gets the new value, and after it only the pairs with other names remain.
   */
  lemma {:induction false} ReplaceFirstAt(q: seq<Param>, name: string, value: string)
    requires name in Names(q)
    ensures var k := FirstWith(q, name);
      ReplaceFirst(q, name, value) == q[..k] + [Param(name, value)] + Delete(q[k + 1..], name)
  {
    assert q == [q[0]] + q[1..];
    if q[0].name != name {
      var tail := q[1..];
      assert name in Names(tail);
      ReplaceFirstAt(tail, name, value);
      var k := FirstWith(tail, name);
      assert q[k + 2..] == tail[k + 1..];
      ConsSplice(q[0], tail, k, [Param(name, value)], Delete(tail[k + 1..], name));
    }
  }

  /** Putting a pair with a fresh name in front of a query with distinct names keeps them distinct. */
  lemma DistinctCons(p: Param, q: seq<Param>)
    requires DistinctNames(q) && forall x :: x in q ==> x.name != p.name
    ensures DistinctNames([p] + q)
  {
    var r := [p] + q;
    forall i, j | 0 <= i < j < |r| ensures r[i].name != r[j].name {
      if i == 0 {
        assert r[j] == q[j - 1] && q[j - 1] in q;
      } else {
        assert r[i] == q[i - 1] && r[j] == q[j - 1];
      }
    }
  }

  /** After a replacement the name occurs once, so no name is repeated that was not before. */
  lemma {:induction false} ReplaceFirstDistinct(q: seq<Param>, name: string, value: string)
    requires name in Names(q) && DistinctNames(q)
    ensures DistinctNames(ReplaceFirst(q, name, value))
  {
    var tail := q[1..];
    assert DistinctNames(tail) by {
      forall i, j | 0 <= i < j < |tail| ensures tail[i].name != tail[j].name {
        assert tail[i] == q[i + 1] && tail[j] == q[j + 1];
      }
    }
    assert forall x :: x in tail ==> x.name != q[0].name by {
      forall x | x in tail ensures x.name != q[0].name {
        var m :| 0 <= m < |tail| && tail[m] == x;
        assert q[m + 1] == x;
      }
    }
    assert q == [q[0]] + tail;
    if q[0].name == name {
      DeleteUnnamed(tail, name);
      DistinctCons(Param(name, value), tail);
    } else {
      assert name in Names(tail);
      ReplaceFirstDistinct(tail, name, value);
      DistinctCons(q[0], ReplaceFirst(tail, name, value));
    }
  }

  /** Deleting a name that does not occur changes nothing. */
  lemma {:induction false} DeleteUnnamed(q: seq<Param>, name: string)
    requires forall p :: p in q ==> p.name != name
    ensures Delete(q, name) == q
  {
    if q != [] {
      DeleteUnnamed(q[1..], name);
    }
  }

  /**
   * `searchParams.set(name, value)`: afterwards exactly one pair carries `name`, with `value`;
   * every pair with another name is kept, in order. A new name is appended; an existing one
   * keeps the place of its first pair, whose value is replaced, and its later pairs go.
   */
  function Set(q: seq<Param>, name: string, value: string): (r: seq<Param>)
    ensures Param(name, value) in r
    ensures forall p :: p in r && p.name == name ==> p.value == value
    ensures forall p: Param :: p.name != name ==> (p in r <==> p in q)
    ensures Names(r) == Names(q) + {name}
    ensures DistinctNames(q) ==> DistinctNames(r)
    ensures name !in Names(q) ==> r == q + [Param(name, value)]
    ensures name in Names(q) ==> var k := FirstWith(q, name);
      r == q[..k] + [Param(name, value)] + Delete(q[k + 1..], name)
  {
    if name in Names(q) then
      ReplaceFirstAt(q, name, value);
      if DistinctNames(q) then ReplaceFirstDistinct(q, name, value); ReplaceFirst(q, name, value)
      else ReplaceFirst(q, name, value)
    else q + [Param(name, value)]
  }

}
