/** The browser's `URLSearchParams` as the pages use it: an ordered list of
    name/value pairs, read with `get` and written with `set`. */
module SearchParams {
  import opened Common

  datatype Param = Param(name: string, value: string)

  type Params = seq<Param>

  predicate Has(ps: Params, name: string) {
    exists i :: 0 <= i < |ps| && ps[i].name == name
  }

  /** `params.get(name)`: the value of the first pair with that name. */
  function Get(ps: Params, name: string): (r: Option<string>)
    ensures r.None? <==> !Has(ps, name)
    ensures r.Some? ==> exists i :: 0 <= i < |ps| && ps[i] == Param(name, r.value) && forall j :: 0 <= j < i ==> ps[j].name != name
  {
    if ps == [] then None
    else if ps[0].name == name then Some(ps[0].value)
    else
      var r := Get(ps[1..], name);
      assert forall i :: 1 <= i < |ps| ==> ps[i] == ps[1..][i - 1];
      r
  }

  /** Drops every pair with the given name. */
  function Without(ps: Params, name: string): (r: Params)
    ensures |r| <= |ps| && !Has(r, name)
  {
    if ps == [] then []
    else (if ps[0].name == name then [] else [ps[0]]) + Without(ps[1..], name)
  }

  /** `params.set(name, value)`: the first pair with that name takes the
      value in place and later pairs with that name are removed; when there is
      none, the pair is appended. */
  function Set(ps: Params, name: string, value: string): (r: Params)
  {
    if ps == [] then [Param(name, value)]
    else if ps[0].name == name then [Param(name, value)] + Without(ps[1..], name)
    else [ps[0]] + Set(ps[1..], name, value)
  }

  /** After `set`, `get` of that name gives the new value. */
  lemma {:induction false} GetAfterSet(ps: Params, name: string, value: string)
    ensures Get(Set(ps, name, value), name) == Some(value)
  {
    if ps != [] && ps[0].name != name {
      GetAfterSet(ps[1..], name, value);
    }
  }

  /** After `set`, every other name reads as before. */
  lemma {:induction false} GetOtherAfterSet(ps: Params, name: string, value: string, other: string)
    requires other != name
    ensures Get(Set(ps, name, value), other) == Get(ps, other)
  {
    if ps != [] && ps[0].name != name {
      GetOtherAfterSet(ps[1..], name, value, other);
    } else if ps != [] {
      WithoutKeepsOthers(ps[1..], name, other);
    }
  }

  lemma {:induction false} WithoutKeepsOthers(ps: Params, name: string, other: string)
    requires other != name
    ensures Get(Without(ps, name), other) == Get(ps, other)
  {
    if ps != [] {
      WithoutKeepsOthers(ps[1..], name, other);
      var rest := Without(ps[1..], name);
      if ps[0].name != name {
        assert Without(ps, name) == [ps[0]] + rest;
        GetCons(ps[0], rest, other);
      } else {
        assert Without(ps, name) == [] + rest == rest;
      }
    }
  }

  /** Looking up past a leading pair of another name. */
  lemma GetCons(p: Param, rest: Params, name: string)
    ensures Get([p] + rest, name) == if p.name == name then Some(p.value) else Get(rest, name)
  {
    assert ([p] + rest)[1..] == rest;
  }

  /** `set` keeps the pairs of every other name, in their order, and the
      result holds the pair it sets. */
  lemma {:induction false} SetKeepsOtherPairs(ps: Params, name: string, value: string)
    ensures Without(Set(ps, name, value), name) == Without(ps, name)
    ensures Set(ps, name, value) != [] && exists i :: 0 <= i < |Set(ps, name, value)| && Set(ps, name, value)[i] == Param(name, value)
  {
    var r := Set(ps, name, value);
    if ps == [] {
      assert r[0] == Param(name, value);
    } else if ps[0].name == name {
      WithoutIdempotent(ps[1..], name);
      assert r[0] == Param(name, value);
    } else {
      SetKeepsOtherPairs(ps[1..], name, value);
      var i :| 0 <= i < |Set(ps[1..], name, value)| && Set(ps[1..], name, value)[i] == Param(name, value);
      assert r[i + 1] == Param(name, value);
    }
  }

  lemma {:induction false} WithoutIdempotent(ps: Params, name: string)
    ensures Without(Without(ps, name), name) == Without(ps, name)
  {
    if ps != [] {
      WithoutIdempotent(ps[1..], name);
      var rest := Without(ps[1..], name);
      if ps[0].name != name {
        var w := [ps[0]] + rest;
        assert Without(ps, name) == w;
        assert w[0] == ps[0] && w[1..] == rest;
        assert Without(w, name) == [w[0]] + Without(w[1..], name);
      } else {
        assert Without(ps, name) == [] + rest == rest;
      }
    }
  }
}
