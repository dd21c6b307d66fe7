/**
 * The name -> list-of-values maps that the translation accumulates into:
 * Go's `url.Values` (the query) and `http.Header` (the outbound headers).
 * Both are `map[string][]string` and both are filled with `Add`, which
 * appends one value to the list kept under a name.  Header-name
 * canonicalisation done by `http.Header.Add` is not modelled: names are
 * kept exactly as given.
 */
module Multimap {

  /** A multimap never holds an empty list: `Add` only ever creates a
      name together with its first value, and a header parsed from the
      wire carries at least one value. */
  type Multimap = m: map<string, seq<string>> | NoEmptyList(m)
    witness map[]

  predicate NoEmptyList(m: map<string, seq<string>>)
  {
    forall n :: n in m ==> m[n] != []
  }

  /** One (name, value) occurrence, the argument of one `Add` call. */
  type Pair = (string, string)

  /** All values kept under `name`, empty when the name is absent. */
  function Values(m: Multimap, name: string): (vs: seq<string>)
    ensures name in m <==> vs != []
  {
    if name in m then m[name] else []
  }

  /** `Add`: append `value` to the list kept under `name`. */
  function Add(m: Multimap, name: string, value: string): Multimap
  {
    m[name := Values(m, name) + [value]]
  }

  /** `Add` extends the list under its name by one value and leaves every
      other name as it was. */
  lemma AddValues(m: Multimap, name: string, value: string)
    ensures Values(Add(m, name, value), name) == Values(m, name) + [value]
    ensures forall n :: n != name ==> Values(Add(m, name, value), n) == Values(m, n)
    ensures Add(m, name, value).Keys == m.Keys + {name}
  {
  }

  /** Two multimaps that hold the same values under every name are equal. */
  lemma Extensionality(a: Multimap, b: Multimap)
    requires forall n :: Values(a, n) == Values(b, n)
    ensures a == b
  {
    assert a.Keys == b.Keys by {
      forall n ensures n in a <==> n in b {
        assert Values(a, n) == Values(b, n);
      }
    }
    forall n | n in a ensures a[n] == b[n] {
      assert Values(a, n) == Values(b, n);
    }
  }

  /** The values that a sequence of occurrences gives to `name`, in order. */
  function Project(ps: seq<Pair>, name: string): (vs: seq<string>)
    ensures |vs| <= |ps|
  {
    if ps == [] then []
    else Project(ps[..|ps| - 1], name) + (if ps[|ps| - 1].0 == name then [ps[|ps| - 1].1] else [])
  }

  /** The names that occur in a sequence of occurrences. */
  function Names(ps: seq<Pair>): set<string>
  {
    set i | 0 <= i < |ps| :: ps[i].0
  }

  lemma {:induction false} ProjectAppend(a: seq<Pair>, b: seq<Pair>, name: string)
    ensures Project(a + b, name) == Project(a, name) + Project(b, name)
    decreases |b|
  {
    if b == [] {
      assert a + b == a;
    } else {
      var last := b[|b| - 1];
      assert (a + b)[..|a + b| - 1] == a + b[..|b| - 1];
      ProjectAppend(a, b[..|b| - 1], name);
    }
  }

  /** The values of three runs of occurrences one after the other. */
  lemma ProjectThree(a: seq<Pair>, b: seq<Pair>, c: seq<Pair>, name: string)
    ensures Project(a + b + c, name) == Project(a, name) + Project(b, name) + Project(c, name)
  {
    ProjectAppend(a + b, c, name);
    ProjectAppend(a, b, name);
  }

  /** A run of at most one occurrence gives its value to its own name only. */
  lemma ProjectSingle(p: Pair, name: string)
    ensures Project([p], name) == if p.0 == name then [p.1] else []
  {
    assert [p][..0] == [];
  }

  /** A name gets a value from a sequence of occurrences exactly when it occurs in it. */
  lemma {:induction false} ProjectNonEmpty(ps: seq<Pair>, name: string)
    ensures Project(ps, name) != [] <==> name in Names(ps)
    decreases |ps|
  {
    if ps != [] {
      var init := ps[..|ps| - 1];
      ProjectNonEmpty(init, name);
      assert Names(ps) == Names(init) + {ps[|ps| - 1].0} by {
        forall n ensures n in Names(ps) <==> n in Names(init) + {ps[|ps| - 1].0} {
          if n in Names(ps) {
            var i :| 0 <= i < |ps| && ps[i].0 == n;
            if i < |ps| - 1 { assert init[i] == ps[i]; }
          }
          if n in Names(init) {
            var i :| 0 <= i < |init| && init[i].0 == n;
            assert ps[i] == init[i];
          }
        }
      }
    }
  }

  /** A name that no occurrence carries gets no value. */
  lemma {:induction false} ProjectAbsent(ps: seq<Pair>, name: string)
    requires forall i :: 0 <= i < |ps| ==> ps[i].0 != name
    ensures Project(ps, name) == []
    decreases |ps|
  {
    if ps != [] {
      ProjectAbsent(ps[..|ps| - 1], name);
    }
  }

  /** A name carried by exactly one occurrence gets exactly that
      occurrence's value. */
  lemma {:induction false} ProjectUnique(ps: seq<Pair>, k: nat, name: string)
    requires k < |ps| && ps[k].0 == name
    requires forall i :: 0 <= i < |ps| && i != k ==> ps[i].0 != name
    ensures Project(ps, name) == [ps[k].1]
    decreases |ps|
  {
    var init := ps[..|ps| - 1];
    if k == |ps| - 1 {
      ProjectAbsent(init, name);
    } else {
      ProjectUnique(init, k, name);
    }
  }

  /** The effect of `Add`-ing each occurrence of `ps` in turn. */
  function AddAll(m: Multimap, ps: seq<Pair>): (r: Multimap)
  {
    if ps == [] then m
    else Add(AddAll(m, ps[..|ps| - 1]), ps[|ps| - 1].0, ps[|ps| - 1].1)
  }

  /** Adding a sequence of occurrences appends, under every name, that
      name's values from the sequence in their order. */
  lemma {:induction false} AddAllValues(m: Multimap, ps: seq<Pair>, n: string)
    ensures Values(AddAll(m, ps), n) == Values(m, n) + Project(ps, n)
    decreases |ps|
  {
    if ps != [] {
      var init, last := ps[..|ps| - 1], ps[|ps| - 1];
      AddAllValues(m, init, n);
      var prev := AddAll(m, init);
      var r := Add(prev, last.0, last.1);
      AddValues(prev, last.0, last.1);
      assert AddAll(m, ps) == r;
      assert Project(ps, n) == Project(init, n) + (if last.0 == n then [last.1] else []);
      var extra := if last.0 == n then [last.1] else [];
      assert Values(r, n) == Values(prev, n) + extra;
      assert Values(m, n) + Project(init, n) + extra == Values(m, n) + (Project(init, n) + extra);
    } else {
      assert Values(m, n) + [] == Values(m, n);
    }
  }

  /** ... and adds no name that is not among the occurrences. */
  lemma AddAllKeys(m: Multimap, ps: seq<Pair>)
    ensures AddAll(m, ps).Keys == m.Keys + Names(ps)
  {
    var r := AddAll(m, ps);
    forall n ensures n in r <==> n in m || n in Names(ps) {
      ProjectNonEmpty(ps, n);
      AddAllValues(m, ps, n);
    }
  }

  /** Adding occurrences one at a time extends `AddAll` by one step. */
  lemma AddAllSnoc(m: Multimap, ps: seq<Pair>, p: Pair)
    ensures AddAll(m, ps + [p]) == Add(AddAll(m, ps), p.0, p.1)
  {
    assert (ps + [p])[..|ps + [p]| - 1] == ps;
  }

  /** Adding `a` and then `b` is adding `a + b`. */
  lemma {:induction false} AddAllAppend(m: Multimap, a: seq<Pair>, b: seq<Pair>)
    ensures AddAll(m, a + b) == AddAll(AddAll(m, a), b)
    decreases |b|
  {
    if b == [] {
      assert a + b == a;
    } else {
      var init, last := b[..|b| - 1], b[|b| - 1];
      assert a + b == (a + init) + [last];
      AddAllSnoc(m, a + init, last);
      AddAllSnoc(AddAll(m, a), init, last);
      assert init + [last] == b;
      AddAllAppend(m, a, init);
    }
  }
}
