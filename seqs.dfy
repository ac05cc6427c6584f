/** Small generic helpers over sequences: optional values, filtering and sub-lists. */
module Seqs {

  /** A value that may be absent (`undefined` / `null` on the JavaScript side). */
  datatype Option<T> = None | Some(value: T) {
    function GetOr(default: T): T {
      if Some? then value else default
    }
  }

  /** One property of an object spread `{ ...existing, ...patch }`: the patch's value when it has the key. */
  function Pick<T>(patch: Option<T>, existing: T): (r: T)
    ensures patch.Some? ==> r == patch.value
    ensures patch.None? ==> r == existing
  {
    if patch.Some? then patch.value else existing
  }

  /** `r` can be obtained from `s` by deleting elements, keeping the order of the rest. */
  predicate IsSublist<T(==)>(r: seq<T>, s: seq<T>)
    decreases |s|
  {
    if r == [] then true
    else if s == [] then false
    else if r[0] == s[0] then IsSublist(r[1..], s[1..])
    else IsSublist(r, s[1..])
  }

  /** `Array.prototype.filter`: the elements of `s` that satisfy `p`, in their order. */
  function Filter<T(==)>(s: seq<T>, p: T -> bool): (r: seq<T>)
    ensures |r| <= |s|
    ensures forall i :: 0 <= i < |r| ==> r[i] in s && p(r[i])
    ensures forall i :: 0 <= i < |s| && p(s[i]) ==> s[i] in r
    ensures IsSublist(r, s)
  {
    if s == [] then []
    else if p(s[0]) then [s[0]] + Filter(s[1..], p)
    else
      var rest := Filter(s[1..], p);
      assert rest != [] ==> p(rest[0]) && rest[0] != s[0];
      rest
  }

  /** Filtering commutes with concatenation: the filter keeps the relative order of its input. */
  lemma {:induction false} FilterConcat<T>(a: seq<T>, b: seq<T>, p: T -> bool)
    ensures Filter(a + b, p) == Filter(a, p) + Filter(b, p)
  {
    if a != [] {
      assert (a + b)[0] == a[0] && (a + b)[1..] == a[1..] + b;
      FilterConcat(a[1..], b, p);
      if p(a[0]) {
        assert [a[0]] + (Filter(a[1..], p) + Filter(b, p)) == ([a[0]] + Filter(a[1..], p)) + Filter(b, p);
      }
    } else {
      assert a + b == b;
    }
  }

  /** Two predicates that agree on every element of `s` select the same sub-list. */
  lemma {:induction false} FilterCongruent<T>(s: seq<T>, p: T -> bool, q: T -> bool)
    requires forall x :: x in s ==> p(x) == q(x)
    ensures Filter(s, p) == Filter(s, q)
  {
    if s != [] {
      FilterCongruent(s[1..], p, q);
    }
  }

  /** A filter whose predicate holds everywhere on `s` returns `s` itself. */
  lemma {:induction false} FilterAll<T>(s: seq<T>, p: T -> bool)
    requires forall x :: x in s ==> p(x)
    ensures Filter(s, p) == s
  {
    if s != [] {
      FilterAll(s[1..], p);
    }
  }

  /** `s` has no repeated element. */
  predicate NoDuplicates<T(==)>(s: seq<T>) {
    forall i, j :: 0 <= i < j < |s| ==> s[i] != s[j]
  }

  /** `t` starts with `prefix` (`String.prototype.startsWith`). */
  predicate StartsWith<T(==)>(t: seq<T>, prefix: seq<T>) {
    |prefix| <= |t| && t[..|prefix|] == prefix
  }

  /** `sub` occurs somewhere in `t` as a contiguous block (`String.prototype.includes`). */
  predicate Includes<T(==)>(t: seq<T>, sub: seq<T>)
    decreases |t|
  {
    StartsWith(t, sub) || (t != [] && Includes(t[1..], sub))
  }
}
