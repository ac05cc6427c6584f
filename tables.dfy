/**
 * A JavaScript `Map<number, T>` keyed by record id, kept as the sequence of its
 * entries in insertion order (the order `Map.prototype.values()` yields them).
 */
module Tables {
  import opened Seqs

  datatype Row<T> = Row(id: int, data: T)

  /** The ids that a table built by counter-allocated inserts has: strictly ascending, in [1, next). */
  ghost predicate WellFormed<T>(t: seq<Row<T>>, next: int) {
    (forall i, j :: 0 <= i < j < |t| ==> t[i].id < t[j].id)
    && (forall i :: 0 <= i < |t| ==> 1 <= t[i].id < next)
  }

  /** `Map.prototype.get`. */
  function Get<T>(t: seq<Row<T>>, id: int): (r: Option<T>)
    ensures r.None? <==> forall i :: 0 <= i < |t| ==> t[i].id != id
    ensures r.Some? ==> exists i :: 0 <= i < |t| && t[i] == Row(id, r.value)
  {
    if t == [] then None
    else if t[0].id == id then Some(t[0].data)
    else
      var r := Get(t[1..], id);
      assert forall i :: 0 < i < |t| ==> t[i] == t[1..][i - 1];
      r
  }

  /** `Map.prototype.set`: replace the entry in place when the key is present, append it otherwise. */
  function Set<T>(t: seq<Row<T>>, id: int, v: T): (r: seq<Row<T>>)
    ensures Get(r, id) == Some(v)
    ensures forall k :: k != id ==> Get(r, k) == Get(t, k)
    ensures Get(t, id).None? ==> r == t + [Row(id, v)]
    ensures Get(t, id).Some? ==> |r| == |t| && forall i :: 0 <= i < |t| ==> r[i].id == t[i].id
  {
    if t == [] then [Row(id, v)]
    else if t[0].id == id then [Row(id, v)] + t[1..]
    else [t[0]] + Set(t[1..], id, v)
  }

  /** `Map.prototype.delete`: drop the entry with that key. */
  function Delete<T>(t: seq<Row<T>>, id: int): (r: seq<Row<T>>)
    ensures Get(r, id).None?
    ensures forall k :: k != id ==> Get(r, k) == Get(t, k)
    ensures |r| <= |t|
    ensures Get(t, id).None? ==> r == t
  {
    if t == [] then []
    else if t[0].id == id then Delete(t[1..], id)
    else [t[0]] + Delete(t[1..], id)
  }

  /** The ids of a table, in table order. */
  function Ids<T>(t: seq<Row<T>>): (r: seq<int>)
    ensures |r| == |t| && forall i :: 0 <= i < |t| ==> r[i] == t[i].id
  {
    if t == [] then [] else [t[0].id] + Ids(t[1..])
  }

  /** Deleting keeps the remaining entries in their order, so it keeps the ids ascending. */
  lemma {:induction false} DeleteKeepsOrder<T>(t: seq<Row<T>>, id: int)
    ensures IsSublist(Delete(t, id), t)
  {
    if t != [] {
      DeleteKeepsOrder(t[1..], id);
      var r := Delete(t, id);
      if t[0].id == id && r != [] {
        assert Get(r, r[0].id).Some?;
      }
    }
  }

  /** Every element of a sub-list occurs in the list, at non-decreasing positions. */
  lemma {:induction false} SublistIndices<T>(r: seq<T>, s: seq<T>, i: int, j: int)
    requires IsSublist(r, s) && 0 <= i < j < |r|
    ensures exists a, b :: 0 <= a < b < |s| && r[i] == s[a] && r[j] == s[b]
    decreases |s|
  {
    if r[0] == s[0] {
      if i == 0 {
        SublistMember(r[1..], s[1..], j - 1);
        var b :| 0 <= b < |s| - 1 && r[j] == s[1..][b];
        assert r[i] == s[0] && r[j] == s[b + 1];
      } else {
        SublistIndices(r[1..], s[1..], i - 1, j - 1);
        var a, b :| 0 <= a < b < |s| - 1 && r[i] == s[1..][a] && r[j] == s[1..][b];
        assert r[i] == s[a + 1] && r[j] == s[b + 1];
      }
    } else {
      SublistIndices(r, s[1..], i, j);
      var a, b :| 0 <= a < b < |s| - 1 && r[i] == s[1..][a] && r[j] == s[1..][b];
      assert r[i] == s[a + 1] && r[j] == s[b + 1];
    }
  }

  lemma {:induction false} SublistMember<T>(r: seq<T>, s: seq<T>, i: int)
    requires IsSublist(r, s) && 0 <= i < |r|
    ensures exists a :: 0 <= a < |s| && r[i] == s[a]
    decreases |s|
  {
    if r[0] == s[0] {
      if i > 0 {
        SublistMember(r[1..], s[1..], i - 1);
        var a :| 0 <= a < |s| - 1 && r[i] == s[1..][a];
        assert r[i] == s[a + 1];
      }
    } else {
      SublistMember(r, s[1..], i);
      var a :| 0 <= a < |s| - 1 && r[i] == s[1..][a];
      assert r[i] == s[a + 1];
    }
  }

  /** A sub-list of a well-formed table is well-formed. */
  lemma SublistWellFormed<T>(r: seq<Row<T>>, t: seq<Row<T>>, next: int)
    requires WellFormed(t, next) && IsSublist(r, t)
    ensures WellFormed(r, next)
  {
    forall i, j | 0 <= i < j < |r| ensures r[i].id < r[j].id {
      SublistIndices(r, t, i, j);
    }
    forall i | 0 <= i < |r| ensures 1 <= r[i].id < next {
      SublistMember(r, t, i);
    }
  }

  /** Setting a key no entry has appends the entry at the end. */
  lemma {:induction false} SetAbsentAppends<T>(t: seq<Row<T>>, id: int, v: T)
    requires forall i :: 0 <= i < |t| ==> t[i].id != id
    ensures Set(t, id, v) == t + [Row(id, v)]
  {
    if t != [] {
      SetAbsentAppends(t[1..], id, v);
      assert t == [t[0]] + t[1..];
    }
  }

  /** Appending an entry under the counter value keeps the ids ascending and below the advanced counter. */
  lemma AppendWellFormed<T>(t: seq<Row<T>>, next: int, v: T)
    requires WellFormed(t, next) && next >= 1
    ensures WellFormed(t + [Row(next, v)], next + 1)
  {
    var r := t + [Row(next, v)];
    forall i, j | 0 <= i < j < |r| ensures r[i].id < r[j].id {
      assert r[i] == t[i];
      if j < |t| {
        assert r[j] == t[j];
      }
    }
    forall i | 0 <= i < |r| ensures 1 <= r[i].id < next + 1 {
      if i < |t| {
        assert r[i] == t[i];
      }
    }
  }

  /** Inserting under the next counter value keeps a table well-formed with the counter advanced. */
  lemma InsertFreshWellFormed<T>(t: seq<Row<T>>, next: int, v: T)
    requires WellFormed(t, next) && next >= 1
    ensures Get(t, next).None?
    ensures WellFormed(t + [Row(next, v)], next + 1)
  {
    AppendWellFormed(t, next, v);
  }

  /** Overwriting a present key keeps a table well-formed. */
  lemma ReplaceWellFormed<T>(t: seq<Row<T>>, next: int, id: int, v: T)
    requires WellFormed(t, next) && Get(t, id).Some?
    ensures WellFormed(Set(t, id, v), next)
  {
  }

  /** Deleting keeps a table well-formed. */
  lemma DeleteWellFormed<T>(t: seq<Row<T>>, next: int, id: int)
    requires WellFormed(t, next)
    ensures WellFormed(Delete(t, id), next)
  {
    DeleteKeepsOrder(t, id);
    SublistWellFormed(Delete(t, id), t, next);
  }
}
