/**
 * The array operations the stores and components use on lists of records:
 * `filter`, `find`, `some`, the replace-by-id `map` and the remove-by-id
 * `filter`. Records are identified through an `idOf` projection (`t => t.id`).
 *
 * The reference model of a list of records with distinct ids is the map from
 * id to record (`IdMap`); the lemmas at the end show that each list patch the
 * source applies is the corresponding map update.
 */
module Sequences {
  import opened Wrappers

  /** `s.filter(p)`. */
  function Filter<T(==)>(s: seq<T>, p: T -> bool): (r: seq<T>)
    ensures |r| <= |s|
    ensures forall i :: 0 <= i < |r| ==> r[i] in s
    ensures forall i :: 0 <= i < |s| ==> (s[i] in r <==> p(s[i]))
    ensures forall i :: 0 <= i < |r| ==> p(r[i])
  {
    if s == [] then [] else (if p(s[0]) then [s[0]] else []) + Filter(s[1..], p)
  }

  /** `r` is `s` with some elements dropped and the rest kept in their order. */
  predicate IsSubsequence<T(==)>(r: seq<T>, s: seq<T>)
  {
    if r == [] then true
    else if s == [] then false
    else (r[0] == s[0] && IsSubsequence(r[1..], s[1..])) || IsSubsequence(r, s[1..])
  }

  lemma {:induction false} FilterIsSubsequence<T>(s: seq<T>, p: T -> bool)
    ensures IsSubsequence(Filter(s, p), s)
  {
    if s != [] {
      FilterIsSubsequence(s[1..], p);
      if p(s[0]) {
        assert Filter(s, p) == [s[0]] + Filter(s[1..], p);
        assert Filter(s, p)[1..] == Filter(s[1..], p);
      } else {
        assert Filter(s, p) == Filter(s[1..], p);
      }
    }
  }

  /** A filter that every element passes keeps the list as it is. */
  lemma {:induction false} FilterKeepsAll<T>(s: seq<T>, p: T -> bool)
    requires forall i :: 0 <= i < |s| ==> p(s[i])
    ensures Filter(s, p) == s
  {
    if s != [] {
      assert forall i :: 0 <= i < |s[1..]| ==> p(s[1..][i]) by {
        forall i | 0 <= i < |s[1..]| ensures p(s[1..][i]) {
          assert s[1..][i] == s[i + 1];
        }
      }
      FilterKeepsAll(s[1..], p);
      assert s == [s[0]] + s[1..];
    }
  }

  /** Filtering twice by the same predicate is filtering once. */
  lemma FilterIdempotent<T>(s: seq<T>, p: T -> bool)
    ensures Filter(Filter(s, p), p) == Filter(s, p)
  {
    FilterKeepsAll(Filter(s, p), p);
  }

  /** Filters by predicates that agree everywhere are equal. */
  lemma {:induction false} FilterExt<T>(s: seq<T>, p: T -> bool, q: T -> bool)
    requires forall x :: p(x) == q(x)
    ensures Filter(s, p) == Filter(s, q)
  {
    if s != [] {
      FilterExt(s[1..], p, q);
    }
  }

  /** Two filters in a row are one filter by the conjunction. */
  lemma {:induction false} FilterFilter<T>(s: seq<T>, p: T -> bool, q: T -> bool, both: T -> bool)
    requires forall x :: both(x) == (p(x) && q(x))
    ensures Filter(Filter(s, p), q) == Filter(s, both)
  {
    if s != [] {
      FilterFilter(s[1..], p, q, both);
      var tail := Filter(s[1..], p);
      if p(s[0]) {
        var a := [s[0]] + tail;
        assert Filter(s, p) == a;
        assert a[0] == s[0] && a[1..] == tail;
        assert Filter(a, q) == (if q(s[0]) then [s[0]] else []) + Filter(tail, q);
      } else {
        assert Filter(s, p) == tail;
        assert !both(s[0]);
      }
    }
  }

  /** Filtering by a predicate and by its negation splits the list. */
  lemma {:induction false} FilterComplement<T>(s: seq<T>, p: T -> bool, q: T -> bool)
    requires forall x :: q(x) == !p(x)
    ensures |Filter(s, p)| + |Filter(s, q)| == |s|
  {
    if s != [] {
      FilterComplement(s[1..], p, q);
    }
  }

  /** `s.filter(p).length`. */
  function Count<T(==)>(s: seq<T>, p: T -> bool): (n: nat)
    ensures n <= |s|
  {
    |Filter(s, p)|
  }

  /** A filter keeps every copy of an element that passes and no copy of one that fails. */
  lemma {:induction false} FilterMultiset<T>(s: seq<T>, p: T -> bool, x: T)
    ensures multiset(Filter(s, p))[x] == if p(x) then multiset(s)[x] else 0
  {
    if s != [] {
      FilterMultiset(s[1..], p, x);
      assert s == [s[0]] + s[1..];
      assert multiset(s) == multiset{s[0]} + multiset(s[1..]);
      assert multiset(Filter(s, p)) == multiset(if p(s[0]) then [s[0]] else []) + multiset(Filter(s[1..], p));
    }
  }

  /** Filtering a concatenation filters each part. */
  lemma {:induction false} FilterAppend<T>(a: seq<T>, b: seq<T>, p: T -> bool)
    ensures Filter(a + b, p) == Filter(a, p) + Filter(b, p)
  {
    if a != [] {
      FilterAppend(a[1..], b, p);
      assert (a + b)[1..] == a[1..] + b;
    } else {
      assert a + b == b;
    }
  }

  /** The positions of the elements of `s` that satisfy `p`. */
  ghost function PassingIndices<T>(s: seq<T>, p: T -> bool): set<nat>
  {
    set i: nat | i < |s| && p(s[i])
  }

  /** Filtering a list with one more element at its end. */
  lemma FilterSnoc<T>(s: seq<T>, x: T, p: T -> bool)
    ensures |Filter(s + [x], p)| == |Filter(s, p)| + (if p(x) then 1 else 0)
  {
    FilterAppend(s, [x], p);
    assert [x][1..] == [];
  }

  /** The passing positions of a list with one more element at its end. */
  lemma PassingIndicesSnoc<T>(s: seq<T>, x: T, p: T -> bool)
    ensures PassingIndices(s + [x], p) == PassingIndices(s, p) + (if p(x) then {|s|} else {})
  {
    var t := s + [x];
    forall i: nat | i < |s|
      ensures t[i] == s[i]
    {
    }
  }

  /** `Count` is the number of positions whose element satisfies `p`. */
  lemma {:induction false} CountIsPassingIndices<T>(s: seq<T>, p: T -> bool)
    ensures Count(s, p) == |PassingIndices(s, p)|
  {
    if s != [] {
      var n := |s| - 1;
      var init := s[..n];
      CountIsPassingIndices(init, p);
      assert s == init + [s[n]];
      FilterSnoc(init, s[n], p);
      PassingIndicesSnoc(init, s[n], p);
      assert n !in PassingIndices(init, p);
    }
  }

  /** `s.find(p)`: the first element satisfying `p`, if any. */
  function Find<T>(s: seq<T>, p: T -> bool): (r: Option<T>)
    ensures r.None? <==> forall i :: 0 <= i < |s| ==> !p(s[i])
    ensures r.Some? ==> exists i :: 0 <= i < |s| && s[i] == r.value && p(s[i]) &&
                          forall j :: 0 <= j < i ==> !p(s[j])
  {
    if s == [] then None
    else if p(s[0]) then Some(s[0])
    else
      var r := Find(s[1..], p);
      if r.Some? then
        ghost var i :| 0 <= i < |s[1..]| && s[1..][i] == r.value && p(s[1..][i]) &&
                       forall j :: 0 <= j < i ==> !p(s[1..][j]);
        assert s[i + 1] == r.value && forall j :: 0 <= j < i + 1 ==> !p(s[j]);
        r
      else r
  }

  /** `s.some(x => x.id === id)`. */
  predicate HasId<T>(s: seq<T>, id: int, idOf: T -> int)
  {
    exists i :: 0 <= i < |s| && idOf(s[i]) == id
  }

  /** `s.find(x => x.id === id)`: the first element with the id, if any. */
  function FindById<T>(s: seq<T>, id: int, idOf: T -> int): (r: Option<T>)
    ensures r.None? <==> !HasId(s, id, idOf)
    ensures r.Some? ==> exists i :: 0 <= i < |s| && s[i] == r.value && idOf(s[i]) == id &&
                          forall j :: 0 <= j < i ==> idOf(s[j]) != id
  {
    Find(s, (x: T) => idOf(x) == id)
  }

  /** `s.map(x => x.id === id ? y : x)`. */
  function ReplaceById<T>(s: seq<T>, id: int, y: T, idOf: T -> int): (r: seq<T>)
    ensures |r| == |s|
    ensures forall i :: 0 <= i < |s| && idOf(s[i]) == id ==> r[i] == y
    ensures forall i :: 0 <= i < |s| && idOf(s[i]) != id ==> r[i] == s[i]
  {
    if s == [] then [] else [if idOf(s[0]) == id then y else s[0]] + ReplaceById(s[1..], id, y, idOf)
  }

  /** `s.filter(x => x.id !== id)`. */
  function RemoveById<T(==)>(s: seq<T>, id: int, idOf: T -> int): (r: seq<T>)
    ensures |r| <= |s|
    ensures forall i :: 0 <= i < |r| ==> r[i] in s
    ensures forall i :: 0 <= i < |s| ==> (s[i] in r <==> idOf(s[i]) != id)
    ensures !HasId(r, id, idOf)
  {
    Filter(s, x => idOf(x) != id)
  }

  /** A replacement that is not about an id in the list changes nothing. */
  lemma ReplaceAbsentId<T>(s: seq<T>, id: int, y: T, idOf: T -> int)
    requires !HasId(s, id, idOf)
    ensures ReplaceById(s, id, y, idOf) == s
  {
  }

  /** No id occurs twice. */
  predicate UniqueIds<T>(s: seq<T>, idOf: T -> int)
  {
    forall i, j :: 0 <= i < j < |s| ==> idOf(s[i]) != idOf(s[j])
  }

  /** The reference model of a list of records: id to record (the first occurrence wins). */
  function IdMap<T>(s: seq<T>, idOf: T -> int): map<int, T>
  {
    if s == [] then map[] else IdMap(s[1..], idOf)[idOf(s[0]) := s[0]]
  }

  /** The reference model has exactly the ids of the list as keys. */
  lemma {:induction false} IdMapKeys<T>(s: seq<T>, idOf: T -> int, id: int)
    ensures id in IdMap(s, idOf) <==> HasId(s, id, idOf)
  {
    if s != [] {
      IdMapKeys(s[1..], idOf, id);
      if HasId(s[1..], id, idOf) {
        var i :| 0 <= i < |s[1..]| && idOf(s[1..][i]) == id;
        assert s[i + 1] == s[1..][i];
      }
      if HasId(s, id, idOf) && id != idOf(s[0]) {
        var i :| 0 <= i < |s| && idOf(s[i]) == id;
        assert s[1..][i - 1] == s[i];
      }
    }
  }

  /** With distinct ids, the reference model holds every element under its id. */
  lemma {:induction false} IdMapAt<T>(s: seq<T>, idOf: T -> int, i: int)
    requires UniqueIds(s, idOf) && 0 <= i < |s|
    ensures idOf(s[i]) in IdMap(s, idOf) && IdMap(s, idOf)[idOf(s[i])] == s[i]
  {
    if i > 0 {
      assert s[1..][i - 1] == s[i];
      IdMapAt(s[1..], idOf, i - 1);
    }
  }

  /** `[y, ...s]` (an `unshift`) adds `y` under a fresh id and keeps the ids distinct. */
  lemma PrependRefines<T>(s: seq<T>, y: T, idOf: T -> int)
    requires UniqueIds(s, idOf) && !HasId(s, idOf(y), idOf)
    ensures UniqueIds([y] + s, idOf)
    ensures IdMap([y] + s, idOf) == IdMap(s, idOf)[idOf(y) := y]
  {
    assert ([y] + s)[1..] == s;
    forall i, j | 0 <= i < j < |[y] + s| ensures idOf(([y] + s)[i]) != idOf(([y] + s)[j]) {
      if i == 0 {
        assert ([y] + s)[j] == s[j - 1];
      }
    }
  }

  /** `[...s, y]` adds `y` under a fresh id and keeps the ids distinct. */
  lemma {:induction false} AppendRefines<T>(s: seq<T>, y: T, idOf: T -> int)
    requires UniqueIds(s, idOf) && !HasId(s, idOf(y), idOf)
    ensures UniqueIds(s + [y], idOf)
    ensures IdMap(s + [y], idOf) == IdMap(s, idOf)[idOf(y) := y]
  {
    forall i, j | 0 <= i < j < |s + [y]| ensures idOf((s + [y])[i]) != idOf((s + [y])[j]) {
      if j == |s| {
        assert (s + [y])[i] == s[i];
      }
    }
    if s != [] {
      assert (s + [y])[1..] == s[1..] + [y];
      forall i | 0 <= i < |s[1..]| ensures idOf(s[1..][i]) != idOf(y) {
        assert s[1..][i] == s[i + 1];
      }
      AppendRefines(s[1..], y, idOf);
    }
  }

  /** Replace-by-id with a record of the same id updates the reference model in place. */
  lemma {:induction false} ReplaceRefines<T>(s: seq<T>, id: int, y: T, idOf: T -> int)
    requires UniqueIds(s, idOf) && idOf(y) == id
    ensures UniqueIds(ReplaceById(s, id, y, idOf), idOf)
    ensures IdMap(ReplaceById(s, id, y, idOf), idOf) ==
            if HasId(s, id, idOf) then IdMap(s, idOf)[id := y] else IdMap(s, idOf)
  {
    var r := ReplaceById(s, id, y, idOf);
    assert forall i :: 0 <= i < |s| ==> idOf(r[i]) == idOf(s[i]);
    if s != [] {
      assert r[1..] == ReplaceById(s[1..], id, y, idOf);
      ReplaceRefines(s[1..], id, y, idOf);
      if idOf(s[0]) == id {
        forall i | 0 <= i < |s[1..]| ensures idOf(s[1..][i]) != id {
          assert s[1..][i] == s[i + 1];
        }
        ReplaceAbsentId(s[1..], id, y, idOf);
      }
    }
  }

  lemma RemoveByIdUnfold<T>(s: seq<T>, id: int, idOf: T -> int)
    requires s != []
    ensures RemoveById(s, id, idOf) ==
            (if idOf(s[0]) != id then [s[0]] else []) + RemoveById(s[1..], id, idOf)
  {
  }

  lemma MapUpdateThenRemove<K, V>(m: map<K, V>, k: K, v: V, j: K)
    ensures k == j ==> m[k := v] - {j} == m - {j}
    ensures k != j ==> m[k := v] - {j} == (m - {j})[k := v]
  {
  }

  /** Remove-by-id deletes the id from the reference model and keeps the ids distinct. */
  lemma {:induction false} RemoveRefines<T>(s: seq<T>, id: int, idOf: T -> int)
    requires UniqueIds(s, idOf)
    ensures UniqueIds(RemoveById(s, id, idOf), idOf)
    ensures IdMap(RemoveById(s, id, idOf), idOf) == IdMap(s, idOf) - {id}
  {
    if s != [] {
      var tail, k := s[1..], idOf(s[0]);
      var rest := RemoveById(tail, id, idOf);
      assert UniqueIds(tail, idOf);
      RemoveRefines(tail, id, idOf);
      RemoveByIdUnfold(s, id, idOf);
      MapUpdateThenRemove(IdMap(tail, idOf), k, s[0], id);
      if k != id {
        RemoveKeepsOtherIdsAbsent(s, id, idOf);
        PrependRefines(rest, s[0], idOf);
      } else {
        assert RemoveById(s, id, idOf) == rest;
        assert IdMap(s, idOf) == IdMap(tail, idOf)[k := s[0]];
      }
    }
  }

  /** The first id of a list with distinct ids does not survive in the rest, whatever is removed. */
  lemma RemoveKeepsOtherIdsAbsent<T>(s: seq<T>, id: int, idOf: T -> int)
    requires s != [] && UniqueIds(s, idOf)
    ensures !HasId(RemoveById(s[1..], id, idOf), idOf(s[0]), idOf)
  {
    var tail := s[1..];
    var rest := RemoveById(tail, id, idOf);
    forall i | 0 <= i < |rest| ensures idOf(rest[i]) != idOf(s[0]) {
      var j :| 0 <= j < |tail| && tail[j] == rest[i];
      assert tail[j] == s[j + 1];
    }
  }
}
