/**
 * The array primitives the store is written with — `find`, `filter`,
 * `map` and `splice` — over sequences whose elements carry a string id,
 * given by a projection `key`.
 */
module Lists {
  import opened Wrappers

  /** Some element of `s` has id `id`. */
  predicate HasId<T>(s: seq<T>, key: T -> string, id: string) {
    exists i :: 0 <= i < |s| && key(s[i]) == id
  }

  /** No two elements of `s` share an id. */
  predicate UniqueIds<T>(s: seq<T>, key: T -> string) {
    forall i, j :: 0 <= i < j < |s| ==> key(s[i]) != key(s[j])
  }

  /** The ids of `s`, in order. */
  function Ids<T>(s: seq<T>, key: T -> string): (r: seq<string>)
    ensures |r| == |s|
    ensures forall i :: 0 <= i < |s| ==> r[i] == key(s[i])
  {
    seq(|s|, i requires 0 <= i < |s| => key(s[i]))
  }

  /** How many elements of `s` have id `id`. */
  function CountId<T>(s: seq<T>, key: T -> string, id: string): (n: nat)
    ensures n <= |s|
    ensures n == 0 <==> !HasId(s, key, id)
    ensures UniqueIds(s, key) ==> n <= 1
  {
    if s == [] then 0
    else
      assert forall i :: 1 <= i < |s| ==> s[1..][i - 1] == s[i];
      (if key(s[0]) == id then 1 else 0) + CountId(s[1..], key, id)
  }

  /** `Array.prototype.find` with the predicate `e => key(e) === id`:
      the first element with that id, if any. */
  function Find<T>(s: seq<T>, key: T -> string, id: string): (r: Option<T>)
    ensures r.None? <==> !HasId(s, key, id)
    ensures r.Some? ==> exists i :: 0 <= i < |s| && s[i] == r.value && key(s[i]) == id
                                      && forall j :: 0 <= j < i ==> key(s[j]) != id
  {
    if s == [] then None
    else if key(s[0]) == id then Some(s[0])
    else
      assert forall i :: 1 <= i < |s| ==> s[1..][i - 1] == s[i];
      Find(s[1..], key, id)
  }

  /** In a sequence with unique ids, `Find` yields the one element with that id. */
  lemma FindUnique<T>(s: seq<T>, key: T -> string, k: nat)
    requires UniqueIds(s, key) && k < |s|
    ensures Find(s, key, key(s[k])) == Some(s[k])
  {
    var r := Find(s, key, key(s[k]));
    var i :| 0 <= i < |s| && s[i] == r.value && key(s[i]) == key(s[k])
             && forall j :: 0 <= j < i ==> key(s[j]) != key(s[k]);
  }

  /** `Array.prototype.filter` with the predicate `e => key(e) !== id`. */
  function RemoveId<T>(s: seq<T>, key: T -> string, id: string): (r: seq<T>)
    ensures |r| == |s| - CountId(s, key, id)
    ensures !HasId(r, key, id)
    ensures !HasId(s, key, id) ==> r == s
  {
    if s == [] then []
    else
      assert forall i :: 1 <= i < |s| ==> s[1..][i - 1] == s[i];
      var rest := RemoveId(s[1..], key, id);
      if key(s[0]) == id then rest
      else
        assert forall i :: 1 <= i < |[s[0]] + rest| ==> ([s[0]] + rest)[i] == rest[i - 1];
        assert !HasId(s[1..], key, id) ==> s == [s[0]] + s[1..];
        [s[0]] + rest
  }

  /** Filtering keeps exactly the elements whose id differs: each of them,
      and nothing else. */
  lemma {:induction false} RemoveIdMembers<T>(s: seq<T>, key: T -> string, id: string)
    ensures forall x :: x in RemoveId(s, key, id) ==> x in s && key(x) != id
    ensures forall i :: 0 <= i < |s| && key(s[i]) != id ==> s[i] in RemoveId(s, key, id)
  {
    if s != [] {
      RemoveIdMembers(s[1..], key, id);
      assert forall i :: 1 <= i < |s| ==> s[1..][i - 1] == s[i];
    }
  }

  /** Filtering distributes over concatenation, so the elements it keeps
      stay in their original relative order. */
  lemma {:induction false} RemoveIdAppend<T>(a: seq<T>, b: seq<T>, key: T -> string, id: string)
    ensures RemoveId(a + b, key, id) == RemoveId(a, key, id) + RemoveId(b, key, id)
  {
    if a == [] {
      assert a + b == b;
    } else {
      assert (a + b)[1..] == a[1..] + b;
      assert (a + b)[0] == a[0];
      RemoveIdAppend(a[1..], b, key, id);
    }
  }

  /** Removing the id of an element just appended under a fresh id gives back the sequence. */
  lemma RemoveIdAfterAppend<T>(s: seq<T>, x: T, key: T -> string)
    requires !HasId(s, key, key(x))
    ensures RemoveId(s + [x], key, key(x)) == s
  {
    RemoveIdAppend(s, [x], key, key(x));
    assert [x][1..] == [];
  }

  /** Appending an element under a fresh id keeps ids unique. */
  lemma AppendFreshKeepsUnique<T>(s: seq<T>, x: T, key: T -> string)
    requires UniqueIds(s, key) && !HasId(s, key, key(x))
    ensures UniqueIds(s + [x], key)
  {
    var r := s + [x];
    forall i, j | 0 <= i < j < |r| ensures key(r[i]) != key(r[j]) {
      if j == |s| {
        assert r[i] == s[i];
      } else {
        assert r[i] == s[i] && r[j] == s[j];
      }
    }
  }

  /** Uniqueness depends on the ids alone. */
  lemma SameIdsKeepUnique<T>(a: seq<T>, b: seq<T>, key: T -> string)
    requires UniqueIds(a, key) && Ids(a, key) == Ids(b, key)
    ensures UniqueIds(b, key)
  {
    forall i, j | 0 <= i < j < |b| ensures key(b[i]) != key(b[j]) {
      assert Ids(b, key)[i] == key(a[i]) && Ids(b, key)[j] == key(a[j]);
    }
  }

  /** Filtering introduces no id that was not there. */
  lemma {:induction false} RemoveIdNoNewIds<T>(s: seq<T>, key: T -> string, id: string, other: string)
    requires !HasId(s, key, other)
    ensures !HasId(RemoveId(s, key, id), key, other)
  {
    if s != [] {
      assert forall i :: 1 <= i < |s| ==> s[1..][i - 1] == s[i];
      RemoveIdNoNewIds(s[1..], key, id, other);
    }
  }

  /** Putting an element with a new id in front keeps ids unique. */
  lemma ConsKeepsUnique<T>(x: T, s: seq<T>, key: T -> string)
    requires UniqueIds(s, key) && !HasId(s, key, key(x))
    ensures UniqueIds([x] + s, key)
  {
    var r := [x] + s;
    forall i, j | 0 <= i < j < |r| ensures key(r[i]) != key(r[j]) {
      assert r[j] == s[j - 1];
      if i > 0 { assert r[i] == s[i - 1]; }
    }
  }

  /** What is left after a removal still has unique ids when the input had. */
  lemma {:induction false} RemoveIdKeepsUnique<T>(s: seq<T>, key: T -> string, id: string)
    requires UniqueIds(s, key)
    ensures UniqueIds(RemoveId(s, key, id), key)
  {
    if s != [] {
      var tail := s[1..];
      assert forall i :: 1 <= i < |s| ==> tail[i - 1] == s[i];
      RemoveIdKeepsUnique(tail, key, id);
      if key(s[0]) != id {
        assert !HasId(tail, key, key(s[0]));
        RemoveIdNoNewIds(tail, key, id, key(s[0]));
        ConsKeepsUnique(s[0], RemoveId(tail, key, id), key);
      }
    }
  }

  /** `a` is what is left of `b` after deleting some of its elements,
      the rest kept in order. */
  predicate SubseqOf<T(==)>(a: seq<T>, b: seq<T>)
    decreases |b|
  {
    if a == [] then true
    else if b == [] then false
    else if a[0] == b[0] then SubseqOf(a[1..], b[1..])
    else SubseqOf(a, b[1..])
  }

  /** `r` is `s` with exactly the elements of id `id` deleted: an
      order-preserving selection of `s` that avoids `id` and is as long as
      the number of elements of `s` with another id. */
  predicate Filtered<T(==)>(r: seq<T>, s: seq<T>, key: T -> string, id: string) {
    && SubseqOf(r, s)
    && !HasId(r, key, id)
    && |r| == |s| - CountId(s, key, id)
  }

  /** Filtering by id meets that description. */
  lemma {:induction false} RemoveIdFiltered<T>(s: seq<T>, key: T -> string, id: string)
    ensures Filtered(RemoveId(s, key, id), s, key, id)
  {
    if s != [] {
      RemoveIdFiltered(s[1..], key, id);
      var rest := RemoveId(s[1..], key, id);
      if key(s[0]) == id {
        assert rest != [] ==> key(rest[0]) != id;
      } else {
        assert ([s[0]] + rest)[1..] == rest;
      }
    }
  }

  /** `Array.prototype.map` with `e => key(e) === id ? f(e) : e`. */
  function MapWhere<T>(s: seq<T>, key: T -> string, id: string, f: T --> T): (r: seq<T>)
    requires forall i :: 0 <= i < |s| && key(s[i]) == id ==> f.requires(s[i])
    ensures |r| == |s|
    ensures forall i :: 0 <= i < |s| ==> r[i] == if key(s[i]) == id then f(s[i]) else s[i]
  {
    if s == [] then []
    else
      assert forall i :: 1 <= i < |s| ==> s[1..][i - 1] == s[i];
      [if key(s[0]) == id then f(s[0]) else s[0]] + MapWhere(s[1..], key, id, f)
  }

  /** After a map that keeps the ids of the matching elements, `Find` meets
      the image of the element it met before. */
  lemma {:induction false} FindMapWhere<T>(s: seq<T>, key: T -> string, id: string, f: T --> T)
    requires forall i :: 0 <= i < |s| && key(s[i]) == id ==> f.requires(s[i]) && key(f(s[i])) == id
    requires HasId(s, key, id)
    ensures Find(s, key, id).value in s
    ensures Find(MapWhere(s, key, id, f), key, id) == Some(f(Find(s, key, id).value))
  {
    var r := MapWhere(s, key, id, f);
    if key(s[0]) != id {
      assert forall i :: 1 <= i < |s| ==> s[1..][i - 1] == s[i];
      assert HasId(s[1..], key, id);
      FindMapWhere(s[1..], key, id, f);
      assert r[1..] == MapWhere(s[1..], key, id, f);
    }
  }

  /** A map that gives every matching element back under its own id keeps the id list. */
  lemma MapWhereKeepsIds<T>(s: seq<T>, key: T -> string, id: string, f: T --> T)
    requires forall i :: 0 <= i < |s| && key(s[i]) == id ==> f.requires(s[i]) && key(f(s[i])) == id
    ensures Ids(MapWhere(s, key, id, f), key) == Ids(s, key)
  {
  }

  /** Where `splice(start, 0, x)` puts `x` in an array of length `len`:
      a negative start counts from the end and stops at 0, a start past
      the end appends. */
  function ClampIndex(len: nat, start: int): (k: nat)
    ensures k <= len
    ensures 0 <= start <= len ==> k == start
    ensures start > len ==> k == len
    ensures start < 0 && len + start >= 0 ==> k == len + start
    ensures len + start < 0 ==> k == 0
  {
    if start < 0 then (if len + start < 0 then 0 else len + start)
    else if start > len then len
    else start
  }

  /** `s` with `x` inserted before position `k`. */
  function InsertAt<T>(s: seq<T>, k: nat, x: T): (r: seq<T>)
    requires k <= |s|
    ensures |r| == |s| + 1
    ensures r[k] == x
    ensures forall i :: 0 <= i < k ==> r[i] == s[i]
    ensures forall i :: k < i < |r| ==> r[i] == s[i - 1]
    ensures multiset(r) == multiset(s) + multiset{x}
  {
    assert s == s[..k] + s[k..];
    s[..k] + [x] + s[k..]
  }

  /** `const a = [...items]; a.splice(start, 0, item)`: copy the items into
      a fresh array one longer, shifting those from the insertion point on. */
  method Splice<T>(items: seq<T>, start: int, item: T) returns (r: seq<T>)
    ensures r == InsertAt(items, ClampIndex(|items|, start), item)
  {
    var k := ClampIndex(|items|, start);
    var a := new T[|items| + 1](_ => item);
    var i := 0;
    while i < k
      invariant 0 <= i <= k
      invariant forall m :: 0 <= m < i ==> a[m] == items[m]
    {
      a[i] := items[i];
      i := i + 1;
    }
    a[k] := item;
    i := k;
    while i < |items|
      invariant k <= i <= |items|
      invariant forall m :: 0 <= m < k ==> a[m] == items[m]
      invariant a[k] == item
      invariant forall m :: k < m <= i ==> a[m] == items[m - 1]
    {
      a[i + 1] := items[i];
      i := i + 1;
    }
    r := a[..];
    ghost var want := InsertAt(items, k, item);
    assert |r| == |want|;
    forall m | 0 <= m < |r| ensures r[m] == want[m] {
    }
  }
}
