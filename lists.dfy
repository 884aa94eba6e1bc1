/** Sequence operations shared by the builder and the session controller:
    the `findIndex`, `find`, `filter` and "replace the matching slot or push"
    patterns that the source writes out at each use. */
module Lists {

  datatype Option<+T> = None | Some(value: T)

  /** Index of the first element whose key is `k`, or -1 when there is none. */
  function IndexOfKey<T, K(==)>(s: seq<T>, key: T -> K, k: K): (r: int)
    ensures -1 <= r < |s|
    ensures 0 <= r ==> key(s[r]) == k && forall j :: 0 <= j < r ==> key(s[j]) != k
    ensures r == -1 <==> forall j :: 0 <= j < |s| ==> key(s[j]) != k
  {
    if s == [] then -1
    else if key(s[0]) == k then 0
    else
      var i := IndexOfKey(s[1..], key, k);
      if i == -1 then -1 else i + 1
  }

  /** The first element whose key is `k`. */
  function FindByKey<T, K(==)>(s: seq<T>, key: T -> K, k: K): (r: Option<T>)
    ensures r.None? <==> forall j :: 0 <= j < |s| ==> key(s[j]) != k
    ensures r.Some? ==> exists i :: 0 <= i < |s| && s[i] == r.value && key(s[i]) == k &&
                          forall j :: 0 <= j < i ==> key(s[j]) != k
  {
    var i := IndexOfKey(s, key, k);
    if i < 0 then None else Some(s[i])
  }

  /** Replaces the first element that has the key of `x` by `x`, or appends `x`. */
  function Upsert<T, K(==)>(s: seq<T>, key: T -> K, x: T): (r: seq<T>)
    ensures (exists j :: 0 <= j < |s| && key(s[j]) == key(x)) ==>
              |r| == |s| &&
              exists i :: 0 <= i < |s| && key(s[i]) == key(x) && r == s[i := x] &&
                          forall j :: 0 <= j < i ==> key(s[j]) != key(x)
    ensures (forall j :: 0 <= j < |s| ==> key(s[j]) != key(x)) ==> r == s + [x]
  {
    var i := IndexOfKey(s, key, key(x));
    if i >= 0 then s[i := x] else s + [x]
  }

  /** Folds `Upsert` over `xs`, first element first. */
  function UpsertAll<T, K(==)>(s: seq<T>, key: T -> K, xs: seq<T>): (r: seq<T>)
    decreases |xs|
  {
    if xs == [] then s else Upsert(UpsertAll(s, key, xs[..|xs| - 1]), key, xs[|xs| - 1])
  }

  /** The elements whose key is not `k`, in their original order. */
  function RemoveKey<T, K(==)>(s: seq<T>, key: T -> K, k: K): (r: seq<T>)
    ensures |r| <= |s|
    ensures forall j :: 0 <= j < |r| ==> r[j] in s && key(r[j]) != k
    ensures forall j :: 0 <= j < |s| && key(s[j]) != k ==> s[j] in r
  {
    if s == [] then []
    else if key(s[0]) == k then RemoveKey(s[1..], key, k)
    else [s[0]] + RemoveKey(s[1..], key, k)
  }

  /** The elements different from `x`, in their original order. */
  function Remove<T(==)>(s: seq<T>, x: T): (r: seq<T>)
    ensures |r| <= |s|
    ensures forall j :: 0 <= j < |r| ==> r[j] in s && r[j] != x
    ensures forall j :: 0 <= j < |s| && s[j] != x ==> s[j] in r
  {
    if s == [] then []
    else if s[0] == x then Remove(s[1..], x)
    else [s[0]] + Remove(s[1..], x)
  }

  /** The elements at every index except `i` (the whole sequence when `i` is out of range). */
  function RemoveAt<T>(s: seq<T>, i: nat): (r: seq<T>)
    ensures i < |s| ==> |r| == |s| - 1
    ensures i < |s| ==> forall j :: 0 <= j < i ==> r[j] == s[j]
    ensures i < |s| ==> forall j :: i <= j < |r| ==> r[j] == s[j + 1]
    ensures |s| <= i ==> r == s
  {
    if i < |s| then s[..i] + s[i + 1..] else s
  }

  /** Filtering by key distributes over concatenation: the kept elements stay in order. */
  lemma {:induction false} RemoveKeyConcat<T, K>(a: seq<T>, b: seq<T>, key: T -> K, k: K)
    ensures RemoveKey(a + b, key, k) == RemoveKey(a, key, k) + RemoveKey(b, key, k)
  {
    if a != [] {
      assert (a + b)[1..] == a[1..] + b;
      RemoveKeyConcat(a[1..], b, key, k);
    } else {
      assert a + b == b;
    }
  }

  /** Removing a key that no element has changes nothing. */
  lemma {:induction false} RemoveKeyAbsent<T, K>(s: seq<T>, key: T -> K, k: K)
    requires forall j :: 0 <= j < |s| ==> key(s[j]) != k
    ensures RemoveKey(s, key, k) == s
  {
    if s != [] {
      RemoveKeyAbsent(s[1..], key, k);
      assert [s[0]] + s[1..] == s;
    }
  }

  lemma {:induction false} RemoveConcat<T>(a: seq<T>, b: seq<T>, x: T)
    ensures Remove(a + b, x) == Remove(a, x) + Remove(b, x)
  {
    if a != [] {
      assert (a + b)[1..] == a[1..] + b;
      RemoveConcat(a[1..], b, x);
    } else {
      assert a + b == b;
    }
  }

  lemma {:induction false} RemoveAbsent<T>(s: seq<T>, x: T)
    requires x !in s
    ensures Remove(s, x) == s
  {
    if s != [] {
      RemoveAbsent(s[1..], x);
      assert [s[0]] + s[1..] == s;
    }
  }

  /** `Upsert` never moves an element: every old slot keeps its key, and the
      sequence only grows (by one exactly when the key was new). */
  lemma UpsertKeepsKeys<T, K>(s: seq<T>, key: T -> K, x: T)
    ensures |s| <= |Upsert(s, key, x)| <= |s| + 1
    ensures forall j :: 0 <= j < |s| ==> key(Upsert(s, key, x)[j]) == key(s[j])
    ensures exists j :: 0 <= j < |Upsert(s, key, x)| && Upsert(s, key, x)[j] == x
  {
    var r := Upsert(s, key, x);
    var i := IndexOfKey(s, key, key(x));
    if i >= 0 {
      assert r[i] == x;
    } else {
      assert r[|s|] == x;
    }
  }

  /** Folding `Upsert` keeps every existing slot's key where it was, and every
      folded-in key ends up present. */
  lemma {:induction false} UpsertAllKeepsKeys<T, K>(s: seq<T>, key: T -> K, xs: seq<T>)
    ensures |s| <= |UpsertAll(s, key, xs)| <= |s| + |xs|
    ensures forall j :: 0 <= j < |s| ==> key(UpsertAll(s, key, xs)[j]) == key(s[j])
    ensures forall x :: x in xs ==>
              exists j :: 0 <= j < |UpsertAll(s, key, xs)| && key(UpsertAll(s, key, xs)[j]) == key(x)
    decreases |xs|
  {
    if xs != [] {
      var front := xs[..|xs| - 1];
      var last := xs[|xs| - 1];
      var mid := UpsertAll(s, key, front);
      UpsertAllKeepsKeys(s, key, front);
      UpsertKeepsKeys(mid, key, last);
      var r := UpsertAll(s, key, xs);
      assert r == Upsert(mid, key, last);
      forall x | x in xs
        ensures exists j :: 0 <= j < |r| && key(r[j]) == key(x)
      {
        if x in front {
          var j :| 0 <= j < |mid| && key(mid[j]) == key(x);
          assert key(r[j]) == key(x);
        } else {
          assert x == last;
          var j :| 0 <= j < |r| && r[j] == last;
        }
      }
    }
  }

  /** Appending an element does not move the first occurrence of a key
      already present, and a new key is found at the appended slot. */
  lemma IndexOfKeyAppend<T, K>(s: seq<T>, key: T -> K, x: T, k: K)
    ensures (exists j :: 0 <= j < |s| && key(s[j]) == k) ==>
              IndexOfKey(s + [x], key, k) == IndexOfKey(s, key, k)
    ensures (forall j :: 0 <= j < |s| ==> key(s[j]) != k) && key(x) == k ==>
              IndexOfKey(s + [x], key, k) == |s|
  {
    var t := s + [x];
    var i := IndexOfKey(s, key, k);
    var r := IndexOfKey(t, key, k);
    if i >= 0 {
      assert t[i] == s[i];
      assert r >= 0;
    } else if key(x) == k {
      assert t[|s|] == x;
      assert r >= 0;
    }
  }
}
