/** Sequences seen as queues: removal, stable ordered insertion, and zero-filled RAM lookup. */
module Lists {

  /** RAM is cleared at start-up, so a field that was never written reads as `d`. */
  function At<K, V>(m: map<K, V>, k: K, d: V): V {
    if k in m then m[k] else d
  }

  ghost predicate NoDup<T>(s: seq<T>) {
    forall i, j :: 0 <= i < j < |s| ==> s[i] != s[j]
  }

  /** `s` without its first occurrence of `n`. */
  function Without<T(==)>(s: seq<T>, n: T): seq<T> {
    if s == [] then [] else if s[0] == n then s[1..] else [s[0]] + Without(s[1..], n)
  }

  lemma {:induction false} WithoutAt<T>(s: seq<T>, i: nat)
    requires i < |s| && NoDup(s)
    ensures Without(s, s[i]) == s[..i] + s[i + 1..]
  {
    if i > 0 {
      WithoutAt(s[1..], i - 1);
      assert s[1..][..i - 1] == s[1..i];
      assert s[1..][i - 1 + 1..] == s[i + 1..];
    }
  }

  lemma {:induction false} WithoutAbsent<T>(s: seq<T>, n: T)
    requires n !in s
    ensures Without(s, n) == s
  {
    if s != [] { WithoutAbsent(s[1..], n); }
  }

  lemma WithoutMembers<T>(s: seq<T>, n: T)
    requires NoDup(s)
    ensures NoDup(Without(s, n))
    ensures forall x :: x in Without(s, n) <==> x in s && x != n
  {
    if n in s {
      var i :| 0 <= i < |s| && s[i] == n;
      WithoutAt(s, i);
      var r := s[..i] + s[i + 1..];
      forall x ensures x in r <==> x in s && x != n {
        if x in s && x != n {
          var j :| 0 <= j < |s| && s[j] == x;
          assert r[if j < i then j else j - 1] == x;
        }
      }
    } else {
      WithoutAbsent(s, n);
    }
  }

  /** Queue order by key: least first. */
  ghost predicate Sorted(s: seq<nat>, key: map<nat, int>) {
    forall i, j :: 0 <= i < j < |s| ==> At(key, s[i], 0) <= At(key, s[j], 0)
  }

  lemma SortedWithout(s: seq<nat>, n: nat, key: map<nat, int>)
    requires NoDup(s) && Sorted(s, key)
    ensures Sorted(Without(s, n), key)
  {
    if n in s {
      var i :| 0 <= i < |s| && s[i] == n;
      WithoutAt(s, i);
      SortedDrop(s, i, key);
    } else {
      WithoutAbsent(s, n);
    }
  }

  lemma SortedDrop(s: seq<nat>, i: nat, key: map<nat, int>)
    requires Sorted(s, key) && i < |s|
    ensures Sorted(s[..i] + s[i + 1..], key)
  {
    var t := s[..i] + s[i + 1..];
    forall j, k | 0 <= j < k < |t| ensures At(key, t[j], 0) <= At(key, t[k], 0) {
      assert t[j] == s[if j < i then j else j + 1] && t[k] == s[if k < i then k else k + 1];
    }
  }

  /** Index of the first element whose key exceeds `k`. */
  function InsertPos(s: seq<nat>, key: map<nat, int>, k: int): (i: nat)
    ensures i <= |s|
  {
    if s == [] || At(key, s[0], 0) > k then 0 else 1 + InsertPos(s[1..], key, k)
  }

  lemma {:induction false} InsertPosBetween(s: seq<nat>, key: map<nat, int>, k: int)
    ensures var i := InsertPos(s, key, k);
      (forall j :: 0 <= j < i ==> At(key, s[j], 0) <= k) && (i < |s| ==> k < At(key, s[i], 0))
  {
    if s != [] && At(key, s[0], 0) <= k {
      InsertPosBetween(s[1..], key, k);
      forall j | 0 <= j < InsertPos(s, key, k) ensures At(key, s[j], 0) <= k {
        if j > 0 { assert s[1..][j - 1] == s[j]; }
      }
    }
  }

  /** Ordered insertion, behind every element of equal key. */
  function Insert(s: seq<nat>, n: nat, key: map<nat, int>): (r: seq<nat>)
  {
    var i := InsertPos(s, key, At(key, n, 0));
    s[..i] + [n] + s[i..]
  }

  lemma InsertPosUnique(s: seq<nat>, key: map<nat, int>, k: int, i: nat)
    requires i <= |s|
    requires forall j :: 0 <= j < i ==> At(key, s[j], 0) <= k
    requires i < |s| ==> k < At(key, s[i], 0)
    ensures InsertPos(s, key, k) == i
  {
    InsertPosBetween(s, key, k);
  }

  lemma SpliceMembers<T>(s: seq<T>, i: nat, n: T)
    requires i <= |s| && NoDup(s) && n !in s
    ensures NoDup(s[..i] + [n] + s[i..])
    ensures forall x :: x in s[..i] + [n] + s[i..] <==> x in s || x == n
  {
    assert s == s[..i] + s[i..];
    assert (s[..i] + [n] + s[i..])[i] == n;
  }

  lemma InsertMembers(s: seq<nat>, n: nat, key: map<nat, int>)
    requires NoDup(s) && n !in s
    ensures NoDup(Insert(s, n, key))
    ensures forall x :: x in Insert(s, n, key) <==> x in s || x == n
  {
    SpliceMembers(s, InsertPos(s, key, At(key, n, 0)), n);
  }

  /** Ordered insertion keeps the queue ordered. */
  lemma InsertSorted(s: seq<nat>, n: nat, key: map<nat, int>)
    requires Sorted(s, key)
    ensures Sorted(Insert(s, n, key), key)
  {
    var i := InsertPos(s, key, At(key, n, 0));
    var r := Insert(s, n, key);
    InsertPosBetween(s, key, At(key, n, 0));
    forall a, b | 0 <= a < b < |r| ensures At(key, r[a], 0) <= At(key, r[b], 0) {
      if a < i && b == i { assert r[a] == s[a]; }
      if a == i { assert r[b] == s[b - 1]; assert At(key, s[i], 0) <= At(key, s[b - 1], 0); }
    }
  }

  /** Order depends only on the keys of the members. */
  lemma SortedFrame(s: seq<nat>, key: map<nat, int>, key': map<nat, int>)
    requires Sorted(s, key)
    requires forall n :: n in s ==> At(key', n, 0) == At(key, n, 0)
    ensures Sorted(s, key')
  {
    forall i, j | 0 <= i < j < |s| ensures At(key', s[i], 0) <= At(key', s[j], 0) {
      assert s[i] in s && s[j] in s;
      assert At(key, s[i], 0) <= At(key, s[j], 0);
    }
  }
}
