/** The Redis data types the storage layer uses, as values: lists by key, sorted sets with one
    score per member, and the replies the Rust code looks at. */
module Redis {

  datatype Option<+T> = None | Some(value: T)

  ghost predicate NoDup<T>(l: seq<T>) {
    forall i, j :: 0 <= i < j < |l| ==> l[i] != l[j]
  }

  /** A missing list key reads as the empty list. */
  function ListAt<K, T>(m: map<K, seq<T>>, key: K): seq<T> {
    if key in m then m[key] else []
  }

  /** Redis deletes a list key when its last element goes. */
  function SetList<K(!new), T>(m: map<K, seq<T>>, key: K, l: seq<T>): (r: map<K, seq<T>>)
    ensures ListAt(r, key) == l
    ensures forall k :: k != key ==> ListAt(r, k) == ListAt(m, k)
  {
    if l == [] then m - {key} else m[key := l]
  }

  /** LPUSH of one value: the head of the list is index 0. */
  function LPush<K(!new), T>(m: map<K, seq<T>>, key: K, x: T): map<K, seq<T>> {
    SetList(m, key, [x] + ListAt(m, key))
  }

  /** What LREM key 0 x leaves: every occurrence goes. */
  function RemoveAll<T(==,!new)>(l: seq<T>, x: T): (r: seq<T>)
    ensures forall y :: y in r <==> y in l && y != x
    ensures |r| <= |l|
    ensures x !in l ==> r == l
  {
    if l == [] then []
    else if l[0] == x then RemoveAll(l[1..], x)
    else [l[0]] + RemoveAll(l[1..], x)
  }

  /** What LREM key 1 x leaves: the occurrence nearest the head goes. */
  function RemoveFirst<T(==)>(l: seq<T>, x: T): seq<T> {
    if l == [] then []
    else if l[0] == x then l[1..]
    else [l[0]] + RemoveFirst(l[1..], x)
  }

  lemma {:induction false} RemoveFirstTakesOne<T>(l: seq<T>, x: T)
    ensures multiset(RemoveFirst(l, x)) == multiset(l) - multiset{x}
  {
    if l != [] {
      assert l == [l[0]] + l[1..];
      if l[0] != x {
        RemoveFirstTakesOne(l[1..], x);
      }
    }
  }

  /** It is the first occurrence from the head that goes, and the rest keeps its order. */
  lemma {:induction false} RemoveFirstTakesTheFirst<T>(l: seq<T>, x: T, i: nat)
    requires i < |l| && l[i] == x && x !in l[..i]
    ensures RemoveFirst(l, x) == l[..i] + l[i + 1..]
  {
    if i > 0 {
      assert l[0] in l[..i];
      assert l[1..][..i - 1] == l[..i][1..];
      RemoveFirstTakesTheFirst(l[1..], x, i - 1);
    }
  }

  /** LTRIM key 0 (n - 1): both ends are inclusive, so n elements stay. */
  function Take<T>(l: seq<T>, n: nat): (r: seq<T>)
    ensures r <= l && |r| == (if |l| <= n then |l| else n)
  {
    if |l| <= n then l else l[..n]
  }

  function ToSet<T(==,!new)>(l: seq<T>): (r: set<T>)
    ensures forall x :: x in r <==> x in l
  {
    set x | x in l
  }

  function Reverse<T>(l: seq<T>): (r: seq<T>)
    ensures |r| == |l| && forall i :: 0 <= i < |l| ==> r[i] == l[|l| - 1 - i]
  {
    if l == [] then [] else Reverse(l[1..]) + [l[0]]
  }

  lemma {:induction false} RemoveAllNoDup<T(!new)>(l: seq<T>, x: T)
    requires NoDup(l)
    ensures NoDup(RemoveAll(l, x))
  {
    if l != [] {
      RemoveAllNoDup(l[1..], x);
      assert l[0] !in l[1..];
    }
  }

  /** On a list without repetitions the two forms of LREM agree. */
  lemma {:induction false} RemoveFirstIsRemoveAll<T(!new)>(l: seq<T>, x: T)
    requires NoDup(l)
    ensures RemoveFirst(l, x) == RemoveAll(l, x)
  {
    if l != [] {
      if l[0] == x {
        assert x !in l[1..];
      } else {
        RemoveFirstIsRemoveAll(l[1..], x);
      }
    }
  }

  /** The member order ZRANGE and ZRANGEBYSCORE reply with: by score, then by member. */
  ghost predicate InScoreOrder<K(!new)>(ids: seq<K>, z: map<K, int>) {
    && (forall i :: 0 <= i < |ids| ==> ids[i] in z)
    && (forall i, j :: 0 <= i < j < |ids| ==> z[ids[i]] <= z[ids[j]])
  }

  /** A reply of ZRANGEBYSCORE key 0 max: each member once, in score order, and nobody missing. */
  ghost predicate IsDueReply<K(!new)>(ids: seq<K>, z: map<K, int>, max: int) {
    && NoDup(ids)
    && InScoreOrder(ids, z)
    && (forall id :: id in ids <==> id in z && 0 <= z[id] <= max)
  }

  /** A reply of ZRANGE key 0 -1. */
  ghost predicate IsFullReply<K(!new)>(ids: seq<K>, z: map<K, int>) {
    && NoDup(ids)
    && InScoreOrder(ids, z)
    && (forall id :: id in ids <==> id in z)
  }
}
