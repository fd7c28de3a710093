/** Ordered dictionaries, the odict of ioflo: entries in the order their keys were added. */
module Odicts {
  import opened Basics

  type Odict<K, V> = seq<(K, V)>

  /** No key twice. */
  ghost predicate Proper<K, V>(d: Odict<K, V>) {
    forall i, j :: 0 <= i < j < |d| ==> d[i].0 != d[j].0
  }

  function Get<K(==), V>(d: Odict<K, V>, k: K): Option<V> {
    if d == [] then None else if d[0].0 == k then Some(d[0].1) else Get(d[1..], k)
  }

  /** d[k] = v: in place if the key is there, else at the end. */
  function Put<K(==), V>(d: Odict<K, V>, k: K, v: V): Odict<K, V> {
    if d == [] then [(k, v)]
    else if d[0].0 == k then [(k, v)] + d[1..]
    else [d[0]] + Put(d[1..], k, v)
  }

  /** del d[k], or nothing if the key is not there. */
  function Delete<K(==), V>(d: Odict<K, V>, k: K): Odict<K, V> {
    if d == [] then [] else if d[0].0 == k then d[1..] else [d[0]] + Delete(d[1..], k)
  }

  function Keys<K, V>(d: Odict<K, V>): (r: seq<K>)
    ensures |r| == |d| && forall i :: 0 <= i < |d| ==> r[i] == d[i].0
  {
    seq(|d|, i requires 0 <= i < |d| => d[i].0)
  }

  lemma {:induction false} GetIs<K, V>(d: Odict<K, V>, k: K)
    ensures Get(d, k).Some? ==> (k, Get(d, k).value) in d
    ensures Get(d, k).None? <==> forall e :: e in d ==> e.0 != k
    ensures Proper(d) ==> forall e :: e in d && e.0 == k ==> Get(d, k) == Some(e.1)
  {
    if d != [] {
      GetIs(d[1..], k);
      assert forall e :: e in d <==> e == d[0] || e in d[1..];
    }
  }

  lemma ConsIs<K, V>(e: (K, V), rest: Odict<K, V>)
    ensures Proper([e] + rest) <==> Proper(rest) && forall f :: f in rest ==> f.0 != e.0
    ensures forall f :: f in [e] + rest <==> f == e || f in rest
  {
    var d := [e] + rest;
    assert d[1..] == rest;
    forall f | f in rest ensures f in d {
      var i :| 0 <= i < |rest| && rest[i] == f;
      assert d[i + 1] == f;
    }
    if Proper(d) {
      forall i, j | 0 <= i < j < |rest| ensures rest[i].0 != rest[j].0 {
        assert d[i + 1] == rest[i] && d[j + 1] == rest[j];
      }
      forall f | f in rest ensures f.0 != e.0 {
        var i :| 0 <= i < |rest| && rest[i] == f;
        assert d[i + 1] == f && d[0] == e;
      }
    }
  }

  lemma {:induction false} PutIs<K, V>(d: Odict<K, V>, k: K, v: V)
    requires Proper(d)
    ensures Proper(Put(d, k, v))
    ensures forall e :: e in Put(d, k, v) ==> e == (k, v) || (e in d && e.0 != k)
    ensures forall e :: e in d && e.0 != k ==> e in Put(d, k, v)
    ensures (k, v) in Put(d, k, v)
    ensures Get(d, k).None? ==> Put(d, k, v) == d + [(k, v)]
  {
    if d == [] {
    } else {
      assert d == [d[0]] + d[1..];
      ConsIs(d[0], d[1..]);
      PutIs(d[1..], k, v);
      if d[0].0 == k {
        ConsIs((k, v), d[1..]);
      } else {
        var rest := Put(d[1..], k, v);
        assert Put(d, k, v) == [d[0]] + rest;
        ConsIs(d[0], rest);
      }
    }
  }

  lemma PutNew<K, V>(d: Odict<K, V>, k: K, v: V)
    requires Proper(d) && Get(d, k).None?
    ensures Put(d, k, v) == d + [(k, v)] && Proper(d + [(k, v)])
  {
    PutIs(d, k, v);
    hide Put, Get, Proper;
  }

  lemma {:induction false} DeleteIs<K, V>(d: Odict<K, V>, k: K)
    requires Proper(d)
    ensures Proper(Delete(d, k))
    ensures forall e :: e in Delete(d, k) ==> e in d && e.0 != k
    ensures forall e :: e in d && e.0 != k ==> e in Delete(d, k)
  {
    if d == [] {
    } else {
      assert d == [d[0]] + d[1..];
      ConsIs(d[0], d[1..]);
      DeleteIs(d[1..], k);
      if d[0].0 != k {
        var rest := Delete(d[1..], k);
        assert Delete(d, k) == [d[0]] + rest;
        ConsIs(d[0], rest);
      }
    }
  }

  /** d' is d without its entry for k: nothing else is gone and the order is the same. */
  ghost predicate Without<K, V>(d: Odict<K, V>, k: K, d': Odict<K, V>) {
    || (d' == d && forall i :: 0 <= i < |d| ==> d[i].0 != k)
    || exists i :: 0 <= i < |d| && d[i].0 == k && d' == d[..i] + d[i + 1..]
  }

  lemma DeleteIsWithout<K, V>(d: Odict<K, V>, k: K)
    requires Proper(d)
    ensures Without(d, k, Delete(d, k)) && Get(Delete(d, k), k).None?
  {
    hide Delete, Get, Position, Proper;
    DeleteIs(d, k);
    GetIs(Delete(d, k), k);
    if Get(d, k).Some? {
      DeletesPosition(d, k);
    } else {
      DeletesNothing(d, k);
      GetIs(d, k);
      forall i | 0 <= i < |d| ensures d[i].0 != k {
        assert d[i] in d;
      }
    }
  }

  lemma {:induction false} DeletesNothing<K, V>(d: Odict<K, V>, k: K)
    requires Get(d, k).None?
    ensures Delete(d, k) == d
  {
    if d != [] {
      DeletesNothing(d[1..], k);
    }
  }

  /** keys().index(k) */
  function Position<K(==), V>(d: Odict<K, V>, k: K): (i: nat)
    requires Get(d, k).Some?
    ensures i < |d| && d[i] == (k, Get(d, k).value)
  {
    if d[0].0 == k then 0 else 1 + Position(d[1..], k)
  }

  lemma {:induction false} DeletesPosition<K, V>(d: Odict<K, V>, k: K)
    requires Get(d, k).Some?
    ensures Delete(d, k) == d[..Position(d, k)] + d[Position(d, k) + 1..]
  {
    if d[0].0 != k {
      DeletesPosition(d[1..], k);
    }
  }

  /** Deleting the entry between front and back. */
  lemma {:induction false} DeleteAt<K, V>(front: Odict<K, V>, e: (K, V), back: Odict<K, V>)
    requires forall f :: f in front ==> f.0 != e.0
    ensures Delete(front + [e] + back, e.0) == front + back
  {
    if front == [] {
      assert front + [e] + back == [e] + back;
    } else {
      assert (front + [e] + back)[1..] == front[1..] + [e] + back;
      assert front[0] in front;
      DeleteAt(front[1..], e, back);
    }
  }

  lemma {:induction false} GetAppend<K, V>(d: Odict<K, V>, e: (K, V), k: K)
    requires Get(d, k).None?
    ensures Get(d + [e], k) == if e.0 == k then Some(e.1) else None
  {
    if d == [] {
      assert d + [e] == [e] && [e][1..] == [];
    } else {
      assert (d + [e])[1..] == d[1..] + [e];
      GetAppend(d[1..], e, k);
    }
  }
}
