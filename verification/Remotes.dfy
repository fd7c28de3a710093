/** The two indexes of a stack's remotes, by uid and by name: raet/stacking.py, addRemote to
    removeRemote, and how a new remote gets its uid (raet/road/estating.py). */
module Remotes {
  import opened Basics
  import opened Odicts
  import opened Lotting

  class Remote {
    var uid: nat
    var name: string

    constructor (uid: nat, name: string)
      ensures this.uid == uid && this.name == name
    {
      this.uid, this.name := uid, name;
    }
  }

  /** Replacing the entry of one key by one of a new key at the same place. */
  function Rekeyed<K(==), V>(d: Odict<K, V>, was: K, key: K, v: V): Odict<K, V>
    requires Get(d, was).Some?
  {
    d[Position(d, was) := (key, v)]
  }

  /** Without the entry at its position, the rest moves up by one. */
  lemma WithoutPosition<K, V>(d: Odict<K, V>, k: K)
    requires Get(d, k).Some?
    ensures |Delete(d, k)| == |d| - 1
    ensures forall j :: 0 <= j < |d| - 1 ==> Delete(d, k)[j] == d[if j < Position(d, k) then j else j + 1]
    ensures Proper(d) ==> Proper(Delete(d, k))
  {
    hide Delete, Position, Get, Proper;
    DeletesPosition(d, k);
    if Proper(d) {
      DeleteIs(d, k);
    }
  }

  /** del d[k] and insert at the same index. */
  lemma Reinserted<K, V>(d: Odict<K, V>, k: K, key: K, v: V)
    requires Get(d, k).Some?
    ensures var i, rest := Position(d, k), Delete(d, k);
            i <= |rest| && rest[..i] + [(key, v)] + rest[i..] == Rekeyed(d, k, key, v)
  {
    DeletesPosition(d, k);
  }

  lemma AtPosition<K, V>(d: Odict<K, V>, i: nat)
    requires Proper(d) && i < |d|
    ensures Get(d, d[i].0) == Some(d[i].1) && Position(d, d[i].0) == i
  {
    GetIs(d, d[i].0);
    assert d[i] in d;
  }

  class Stack {
    const uid: nat       // the local estate's
    const name: string
    var puid: nat
    var uidRemotes: Odict<nat, Remote>
    var nameRemotes: Odict<string, Remote>

    /** Both indexes list the same remotes in the same order, each under its present uid or name;
        none has the local name, or the local uid unless that is 0. */
    ghost predicate Valid()
      reads this, set i | 0 <= i < |uidRemotes| :: uidRemotes[i].1
    {
      && Proper(uidRemotes) && Proper(nameRemotes) && |uidRemotes| == |nameRemotes|
      && (forall i :: 0 <= i < |uidRemotes| ==>
            && uidRemotes[i] == (uidRemotes[i].1.uid, uidRemotes[i].1)
            && nameRemotes[i] == (uidRemotes[i].1.name, uidRemotes[i].1)
            && (uidRemotes[i].0 == 0 || uidRemotes[i].0 != uid)
            && nameRemotes[i].0 != name)
    }

    /** A remote is found by its uid exactly if it is found by its name, and at the same place. */
    lemma LookupsAgree(r: Remote)
      requires Valid()
      ensures Get(uidRemotes, r.uid) == Some(r) <==> Get(nameRemotes, r.name) == Some(r)
      ensures Get(uidRemotes, r.uid) == Some(r) ==> Position(uidRemotes, r.uid) == Position(nameRemotes, r.name)
    {
      if Get(uidRemotes, r.uid) == Some(r) {
        AtPosition(nameRemotes, Position(uidRemotes, r.uid));
      }
      if Get(nameRemotes, r.name) == Some(r) {
        AtPosition(uidRemotes, Position(nameRemotes, r.name));
      }
    }

    constructor (uid: nat, name: string)
      ensures Valid() && uidRemotes == [] && nameRemotes == [] && puid == 0
      ensures this.uid == uid && this.name == name
    {
      this.uid, this.name, puid, uidRemotes, nameRemotes := uid, name, 0, [], [];
    }

    /** StackError as false, here and below. */
    method AddRemote(r: Remote) returns (ok: bool)
      requires Valid()
      modifies this`uidRemotes, this`nameRemotes
      ensures Valid()
      ensures ok <==> && Get(old(uidRemotes), r.uid).None? && (r.uid == 0 || r.uid != uid)
                      && Get(old(nameRemotes), r.name).None? && r.name != name
      ensures uidRemotes == old(uidRemotes) + if ok then [(r.uid, r)] else []
      ensures nameRemotes == old(nameRemotes) + if ok then [(r.name, r)] else []
    {
      if Get(uidRemotes, r.uid).Some? || (r.uid != 0 && r.uid == uid) {
        return false;
      }
      if Get(nameRemotes, r.name).Some? || r.name == name {
        return false;
      }
      PutNew(uidRemotes, r.uid, r);
      PutNew(nameRemotes, r.name, r);
      hide Get, Put, Proper;
      uidRemotes := Put(uidRemotes, r.uid, r);
      nameRemotes := Put(nameRemotes, r.name, r);
      return true;
    }

    method MoveRemote(r: Remote, newUid: nat) returns (ok: bool)
      requires Valid()
      modifies this`uidRemotes, r`uid
      ensures Valid()
      ensures ok <==> Get(old(uidRemotes), newUid).None? && newUid != uid && Get(old(uidRemotes), old(r.uid)) == Some(r)
      ensures r.uid == if ok then newUid else old(r.uid)
      ensures uidRemotes == if ok then Rekeyed(old(uidRemotes), old(r.uid), newUid, r) else old(uidRemotes)
    {
      var was := r.uid;
      if Get(uidRemotes, newUid).Some? || newUid == uid {
        return false;
      }
      if Get(uidRemotes, was).None? {
        return false;
      }
      if Get(uidRemotes, was) != Some(r) {
        return false;
      }
      GetIs(uidRemotes, newUid);
      Reinserted(uidRemotes, was, newUid, r);
      r.uid := newUid;
      var index := Position(uidRemotes, was);
      uidRemotes := Delete(uidRemotes, was);
      uidRemotes := uidRemotes[..index] + [(newUid, r)] + uidRemotes[index..];
      return true;
    }

    method RenameRemote(r: Remote, newName: string) returns (ok: bool)
      requires Valid()
      modifies this`nameRemotes, r`name
      ensures Valid()
      ensures ok <==> || newName == old(r.name)
                      || (&& Get(old(nameRemotes), newName).None? && newName != name
                          && Get(old(nameRemotes), old(r.name)) == Some(r))
      ensures r.name == if ok then newName else old(r.name)
      ensures nameRemotes == if ok && newName != old(r.name)
                             then Rekeyed(old(nameRemotes), old(r.name), newName, r) else old(nameRemotes)
    {
      var was := r.name;
      if newName == was {
        return true;
      }
      if Get(nameRemotes, newName).Some? || newName == name {
        return false;
      }
      if Get(nameRemotes, was).None? {
        return false;
      }
      if Get(nameRemotes, was) != Some(r) {
        return false;
      }
      GetIs(nameRemotes, newName);
      Reinserted(nameRemotes, was, newName, r);
      r.name := newName;
      var index := Position(nameRemotes, was);
      nameRemotes := Delete(nameRemotes, was);
      nameRemotes := nameRemotes[..index] + [(newName, r)] + nameRemotes[index..];
      return true;
    }

    method RemoveRemote(r: Remote) returns (ok: bool)
      requires Valid()
      modifies this`uidRemotes, this`nameRemotes
      ensures Valid()
      ensures ok <==> Get(old(uidRemotes), r.uid) == Some(r)
      ensures uidRemotes == if ok then Delete(old(uidRemotes), r.uid) else old(uidRemotes)
      ensures nameRemotes == if ok then Delete(old(nameRemotes), r.name) else old(nameRemotes)
    {
      if Get(uidRemotes, r.uid) != Some(r) {
        return false;
      }
      ghost var i := Position(uidRemotes, r.uid);
      AtPosition(nameRemotes, i);
      assert nameRemotes[i] == (r.name, r) && Position(nameRemotes, r.name) == i;
      hide Position, Get, Delete, Proper;
      WithoutPosition(uidRemotes, r.uid);
      WithoutPosition(nameRemotes, r.name);
      uidRemotes := Delete(uidRemotes, r.uid);
      nameRemotes := Delete(nameRemotes, r.name);
      return true;
    }

    method NextUid() returns (r: nat)
      modifies this`puid
      ensures puid == Next(old(puid)) && r == puid
    {
      puid := puid + 1;
      if puid > SID_ROLLOVER {
        puid := 1;
      }
      return puid;
    }

    ghost function Taken(): (t: set<nat>)
      reads this
      ensures |t| <= |uidRemotes| + 1
    {
      KeyCount(uidRemotes);
      ToSet(Keys(uidRemotes)) + {uid}
    }

    /** The loop in which a new remote gets its uid: while fewer than all ids are taken it ends with
        a free one, after no more draws than there are remotes and two. */
    method FreshUid() returns (r: nat, ghost draws: nat)
      requires IsId(puid) && |uidRemotes| + 1 < SID_ROLLOVER
      modifies this`puid
      ensures 1 <= r <= SID_ROLLOVER && r != uid && Get(uidRemotes, r).None?
      ensures r == puid == After(old(puid), draws) && draws <= |uidRemotes| + 2
    {
      assert After(old(puid), 0) == old(puid) && Drawn(old(puid), 1, {});
      hide ToSet, Keys, After, Drawn, Get, Next;
      r := NextUid();
      draws := 1;
      ghost var drawn: set<nat> := {};
      AfterOne(old(puid), 0);
      while Get(uidRemotes, r).Some? || r == uid
        invariant r == puid == After(old(puid), draws) && 1 <= r <= SID_ROLLOVER
        invariant drawn <= Taken() && |drawn| == draws - 1
        invariant Drawn(old(puid), draws, drawn)
        decreases |uidRemotes| + 2 - draws
      {
        FewerThanTaken(drawn, Taken());
        IsKey(uidRemotes, r);
        NotDrawn(old(puid), draws, drawn);
        drawn := drawn + {r};
        FewerThanTaken(drawn, Taken());
        AfterOne(old(puid), draws);
        r := NextUid();
        draws := draws + 1;
      }
      FewerThanTaken(drawn, Taken());
    }
  }

  lemma {:induction false} KeyCount<V>(d: Odict<nat, V>)
    ensures |ToSet(Keys(d))| <= |d|
  {
    if d == [] {
      assert ToSet(Keys(d)) == {};
    } else {
      KeyCount(d[1..]);
      assert Keys(d) == [d[0].0] + Keys(d[1..]);
      assert ToSet(Keys(d)) == {d[0].0} + ToSet(Keys(d[1..]));
    }
  }

  lemma IsKey<V>(d: Odict<nat, V>, k: nat)
    ensures Get(d, k).Some? ==> k in ToSet(Keys(d))
  {
    GetIs(d, k);
    if Get(d, k).Some? {
      var i := Position(d, k);
      assert Keys(d)[i] == k;
    }
  }

  lemma {:induction false} FewerThanTaken(a: set<nat>, b: set<nat>)
    requires a <= b
    ensures |a| <= |b|
  {
    if a != {} {
      var x :| x in a;
      FewerThanTaken(a - {x}, b - {x});
    }
  }

  lemma {:induction false} AfterOne(s: nat, k: nat)
    ensures After(s, k + 1) == Next(After(s, k))
    decreases k
  {
    if k == 0 {
      assert After(s, 1) == After(Next(s), 0);
    } else {
      AfterOne(Next(s), k - 1);
    }
  }

  /** The ids before that draw. */
  ghost predicate Drawn(s: nat, draws: nat, drawn: set<nat>) {
    forall n :: n in drawn ==> exists j :: 1 <= j < draws && After(s, j) == n
  }

  lemma NotDrawn(s: nat, draws: nat, drawn: set<nat>)
    requires IsId(s) && 1 <= draws <= SID_ROLLOVER && Drawn(s, draws, drawn)
    ensures After(s, draws) !in drawn && Drawn(s, draws + 1, drawn + {After(s, draws)})
  {
    if After(s, draws) in drawn {
      var j :| 1 <= j < draws && After(s, j) == After(s, draws);
      AfterInjective(s, j, draws);
    }
    hide After;
    forall n | n in drawn + {After(s, draws)} ensures exists j :: 1 <= j < draws + 1 && After(s, j) == n {
      if n in drawn {
        var j :| 1 <= j < draws && After(s, j) == n;
      }
    }
  }
}
