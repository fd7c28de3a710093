/** Two stacks over all sessions: how often a message is delivered that its sender puts back at a
    session change and sends again under another index. */
module Repeats {
  import opened Basics
  import opened Odicts
  import opened Lotting
  import opened Estating
  import opened Sessions
  import opened SessionRuns
  import opened Fates
  import opened Making
  import opened Serving
  import M = Messaging
  import T = Traying

  // -------------------------------------------------------------------- Two stacks

  /** The index of the same transaction at the other stack. */
  function Mirror(i: Index): Index { Index(!i.rf, i.si, i.ti) }

  /** Two stacks with a remote for each other. `log` has every Messenger that ours made, with its
      body, and `back` the indexes of those that a session change put back. `accepted` and `dropped`
      are what ours took from message() and dropped of what it had saved, and `moved` is how far the
      session id has moved that theirs remembers. */
  datatype World = World(ours: Stack, theirs: Stack, log: Log, back: set<Index>,
                         accepted: multiset<Bytes>, dropped: multiset<Bytes>, moved: nat)

  datatype Turn = Ours(e: Event) | Theirs(e: Event)

  /** Whatever reaches ours is possible, and of the other packets that reach theirs: but a message
      segment under an index of a remote's transaction belongs to what ours sends under it. It may
      have been on the way for as long as it likes. */
  ghost predicate Possible(w: World, turn: Turn, cut: Bytes -> seq<Bytes>) {
    && (turn.e.Arrive? ==> IsId(turn.e.x.si))
    && (turn.Theirs? && turn.e.Arrive? && IsSegment(turn.e.x) ==> Sent(w.log, turn.e.x, cut))
  }

  predicate IsSegment(x: Rx) { !x.cf && x.tk.Message? && x.pk.Segment? }

  ghost predicate Sent(log: Log, x: Rx, cut: Bytes -> seq<Bytes>)
    requires IsSegment(x)
  {
    exists k :: 0 <= k < |log| && log[k].0 == Index(false, x.si, x.ti) && Part(x.pk.packet, cut(log[k].1))
  }

  function PendingAt(d: Table): set<Index> { set e | e in d && e.1.Messenger? :: e.0 }

  function Turned(w: World, turn: Turn): World {
    match turn
    case Ours(e) =>
      var s := Happen(w.ours, e);
      w.(ours := s, log := w.log + MadeBy(w.ours, e),
         back := if s.remote.sid != w.ours.remote.sid then w.back + PendingAt(w.ours.remote.transactions) else w.back,
         accepted := w.accepted + Accepted(w.ours, e), dropped := w.dropped + Dropped(w.ours, e))
    case Theirs(e) => w.(theirs := Happen(w.theirs, e), moved := w.moved + Moved(w.theirs, e))
  }

  function Played(w: World, turns: seq<Turn>): World
    decreases |turns|
  {
    if turns == [] then w else Played(Turned(w, turns[0]), turns[1..])
  }

  ghost predicate Legal(w: World, turns: seq<Turn>, cut: Bytes -> seq<Bytes>)
    decreases |turns|
  {
    turns == [] || (Possible(w, turns[0], cut) && Legal(Turned(w, turns[0]), turns[1..], cut))
  }

  // -------------------------------------------------------------------- Sums of a log

  /** The bodies of the entries with those indexes. */
  function Sum(log: Log, keys: set<Index>): multiset<Bytes> {
    if log == [] then multiset{}
    else (if log[0].0 in keys then multiset{log[0].1} else multiset{}) + Sum(log[1..], keys)
  }

  /** The bodies of the other entries. */
  function Rest(log: Log, keys: set<Index>): multiset<Bytes> {
    if log == [] then multiset{}
    else (if log[0].0 in keys then multiset{} else multiset{log[0].1}) + Rest(log[1..], keys)
  }

  /** No index was used for two messages: no transaction id of a session came twice. */
  ghost predicate Unrepeated(log: Log) {
    forall j, k :: 0 <= j < k < |log| ==> log[j].0 != log[k].0
  }

  ghost predicate Within(keys: set<Index>, log: Log) {
    forall i :: i in keys ==> exists k :: 0 <= k < |log| && log[k].0 == i
  }

  /** The indexes, as ours has them, of what was delivered. */
  function Got(rxMsgs: Log): set<Index> { set e | e in rxMsgs :: Mirror(e.0) }

  lemma {:induction false} SumAppend(a: Log, b: Log, keys: set<Index>)
    ensures Sum(a + b, keys) == Sum(a, keys) + Sum(b, keys)
  {
    if a == [] {
      assert a + b == b;
    } else {
      assert (a + b)[1..] == a[1..] + b;
      SumAppend(a[1..], b, keys);
    }
  }

  lemma {:induction false} SumNone(log: Log, keys: set<Index>)
    requires forall k :: 0 <= k < |log| ==> log[k].0 !in keys
    ensures Sum(log, keys) == multiset{}
  {
    if log != [] {
      SumNone(log[1..], keys);
    }
  }

  /** New entries add nothing to a sum over indexes of old ones. */
  lemma SumGrows(log: Log, more: Log, keys: set<Index>)
    requires Unrepeated(log + more) && Within(keys, log)
    ensures Sum(log + more, keys) == Sum(log, keys) && Within(keys, log + more)
    ensures forall k :: 0 <= k < |more| ==> more[k].0 !in keys
  {
    var all := log + more;
    forall j, k | 0 <= j < |log| && 0 <= k < |more| ensures log[j].0 != more[k].0 {
      assert all[j] == log[j] && all[|log| + k] == more[k];
    }
    forall i | i in keys ensures exists k :: 0 <= k < |all| && all[k].0 == i {
      var j :| 0 <= j < |log| && log[j].0 == i;
      assert all[j].0 == i;
    }
    SumAppend(log, more, keys);
    SumNone(more, keys);
    NoneOnly(Sum(log, keys));
  }

  lemma {:induction false} SumAdds(log: Log, keys: set<Index>, k: nat)
    requires Unrepeated(log) && k < |log| && log[k].0 !in keys
    ensures Sum(log, keys + {log[k].0}) == Sum(log, keys) + multiset{log[k].1}
    decreases |log|
  {
    var more := keys + {log[k].0};
    if k == 0 {
      SumSame(log[1..], keys, more);
    } else {
      SumAdds(log[1..], keys, k - 1);
      assert log[1..][k - 1] == log[k];
    }
  }

  lemma {:induction false} SumSame(log: Log, a: set<Index>, b: set<Index>)
    requires forall k :: 0 <= k < |log| ==> (log[k].0 in a <==> log[k].0 in b)
    ensures Sum(log, a) == Sum(log, b)
  {
    if log != [] {
      SumSame(log[1..], a, b);
    }
  }

  /** Each entry is delivered, or put back, or neither; and some are both. */
  lemma {:induction false} EachEntry(log: Log, got: set<Index>, back: set<Index>)
    ensures Sum(log, got) + Sum(log, back) + Rest(log, got + back) == Total(log) + Sum(log, got * back)
  {
    if log != [] {
      EachEntry(log[1..], got, back);
      var x := multiset{log[0].1};
      var g, b := log[0].0 in got, log[0].0 in back;
      OneEntry(if g then x else multiset{}, if b then x else multiset{}, if g || b then multiset{} else x,
               x, if g && b then x else multiset{},
               Sum(log[1..], got), Sum(log[1..], back), Rest(log[1..], got + back),
               Total(log[1..]), Sum(log[1..], got * back));
    }
  }

  lemma OneEntry(g0: multiset<Bytes>, b0: multiset<Bytes>, r0: multiset<Bytes>, t0: multiset<Bytes>,
                 d0: multiset<Bytes>, g: multiset<Bytes>, b: multiset<Bytes>, r: multiset<Bytes>,
                 t: multiset<Bytes>, d: multiset<Bytes>)
    requires g0 + b0 + r0 == t0 + d0 && g + b + r == t + d
    ensures (g0 + g) + (b0 + b) + (r0 + r) == (t0 + t) + (d0 + d)
  {
    forall x: Bytes ensures ((g0 + g) + (b0 + b) + (r0 + r))[x] == ((t0 + t) + (d0 + d))[x] {
      assert (g0 + b0 + r0)[x] == (t0 + d0)[x] && (g + b + r)[x] == (t + d)[x];
    }
  }

  lemma PendingAtCons(e: (Index, Transaction), d: Table)
    ensures PendingAt([e] + d) == (if e.1.Messenger? then {e.0} else {}) + PendingAt(d)
  {
    forall i ensures i in PendingAt([e] + d) <==> i in (if e.1.Messenger? then {e.0} else {}) + PendingAt(d) {
      assert forall f :: f in [e] + d <==> f == e || f in d;
    }
  }

  lemma Around(a: multiset<Bytes>, b: multiset<Bytes>, x: multiset<Bytes>)
    ensures a + b + x == a + (x + b)
  {
  }

  /** One Messenger more. */
  lemma SumWithOne(log: Log, keys: set<Index>, i: Index, body: Bytes, rest: Table)
    requires Unrepeated(log) && (i, body) in log && i !in keys && i !in PendingAt(rest)
    requires Sum(log, keys + PendingAt(rest)) == Sum(log, keys) + Pending(rest)
    ensures Sum(log, keys + ({i} + PendingAt(rest))) == Sum(log, keys) + (multiset{body} + Pending(rest))
    ensures exists k :: 0 <= k < |log| && log[k].0 == i
  {
    hide *;
    var k :| 0 <= k < |log| && log[k] == (i, body);
    assert log[k].0 == i;
    SumAdds(log, keys + PendingAt(rest), k);
    assert keys + PendingAt(rest) + {i} == keys + ({i} + PendingAt(rest));
    Around(Sum(log, keys), Pending(rest), multiset{body});
  }

  /** The sum over the Messengers of a table. */
  lemma {:induction false} SumTable(log: Log, keys: set<Index>, d: Table)
    requires Unrepeated(log) && Proper(d)
    requires forall e :: e in d && e.1.Messenger? ==> (e.0, e.1.body) in log && e.0 !in keys
    ensures Sum(log, keys + PendingAt(d)) == Sum(log, keys) + Pending(d)
    ensures forall i :: i in PendingAt(d) ==> exists k :: 0 <= k < |log| && log[k].0 == i
  {
    if d == [] {
      assert keys + PendingAt(d) == keys;
      NoneOnly(Sum(log, keys));
    } else {
      var e, rest := d[0], d[1..];
      assert d == [e] + rest;
      ConsIs(e, rest);
      PendingCons(e, rest);
      PendingAtCons(e, rest);
      SumTable(log, keys, rest);
      hide Sum, Pending, Proper, Unrepeated;
      if e.1.Messenger? {
        SumWithOne(log, keys, e.0, e.1.body, rest);
      } else {
        assert {} + PendingAt(rest) == PendingAt(rest);
        NoneOnly(Pending(rest));
      }
    }
  }

  // ------------------------------------------------------------------ The invariant

  /** The Messengent at an index is fed with one message of the log. */
  ghost predicate Feeding(log: Log, i: Index, t: T.Tray, cut: Bytes -> seq<Bytes>) {
    exists k :: 0 <= k < |log| && log[k].0 == Mirror(i) && Fits(t, cut(log[k].1))
  }

  /** What comes in, and what was delivered, is what was made. */
  ghost predicate Fed(s: Stack, log: Log, cut: Bytes -> seq<Bytes>) {
    && (forall e :: e in s.remote.transactions && e.1.Messengent? ==> Feeding(log, e.0, e.1.m.tray, cut))
    && (forall e :: e in s.rxMsgs ==> (Mirror(e.0), e.1) in log)
  }

  /** Every pending Messenger is in the log, and was not put back. */
  ghost predicate Pends(w: World) {
    forall e :: e in w.ours.remote.transactions && e.1.Messenger? ==> (e.0, e.1.body) in w.log && e.0 !in w.back
  }

  ghost predicate Inv(w: World, cut: Bytes -> seq<Bytes>) {
    && Good(w.ours.remote) && Good(w.theirs.remote) && Once(w.theirs, w.moved)
    && Pends(w) && Within(w.back, w.log) && Fed(w.theirs, w.log, cut)
    && Total(w.log) + multiset(w.ours.remote.messages) + w.dropped == w.accepted + Sum(w.log, w.back)
    && Total(w.theirs.rxMsgs) == Sum(w.log, Got(w.theirs.rxMsgs))
  }

  lemma FedGrows(s: Stack, log: Log, more: Log, cut: Bytes -> seq<Bytes>)
    requires Fed(s, log, cut)
    ensures Fed(s, log + more, cut)
  {
    hide Fits;
    forall e | e in s.remote.transactions && e.1.Messengent? ensures Feeding(log + more, e.0, e.1.m.tray, cut) {
      var k :| 0 <= k < |log| && log[k].0 == Mirror(e.0) && Fits(e.1.m.tray, cut(log[k].1));
      assert (log + more)[k] == log[k];
    }
  }

  lemma GotWithin(s: Stack, log: Log, cut: Bytes -> seq<Bytes>)
    requires Fed(s, log, cut)
    ensures Within(Got(s.rxMsgs), log)
  {
    hide Feeding;
    forall i | i in Got(s.rxMsgs) ensures exists k :: 0 <= k < |log| && log[k].0 == i {
      var e :| e in s.rxMsgs && Mirror(e.0) == i;
      assert (i, e.1) in log;
    }
  }

  lemma InLog(log: Log, entry: (Index, Bytes))
    requires entry in log
    ensures exists k :: 0 <= k < |log| && log[k].0 == entry.0
  {
    var k :| 0 <= k < |log| && log[k] == entry;
    assert log[k].0 == entry.0;
  }

  /** What a session change puts back is in the log. */
  lemma BackWithin(w: World, e: Event)
    requires Pends(w) && Within(w.back, w.log)
    ensures Within(Turned(w, Ours(e)).back, w.log)
  {
    var before := w.ours.remote.transactions;
    forall i | i in PendingAt(before) ensures exists k :: 0 <= k < |w.log| && w.log[k].0 == i {
      var f :| f in before && f.1.Messenger? && f.0 == i;
      InLog(w.log, (f.0, f.1.body));
    }
    hide Happen, MadeBy, Accepted, Dropped;
  }

  /** Pending Messengers after an event of ours. */
  lemma OursPends(w: World, e: Event)
    requires Pends(w) && Within(w.back, w.log) && Accounts(w.ours, e)
    requires Unrepeated(w.log + MadeBy(w.ours, e))
    ensures Pends(Turned(w, Ours(e))) && Within(Turned(w, Ours(e)).back, w.log)
  {
    var w', made := Turned(w, Ours(e)), MadeBy(w.ours, e);
    var before, after := w.ours.remote.transactions, w'.ours.remote.transactions;
    MadeHas(after, before);
    BackWithin(w, e);
    SumGrows(w.log, made, w'.back);
    hide Happen, Sum, Made, Accepted, Dropped, Get, Total, Pending, Within, Unrepeated;
    forall f | f in after && f.1.Messenger? ensures (f.0, f.1.body) in w'.log && f.0 !in w'.back {
      if New(f, before) {
        assert (f.0, f.1.body) in made;
        var k :| 0 <= k < |made| && made[k] == (f.0, f.1.body);
      }
    }
  }

  /** The balance after an event of ours. */
  lemma OursBalance(w: World, e: Event, cut: Bytes -> seq<Bytes>)
    requires Inv(w, cut) && Accounts(w.ours, e) && Unrepeated(w.log) && Unrepeated(w.log + MadeBy(w.ours, e))
    requires Within(Turned(w, Ours(e)).back, w.log)
    ensures var w' := Turned(w, Ours(e));
            Total(w'.log) + multiset(w'.ours.remote.messages) + w'.dropped == w'.accepted + Sum(w'.log, w'.back)
  {
    var w', made := Turned(w, Ours(e)), MadeBy(w.ours, e);
    TotalAppend(w.log, made);
    SumGrows(w.log, made, w'.back);
    ProperOf(w.ours.remote);
    SumTable(w.log, w.back, w.ours.remote.transactions);
    assert Sum(w.log, w'.back) == Sum(w.log, w.back) + PutBack(w.ours, e) by {
      NoneOnly(Sum(w.log, w.back));
      hide Happen, Sum, Pending, Good, Once, Fed, Within, Unrepeated;
    }
    hide Happen, Sum, Made, Accepted, Dropped, Total, Pending, PutBack, Good, Once, Fed, Pends, Within, Unrepeated, New;
    FiveTerms(Total(w.log), multiset(w.ours.remote.messages), w.dropped, w.accepted, Sum(w.log, w.back),
              Total(made), multiset(w'.ours.remote.messages), Dropped(w.ours, e), PutBack(w.ours, e),
              Accepted(w.ours, e));
  }

  lemma FiveTerms(t: multiset<Bytes>, m: multiset<Bytes>, d: multiset<Bytes>, a: multiset<Bytes>, b: multiset<Bytes>,
                  t1: multiset<Bytes>, m1: multiset<Bytes>, d1: multiset<Bytes>, b1: multiset<Bytes>,
                  a1: multiset<Bytes>)
    requires t + m + d == a + b && t1 + m1 + d1 == m + b1 + a1
    ensures (t + t1) + m1 + (d + d1) == (a + a1) + (b + b1)
  {
    forall x: Bytes ensures ((t + t1) + m1 + (d + d1))[x] == ((a + a1) + (b + b1))[x] {
      assert (t + m + d)[x] == (a + b)[x] && (t1 + m1 + d1)[x] == (m + b1 + a1)[x];
    }
  }

  /** What becomes of the remote does not depend on what was delivered. */
  lemma SameSettled(s: Stack, i: Index, t: Option<M.Messengent>, r: M.Receiver)
    ensures Settle(s.(rxMsgs := []), i, r).remote == Settle(s, i, r).remote
    ensures Seen(s.(rxMsgs := []), i, t) == Seen(s, i, t)
  {
    hide Put, Delete;
  }

  lemma SameReceived(s: Stack, i: Index, t: Transaction, x: Rx)
    ensures Receive(s.(rxMsgs := []), i, t, x).0.remote == Receive(s, i, t, x).0.remote
  {
    if t.Messengent? {
      var u := if x.pk.Segment? then M.Seg(x.pk.packet) else M.StaleNack;
      SameSettled(s, i, Some(t.m), Respond(s.remote.allowed, Seen(s, i, Some(t.m)), u).0);
    }
    hide Respond, Settle, React, Seen;
  }

  lemma SameCorresponded(s: Stack, i: Index, x: Rx)
    ensures Correspond(s.(rxMsgs := []), i, x).0.remote == Correspond(s, i, x).0.remote
  {
    if x.pk.Segment? {
      SameSettled(s, i, None, Respond(s.remote.allowed, Seen(s, i, None), M.Seg(x.pk.packet)).0);
    }
    hide Respond, Settle, HelloAt, Seen;
  }

  lemma SameProcessed(s: Stack, x: Rx)
    ensures Process(s.(rxMsgs := []), x).0.remote == Process(s, x).0.remote
  {
    hide Receive, Correspond, Admit, ValidSid, Get;
    var s1, i := s.(remote := Admit(s.remote, x)), Index(!x.cf, x.si, x.ti);
    assert s.(rxMsgs := []).(remote := Admit(s.remote, x)) == s1.(rxMsgs := []);
    match Get(s1.remote.transactions, i)
    case Some(t) => SameReceived(s1, i, t, x);
    case None => SameCorresponded(s1, i, x);
  }

  lemma SameRedone(s: Stack, i: Index)
    ensures Redo(s.(rxMsgs := []), i).0.remote == Redo(s, i).0.remote
  {
    var t: Option<Transaction> := Get(s.remote.transactions, i);
    if t.Some? && t.value.Messengent? {
      SameSettled(s, i, Some(t.value.m), M.Nudge(Seen(s, i, Some(t.value.m))).0);
    }
    hide M.Nudge, Settle, Get, Seen;
  }

  lemma SameRemote(s: Stack, e: Event)
    ensures Happen(s.(rxMsgs := []), e).remote == Happen(s, e).remote
  {
    if e.Arrive? { SameProcessed(s, e.x); }
    if e.Expire? { SameRedone(s, e.index); }
    hide Process, Redo, SendOne, BeginJoin, BeginAllow, BeginAlive, JoinAsked, JoinDone, Lapse, Rejectable, Marked;
  }

  lemma OursGood(s: Stack, e: Event)
    requires Good(s.remote) && (e.Arrive? ==> IsId(e.x.si))
    ensures Good(Happen(s, e).remote)
  {
    var s0 := s.(rxMsgs := []);
    SameRemote(s, e);
    hide Good, Once, Happen;
    Once0(s0);
    HappenKeeps(s0, e, 0);
  }

  lemma OursKeeps(w: World, e: Event, cut: Bytes -> seq<Bytes>)
    requires Inv(w, cut) && (e.Arrive? ==> IsId(e.x.si)) && Unrepeated(w.log + MadeBy(w.ours, e))
    ensures Inv(Turned(w, Ours(e)), cut)
  {
    var made, got := MadeBy(w.ours, e), Got(w.theirs.rxMsgs);
    EventAccounts(w.ours, e);
    OursGood(w.ours, e);
    GotWithin(w.theirs, w.log, cut);
    FedGrows(w.theirs, w.log, made, cut);
    SumGrows(w.log, made, got);
    UnrepeatedBefore(w.log, made);
    OursPends(w, e);
    OursBalance(w, e, cut);
    WithinGrows(Turned(w, Ours(e)).back, w.log, made);
    hide Happen, Sum, Made, Accepted, Dropped, Total, Pending;
    hide Good, Once, Fed, Pends, Within, Unrepeated, Accounts, Got;
  }

  lemma UnrepeatedBefore(log: Log, more: Log)
    requires Unrepeated(log + more)
    ensures Unrepeated(log)
  {
    forall j, k | 0 <= j < k < |log| ensures log[j].0 != log[k].0 {
      assert (log + more)[j] == log[j] && (log + more)[k] == log[k];
    }
  }

  lemma WithinGrows(keys: set<Index>, log: Log, more: Log)
    requires Within(keys, log)
    ensures Within(keys, log + more)
  {
    forall i | i in keys ensures exists k :: 0 <= k < |log + more| && (log + more)[k].0 == i {
      var j :| 0 <= j < |log| && log[j].0 == i;
      assert (log + more)[j].0 == i;
    }
  }

  // ----------------------------------------------------------------- The receiver

  /** What a delivery adds: nothing, or one message of the log at an index. */
  ghost predicate Delivers(s: Stack, s': Stack, log: Log) {
    s'.rxMsgs == s.rxMsgs || exists e :: s'.rxMsgs == s.rxMsgs + [e] && (Mirror(e.0), e.1) in log
  }

  /** A step of the message protocol at index i, for the message of entry k. */
  lemma SettleFed(s: Stack, i: Index, r: M.Receiver, log: Log, k: nat, cut: Bytes -> seq<Bytes>)
    requires Proper(s.remote.transactions) && Fed(s, log, cut) && Cutting(cut)
    requires k < |log| && log[k].0 == Mirror(i) && Serves(r, cut(log[k].1))
    ensures Fed(Settle(s, i, r), log, cut) && Delivers(s, Settle(s, i, r), log)
  {
    var s' := Settle(s, i, r);
    if r.live.Some? {
      PutIs(s.remote.transactions, i, Messengent(r.live.value));
      assert Feeding(log, i, r.live.value.tray, cut);
    } else {
      DeleteIs(s.remote.transactions, i);
    }
    hide Put, Delete, Proper, Feeding, Fits;
    if r.rxMsgs == [] {
      assert s'.rxMsgs == s.rxMsgs;
    } else {
      assert s'.rxMsgs == s.rxMsgs + [(i, log[k].1)];
      assert log[k] == (Mirror(i), log[k].1);
    }
  }

  /** What leaves the Messengents alone. */
  lemma CalmFed(s: Stack, r: Remote, log: Log, cut: Bytes -> seq<Bytes>)
    requires Fed(s, log, cut) && forall e :: e in r.transactions && e.1.Messengent? ==> e in s.remote.transactions
    ensures Fed(s.(remote := r), log, cut) && Delivers(s, s.(remote := r), log)
  {
    hide Feeding;
  }

  /** The entry of the log for a packet, which is that of a Messengent at its index too. */
  lemma SameEntry(s: Stack, i: Index, live: Option<M.Messengent>, x: Rx, log: Log, cut: Bytes -> seq<Bytes>)
    returns (k: nat)
    requires Fed(s, log, cut) && Cutting(cut) && Unrepeated(log) && i == Index(true, x.si, x.ti)
    requires IsSegment(x) && Sent(log, x, cut)
    requires live.Some? ==> (i, Messengent(live.value)) in s.remote.transactions
    ensures k < |log| && log[k].0 == Mirror(i) && Part(x.pk.packet, cut(log[k].1))
    ensures Serves(Seen(s, i, live), cut(log[k].1))
  {
    k :| 0 <= k < |log| && log[k].0 == Index(false, x.si, x.ti) && Part(x.pk.packet, cut(log[k].1));
    if live.Some? {
      assert Feeding(log, i, live.value.tray, cut) by {
        assert (i, Messengent(live.value)).1.Messengent?;
        hide Feeding;
      }
      var j :| 0 <= j < |log| && log[j].0 == Mirror(i) && Fits(live.value.tray, cut(log[j].1));
      assert j == k;
    }
  }

  lemma HandleFed(s: Stack, i: Index, live: Option<M.Messengent>, x: Rx, log: Log, cut: Bytes -> seq<Bytes>)
    requires Proper(s.remote.transactions) && Fed(s, log, cut) && Cutting(cut) && Unrepeated(log)
    requires i == Index(true, x.si, x.ti) && IsSegment(x) && Sent(log, x, cut)
    requires live.Some? ==> (i, Messengent(live.value)) in s.remote.transactions
    ensures var s' := Handle(s, i, live, M.Seg(x.pk.packet)).0; Fed(s', log, cut) && Delivers(s, s', log)
  {
    var k := SameEntry(s, i, live, x, log, cut);
    assert cut(log[k].1) != [];
    hide Respond, Settle, Fed, Serves, Sent, Proper, Part, Delivers, Unrepeated;
    RespondServes(s.remote.allowed, Seen(s, i, live), M.Seg(x.pk.packet), cut(log[k].1));
    SettleFed(s, i, Respond(s.remote.allowed, Seen(s, i, live), M.Seg(x.pk.packet)).0, log, k, cut);
  }

  /** The nack of a Staler ends a Messengent and delivers nothing. */
  lemma StaleFed(s: Stack, i: Index, m: M.Messengent, log: Log, cut: Bytes -> seq<Bytes>)
    requires Proper(s.remote.transactions) && Fed(s, log, cut)
    ensures var s' := Handle(s, i, Some(m), M.StaleNack).0; Fed(s', log, cut) && Delivers(s, s', log)
  {
    var s' := Handle(s, i, Some(m), M.StaleNack).0;
    DeleteIs(s.remote.transactions, i);
    hide Put, Delete, Proper, Feeding;
    assert s'.rxMsgs == s.rxMsgs;
  }

  lemma ReceiveFed(s: Stack, i: Index, t: Transaction, x: Rx, log: Log, cut: Bytes -> seq<Bytes>)
    requires Good(s.remote) && Fed(s, log, cut) && Cutting(cut) && Unrepeated(log)
    requires i == Index(!x.cf, x.si, x.ti) && Get(s.remote.transactions, i) == Some(t)
    requires IsSegment(x) ==> Sent(log, x, cut)
    ensures var s' := Receive(s, i, t, x).0; Fed(s', log, cut) && Delivers(s, s', log)
  {
    GetIs(s.remote.transactions, i);
    assert Placed((i, t), s.remote.sid, s.remote.rsid);
    CalmFed(s, s.remote, log, cut);
    hide Fed, Handle, React, Sent, Get, Delivers, Unrepeated, Feeding;
    if t.Messengent? {
      if x.tk.Message? && x.pk.Segment? {
        HandleFed(s, i, Some(t.m), x, log, cut);
      } else if x.tk.Message? && x.pk.Nack? {
        StaleFed(s, i, t.m, log, cut);
      }
    } else {
      ReactCalm(s.remote, i, t, x, s.lesser);
      hide Good;
      CalmFed(s, React(s.remote, i, t, x, s.lesser), log, cut);
    }
  }

  lemma CorrespondFed(s: Stack, i: Index, x: Rx, log: Log, cut: Bytes -> seq<Bytes>)
    requires Good(s.remote) && Fed(s, log, cut) && Cutting(cut) && Unrepeated(log)
    requires !x.cf && i == Index(true, x.si, x.ti) && i.si == s.remote.rsid != 0
    requires IsSegment(x) ==> Sent(log, x, cut)
    ensures var s' := Correspond(s, i, x).0; Fed(s', log, cut) && Delivers(s, s', log)
  {
    CalmFed(s, s.remote, log, cut);
    ProperOf(s.remote);
    hide Fed, Handle, HelloAt, Sent, Delivers, Unrepeated, Good;
    if x.tk.Allow? && x.pk.Hello? {
      HelloCalm(s.remote, i, x.pk.good, s.lesser);
      CalmFed(s, HelloAt(s.remote, i, x.pk.good, s.lesser), log, cut);
    } else if x.tk.Message? && x.pk.Segment? {
      HandleFed(s, i, None, x, log, cut);
    }
  }

  /** A segment belongs to the log. */
  ghost predicate Honest(e: Event, log: Log, cut: Bytes -> seq<Bytes>) {
    e.Arrive? ==> IsId(e.x.si) && (IsSegment(e.x) ==> Sent(log, e.x, cut))
  }

  lemma DropsFed(s: Stack, r: Remote, s': Stack, log: Log, cut: Bytes -> seq<Bytes>)
    requires Delivers(s.(remote := r), s', log)
    ensures Delivers(s, s', log)
  {
  }

  lemma ProcessFed(s: Stack, x: Rx, log: Log, cut: Bytes -> seq<Bytes>)
    requires Good(s.remote) && Fed(s, log, cut) && Cutting(cut) && Unrepeated(log) && Honest(Arrive(x), log, cut)
    ensures var s' := Process(s, x).0; Fed(s', log, cut) && Delivers(s, s', log)
  {
    var i := Index(!x.cf, x.si, x.ti);
    CalmFed(s, s.remote, log, cut);
    if !s.gone && x.si != 0 && (x.cf || ValidSid(x.si, s.remote.rsid)) {
      if !x.cf && x.si != s.remote.rsid { AdmitGood(s.remote, x); }
      var s1 := s.(remote := Admit(s.remote, x));
      CalmFed(s, s1.remote, log, cut);
      assert !x.cf ==> s1.remote.rsid == x.si;
      hide Fed, Receive, Correspond, Admit, Sent, Get, Delivers, Unrepeated, Feeding, Good, ValidSid;
      var t: Option<Transaction> := Get(s1.remote.transactions, i);
      match t
      case Some(u) =>
        ReceiveFed(s1, i, u, x, log, cut);
        DropsFed(s, s1.remote, Receive(s1, i, u, x).0, log, cut);
      case None =>
        if !x.cf {
          CorrespondFed(s1, i, x, log, cut);
          DropsFed(s, s1.remote, Correspond(s1, i, x).0, log, cut);
        }
    }
  }

  lemma RedoFed(s: Stack, i: Index, log: Log, cut: Bytes -> seq<Bytes>)
    requires Good(s.remote) && Fed(s, log, cut) && Cutting(cut)
    ensures var s' := Redo(s, i).0; Fed(s', log, cut) && Delivers(s, s', log)
  {
    CalmFed(s, s.remote, log, cut);
    GetIs(s.remote.transactions, i);
    var t: Option<Transaction> := Get(s.remote.transactions, i);
    if t.Some? && t.value.Messengent? {
      var m := t.value.m;
      assert Feeding(log, i, m.tray, cut) by {
        assert (i, Messengent(m)).1.Messengent?;
        hide Feeding;
      }
      var k :| 0 <= k < |log| && log[k].0 == Mirror(i) && Fits(m.tray, cut(log[k].1));
      NudgeServes(Seen(s, i, Some(m)), cut(log[k].1));
      ProperOf(s.remote);
      hide M.Nudge, Settle, Fed, Delivers, Good, Fits, Proper;
      SettleFed(s, i, M.Nudge(Seen(s, i, Some(m))).0, log, k, cut);
    }
  }

  lemma TheirsFed(s: Stack, e: Event, log: Log, cut: Bytes -> seq<Bytes>)
    requires Good(s.remote) && Fed(s, log, cut) && Cutting(cut) && Unrepeated(log) && Honest(e, log, cut)
    ensures var s' := Happen(s, e); Fed(s', log, cut) && Delivers(s, s', log)
  {
    CalmFed(s, s.remote, log, cut);
    hide Fed, Process, Redo, Delivers, Good, Unrepeated;
    if !s.gone {
      match e {
        case Arrive(x) => ProcessFed(s, x, log, cut);
        case Expire(i) => RedoFed(s, i, log, cut);
        case Rejected(i) => RejectedFed(s, i, log, cut);
        case _ =>
          LocalCalm(s, e);
          assert Happen(s, e) == s.(remote := Happen(s, e).remote);
          CalmFed(s, Happen(s, e).remote, log, cut);
      }
    }
  }

  lemma RejectedFed(s: Stack, i: Index, log: Log, cut: Bytes -> seq<Bytes>)
    requires Fed(s, log, cut)
    ensures Fed(JoinRejected(s, i), log, cut) && Delivers(s, JoinRejected(s, i), log)
  {
    hide Feeding, Rejectable, Marked;
  }

  lemma GotMore(rxMsgs: Log, e: (Index, Bytes))
    ensures Got(rxMsgs + [e]) == Got(rxMsgs) + {Mirror(e.0)}
    ensures Total(rxMsgs + [e]) == Total(rxMsgs) + multiset{e.1}
  {
    TotalAppend(rxMsgs, [e]);
    assert [e][1..] == [] && Total([e]) == multiset{e.1};
    hide Total;
    GotIs(rxMsgs);
    GotIs(rxMsgs + [e]);
    assert forall f :: f in rxMsgs + [e] <==> f in rxMsgs || f == e;
    hide Got;
  }

  lemma GotIs(rxMsgs: Log)
    ensures forall e :: e in rxMsgs ==> Mirror(e.0) in Got(rxMsgs)
    ensures forall i :: i in Got(rxMsgs) ==> exists e :: e in rxMsgs && Mirror(e.0) == i
  {
  }

  /** What is delivered is the sum of its entries, each delivered once. */
  lemma TheirsDeliver(s: Stack, s': Stack, log: Log, advance: nat)
    requires Delivers(s, s', log) && Once(s', advance) && Unrepeated(log)
    requires Total(s.rxMsgs) == Sum(log, Got(s.rxMsgs))
    ensures Total(s'.rxMsgs) == Sum(log, Got(s'.rxMsgs))
  {
    if s'.rxMsgs != s.rxMsgs {
      var e :| s'.rxMsgs == s.rxMsgs + [e] && (Mirror(e.0), e.1) in log;
      var k :| 0 <= k < |log| && log[k] == (Mirror(e.0), e.1);
      GotMore(s.rxMsgs, e);
      NotAgain(s.rxMsgs, e);
      SumAdds(log, Got(s.rxMsgs), k);
    }
  }

  lemma NotAgain(rxMsgs: Log, e: (Index, Bytes))
    requires Unrepeated(rxMsgs + [e])
    ensures Mirror(e.0) !in Got(rxMsgs)
  {
    forall f | f in rxMsgs ensures f.0 != e.0 {
      var k :| 0 <= k < |rxMsgs| && rxMsgs[k] == f;
      assert (rxMsgs + [e])[k] == f && (rxMsgs + [e])[|rxMsgs|] == e;
    }
  }

  lemma TheirsInv(w: World, s: Stack, moved: nat, cut: Bytes -> seq<Bytes>)
    requires Inv(w, cut) && Good(s.remote) && Once(s, moved) && Fed(s, w.log, cut)
    requires Total(s.rxMsgs) == Sum(w.log, Got(s.rxMsgs))
    ensures Inv(w.(theirs := s, moved := moved), cut)
  {
    hide Good, Once, Fed, Sum, Total, Within, Got;
  }

  lemma InvTheirs(w: World, cut: Bytes -> seq<Bytes>)
    requires Inv(w, cut)
    ensures Good(w.theirs.remote) && Once(w.theirs, w.moved) && Fed(w.theirs, w.log, cut)
    ensures Total(w.theirs.rxMsgs) == Sum(w.log, Got(w.theirs.rxMsgs))
  {
    hide Good, Once, Fed, Sum, Total, Pends, Within, Got;
  }

  lemma TheirsTurned(w: World, e: Event, cut: Bytes -> seq<Bytes>)
    requires Possible(w, Theirs(e), cut)
    ensures Honest(e, w.log, cut) && (e.Arrive? ==> IsId(e.x.si))
    ensures Turned(w, Theirs(e)) == w.(theirs := Happen(w.theirs, e), moved := w.moved + Moved(w.theirs, e))
  {
    hide Happen, Moved, Sent, MadeBy, Accepted, Dropped;
  }

  lemma TheirsKeeps(w: World, e: Event, cut: Bytes -> seq<Bytes>)
    requires Inv(w, cut) && Cutting(cut) && Possible(w, Theirs(e), cut) && Unrepeated(w.log)
    requires Turned(w, Theirs(e)).moved < SID_WRAP_MODULO
    ensures Inv(Turned(w, Theirs(e)), cut)
  {
    hide *;
    InvTheirs(w, cut);
    TheirsTurned(w, e, cut);
    var s' := Happen(w.theirs, e);
    HappenKeeps(w.theirs, e, w.moved);
    TheirsFed(w.theirs, e, w.log, cut);
    TheirsDeliver(w.theirs, s', w.log, w.moved + Moved(w.theirs, e));
    TheirsInv(w, s', w.moved + Moved(w.theirs, e), cut);
  }

  // --------------------------------------------------------------------- Whole runs

  /** A run keeps what was made, and does not move the session id back. */
  lemma {:induction false} PlayedGrows(w: World, turns: seq<Turn>)
    ensures w.log <= Played(w, turns).log && w.moved <= Played(w, turns).moved
    decreases |turns|
  {
    if turns != [] {
      hide Happen, MadeBy, Accepted, Dropped, Moved;
      PlayedGrows(Turned(w, turns[0]), turns[1..]);
    }
  }

  lemma UnrepeatedPrefix(log: Log, longer: Log)
    requires log <= longer && Unrepeated(longer)
    ensures Unrepeated(log)
  {
    assert longer == log + longer[|log|..];
    UnrepeatedBefore(log, longer[|log|..]);
  }

  lemma {:induction false} PlayedKeeps(w: World, turns: seq<Turn>, cut: Bytes -> seq<Bytes>)
    requires Inv(w, cut) && Cutting(cut) && Legal(w, turns, cut)
    requires Unrepeated(Played(w, turns).log) && Played(w, turns).moved < SID_WRAP_MODULO
    ensures Inv(Played(w, turns), cut)
    decreases |turns|
  {
    hide Inv, Cutting, Unrepeated, Happen, MadeBy, Accepted, Dropped, Moved, Sent;
    if turns != [] {
      var w' := Turned(w, turns[0]);
      PlayedGrows(w', turns[1..]);
      UnrepeatedPrefix(w'.log, Played(w, turns).log);
      UnrepeatedPrefix(w.log, Played(w, turns).log) by { PlayedGrows(w, turns); }
      match turns[0] {
        case Ours(e) => OursKeeps(w, e, cut);
        case Theirs(e) => TheirsKeeps(w, e, cut);
      }
      PlayedKeeps(w', turns[1..], cut);
    }
  }

  /** Nothing has been sent, saved or delivered yet. */
  ghost predicate Blank(w: World) {
    && Good(w.ours.remote) && Good(w.theirs.remote)
    && Held(w.ours.remote) == multiset{} && w.ours.remote.messages == [] && w.theirs.rxMsgs == []
    && (forall e :: e in w.ours.remote.transactions ==> !e.1.Messenger?)
    && (forall e :: e in w.theirs.remote.transactions ==> !e.1.Messengent?)
    && w.log == [] && w.back == {} && w.accepted == multiset{} == w.dropped && w.moved == 0
  }

  lemma BlankInv(w: World, cut: Bytes -> seq<Bytes>)
    requires Blank(w)
    ensures Inv(w, cut)
  {
    Once0(w.theirs);
    assert Got([]) == {};
    hide Good, Once;
  }

  // ----------------------------------------------------------------- Main results

  function Delivery(w: World): multiset<Bytes> { Total(w.theirs.rxMsgs) }

  /** Put back at a session change of ours, and delivered all the same, before it or after it. */
  function Doubled(w: World): multiset<Bytes> { Sum(w.log, Got(w.theirs.rxMsgs) * w.back) }

  /** Saved, dropped, or in a Messenger that was made, not put back and not delivered. */
  function Open(w: World): multiset<Bytes> {
    Rest(w.log, Got(w.theirs.rxMsgs) + w.back) + multiset(w.ours.remote.messages) + w.dropped
  }

  lemma SixTerms(total: multiset<Bytes>, m: multiset<Bytes>, d: multiset<Bytes>, a: multiset<Bytes>, b: multiset<Bytes>,
                 got: multiset<Bytes>, rest: multiset<Bytes>, both: multiset<Bytes>)
    requires total + m + d == a + b && got + b + rest == total + both
    ensures got + (rest + m + d) == a + both
  {
    forall x: Bytes ensures (got + (rest + m + d))[x] == (a + both)[x] {
      assert (total + m + d)[x] == (a + b)[x] && (got + b + rest)[x] == (total + both)[x];
    }
  }

  /** The account of every run of two stacks, over all sessions: what was delivered and what is open
      is what was accepted and, once more, what was put back although it was delivered. */
  lemma DeliveryBalances(w: World, turns: seq<Turn>, cut: Bytes -> seq<Bytes>)
    requires Blank(w) && Cutting(cut) && Legal(w, turns, cut)
    requires Unrepeated(Played(w, turns).log) && Played(w, turns).moved < SID_WRAP_MODULO
    ensures var w' := Played(w, turns); Delivery(w') + Open(w') == w'.accepted + Doubled(w')
  {
    BlankInv(w, cut);
    PlayedKeeps(w, turns, cut);
    var w' := Played(w, turns);
    var got := Got(w'.theirs.rxMsgs);
    EachEntry(w'.log, got, w'.back);
    hide Played, Legal, Blank, Cutting, Unrepeated, Good, Once, Fed, Pends, Within, Sum, Rest, Total, Got;
    SixTerms(Total(w'.log), multiset(w'.ours.remote.messages), w'.dropped, w'.accepted, Sum(w'.log, w'.back),
             Sum(w'.log, got), Rest(w'.log, got + w'.back), Sum(w'.log, got * w'.back));
  }

  /** The transactions that were both delivered and put back. */
  function Twofold(w: World): set<Index> { Got(w.theirs.rxMsgs) * w.back }

  lemma {:induction false} SumSome(log: Log, keys: set<Index>, k: nat)
    requires k < |log| && log[k].0 in keys
    ensures log[k].1 in Sum(log, keys)
    decreases k
  {
    if k > 0 {
      SumSome(log[1..], keys, k - 1);
    }
  }

  /** Something is delivered and put back exactly if some transaction is. */
  lemma DoubledExactly(w: World, cut: Bytes -> seq<Bytes>)
    requires Inv(w, cut)
    ensures Doubled(w) == multiset{} <==> Twofold(w) == {}
  {
    hide Good, Once, Fed, Pends, Total, Got;
    if Twofold(w) == {} {
      SumNone(w.log, {});
    } else {
      var i :| i in Twofold(w);
      var k :| 0 <= k < |w.log| && w.log[k].0 == i;
      SumSome(w.log, Twofold(w), k);
    }
  }

  /** Exactly when a message is delivered more often than it was accepted: more copies of it were put
      back although delivered than are still open. So a run in which no transaction is both delivered
      and put back delivers nothing more than once; and once nothing is open, each message was
      delivered exactly as often as it was accepted if and only if there is no such transaction. */
  lemma RepeatedExactly(w: World, turns: seq<Turn>, cut: Bytes -> seq<Bytes>)
    requires Blank(w) && Cutting(cut) && Legal(w, turns, cut)
    requires Unrepeated(Played(w, turns).log) && Played(w, turns).moved < SID_WRAP_MODULO
    ensures var w' := Played(w, turns);
            && (forall body: Bytes :: Delivery(w')[body] > w'.accepted[body] <==> Doubled(w')[body] > Open(w')[body])
            && (Twofold(w') == {} ==> Delivery(w') <= w'.accepted)
            && (Open(w') == multiset{} ==> (Delivery(w') == w'.accepted <==> Twofold(w') == {}))
  {
    hide *;
    DeliveryBalances(w, turns, cut);
    BlankInv(w, cut);
    PlayedKeeps(w, turns, cut);
    var w' := Played(w, turns);
    DoubledExactly(w', cut);
    Excess(Delivery(w'), Open(w'), w'.accepted, Doubled(w'));
  }

  lemma Excess(d: multiset<Bytes>, o: multiset<Bytes>, a: multiset<Bytes>, b: multiset<Bytes>)
    requires d + o == a + b
    ensures forall x: Bytes :: d[x] > a[x] <==> b[x] > o[x]
    ensures b == multiset{} ==> d <= a
    ensures o == multiset{} ==> (d == a <==> b == multiset{})
  {
    forall x: Bytes ensures d[x] + o[x] == a[x] + b[x] {
      assert (d + o)[x] == (a + b)[x];
    }
    NoneOnly(d);
    NoneMissing(a, b);
  }
}
