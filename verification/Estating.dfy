/** The transactions a stack has with one remote, and what a new session does to them:
    raet/road/estating.py, Estate and RemoteEstate. */
module Estating {
  import opened Basics
  import opened Odicts
  import opened Lotting
  import Messaging

  /** The parts of a transaction index that differ between transactions of one remote: whether
      the remote initiated it, its session and its transaction id. */
  datatype Index = Index(rf: bool, si: nat, ti: nat)

  /** A transaction: the state of a Messengent, the message body of a Messenger, and of the others
      their kind. A Joiner or Joinent is Joining. An Alivent ends in the call that creates it. */
  datatype Transaction =
    | Messengent(m: Messaging.Messengent) | Messenger(body: Bytes)
    | Joining | Allower | Allowent | Aliver

  type Table = Odict<Index, Transaction>

  /** Session and transaction ids count from `sid` and `tid`; `rsid` is the last session id the
      remote used. `done` is doneTransactions and `messages` the saved bodies. `joined` and
      `allowed` are false for None too. */
  datatype Remote = Remote(sid: nat, rsid: nat, tid: nat, transactions: Table,
                           done: set<nat>, messages: seq<Bytes>, joined: bool, allowed: bool)

  /** In an index of that side and older than `now`. */
  predicate Stale(i: Index, rf: bool, now: nat) {
    i.rf == rf && !ValidSid(i.si, now)
  }

  function Stay(d: Table, rf: bool, now: nat): Table {
    if d == [] then []
    else if Stale(d[0].0, rf, now) then Stay(d[1..], rf, now)
    else [d[0]] + Stay(d[1..], rf, now)
  }

  function Leave(d: Table, rf: bool, now: nat): Table {
    if d == [] then []
    else if Stale(d[0].0, rf, now) then [d[0]] + Leave(d[1..], rf, now)
    else Leave(d[1..], rf, now)
  }

  /** The bodies of the Messengers of a table, in its order. */
  function Bodies(d: Table): seq<Bytes> {
    if d == [] then []
    else (if d[0].1.Messenger? then [d[0].1.body] else []) + Bodies(d[1..])
  }

  // ------------------------------------------------------------- The operations

  /** removeStaleCorrespondents */
  function DropCorrespondents(r: Remote): Remote {
    r.(transactions := Stay(r.transactions, true, r.rsid), done := {})
  }

  /** replaceStaleInitiators */
  function ReplaceInitiators(r: Remote): Remote {
    r.(transactions := Stay(r.transactions, false, r.sid),
       messages := r.messages + Bodies(Leave(r.transactions, false, r.sid)))
  }

  /** nextSid and replaceStaleInitiators, as on every successful allow, and on a join that finds no
      session. */
  function NewSession(r: Remote): Remote {
    ReplaceInitiators(r.(sid := Next(r.sid)))
  }

  /** stack.message to this remote: a Messenger under the next transaction id. It is dropped when
      the remote is not allowed, or when its index is taken. */
  function SendOne(r: Remote, body: Bytes): Remote {
    var r := r.(tid := Next(r.tid));
    var i := Index(false, r.sid, r.tid);
    if r.allowed && Get(r.transactions, i).None?
    then r.(transactions := r.transactions + [(i, Messenger(body))]) else r
  }

  /** sendSavedMessages */
  function SendSaved(r: Remote): Remote
    decreases |r.messages|
  {
    if r.messages == [] then r
    else SendSaved(SendOne(r.(messages := r.messages[1..]), r.messages[0]))
  }

  /** removeTransaction */
  function Gone(r: Remote, i: Index): Remote {
    r.(transactions := Delete(r.transactions, i))
  }

  /** addTransaction; an index that is taken raises. */
  function Entered(r: Remote, i: Index, t: Transaction): Remote {
    if Get(r.transactions, i).None? then r.(transactions := r.transactions + [(i, t)]) else r
  }

  predicate JoinInProcess(d: Table) { exists k :: 0 <= k < |d| && d[k].1.Joining? }

  predicate AllowInProcess(d: Table) { exists k :: 0 <= k < |d| && (d[k].1.Allower? || d[k].1.Allowent?) }

  /** A new Joiner's join: nothing while another join is in process. */
  function BeginJoin(r: Remote): Remote {
    var r := r.(tid := Next(r.tid));
    if JoinInProcess(r.transactions) then r
    else Entered(r.(joined := false), Index(false, 0, r.tid), Joining)
  }

  /** A new Allower's hello: nothing while a join or allow is in process, else no message is
      allowed until the handshake has ended; and a join first if there was none. */
  function BeginAllow(r: Remote): Remote {
    var r := r.(tid := Next(r.tid));
    if JoinInProcess(r.transactions) || AllowInProcess(r.transactions) then r
    else if !r.joined then BeginJoin(r.(allowed := false))
    else Entered(r.(allowed := false), Index(false, r.sid, r.tid), Allower)
  }

  /** A new Aliver's alive: a join or an allow first if there was none. */
  function BeginAlive(r: Remote): Remote {
    var r := r.(tid := Next(r.tid));
    if !r.joined then BeginJoin(r)
    else if !r.allowed then BeginAllow(r)
    else Entered(r, Index(false, r.sid, r.tid), Aliver)
  }

  // ------------------------------------------------------------------- The class

  class RemoteEstate {
    var sid: nat
    var rsid: nat
    var tid: nat
    var transactions: Table
    var doneTransactions: set<nat>
    var messages: seq<Bytes>
    var joined: bool
    var allowed: bool
    var nacks: seq<Index>  // the transactions a nack was sent for

    ghost function View(): Remote
      reads this
    {
      Remote(sid, rsid, tid, transactions, doneTransactions, messages, joined, allowed)
    }

    constructor (sid: nat)
      ensures View() == Remote(sid, 0, 0, [], {}, [], false, false) && nacks == []
    {
      this.sid, rsid, tid, transactions, doneTransactions, messages := sid, 0, 0, [], {}, [];
      joined, allowed, nacks := false, false, [];
    }

    method NextSid()
      modifies this`sid
      ensures sid == Next(old(sid))
    {
      sid := sid + 1;
      if sid > SID_ROLLOVER {
        sid := 1;
      }
    }

    method NextTid()
      modifies this`tid
      ensures tid == Next(old(tid))
    {
      tid := tid + 1;
      if tid > SID_ROLLOVER {
        tid := 1;
      }
    }

    /** EstateError, as false, if the index is there already. */
    method AddTransaction(i: Index, t: Transaction) returns (ok: bool)
      requires Proper(transactions)
      modifies this`transactions
      ensures Proper(transactions)
      ensures ok <==> Get(old(transactions), i).None?
      ensures transactions == if ok then old(transactions) + [(i, t)] else old(transactions)
    {
      if Get(transactions, i).Some? {
        return false;
      }
      PutIs(transactions, i, t);
      transactions := Put(transactions, i, t);
      return true;
    }

    /** The transaction at that index is gone, and no other. */
    method RemoveTransaction(i: Index)
      requires Proper(transactions)
      modifies this`transactions
      ensures Proper(transactions) && Get(transactions, i).None?
      ensures Without(old(transactions), i, transactions) && transactions == Delete(old(transactions), i)
    {
      DeleteIs(transactions, i);
      DeleteIsWithout(transactions, i);
      transactions := Delete(transactions, i);
    }

    /** nack and removal of a stale transaction. */
    method Dismiss(i: Index)
      requires Proper(transactions)
      modifies this`transactions, this`nacks
      ensures Proper(transactions) && transactions == Delete(old(transactions), i)
      ensures nacks == old(nacks) + [i]
    {
      nacks := nacks + [i];
      RemoveTransaction(i);
    }

    /** Every stale correspondent is nacked and removed, in the table's order. */
    method RemoveStaleCorrespondents()
      requires Proper(transactions)
      modifies this`transactions, this`nacks, this`doneTransactions
      ensures View() == DropCorrespondents(old(View())) && Proper(transactions)
      ensures nacks == old(nacks) + Keys(Leave(old(transactions), true, rsid))
    {
      hide Stay, Leave, Stale, Bodies, Keys, Delete, Proper, Get, Without;
      var items := transactions;
      Start(items, true, rsid);
      for j := 0 to |items|
        invariant Proper(transactions) && transactions == Stay(items[..j], true, rsid) + items[j..]
        invariant nacks == old(nacks) + Keys(Leave(items[..j], true, rsid))
      {
        FilterStep(items, j, true, rsid);
        Shift(old(nacks), Keys(Leave(items[..j], true, rsid)), items[j].0);
        if Stale(items[j].0, true, rsid) {
          if items[j].1.Messengent? {
            doneTransactions := doneTransactions + {items[j].0.ti};
          }
          Dismiss(items[j].0);
        }
      }
      All(items, true, rsid);
      doneTransactions := {};
    }

    method SaveMessage(body: Bytes)
      modifies this`messages
      ensures messages == old(messages) + [body]
    {
      messages := messages + [body];
    }

    /** Every stale initiator is nacked and removed, in the table's order, the bodies of
        Messengers saved. */
    method ReplaceStaleInitiators()
      requires Proper(transactions)
      modifies this`transactions, this`nacks, this`messages
      ensures View() == ReplaceInitiators(old(View())) && Proper(transactions)
      ensures nacks == old(nacks) + Keys(Leave(old(transactions), false, sid))
    {
      hide Stay, Leave, Stale, Bodies, Keys, Delete, Proper, Get, Without;
      var items := transactions;
      Start(items, false, sid);
      for j := 0 to |items|
        invariant Proper(transactions) && transactions == Stay(items[..j], false, sid) + items[j..]
        invariant nacks == old(nacks) + Keys(Leave(items[..j], false, sid))
        invariant messages == old(messages) + Bodies(Leave(items[..j], false, sid))
      {
        FilterStep(items, j, false, sid);
        Shift(old(nacks), Keys(Leave(items[..j], false, sid)), items[j].0);
        if Stale(items[j].0, false, sid) {
          if items[j].1.Messenger? {
            Shift(old(messages), Bodies(Leave(items[..j], false, sid)), items[j].1.body);
            SaveMessage(items[j].1.body);
          }
          Dismiss(items[j].0);
        }
      }
      All(items, false, sid);
    }

    /** stack.message. A body that does not pack uses up a transaction id and nothing else. */
    method Message(body: Bytes, packs: bool)
      requires Proper(transactions)
      modifies this
      ensures View() == if packs then SendOne(old(View()), body) else old(View()).(tid := Next(old(tid)))
      ensures Proper(transactions) && nacks == old(nacks)
    {
      NextTid();
      if !allowed {
        return;
      }
      if !packs {
        return;
      }
      var ok := AddTransaction(Index(false, sid, tid), Messenger(body));
    }

    method SendSavedMessages()
      requires Proper(transactions)
      modifies this
      ensures View() == SendSaved(old(View())) && Proper(transactions) && nacks == old(nacks)
    {
      while messages != []
        invariant SendSaved(View()) == SendSaved(old(View())) && Proper(transactions) && nacks == old(nacks)
        decreases |messages|
      {
        var body := messages[0];
        messages := messages[1..];
        Message(body, true);
      }
    }
  }

  // ------------------------------------------------------- Facts about filtering

  lemma {:induction false} StayIs(d: Table, rf: bool, now: nat)
    ensures forall e :: e in Stay(d, rf, now) ==> e in d && !Stale(e.0, rf, now)
    ensures forall e :: e in d && !Stale(e.0, rf, now) ==> e in Stay(d, rf, now)
    ensures Proper(d) ==> Proper(Stay(d, rf, now))
  {
    if d != [] {
      StayIs(d[1..], rf, now);
      assert d == [d[0]] + d[1..];
      ConsIs(d[0], d[1..]);
      ConsIs(d[0], Stay(d[1..], rf, now));
    }
  }

  lemma {:induction false} FilterAppend(d: Table, e: (Index, Transaction), rf: bool, now: nat)
    ensures Stay(d + [e], rf, now) == Stay(d, rf, now) + if Stale(e.0, rf, now) then [] else [e]
    ensures Leave(d + [e], rf, now) == Leave(d, rf, now) + if Stale(e.0, rf, now) then [e] else []
  {
    if d == [] {
      assert d + [e] == [e];
    } else {
      assert (d + [e])[1..] == d[1..] + [e];
      FilterAppend(d[1..], e, rf, now);
    }
  }

  lemma BodiesCons(e: (Index, Transaction), d: Table)
    ensures Bodies([e] + d) == (if e.1.Messenger? then [e.1.body] else []) + Bodies(d)
  {
    assert ([e] + d)[1..] == d;
  }

  lemma {:induction false} BodiesAppend(d: Table, e: (Index, Transaction))
    ensures Bodies(d + [e]) == Bodies(d) + if e.1.Messenger? then [e.1.body] else []
  {
    if d == [] {
      assert d + [e] == [e] + [];
      BodiesCons(e, []);
    } else {
      assert d + [e] == [d[0]] + (d[1..] + [e]);
      assert d == [d[0]] + d[1..];
      BodiesCons(d[0], d[1..] + [e]);
      BodiesCons(d[0], d[1..]);
      BodiesAppend(d[1..], e);
      hide Bodies;
    }
  }

  lemma Shift<X>(a: seq<X>, b: seq<X>, x: X)
    ensures a + (b + [x]) == a + b + [x] && a + (b + []) == a + b
  {
  }

  lemma All(items: Table, rf: bool, now: nat)
    requires Proper(items)
    ensures items[..|items|] == items && Proper(Stay(items, rf, now))
    ensures Stay(items[..|items|], rf, now) + items[|items|..] == Stay(items, rf, now)
  {
    StayIs(items, rf, now);
    assert items[..|items|] == items && items[|items|..] == [];
  }

  lemma Start(items: Table, rf: bool, now: nat)
    ensures Stay(items[..0], rf, now) + items[0..] == items
    ensures Keys(Leave(items[..0], rf, now)) == [] && Bodies(Leave(items[..0], rf, now)) == []
  {
  }

  /** What one turn of the loops above does to the table: it deletes a stale entry, and then
      the part already seen holds what stays of it. */
  lemma TableStep(items: Table, j: nat, rf: bool, now: nat)
    requires Proper(items) && j < |items|
    ensures var (before, e) := (Stay(items[..j], rf, now) + items[j..], items[j]);
            Stay(items[..j + 1], rf, now) + items[j + 1..]
            == if Stale(e.0, rf, now) then Delete(before, e.0) else before
  {
    var front, e, back := Stay(items[..j], rf, now), items[j], items[j + 1..];
    assert items[..j + 1] == items[..j] + [e];
    assert front + items[j..] == front + [e] + back;
    StayIs(items[..j], rf, now);
    FilterAppend(items[..j], e, rf, now);
    forall f | f in front ensures f.0 != e.0 {
      assert f in items[..j];
    }
    DeleteAt(front, e, back);
    hide *;
  }

  /** And to what has left: its keys and bodies, in order. */
  lemma FilterStep(items: Table, j: nat, rf: bool, now: nat)
    requires Proper(items) && j < |items|
    ensures var (before, e) := (Stay(items[..j], rf, now) + items[j..], items[j]);
            && Stay(items[..j + 1], rf, now) + items[j + 1..]
               == (if Stale(e.0, rf, now) then Delete(before, e.0) else before)
            && Keys(Leave(items[..j + 1], rf, now))
               == Keys(Leave(items[..j], rf, now)) + (if Stale(e.0, rf, now) then [e.0] else [])
            && Bodies(Leave(items[..j + 1], rf, now))
               == Bodies(Leave(items[..j], rf, now))
                  + (if Stale(e.0, rf, now) && e.1.Messenger? then [e.1.body] else [])
  {
    var e := items[j];
    TableStep(items, j, rf, now);
    assert items[..j + 1] == items[..j] + [e];
    FilterAppend(items[..j], e, rf, now);
    BodiesAppend(Leave(items[..j], rf, now), e);
    hide Stay, Leave, Bodies, Stale, Delete, Proper;
    if !Stale(e.0, rf, now) {
      assert Leave(items[..j + 1], rf, now) == Leave(items[..j], rf, now);
    }
  }

  // ------------------------------------------------- No message lost at a session change

  lemma {:induction false} BodiesSplit(d: Table, rf: bool, now: nat)
    ensures multiset(Bodies(Stay(d, rf, now))) + multiset(Bodies(Leave(d, rf, now))) == multiset(Bodies(d))
  {
    if d != [] {
      BodiesSplit(d[1..], rf, now);
      BodiesCons(d[0], d[1..]);
      BodiesCons(d[0], Stay(d[1..], rf, now));
      BodiesCons(d[0], Leave(d[1..], rf, now));
      assert d == [d[0]] + d[1..];
      assert Stale(d[0].0, rf, now) ==> Stay(d, rf, now) == Stay(d[1..], rf, now);
      assert !Stale(d[0].0, rf, now) ==> Leave(d, rf, now) == Leave(d[1..], rf, now);
      hide Bodies, Stale, Stay, Leave;
    }
  }

  /** Where a transaction belongs: joins in session 0, what the remote initiated in its present
      session, and what was initiated here in the present session here, if there is one. */
  predicate Placed(e: (Index, Transaction), sid: nat, rsid: nat) {
    if e.0.rf then
      if e.1.Joining? then e.0.si == 0 else (e.1.Messengent? || e.1.Allowent?) && e.0.si == rsid != 0
    else
      && !e.1.Messengent? && !e.1.Allowent? && (e.0.si == 0 || e.0.si == sid)
      && (e.1.Joining? ==> e.0.si == 0) && (e.1.Messenger? ==> e.0.si != 0)
  }

  /** Every transaction is where it belongs, and there is a session once messages are allowed. */
  ghost predicate Good(r: Remote) {
    && IsId(r.sid) && IsId(r.rsid) && IsId(r.tid) && Proper(r.transactions)
    && (forall e :: e in r.transactions ==> Placed(e, r.sid, r.rsid))
    && (r.allowed ==> r.sid >= 1)
  }

  /** A new session, whatever the table holds: pending and saved bodies together are the same
      ones as before; no locally initiated transaction is older than the new session; and nothing
      else has left the table, in particular no join and no correspondent. */
  lemma SessionKeepsBodies(r: Remote)
    ensures var r' := NewSession(r);
            && multiset(Bodies(r'.transactions)) + multiset(r'.messages)
               == multiset(Bodies(r.transactions)) + multiset(r.messages)
            && (forall e :: e in r'.transactions ==> e in r.transactions && (e.0.rf || ValidSid(e.0.si, r'.sid)))
            && (forall e :: e in r.transactions && (e.0.rf || e.0.si == 0) ==> e in r'.transactions)
  {
    BodiesSplit(r.transactions, false, Next(r.sid));
    StayIs(r.transactions, false, Next(r.sid));
  }

  /** Only those of session 0 survive a new session among the locally initiated transactions. */
  lemma OnlyJoinsStay(r: Remote)
    requires Good(r)
    ensures var r' := NewSession(r);
            && Good(r') && r'.sid != r.sid
            && (forall e :: e in r'.transactions && !e.0.rf ==> e.0.si == 0)
            && (forall e :: e in r'.transactions ==> e in r.transactions && !e.1.Messenger?)
  {
    StayIs(r.transactions, false, Next(r.sid));
    if r.sid >= 1 {
      LaterSidWins(r.sid, 1);
      assert After(r.sid, 1) == After(Next(r.sid), 0);
    }
  }

  lemma {:induction false} AllLeave(d: Table, now: nat)
    requires forall e :: e in Stay(d, false, now) ==> !e.1.Messenger?
    ensures Bodies(Leave(d, false, now)) == Bodies(d)
  {
    if d != [] {
      assert d == [d[0]] + d[1..];
      AllLeave(d[1..], now);
      BodiesCons(d[0], Leave(d[1..], false, now));
      BodiesCons(d[0], d[1..]);
    }
  }

  /** The Messengers of the given bodies, under transaction ids that follow tid. */
  function Messengers(sid: nat, tid: nat, bodies: seq<Bytes>): Table
    decreases |bodies|
  {
    if bodies == [] then []
    else [(Index(false, sid, Next(tid)), Messenger(bodies[0]))] + Messengers(sid, Next(tid), bodies[1..])
  }

  lemma {:induction false} BodiesOfMessengers(d: Table, sid: nat, tid: nat, bodies: seq<Bytes>)
    ensures Bodies(d + Messengers(sid, tid, bodies)) == Bodies(d) + bodies
    decreases |bodies|
  {
    var ms := Messengers(sid, tid, bodies);
    if bodies == [] {
      assert d + ms == d;
    } else {
      var e := ms[0];
      assert d + ms == (d + [e]) + Messengers(sid, Next(tid), bodies[1..]);
      BodiesOfMessengers(d + [e], sid, Next(tid), bodies[1..]);
      BodiesAppend(d, e);
    }
  }

  /** No transaction of this session has one of the next n ids. */
  ghost predicate Free(r: Remote, n: nat) {
    forall j :: 1 <= j <= n ==> Get(r.transactions, Index(false, r.sid, After(r.tid, j))).None?
  }

  lemma FreeAfter(r: Remote, e: (Index, Transaction))
    requires IsId(r.tid) && 0 < |r.messages| <= SID_ROLLOVER && Free(r, |r.messages|)
    requires e.0 == Index(false, r.sid, Next(r.tid))
    ensures Free(r.(tid := Next(r.tid), transactions := r.transactions + [e]), |r.messages| - 1)
  {
    forall j | 1 <= j <= |r.messages| - 1
      ensures Get(r.transactions + [e], Index(false, r.sid, After(Next(r.tid), j))).None?
    {
      var i := Index(false, r.sid, After(Next(r.tid), j));
      assert After(r.tid, j + 1) == After(Next(r.tid), j);
      assert After(r.tid, 1) == After(Next(r.tid), 0);
      AfterInjective(r.tid, 1, j + 1);
      GetIs(r.transactions, i);
      GetIs(r.transactions + [e], i);
    }
  }

  /** One saved body goes out. */
  lemma OneGoesOut(r: Remote)
    requires IsId(r.tid) && r.allowed && r.messages != [] && |r.messages| <= SID_ROLLOVER && Free(r, |r.messages|)
    ensures var e := (Index(false, r.sid, Next(r.tid)), Messenger(r.messages[0]));
            var next := r.(transactions := r.transactions + [e], tid := Next(r.tid), messages := r.messages[1..]);
            SendSaved(r) == SendSaved(next) && Free(next, |next.messages|)
  {
    assert After(r.tid, 1) == Next(r.tid) by { assert After(r.tid, 1) == After(Next(r.tid), 0); }
    FreeAfter(r, (Index(false, r.sid, Next(r.tid)), Messenger(r.messages[0])));
  }

  /** To an allowed remote, every saved body goes out as one new Messenger, in the order saved. */
  lemma {:induction false} SavedGoOut(r: Remote)
    requires IsId(r.tid) && r.allowed && |r.messages| <= SID_ROLLOVER && Free(r, |r.messages|)
    ensures SendSaved(r) == r.(transactions := r.transactions + Messengers(r.sid, r.tid, r.messages),
                               tid := After(r.tid, |r.messages|), messages := [])
    decreases |r.messages|
  {
    if r.messages == [] {
      assert r.transactions + [] == r.transactions;
    } else {
      var e := (Index(false, r.sid, Next(r.tid)), Messenger(r.messages[0]));
      var next := r.(transactions := r.transactions + [e], tid := Next(r.tid), messages := r.messages[1..]);
      OneGoesOut(r);
      SavedGoOut(next);
      hide SendSaved, Free;
      assert r.transactions + ([e] + Messengers(next.sid, next.tid, next.messages))
             == next.transactions + Messengers(next.sid, next.tid, next.messages);
    }
  }

  /** No message lost. Starting a new session and resending, as an Allower does on completion,
      turns every body saved and every body still pending in the old session into exactly one
      Messenger of the new session: saved ones first, then the pending ones in their order. */
  lemma NoMessageLost(r: Remote)
    requires Good(r) && r.allowed && |r.messages| + |Bodies(r.transactions)| <= SID_ROLLOVER
    ensures var r' := SendSaved(NewSession(r));
            && r'.messages == []
            && Bodies(r'.transactions) == r.messages + Bodies(r.transactions)
            && (forall e :: e in r'.transactions && e.1.Messenger? ==> !e.0.rf && e.0.si == r'.sid)
            && r'.sid == Next(r.sid) != r.sid
  {
    OnlyJoinsStay(r);
    AllLeave(r.transactions, Next(r.sid));
    var s := NewSession(r);
    AllFree(s);
    SavedGoOut(s);
    BodiesOfMessengers(s.transactions, s.sid, s.tid, s.messages);
    NoBodies(s.transactions);
    MessengersOf(s.sid, s.tid, s.messages);
  }

  lemma AllFree(r: Remote)
    requires IsId(r.sid) && r.sid != 0 && Proper(r.transactions)
    requires forall e :: e in r.transactions && !e.0.rf ==> e.0.si == 0
    ensures Free(r, |r.messages|)
  {
    forall j | 1 <= j <= |r.messages|
      ensures Get(r.transactions, Index(false, r.sid, After(r.tid, j))).None?
    {
      GetIs(r.transactions, Index(false, r.sid, After(r.tid, j)));
    }
  }

  lemma {:induction false} NoBodies(d: Table)
    requires forall e :: e in d ==> !e.1.Messenger?
    ensures Bodies(d) == []
  {
    if d != [] {
      assert d[0] in d;
      NoBodies(d[1..]);
    }
  }

  lemma {:induction false} MessengersOf(sid: nat, tid: nat, bodies: seq<Bytes>)
    ensures forall e :: e in Messengers(sid, tid, bodies) ==> !e.0.rf && e.0.si == sid
    decreases |bodies|
  {
    if bodies != [] {
      MessengersOf(sid, Next(tid), bodies[1..]);
    }
  }

  /** Resending to a remote that is not allowed loses every saved body: the saved bodies all go
      out exactly if the remote is allowed or nothing was saved. */
  lemma SavedSurviveExactly(r: Remote)
    requires IsId(r.tid) && |r.messages| <= SID_ROLLOVER && Free(r, |r.messages|)
    ensures Bodies(SendSaved(r).transactions) == Bodies(r.transactions) + r.messages
            <==> r.allowed || r.messages == []
  {
    if r.allowed {
      SavedGoOut(r);
      BodiesOfMessengers(r.transactions, r.sid, r.tid, r.messages);
    } else {
      SavedDropped(r);
      assert r.messages == [] ==> Bodies(r.transactions) + r.messages == Bodies(r.transactions);
      assert |Bodies(r.transactions) + r.messages| == |Bodies(r.transactions)| + |r.messages|;
    }
  }

  lemma {:induction false} SavedDropped(r: Remote)
    requires !r.allowed
    ensures SendSaved(r).transactions == r.transactions && SendSaved(r).messages == []
    decreases |r.messages|
  {
    if r.messages != [] {
      SavedDropped(SendOne(r.(messages := r.messages[1..]), r.messages[0]));
    }
  }
}
