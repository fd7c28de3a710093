/** What becomes of message bodies over whole runs: sessions, joins and allow handshakes starting,
    failing, being rejected and completing on either side, and packets of any kind in between. */
module Fates {
  import opened Basics
  import opened Odicts
  import opened Lotting
  import opened Estating
  import opened Sessions
  import opened SessionRuns
  import M = Messaging

  /** The bodies of the Messengers in a table. */
  function Pending(d: Table): multiset<Bytes> {
    if d == [] then multiset{} else Body(Some(d[0].1)) + Pending(d[1..])
  }

  /** The bodies a remote holds: in pending Messengers and saved. */
  function Held(r: Remote): multiset<Bytes> {
    Pending(r.transactions) + multiset(r.messages)
  }

  function Body(t: Option<Transaction>): multiset<Bytes> {
    if t.Some? && t.value.Messenger? then multiset{t.value.body} else multiset{}
  }

  /** The saved bodies that sendSavedMessages does not turn into Messengers. */
  function Unsent(r: Remote): multiset<Bytes>
    decreases |r.messages|
  {
    if r.messages == [] then multiset{}
    else
      var r1 := r.(messages := r.messages[1..]);
      var next := SendOne(r1, r.messages[0]);
      (if next.transactions == r.transactions then multiset{r.messages[0]} else multiset{}) + Unsent(next)
  }

  // -------------------------------------------------- Fates at one event

  /** The transaction a packet goes to, at the remote that has passed the session check. */
  function Target(s: Stack, x: Rx): Option<Transaction> {
    if s.gone || x.si == 0 || (!x.cf && !ValidSid(x.si, s.remote.rsid)) then None
    else Get(Admit(s.remote, x).transactions, Index(!x.cf, x.si, x.ti))
  }

  /** message() takes a body: the remote is allowed and the next index is free. */
  predicate Takes(r: Remote) {
    r.allowed && Get(r.transactions, Index(false, r.sid, Next(r.tid))).None?
  }

  /** The body that message() takes: only while the remote is allowed and an id is free. */
  function Accepted(s: Stack, e: Event): multiset<Bytes> {
    if e.Send? && !s.gone && Takes(s.remote) then multiset{e.body} else multiset{}
  }

  /** The body whose Messenger the remote ends, by a done or a nack. */
  function Ended(s: Stack, e: Event): multiset<Bytes> {
    if e.Arrive? && e.x.tk.Message? && (e.x.pk.Done? || e.x.pk.Nack?) then Body(Target(s, e.x)) else multiset{}
  }

  /** An ack that would go on to the next burst finds the remote not allowed. */
  predicate AckUnallowed(s: Stack, e: Event) {
    e.Arrive? && e.x.tk.Message? && e.x.pk.Ack? && e.x.pk.more && !s.remote.allowed
  }

  /** The remote from which saved messages are sent, if they are: at the end of an allow, on the
      initiator's side or the correspondent's. */
  function Resending(s: Stack, e: Event): Option<Remote> {
    if !e.Arrive? || !e.x.tk.Allow? || !e.x.pk.Ack? then None
    else
      var i := Index(!e.x.cf, e.x.si, e.x.ti);
      match Target(s, e.x)
      case Some(Allower) => Some(NewSession(Gone(Admit(s.remote, e.x).(allowed := true), i)))
      case Some(Allowent) => Some(Gone(Admit(s.remote, e.x), i))
      case _ => None
  }

  /** A join is rejected, and the remote removed. */
  predicate Removes(s: Stack, e: Event) { e.Rejected? && !s.gone && Rejectable(s.remote, e.index) }

  /** Bodies that vanish. */
  function Lost(s: Stack, e: Event): multiset<Bytes> {
    if Removes(s, e) then Held(s.remote)
    else if AckUnallowed(s, e) then Body(Target(s, e.x))
    else
      match Resending(s, e)
      case Some(r) => Unsent(r)
      case None => multiset{}
  }

  // --------------------------------------------------- The balance of the parts

  lemma PendingCons(e: (Index, Transaction), d: Table)
    ensures Pending([e] + d) == Body(Some(e.1)) + Pending(d)
  {
    assert ([e] + d)[1..] == d;
  }

  lemma {:induction false} PendingIs(d: Table)
    ensures Pending(d) == multiset(Bodies(d))
  {
    if d != [] {
      PendingIs(d[1..]);
    }
  }

  lemma {:induction false} PendingAppend(d: Table, e: (Index, Transaction))
    ensures Pending(d + [e]) == Pending(d) + Body(Some(e.1))
  {
    if d == [] {
      assert d + [e] == [e] + [];
      PendingCons(e, []);
    } else {
      assert d + [e] == [d[0]] + (d[1..] + [e]);
      assert d == [d[0]] + d[1..];
      PendingCons(d[0], d[1..] + [e]);
      PendingCons(d[0], d[1..]);
      PendingAppend(d[1..], e);
      hide Pending, Body;
    }
  }

  lemma {:induction false} DeleteBalances(d: Table, i: Index)
    ensures Pending(d) == Pending(Delete(d, i)) + Body(Get(d, i))
  {
    if d != [] {
      assert d == [d[0]] + d[1..];
      PendingCons(d[0], d[1..]);
      if d[0].0 != i {
        DeleteBalances(d[1..], i);
        PendingCons(d[0], Delete(d[1..], i));
      }
      hide Pending, Body;
    }
  }

  /** Entering a Messengent, or its new state, at an index without a Messenger. */
  lemma {:induction false} PutBalances(d: Table, i: Index, t: Transaction)
    requires !t.Messenger? && Body(Get(d, i)) == multiset{}
    ensures Pending(Put(d, i, t)) == Pending(d)
  {
    assert Body(Some(t)) == multiset{};
    if d == [] {
      assert [(i, t)] == [(i, t)] + [];
      PendingCons((i, t), []);
    } else {
      assert d == [d[0]] + d[1..];
      PendingCons(d[0], d[1..]);
      if d[0].0 == i {
        PendingCons((i, t), d[1..]);
        assert Put(d, i, t) == [(i, t)] + d[1..];
      } else {
        PutBalances(d[1..], i, t);
        PendingCons(d[0], Put(d[1..], i, t));
        assert Put(d, i, t) == [d[0]] + Put(d[1..], i, t);
      }
      hide Pending, Body, Put;
    }
  }

  lemma GoneBalances(r: Remote, i: Index, joined: bool, allowed: bool)
    ensures Held(r) == Held(Gone(r.(joined := joined, allowed := allowed), i)) + Body(Get(r.transactions, i))
  {
    DeleteBalances(r.transactions, i);
    hide Pending, Body, Get, Delete;
  }

  /** Where there is no Messenger nothing is lost. */
  lemma GoneNothing(r: Remote, i: Index, joined: bool, allowed: bool)
    requires Body(Get(r.transactions, i)) == multiset{}
    ensures Held(Gone(r.(joined := joined, allowed := allowed), i)) == Held(r)
  {
    hide Gone, Get, Body, Held;
    GoneBalances(r, i, joined, allowed);
  }

  lemma EnteredBalances(r: Remote, i: Index, t: Transaction)
    requires !t.Messenger?
    ensures Held(Entered(r, i, t)) == Held(r)
  {
    PendingAppend(r.transactions, (i, t));
    hide Pending, Get;
  }

  lemma RenewBalances(r: Remote)
    ensures Held(NewSession(r)) == Held(r)
  {
    SessionKeepsBodies(r);
    PendingIs(r.transactions);
    PendingIs(NewSession(r).transactions);
    hide Pending, Bodies, NewSession;
  }

  /** Messengers are never the remote's transactions. */
  lemma {:induction false} StayPending(d: Table, now: nat)
    requires forall e :: e in d && e.1.Messenger? ==> !e.0.rf
    ensures Pending(Stay(d, true, now)) == Pending(d)
  {
    if d != [] {
      assert d == [d[0]] + d[1..];
      assert d[0] in d;
      StayPending(d[1..], now);
      PendingCons(d[0], d[1..]);
      PendingCons(d[0], Stay(d[1..], true, now));
      hide Pending;
    }
  }

  lemma AdmitBalances(r: Remote, x: Rx)
    requires Good(r)
    ensures Held(Admit(r, x)) == Held(r) && Admit(r, x).allowed == r.allowed
  {
    forall e | e in r.transactions && e.1.Messenger? ensures !e.0.rf {
      assert Placed(e, r.sid, r.rsid);
    }
    hide Pending, Stay, Good;
    StayPending(r.transactions, x.si);
  }

  lemma SendBalances(r: Remote, body: Bytes)
    ensures Held(SendOne(r, body)) == Held(r) + (if Takes(r) then multiset{body} else multiset{})
    ensures SendOne(r, body).transactions == r.transactions <==> !Takes(r)
    ensures SendOne(r, body).messages == r.messages
  {
    PendingAppend(r.transactions, (Index(false, r.sid, Next(r.tid)), Messenger(body)));
    hide Pending, Get;
  }

  lemma FirstSaved(r: Remote)
    requires r.messages != []
    ensures Held(r) == Held(r.(messages := r.messages[1..])) + multiset{r.messages[0]}
  {
    assert r.messages == [r.messages[0]] + r.messages[1..];
    hide Pending;
  }

  lemma {:induction false} SavedBalances(r: Remote)
    ensures Held(SendSaved(r)) + Unsent(r) == Held(r)
    decreases |r.messages|
  {
    if r.messages != [] {
      var r1 := r.(messages := r.messages[1..]);
      var next := SendOne(r1, r.messages[0]);
      assert SendSaved(r) == SendSaved(next);
      FirstSaved(r);
      SendBalances(r1, r.messages[0]);
      SavedBalances(next);
      hide SendOne, SendSaved, Held, Takes;
    }
  }

  lemma FlagsAside(r: Remote, tid: nat)
    ensures Held(r.(tid := tid)) == Held(r.(tid := tid, joined := false))
            == Held(r.(tid := tid, allowed := false)) == Held(r)
  {
  }

  lemma BeginJoinBalances(r: Remote)
    ensures Held(BeginJoin(r)) == Held(r)
  {
    var r1 := r.(tid := Next(r.tid));
    EnteredBalances(r1.(joined := false), Index(false, 0, r1.tid), Joining);
    FlagsAside(r, r1.tid);
    hide Entered, JoinInProcess, Held;
  }

  lemma BeginAllowBalances(r: Remote)
    ensures Held(BeginAllow(r)) == Held(r)
  {
    var r1 := r.(tid := Next(r.tid), allowed := false);
    BeginJoinBalances(r1);
    EnteredBalances(r1, Index(false, r1.sid, r1.tid), Allower);
    FlagsAside(r, r1.tid);
    hide Entered, BeginJoin, JoinInProcess, AllowInProcess, Held;
  }

  lemma BeginAliveBalances(r: Remote)
    ensures Held(BeginAlive(r)) == Held(r)
  {
    var r1 := r.(tid := Next(r.tid));
    BeginJoinBalances(r1);
    BeginAllowBalances(r1);
    EnteredBalances(r1, Index(false, r1.sid, r1.tid), Aliver);
    FlagsAside(r, r1.tid);
    hide Entered, BeginJoin, BeginAllow, Held;
  }

  /** The allows that give way are no Messengers. */
  lemma {:induction false} ContendBalances(items: Table, r: Remote, d: Table, i: Index, lesser: bool)
    requires Proper(r.transactions) && Proper(d)
    requires forall e :: e in items ==> e in r.transactions
    requires forall e :: e in d ==> e in r.transactions
    ensures var d' := Contend(items, d, i, lesser).1;
            && Pending(d') == Pending(d) && Proper(d') && forall e :: e in d' ==> e in d
    decreases |items|
  {
    if items != [] {
      var (j, t) := items[0];
      assert items[0] in items;
      DeleteBalances(d, j);
      DeleteIs(d, j);
      GetIs(d, j);
      GetIs(r.transactions, j);
      hide Pending, Get, Delete, Proper;
      if !t.Allower? && !t.Allowent? {
        ContendBalances(items[1..], r, d, i, lesser);
      } else if j != i && !j.rf && !lesser {
        ContendBalances(items[1..], r, Delete(d, j), i, lesser);
      }
    }
  }

  /** A hello, at an index without a Messenger. */
  lemma ContestBalances(r: Remote, i: Index, good: bool, lesser: bool)
    requires Good(r) && i.rf
    ensures Held(Contest(r, i, good, lesser)) == Held(r)
  {
    var (race, table) := Contend(r.transactions, r.transactions, i, lesser);
    var r1 := r.(transactions := table);
    ContendBalances(r.transactions, r, r.transactions, i, lesser);
    NoMessengerAt(r, table, i);
    hide Contend, Pending, Good, Get, Body, Gone, Entered;
    assert Held(r1) == Held(r);
    hide Held;
    SameFlags(r1);
    match race {
      case Duplicate =>
      case Refused => GoneNothing(r1, i, r1.joined, r1.allowed);
      case Proceed =>
        GoneNothing(r1, i, r1.joined, false);
        EnteredBalances(r1.(allowed := false), i, Allowent);
    }
  }

  /** The same while a join may be in process. */
  lemma HelloBalances(r: Remote, i: Index, good: bool, lesser: bool)
    requires Good(r) && i.rf
    ensures Held(HelloAt(r, i, good, lesser)) == Held(r)
  {
    NoMessengerAt(r, r.transactions, i);
    var r1 := if JoinInProcess(r.transactions) then Gone(r, i) else r;
    SameFlags(r);
    DeleteIs(r.transactions, i);
    assert Good(r1);
    hide Held, Gone, Get, Good, Body, JoinInProcess, Contest;
    GoneNothing(r, i, r.joined, r.allowed);
    ContestBalances(r1, i, good, lesser);
  }

  lemma NoMessengerAt(r: Remote, d: Table, i: Index)
    requires Good(r) && i.rf && forall e :: e in d ==> e in r.transactions
    ensures Body(Get(d, i)) == multiset{}
  {
    GetIs(d, i);
    if Get(d, i).Some? { assert Placed((i, Get(d, i).value), r.sid, r.rsid); }
  }

  lemma SameFlags(r: Remote)
    ensures r.(joined := r.joined, allowed := r.allowed) == r
    ensures r.(joined := r.joined, allowed := false) == r.(allowed := false)
    ensures r.(joined := false, allowed := r.allowed) == r.(joined := false)
    ensures r.(joined := r.joined, allowed := true) == r.(allowed := true)
    ensures Held(r.(allowed := true)) == Held(r) == Held(r.(allowed := false))
  {
  }

  /** Ending a transaction that is no Messenger, whatever the flags become. */
  lemma EndBalances(r: Remote, i: Index)
    requires Body(Get(r.transactions, i)) == multiset{}
    ensures Held(Gone(r, i)) == Held(r) && Held(Gone(r.(allowed := false), i)) == Held(r)
    ensures Held(BeginJoin(Gone(r.(joined := false), i))) == Held(r)
    ensures Held(BeginAllow(Gone(r.(allowed := false), i))) == Held(r)
  {
    hide Held, Gone, BeginJoin, BeginAllow, Get, Body;
    SameFlags(r);
    GoneNothing(r, i, r.joined, r.allowed);
    GoneNothing(r, i, r.joined, false);
    GoneNothing(r, i, false, r.allowed);
    BeginJoinBalances(Gone(r.(joined := false), i));
    BeginAllowBalances(Gone(r.(allowed := false), i));
  }

  lemma AllowerBalances(r: Remote, i: Index, x: Rx, lesser: bool)
    requires Body(Get(r.transactions, i)) == multiset{} && !x.pk.Ack?
    ensures Held(React(r, i, Allower, x, lesser)) == Held(r)
  {
    hide Held, Gone, BeginJoin, BeginAllow, NewSession, SendSaved, Get, Body;
    EndBalances(r, i);
  }

  lemma AllowentBalances(r: Remote, i: Index, x: Rx, lesser: bool)
    requires Good(r) && i.rf && Body(Get(r.transactions, i)) == multiset{} && !x.pk.Ack?
    ensures Held(React(r, i, Allowent, x, lesser)) == Held(r)
  {
    hide Held, Gone, BeginJoin, BeginAllow, NewSession, SendSaved, HelloAt, Good, Get, Body;
    EndBalances(r, i);
    SameFlags(r);
    RenewBalances(r.(allowed := true));
    if x.pk.Hello? { HelloBalances(r, i, x.pk.good, lesser); }
  }

  lemma AliverBalances(r: Remote, i: Index, x: Rx, lesser: bool)
    requires Body(Get(r.transactions, i)) == multiset{}
    ensures Held(React(r, i, Aliver, x, lesser)) == Held(r)
  {
    hide Held, Gone, BeginJoin, BeginAllow, Get, Body;
    EndBalances(r, i);
  }

  /** Any transaction but a Messenger, and a packet that does not end an allow. */
  lemma ReactBalances(r: Remote, i: Index, t: Transaction, x: Rx, lesser: bool)
    requires Good(r) && Get(r.transactions, i) == Some(t) && !t.Messengent? && !t.Messenger?
    requires !(x.tk.Allow? && x.pk.Ack?)
    ensures Held(React(r, i, t, x, lesser)) == Held(r)
  {
    GetIs(r.transactions, i);
    assert Placed((i, t), r.sid, r.rsid);
    assert Body(Get(r.transactions, i)) == multiset{};
    AsideBalances(r, i, t, x, lesser);
    hide React, Held, Good, Get, Body;
    match t {
      case Allower => if x.tk.Allow? { AllowerBalances(r, i, x, lesser); }
      case Allowent => if x.tk.Allow? { AllowentBalances(r, i, x, lesser); }
      case Aliver => AliverBalances(r, i, x, lesser);
      case _ =>
    }
  }

  /** A packet of another kind is ignored. */
  lemma AsideBalances(r: Remote, i: Index, t: Transaction, x: Rx, lesser: bool)
    ensures (t.Allower? || t.Allowent?) && !x.tk.Allow? ==> React(r, i, t, x, lesser) == r
    ensures t.Joining? ==> React(r, i, t, x, lesser) == r
  {
    hide Gone, BeginJoin, BeginAllow, NewSession, SendSaved, HelloAt;
  }

  lemma SettleBalances(s: Stack, i: Index, r: M.Receiver)
    requires Good(s.remote) && i.rf
    ensures Held(Settle(s, i, r).remote) == Held(s.remote)
  {
    NoMessengerAt(s.remote, s.remote.transactions, i);
    hide Pending, Put, Delete, Get, Good, Body;
    DeleteBalances(s.remote.transactions, i);
    if r.live.Some? { PutBalances(s.remote.transactions, i, Messengent(r.live.value)); }
  }

  // ------------------------------------------------------- The balance of an event

  /** What a packet takes from the bodies held, by the transaction it goes to. */
  function Takeaway(r: Remote, i: Index, t: Transaction, x: Rx): multiset<Bytes> {
    match t
    case Messenger(body) =>
      if x.tk.Message? && (x.pk.Done? || x.pk.Nack? || (x.pk.Ack? && x.pk.more && !r.allowed)) then multiset{body}
      else multiset{}
    case Allower =>
      if x.tk.Allow? && x.pk.Ack? then Unsent(NewSession(Gone(r.(allowed := true), i))) else multiset{}
    case Allowent => if x.tk.Allow? && x.pk.Ack? then Unsent(Gone(r, i)) else multiset{}
    case _ => multiset{}
  }

  lemma MessengerReacts(r: Remote, i: Index, t: Transaction, x: Rx, lesser: bool)
    requires t.Messenger?
    ensures || (React(r, i, t, x, lesser) == r && Takeaway(r, i, t, x) == multiset{})
            || (React(r, i, t, x, lesser) == Gone(r, i) && Takeaway(r, i, t, x) == multiset{t.body})
  {
    hide Gone;
  }

  lemma MessengerBalances(r: Remote, i: Index, t: Transaction, x: Rx, lesser: bool)
    requires Get(r.transactions, i) == Some(t) && t.Messenger?
    ensures Held(React(r, i, t, x, lesser)) + Takeaway(r, i, t, x) == Held(r)
  {
    assert Body(Get(r.transactions, i)) == multiset{t.body};
    SameFlags(r);
    GoneBalances(r, i, r.joined, r.allowed);
    hide *;
    MessengerReacts(r, i, t, x, lesser);
    NoneOnly(Held(r));
  }

  /** An allow that ends, on either side. */
  lemma InitiatorBalances(r: Remote, i: Index)
    requires Body(Get(r.transactions, i)) == multiset{}
    ensures var r1 := NewSession(Gone(r.(allowed := true), i)); Held(SendSaved(r1)) + Unsent(r1) == Held(r)
  {
    SameFlags(r);
    GoneNothing(r, i, r.joined, true);
    var r1 := Gone(r.(allowed := true), i);
    hide *;
    RenewBalances(r1);
    SavedBalances(NewSession(r1));
  }

  lemma CorrespondentBalances(r: Remote, i: Index)
    requires Body(Get(r.transactions, i)) == multiset{}
    ensures Held(SendSaved(Gone(r, i))) + Unsent(Gone(r, i)) == Held(r)
  {
    SameFlags(r);
    GoneNothing(r, i, r.joined, r.allowed);
    hide *;
    SavedBalances(Gone(r, i));
  }

  lemma AllowEndBalances(r: Remote, i: Index, t: Transaction, x: Rx, lesser: bool)
    requires Good(r) && Get(r.transactions, i) == Some(t) && (t.Allower? || t.Allowent?)
    requires x.tk.Allow? && x.pk.Ack?
    ensures Held(React(r, i, t, x, lesser)) + Takeaway(r, i, t, x) == Held(r)
  {
    assert Body(Get(r.transactions, i)) == multiset{};
    AllowEnd(r, i, t, x, lesser);
    hide *;
    InitiatorBalances(r, i);
    CorrespondentBalances(r, i);
  }

  lemma AllowEnd(r: Remote, i: Index, t: Transaction, x: Rx, lesser: bool)
    requires (t.Allower? || t.Allowent?) && x.tk.Allow? && x.pk.Ack?
    ensures t.Allower? ==>
              var r1 := NewSession(Gone(r.(allowed := true), i));
              React(r, i, t, x, lesser) == SendSaved(r1) && Takeaway(r, i, t, x) == Unsent(r1)
    ensures t.Allowent? ==>
              React(r, i, t, x, lesser) == SendSaved(Gone(r, i)) && Takeaway(r, i, t, x) == Unsent(Gone(r, i))
  {
    hide Gone, NewSession, SendSaved, Unsent;
  }

  lemma ReactedBalances(s: Stack, i: Index, t: Transaction, x: Rx)
    requires Good(s.remote) && Get(s.remote.transactions, i) == Some(t) && !t.Messengent?
    ensures Held(React(s.remote, i, t, x, s.lesser)) + Takeaway(s.remote, i, t, x) == Held(s.remote)
  {
    var r := s.remote;
    GetIs(r.transactions, i);
    assert Placed((i, t), r.sid, r.rsid);
    hide React, Held, Good, Get, Unsent, NewSession, Gone;
    if t.Messenger? {
      MessengerBalances(r, i, t, x, s.lesser);
    } else if x.tk.Allow? && x.pk.Ack? && (t.Allower? || t.Allowent?) {
      AllowEndBalances(r, i, t, x, s.lesser);
    } else if x.tk.Allow? && x.pk.Ack? {
      IdleBalances(r, i, t, x, s.lesser);
    } else {
      ReactBalances(r, i, t, x, s.lesser);
    }
  }

  lemma ReceiveBalances(s: Stack, i: Index, t: Transaction, x: Rx)
    requires Good(s.remote) && Get(s.remote.transactions, i) == Some(t)
    ensures Held(Receive(s, i, t, x).0.remote) + Takeaway(s.remote, i, t, x) == Held(s.remote)
  {
    GetIs(s.remote.transactions, i);
    assert Placed((i, t), s.remote.sid, s.remote.rsid);
    hide React, Held, Good, Get, Unsent, NewSession, Gone, Seen, Respond, Settle;
    if t.Messengent? {
      SettleBalances(s, i, Respond(s.remote.allowed, Seen(s, i, Some(t.m)),
                                   if x.pk.Segment? then M.Seg(x.pk.packet) else M.StaleNack).0);
    } else {
      ReactedBalances(s, i, t, x);
    }
  }

  lemma IdleBalances(r: Remote, i: Index, t: Transaction, x: Rx, lesser: bool)
    requires x.tk.Allow? && (t.Joining? || t.Aliver?)
    ensures React(r, i, t, x, lesser) == r
  {
  }

  lemma CorrespondBalances(s: Stack, i: Index, x: Rx)
    requires Good(s.remote) && i.rf
    ensures Held(Correspond(s, i, x).0.remote) == Held(s.remote)
  {
    hide Respond, Settle, Held, Good, HelloAt;
    if x.tk.Allow? && x.pk.Hello? {
      HelloBalances(s.remote, i, x.pk.good, s.lesser);
    } else if x.tk.Message? && x.pk.Segment? {
      SettleBalances(s, i, Respond(s.remote.allowed, Seen(s, i, None), M.Seg(x.pk.packet)).0);
    }
  }

  lemma TakeawayOf(s: Stack, x: Rx, t: Transaction)
    requires Admit(s.remote, x).allowed == s.remote.allowed && Target(s, x) == Some(t)
    ensures Ended(s, Arrive(x)) + Lost(s, Arrive(x)) == Takeaway(Admit(s.remote, x), Index(!x.cf, x.si, x.ti), t, x)
  {
    hide Target, Admit, Unsent, NewSession, Gone;
    NoneOnly(Ended(s, Arrive(x)));
    NoneOnly(Lost(s, Arrive(x)));
  }

  /** The takeaway is what was ended and what was lost. */
  lemma TakeawayIs(s: Stack, x: Rx)
    requires Admit(s.remote, x).allowed == s.remote.allowed
    ensures Ended(s, Arrive(x)) + Lost(s, Arrive(x))
            == match Target(s, x)
               case Some(t) => Takeaway(Admit(s.remote, x), Index(!x.cf, x.si, x.ti), t, x)
               case None => multiset{}
  {
    hide Target, Admit, Unsent, NewSession, Gone;
    if Target(s, x).Some? {
      TakeawayOf(s, x, Target(s, x).value);
    }
  }

  lemma ArriveBalances(s: Stack, x: Rx)
    requires Good(s.remote) && IsId(x.si)
    ensures Held(Process(s, x).0.remote) + Ended(s, Arrive(x)) + Lost(s, Arrive(x)) == Held(s.remote)
  {
    var i := Index(!x.cf, x.si, x.ti);
    var s1 := s.(remote := Admit(s.remote, x));
    AdmitBalances(s.remote, x);
    TakeawayIs(s, x);
    if x.si != 0 && !x.cf && x.si != s.remote.rsid && ValidSid(x.si, s.remote.rsid) { AdmitGood(s.remote, x); }
    hide Receive, Correspond, ValidSid, Held, Good, Takeaway, Get, Ended, Lost, DropCorrespondents;
    if x.si != 0 && !s.gone && (x.cf || ValidSid(x.si, s.remote.rsid)) {
      var t: Option<Transaction> := Get(s1.remote.transactions, i);
      match t
      case Some(u) => ReceiveBalances(s1, i, u, x);
      case None => if !x.cf { CorrespondBalances(s1, i, x); }
    }
  }

  lemma ExpireBalances(s: Stack, i: Index)
    requires Good(s.remote)
    ensures Held(Redo(s, i).0.remote) == Held(s.remote)
  {
    var t: Option<Transaction> := Get(s.remote.transactions, i);
    GetIs(s.remote.transactions, i);
    assert t.Some? ==> Placed((i, t.value), s.remote.sid, s.remote.rsid);
    hide M.Nudge, Settle, Held, Good, Get;
    match t {
      case Some(Messengent(m)) => SettleBalances(s, i, M.Nudge(Seen(s, i, Some(m))).0);
      case _ =>
    }
  }

  lemma LapseBalances(r: Remote, i: Index)
    ensures Held(Lapse(r, i)) == Held(r)
  {
    var t: Option<Transaction> := Get(r.transactions, i);
    assert t.Some? && !t.value.Messenger? ==> Body(t) == multiset{};
    hide Held, Gone, Get, Body;
    SameFlags(r);
    if t.Some? && !t.value.Messenger? { GoneNothing(r, i, r.joined, r.allowed); }
  }

  lemma JoinBalances(r: Remote, i: Index)
    requires Good(r)
    ensures Held(JoinDone(r, i)) == Held(r)
  {
    if Get(r.transactions, i) == Some(Joining) {
      JoinStays(r, i);
      var r1 := if r.sid == 0 then NewSession(r) else r;
      assert Body(Get(r1.transactions, i)) == multiset{};
      hide Held, Gone, Get, Body, NewSession, Good;
      RenewBalances(r);
      GoneNothing(r1, i, true, r1.allowed);
    }
  }

  lemma LocalBalances(s: Stack, e: Event)
    requires Good(s.remote) && !e.Arrive? && !Removes(s, e)
    ensures Held(Happen(s, e).remote) == Held(s.remote) + Accepted(s, e)
  {
    var r := s.remote;
    NoneOnly(Held(r));
    hide Held, Redo, Lapse, BeginJoin, BeginAllow, BeginAlive, JoinDone, SendOne, Good, Get, Entered;
    match e {
      case Expire(i) => ExpireBalances(s, i);
      case End(i) => LapseBalances(r, i);
      case Send(body) => SendBalances(r, body);
      case StartJoin => BeginJoinBalances(r);
      case StartAllow => BeginAllowBalances(r);
      case StartAlive => BeginAliveBalances(r);
      case AskJoin(ti) =>
        EnteredBalances(r.(joined := false), Index(true, 0, ti), Joining);
        FlagsAside(r, r.tid);
        assert r.(tid := r.tid, joined := false) == r.(joined := false);
      case Join(i) => JoinBalances(r, i);
      case Rejected(i) =>
    }
  }

  lemma RemovedBalances(s: Stack)
    ensures Held(Removed(s).remote) == multiset{}
  {
    hide Marked;
  }

  /** The join that completes is in the table still. */
  lemma JoinStays(r: Remote, i: Index)
    requires Good(r)
    ensures Get(r.transactions, i) == Some(Joining) ==> Get(NewSession(r).transactions, i) == Some(Joining)
  {
    GetIs(r.transactions, i);
    SessionKeepsBodies(r);
    OnlyJoinsStay(r);
    GetIs(NewSession(r).transactions, i);
    if Get(r.transactions, i) == Some(Joining) {
      assert Placed((i, Joining), r.sid, r.rsid);
      assert (i, Joining) in NewSession(r).transactions;
    }
    hide NewSession, Get;
  }

  /** One event: what is held after it, what the remote ended and what was lost make up what was
      held before it and what was accepted. */
  lemma EventBalances(s: Stack, e: Event)
    requires Good(s.remote) && (e.Arrive? ==> IsId(e.x.si))
    ensures Held(Happen(s, e).remote) + Ended(s, e) + Lost(s, e) == Held(s.remote) + Accepted(s, e)
  {
    hide Held, Process, Good, Target, Unsent;
    if e.Arrive? {
      GoneSilent(s, e.x);
      ArriveBalances(s, e.x);
    } else if Removes(s, e) {
      RemovedBalances(s);
      hide Removed, Rejectable;
      NoneOnly(Held(s.remote));
    } else {
      LocalBalances(s, e);
      NoneOnly(Held(Happen(s, e).remote));
    }
  }

  // ----------------------------------------------------------------- Whole runs

  function AllAccepted(s: Stack, events: seq<Event>): multiset<Bytes>
    decreases |events|
  {
    if events == [] then multiset{} else Accepted(s, events[0]) + AllAccepted(Happen(s, events[0]), events[1..])
  }

  function AllEnded(s: Stack, events: seq<Event>): multiset<Bytes>
    decreases |events|
  {
    if events == [] then multiset{} else Ended(s, events[0]) + AllEnded(Happen(s, events[0]), events[1..])
  }

  function AllLost(s: Stack, events: seq<Event>): multiset<Bytes>
    decreases |events|
  {
    if events == [] then multiset{} else Lost(s, events[0]) + AllLost(Happen(s, events[0]), events[1..])
  }

  /** Every body message() has accepted is pending, saved, ended by the remote with a done or a nack,
      or lost; none twice. */
  lemma {:induction false} EveryBodyHasOneFate(s: Stack, events: seq<Event>, advance: nat)
    requires Good(s.remote) && Once(s, advance) && Genuine(events)
    requires advance + Advance(s, events) < SID_WRAP_MODULO
    ensures Held(Run(s, events).remote) + AllEnded(s, events) + AllLost(s, events)
            == Held(s.remote) + AllAccepted(s, events)
    decreases |events|
  {
    hide Good, Once, Happen, Moved, Held, Accepted, Ended, Lost;
    if events != [] {
      assert events[0] in events;
      HappenKeeps(s, events[0], advance);
      EventBalances(s, events[0]);
      var s1 := Happen(s, events[0]);
      EveryBodyHasOneFate(s1, events[1..], advance + Moved(s, events[0]));
      AddUp(Held(s.remote), Accepted(s, events[0]), Held(s1.remote), Ended(s, events[0]), Lost(s, events[0]),
            AllAccepted(s1, events[1..]), Held(Run(s1, events[1..]).remote),
            AllEnded(s1, events[1..]), AllLost(s1, events[1..]));
    }
  }

  lemma AddUp(h0: multiset<Bytes>, a0: multiset<Bytes>, h1: multiset<Bytes>, e0: multiset<Bytes>, l0: multiset<Bytes>,
              a1: multiset<Bytes>, h2: multiset<Bytes>, e1: multiset<Bytes>, l1: multiset<Bytes>)
    requires h1 + e0 + l0 == h0 + a0 && h2 + e1 + l1 == h1 + a1
    ensures h2 + (e0 + e1) + (l0 + l1) == h0 + (a0 + a1)
  {
    forall b: Bytes ensures (h2 + (e0 + e1) + (l0 + l1))[b] == (h0 + (a0 + a1))[b] {
      assert (h1 + e0 + l0)[b] == (h0 + a0)[b] && (h2 + e1 + l1)[b] == (h1 + a1)[b];
    }
  }

  // ---------------------------------------------------------- When a body is lost

  /** Resending what is saved finds every index it needs free: no transaction of this session is
      2^32 - 1 transactions old. */
  ghost predicate Room(r: Remote) {
    |r.messages| <= SID_ROLLOVER && Free(r, |r.messages|)
  }

  lemma {:induction false} UnsentUnallowed(r: Remote)
    requires !r.allowed
    ensures Unsent(r) == multiset(r.messages)
    decreases |r.messages|
  {
    if r.messages != [] {
      var r1 := r.(messages := r.messages[1..]);
      UnsentUnallowed(SendOne(r1, r.messages[0]));
      assert r.messages == [r.messages[0]] + r.messages[1..];
    }
  }

  /** Nothing is left unsent exactly if the remote is allowed or nothing was saved. */
  lemma UnsentExactly(r: Remote)
    requires IsId(r.tid) && Room(r)
    ensures Unsent(r) == multiset{} <==> r.allowed || r.messages == []
  {
    if r.allowed {
      NothingUnsent(r);
    } else {
      UnsentUnallowed(r);
      assert r.messages != [] ==> r.messages[0] in multiset(r.messages);
    }
  }

  lemma NoneOnly(a: multiset<Bytes>)
    ensures multiset{} + a == a == a + multiset{}
  {
  }

  lemma {:induction false} NothingUnsent(r: Remote)
    requires IsId(r.tid) && r.allowed && Room(r)
    ensures Unsent(r) == multiset{}
    decreases |r.messages|
  {
    if r.messages != [] {
      var next := SendOne(r.(messages := r.messages[1..]), r.messages[0]);
      assert After(r.tid, 1) == Next(r.tid) by { assert After(r.tid, 1) == After(Next(r.tid), 0); }
      var e := (Index(false, r.sid, Next(r.tid)), Messenger(r.messages[0]));
      assert next.transactions == r.transactions + [e];
      assert |next.transactions| != |r.transactions|;
      FreeAfter(r, e);
      NothingUnsent(next);
      NoneOnly(Unsent(next));
      assert Unsent(r) == multiset{} + Unsent(next);
    }
  }

  /** The transactions of this side, saved messages and all, are fewer than there are ids, and none
      is in the way of a resend. */
  ghost predicate Roomy(s: Stack, e: Event) {
    Resending(s, e).Some? ==> Room(Resending(s, e).value) && IsId(Resending(s, e).value.tid)
  }

  /** An ack finds the Messenger's remote not allowed and would go on to the next burst; or the
      correspondent's side of an allow ends, with messages saved, after the remote has stopped being
      allowed; or a rejected join removes a remote that holds a body. */
  predicate Loses(s: Stack, e: Event) {
    || (AckUnallowed(s, e) && Body(Target(s, e.x)) != multiset{})
    || (Resending(s, e).Some? && !s.remote.allowed && s.remote.messages != [] && Target(s, e.x) == Some(Allowent))
    || (Removes(s, e) && Held(s.remote) != multiset{})
  }

  /** Exactly when an event loses a body. The initiator's side of an allow never does. */
  lemma LostExactly(s: Stack, e: Event)
    requires Good(s.remote) && (e.Arrive? ==> IsId(e.x.si)) && Roomy(s, e)
    ensures Lost(s, e) != multiset{} <==> Loses(s, e)
  {
    if Resending(s, e).Some? {
      ResendLoses(s, e);
    }
    hide Resending, Target, Unsent, Body, Room, Held, Rejectable;
  }

  lemma ResendLoses(s: Stack, e: Event)
    requires Good(s.remote) && (e.Arrive? ==> IsId(e.x.si)) && Roomy(s, e) && Resending(s, e).Some?
    ensures Unsent(Resending(s, e).value) != multiset{} <==>
              !s.remote.allowed && s.remote.messages != [] && Target(s, e.x) == Some(Allowent)
    ensures !AckUnallowed(s, e)
  {
    hide Unsent, Room, Get, Body, Stay, Leave, ValidSid;
    UnsentExactly(Resending(s, e).value);
  }

  /** Resending finds room in the whole run. */
  ghost predicate AllRoomy(s: Stack, events: seq<Event>)
    decreases |events|
  {
    events == [] || (Roomy(s, events[0]) && AllRoomy(Happen(s, events[0]), events[1..]))
  }

  /** No event of the run meets one of the three conditions. */
  ghost predicate Unhindered(s: Stack, events: seq<Event>)
    decreases |events|
  {
    events == [] || (!Loses(s, events[0]) && Unhindered(Happen(s, events[0]), events[1..]))
  }

  lemma {:induction false} NoneLost(s: Stack, events: seq<Event>, advance: nat)
    requires Good(s.remote) && Once(s, advance) && Genuine(events) && AllRoomy(s, events)
    requires advance + Advance(s, events) < SID_WRAP_MODULO
    ensures AllLost(s, events) == multiset{} <==> Unhindered(s, events)
    decreases |events|
  {
    hide Good, Once, Happen, Moved, Lost, Roomy, Loses;
    if events != [] {
      assert events[0] in events;
      HappenKeeps(s, events[0], advance);
      LostExactly(s, events[0]);
      NoneLost(Happen(s, events[0]), events[1..], advance + Moved(s, events[0]));
      NoneOfSum(Lost(s, events[0]), AllLost(Happen(s, events[0]), events[1..]));
    }
  }

  lemma NoneOfSum(a: multiset<Bytes>, b: multiset<Bytes>)
    ensures a + b == multiset{} <==> a == multiset{} && b == multiset{}
  {
    if a != multiset{} {
      var x :| x in a;
      assert x in a + b;
    }
    if b != multiset{} {
      var x :| x in b;
      assert x in a + b;
    }
  }

  lemma NoneMissing(a: multiset<Bytes>, b: multiset<Bytes>)
    ensures a == a + b <==> b == multiset{}
  {
    if b != multiset{} {
      var x :| x in b;
      assert (a + b)[x] > a[x];
    }
  }

  /** Exactly the runs in which no message is lost. Over every run of packets, timers, joins and
      allows of either side: the bodies accepted are those pending, those saved, and those whose
      Messengers the remote ended with a done or a nack, if and only if no ack that asks for more
      and no end of an allow with messages saved is heard while the remote is not allowed, and no
      rejected join removes the remote while it holds a body. */
  lemma NoMessageVanishes(s: Stack, events: seq<Event>)
    requires Good(s.remote) && s.rxMsgs == [] && Held(s.remote) == multiset{}
    requires Genuine(events) && Advance(s, events) < SID_WRAP_MODULO && AllRoomy(s, events)
    ensures Held(Run(s, events).remote) + AllEnded(s, events) == AllAccepted(s, events) <==> Unhindered(s, events)
  {
    hide Good, Run, Held, AllEnded, AllAccepted, AllLost, Unhindered, Advance, Genuine, AllRoomy;
    Once0(s);
    EveryBodyHasOneFate(s, events, 0);
    NoneLost(s, events, 0);
    NoneMissing(Held(Run(s, events).remote) + AllEnded(s, events), AllLost(s, events));
    NoneOnly(AllAccepted(s, events));
  }

  // --------------------------------------------------------------- That it can be lost

  lemma TwoEntries(e: (Index, Transaction), f: (Index, Transaction))
    requires e.0 != f.0
    ensures Get([e, f], e.0) == Some(e.1) && Get([e, f], f.0) == Some(f.1)
    ensures Delete([e, f], e.0) == [f] && Delete([e, f], f.0) == [e]
    ensures Get([e], e.0) == Some(e.1) && Get([e], f.0) == None && Delete([e], e.0) == []
    ensures Pending([e]) == Body(Some(e.1)) && Proper([e]) && Proper([e, f])
  {
    assert [e, f][1..] == [f] && [f][1..] == [] && [e][1..] == [];
    assert Get([e, f], f.0) == Get([e, f][1..], f.0);
    NoneOnly(Body(Some(e.1)));
  }

  /** And it happens: a Messenger whose remote is being allowed again loses its body to the next
      ack that asks for more. */
  lemma AckLosesBody(body: Bytes)
    ensures var r := Remote(1, 1, 1, [(Index(false, 1, 1), Messenger(body))], {}, [], true, true);
            var s := Happen(Stack(r, false, [], false), StartAllow);
            var ack := Arrive(Rx(true, Message, 1, 1, Ack(true)));
            && Good(r) && Held(r) == multiset{body}
            && Held(Happen(s, ack).remote) == multiset{}
            && Ended(s, ack) == multiset{} && Lost(s, ack) == multiset{body}
  {
    var i, j := Index(false, 1, 1), Index(false, 1, 2);
    var e: (Index, Transaction), f: (Index, Transaction) := (i, Messenger(body)), (j, Allower);
    var r := Remote(1, 1, 1, [e], {}, [], true, true);
    TwoEntries(e, f);
    TwoEntries(f, e);
    assert Good(r) && !JoinInProcess([e]) && !AllowInProcess([e]);
    hide Get, Delete, Pending, Good, JoinInProcess, AllowInProcess;
    var r1 := Remote(1, 1, 2, [e, f], {}, [], true, false);
    assert BeginAllow(r) == r1 by { assert [e] + [f] == [e, f]; }
    hide BeginAllow;
    NoneOnly(multiset{body});
    AckTakes(r1, i, body);
    assert Delete(r1.transactions, i) == [f];
    NoneOnly(multiset{});
  }

  /** A rejected join takes everything. */
  lemma RejectTakes(s: Stack, e: Event)
    requires Removes(s, e)
    ensures Held(Happen(s, e).remote) == multiset{} && Lost(s, e) == Held(s.remote)
  {
    RemovedBalances(s);
    hide Removed, Rejectable, Held;
  }

  lemma JoinEnters(r: Remote, e: (Index, Transaction))
    requires r.transactions == [e] && !JoinInProcess([e]) && Get([e], Index(false, 0, Next(r.tid))).None?
    ensures BeginJoin(r) == r.(tid := Next(r.tid), joined := false,
                               transactions := [e] + [(Index(false, 0, Next(r.tid)), Joining)])
  {
    hide Get, JoinInProcess;
  }

  lemma JoinStarts(body: Bytes, saved: Bytes)
    ensures var r := Remote(1, 1, 1, [(Index(false, 1, 1), Messenger(body))], {}, [saved], true, true);
            && Good(r) && Held(r) == multiset{body, saved}
            && BeginJoin(r) == Remote(1, 1, 2, [(Index(false, 1, 1), Messenger(body)), (Index(false, 0, 2), Joining)],
                                      {}, [saved], false, true)
  {
    var i, j := Index(false, 1, 1), Index(false, 0, 2);
    var e: (Index, Transaction), f: (Index, Transaction) := (i, Messenger(body)), (j, Joining);
    var r := Remote(1, 1, 1, [e], {}, [saved], true, true);
    TwoEntries(e, f);
    assert Good(r) && !JoinInProcess([e]);
    assert Held(r) == multiset{body} + multiset{saved};
    hide Get, Good, JoinInProcess, Held, Pending, Delete;
    JoinEnters(r, e);
    hide BeginJoin;
    assert [e] + [f] == [e, f];
  }

  /** A pending body and a saved one go with the remote when a join begun here is rejected by the
      other side. The remote was allowed all the while. */
  lemma RejectLosesBodies(body: Bytes, saved: Bytes)
    ensures var r := Remote(1, 1, 1, [(Index(false, 1, 1), Messenger(body))], {}, [saved], true, true);
            var s := Happen(Stack(r, false, [], false), StartJoin);
            var reject := Rejected(Index(false, 0, 2));
            && Good(r) && Held(r) == multiset{body, saved} && s.remote.allowed
            && Held(Happen(s, reject).remote) == multiset{} && Lost(s, reject) == multiset{body, saved}
  {
    var r := Remote(1, 1, 1, [(Index(false, 1, 1), Messenger(body))], {}, [saved], true, true);
    JoinStarts(body, saved);
    BeginJoinBalances(r);
    var s := Stack(BeginJoin(r), false, [], false);
    assert Happen(Stack(r, false, [], false), StartJoin) == s by { hide BeginJoin; }
    TwoEntries((Index(false, 1, 1), Messenger(body)), (Index(false, 0, 2), Joining));
    assert Removes(s, Rejected(Index(false, 0, 2))) by { hide BeginJoin, Get; }
    hide *;
    RejectTakes(s, Rejected(Index(false, 0, 2)));
  }

  /** An ack to a Messenger, asking for more while the remote is not allowed. */
  lemma AckTakes(r: Remote, i: Index, body: Bytes)
    requires Get(r.transactions, i) == Some(Messenger(body)) && !i.rf && i.si != 0 && !r.allowed
    ensures var s := Stack(r, false, [], false);
            var ack := Arrive(Rx(true, Message, i.si, i.ti, Ack(true)));
            && Happen(s, ack) == s.(remote := Gone(r, i))
            && Ended(s, ack) == multiset{} && Lost(s, ack) == multiset{body}
  {
    hide Get, Gone;
  }

  lemma AliveBegins(r: Remote, e: (Index, Transaction))
    requires r.transactions == [e] && r.joined && r.allowed && !JoinInProcess([e])
    requires e.0 != Index(false, r.sid, Next(r.tid)) && Get([e], Index(false, r.sid, Next(r.tid))).None?
    ensures BeginAlive(r) == r.(tid := Next(r.tid), transactions := [e] + [(Index(false, r.sid, Next(r.tid)), Aliver)])
  {
    hide Get, JoinInProcess;
  }

  /** An allow in process leaves another nothing to do. */
  lemma AllowWaits(r: Remote, j: Index, d: Table)
    requires Delete(r.transactions, j) == d && r.joined && !JoinInProcess(d) && AllowInProcess(d)
    ensures BeginAllow(Gone(r.(allowed := false), j)) == r.(tid := Next(r.tid), transactions := d, allowed := false)
  {
    hide Delete, JoinInProcess, AllowInProcess;
  }

  lemma AliveUnallowed(r: Remote, j: Index)
    requires Get(r.transactions, j) == Some(Aliver) && !j.rf && j.si != 0
    ensures Happen(Stack(r, false, [], false), Arrive(Rx(true, Alive, j.si, j.ti, Unallowed)))
            == Stack(BeginAllow(Gone(r.(allowed := false), j)), false, [], false)
  {
    hide Get, Gone, BeginAllow;
  }

  /** So does a saved body, if the correspondent's side of an allow ends after an alive has come
      back unallowed. */
  lemma EndLosesBody(body: Bytes)
    ensures var r := Remote(1, 1, 1, [(Index(true, 1, 5), Allowent)], {}, [body], true, true);
            var s1 := Happen(Stack(r, false, [], false), StartAlive);
            var s2 := Happen(s1, Arrive(Rx(true, Alive, 1, 2, Unallowed)));
            var end := Arrive(Rx(false, Allow, 1, 5, Ack(false)));
            && Good(r) && Held(r) == multiset{body}
            && Held(Happen(s2, end).remote) == multiset{} && Lost(s2, end) == multiset{body}
  {
    var i, j := Index(true, 1, 5), Index(false, 1, 2);
    var e: (Index, Transaction), f: (Index, Transaction) := (i, Allowent), (j, Aliver);
    var r := Remote(1, 1, 1, [e], {}, [body], true, true);
    TwoEntries(e, f);
    assert Good(r) && !JoinInProcess([e]) && AllowInProcess([e]) by { assert [e][0].1.Allowent?; }
    assert Held(r) == multiset{} + multiset{body};
    NoneOnly(multiset{body});
    hide Get, Delete, Pending, Good, JoinInProcess, AllowInProcess, Held;
    AliveBegins(r, e);
    var r1 := Remote(1, 1, 2, [e, f], {}, [body], true, true);
    assert [e] + [f] == [e, f] && BeginAlive(r) == r1;
    AllowWaits(r1, j, [e]);
    AliveUnallowed(r1, j);
    var r2 := Remote(1, 1, 3, [e], {}, [body], true, false);
    assert Happen(Stack(r, false, [], false), StartAlive) == Stack(r1, false, [], false);
    hide *;
    EndTakes(r2, i, body);
  }

  lemma EndTarget(r: Remote, i: Index)
    requires Get(r.transactions, i) == Some(Allowent) && i.rf && i.si == r.rsid != 0 && IsId(r.rsid)
    ensures var (s, x) := (Stack(r, false, [], false), Rx(false, Allow, i.si, i.ti, Ack(false)));
            && Target(s, x) == Some(Allowent) && Admit(r, x) == r && i == Index(!x.cf, x.si, x.ti)
            && Process(s, x) == Receive(s, i, Allowent, x)
  {
    assert ValidSid(i.si, r.rsid);
    hide Get, ValidSid, Receive;
  }

  lemma EndHappens(r: Remote, i: Index)
    requires Get(r.transactions, i) == Some(Allowent) && i.rf && i.si == r.rsid != 0 && IsId(r.rsid)
    ensures var (s, end) := (Stack(r, false, [], false), Arrive(Rx(false, Allow, i.si, i.ti, Ack(false))));
            Happen(s, end).remote == SendSaved(Gone(r, i)) && Lost(s, end) == Unsent(Gone(r, i))
  {
    EndTarget(r, i);
    hide Get, Process, Target, Admit, Gone, SendSaved, Unsent;
  }

  /** The end of an allow while the remote is not allowed. */
  lemma EndTakes(r: Remote, i: Index, body: Bytes)
    requires Get(r.transactions, i) == Some(Allowent) && i.rf && i.si == r.rsid != 0 && !r.allowed
    requires r.messages == [body] && Delete(r.transactions, i) == [] && IsId(r.rsid)
    ensures var s := Stack(r, false, [], false);
            var end := Arrive(Rx(false, Allow, i.si, i.ti, Ack(false)));
            Held(Happen(s, end).remote) == multiset{} && Lost(s, end) == multiset{body}
  {
    EndHappens(r, i);
    hide Get, Delete, Happen, Lost;
    UnsentUnallowed(Gone(r, i));
    SavedDropped(Gone(r, i));
    NoneOnly(multiset{});
    assert multiset([body]) == multiset{body};
  }
}
