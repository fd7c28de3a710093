/** Which Messengers an event makes, and which bodies a session change puts back among the saved
    ones, to be sent again under another index. */
module Making {
  import opened Basics
  import opened Odicts
  import opened Lotting
  import opened Estating
  import opened Sessions
  import opened SessionRuns
  import opened Fates
  import M = Messaging

  /** Messages under the index of their Messengers, in the order those were made. */
  type Log = seq<(Index, Bytes)>

  function Total(log: Log): multiset<Bytes> {
    if log == [] then multiset{} else multiset{log[0].1} + Total(log[1..])
  }

  /** The Messengers in `after` at an index that `before` does not have. */
  function Made(after: Table, before: Table): Log {
    if after == [] then []
    else
      var (i, t) := after[0];
      (if t.Messenger? && Get(before, i).None? then [(i, t.body)] else []) + Made(after[1..], before)
  }

  function MadeBy(s: Stack, e: Event): Log { Made(Happen(s, e).remote.transactions, s.remote.transactions) }

  /** A session change puts the body of every pending Messenger back. */
  function PutBack(s: Stack, e: Event): multiset<Bytes> {
    if Happen(s, e).remote.sid != s.remote.sid then Pending(s.remote.transactions) else multiset{}
  }

  /** Saved bodies that are dropped: unsent at the end of an allow, or gone with the remote. */
  function Dropped(s: Stack, e: Event): multiset<Bytes> {
    if Removes(s, e) then multiset(s.remote.messages)
    else
      match Resending(s, e)
      case Some(r) => Unsent(r)
      case None => multiset{}
  }

  // ----------------------------------------------------------- What makes nothing

  /** The same session, the same saved bodies, and no new Messenger. */
  ghost predicate Steady(r: Remote, r': Remote) {
    && r'.sid == r.sid && r'.messages == r.messages
    && forall e :: e in r'.transactions && e.1.Messenger? ==> e in r.transactions
  }

  lemma SteadyTwice(a: Remote, b: Remote, c: Remote)
    requires Steady(a, b) && Steady(b, c)
    ensures Steady(a, c)
  {
  }

  lemma GoneSteady(r: Remote, i: Index, joined: bool, allowed: bool)
    requires Proper(r.transactions)
    ensures Steady(r, Gone(r.(joined := joined, allowed := allowed), i)) && Steady(r, Gone(r, i))
    ensures Proper(Gone(r, i).transactions)
  {
    DeleteIs(r.transactions, i);
    hide Delete, Proper;
  }

  lemma EnteredSteady(r: Remote, i: Index, t: Transaction)
    requires !t.Messenger?
    ensures Steady(r, Entered(r, i, t))
  {
    hide Get;
  }

  lemma BeginJoinSteady(r: Remote)
    ensures Steady(r, BeginJoin(r))
  {
    var r1 := r.(tid := Next(r.tid), joined := false);
    EnteredSteady(r1, Index(false, 0, r1.tid), Joining);
    hide Entered, JoinInProcess, Next;
  }

  lemma BeginAllowSteady(r: Remote)
    ensures Steady(r, BeginAllow(r))
  {
    var r1 := r.(tid := Next(r.tid), allowed := false);
    EnteredSteady(r1, Index(false, r1.sid, r1.tid), Allower);
    BeginJoinSteady(r1);
    hide Entered, BeginJoin, JoinInProcess, AllowInProcess, Next;
  }

  lemma BeginAliveSteady(r: Remote)
    ensures Steady(r, BeginAlive(r))
  {
    var r1 := r.(tid := Next(r.tid));
    EnteredSteady(r1, Index(false, r1.sid, r1.tid), Aliver);
    BeginJoinSteady(r1);
    BeginAllowSteady(r1);
    hide Entered, BeginJoin, BeginAllow, Next;
  }

  lemma ContestSteady(r: Remote, i: Index, good: bool, lesser: bool)
    requires Proper(r.transactions)
    ensures Steady(r, Contest(r, i, good, lesser))
  {
    hide Contend, Gone, Entered, Proper, Pending, Get;
    var (race, table) := Contend(r.transactions, r.transactions, i, lesser);
    ContendBalances(r.transactions, r, r.transactions, i, lesser);
    var r1 := r.(transactions := table);
    assert Steady(r, r1);
    hide Steady;
    var r2 := r1.(allowed := false);
    assert r1.(joined := r1.joined, allowed := false) == r2;
    GoneSteady(r1, i, r1.joined, false);
    EnteredSteady(r2, i, Allowent);
    OtherFlag(r1, Entered(r2, i, Allowent));
    SteadyTwice(r, r1, Gone(r1, i));
    SteadyTwice(r, r1, Gone(r2, i));
    SteadyTwice(r, r1, Entered(r2, i, Allowent));
  }

  lemma OtherFlag(r: Remote, r': Remote)
    requires Steady(r.(allowed := false), r')
    ensures Steady(r, r')
  {
  }

  lemma HelloSteady(r: Remote, i: Index, good: bool, lesser: bool)
    requires Proper(r.transactions)
    ensures Steady(r, HelloAt(r, i, good, lesser))
  {
    GoneSteady(r, i, r.joined, r.allowed);
    ContestSteady(r, i, good, lesser);
    ContestSteady(Gone(r, i), i, good, lesser);
    SteadyTwice(r, Gone(r, i), Contest(Gone(r, i), i, good, lesser));
    hide Gone, Contest, JoinInProcess, Steady, Proper;
  }

  /** What ends a transaction and may begin another. */
  lemma EndsSteady(r: Remote, i: Index)
    requires Proper(r.transactions)
    ensures Steady(r, r) && Steady(r, Gone(r, i)) && Steady(r, Gone(r.(allowed := false), i))
    ensures Steady(r, BeginJoin(Gone(r.(joined := false), i)))
    ensures Steady(r, BeginAllow(Gone(r.(allowed := false), i)))
  {
    GoneSteady(r, i, r.joined, false);
    GoneSteady(r, i, false, r.allowed);
    SameFlags(r);
    hide Gone, BeginJoin, BeginAllow, Proper, Held;
    BeginJoinSteady(Gone(r.(joined := false), i));
    BeginAllowSteady(Gone(r.(allowed := false), i));
    SteadyTwice(r, Gone(r.(joined := false), i), BeginJoin(Gone(r.(joined := false), i)));
    SteadyTwice(r, Gone(r.(allowed := false), i), BeginAllow(Gone(r.(allowed := false), i)));
    assert Steady(r, r);
  }

  /** A packet that begins a session or resends. */
  predicate Renews(t: Transaction, x: Rx) {
    x.tk.Allow? && ((t.Allower? && x.pk.Ack?) || (t.Allowent? && (x.pk.Ack? || (x.pk.Initiate? && x.pk.good))))
  }

  lemma ReactSteady(r: Remote, i: Index, t: Transaction, x: Rx, lesser: bool)
    requires Proper(r.transactions) && !Renews(t, x)
    ensures Steady(r, React(r, i, t, x, lesser))
  {
    EndsSteady(r, i);
    if x.pk.Hello? { HelloSteady(r, i, x.pk.good, lesser); }
    hide Gone, BeginJoin, BeginAllow, NewSession, SendSaved, HelloAt, Steady, Proper;
  }

  lemma SettleSteady(s: Stack, i: Index, r: M.Receiver)
    requires Proper(s.remote.transactions)
    ensures Steady(s.remote, Settle(s, i, r).remote)
  {
    if r.live.Some? {
      PutIs(s.remote.transactions, i, Messengent(r.live.value));
    } else {
      DeleteIs(s.remote.transactions, i);
    }
    hide Put, Delete, Proper;
  }

  lemma ReceiveSteady(s: Stack, i: Index, t: Transaction, x: Rx)
    requires Proper(s.remote.transactions) && !Renews(t, x)
    ensures Steady(s.remote, Receive(s, i, t, x).0.remote)
  {
    if t.Messengent? {
      SettleSteady(s, i, Respond(s.remote.allowed, Seen(s, i, Some(t.m)),
                                 if x.pk.Segment? then M.Seg(x.pk.packet) else M.StaleNack).0);
      hide Respond, Settle;
    } else {
      ReactSteady(s.remote, i, t, x, s.lesser);
      hide React;
    }
  }

  lemma CorrespondSteady(s: Stack, i: Index, x: Rx)
    requires Proper(s.remote.transactions)
    ensures Steady(s.remote, Correspond(s, i, x).0.remote)
  {
    if x.tk.Allow? && x.pk.Hello? {
      HelloSteady(s.remote, i, x.pk.good, s.lesser);
      hide HelloAt;
    } else if x.tk.Message? && x.pk.Segment? {
      SettleSteady(s, i, Respond(s.remote.allowed, Seen(s, i, None), M.Seg(x.pk.packet)).0);
      hide Respond, Settle;
    }
  }

  lemma AdmitSteady(r: Remote, x: Rx)
    requires Proper(r.transactions)
    ensures Steady(r, Admit(r, x)) && Proper(Admit(r, x).transactions)
    ensures forall e :: e in Admit(r, x).transactions ==> e in r.transactions
  {
    StayIs(r.transactions, true, x.si);
    hide Stay, Proper;
  }

  lemma {:induction false} NoneMade(after: Table, before: Table)
    requires Proper(before) && forall e :: e in after && e.1.Messenger? ==> e in before
    ensures Made(after, before) == []
  {
    if after != [] {
      GetIs(before, after[0].0);
      assert after[0] in after;
      assert forall e :: e in after[1..] ==> e in after;
      NoneMade(after[1..], before);
      hide Get, Proper;
    }
  }

  // ------------------------------------------------------------ What makes some

  lemma {:induction false} TotalAppend(a: Log, b: Log)
    ensures Total(a + b) == Total(a) + Total(b)
  {
    if a == [] {
      assert a + b == b;
    } else {
      assert (a + b)[1..] == a[1..] + b;
      TotalAppend(a[1..], b);
    }
  }

  lemma {:induction false} MadeAppend(a: Table, b: Table, before: Table)
    ensures Made(a + b, before) == Made(a, before) + Made(b, before)
  {
    if a == [] {
      assert a + b == b;
    } else {
      assert (a + b)[1..] == a[1..] + b;
      MadeAppend(a[1..], b, before);
      hide Get;
    }
  }

  lemma MadeOne(i: Index, body: Bytes, before: Table)
    requires Get(before, i).None?
    ensures Made([(i, Messenger(body))], before) == [(i, body)] && Total([(i, body)]) == multiset{body}
  {
    hide Get;
    assert Made([], before) == [];
    assert [(i, Messenger(body))][1..] == [];
    assert [(i, body)][1..] == [];
  }

  /** Every index of this side and session that `before` has is taken. */
  ghost predicate Covers(r: Remote, before: Table) {
    forall i: Index :: !i.rf && i.si == r.sid && Get(before, i).Some? ==> Get(r.transactions, i).Some?
  }

  /** A Messenger that `before` does not have. */
  predicate New(e: (Index, Transaction), before: Table) { e.1.Messenger? && Get(before, e.0).None? }

  lemma GrownCovers(r: Remote, before: Table, e: (Index, Transaction), r': Remote)
    requires Covers(r, before) && r'.sid == r.sid && r'.transactions == r.transactions + [e]
    ensures Covers(r', before)
  {
    forall i: Index | !i.rf && i.si == r.sid && Get(before, i).Some? ensures Get(r'.transactions, i).Some? {
      GetIs(r.transactions, i);
      GetIs(r'.transactions, i);
    }
    hide Get;
  }

  /** One message: a Messenger made, or none. */
  lemma SendMakes(r: Remote, body: Bytes, before: Table)
    requires Covers(r, before)
    ensures var r' := SendOne(r, body);
            && r'.sid == r.sid && r'.messages == r.messages && Covers(r', before)
            && (Takes(r) ==> r'.transactions == r.transactions + [(Index(false, r.sid, Next(r.tid)), Messenger(body))])
            && (!Takes(r) ==> r'.transactions == r.transactions)
            && Total(Made(r'.transactions, before))
               == Total(Made(r.transactions, before)) + (if Takes(r) then multiset{body} else multiset{})
            && forall e :: e in r'.transactions ==> e in r.transactions || New(e, before)
  {
    var i := Index(false, r.sid, Next(r.tid));
    if Takes(r) {
      assert New((i, Messenger(body)), before);
      GrownCovers(r, before, (i, Messenger(body)), SendOne(r, body));
      MadeAppend(r.transactions, [(i, Messenger(body))], before);
      MadeOne(i, body, before);
      TotalAppend(Made(r.transactions, before), [(i, body)]);
    } else {
      NoneOnly(Total(Made(r.transactions, before)));
    }
    hide Get, Total, Made;
  }

  lemma SaveSplits(messages: seq<Bytes>)
    requires messages != []
    ensures multiset(messages) == multiset{messages[0]} + multiset(messages[1..])
  {
    assert messages == [messages[0]] + messages[1..];
  }

  /** Resending: each saved body is made into a Messenger or dropped. */
  lemma {:induction false} SavedMakes(r: Remote, before: Table)
    requires Covers(r, before)
    ensures var r' := SendSaved(r);
            && r'.sid == r.sid && r'.messages == []
            && Total(Made(r'.transactions, before)) + Unsent(r)
               == Total(Made(r.transactions, before)) + multiset(r.messages)
            && forall e :: e in r'.transactions ==> e in r.transactions || New(e, before)
    decreases |r.messages|
  {
    if r.messages == [] {
      NoneOnly(Total(Made(r.transactions, before)));
    } else {
      var r1 := r.(messages := r.messages[1..]);
      assert Covers(r1, before);
      SendMakes(r1, r.messages[0], before);
      var next := SendOne(r1, r.messages[0]);
      SavedMakes(next, before);
      SaveSplits(r.messages);
      SendBalances(r1, r.messages[0]);
      assert SendSaved(r) == SendSaved(next);
      assert Takes(r) == Takes(r1);
      hide Covers, SendOne, SendSaved, Total, Made, Takes, Held, New;
      Regroup(Total(Made(SendSaved(next).transactions, before)), Unsent(next),
              Total(Made(r.transactions, before)), multiset(next.messages), multiset{r.messages[0]});
    }
  }

  lemma Regroup(a: multiset<Bytes>, u: multiset<Bytes>, b: multiset<Bytes>, m: multiset<Bytes>, x: multiset<Bytes>)
    ensures a + u == b + x + m ==> a + (multiset{} + u) == b + (x + m)
    ensures a + u == b + multiset{} + m ==> a + (x + u) == b + (x + m)
  {
    assert b + x + m == b + (x + m) && multiset{} + u == u;
    assert a + (x + u) == a + u + x && b + (x + m) == b + multiset{} + m + x;
  }

  // ------------------------------------------------------------------- One event

  lemma {:induction false} MadeHas(after: Table, before: Table)
    ensures forall e :: e in after && New(e, before) ==> (e.0, e.1.body) in Made(after, before)
  {
    if after != [] {
      MadeHas(after[1..], before);
      assert forall e :: e in after ==> e == after[0] || e in after[1..];
      hide Get;
    }
  }

  /** A new session puts all bodies back, and its Messengers are all new. */
  lemma RenewMakes(r: Remote, before: Table)
    requires Good(r) && Proper(before) && forall e :: e in before && !e.0.rf ==> e.0.si == 0 || e.0.si == r.sid
    ensures var r' := NewSession(r);
            && r'.sid != r.sid && multiset(r'.messages) == multiset(r.messages) + Pending(r.transactions)
            && Made(r'.transactions, before) == [] && Covers(r', before)
            && forall e :: e in r'.transactions ==> e in r.transactions && !e.1.Messenger?
  {
    var r' := NewSession(r);
    assert r'.sid == Next(r.sid) && IsId(r.sid) && r'.sid != 0;
    OnlyJoinsStay(r);
    SessionKeepsBodies(r);
    NoBodies(r'.transactions);
    PendingIs(r.transactions);
    NoneMade(r'.transactions, before);
    hide NewSession, Bodies, Pending, Good, Proper;
    NoneOnly(multiset(r'.messages));
    forall i: Index | !i.rf && i.si == r'.sid ensures Get(before, i).None? {
      GetIs(before, i);
    }
    hide Get;
  }

  /** The same after the flag that an allow sets. */
  lemma AllowedMakes(r: Remote, before: Table)
    requires Good(r) && Proper(before) && forall e :: e in before && !e.0.rf ==> e.0.si == 0 || e.0.si == r.sid
    ensures var r' := NewSession(r.(allowed := true));
            && r'.sid != r.sid && multiset(r'.messages) == multiset(r.messages) + Pending(r.transactions)
            && Made(r'.transactions, before) == [] && Covers(r', before)
            && forall e :: e in r'.transactions ==> e in r.transactions && !e.1.Messenger?
  {
    RenewMakes(r, before);
    assert NewSession(r.(allowed := true)) == NewSession(r).(allowed := true);
    hide NewSession, Good, Proper, Pending;
  }

  /** What an event does to Messengers and saved bodies: what it makes, what is saved after it and
      what it drops is what was saved before it, what it puts back and what it accepts. */
  ghost predicate Accounts(s: Stack, e: Event) {
    var r, r' := s.remote, Happen(s, e).remote;
    && Total(MadeBy(s, e)) + multiset(r'.messages) + Dropped(s, e)
       == multiset(r.messages) + PutBack(s, e) + Accepted(s, e)
    && forall t :: t in r'.transactions && t.1.Messenger? ==>
         New(t, r.transactions) || (r'.sid == r.sid && t in r.transactions)
  }

  lemma SteadyAccounts(s: Stack, e: Event)
    requires Proper(s.remote.transactions) && Steady(s.remote, Happen(s, e).remote)
    requires Accepted(s, e) == multiset{} == Dropped(s, e)
    ensures Accounts(s, e)
  {
    NoneMade(Happen(s, e).remote.transactions, s.remote.transactions);
    hide Happen, Accepted, Dropped, Made, Proper;
    NoneOnly(multiset(s.remote.messages));
  }

  lemma Cancels(a: multiset<Bytes>, b: multiset<Bytes>, c: multiset<Bytes>)
    requires a + c == b + c
    ensures a == b
  {
    forall x: Bytes ensures a[x] == b[x] {
      assert (a + c)[x] == (b + c)[x];
    }
  }

  /** Ending an allow takes no body along. */
  lemma SamePending(r: Remote, i: Index, t: Transaction)
    requires Good(r) && Get(r.transactions, i) == Some(t) && !t.Messenger?
    ensures Pending(Gone(r, i).transactions) == Pending(r.transactions)
    ensures Good(Gone(r, i)) && Gone(r, i).messages == r.messages && Gone(r, i).sid == r.sid
    ensures forall e :: e in Gone(r, i).transactions ==> e in r.transactions
  {
    DeleteBalances(r.transactions, i);
    NoneOnly(Pending(Delete(r.transactions, i)));
    DeleteIs(r.transactions, i);
    hide Pending, Delete, Proper, Get;
  }

  /** The table's own indexes. */
  lemma OwnIndexes(r: Remote)
    requires Good(r)
    ensures Proper(r.transactions) && Covers(r, r.transactions)
    ensures forall e :: e in r.transactions && !e.0.rf ==> e.0.si == 0 || e.0.si == r.sid
    ensures Made(r.transactions, r.transactions) == []
  {
    NoneMade(r.transactions, r.transactions);
    hide Get, Proper, Made;
  }

  /** A packet that begins a session or resends comes in the session of its transaction. */
  lemma RenewingAdmits(s: Stack, x: Rx, t: Transaction)
    requires Good(s.remote) && IsId(x.si) && Target(s, x) == Some(t) && Renews(t, x)
    ensures var i := Index(!x.cf, x.si, x.ti);
            && Admit(s.remote, x) == s.remote && Get(s.remote.transactions, i) == Some(t)
            && Process(s, x).0 == s.(remote := React(s.remote, i, t, x, s.lesser))
  {
    var i := Index(!x.cf, x.si, x.ti);
    GetIs(Admit(s.remote, x).transactions, i);
    if !x.cf && x.si != s.remote.rsid { AdmitGood(s.remote, x); }
    hide Get, Stay, ValidSid, React, Handle, DropCorrespondents;
    assert x.cf || x.si == s.remote.rsid by {
      if x.cf { assert Placed((i, t), s.remote.sid, s.remote.rsid); }
    }
  }

  lemma NewSessionAccounts(s: Stack, e: Event, r1: Remote)
    requires Good(s.remote) && Accepted(s, e) == multiset{} == Dropped(s, e)
    requires r1.sid != s.remote.sid
    requires multiset(r1.messages) == multiset(s.remote.messages) + Pending(s.remote.transactions)
    requires forall t :: t in r1.transactions ==> !t.1.Messenger?
    requires Steady(r1, Happen(s, e).remote)
    ensures Accounts(s, e)
  {
    NoneMade(Happen(s, e).remote.transactions, s.remote.transactions);
    hide Happen, Accepted, Dropped, Made, Proper, Pending;
    NoneOnly(multiset(Happen(s, e).remote.messages));
    NoneOnly(multiset(s.remote.messages) + Pending(s.remote.transactions));
  }

  /** The initiate at an Allowent: all Messengers give way to the new session. */
  lemma InitiateAccounts(s: Stack, x: Rx)
    requires Good(s.remote) && IsId(x.si) && Target(s, x) == Some(Allowent)
    requires x.tk.Allow? && x.pk.Initiate? && x.pk.good
    ensures Accounts(s, Arrive(x))
  {
    RenewingAdmits(s, x, Allowent);
    var r1 := NewSession(s.remote.(allowed := true));
    hide Process, Target, Good, NewSession, Admit, Get;
    assert Happen(s, Arrive(x)).remote == r1 && Accepted(s, Arrive(x)) == multiset{} == Dropped(s, Arrive(x));
    assert Steady(r1, r1);
    OwnIndexes(s.remote);
    AllowedMakes(s.remote, s.remote.transactions);
    hide *;
    NewSessionAccounts(s, Arrive(x), r1);
  }

  lemma ResendAccounts(s: Stack, e: Event, r1: Remote)
    requires Good(s.remote) && Accepted(s, e) == multiset{} && Resending(s, e) == Some(r1) && e.Arrive?
    requires Happen(s, e).remote == SendSaved(r1)
    requires Covers(r1, s.remote.transactions) && Made(r1.transactions, s.remote.transactions) == []
    requires multiset(r1.messages) == multiset(s.remote.messages)
                                      + (if r1.sid != s.remote.sid then Pending(s.remote.transactions) else multiset{})
    requires forall t :: t in r1.transactions && t.1.Messenger? ==> r1.sid == s.remote.sid && t in s.remote.transactions
    ensures Accounts(s, e)
  {
    SavedMakes(r1, s.remote.transactions);
    hide Happen, Accepted, Resending, Made, Pending, SendSaved, Unsent, Covers, Good;
    assert Total(Made(r1.transactions, s.remote.transactions)) == multiset{};
    hide Total;
    NoneOnly(Total(MadeBy(s, e)) + Unsent(r1));
    NoneOnly(Total(MadeBy(s, e)));
    NoneOnly(multiset(r1.messages));
  }

  /** The last step of an allow, at its initiator. */
  lemma AckAccounts(s: Stack, x: Rx)
    requires Good(s.remote) && IsId(x.si) && Target(s, x) == Some(Allower) && x.tk.Allow? && x.pk.Ack?
    ensures Accounts(s, Arrive(x))
  {
    var i := Index(!x.cf, x.si, x.ti);
    RenewingAdmits(s, x, Allower);
    OwnIndexes(s.remote);
    SamePending(s.remote, i, Allower);
    AllowedMakes(Gone(s.remote, i), s.remote.transactions);
    assert Gone(s.remote.(allowed := true), i) == Gone(s.remote, i).(allowed := true);
    hide Process, Target, Good, NewSession, SendSaved, Proper, Covers, Made, Pending, Get, Gone, Admit;
    ResendAccounts(s, Arrive(x), NewSession(Gone(s.remote.(allowed := true), i)));
  }

  lemma GoneCovers(r: Remote, i: Index)
    requires Good(r) && i.rf
    ensures Covers(Gone(r, i), r.transactions)
  {
    forall k: Index | !k.rf && k.si == r.sid && Get(r.transactions, k).Some?
      ensures Get(Gone(r, i).transactions, k).Some?
    {
      DeleteIs(r.transactions, i);
      GetIs(r.transactions, k);
      GetIs(Delete(r.transactions, i), k);
    }
    hide Get, Delete, Proper;
  }

  /** And at its correspondent. */
  lemma FinalAccounts(s: Stack, x: Rx)
    requires Good(s.remote) && IsId(x.si) && Target(s, x) == Some(Allowent) && x.tk.Allow? && x.pk.Ack?
    ensures Accounts(s, Arrive(x))
  {
    var i := Index(!x.cf, x.si, x.ti);
    RenewingAdmits(s, x, Allowent);
    OwnIndexes(s.remote);
    GetIs(s.remote.transactions, i);
    assert Placed((i, Allowent), s.remote.sid, s.remote.rsid);
    SamePending(s.remote, i, Allowent);
    GoneCovers(s.remote, i);
    NoneMade(Gone(s.remote, i).transactions, s.remote.transactions);
    NoneOnly(multiset(s.remote.messages));
    hide Process, Target, Good, SendSaved, Proper, Covers, Made, Pending, Get, Gone, Admit;
    ResendAccounts(s, Arrive(x), Gone(s.remote, i));
  }

  lemma ArriveAccounts(s: Stack, x: Rx)
    requires Good(s.remote) && IsId(x.si)
    ensures Accounts(s, Arrive(x))
  {
    if Target(s, x).Some? && Renews(Target(s, x).value, x) {
      var t := Target(s, x).value;
      hide Accounts, Target, Good;
      if t.Allower? {
        AckAccounts(s, x);
      } else if x.pk.Ack? {
        FinalAccounts(s, x);
      } else {
        InitiateAccounts(s, x);
      }
    } else {
      ArriveSteady(s, x);
      assert Dropped(s, Arrive(x)) == multiset{} by { hide Target, Unsent, Good; }
      hide Process, Steady, Dropped, Target;
      SteadyAccounts(s, Arrive(x));
    }
  }

  /** Any other packet. */
  lemma ArriveSteady(s: Stack, x: Rx)
    requires Good(s.remote) && IsId(x.si) && (Target(s, x).Some? ==> !Renews(Target(s, x).value, x))
    ensures Steady(s.remote, Process(s, x).0.remote)
  {
    var i := Index(!x.cf, x.si, x.ti);
    AdmitSteady(s.remote, x);
    assert Steady(s.remote, s.remote);
    var s1 := s.(remote := Admit(s.remote, x));
    hide Admit, Receive, Correspond, ValidSid, Steady, Good, Renews, Get;
    if !s.gone && x.si != 0 && (x.cf || ValidSid(x.si, s.remote.rsid)) {
      var t: Option<Transaction> := Get(s1.remote.transactions, i);
      match t
      case Some(u) =>
        ReceiveSteady(s1, i, u, x);
        SteadyTwice(s.remote, s1.remote, Receive(s1, i, u, x).0.remote);
      case None =>
        if !x.cf {
          CorrespondSteady(s1, i, x);
          SteadyTwice(s.remote, s1.remote, Correspond(s1, i, x).0.remote);
        }
    }
  }

  lemma SendIs(s: Stack, body: Bytes)
    requires !s.gone
    ensures var e := Send(body);
            && Happen(s, e).remote == SendOne(s.remote, body) && SendOne(s.remote, body).sid == s.remote.sid
            && Accepted(s, e) == (if Takes(s.remote) then multiset{body} else multiset{})
            && Dropped(s, e) == multiset{} == PutBack(s, e)
  {
    hide Pending, Get;
  }

  lemma SendAccounts(s: Stack, body: Bytes)
    requires Good(s.remote) && !s.gone
    ensures Accounts(s, Send(body))
  {
    OwnIndexes(s.remote);
    SendMakes(s.remote, body, s.remote.transactions);
    SendIs(s, body);
    hide SendOne, Good, Proper, Covers, Made, Takes, Happen, Accepted, Dropped, PutBack, New;
    assert Total([]) == multiset{};
    hide Total;
    NoneOnly(Accepted(s, Send(body)));
    NoneOnly(multiset(s.remote.messages));
    Swap(Total(MadeBy(s, Send(body))), multiset(s.remote.messages));
  }

  lemma Swap(a: multiset<Bytes>, b: multiset<Bytes>)
    ensures a + b + multiset{} == b + multiset{} + a
  {
  }

  lemma JoinAccounts(s: Stack, i: Index)
    requires Good(s.remote) && !s.gone
    ensures Accounts(s, Join(i))
  {
    var r := s.remote;
    OwnIndexes(r);
    if Get(r.transactions, i) == Some(Joining) {
      if r.sid == 0 {
        RenewMakes(r, r.transactions);
        OnlyJoinsStay(r);
        var r1 := NewSession(r);
        hide NewSession, Made, Covers, Pending, Get;
        GoneSteady(r1, i, true, r1.allowed);
        assert r1.(joined := true, allowed := r1.allowed) == r1.(joined := true);
        hide Gone, Good, Proper, Steady;
        NewSessionAccounts(s, Join(i), r1);
      } else {
        GoneSteady(r, i, true, r.allowed);
        assert r.(joined := true, allowed := r.allowed) == r.(joined := true);
        hide Gone, Good, Proper, Steady, Made;
        SteadyAccounts(s, Join(i));
      }
    } else {
      hide Good, Proper, Made;
      SteadyAccounts(s, Join(i));
    }
  }

  lemma RemovesAccounts(s: Stack, e: Event)
    requires Removes(s, e)
    ensures Accounts(s, e)
  {
    hide Rejectable, Marked;
    NoneOnly(multiset(s.remote.messages));
  }

  /** The other events of this stack's own. */
  lemma LocalSteady(s: Stack, e: Event)
    requires Good(s.remote) && !e.Arrive? && !e.Send? && !e.Join? && !Removes(s, e)
    ensures Steady(s.remote, Happen(s, e).remote)
  {
    var r := s.remote;
    assert Steady(r, r);
    hide Good, Steady, BeginJoin, BeginAllow, BeginAlive, Entered, Gone, Rejectable, Get, M.Nudge, Settle;
    match e {
      case Expire(i) =>
        var t: Option<Transaction> := Get(r.transactions, i);
        if t.Some? && t.value.Messengent? {
          ProperOf(r);
          SettleSteady(s, i, M.Nudge(Seen(s, i, Some(t.value.m))).0);
        }
      case End(i) =>
        ProperOf(r);
        GoneSteady(r, i, r.joined, r.allowed);
      case StartJoin => BeginJoinSteady(r);
      case StartAllow => BeginAllowSteady(r);
      case StartAlive => BeginAliveSteady(r);
      case AskJoin(ti) =>
        EnteredSteady(r.(joined := false), Index(true, 0, ti), Joining);
        UnjoinedSteady(r, Entered(r.(joined := false), Index(true, 0, ti), Joining));
      case _ =>
    }
  }

  lemma ProperOf(r: Remote)
    requires Good(r)
    ensures Proper(r.transactions)
  {
  }

  lemma UnjoinedSteady(r: Remote, r': Remote)
    requires Steady(r.(joined := false), r')
    ensures Steady(r, r')
  {
  }

  /** Every event keeps the account. */
  lemma EventAccounts(s: Stack, e: Event)
    requires Good(s.remote) && (e.Arrive? ==> IsId(e.x.si))
    ensures Accounts(s, e)
  {
    hide Accounts, Good, Removes;
    if e.Arrive? && !s.gone {
      ArriveAccounts(s, e.x);
    } else if e.Send? && !s.gone {
      SendAccounts(s, e.body);
    } else if e.Join? && !s.gone {
      JoinAccounts(s, e.index);
    } else if Removes(s, e) {
      RemovesAccounts(s, e);
    } else {
      ProperOf(s.remote);
      if s.gone {
        GoneAccounts(s, e);
      } else {
        LocalSteady(s, e);
        hide Happen, Steady;
        SteadyAccounts(s, e);
      }
    }
  }

  lemma GoneAccounts(s: Stack, e: Event)
    requires Good(s.remote) && s.gone
    ensures Accounts(s, e)
  {
    hide Get, Takes, Proper;
    SteadyAccounts(s, e);
  }
}
