/** Exactly which events end a transaction, and what begins one. */
module Endings {
  import opened Basics
  import opened Odicts
  import opened Lotting
  import opened Estating
  import opened Sessions
  import opened SessionRuns
  import opened Fates
  import opened Allowing
  import M = Messaging

  // ------------------------------------------------------------------ Places in a table

  lemma {:induction false} GetDelete(d: Table, i: Index, j: Index)
    requires Proper(d)
    ensures Get(Delete(d, i), j) == if i == j then None else Get(d, j)
  {
    DeleteIs(d, i);
    GetIs(d, j);
    GetIs(Delete(d, i), j);
    hide Get, Delete, Proper;
  }

  lemma {:induction false} GetPut(d: Table, i: Index, t: Transaction, j: Index)
    ensures Get(Put(d, i, t), j) == if i == j then Some(t) else Get(d, j)
  {
    if d != [] && d[0].0 != i {
      GetPut(d[1..], i, t, j);
    }
  }

  lemma {:induction false} GetStay(d: Table, rf: bool, now: nat, j: Index)
    ensures Get(Stay(d, rf, now), j) == if Stale(j, rf, now) then None else Get(d, j)
  {
    if d != [] {
      GetStay(d[1..], rf, now, j);
    }
  }

  lemma {:induction false} GetMore(d: Table, more: Table, j: Index)
    ensures Get(d + more, j) == if Get(d, j).Some? then Get(d, j) else Get(more, j)
  {
    if d == [] {
      assert d + more == more;
    } else {
      assert (d + more)[1..] == d[1..] + more;
      GetMore(d[1..], more, j);
    }
  }

  // ------------------------------------------------------------------ When one ends

  /** The packets that end a transaction they reach. */
  predicate Closing(t: Transaction, x: Rx, allowed: bool) {
    match t
    case Allower =>
      x.tk.Allow? && (x.pk.Ack? || (x.pk.Cookie? && !x.pk.good)
                      || x.pk.Nack? || x.pk.Refuse? || x.pk.Reject? || x.pk.Unjoined?)
    case Allowent =>
      x.tk.Allow? && (x.pk.Ack? || (x.pk.Initiate? && !x.pk.good) || x.pk.Nack? || x.pk.Refuse? || x.pk.Reject?)
    case Aliver =>
      x.tk.Alive? && (x.pk.Ack? || x.pk.Nack? || x.pk.Refuse? || x.pk.Reject? || x.pk.Unjoined? || x.pk.Unallowed?)
    case Messenger(_) =>
      x.tk.Message? && (x.pk.Done? || x.pk.Nack? || (x.pk.Ack? && x.pk.more && !allowed))
    case _ => false
  }

  /** A session of ours begins: what this stack initiated in an older one goes. */
  predicate Opens(s: Stack, e: Event) { Allows(s, e) || (Joins(s, e) && s.remote.sid == 0) }

  /** A session of the remote begins: what it initiated in an older one goes. */
  predicate Moves(s: Stack, e: Event) {
    && e.Arrive? && !s.gone && e.x.si != 0 && !e.x.cf && e.x.si != s.remote.rsid
    && ValidSid(e.x.si, s.remote.rsid)
  }

  /** The transaction t under index j ends: it is rejected or gives up, completes, is of an older
      session than one that begins, gets a packet that closes it, gives way to the remote's hello, or is
      an Allowent that gets its hello again during a join and may not begin again. */
  ghost predicate Ends(s: Stack, e: Event, j: Index, t: Transaction) {
    || Removes(s, e)
    || (e == End(j) && !t.Messenger?)
    || (e == Join(j) && t.Joining?)
    || (Opens(s, e) && !j.rf && j.si != 0)
    || (Moves(s, e) && j.rf && j.si != 0)
    || (e.Arrive? && j == Index(!e.x.cf, e.x.si, e.x.ti) && Target(s, e.x) == Some(t)
        && Closing(t, e.x, s.remote.allowed))
    || (Hails(s, e) && t.Allower? && Prevails(Met(Admit(s.remote, e.x), Index(!e.x.cf, e.x.si, e.x.ti)), s.lesser))
    || (Hails(s, e) && t.Allowent? && j == Index(!e.x.cf, e.x.si, e.x.ti) && !(s.remote.joined && e.x.pk.good)
        && JoinInProcess(Admit(s.remote, e.x).transactions))
  }

  // --------------------------------------------------------------- What each step leaves

  lemma EnteredHas(r: Remote, i: Index, u: Transaction, j: Index)
    ensures var d := Entered(r, i, u).transactions;
            Get(d, j) == Get(r.transactions, j) || (i == j && Get(r.transactions, j).None? && Get(d, j) == Some(u))
  {
    GetMore(r.transactions, [(i, u)], j);
    assert Get([(i, u)], j) == if i == j then Some(u) else None by { assert [(i, u)][1..] == []; }
    hide Get;
  }

  lemma BeginJoinHas(r: Remote, j: Index)
    ensures var d := BeginJoin(r).transactions;
            Get(d, j) == Get(r.transactions, j) || (Get(r.transactions, j).None? && Get(d, j) == Some(Joining))
  {
    var r1 := r.(tid := Next(r.tid), joined := false);
    EnteredHas(r1, Index(false, 0, r1.tid), Joining, j);
    hide Get, Entered, JoinInProcess;
  }

  lemma BeginAllowHas(r: Remote, j: Index)
    ensures var d := BeginAllow(r).transactions;
            || Get(d, j) == Get(r.transactions, j)
            || (Get(r.transactions, j).None? && (Get(d, j) == Some(Joining) || Get(d, j) == Some(Allower)))
  {
    var r1 := r.(tid := Next(r.tid), allowed := false);
    BeginJoinHas(r1, j);
    EnteredHas(r1, Index(false, r1.sid, r1.tid), Allower, j);
    hide Get, Entered, BeginJoin, JoinInProcess, AllowInProcess;
  }

  lemma BeginAliveHas(r: Remote, j: Index)
    ensures Get(r.transactions, j).Some? ==> Get(BeginAlive(r).transactions, j) == Get(r.transactions, j)
  {
    var r1 := r.(tid := Next(r.tid));
    BeginJoinHas(r1, j);
    BeginAllowHas(r1, j);
    EnteredHas(r1, Index(false, r1.sid, r1.tid), Aliver, j);
    hide Get, Entered, BeginJoin, BeginAllow;
  }

  lemma SendHas(r: Remote, body: Bytes, j: Index)
    ensures var d := SendOne(r, body).transactions;
            || Get(d, j) == Get(r.transactions, j)
            || (Get(r.transactions, j).None? && !j.rf && j.si == r.sid && Get(d, j) == Some(Messenger(body)))
  {
    var i := Index(false, r.sid, Next(r.tid));
    GetMore(r.transactions, [(i, Messenger(body))], j);
    assert Get([(i, Messenger(body))], j) == if i == j then Some(Messenger(body)) else None by {
      assert [(i, Messenger(body))][1..] == [];
    }
    hide Get;
  }

  lemma {:induction false} SavedHas(r: Remote, j: Index)
    ensures var d := SendSaved(r).transactions;
            || Get(d, j) == Get(r.transactions, j)
            || (Get(r.transactions, j).None? && !j.rf && j.si == r.sid && Get(d, j).Some? && Get(d, j).value.Messenger?)
    decreases |r.messages|
  {
    if r.messages != [] {
      var r1 := SendOne(r.(messages := r.messages[1..]), r.messages[0]);
      SendHas(r.(messages := r.messages[1..]), r.messages[0], j);
      assert r1.sid == r.sid && |r1.messages| < |r.messages|;
      hide SendOne, Get;
      SavedHas(r1, j);
    }
  }

  /** Where transactions may be, and that older sessions are stale. */
  lemma PlaceOf(r: Remote, j: Index, t: Transaction)
    requires Good(r) && Get(r.transactions, j) == Some(t)
    ensures Proper(r.transactions) && Placed((j, t), r.sid, r.rsid)
    ensures !j.rf ==> j.si == 0 || j.si == r.sid
  {
    GetIs(r.transactions, j);
    hide Get, Proper;
  }

  lemma RenewHas(r: Remote, j: Index)
    requires IsId(r.sid) && (!j.rf ==> j.si == 0 || j.si == r.sid)
    ensures Get(NewSession(r).transactions, j) == if !j.rf && j.si != 0 then None else Get(r.transactions, j)
    ensures !j.rf && j.si != 0 ==> Next(r.sid) != j.si
  {
    if r.sid >= 1 {
      LaterSidWins(r.sid, 1);
      assert After(r.sid, 1) == After(Next(r.sid), 0);
    }
    GetStay(r.transactions, false, Next(r.sid), j);
    hide Get, Stay, Leave, Bodies;
  }

  lemma AdmitHas(s: Stack, x: Rx, j: Index, t: Transaction)
    requires Good(s.remote) && Get(s.remote.transactions, j) == Some(t) && !Dropped(s, x) && IsId(x.si)
    ensures Get(Admit(s.remote, x).transactions, j)
            == if Moves(s, Arrive(x)) && j.rf && j.si != 0 then None else Some(t)
  {
    PlaceOf(s.remote, j, t);
    if Moves(s, Arrive(x)) {
      OldIsStale(x.si, s.remote.rsid);
      GetStay(s.remote.transactions, true, x.si, j);
    }
    hide Get, Stay, Good;
  }

  // ------------------------------------------------------------------ Packets that end one

  /** What a packet at the transaction t under i ends: u under j. */
  ghost predicate Over(r: Remote, i: Index, t: Transaction, x: Rx, lesser: bool, j: Index, u: Transaction) {
    || (j == i && Closing(t, x, r.allowed))
    || (x.tk.Allow? && ((t.Allower? && x.pk.Ack?) || (t.Allowent? && x.pk.Initiate? && x.pk.good))
        && !j.rf && j.si != 0)
    || (t.Allowent? && x.tk.Allow? && x.pk.Hello?
        && ((u.Allower? && Prevails(Met(r, i), lesser))
            || (j == i && !(r.joined && x.pk.good) && JoinInProcess(r.transactions))))
  }

  /** After the ack at an Allower. */
  lemma AckHas(r: Remote, i: Index, j: Index, u: Transaction)
    requires Good(r) && Get(r.transactions, i) == Some(Allower) && Get(r.transactions, j) == Some(u)
    ensures Get(SendSaved(NewSession(Gone(r.(allowed := true), i))).transactions, j) == Some(u)
            <==> !(j == i || (!j.rf && j.si != 0))
  {
    PlaceOf(r, j, u);
    PlaceOf(r, i, Allower);
    GetDelete(r.transactions, i, j);
    var r1 := Gone(r.(allowed := true), i);
    RenewHas(r1, j);
    NewSessionFewer(r1);
    hide Get, Delete, NewSession, SendSaved, Good, Proper;
    SavedHas(NewSession(r1), j);
  }

  lemma BackHas(r: Remote, i: Index, t: Transaction, j: Index, u: Transaction)
    requires Proper(r.transactions) && Get(r.transactions, i) == Some(t) && Get(r.transactions, j) == Some(u)
    ensures t.Allower? || t.Aliver? ==>
              (Get(BeginJoin(Gone(r.(joined := false), i)).transactions, j) == Some(u) <==> j != i)
    ensures t.Aliver? ==> (Get(BeginAllow(Gone(r.(allowed := false), i)).transactions, j) == Some(u) <==> j != i)
    ensures Get(Gone(r, i).transactions, j) == Some(u) <==> j != i
  {
    GetDelete(r.transactions, i, j);
    hide Get, Delete, BeginJoin, BeginAllow, Proper;
    BeginJoinHas(Gone(r.(joined := false), i), j);
    BeginAllowHas(Gone(r.(allowed := false), i), j);
  }

  /** What is left of the table, by the kind of packet. */
  lemma AllowerTable(r: Remote, i: Index, x: Rx, lesser: bool)
    ensures React(r, i, Allower, x, lesser).transactions
            == if x.tk.Allow? && x.pk.Ack? then SendSaved(NewSession(Gone(r.(allowed := true), i))).transactions
               else if x.tk.Allow? && x.pk.Unjoined? then BeginJoin(Gone(r.(joined := false), i)).transactions
               else if Closing(Allower, x, r.allowed) then Gone(r, i).transactions
               else r.transactions
  {
    hide NewSession, SendSaved, BeginJoin, Delete;
  }

  lemma AllowerOver(r: Remote, i: Index, x: Rx, lesser: bool, j: Index, u: Transaction)
    requires Good(r) && Get(r.transactions, i) == Some(Allower) && Get(r.transactions, j) == Some(u) && !u.Messengent?
    ensures Get(React(r, i, Allower, x, lesser).transactions, j) == Some(u) <==> !Over(r, i, Allower, x, lesser, j, u)
  {
    AllowerTable(r, i, x, lesser);
    PlaceOf(r, j, u);
    hide Get, Gone, NewSession, SendSaved, BeginJoin, Good, Proper, JoinInProcess, Prevails, Met, React;
    AckHas(r, i, j, u);
    BackHas(r, i, Allower, j, u);
  }

  /** After the ack at an Allowent, and after its initiate. */
  lemma FinalHas(r: Remote, i: Index, j: Index, u: Transaction)
    requires Good(r) && Get(r.transactions, i) == Some(Allowent) && Get(r.transactions, j) == Some(u)
    ensures Get(SendSaved(Gone(r, i)).transactions, j) == Some(u) <==> j != i
    ensures Get(NewSession(r.(allowed := true)).transactions, j) == Some(u) <==> !(!j.rf && j.si != 0)
  {
    PlaceOf(r, i, Allowent);
    PlaceOf(r, j, u);
    GetDelete(r.transactions, i, j);
    RenewHas(r.(allowed := true), j);
    hide Get, Delete, NewSession, SendSaved, Good, Proper;
    SavedHas(Gone(r, i), j);
  }

  lemma AllowentTable(r: Remote, i: Index, x: Rx, lesser: bool)
    requires !(x.tk.Allow? && x.pk.Hello?)
    ensures React(r, i, Allowent, x, lesser).transactions
            == if x.tk.Allow? && x.pk.Ack? then SendSaved(Gone(r, i)).transactions
               else if x.tk.Allow? && x.pk.Initiate? && x.pk.good then NewSession(r.(allowed := true)).transactions
               else if Closing(Allowent, x, r.allowed) then Gone(r, i).transactions
               else r.transactions
  {
    hide NewSession, SendSaved, HelloAt, Delete;
  }

  lemma AllowentPlain(r: Remote, i: Index, x: Rx, lesser: bool, j: Index, u: Transaction)
    requires Good(r) && !(x.tk.Allow? && x.pk.Hello?)
    requires Get(r.transactions, i) == Some(Allowent) && Get(r.transactions, j) == Some(u) && !u.Messengent?
    ensures Get(React(r, i, Allowent, x, lesser).transactions, j) == Some(u) <==> !Over(r, i, Allowent, x, lesser, j, u)
  {
    AllowentTable(r, i, x, lesser);
    PlaceOf(r, j, u);
    hide Get, Gone, NewSession, SendSaved, React, Good, Proper, JoinInProcess, Prevails, Met;
    FinalHas(r, i, j, u);
    BackHas(r, i, Allowent, j, u);
  }

  lemma AllowentOver(r: Remote, i: Index, x: Rx, lesser: bool, j: Index, u: Transaction)
    requires Good(r) && One(r.transactions)
    requires Get(r.transactions, i) == Some(Allowent) && Get(r.transactions, j) == Some(u) && !u.Messengent?
    ensures Get(React(r, i, Allowent, x, lesser).transactions, j) == Some(u) <==> !Over(r, i, Allowent, x, lesser, j, u)
  {
    if x.tk.Allow? && x.pk.Hello? {
      hide Get, HelloAt, Good, Proper, One, JoinInProcess, Prevails, Met;
      SecondHello(r, i, x.pk.good, lesser, j, u);
    } else {
      hide *;
      AllowentPlain(r, i, x, lesser, j, u);
    }
  }

  lemma AliverOver(r: Remote, i: Index, x: Rx, lesser: bool, j: Index, u: Transaction)
    requires Good(r) && Get(r.transactions, i) == Some(Aliver) && Get(r.transactions, j) == Some(u) && !u.Messengent?
    ensures Get(React(r, i, Aliver, x, lesser).transactions, j) == Some(u) <==> !Over(r, i, Aliver, x, lesser, j, u)
  {
    PlaceOf(r, j, u);
    BackHas(r, i, Aliver, j, u);
    hide Get, Gone, BeginJoin, BeginAllow, Good, Proper;
  }

  lemma MessengerOver(r: Remote, i: Index, t: Transaction, x: Rx, lesser: bool, j: Index, u: Transaction)
    requires Good(r) && (t.Messenger? || t.Joining?)
    requires Get(r.transactions, i) == Some(t) && Get(r.transactions, j) == Some(u) && !u.Messengent?
    ensures Get(React(r, i, t, x, lesser).transactions, j) == Some(u) <==> !Over(r, i, t, x, lesser, j, u)
  {
    PlaceOf(r, j, u);
    GetDelete(r.transactions, i, j);
    hide Get, Delete, Good, Proper;
  }

  // ------------------------------------------------------------------ Hellos

  /** The two allows of a remote at most are one. */
  lemma SameAllow(d: Table, i: Index, t: Transaction, j: Index, u: Transaction)
    requires One(d) && Get(d, i) == Some(t) && Get(d, j) == Some(u) && IsAllow(t) && IsAllow(u)
    ensures i == j && t == u
  {
    GetIs(d, i);
    GetIs(d, j);
    assert (i, t) in d && (j, u) in d;
    hide Get;
  }

  /** A hello for a new Allowent. */
  lemma NewHello(r: Remote, i: Index, good: bool, lesser: bool, j: Index, u: Transaction)
    requires Good(r) && One(r.transactions) && i.rf && Get(r.transactions, i).None?
    requires Get(r.transactions, j) == Some(u) && !u.Messengent?
    ensures Get(HelloAt(r, i, good, lesser).transactions, j) == Some(u)
            <==> !(u.Allower? && Prevails(Met(r, i), lesser))
  {
    PlaceOf(r, j, u);
    DeletesNothing(r.transactions, i);
    HelloExactly(r, i, good, lesser);
    GetIs(r.transactions, j);
    hide Get, Delete, HelloAt, Good, Proper, One, JoinInProcess;
    if forall e :: e in r.transactions ==> !IsAllow(e.1) {
      assert (j, u) in r.transactions;
      HailedHas(r, i, good, j);
    } else {
      var e :| e in r.transactions && IsAllow(e.1);
      NewHelloOne(r, i, good, lesser, j, u, e);
    }
  }

  lemma HailedHas(r: Remote, i: Index, good: bool, j: Index)
    ensures Get(r.transactions, j).Some? ==> Get(Hailed(r, i, good).transactions, j) == Get(r.transactions, j)
    ensures Get(r.transactions, j).None? && i != j ==> Get(Hailed(r, i, good).transactions, j).None?
  {
    var more: Table := if r.joined && good then [(i, Allowent)] else [];
    GetMore(r.transactions, more, j);
    assert i != j ==> Get(more, j).None? by { if more != [] { assert more[1..] == []; } }
    hide Get;
  }

  lemma NewHelloOne(r: Remote, i: Index, good: bool, lesser: bool, j: Index, u: Transaction, e: (Index, Transaction))
    requires Proper(r.transactions) && One(r.transactions) && i.rf && Get(r.transactions, i).None?
    requires Get(r.transactions, j) == Some(u) && (u.Allower? ==> !j.rf) && (u.Allowent? ==> j.rf)
    requires e in r.transactions && IsAllow(e.1) && Met(r, i) == r.transactions
    requires HelloAt(r, i, good, lesser) == if e.0.rf || lesser then r else Hailed(Gone(r, e.0), i, good)
    ensures Get(HelloAt(r, i, good, lesser).transactions, j) == Some(u)
            <==> !(u.Allower? && Prevails(Met(r, i), lesser))
  {
    GetIs(r.transactions, e.0);
    GetIs(r.transactions, j);
    assert (j, u) in r.transactions;
    if IsAllow(u) { SameAllow(r.transactions, e.0, e.1, j, u); }
    GetDelete(r.transactions, e.0, j);
    HailedHas(Gone(r, e.0), i, good, j);
    assert Prevails(r.transactions, lesser) ==> !e.0.rf && !lesser;
    assert Prevails(r.transactions, lesser) || e.0.rf || lesser;
    hide Get, Delete, HelloAt, Met, Hailed, Proper, One;
  }

  /** A hello that reaches its Allowent again: dropped, or refused during a join, after which the
      Allowent may begin again. */
  lemma SecondHello(r: Remote, i: Index, good: bool, lesser: bool, j: Index, u: Transaction)
    requires Good(r) && One(r.transactions) && Get(r.transactions, i) == Some(Allowent)
    requires Get(r.transactions, j) == Some(u) && !u.Messengent?
    ensures Get(HelloAt(r, i, good, lesser).transactions, j) == Some(u)
            <==> !(j == i && !(r.joined && good) && JoinInProcess(r.transactions))
    ensures !(u.Allower? && Prevails(Met(r, i), lesser))
  {
    PlaceOf(r, i, Allowent);
    PlaceOf(r, j, u);
    if IsAllow(u) { SameAllow(r.transactions, i, Allowent, j, u); }
    if JoinInProcess(r.transactions) {
      var r1 := Gone(r, i);
      GoneOne(r, i);
      GoneFewer(r, i);
      GetDelete(r.transactions, i, i);
      GetDelete(r.transactions, i, j);
      NoneElse(r.transactions, i, Allowent);
      assert HelloAt(r, i, good, lesser) == Contest(r1, i, good, lesser);
      HelloContests(r1, i, good, lesser);
      hide Get, Delete, HelloAt, Contest, Good, Proper, One, JoinInProcess;
      HelloExactly(r1, i, good, lesser);
      GetMore(r1.transactions, if r1.joined && good then [(i, Allowent)] else [], j);
      OneMore(i, j);
    } else {
      GetIs(r.transactions, i);
      ContendOne(r.transactions, r.transactions, i, lesser);
      assert (i, Allowent) in r.transactions;
      hide Get, Delete, Contend, Good, Proper, One, JoinInProcess;
    }
  }

  lemma OneMore(i: Index, j: Index)
    ensures Get([(i, Allowent)], j) == if i == j then Some(Allowent) else None
    ensures Get<Index, Transaction>([], j) == None
  {
    assert [(i, Allowent)][1..] == [];
  }

  /** Where the one allow is removed there is none. */
  lemma NoneElse(d: Table, i: Index, t: Transaction)
    requires Proper(d) && One(d) && Get(d, i) == Some(t) && IsAllow(t)
    ensures forall e :: e in Delete(d, i) ==> !IsAllow(e.1)
  {
    GetIs(d, i);
    DeleteIs(d, i);
    assert (i, t) in d;
    hide Get, Delete, Proper;
  }

  // ------------------------------------------------------------------ Every event

  lemma HandleHas(s: Stack, i: Index, live: Option<M.Messengent>, u: M.Request, j: Index, t: Transaction)
    requires Proper(s.remote.transactions) && Get(s.remote.transactions, j) == Some(t) && i != j
    ensures Get(Handle(s, i, live, u).0.remote.transactions, j) == Some(t)
  {
    var r := Respond(s.remote.allowed, Seen(s, i, live), u).0;
    if r.live.Some? { GetPut(s.remote.transactions, i, Messengent(r.live.value), j); }
    GetDelete(s.remote.transactions, i, j);
    hide Get, Delete, Put, Respond, Proper;
  }

  lemma ReceiveOver(s: Stack, i: Index, t: Transaction, x: Rx, j: Index, u: Transaction)
    requires Good(s.remote) && One(s.remote.transactions)
    requires Get(s.remote.transactions, i) == Some(t) && Get(s.remote.transactions, j) == Some(u) && !u.Messengent?
    ensures Get(Receive(s, i, t, x).0.remote.transactions, j) == Some(u) <==> !Over(s.remote, i, t, x, s.lesser, j, u)
  {
    var r := s.remote;
    PlaceOf(r, i, t);
    hide Good, One, Proper, Get, React, Handle, Over;
    match t {
      case Messengent(m) =>
        HandleHas(s, i, Some(m), if x.pk.Segment? then M.Seg(x.pk.packet) else M.StaleNack, j, u);
        NeverOver(r, i, t, x, s.lesser, j, u);
      case Allower => AllowerOver(r, i, x, s.lesser, j, u);
      case Allowent => AllowentOver(r, i, x, s.lesser, j, u);
      case Aliver => AliverOver(r, i, x, s.lesser, j, u);
      case _ => MessengerOver(r, i, t, x, s.lesser, j, u);
    }
  }

  lemma NeverOver(r: Remote, i: Index, t: Transaction, x: Rx, lesser: bool, j: Index, u: Transaction)
    requires t.Messengent?
    ensures !Over(r, i, t, x, lesser, j, u)
  {
  }

  lemma CorrespondOver(s: Stack, i: Index, x: Rx, j: Index, u: Transaction)
    requires Good(s.remote) && One(s.remote.transactions) && i.rf && Get(s.remote.transactions, i).None?
    requires Get(s.remote.transactions, j) == Some(u) && !u.Messengent?
    ensures Get(Correspond(s, i, x).0.remote.transactions, j) == Some(u)
            <==> !(x.tk.Allow? && x.pk.Hello? && u.Allower? && Prevails(Met(s.remote, i), s.lesser))
  {
    PlaceOf(s.remote, j, u);
    hide Good, One, Proper, Get, HelloAt, Handle, Prevails, Met;
    if x.tk.Allow? && x.pk.Hello? {
      NewHello(s.remote, i, x.pk.good, s.lesser, j, u);
    } else if x.tk.Message? && x.pk.Segment? {
      HandleHas(s, i, None, M.Seg(x.pk.packet), j, u);
    }
  }

  /** What is dropped at a new session of the remote does not come back at once. */
  lemma NotBack(s: Stack, i: Index, x: Rx, j: Index)
    requires Good(s.remote) && One(s.remote.transactions) && i.rf && Get(s.remote.transactions, i).None?
    requires Get(s.remote.transactions, j).None? && i != j
    ensures Get(Correspond(s, i, x).0.remote.transactions, j).None?
  {
    var r := s.remote;
    if x.tk.Allow? && x.pk.Hello? {
      Whole(r);
      HelloExactly(r, i, x.pk.good, s.lesser);
      HailedHas(r, i, x.pk.good, j);
      forall e | e in r.transactions && IsAllow(e.1)
        ensures Get(Hailed(Gone(r, e.0), i, x.pk.good).transactions, j).None?
      {
        GetDelete(r.transactions, e.0, j);
        HailedHas(Gone(r, e.0), i, x.pk.good, j);
      }
      hide Get, Delete, HelloAt, Good, Proper, One, Hailed;
    } else if x.tk.Message? && x.pk.Segment? {
      Whole(r);
      var m := Respond(r.allowed, Seen(s, i, None), M.Seg(x.pk.packet)).0;
      if m.live.Some? { GetPut(r.transactions, i, Messengent(m.live.value), j); }
      GetDelete(r.transactions, i, j);
      hide Get, Delete, Put, Respond, Good, Proper, One;
    }
  }

  /** A new session of the remote leaves nothing of its present one. */
  lemma NothingThere(s: Stack, x: Rx)
    requires Good(s.remote) && IsId(x.si) && Moves(s, Arrive(x))
    ensures Target(s, x).None?
  {
    var i := Index(true, x.si, x.ti);
    AdmitGood(s.remote, x);
    GetIs(Admit(s.remote, x).transactions, i);
    GetStay(s.remote.transactions, true, x.si, i);
    GetIs(s.remote.transactions, i);
    hide Get, Stay, Proper;
  }

  /** How Ends reads for a packet to no transaction, and to one. */
  lemma EndsNone(s: Stack, x: Rx, j: Index, u: Transaction)
    requires !Dropped(s, x) && Target(s, x).None? && Get(s.remote.transactions, j) == Some(u) && !u.Messengent?
    requires !(Moves(s, Arrive(x)) && j.rf && j.si != 0) && j != Index(!x.cf, x.si, x.ti)
    ensures Ends(s, Arrive(x), j, u)
            <==> !x.cf && x.tk.Allow? && x.pk.Hello? && u.Allower?
                 && Prevails(Met(Admit(s.remote, x), Index(true, x.si, x.ti)), s.lesser)
  {
    hide Target, Admit, Get, Met, Prevails, ValidSid, JoinInProcess;
  }

  lemma EndsSome(s: Stack, x: Rx, t: Transaction, j: Index, u: Transaction)
    requires !Dropped(s, x) && Target(s, x) == Some(t) && !u.Messengent? && !Moves(s, Arrive(x))
    requires Get(s.remote.transactions, j) == Some(u) && Admit(s.remote, x) == s.remote
    requires Get(s.remote.transactions, Index(!x.cf, x.si, x.ti)) == Some(t)
    ensures Ends(s, Arrive(x), j, u) <==> Over(s.remote, Index(!x.cf, x.si, x.ti), t, x, s.lesser, j, u)
  {
    hide Target, Admit, Get, Met, Prevails, ValidSid, JoinInProcess;
  }

  lemma PacketEnds(s: Stack, x: Rx, j: Index, u: Transaction)
    requires Good(s.remote) && One(s.remote.transactions) && IsId(x.si) && !Dropped(s, x)
    requires Get(s.remote.transactions, j) == Some(u) && !u.Messengent?
    ensures Get(Process(s, x).0.remote.transactions, j) == Some(u) <==> !Ends(s, Arrive(x), j, u)
  {
    var i, s1 := Index(!x.cf, x.si, x.ti), s.(remote := Admit(s.remote, x));
    Goes(s, x);
    AdmitRules(s, x);
    AdmitHas(s, x, j, u);
    if Target(s, x).Some? {
      if Moves(s, Arrive(x)) { NothingThere(s, x); }
      assert s1 == s by { hide Good, One, Process, Ends, Target; }
      hide *;
      ReceiveOver(s, i, Target(s, x).value, x, j, u);
      EndsSome(s, x, Target(s, x).value, j, u);
    } else if Moves(s, Arrive(x)) && j.rf && j.si != 0 {
      assert i != j by { PlaceOf(s.remote, j, u); }
      assert Ends(s, Arrive(x), j, u);
      hide *;
      NotBack(s1, i, x, j);
    } else {
      assert i != j by { hide Process, Receive, Correspond, Good, One; }
      EndsNone(s, x, j, u);
      hide Good, One, Process, Ends, Target, Admit, Correspond, Receive, Get, Prevails, Met;
      if !x.cf {
        CorrespondOver(s1, i, x, j, u);
      }
    }
  }

  // ------------------------------------------------------------------ Local events

  lemma RedoHas(s: Stack, i: Index, j: Index, u: Transaction)
    requires Proper(s.remote.transactions) && Get(s.remote.transactions, j) == Some(u) && !u.Messengent?
    ensures Get(Redo(s, i).0.remote.transactions, j) == Some(u)
  {
    var t: Option<Transaction> := Get(s.remote.transactions, i);
    if t.Some? && t.value.Messengent? {
      var r := M.Nudge(Seen(s, i, Some(t.value.m))).0;
      if r.live.Some? { GetPut(s.remote.transactions, i, Messengent(r.live.value), j); }
      GetDelete(s.remote.transactions, i, j);
    }
    hide Get, Put, Delete, Proper, M.Nudge;
  }

  lemma JoinHas(r: Remote, i: Index, j: Index, u: Transaction)
    requires Good(r) && Get(r.transactions, j) == Some(u)
    ensures Get(JoinDone(r, i).transactions, j) == Some(u)
            <==> !(Get(r.transactions, i) == Some(Joining) && (i == j || (r.sid == 0 && !j.rf && j.si != 0)))
  {
    PlaceOf(r, j, u);
    RenewHas(r, j);
    OnlyJoinsStay(r);
    GetDelete(NewSession(r).transactions, i, j);
    GetDelete(r.transactions, i, j);
    hide Get, Delete, NewSession, Proper;
  }

  /** Whether an event that is no packet ends it. */
  ghost predicate LocalEnds(s: Stack, e: Event, j: Index, u: Transaction) {
    || Removes(s, e)
    || (e == End(j) && !u.Messenger?)
    || (e.Join? && Get(s.remote.transactions, e.index) == Some(Joining)
        && (e.index == j || (s.remote.sid == 0 && !j.rf && j.si != 0)))
  }

  lemma LocalEnding(s: Stack, e: Event, j: Index, u: Transaction)
    requires Good(s.remote) && !s.gone && !e.Arrive?
    requires Get(s.remote.transactions, j) == Some(u) && !u.Messengent?
    ensures Get(Happen(s, e).remote.transactions, j) == Some(u) <==> !LocalEnds(s, e, j, u)
  {
    var r := s.remote;
    Whole(r);
    match e {
      case Expire(i) => RedoHas(s, i, j, u);
      case End(i) => GetDelete(r.transactions, i, j);
      case Send(body) => SendHas(r, body, j);
      case StartJoin => BeginJoinHas(r, j);
      case StartAllow => BeginAllowHas(r, j);
      case StartAlive => BeginAliveHas(r, j);
      case AskJoin(ti) => EnteredHas(r.(joined := false), Index(true, 0, ti), Joining, j);
      case Join(i) => JoinHas(r, i, j, u);
      case Rejected(i) => assert Get<Index, Transaction>([], j) == None;
    }
    hide Good, Proper, Get, Redo, SendOne, BeginJoin, BeginAllow, BeginAlive;
    hide JoinDone, Entered, Delete, Rejectable, Marked;
  }

  lemma LocalReads(s: Stack, e: Event, j: Index, u: Transaction)
    requires !s.gone && !e.Arrive? && Get(s.remote.transactions, j) == Some(u)
    ensures Ends(s, e, j, u) <==> LocalEnds(s, e, j, u)
  {
    hide Get, Rejectable, JoinInProcess, Prevails, Met;
  }

  /** Exactly when a transaction that is no Messengent ends: over every event it is still there, the
      same under the same index, if and only if the event does not end it as Ends says. */
  lemma EndsExactly(s: Stack, e: Event, j: Index, u: Transaction)
    requires Good(s.remote) && One(s.remote.transactions) && !s.gone && (e.Arrive? ==> IsId(e.x.si))
    requires Get(s.remote.transactions, j) == Some(u) && !u.Messengent?
    ensures Get(Happen(s, e).remote.transactions, j) == Some(u) <==> !Ends(s, e, j, u)
  {
    if !e.Arrive? {
      hide *;
      LocalEnding(s, e, j, u);
      LocalReads(s, e, j, u);
    } else if Dropped(s, e.x) {
      hide Get, Good, One, ValidSid, Prevails, JoinInProcess, Closing;
    } else {
      hide Ends, Good, One, Get;
      PacketEnds(s, e.x, j, u);
    }
  }

  // ------------------------------------------------------------------ What begins

  /** The next n transaction ids of a session are free. */
  ghost predicate Spare(r: Remote, si: nat, n: nat) {
    forall k :: 1 <= k <= n ==> Get(r.transactions, Index(false, si, After(r.tid, k))).None?
  }

  lemma SpareNext(r: Remote, si: nat, n: nat)
    requires Spare(r, si, n + 1)
    ensures Get(r.transactions, Index(false, si, Next(r.tid))).None? && Spare(r.(tid := Next(r.tid)), si, n)
  {
    assert After(r.tid, 1) == After(Next(r.tid), 0) == Next(r.tid);
    forall k | 1 <= k <= n ensures Get(r.transactions, Index(false, si, After(Next(r.tid), k))).None? {
      assert After(r.tid, k + 1) == After(Next(r.tid), k);
    }
    hide Get;
  }

  lemma EnteredIn(r: Remote, i: Index, t: Transaction)
    requires Get(r.transactions, i).None?
    ensures var d := Entered(r, i, t).transactions; d != [] && d[|d| - 1] == (i, t) && Get(d, i) == Some(t)
  {
    GetAppend(r.transactions, (i, t), i);
    hide Get;
  }

  lemma JoinBegins(r: Remote)
    requires Spare(r, 0, 1)
    ensures JoinInProcess(BeginJoin(r).transactions)
  {
    SpareNext(r, 0, 0);
    var r1 := r.(tid := Next(r.tid), joined := false);
    EnteredIn(r1, Index(false, 0, r1.tid), Joining);
    hide Get, Entered;
  }

  lemma AllowBegins(r: Remote)
    requires Spare(r, 0, 2) && Spare(r, r.sid, 1)
    ensures var d := BeginAllow(r).transactions; JoinInProcess(d) || AllowInProcess(d)
  {
    SpareNext(r, 0, 1);
    SpareNext(r, r.sid, 0);
    var r1 := r.(tid := Next(r.tid), allowed := false);
    assert Spare(r1, 0, 1);
    JoinBegins(r1);
    EnteredIn(r1, Index(false, r.sid, r1.tid), Allower);
    hide Get, Entered, BeginJoin, Spare;
  }

  /** Whatever is begun is in process, or something is that it has to wait for. A join begun here
      leaves a join in process, an allow a join or an allow, and an alive one of these or itself; the
      remote's join is under its own index. */
  lemma Begins(r: Remote, ti: nat)
    requires Spare(r, 0, 3) && Spare(r, r.sid, 2)
    ensures JoinInProcess(BeginJoin(r).transactions)
    ensures var d := BeginAllow(r).transactions; JoinInProcess(d) || AllowInProcess(d)
    ensures var d := BeginAlive(r).transactions;
            JoinInProcess(d) || AllowInProcess(d) || Get(d, Index(false, r.sid, Next(r.tid))) == Some(Aliver)
    ensures Get(JoinAsked(r, ti).transactions, Index(true, 0, ti)).Some?
  {
    JoinBegins(r);
    AllowBegins(r);
    SpareNext(r, 0, 2);
    SpareNext(r, r.sid, 1);
    var r1 := r.(tid := Next(r.tid));
    assert Spare(r1, 0, 2) && Spare(r1, r1.sid, 1);
    JoinBegins(r1);
    AllowBegins(r1);
    EnteredIn(r1, Index(false, r.sid, r1.tid), Aliver);
    if Get(r.transactions, Index(true, 0, ti)).None? {
      EnteredIn(r.(joined := false), Index(true, 0, ti), Joining);
    }
    hide Get, Entered, BeginJoin, BeginAllow, Spare, JoinInProcess, AllowInProcess;
  }

  /** What comes back unjoined begins a join, and unallowed an allow, or finds one to wait for. */
  lemma BackBegins(s: Stack, x: Rx, t: Transaction)
    requires Good(s.remote) && !Dropped(s, x) && x.cf && Target(s, x) == Some(t)
    requires Spare(s.remote, 0, 2) && Spare(s.remote, s.remote.sid, 1)
    ensures (t.Allower? && x.tk.Allow? && x.pk.Unjoined?) || (t.Aliver? && x.tk.Alive? && x.pk.Unjoined?) ==>
              JoinInProcess(Process(s, x).0.remote.transactions)
    ensures t.Aliver? && x.tk.Alive? && x.pk.Unallowed? ==>
              var d := Process(s, x).0.remote.transactions; JoinInProcess(d) || AllowInProcess(d)
  {
    var i := Index(false, x.si, x.ti);
    Goes(s, x);
    Whole(s.remote);
    SpareGone(s.remote, i, 0, 2);
    SpareGone(s.remote, i, s.remote.sid, 1);
    var (r1, r2) := (Gone(s.remote.(joined := false), i), Gone(s.remote.(allowed := false), i));
    assert Spare(r1, 0, 1) && Spare(r2, 0, 2) && Spare(r2, r2.sid, 1);
    JoinBegins(r1);
    AllowBegins(r2);
    hide Good, Process, Target, Get, Gone, BeginJoin, BeginAllow, Spare, JoinInProcess, AllowInProcess;
  }

  lemma SpareGone(r: Remote, i: Index, si: nat, n: nat)
    requires Proper(r.transactions) && Spare(r, si, n)
    ensures Spare(Gone(r, i), si, n)
  {
    forall k | 1 <= k <= n ensures Get(Gone(r, i).transactions, Index(false, si, After(r.tid, k))).None? {
      GetDelete(r.transactions, i, Index(false, si, After(r.tid, k)));
    }
    hide Get, Delete, Proper;
  }

  /** At the end of an allow, on either side, what was saved is sent: nothing stays saved. */
  lemma NothingSaved(s: Stack, x: Rx)
    requires Good(s.remote) && Resending(s, Arrive(x)).Some?
    ensures Process(s, x).0.remote == SendSaved(Resending(s, Arrive(x)).value) && Process(s, x).0.remote.messages == []
  {
    assert !Dropped(s, x) by { hide Admit, Get, ValidSid; }
    Goes(s, x);
    SavedFewer(Resending(s, Arrive(x)).value);
    hide Process, Target, Admit, Get, NewSession, SendSaved, Delete, Good;
  }
}
