/** The allow handshake: that there is at most one in process, which of two crossed ones goes on, and
    exactly which events allow a remote, join it and begin its sessions. */
module Allowing {
  import opened Basics
  import opened Odicts
  import opened Lotting
  import opened Estating
  import opened Sessions
  import opened SessionRuns
  import opened Fates
  import Repeats
  import M = Messaging

  predicate IsAllow(t: Transaction) { t.Allower? || t.Allowent? }

  predicate OwnJoin(e: (Index, Transaction)) { e.1.Joining? && !e.0.rf }

  // -------------------------------------------------------------- One at a time

  /** At most one allow and one join begun here are in process. */
  ghost predicate One(d: Table) {
    && (forall e, f :: e in d && f in d && IsAllow(e.1) && IsAllow(f.1) ==> e.0 == f.0)
    && (forall e, f :: e in d && f in d && OwnJoin(e) && OwnJoin(f) ==> e.0 == f.0)
  }

  /** No allow and no join begun here is new. */
  ghost predicate Fewer(d: Table, d': Table) {
    forall e :: e in d' && (IsAllow(e.1) || OwnJoin(e)) ==> e in d
  }

  lemma FewerOne(d: Table, d': Table)
    requires One(d) && Fewer(d, d')
    ensures One(d')
  {
  }

  lemma GoneFewer(r: Remote, i: Index)
    requires Proper(r.transactions)
    ensures Fewer(r.transactions, Gone(r, i).transactions) && Proper(Gone(r, i).transactions)
  {
    DeleteIs(r.transactions, i);
    hide Delete, Proper;
  }

  lemma NoJoins(d: Table)
    requires !JoinInProcess(d)
    ensures forall e :: e in d ==> !e.1.Joining?
  {
    forall e | e in d ensures !e.1.Joining? {
      var k :| 0 <= k < |d| && d[k] == e;
    }
  }

  lemma NoAllows(d: Table)
    requires !AllowInProcess(d)
    ensures forall e :: e in d ==> !IsAllow(e.1)
  {
    forall e | e in d ensures !IsAllow(e.1) {
      var k :| 0 <= k < |d| && d[k] == e;
    }
  }

  lemma EnteredOne(r: Remote, i: Index, t: Transaction)
    requires One(r.transactions)
    requires IsAllow(t) ==> forall e :: e in r.transactions ==> !IsAllow(e.1)
    requires OwnJoin((i, t)) ==> forall e :: e in r.transactions ==> !e.1.Joining?
    ensures One(Entered(r, i, t).transactions)
  {
    hide Get;
    assert forall e :: e in r.transactions + [(i, t)] ==> e in r.transactions || e == (i, t);
  }

  lemma BeginJoinOne(r: Remote)
    requires One(r.transactions)
    ensures One(BeginJoin(r).transactions)
  {
    if !JoinInProcess(r.transactions) {
      NoJoins(r.transactions);
      EnteredOne(r.(tid := Next(r.tid), joined := false), Index(false, 0, Next(r.tid)), Joining);
    }
    hide One, Entered, JoinInProcess;
  }

  lemma BeginAllowOne(r: Remote)
    requires One(r.transactions)
    ensures One(BeginAllow(r).transactions)
  {
    var r1 := r.(tid := Next(r.tid), allowed := false);
    BeginJoinOne(r1);
    if !AllowInProcess(r.transactions) {
      NoAllows(r.transactions);
      EnteredOne(r1, Index(false, r.sid, r1.tid), Allower);
    }
    hide One, Entered, JoinInProcess, AllowInProcess, BeginJoin;
  }

  lemma BeginAliveOne(r: Remote)
    requires One(r.transactions)
    ensures One(BeginAlive(r).transactions)
  {
    var r1 := r.(tid := Next(r.tid));
    BeginJoinOne(r1);
    BeginAllowOne(r1);
    EnteredOne(r1, Index(false, r.sid, r1.tid), Aliver);
    hide One, Entered, BeginJoin, BeginAllow;
  }

  lemma {:induction false} SavedFewer(r: Remote)
    ensures var r' := SendSaved(r);
            && r'.allowed == r.allowed && r'.joined == r.joined && r'.sid == r.sid && r'.rsid == r.rsid
            && Fewer(r.transactions, r'.transactions) && r'.messages == []
    decreases |r.messages|
  {
    if r.messages != [] {
      var r1 := SendOne(r.(messages := r.messages[1..]), r.messages[0]);
      assert Fewer(r.transactions, r1.transactions) by { hide Get; }
      hide SendOne, Get;
      SavedFewer(r1);
    }
  }

  lemma NewSessionFewer(r: Remote)
    ensures var r' := NewSession(r);
            && r'.allowed == r.allowed && r'.joined == r.joined && r'.sid == Next(r.sid) && r'.rsid == r.rsid
            && Fewer(r.transactions, r'.transactions)
  {
    StayIs(r.transactions, false, Next(r.sid));
    hide Stay, Leave, Bodies, Next;
  }

  // ------------------------------------------------------------------- Contests

  /** When a hello goes on: no allow in process is the remote's, and those begun here give way. */
  ghost predicate Prevails(d: Table, lesser: bool) {
    forall e :: e in d && IsAllow(e.1) ==> !e.0.rf && !lesser
  }

  lemma {:induction false} ContendPrevails(items: Table, d: Table, i: Index, lesser: bool)
    requires i.rf && Proper(d)
    ensures var (race, table) := Contend(items, d, i, lesser);
            && (race == Proceed <==> Prevails(items, lesser))
            && Proper(table) && (forall e :: e in table ==> e in d)
            && (race == Proceed ==> forall e, f :: e in table && f in items && IsAllow(f.1) ==> e.0 != f.0)
    decreases |items|
  {
    if items != [] {
      var (j, t) := items[0];
      assert forall e :: e in items <==> e == items[0] || e in items[1..];
      DeleteIs(d, j);
      hide Delete, Proper;
      ContendPrevails(items[1..], d, i, lesser);
      ContendPrevails(items[1..], Delete(d, j), i, lesser);
    }
  }

  /** The table once a contest is decided. */
  lemma ContendLeaves(d: Table, i: Index, lesser: bool)
    requires i.rf && Proper(d) && One(d)
    ensures var (race, table) := Contend(d, d, i, lesser);
            && (race == Proceed <==> Prevails(d, lesser)) && Proper(table) && One(table)
            && (race == Proceed ==> forall e :: e in table ==> !IsAllow(e.1))
  {
    ContendPrevails(d, d, i, lesser);
    hide Contend, Proper, Prevails;
  }

  lemma ContestOne(r: Remote, i: Index, good: bool, lesser: bool)
    requires Proper(r.transactions) && One(r.transactions) && i.rf
    ensures var r' := Contest(r, i, good, lesser);
            && One(r'.transactions) && r'.joined == r.joined && r'.sid == r.sid
            && r'.allowed == (r.allowed && !Prevails(r.transactions, lesser))
  {
    var (race, table) := Contend(r.transactions, r.transactions, i, lesser);
    ContendLeaves(r.transactions, i, lesser);
    var r1 := r.(transactions := table);
    GoneOne(r1, i);
    GoneOne(r1.(allowed := false), i);
    if race == Proceed { EnteredOne(r1.(allowed := false), i, Allowent); }
    hide One, Entered, Contend, Proper, Prevails, Delete;
  }

  lemma HelloOne(r: Remote, i: Index, good: bool, lesser: bool)
    requires Proper(r.transactions) && One(r.transactions) && i.rf
    ensures var r' := HelloAt(r, i, good, lesser);
            && One(r'.transactions) && r'.joined == r.joined && r'.sid == r.sid
            && r'.allowed == (r.allowed && !Prevails(Met(r, i), lesser))
  {
    GoneFewer(r, i);
    FewerOne(r.transactions, Gone(r, i).transactions);
    ContestOne(if JoinInProcess(r.transactions) then Gone(r, i) else r, i, good, lesser);
    hide Contest, One, Prevails, JoinInProcess, Proper, Fewer;
  }

  /** The transactions a hello meets: while a join is in process its own is removed first. */
  function Met(r: Remote, i: Index): Table {
    if JoinInProcess(r.transactions) then Delete(r.transactions, i) else r.transactions
  }

  // ------------------------------------------------------- What events do to the flags

  /** The last step of an allow before it counts: the ack at its initiator, the initiate at its
      correspondent. Either begins a session. */
  predicate Allows(s: Stack, e: Event) {
    && e.Arrive? && e.x.tk.Allow?
    && ((e.x.pk.Ack? && Target(s, e.x) == Some(Allower))
        || (e.x.pk.Initiate? && e.x.pk.good && Target(s, e.x) == Some(Allowent)))
  }

  /** A hello that is heard, by a new Allowent or by one that is there. */
  predicate Hails(s: Stack, e: Event) {
    && e.Arrive? && e.x.tk.Allow? && e.x.pk.Hello? && !s.gone && e.x.si != 0
    && (e.x.cf || ValidSid(e.x.si, s.remote.rsid))
    && (Target(s, e.x) == Some(Allowent) || (!e.x.cf && Target(s, e.x) == None))
  }

  /** Messages are no longer allowed: an allow begins here, the remote's hello goes on, an allow is
      rejected, or an alive comes back unallowed. */
  ghost predicate Disallows(s: Stack, e: Event) {
    || (e.StartAllow? && !s.gone && !JoinInProcess(s.remote.transactions) && !AllowInProcess(s.remote.transactions))
    || (Hails(s, e) && Prevails(Met(Admit(s.remote, e.x), Index(!e.x.cf, e.x.si, e.x.ti)), s.lesser))
    || (e.Arrive? && e.x.tk.Allow? && e.x.pk.Reject?
        && (Target(s, e.x) == Some(Allower) || Target(s, e.x) == Some(Allowent)))
    || (e.Arrive? && e.x.tk.Alive? && e.x.pk.Unallowed? && Target(s, e.x) == Some(Aliver))
  }

  /** A join completes. */
  predicate Joins(s: Stack, e: Event) {
    e.Join? && !s.gone && Get(s.remote.transactions, e.index) == Some(Joining)
  }

  /** A join begins here or there, or a handshake or an alive comes back unjoined. */
  predicate Unjoins(s: Stack, e: Event) {
    || (e.StartJoin? && !s.gone && !JoinInProcess(s.remote.transactions))
    || (e.AskJoin? && !s.gone && Get(s.remote.transactions, Index(true, 0, e.ti)).None?)
    || (e.Arrive? && e.x.pk.Unjoined?
        && ((e.x.tk.Allow? && Target(s, e.x) == Some(Allower)) || (e.x.tk.Alive? && Target(s, e.x) == Some(Aliver))))
  }

  /** What holds of every event: at most one allow and one own join in process after it, and the two
      flags and the session id are those that it should leave. */
  ghost predicate Rules(s: Stack, e: Event) {
    var r, r' := s.remote, Happen(s, e).remote;
    && One(r'.transactions)
    && (r'.allowed <==> Allows(s, e) || (r.allowed && !Disallows(s, e)))
    && (r'.joined <==> Joins(s, e) || (r.joined && !Unjoins(s, e)))
    && r'.sid == if Allows(s, e) || (Joins(s, e) && r.sid == 0) then Next(r.sid) else r.sid
  }

  lemma BeginJoinFlags(r: Remote)
    ensures var r' := BeginJoin(r);
            && r'.allowed == r.allowed && r'.sid == r.sid && r'.joined == (r.joined && JoinInProcess(r.transactions))
  {
    hide JoinInProcess, Get;
  }

  lemma BeginAllowFlags(r: Remote)
    ensures var (r', busy) := (BeginAllow(r), JoinInProcess(r.transactions) || AllowInProcess(r.transactions));
            && r'.allowed == (r.allowed && busy) && r'.sid == r.sid && r'.joined == r.joined
  {
    BeginJoinFlags(r.(tid := Next(r.tid), allowed := false));
    hide JoinInProcess, AllowInProcess, BeginJoin, Get;
  }

  lemma BeginAliveFlags(r: Remote)
    ensures var r' := BeginAlive(r); r'.allowed == r.allowed && r'.sid == r.sid && r'.joined == r.joined
  {
    BeginJoinFlags(r.(tid := Next(r.tid)));
    BeginAllowFlags(r.(tid := Next(r.tid)));
    hide BeginJoin, BeginAllow, Get;
  }

  /** Table and flags after a step of the message protocol. */
  lemma SettleFewer(s: Stack, i: Index, r: M.Receiver)
    requires Proper(s.remote.transactions)
    ensures var r' := Settle(s, i, r).remote;
            && Fewer(s.remote.transactions, r'.transactions)
            && r'.allowed == s.remote.allowed && r'.joined == s.remote.joined && r'.sid == s.remote.sid
  {
    if r.live.Some? {
      PutIs(s.remote.transactions, i, Messengent(r.live.value));
    } else {
      DeleteIs(s.remote.transactions, i);
    }
    hide Put, Delete, Proper;
  }

  lemma AdmitFewer(r: Remote, x: Rx)
    requires Proper(r.transactions)
    ensures var r' := Admit(r, x);
            && Fewer(r.transactions, r'.transactions) && Proper(r'.transactions)
            && (forall e :: e in r'.transactions ==> e in r.transactions)
            && r'.allowed == r.allowed && r'.joined == r.joined && r'.sid == r.sid
  {
    StayIs(r.transactions, true, x.si);
    hide Stay, Proper;
  }

  lemma GoneOne(r: Remote, i: Index)
    requires Proper(r.transactions) && One(r.transactions)
    ensures One(Gone(r, i).transactions)
  {
    GoneFewer(r, i);
    FewerOne(r.transactions, Gone(r, i).transactions);
    hide Gone, One, Fewer, Proper;
  }

  lemma RenewOne(r: Remote)
    requires One(r.transactions)
    ensures One(NewSession(r).transactions) && One(SendSaved(r).transactions)
  {
    NewSessionFewer(r);
    FewerOne(r.transactions, NewSession(r).transactions);
    SavedFewer(r);
    FewerOne(r.transactions, SendSaved(r).transactions);
    hide NewSession, SendSaved, One, Fewer;
  }

  /** One allow and one own join at most, and these flags. */
  ghost predicate Left(r: Remote, allowed: bool, joined: bool, sid: nat) {
    One(r.transactions) && r.allowed == allowed && r.joined == joined && r.sid == sid
  }

  lemma GoneLeft(r: Remote, i: Index)
    requires Proper(r.transactions) && One(r.transactions)
    ensures Left(Gone(r, i), r.allowed, r.joined, r.sid) && Left(r, r.allowed, r.joined, r.sid)
    ensures Left(Gone(r.(allowed := false), i), false, r.joined, r.sid)
  {
    GoneOne(r, i);
    hide One, Proper, Delete;
  }

  lemma AllowedLeft(r: Remote, i: Index)
    requires Proper(r.transactions) && One(r.transactions)
    ensures Left(SendSaved(NewSession(Gone(r.(allowed := true), i))), true, r.joined, Next(r.sid))
  {
    GoneOne(r, i);
    var r1 := Gone(r.(allowed := true), i);
    RenewOne(r1);
    NewSessionFewer(r1);
    hide NewSession, SendSaved, One, Delete, Proper, Fewer;
    RenewOne(NewSession(r1));
    SavedFewer(NewSession(r1));
  }

  lemma FinalLeft(r: Remote, i: Index)
    requires Proper(r.transactions) && One(r.transactions)
    ensures Left(SendSaved(Gone(r, i)), r.allowed, r.joined, r.sid)
    ensures Left(NewSession(r.(allowed := true)), true, r.joined, Next(r.sid))
  {
    GoneOne(r, i);
    RenewOne(r.(allowed := true));
    NewSessionFewer(r.(allowed := true));
    hide NewSession, SendSaved, One, Delete, Proper, Fewer;
    RenewOne(Gone(r, i));
    SavedFewer(Gone(r, i));
  }

  lemma BackLeft(r: Remote, i: Index)
    requires Proper(r.transactions) && One(r.transactions)
    ensures Left(BeginJoin(Gone(r.(joined := false), i)), r.allowed, false, r.sid)
    ensures Left(BeginAllow(Gone(r.(allowed := false), i)), false, r.joined, r.sid)
  {
    GoneOne(r, i);
    var (r1, r2) := (Gone(r.(joined := false), i), Gone(r.(allowed := false), i));
    hide BeginJoin, BeginAllow, One, Delete, Proper;
    BeginJoinOne(r1);
    BeginJoinFlags(r1);
    BeginAllowOne(r2);
    BeginAllowFlags(r2);
  }

  lemma AllowerRules(r: Remote, i: Index, x: Rx, lesser: bool)
    requires Proper(r.transactions) && One(r.transactions)
    ensures var (k, here) := (x.pk, x.tk.Allow?);
            Left(React(r, i, Allower, x, lesser), (here && k.Ack?) || (r.allowed && !(here && k.Reject?)),
                 r.joined && !(here && k.Unjoined?), if here && k.Ack? then Next(r.sid) else r.sid)
  {
    hide NewSession, SendSaved, BeginJoin, Left, Gone, Proper, One;
    GoneLeft(r, i);
    AllowedLeft(r, i);
    BackLeft(r, i);
  }

  lemma AllowentRules(r: Remote, i: Index, x: Rx, lesser: bool)
    requires Proper(r.transactions) && One(r.transactions) && i.rf
    ensures var (k, here) := (x.pk, x.tk.Allow?);
            Left(React(r, i, Allowent, x, lesser),
                 (here && k.Initiate? && k.good)
                 || (r.allowed && !(here && k.Reject?) && !(here && k.Hello? && Prevails(Met(r, i), lesser))),
                 r.joined, if here && k.Initiate? && k.good then Next(r.sid) else r.sid)
  {
    hide NewSession, SendSaved, Left, Gone, Proper, One, Prevails, Met, HelloAt;
    GoneLeft(r, i);
    FinalLeft(r, i);
    if x.pk.Hello? { HelloLeft(r, i, x.pk.good, lesser); }
  }

  lemma HelloLeft(r: Remote, i: Index, good: bool, lesser: bool)
    requires Proper(r.transactions) && One(r.transactions) && i.rf
    ensures Left(HelloAt(r, i, good, lesser), r.allowed && !Prevails(Met(r, i), lesser), r.joined, r.sid)
  {
    HelloOne(r, i, good, lesser);
    hide HelloAt, One, Proper, Prevails, Met;
  }

  lemma AliverRules(r: Remote, i: Index, x: Rx, lesser: bool)
    requires Proper(r.transactions) && One(r.transactions)
    ensures var (k, here) := (x.pk, x.tk.Alive?);
            Left(React(r, i, Aliver, x, lesser), r.allowed && !(here && k.Unallowed?),
                 r.joined && !(here && k.Unjoined?), r.sid)
  {
    hide BeginJoin, BeginAllow, Left, Gone, Proper, One;
    GoneLeft(r, i);
    BackLeft(r, i);
  }

  /** A packet at the transaction it goes to. */
  lemma ReceiveRules(s: Stack, i: Index, t: Transaction, x: Rx)
    requires Good(s.remote) && One(s.remote.transactions) && Get(s.remote.transactions, i) == Some(t)
    ensures var (r, k) := (s.remote, x.pk);
            var (a, b, c) := (t.Allower? && x.tk.Allow?, t.Allowent? && x.tk.Allow?, t.Aliver? && x.tk.Alive?);
            var begins := (a && k.Ack?) || (b && k.Initiate? && k.good);
            Left(Receive(s, i, t, x).0.remote,
                 begins || (r.allowed && !((a || b) && k.Reject?) && !(c && k.Unallowed?)
                                      && !(b && k.Hello? && Prevails(Met(r, i), s.lesser))),
                 r.joined && !((a || c) && k.Unjoined?), if begins then Next(r.sid) else r.sid)
  {
    var r := s.remote;
    Whereabouts(r, i, t);
    assert !t.Messengent? ==> Receive(s, i, t, x).0.remote == React(r, i, t, x, s.lesser) by {
      hide React, Good, One, Get;
    }
    GoneLeft(r, i);
    if t.Messengent? { HandleLeft(s, i, Some(t.m), if x.pk.Segment? then M.Seg(x.pk.packet) else M.StaleNack); }
    hide Handle, One, Proper, Get, Prevails, Met, Good, React, Left, Gone;
    match t {
      case Messengent(m) =>
      case Allower => hide Receive; AllowerRules(r, i, x, s.lesser);
      case Allowent => hide Receive; AllowentRules(r, i, x, s.lesser);
      case Aliver => hide Receive; AliverRules(r, i, x, s.lesser);
      case _ => hide Receive; OtherRules(r, i, t, x, s.lesser);
    }
  }

  lemma Whereabouts(r: Remote, i: Index, t: Transaction)
    requires Good(r) && Get(r.transactions, i) == Some(t)
    ensures Proper(r.transactions) && (t.Allowent? ==> i.rf)
  {
    GetIs(r.transactions, i);
    assert Placed((i, t), r.sid, r.rsid);
    hide Get, Proper;
  }

  lemma OtherRules(r: Remote, i: Index, t: Transaction, x: Rx, lesser: bool)
    requires Proper(r.transactions) && One(r.transactions) && (t.Messenger? || t.Joining?)
    ensures Left(React(r, i, t, x, lesser), r.allowed, r.joined, r.sid)
  {
    GoneLeft(r, i);
    hide Left, Gone, One, Proper;
  }

  lemma HandleLeft(s: Stack, i: Index, live: Option<M.Messengent>, u: M.Request)
    requires Proper(s.remote.transactions) && One(s.remote.transactions)
    ensures Left(Handle(s, i, live, u).0.remote, s.remote.allowed, s.remote.joined, s.remote.sid)
  {
    var r := Respond(s.remote.allowed, Seen(s, i, live), u).0;
    SettleFewer(s, i, r);
    FewerOne(s.remote.transactions, Settle(s, i, r).remote.transactions);
    hide Respond, Settle, One, Fewer, Proper, Seen;
  }

  lemma CorrespondRules(s: Stack, i: Index, x: Rx)
    requires Proper(s.remote.transactions) && One(s.remote.transactions) && i.rf
    ensures var r := s.remote;
            Left(Correspond(s, i, x).0.remote,
                 r.allowed && !(x.tk.Allow? && x.pk.Hello? && Prevails(Met(r, i), s.lesser)), r.joined, r.sid)
  {
    if x.tk.Allow? && x.pk.Hello? {
      HelloLeft(s.remote, i, x.pk.good, s.lesser);
    } else if x.tk.Message? && x.pk.Segment? {
      HandleLeft(s, i, None, M.Seg(x.pk.packet));
    } else {
      GoneLeft(s.remote, i);
    }
    hide HelloAt, Handle, One, Prevails, Met, Proper, Left;
  }

  // ----------------------------------------------------------------- Every event

  predicate Dropped(s: Stack, x: Rx) { s.gone || x.si == 0 || (!x.cf && !ValidSid(x.si, s.remote.rsid)) }

  /** Where a packet goes that is not dropped. */
  lemma Goes(s: Stack, x: Rx)
    requires !Dropped(s, x)
    ensures var i, s1 := Index(!x.cf, x.si, x.ti), s.(remote := Admit(s.remote, x));
            && Target(s, x) == Get(s1.remote.transactions, i)
            && (Target(s, x).Some? ==> Process(s, x).0 == Receive(s1, i, Target(s, x).value, x).0)
            && (Target(s, x).None? ==> Process(s, x).0 == if x.cf then s1 else Correspond(s1, i, x).0)
  {
    hide Admit, Receive, Correspond, Get, ValidSid;
  }

  lemma AdmitRules(s: Stack, x: Rx)
    requires Good(s.remote) && One(s.remote.transactions) && IsId(x.si) && !Dropped(s, x)
    ensures var r := Admit(s.remote, x);
            && Good(r) && One(r.transactions)
            && r.allowed == s.remote.allowed && r.joined == s.remote.joined && r.sid == s.remote.sid
  {
    AdmitFewer(s.remote, x);
    FewerOne(s.remote.transactions, Admit(s.remote, x).transactions);
    if !x.cf && x.si != s.remote.rsid { AdmitGood(s.remote, x); }
    hide One, Fewer, Good, ValidSid, DropCorrespondents;
  }

  /** How the rules read for a packet. */
  lemma PacketRules(s: Stack, x: Rx, begins: bool, ends: bool, unjoins: bool)
    requires begins == Allows(s, Arrive(x)) && unjoins == Unjoins(s, Arrive(x)) && ends == Disallows(s, Arrive(x))
    requires Left(Process(s, x).0.remote, begins || (s.remote.allowed && !ends), s.remote.joined && !unjoins,
                  if begins then Next(s.remote.sid) else s.remote.sid)
    requires !s.gone
    ensures Rules(s, Arrive(x))
  {
    hide Process, Allows, Disallows, Unjoins, One;
  }

  lemma TargetRules(s: Stack, x: Rx, t: Transaction)
    requires Good(s.remote) && One(s.remote.transactions) && IsId(x.si) && !Dropped(s, x) && Target(s, x) == Some(t)
    ensures Rules(s, Arrive(x))
  {
    Goes(s, x);
    AdmitRules(s, x);
    var i, s1, k := Index(!x.cf, x.si, x.ti), s.(remote := Admit(s.remote, x)), x.pk;
    ReceiveRules(s1, i, t, x);
    var a, b, c := t.Allower? && x.tk.Allow?, t.Allowent? && x.tk.Allow?, t.Aliver? && x.tk.Alive?;
    hide One, Prevails, Good, Admit, ValidSid, Receive, Correspond, Get, Met, Process, Target, Left, Rules;
    var ends := ((a || b) && k.Reject?) || (c && k.Unallowed?)
                || (b && k.Hello? && Prevails(Met(s1.remote, i), s.lesser));
    var begins := (a && k.Ack?) || (b && k.Initiate? && k.good);
    assert Allows(s, Arrive(x)) == begins;
    assert Unjoins(s, Arrive(x)) == ((a || c) && k.Unjoined?);
    assert Disallows(s, Arrive(x)) == ends;
    hide *;
    PacketRules(s, x, begins, ends, (a || c) && k.Unjoined?);
  }

  lemma NewRules(s: Stack, x: Rx)
    requires Good(s.remote) && One(s.remote.transactions) && IsId(x.si) && !Dropped(s, x) && Target(s, x).None?
    ensures Rules(s, Arrive(x))
  {
    Goes(s, x);
    AdmitRules(s, x);
    var i, s1 := Index(!x.cf, x.si, x.ti), s.(remote := Admit(s.remote, x));
    if !x.cf { CorrespondRules(s1, i, x); }
    hide One, Prevails, Good, Admit, ValidSid, Receive, Correspond, Get, Met, Process, Target;
  }

  lemma DroppedRules(s: Stack, x: Rx)
    requires One(s.remote.transactions) && Dropped(s, x)
    ensures Rules(s, Arrive(x))
  {
    hide One, Prevails, Good, ValidSid;
  }

  lemma ArriveRules(s: Stack, x: Rx)
    requires Good(s.remote) && One(s.remote.transactions) && IsId(x.si)
    ensures Rules(s, Arrive(x))
  {
    hide *;
    if Dropped(s, x) {
      DroppedRules(s, x);
    } else if Target(s, x).None? {
      NewRules(s, x);
    } else {
      TargetRules(s, x, Target(s, x).value);
    }
  }

  lemma NudgeRules(s: Stack, i: Index)
    requires Good(s.remote) && One(s.remote.transactions)
    ensures var r' := Redo(s, i).0.remote;
            && One(r'.transactions)
            && r'.allowed == s.remote.allowed && r'.joined == s.remote.joined && r'.sid == s.remote.sid
  {
    var t: Option<Transaction> := Get(s.remote.transactions, i);
    if t.Some? && t.value.Messengent? {
      var r := M.Nudge(Seen(s, i, Some(t.value.m))).0;
      SettleFewer(s, i, r);
      FewerOne(s.remote.transactions, Settle(s, i, r).remote.transactions);
    }
    hide One, Fewer, Settle, M.Nudge, Get, Seen;
  }

  lemma JoinRules(s: Stack, i: Index)
    requires Good(s.remote) && One(s.remote.transactions) && !s.gone
    ensures Rules(s, Join(i))
  {
    var r := s.remote;
    OnlyJoinsStay(r);
    NewSessionFewer(r);
    FewerOne(r.transactions, NewSession(r).transactions);
    GoneOne(r, i);
    GoneOne(NewSession(r), i);
    hide One, Fewer, NewSession, Delete, Good, Get;
  }

  /** The rules for an event that is no packet, no join and no allow begun. */
  lemma PlainRules(s: Stack, e: Event)
    requires !s.gone && !e.Arrive? && !e.Join? && !e.StartAllow?
    requires Left(Happen(s, e).remote, s.remote.allowed, s.remote.joined && !Unjoins(s, e), s.remote.sid)
    ensures Rules(s, e)
  {
    hide Happen, One, Unjoins;
  }

  lemma LocalRules(s: Stack, e: Event)
    requires Good(s.remote) && One(s.remote.transactions) && !s.gone && !e.Arrive? && !e.Join?
    ensures Rules(s, e)
  {
    var r := s.remote;
    if e.StartAllow? {
      BeginAllowOne(r);
      BeginAllowFlags(r);
      hide One, Good, BeginAllow, JoinInProcess, AllowInProcess;
    } else {
      match e {
        case Expire(i) => NudgeRules(s, i);
        case End(i) => GoneOne(r, i);
        case Send(body) => SendFewer(r, body);
        case StartJoin => BeginJoinOne(r); BeginJoinFlags(r);
        case StartAlive => BeginAliveOne(r); BeginAliveFlags(r);
        case AskJoin(ti) => EnteredOne(r.(joined := false), Index(true, 0, ti), Joining);
        case Rejected(i) => assert One([]);
      }
      hide One, Good, BeginJoin, BeginAlive, SendOne, Redo, JoinInProcess, Rejectable, Marked, Get, Delete, Rules;
      PlainRules(s, e);
    }
  }

  lemma SendFewer(r: Remote, body: Bytes)
    requires One(r.transactions)
    ensures var r' := SendOne(r, body);
            One(r'.transactions) && r'.allowed == r.allowed && r'.joined == r.joined && r'.sid == r.sid
  {
    assert Fewer(r.transactions, SendOne(r, body).transactions);
    hide Get, SendOne;
    FewerOne(r.transactions, SendOne(r, body).transactions);
  }

  /** Exactly when messages are allowed, when a remote is joined and when a session begins: after every
      event the flags and the session id are those that Allows, Disallows, Joins and Unjoins say. */
  lemma EventRules(s: Stack, e: Event)
    requires Good(s.remote) && One(s.remote.transactions) && (e.Arrive? ==> IsId(e.x.si))
    ensures Rules(s, e)
  {
    if s.gone {
      hide One, Prevails, Good;
    } else if e.Arrive? {
      ArriveRules(s, e.x);
    } else if e.Join? {
      JoinRules(s, e.index);
    } else {
      LocalRules(s, e);
    }
  }

  /** Over every run at most one allow handshake is in process, ours or the remote's, and at most one
      join that was begun here. */
  lemma {:induction false} OneAtATime(s: Stack, events: seq<Event>)
    requires Good(s.remote) && One(s.remote.transactions) && Genuine(events)
    ensures One(Run(s, events).remote.transactions)
    decreases |events|
  {
    if events != [] {
      assert events[0] in events;
      EventRules(s, events[0]);
      Repeats.OursGood(s, events[0]);
      assert One(Happen(s, events[0]).remote.transactions);
      hide Happen, Good, One, Rules;
      OneAtATime(Happen(s, events[0]), events[1..]);
    }
  }

  // --------------------------------------------------------------- Crossed allows

  /** A contest with the one allow in process: it is the hello's own, or it goes on and the hello is
      refused, or it is dismissed and the hello goes on. */
  lemma {:induction false} ContendOne(items: Table, d: Table, i: Index, lesser: bool)
    requires Proper(items) && One(items)
    ensures var r := Contend(items, d, i, lesser);
            && ((forall e :: e in items ==> !IsAllow(e.1)) ==> r == (Proceed, d))
            && forall e :: e in items && IsAllow(e.1) ==>
                 r == if e.0 == i then (Duplicate, d) else if e.0.rf || lesser then (Refused, d)
                      else (Proceed, Delete(d, e.0))
    decreases |items|
  {
    if items != [] {
      assert items == [items[0]] + items[1..];
      ConsIs(items[0], items[1..]);
      assert One(items[1..]);
      ContendOne(items[1..], d, i, lesser);
      if IsAllow(items[0].1) {
        ContendOne(items[1..], Delete(d, items[0].0), i, lesser);
      }
      hide Delete, Proper;
    }
  }

  /** Where a hello that goes on leaves the remote. */
  function Hailed(r: Remote, i: Index, good: bool): Remote {
    r.(allowed := false, transactions := r.transactions + if r.joined && good then [(i, Allowent)] else [])
  }

  /** Exactly what a new hello does. If no allow is in process it goes on. If the remote has one in
      process, or this stack has and its name is the lesser, the hello is refused and nothing changes.
      If this stack has one and its name is not the lesser, that one gives way. */
  lemma HelloExactly(r: Remote, i: Index, good: bool, lesser: bool)
    requires Proper(r.transactions) && One(r.transactions) && i.rf && Get(r.transactions, i).None?
    ensures var r' := HelloAt(r, i, good, lesser);
            && ((forall e :: e in r.transactions ==> !IsAllow(e.1)) ==> r' == Hailed(r, i, good))
            && (forall e :: e in r.transactions && IsAllow(e.1) ==>
                 r' == if e.0.rf || lesser then r else Hailed(Gone(r, e.0), i, good))
  {
    HelloContests(r, i, good, lesser);
    ContendOne(r.transactions, r.transactions, i, lesser);
    DeletesNothing(r.transactions, i);
    GetIs(r.transactions, i);
    hide Contend, Delete, Get, One, Proper, JoinInProcess, HelloAt;
    if forall e :: e in r.transactions ==> !IsAllow(e.1) {
      UnderWay(r, i, good);
    }
    forall e | e in r.transactions && IsAllow(e.1)
      ensures HelloAt(r, i, good, lesser) == if e.0.rf || lesser then r else Hailed(Gone(r, e.0), i, good)
    {
      StillNone(r.transactions, e.0, i);
      UnderWay(Gone(r, e.0), i, good);
    }
  }

  /** A hello that goes on. */
  lemma UnderWay(r: Remote, i: Index, good: bool)
    requires Get(r.transactions, i).None? && Delete(r.transactions, i) == r.transactions
    ensures (if r.joined && good then Entered(r.(allowed := false), i, Allowent) else Gone(r.(allowed := false), i))
            == Hailed(r, i, good)
  {
    assert r.transactions + [] == r.transactions;
    hide Get, Delete;
  }

  lemma HelloContests(r: Remote, i: Index, good: bool, lesser: bool)
    requires Get(r.transactions, i).None?
    ensures HelloAt(r, i, good, lesser) == Contest(r, i, good, lesser)
  {
    DeletesNothing(r.transactions, i);
    assert Gone(r, i) == r;
    hide Contest, Get, Delete, JoinInProcess;
  }

  lemma StillNone(d: Table, j: Index, i: Index)
    requires Proper(d) && Get(d, i).None?
    ensures Get(Delete(d, j), i).None? && Delete(Delete(d, j), i) == Delete(d, j)
  {
    DeleteIs(d, j);
    GetIs(d, i);
    GetIs(Delete(d, j), i);
    DeletesNothing(Delete(d, j), i);
    hide Get, Delete;
  }

  /** A packet of the allow handshake that arrives under index i. */
  function Shake(i: Index, k: PcktKind): Rx { Rx(!i.rf, Allow, i.si, i.ti, k) }

  function Other(i: Index): Index { Index(!i.rf, i.si, i.ti) }

  /** The hello of the remote under its index i can be heard as a new one. */
  ghost predicate Heard(s: Stack, i: Index) {
    && i.rf && IsId(i.si) && i.si != 0 && ValidSid(i.si, s.remote.rsid)
    && Get(Admit(s.remote, Shake(i, Hello(true))).transactions, i).None?
  }

  lemma HeardAt(s: Stack, i: Index, good: bool)
    requires !s.gone && Heard(s, i)
    ensures var r := Admit(s.remote, Shake(i, Hello(good)));
            && r == Admit(s.remote, Shake(i, Hello(true)))
            && Process(s, Shake(i, Hello(good))).0 == s.(remote := HelloAt(r, i, good, s.lesser))
  {
    hide HelloAt, Get, DropCorrespondents, ValidSid;
  }

  /** A session change leaves our own allow alone. */
  lemma AllowerStays(r: Remote, x: Rx, j: Index)
    requires Good(r) && Get(r.transactions, j) == Some(Allower)
    ensures !j.rf && Get(Admit(r, x).transactions, j) == Some(Allower)
  {
    GetIs(r.transactions, j);
    assert Placed((j, Allower), r.sid, r.rsid);
    StayIs(r.transactions, true, x.si);
    GetIs(Admit(r, x).transactions, j);
    hide Get, Stay, Proper;
  }

  /** One stack of two whose allows cross: j is its own, i the remote's. */
  lemma CrossedAt(s: Stack, j: Index, i: Index, good: bool)
    requires Good(s.remote) && One(s.remote.transactions) && !s.gone && Heard(s, i)
    requires Get(s.remote.transactions, j) == Some(Allower)
    ensures var (r, r') := (Admit(s.remote, Shake(i, Hello(good))), Happen(s, Arrive(Shake(i, Hello(good)))).remote);
            && Get(r.transactions, j) == Some(Allower)
            && r' == if s.lesser then r else Hailed(Gone(r, j), i, good)
  {
    var x := Shake(i, Hello(good));
    HeardAt(s, i, good);
    AllowerStays(s.remote, x, j);
    AdmitRules(s, x);
    var r := Admit(s.remote, x);
    GetIs(r.transactions, j);
    hide Process, HelloAt, Admit, Get, One, Hailed, Gone;
    HelloExactly(r, i, good, s.lesser);
    assert (j, Allower) in r.transactions && IsAllow((j, Allower).1);
  }

  ghost predicate NoneInProcess(d: Table) { forall e :: e in d ==> !IsAllow(e.1) }

  /** No allow is left where the one in process has ended. */
  lemma NoneLeft(d: Table, j: Index, d': Table)
    requires Proper(d) && One(d) && Get(d, j).Some? && IsAllow(Get(d, j).value) && Fewer(Delete(d, j), d')
    ensures NoneInProcess(d')
  {
    GetIs(d, j);
    DeleteIs(d, j);
    hide Get, Delete, Proper;
  }

  /** The rest of the handshake at its initiator: the cookie changes nothing, the ack allows the
      remote in a new session, and the allow is over. */
  lemma AllowerEnds(s: Stack, j: Index)
    requires Good(s.remote) && One(s.remote.transactions) && !s.gone && j.si != 0 && !j.rf
    requires Get(s.remote.transactions, j) == Some(Allower)
    ensures Happen(s, Arrive(Shake(j, Cookie(true)))) == s
    ensures var r' := Happen(s, Arrive(Shake(j, Ack(false)))).remote;
            && r'.allowed && r'.joined == s.remote.joined && r'.sid == Next(s.remote.sid)
            && NoneInProcess(r'.transactions)
  {
    var r := s.remote;
    var r1 := Gone(r.(allowed := true), j);
    NewSessionFewer(r1);
    SavedFewer(NewSession(r1));
    assert Fewer(Delete(r.transactions, j), SendSaved(NewSession(r1)).transactions) by {
      hide NewSession, SendSaved, Delete, Get;
    }
    hide NewSession, SendSaved, One, Good, Get, Fewer, NoneInProcess, Delete, Proper;
    NoneLeft(r.transactions, j, SendSaved(NewSession(r1)).transactions) by { Whole(r); }
  }

  lemma Whole(r: Remote)
    requires Good(r)
    ensures Proper(r.transactions)
  {
  }

  /** At its correspondent: the initiate allows the remote in a new session, and the ack ends it. */
  lemma AllowentEnds(s: Stack, i: Index)
    requires Good(s.remote) && One(s.remote.transactions) && !s.gone && i.rf && i.si == s.remote.rsid != 0
    requires Get(s.remote.transactions, i) == Some(Allowent)
    ensures var s1 := Happen(s, Arrive(Shake(i, Initiate(true))));
            var r' := Happen(s1, Arrive(Shake(i, Ack(false)))).remote;
            && s1.remote.allowed && s1.remote.sid == Next(s.remote.sid)
            && Get(s1.remote.transactions, i) == Some(Allowent)
            && r'.allowed && r'.joined == s.remote.joined && r'.sid == Next(s.remote.sid)
            && NoneInProcess(r'.transactions)
  {
    var r := s.remote;
    var r1 := NewSession(r.(allowed := true));
    Whole(r);
    NewSessionFewer(r.(allowed := true));
    AllowentStays(r, i);
    hide NewSession, One, Good, Get, NoneInProcess, Delete, Proper, SendSaved;
    assert Happen(s, Arrive(Shake(i, Initiate(true)))) == s.(remote := r1);
    FewerOne(r.transactions, r1.transactions);
    SavedFewer(Gone(r1, i));
    hide Fewer;
    NoneLeft(r1.transactions, i, SendSaved(Gone(r1, i)).transactions);
  }

  lemma AllowentStays(r: Remote, i: Index)
    requires Proper(r.transactions) && i.rf && Get(r.transactions, i) == Some(Allowent)
    ensures var r1 := NewSession(r.(allowed := true));
            Proper(r1.transactions) && Get(r1.transactions, i) == Some(Allowent)
  {
    var r1 := NewSession(r.(allowed := true));
    StayIs(r.transactions, false, Next(r.sid));
    GetIs(r.transactions, i);
    GetIs(r1.transactions, i);
    hide Get, Stay, Proper, Next;
  }

  /** What a hello leaves, whichever it is. */
  lemma HelloLeaves(s: Stack, i: Index)
    requires Good(s.remote) && One(s.remote.transactions) && !s.gone && IsId(i.si)
    ensures var s' := Happen(s, Arrive(Shake(i, Hello(true))));
            Good(s'.remote) && One(s'.remote.transactions) && !s'.gone
  {
    Repeats.OursGood(s, Arrive(Shake(i, Hello(true))));
    EventRules(s, Arrive(Shake(i, Hello(true))));
    hide Good, One, Get, Receive, Correspond, Admit, ValidSid;
  }

  lemma LesserKeeps(a: Stack, j: Index, i: Index)
    requires Good(a.remote) && One(a.remote.transactions) && !a.gone && a.lesser && Heard(a, i)
    requires Get(a.remote.transactions, j) == Some(Allower)
    ensures var a1 := Happen(a, Arrive(Shake(i, Hello(true))));
            && Get(a1.remote.transactions, j) == Some(Allower) && !j.rf
            && a1.remote.allowed == a.remote.allowed && a1.remote.sid == a.remote.sid
  {
    AllowerStays(a.remote, Shake(i, Hello(true)), j);
    CrossedAt(a, j, i, true);
    Whole(a.remote);
    AdmitFewer(a.remote, Shake(i, Hello(true)));
    hide *;
  }

  lemma GreaterGives(b: Stack, j: Index, i: Index)
    requires Good(b.remote) && One(b.remote.transactions) && !b.gone && !b.lesser && b.remote.joined && Heard(b, i)
    requires Get(b.remote.transactions, j) == Some(Allower)
    ensures var b1 := Happen(b, Arrive(Shake(i, Hello(true)))).remote;
            && Get(b1.transactions, j).None? && Get(b1.transactions, i) == Some(Allowent)
            && !b1.allowed && b1.joined && b1.sid == b.remote.sid && i.rf && i.si == b1.rsid != 0
  {
    var x := Shake(i, Hello(true));
    CrossedAt(b, j, i, true);
    HeardAt(b, i, true);
    AllowerStays(b.remote, x, j);
    Whole(b.remote);
    AdmitFewer(b.remote, x);
    var r := Admit(b.remote, x);
    assert r.rsid == i.si && Get(r.transactions, i).None?;
    DeleteIs(r.transactions, j);
    GetIs(Delete(r.transactions, j), j);
    StillNone(r.transactions, j, i);
    var d := Delete(r.transactions, j);
    GetAppend(d, (i, Allowent), i);
    GetAppend(d, (i, Allowent), j);
    hide Process, Admit, Get, Good, One, Delete, Proper;
  }

  /** Two allows that cross. Each stack has its own in process, `ja` and `jb`, when the other's hello
      arrives. The stack of the lesser name refuses the hello and keeps its own allow, and the other
      gives its own up and answers. With the packets that follow both end up allowing each other, each
      in its next session, and no allow is in process any more. */
  lemma CrossedAllows(a: Stack, b: Stack, ja: Index, jb: Index)
    requires Good(a.remote) && One(a.remote.transactions) && !a.gone && a.lesser
    requires Good(b.remote) && One(b.remote.transactions) && !b.gone && !b.lesser && b.remote.joined
    requires Get(a.remote.transactions, ja) == Some(Allower) && Get(b.remote.transactions, jb) == Some(Allower)
    requires Heard(a, Other(jb)) && Heard(b, Other(ja))
    ensures var (a1, b1) := (Happen(a, Arrive(Shake(Other(jb), Hello(true)))),
                             Happen(b, Arrive(Shake(Other(ja), Hello(true)))));
            && Get(a1.remote.transactions, ja) == Some(Allower) && a1.remote.allowed == a.remote.allowed
            && Get(b1.remote.transactions, jb).None? && Get(b1.remote.transactions, Other(ja)) == Some(Allowent)
            && !b1.remote.allowed
            && var b2 := Happen(b1, Arrive(Shake(Other(ja), Initiate(true))));
            var (a3, b3) := (Happen(Happen(a1, Arrive(Shake(ja, Cookie(true)))), Arrive(Shake(ja, Ack(false)))).remote,
                             Happen(b2, Arrive(Shake(Other(ja), Ack(false)))).remote);
            && a3.allowed && b3.allowed && a3.sid == Next(a.remote.sid) && b3.sid == Next(b.remote.sid)
            && NoneInProcess(a3.transactions) && NoneInProcess(b3.transactions)
  {
    hide *;
    HeardId(a, Other(jb));
    HeardId(b, Other(ja));
    LesserKeeps(a, ja, Other(jb));
    GreaterGives(b, jb, Other(ja));
    HelloLeaves(a, Other(jb));
    HelloLeaves(b, Other(ja));
    var (a1, b1) := (Happen(a, Arrive(Shake(Other(jb), Hello(true)))),
                     Happen(b, Arrive(Shake(Other(ja), Hello(true)))));
    AllowerEnds(a1, ja);
    AllowentEnds(b1, Other(ja));
  }

  lemma HeardId(s: Stack, i: Index)
    requires Heard(s, i)
    ensures IsId(i.si) && Other(i).si == i.si != 0 && i == Other(Other(i))
    ensures forall j :: i == Other(j) ==> j.si == i.si
  {
  }
}
