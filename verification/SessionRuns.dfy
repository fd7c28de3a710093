/** Whole runs of a stack with one remote, over all sessions: at-most-once delivery although every
    session change clears the done table. */
module SessionRuns {
  import opened Basics
  import opened Odicts
  import opened Lotting
  import opened Estating
  import opened Sessions
  import M = Messaging
  import T = Traying

  /** What can happen at this stack: a packet; the redo timer of a Messengent; a handshake, join or
      alive transaction ending by itself; a message, a join, an allow or an alive begun here; a
      join begun by the remote; a join that completes, but for one that resets rsid; and a join
      that is rejected, which removes the remote. After that nothing happens with it: a stack that
      meets its peer again has another remote for it. */
  datatype Event =
    | Arrive(x: Rx) | Expire(index: Index) | End(index: Index)
    | Send(body: Bytes) | StartJoin | StartAllow | StartAlive
    | AskJoin(ti: nat) | Join(index: Index) | Rejected(index: Index)

  function Happen(s: Stack, e: Event): Stack {
    if s.gone then s
    else
      match e
      case Arrive(x) => Process(s, x).0
      case Expire(i) => Redo(s, i).0
      case End(i) => s.(remote := Lapse(s.remote, i))
      case Send(body) => s.(remote := SendOne(s.remote, body))
      case StartJoin => s.(remote := BeginJoin(s.remote))
      case StartAllow => s.(remote := BeginAllow(s.remote))
      case StartAlive => s.(remote := BeginAlive(s.remote))
      case AskJoin(ti) => s.(remote := JoinAsked(s.remote, ti))
      case Join(i) => s.(remote := JoinDone(s.remote, i))
      case Rejected(i) => JoinRejected(s, i)
  }

  function Run(s: Stack, events: seq<Event>): Stack
    decreases |events|
  {
    if events == [] then s else Run(Happen(s, events[0]), events[1..])
  }

  /** How far rsid has to count to reach a newer id, 0 skipped or not. */
  function Gap(newer: nat, older: nat): nat { (newer - older) % SID_WRAP_MODULO }

  /** How far an event moves rsid. */
  function Moved(s: Stack, e: Event): nat {
    var was, now := s.remote.rsid, Happen(s, e).remote.rsid;
    if was == 0 then 0 else Gap(now, was)
  }

  function Advance(s: Stack, events: seq<Event>): nat
    decreases |events|
  {
    if events == [] then 0 else Moved(s, events[0]) + Advance(Happen(s, events[0]), events[1..])
  }

  /** Session ids are 32 bits wide. */
  ghost predicate Genuine(events: seq<Event>) {
    forall e :: e in events && e.Arrive? ==> IsId(e.x.si)
  }

  predicate Delivered(s: Stack, i: Index) { exists k :: 0 <= k < |s.rxMsgs| && s.rxMsgs[k].0 == i }

  /** No index twice; what came in this session is done and not live; what came in an earlier one
      lies at most `advance` behind. */
  ghost predicate Once(s: Stack, advance: nat) {
    && (forall j, k :: 0 <= j < k < |s.rxMsgs| ==> s.rxMsgs[j].0 != s.rxMsgs[k].0)
    && (s.remote.rsid == 0 ==> s.rxMsgs == [])
    && (forall e :: e in s.remote.transactions && e.1.Messengent? ==> !Delivered(s, e.0))
    && (forall i :: Delivered(s, i) ==> IsId(i.si))
    && (forall i :: Delivered(s, i) && i.si == s.remote.rsid ==> i.rf && i.ti in s.remote.done)
    && (forall i :: Delivered(s, i) && i.si != s.remote.rsid ==> 1 <= Gap(s.remote.rsid, i.si) <= advance)
  }

  // -------------------------------------------------- What leaves deliveries alone

  /** A change that keeps every transaction where it belongs, brings no Messengent, and leaves the
      remote's session and the done table alone. */
  ghost predicate Calm(r: Remote, r': Remote) {
    && Good(r') && r'.rsid == r.rsid && r'.done == r.done
    && forall e :: e in r'.transactions && e.1.Messengent? ==> e in r.transactions
  }

  lemma CalmKeeps(s: Stack, r: Remote, advance: nat)
    requires Once(s, advance) && Calm(s.remote, r)
    ensures Once(s.(remote := r), advance)
  {
    hide Good, Gap;
    var s' := s.(remote := r);
    assert forall i :: Delivered(s', i) <==> Delivered(s, i);
  }

  lemma CalmTwice(a: Remote, b: Remote, c: Remote)
    requires Calm(a, b) && Calm(b, c)
    ensures Calm(a, c)
  {
    hide Good;
  }

  lemma CalmGood(r: Remote, r': Remote)
    requires Calm(r, r')
    ensures Good(r')
  {
  }

  lemma GoneCalm(r: Remote, i: Index, joined: bool, allowed: bool)
    requires Good(r) && (allowed ==> r.sid >= 1)
    ensures Calm(r, Gone(r.(joined := joined, allowed := allowed), i))
  {
    DeleteIs(r.transactions, i);
    hide Delete, Proper;
  }

  lemma EnteredCalm(r: Remote, i: Index, t: Transaction)
    requires Good(r) && Placed((i, t), r.sid, r.rsid) && !t.Messengent?
    ensures Calm(r, Entered(r, i, t))
  {
    if Get(r.transactions, i).None? { PutIs(r.transactions, i, t); }
    hide Get, Put, Proper;
  }

  lemma RenewCalm(r: Remote)
    requires Good(r.(allowed := false))
    ensures Calm(r, NewSession(r))
  {
    OnlyJoinsStay(r.(allowed := false));
    var r0 := NewSession(r.(allowed := false));
    assert NewSession(r) == r0.(allowed := r.allowed);
    hide ReplaceInitiators, Proper;
  }

  lemma SendCalm(r: Remote, body: Bytes)
    requires Good(r)
    ensures Calm(r, SendOne(r, body))
  {
    var r1 := r.(tid := Next(r.tid));
    if r.allowed { EnteredCalm(r1, Index(false, r.sid, r1.tid), Messenger(body)); }
    hide Get;
  }

  lemma {:induction false} SavedCalm(r: Remote)
    requires Good(r)
    ensures Calm(r, SendSaved(r))
    decreases |r.messages|
  {
    if r.messages != [] {
      var r1 := r.(messages := r.messages[1..]);
      SendCalm(r1, r.messages[0]);
      hide SendOne, Good;
      SavedCalm(SendOne(r1, r.messages[0]));
    }
  }

  lemma BeginJoinCalm(r: Remote)
    requires Good(r)
    ensures Calm(r, BeginJoin(r))
  {
    var r1 := r.(tid := Next(r.tid));
    EnteredCalm(r1.(joined := false), Index(false, 0, r1.tid), Joining);
    hide Entered, JoinInProcess;
  }

  lemma BeginAllowCalm(r: Remote)
    requires Good(r)
    ensures Calm(r, BeginAllow(r))
  {
    var r1 := r.(tid := Next(r.tid), allowed := false);
    BeginJoinCalm(r1);
    EnteredCalm(r1, Index(false, r1.sid, r1.tid), Allower);
    hide Entered, BeginJoin, JoinInProcess, AllowInProcess;
  }

  lemma BeginAliveCalm(r: Remote)
    requires Good(r)
    ensures Calm(r, BeginAlive(r))
  {
    var r1 := r.(tid := Next(r.tid));
    BeginJoinCalm(r1);
    BeginAllowCalm(r1);
    EnteredCalm(r1, Index(false, r1.sid, r1.tid), Aliver);
    hide Entered, BeginJoin, BeginAllow;
  }

  lemma {:induction false} ContendCalm(items: Table, r: Remote, i: Index, lesser: bool)
    requires Good(r)
    ensures Calm(r, r.(transactions := Contend(items, r.transactions, i, lesser).1))
    decreases |items|
  {
    if items != [] {
      GoneCalm(r, items[0].0, r.joined, r.allowed);
      ContendCalm(items[1..], r, i, lesser);
      hide Good;
      ContendCalm(items[1..], Gone(r, items[0].0), i, lesser);
    }
  }

  lemma ContestCalm(r: Remote, i: Index, good: bool, lesser: bool)
    requires Good(r) && i.rf && i.si == r.rsid != 0
    ensures Calm(r, Contest(r, i, good, lesser))
  {
    ContendCalm(r.transactions, r, i, lesser);
    var r1 := r.(transactions := Contend(r.transactions, r.transactions, i, lesser).1);
    GoneCalm(r1, i, r.joined, r.allowed);
    GoneCalm(r1, i, r.joined, false);
    EnteredCalm(r1.(allowed := false), i, Allowent);
    hide Contend, Gone, Entered, Good;
  }

  lemma HelloCalm(r: Remote, i: Index, good: bool, lesser: bool)
    requires Good(r) && i.rf && i.si == r.rsid != 0
    ensures Calm(r, HelloAt(r, i, good, lesser))
  {
    GoneCalm(r, i, r.joined, r.allowed);
    assert r.(joined := r.joined, allowed := r.allowed) == r;
    var r1 := if JoinInProcess(r.transactions) then Gone(r, i) else r;
    CalmGood(r, r1);
    hide Contest, Gone, JoinInProcess, Good;
    ContestCalm(r1, i, good, lesser);
    if JoinInProcess(r.transactions) {
      CalmTwice(r, r1, HelloAt(r, i, good, lesser));
    }
  }

  lemma ReactCalm(r: Remote, i: Index, t: Transaction, x: Rx, lesser: bool)
    requires Good(r) && Get(r.transactions, i) == Some(t) && !t.Messengent?
    ensures Calm(r, React(r, i, t, x, lesser))
  {
    GetIs(r.transactions, i);
    assert Placed((i, t), r.sid, r.rsid);
    GoneCalm(r, i, r.joined, r.allowed);
    GoneCalm(r, i, r.joined, false);
    GoneCalm(r, i, false, r.allowed);
    match t {
      case Messenger(_) => hide Good, Gone;
      case Allower => AllowerCalm(r, i, x, lesser);
      case Allowent => AllowentCalm(r, i, x, lesser);
      case Aliver => AliverCalm(r, i, x, lesser);
      case _ =>
    }
  }

  /** An allow that completes at its initiator. */
  lemma AllowedCalm(r: Remote, i: Index)
    requires Good(r)
    ensures Calm(r, SendSaved(NewSession(Gone(r.(allowed := true), i))))
  {
    GoneCalm(r, i, r.joined, false);
    var r1 := Gone(r.(allowed := true), i);
    assert r1.(allowed := false) == Gone(r.(allowed := false), i);
    RenewCalm(r1);
    SavedCalm(NewSession(r1));
    hide Good, Gone, NewSession, SendSaved;
    assert Calm(r, r1.(allowed := false));
  }

  lemma AllowerCalm(r: Remote, i: Index, x: Rx, lesser: bool)
    requires Good(r)
    ensures Calm(r, React(r, i, Allower, x, lesser))
  {
    hide Gone, NewSession, SendSaved, BeginJoin, Good, Calm;
    StaysCalm(r);
    GoneCalm(r, i, r.joined, r.allowed);
    GoneCalm(r, i, r.joined, false);
    AllowedCalm(r, i);
    UnjoinedCalm(r, i);
  }

  lemma StaysCalm(r: Remote)
    requires Good(r)
    ensures Calm(r, r) && r.(joined := r.joined, allowed := r.allowed) == r
    ensures r.(joined := r.joined, allowed := false) == r.(allowed := false)
    ensures r.allowed ==> r.sid >= 1
  {
  }

  /** A handshake answered by unjoined, or an alive by unallowed. */
  lemma UnjoinedCalm(r: Remote, i: Index)
    requires Good(r)
    ensures Calm(r, BeginJoin(Gone(r.(joined := false), i)))
    ensures Calm(r, BeginAllow(Gone(r.(allowed := false), i)))
  {
    var r1, r2 := Gone(r.(joined := false), i), Gone(r.(allowed := false), i);
    GoneCalm(r, i, false, r.allowed);
    GoneCalm(r, i, r.joined, false);
    assert r.(joined := false, allowed := r.allowed) == r.(joined := false);
    assert r.(joined := r.joined, allowed := false) == r.(allowed := false);
    hide Gone, BeginJoin, BeginAllow, Good, Calm;
    CalmGood(r, r1);
    CalmGood(r, r2);
    BeginJoinCalm(r1);
    BeginAllowCalm(r2);
    CalmTwice(r, r1, BeginJoin(r1));
    CalmTwice(r, r2, BeginAllow(r2));
  }

  lemma AllowentCalm(r: Remote, i: Index, x: Rx, lesser: bool)
    requires Good(r) && i.rf && i.si == r.rsid != 0
    ensures Calm(r, React(r, i, Allowent, x, lesser))
  {
    hide Gone, NewSession, SendSaved, HelloAt, Good, Calm;
    StaysCalm(r);
    GoneCalm(r, i, r.joined, r.allowed);
    GoneCalm(r, i, r.joined, false);
    FinalCalm(r, i);
    InitiatedCalm(r);
    if x.pk.Hello? { HelloCalm(r, i, x.pk.good, lesser); }
  }

  lemma FinalCalm(r: Remote, i: Index)
    requires Good(r)
    ensures Calm(r, SendSaved(Gone(r, i)))
  {
    GoneCalm(r, i, r.joined, r.allowed);
    hide Gone, SendSaved;
    SavedCalm(Gone(r, i));
  }

  lemma InitiatedCalm(r: Remote)
    requires Good(r)
    ensures Calm(r, NewSession(r.(allowed := true)))
  {
    assert Good(r.(allowed := true).(allowed := false));
    RenewCalm(r.(allowed := true));
    hide NewSession;
  }

  lemma AliverCalm(r: Remote, i: Index, x: Rx, lesser: bool)
    requires Good(r)
    ensures Calm(r, React(r, i, Aliver, x, lesser))
  {
    hide Gone, BeginJoin, BeginAllow, Good, Calm;
    StaysCalm(r);
    GoneCalm(r, i, r.joined, r.allowed);
    UnjoinedCalm(r, i);
  }

  lemma JoinCalm(r: Remote, i: Index)
    requires Good(r)
    ensures Calm(r, JoinDone(r, i))
  {
    if r.sid == 0 {
      RenewCalm(r);
      GoneCalm(NewSession(r), i, true, r.allowed);
      hide Good, NewSession, Delete;
    } else {
      GoneCalm(r, i, true, r.allowed);
      hide Good, NewSession, Delete;
    }
  }

  /** What begins or ends here by itself. */
  lemma LocalCalm(s: Stack, e: Event)
    requires Good(s.remote) && !e.Arrive? && !e.Expire? && !e.Rejected?
    ensures Calm(s.remote, Happen(s, e).remote)
  {
    var r := s.remote;
    StaysCalm(r);
    match e {
      case End(i) => GoneCalm(r, i, r.joined, r.allowed);
      case Send(body) => SendCalm(r, body);
      case StartJoin => BeginJoinCalm(r);
      case StartAllow => BeginAllowCalm(r);
      case StartAlive => BeginAliveCalm(r);
      case AskJoin(ti) => EnteredCalm(r.(joined := false), Index(true, 0, ti), Joining);
      case Join(i) => JoinCalm(r, i);
    }
  }

  /** A rejected join leaves nothing in its place, and what was delivered. */
  lemma RejectedKeeps(s: Stack, i: Index, advance: nat)
    requires Good(s.remote) && Once(s, advance)
    ensures var s' := JoinRejected(s, i); Good(s'.remote) && Once(s', advance) && s'.remote.rsid == s.remote.rsid
  {
    hide Rejectable, Gap, Marked;
    assert forall k :: Delivered(Removed(s), k) <==> Delivered(s, k);
  }

  // -------------------------------------------------------- Messengents and packets

  /** What a step of the message protocol does at one index: a body is appended only by a
      transaction that was live or not yet done, and ends it. */
  ghost predicate Proceeds(r: M.Receiver, r': M.Receiver) {
    && |r'.rxMsgs| <= 1 && (r.done ==> r'.done)
    && (r'.rxMsgs != [] ==> r'.live.None? && r'.done && (r.live.Some? || !r.done))
    && (r'.live.Some? ==> r.live.Some? || !r.done)
  }

  lemma RespondProceeds(allowed: bool, r: M.Receiver, u: M.Request)
    requires r.rxMsgs == []
    ensures Proceeds(r, Respond(allowed, r, u).0)
  {
    hide T.Collect, M.AskMore;
  }

  lemma NudgeProceeds(r: M.Receiver)
    requires r.rxMsgs == []
    ensures Proceeds(r, M.Nudge(r).0)
  {
    hide M.AskMore;
  }

  /** An index live or not yet done has delivered nothing. */
  lemma NotYet(s: Stack, i: Index, live: Option<M.Messengent>, advance: nat)
    requires Once(s, advance) && i.si == s.remote.rsid
    requires live.Some? || i.ti !in s.remote.done
    requires live.Some? ==> (i, Messengent(live.value)) in s.remote.transactions
    ensures !Delivered(s, i)
  {
    if live.Some? { assert (i, Messengent(live.value)).1.Messengent?; }
  }

  lemma DeliveredMore(s: Stack, s': Stack, i: Index, body: Bytes)
    requires s'.rxMsgs == s.rxMsgs + [(i, body)]
    ensures forall k :: Delivered(s', k) ==> Delivered(s, k) || k == i
    ensures !Delivered(s, i) ==> forall k :: 0 <= k < |s.rxMsgs| ==> s.rxMsgs[k].0 != i
  {
    forall k | Delivered(s', k) ensures Delivered(s, k) || k == i {
      var l :| 0 <= l < |s'.rxMsgs| && s'.rxMsgs[l].0 == k;
      if l < |s.rxMsgs| { assert s.rxMsgs[l].0 == k; }
    }
    if !Delivered(s, i) {
      forall k | 0 <= k < |s.rxMsgs| ensures s.rxMsgs[k].0 != i { }
    }
  }

  lemma Appended(s: Stack, s': Stack, i: Index, body: Bytes, advance: nat)
    requires Once(s, advance) && i.rf && IsId(i.si) && i.si == s.remote.rsid && i.si != 0 && !Delivered(s, i)
    requires s'.rxMsgs == s.rxMsgs + [(i, body)] && s'.remote.rsid == s.remote.rsid
    requires s'.remote.done == s.remote.done + {i.ti}
    requires forall e :: e in s'.remote.transactions ==> e in s.remote.transactions && e.0 != i
    ensures Once(s', advance)
  {
    hide Gap;
    DeliveredMore(s, s', i, body);
  }

  /** Nothing appended: the table has at most this Messengent more. */
  lemma Unappended(s: Stack, s': Stack, i: Index, advance: nat)
    requires Once(s, advance)
    requires s'.rxMsgs == s.rxMsgs && s'.remote.rsid == s.remote.rsid && s.remote.done <= s'.remote.done
    requires forall e :: e in s'.remote.transactions ==> e in s.remote.transactions || (e.0 == i && !Delivered(s, i))
    ensures Once(s', advance)
  {
    hide Gap;
    assert forall k :: Delivered(s', k) <==> Delivered(s, k);
  }

  lemma SettleGood(s: Stack, i: Index, r: M.Receiver)
    requires Good(s.remote) && i.rf && i.si == s.remote.rsid && i.si != 0
    ensures var table := Settle(s, i, r).remote.transactions;
            && Good(Settle(s, i, r).remote)
            && (forall e :: e in table ==> e in s.remote.transactions || (r.live.Some? && e.0 == i))
            && (r.live.None? ==> forall e :: e in table ==> e.0 != i)
  {
    if r.live.Some? {
      PutIs(s.remote.transactions, i, Messengent(r.live.value));
      assert Placed((i, Messengent(r.live.value)), s.remote.sid, s.remote.rsid);
    } else {
      DeleteIs(s.remote.transactions, i);
    }
    hide Put, Delete, Proper, Placed;
  }

  lemma SettleKeeps(s: Stack, i: Index, live: Option<M.Messengent>, r: M.Receiver, advance: nat)
    requires Good(s.remote) && Once(s, advance) && i.rf && i.si == s.remote.rsid && i.si != 0
    requires live.Some? ==> (i, Messengent(live.value)) in s.remote.transactions
    requires Proceeds(Seen(s, i, live), r)
    ensures Good(Settle(s, i, r).remote) && Once(Settle(s, i, r), advance)
    ensures Settle(s, i, r).remote.rsid == s.remote.rsid
  {
    SettleGood(s, i, r);
    hide Once, Good, Put, Delete;
    if r.live.Some? || r.rxMsgs != [] {
      NotYet(s, i, live, advance);
    }
    var s' := Settle(s, i, r);
    if r.rxMsgs == [] {
      assert s'.rxMsgs == s.rxMsgs;
      Unappended(s, s', i, advance);
    } else {
      Appended(s, s', i, r.rxMsgs[0], advance);
    }
  }

  lemma HandleKeeps(s: Stack, i: Index, live: Option<M.Messengent>, u: M.Request, advance: nat)
    requires Good(s.remote) && Once(s, advance) && i.rf && i.si == s.remote.rsid && i.si != 0
    requires live.Some? ==> (i, Messengent(live.value)) in s.remote.transactions
    ensures var s' := Handle(s, i, live, u).0;
            Good(s'.remote) && Once(s', advance) && s'.remote.rsid == s.remote.rsid
  {
    hide Good, Once, Respond, Settle, Proceeds;
    RespondProceeds(s.remote.allowed, Seen(s, i, live), u);
    SettleKeeps(s, i, live, Respond(s.remote.allowed, Seen(s, i, live), u).0, advance);
  }

  lemma ReceiveKeeps(s: Stack, i: Index, t: Transaction, x: Rx, advance: nat)
    requires Good(s.remote) && Once(s, advance) && Get(s.remote.transactions, i) == Some(t)
    ensures var s' := Receive(s, i, t, x).0;
            Good(s'.remote) && Once(s', advance) && s'.remote.rsid == s.remote.rsid
  {
    GetIs(s.remote.transactions, i);
    assert Placed((i, t), s.remote.sid, s.remote.rsid);
    hide Once, Handle, React;
    if t.Messengent? {
      if x.tk.Message? && x.pk.Segment? {
        HandleKeeps(s, i, Some(t.m), M.Seg(x.pk.packet), advance);
      } else if x.tk.Message? && x.pk.Nack? {
        HandleKeeps(s, i, Some(t.m), M.StaleNack, advance);
      }
    } else {
      ReactCalm(s.remote, i, t, x, s.lesser);
      CalmKeeps(s, React(s.remote, i, t, x, s.lesser), advance);
    }
  }

  lemma CorrespondKeeps(s: Stack, i: Index, x: Rx, advance: nat)
    requires Good(s.remote) && Once(s, advance) && i.rf && i.si == s.remote.rsid && i.si != 0
    ensures var s' := Correspond(s, i, x).0;
            Good(s'.remote) && Once(s', advance) && s'.remote.rsid == s.remote.rsid
  {
    hide Good, Once, Handle, HelloAt;
    if x.tk.Allow? && x.pk.Hello? {
      HelloCalm(s.remote, i, x.pk.good, s.lesser);
      CalmKeeps(s, HelloAt(s.remote, i, x.pk.good, s.lesser), advance);
    } else if x.tk.Message? && x.pk.Segment? {
      HandleKeeps(s, i, None, M.Seg(x.pk.packet), advance);
    }
  }

  // ---------------------------------------------------------------- Session changes

  /** The gaps of successive sessions add up. */
  lemma GapsAdd(c: nat, b: nat, a: nat)
    requires IsId(a) && IsId(b) && IsId(c) && Gap(c, b) + Gap(b, a) < SID_WRAP_MODULO
    ensures Gap(c, a) == Gap(c, b) + Gap(b, a)
  {
    Wraps(c - b);
    Wraps(b - a);
    Wraps(c - a);
  }

  lemma OldIsStale(now: nat, was: nat)
    requires IsId(now) && IsId(was) && now != was && now != 0 && ValidSid(now, was)
    ensures was != 0 ==> !ValidSid(was, now) && Gap(now, was) >= 1
  {
    Wraps(was as int - now as int);
    Wraps(now as int - was as int);
  }

  /** A new session drops every correspondent but joins. */
  lemma AdmitGood(r: Remote, x: Rx)
    requires Good(r) && !x.cf && x.si != 0 && IsId(x.si) && x.si != r.rsid && ValidSid(x.si, r.rsid)
    ensures Good(Admit(r, x))
    ensures forall e :: e in Admit(r, x).transactions ==> e in r.transactions && !e.1.Messengent? && !e.1.Allowent?
  {
    StayIs(r.transactions, true, x.si);
    OldIsStale(x.si, r.rsid);
    hide Stay, Proper, ValidSid;
  }

  /** A new session drops every Messengent, and what came in the old one is now behind it. */
  lemma AdmitKeeps(s: Stack, x: Rx, advance: nat)
    requires Good(s.remote) && Once(s, advance) && !x.cf && x.si != 0 && IsId(x.si) && x.si != s.remote.rsid
    requires ValidSid(x.si, s.remote.rsid)
    requires s.remote.rsid != 0 ==> advance + Gap(x.si, s.remote.rsid) < SID_WRAP_MODULO
    ensures var s' := s.(remote := Admit(s.remote, x));
            && Good(s'.remote)
            && Once(s', advance + if s.remote.rsid == 0 then 0 else Gap(x.si, s.remote.rsid))
  {
    var was, now := s.remote.rsid, x.si;
    var s' := s.(remote := Admit(s.remote, x));
    AdmitGood(s.remote, x);
    OldIsStale(now, was);
    hide Good, Admit, ValidSid;
    assert forall i :: Delivered(s', i) <==> Delivered(s, i);
    forall i | Delivered(s, i)
      ensures was != 0 && i.si != now && 1 <= Gap(now, i.si) <= advance + Gap(now, was)
    {
      if i.si != was { GapsAdd(now, was, i.si); }
    }
    assert s'.remote.rsid == now by { RsidOf(s.remote, x); }
  }

  lemma RsidOf(r: Remote, x: Rx)
    requires !x.cf
    ensures Admit(r, x).rsid == x.si
  {
  }

  lemma RsidAfter(s: Stack, x: Rx)
    requires Good(s.remote) && !s.gone && IsId(x.si) && x.si != 0 && (x.cf || ValidSid(x.si, s.remote.rsid))
    ensures Process(s, x).0.remote.rsid == if x.cf then s.remote.rsid else x.si
  {
    var i := Index(!x.cf, x.si, x.ti);
    if !x.cf && x.si != s.remote.rsid { AdmitGood(s.remote, x); }
    var s1 := s.(remote := Admit(s.remote, x));
    hide ValidSid, Receive, Correspond, Good;
    match Get(s1.remote.transactions, i)
    case Some(t) => RsidReceived(s1, i, t, x);
    case None => if !x.cf { RsidCorresponded(s1, i, x); }
  }

  lemma RsidReceived(s: Stack, i: Index, t: Transaction, x: Rx)
    requires Good(s.remote) && Get(s.remote.transactions, i) == Some(t)
    ensures Receive(s, i, t, x).0.remote.rsid == s.remote.rsid
  {
    hide Respond, React;
    if !t.Messengent? { ReactCalm(s.remote, i, t, x, s.lesser); }
  }

  lemma RsidCorresponded(s: Stack, i: Index, x: Rx)
    requires Good(s.remote) && i.rf && i.si == s.remote.rsid != 0
    ensures Correspond(s, i, x).0.remote.rsid == s.remote.rsid
  {
    hide Respond, HelloAt;
    if x.pk.Hello? { HelloCalm(s.remote, i, x.pk.good, s.lesser); }
  }

  lemma SameGap(n: nat)
    ensures Gap(n, n) == 0
  {
  }

  lemma ProcessKeeps(s: Stack, x: Rx, advance: nat)
    requires Good(s.remote) && Once(s, advance) && IsId(x.si)
    requires advance + Moved(s, Arrive(x)) < SID_WRAP_MODULO
    ensures var s' := Process(s, x).0; Good(s'.remote) && Once(s', advance + Moved(s, Arrive(x)))
  {
    hide Good, Once, Receive, Correspond, Gap, ValidSid, DropCorrespondents;
    var i := Index(!x.cf, x.si, x.ti);
    SameGap(s.remote.rsid);
    if x.si != 0 && !s.gone && (x.cf || ValidSid(x.si, s.remote.rsid)) {
      var s1 := s.(remote := Admit(s.remote, x));
      var moved := if x.cf || s.remote.rsid == 0 then 0 else Gap(x.si, s.remote.rsid);
      RsidAfter(s, x);
      assert Moved(s, Arrive(x)) == moved;
      if !x.cf && x.si != s.remote.rsid {
        AdmitKeeps(s, x, advance);
        RsidOf(s.remote, x);
      }
      match Get(s1.remote.transactions, i)
      case Some(t) => ReceiveKeeps(s1, i, t, x, advance + moved);
      case None => if !x.cf { CorrespondKeeps(s1, i, x, advance + moved); }
    }
  }

  lemma RedoKeeps(s: Stack, i: Index, advance: nat)
    requires Good(s.remote) && Once(s, advance)
    ensures var s' := Redo(s, i).0; Good(s'.remote) && Once(s', advance) && s'.remote.rsid == s.remote.rsid
  {
    var t: Option<Transaction> := Get(s.remote.transactions, i);
    GetIs(s.remote.transactions, i);
    assert t.Some? ==> Placed((i, t.value), s.remote.sid, s.remote.rsid);
    hide Once, M.Nudge, Settle;
    match t
    case Some(Messengent(m)) =>
      NudgeProceeds(Seen(s, i, Some(m)));
      SettleKeeps(s, i, Some(m), M.Nudge(Seen(s, i, Some(m))).0, advance);
    case _ =>
  }

  lemma HappenKeeps(s: Stack, e: Event, advance: nat)
    requires Good(s.remote) && Once(s, advance) && (e.Arrive? ==> IsId(e.x.si))
    requires advance + Moved(s, e) < SID_WRAP_MODULO
    ensures Good(Happen(s, e).remote) && Once(Happen(s, e), advance + Moved(s, e))
  {
    if e.Arrive? {
      hide Good, Once, Process;
      ProcessKeeps(s, e.x, advance);
    } else if e.Expire? {
      hide Good, Once, Redo;
      RedoKeeps(s, e.index, advance);
      SameGap(s.remote.rsid);
    } else if e.Rejected? {
      hide Good, Once, JoinRejected;
      RejectedKeeps(s, e.index, advance);
      SameGap(s.remote.rsid);
    } else {
      LocalCalm(s, e);
      SameGap(s.remote.rsid);
      assert Happen(s, e) == s.(remote := Happen(s, e).remote);
      hide Good, Once, Happen;
      CalmKeeps(s, Happen(s, e).remote, advance);
    }
  }

  lemma {:induction false} RunKeeps(s: Stack, events: seq<Event>, advance: nat)
    requires Good(s.remote) && Once(s, advance) && Genuine(events)
    requires advance + Advance(s, events) < SID_WRAP_MODULO
    ensures Good(Run(s, events).remote) && Once(Run(s, events), advance + Advance(s, events))
    decreases |events|
  {
    hide Good, Once, Happen, Moved;
    if events != [] {
      assert events[0] in events;
      HappenKeeps(s, events[0], advance);
      RunKeeps(Happen(s, events[0]), events[1..], advance + Moved(s, events[0]));
    }
  }

  // ----------------------------------------------------------------- Main results

  /** At most once across sessions. Whatever packets come, genuine or not, in whatever order, and
      although every session change clears the done table: until rsid has gone all the way round,
      no (session, transaction) is delivered twice, and every transaction the remote initiated is
      a join or of its present session. */
  lemma AtMostOnce(s: Stack, events: seq<Event>)
    requires Good(s.remote) && s.rxMsgs == [] && Genuine(events) && Advance(s, events) < SID_WRAP_MODULO
    ensures var s' := Run(s, events);
            && (forall j, k :: 0 <= j < k < |s'.rxMsgs| ==> s'.rxMsgs[j].0 != s'.rxMsgs[k].0)
            && (forall e :: e in s'.remote.transactions && e.0.rf && !e.1.Joining? ==> e.0.si == s'.remote.rsid)
            && (forall e :: e in s'.remote.transactions && e.1.Joining? ==> e.0.si == 0)
  {
    hide Run, Advance;
    RunKeeps(s, events, 0);
    hide Gap, Proper;
  }

  /** Exactly which packets the session check refuses: those of sessions 1 to 2^31 behind. They
      change nothing; any other packet the remote initiates brings its own session. */
  lemma RefusedExactly(s: Stack, x: Rx)
    requires Good(s.remote) && !s.gone && !x.cf && IsId(x.si) && x.si != 0
    ensures var behind := s.remote.rsid != 0 && 1 <= Gap(s.remote.rsid, x.si) <= SID_WRAP_DELTA;
            && (behind ==> Process(s, x) == (s, if IsNack(x.pk) then [] else [Answer(Index(true, x.si, x.ti), M.Nack)]))
            && (!behind ==> Process(s, x).0.remote.rsid == x.si)
  {
    Wraps(s.remote.rsid as int - x.si as int);
    Wraps(x.si as int - s.remote.rsid as int);
    if ValidSid(x.si, s.remote.rsid) { RsidAfter(s, x); }
    hide Receive, Correspond, Good;
  }

  lemma RsidMoves(s: Stack, e: Event)
    requires Good(s.remote) && (e.Arrive? ==> IsId(e.x.si)) && s.remote.rsid != 0
    ensures var now := Happen(s, e).remote.rsid;
            && now != 0 && IsId(now) && (now == s.remote.rsid || Moved(s, e) >= 1)
  {
    var was := s.remote.rsid;
    match e {
      case Arrive(x) =>
        if x.si != 0 && !s.gone && (x.cf || ValidSid(x.si, was)) { RsidAfter(s, x); }
        hide Receive, Correspond, Good, Admit;
        if !x.cf { Wraps(x.si as int - was as int); }
      case Expire(i) => hide M.Nudge;
      case Rejected(i) =>
      case _ => LocalCalm(s, e);
    }
  }

  /** A session id of the remote, `adv` behind at most, stays behind by what is moved at most. */
  lemma {:induction false} StaysBehind(s: Stack, events: seq<Event>, p: nat, adv: nat, advance: nat)
    requires Good(s.remote) && Once(s, advance) && Genuine(events)
    requires advance + Advance(s, events) < SID_WRAP_MODULO && adv + Advance(s, events) < SID_WRAP_MODULO
    requires IsId(p) && s.remote.rsid != 0 && (p == s.remote.rsid || 1 <= Gap(s.remote.rsid, p) <= adv)
    ensures var r := Run(s, events).remote.rsid;
            && r != 0 && IsId(r) && (p == r || 1 <= Gap(r, p) <= adv + Advance(s, events))
    decreases |events|
  {
    if events != [] {
      var e, was := events[0], s.remote.rsid;
      assert e in events;
      HappenKeeps(s, e, advance);
      RsidMoves(s, e);
      var s1, moved := Happen(s, e), Moved(s, e);
      SameGap(was);
      if p != was && s1.remote.rsid != was { GapsAdd(s1.remote.rsid, was, p); }
      hide Good, Once, Happen;
      StaysBehind(s1, events[1..], p, adv + moved, advance + moved);
    }
  }

  lemma {:induction false} RunSplits(s: Stack, a: seq<Event>, b: seq<Event>)
    ensures Run(s, a + b) == Run(Run(s, a), b)
    ensures Advance(s, a + b) == Advance(s, a) + Advance(Run(s, a), b)
    decreases |a|
  {
    hide Happen, Moved;
    if a == [] {
      assert a + b == b;
    } else {
      assert (a + b)[1..] == a[1..] + b;
      RunSplits(Happen(s, a[0]), a[1..], b);
    }
  }

  /** The session id never goes round by old packets: while it has moved by at most 2^31 in all,
      every packet of a session the remote has used before and left is refused, whatever it is,
      and changes nothing. (Once the remote is removed, there is no answer either.) */
  lemma OldSessionRefused(s: Stack, before: seq<Event>, later: seq<Event>, x: Rx)
    requires Good(s.remote) && s.rxMsgs == [] && Genuine(before + later)
    requires Advance(s, before + later) <= SID_WRAP_DELTA
    requires var (was, now) := (Run(s, before).remote.rsid, Run(s, before + later).remote.rsid);
             !x.cf && x.si == was && was != 0 && was != now
    ensures var s' := Run(s, before + later);
            Process(s', x) == (s', if s'.gone || IsNack(x.pk) then [] else [Answer(Index(true, x.si, x.ti), M.Nack)])
  {
    GoneSilent(Run(s, before + later), x);
    hide Once, Run, Advance, Process, Good, Genuine;
    RunSplits(s, before, later);
    var mid := Run(s, before);
    GenuineParts(before, later);
    Once0(s);
    RunKeeps(s, before, 0);
    RunKeeps(s, before + later, 0);
    SameGap(mid.remote.rsid);
    GoodIds(mid.remote);
    StaysBehind(mid, later, mid.remote.rsid, 0, Advance(s, before));
    if !Run(s, before + later).gone {
      RefusedExactly(Run(s, before + later), x);
    }
  }

  lemma GoneSilent(s: Stack, x: Rx)
    ensures s.gone ==> Process(s, x) == (s, [])
  {
  }

  lemma GenuineParts(a: seq<Event>, b: seq<Event>)
    requires Genuine(a + b)
    ensures Genuine(a) && Genuine(b)
  {
    assert forall e :: e in a ==> e in a + b;
    assert forall e :: e in b ==> e in a + b;
  }

  lemma Once0(s: Stack)
    requires s.rxMsgs == []
    ensures Once(s, 0)
  {
  }

  lemma GoodIds(r: Remote)
    requires Good(r)
    ensures IsId(r.rsid)
  {
  }

  /** A message of one segment. */
  function Single(si: nat, ti: nat): Rx {
    Rx(false, Message, si, ti, Segment(T.Packet(0, 1, 0, "", false, false)))
  }

  lemma SingleDelivers(s: Stack, si: nat, ti: nat)
    requires s.remote.transactions == [] && s.remote.allowed && !s.gone
    requires si != 0 && si != s.remote.rsid && ValidSid(si, s.remote.rsid)
    ensures Process(s, Single(si, ti)).0
            == s.(remote := s.remote.(rsid := si, done := {ti}), rxMsgs := s.rxMsgs + [(Index(true, si, ti), "")])
  {
    hide ValidSid;
    var r := Admit(s.remote, Single(si, ti));
    assert r.transactions == [] && r.done == {};
    var i := Index(true, si, ti);
    var seen := M.Receiver(None, false, []);
    assert M.Take(seen, M.Seg(T.Packet(0, 1, 0, "", false, false))).0 == M.Receiver(None, true, [""]);
    assert Tagged(i, [""]) == [(i, "")];
  }

  lemma ThreeEvents(s: Stack, e1: Event, e2: Event, e3: Event)
    ensures var s1 := Happen(s, e1);
            && Run(s, [e1, e2, e3]) == Happen(Happen(s1, e2), e3)
            && Advance(s, [e1, e2, e3]) == Moved(s, e1) + Moved(s1, e2) + Moved(Happen(s1, e2), e3)
  {
    hide Happen, Moved;
    assert [e1, e2, e3][1..] == [e2, e3] && [e2, e3][1..] == [e3] && [e3][1..] == [];
    var s1 := Happen(s, e1);
    var s2 := Happen(s1, e2);
    assert Run(s1, [e2, e3]) == Run(s2, [e3]) == Run(Happen(s2, e3), []);
    assert Advance(s2, [e3]) == Moved(s2, e3) + Advance(Happen(s2, e3), []);
    assert Advance(s1, [e2, e3]) == Moved(s1, e2) + Advance(s2, [e3]);
  }

  lemma FirstGood()
    ensures Good(Remote(1, 0, 0, [], {}, [], true, true))
  {
  }

  /** Both bounds are sharp. After rsid has moved by 2^31 + 1, in two steps, a message of the
      first session is taken as new and delivered again; rsid has then gone round once. */
  lemma BoundsAreSharp()
    ensures var s := Stack(Remote(1, 0, 0, [], {}, [], true, true), false, [], false);
            var events := [Arrive(Single(1, 7)), Arrive(Single(0x8000_0000, 7)), Arrive(Single(0x8000_0002, 7))];
            var again := Arrive(Single(1, 7));
            && Good(s.remote) && Genuine(events) && Advance(s, events) == SID_WRAP_DELTA + 1
            && Moved(Run(s, events), again) == SID_WRAP_DELTA - 1
            && var rxMsgs := Happen(Run(s, events), again).rxMsgs;
               |rxMsgs| == 4 && rxMsgs[0] == rxMsgs[3] == (Index(true, 1, 7), "")
  {
    var s0 := Stack(Remote(1, 0, 0, [], {}, [], true, true), false, [], false);
    SingleDelivers(s0, 1, 7);
    var s1 := Happen(s0, Arrive(Single(1, 7)));
    SingleDelivers(s1, 0x8000_0000, 7);
    var s2 := Happen(s1, Arrive(Single(0x8000_0000, 7)));
    SingleDelivers(s2, 0x8000_0002, 7);
    var s3 := Happen(s2, Arrive(Single(0x8000_0002, 7)));
    SingleDelivers(s3, 1, 7);
    FirstGood();
    hide Process, Good;
    var e1, e2, e3 := Arrive(Single(1, 7)), Arrive(Single(0x8000_0000, 7)), Arrive(Single(0x8000_0002, 7));
    assert Happen(s0, e1) == s1 && Happen(s1, e2) == s2 && Happen(s2, e3) == s3;
    ThreeEvents(s0, e1, e2, e3);
  }
}
