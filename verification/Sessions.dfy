/** Sessions: how a stack takes a packet from a known remote, raet/road/stacking.py, processRx and
    correspond, and what the transactions of every kind but joins do with it. */
module Sessions {
  import opened Basics
  import opened Odicts
  import opened Lotting
  import opened Estating
  import M = Messaging
  import T = Traying

  datatype TrnsKind = Message | Allow | Alive

  /** The packet kinds that matter to some transaction. `more` says of an ack that the Messenger's
      next burst is due, which is Messaging.GoesOn of its sender. `good` says that the contents of a
      handshake packet pass their checks. */
  datatype PcktKind =
    | Segment(packet: T.Packet) | Ack(more: bool) | Done
    | Nack | Refuse | Reject | Renew | Unjoined | Unallowed
    | Hello(good: bool) | Cookie(good: bool) | Initiate(good: bool)
    | Plain

  /** A packet from the remote. `cf` says it comes from its correspondent, so that the transaction
      is ours. */
  datatype Rx = Rx(cf: bool, tk: TrnsKind, si: nat, ti: nat, pk: PcktKind)

  /** A stack and one remote. `lesser` says that the local name is less than the remote's, rxMsgs
      remembers the index each body came under, and `gone` says that the remote was removed. */
  datatype Stack = Stack(remote: Remote, lesser: bool, rxMsgs: seq<(Index, Bytes)>, gone: bool)

  datatype Answer = Answer(index: Index, reply: M.Reply)

  function Answers(i: Index, sent: seq<M.Reply>): (r: seq<Answer>)
    ensures |r| == |sent|
  {
    seq(|sent|, k requires 0 <= k < |sent| => Answer(i, sent[k]))
  }

  function Tagged(i: Index, bodies: seq<Bytes>): (r: seq<(Index, Bytes)>)
    ensures |r| == |bodies| && forall k :: 0 <= k < |r| ==> r[k] == (i, bodies[k])
  {
    seq(|bodies|, k requires 0 <= k < |bodies| => (i, bodies[k]))
  }

  // ----------------------------------------------------------- Message segments

  /** The Messengent of an index as the message protocol sees it. */
  function Seen(s: Stack, i: Index, live: Option<M.Messengent>): M.Receiver {
    M.Receiver(live, i.ti in s.remote.done, [])
  }

  /** Table, done ids and rxMsgs after a step of the message protocol at index i. */
  function Settle(s: Stack, i: Index, r: M.Receiver): Stack {
    var table := s.remote.transactions;
    s.(remote := s.remote.(
         transactions := if r.live.Some? then Put(table, i, Messengent(r.live.value)) else Delete(table, i),
         done := if r.done then s.remote.done + {i.ti} else s.remote.done),
       rxMsgs := s.rxMsgs + Tagged(i, r.rxMsgs))
  }

  /** What a request does to the message protocol at one index. While the remote is not allowed a
      Messengent, old or new, nacks and ends; again and done messages are nacked before that. */
  function Respond(allowed: bool, r: M.Receiver, u: M.Request): (M.Receiver, seq<M.Reply>) {
    if u.Seg? && !allowed && (r.live.Some? || !(u.packet.af || r.done))
    then (r.(live := None, done := true), [M.Nack])
    else M.Take(r, u)
  }

  function Handle(s: Stack, i: Index, live: Option<M.Messengent>, u: M.Request): (Stack, seq<Answer>) {
    var (r, sent) := Respond(s.remote.allowed, Seen(s, i, live), u);
    (Settle(s, i, r), Answers(i, sent))
  }

  // ------------------------------------------------------------ The allow handshake

  datatype Race = Duplicate | Refused | Proceed

  /** A hello against the allows in process, `items`: the table without those of ours that give way. */
  function Contend(items: Table, d: Table, i: Index, lesser: bool): (Race, Table)
    decreases |items|
  {
    if items == [] then (Proceed, d)
    else
      var (j, t) := items[0];
      if !t.Allower? && !t.Allowent? then Contend(items[1..], d, i, lesser)
      else if j == i then (Duplicate, d)
      else if j.rf || lesser then (Refused, d)
      else Contend(items[1..], Delete(d, j), i, lesser)
  }

  /** Allowent.hello past its check of joins. */
  function Contest(r: Remote, i: Index, good: bool, lesser: bool): Remote {
    var (race, table) := Contend(r.transactions, r.transactions, i, lesser);
    var r := r.(transactions := table);
    match race
    case Duplicate => r
    case Refused => Gone(r, i)
    case Proceed =>
      var r := r.(allowed := false);
      if r.joined && good then Entered(r, i, Allowent) else Gone(r, i)
  }

  /** Allowent.hello. While a join is in process it is nacked, but the source goes on. */
  function HelloAt(r: Remote, i: Index, good: bool, lesser: bool): Remote {
    Contest(if JoinInProcess(r.transactions) then Gone(r, i) else r, i, good, lesser)
  }

  /** What a transaction that is not a Messengent does with a packet, but for what it sends. */
  function React(r: Remote, i: Index, t: Transaction, x: Rx, lesser: bool): Remote {
    match t
    case Messenger(_) =>
      if x.tk.Message? && (x.pk.Done? || x.pk.Nack? || (x.pk.Ack? && x.pk.more && !r.allowed)) then Gone(r, i)
      else r
    case Allower =>
      if !x.tk.Allow? then r
      else
        (match x.pk
         case Cookie(good) => if good then r else Gone(r, i)
         case Ack(_) => SendSaved(NewSession(Gone(r.(allowed := true), i)))
         case Nack => Gone(r, i)
         case Refuse => Gone(r, i)
         case Reject => Gone(r.(allowed := false), i)
         case Unjoined => BeginJoin(Gone(r.(joined := false), i))
         case _ => r)
    case Allowent =>
      if !x.tk.Allow? then r
      else
        (match x.pk
         case Hello(good) => HelloAt(r, i, good, lesser)
         case Initiate(good) => if good then NewSession(r.(allowed := true)) else Gone(r, i)
         case Ack(_) => SendSaved(Gone(r, i))
         case Nack => Gone(r, i)
         case Refuse => Gone(r, i)
         case Reject => Gone(r.(allowed := false), i)
         case _ => r)
    case Aliver =>
      if !x.tk.Alive? then r
      else
        (match x.pk
         case Ack(_) => Gone(r, i)
         case Nack => Gone(r, i)
         case Refuse => Gone(r, i)
         case Reject => Gone(r, i)
         case Unjoined => BeginJoin(Gone(r.(joined := false), i))
         case Unallowed => BeginAllow(Gone(r.(allowed := false), i))
         case _ => r)
    case _ => r
  }

  // ----------------------------------------------------------------- The dispatch

  /** trans.receive */
  function Receive(s: Stack, i: Index, t: Transaction, x: Rx): (Stack, seq<Answer>) {
    match t
    case Messengent(m) =>
      if x.tk.Message? && x.pk.Segment? then Handle(s, i, Some(m), M.Seg(x.pk.packet))
      else if x.tk.Message? && x.pk.Nack? then Handle(s, i, Some(m), M.StaleNack)
      else (s, [])
    case _ => (s.(remote := React(s.remote, i, t, x, s.lesser)), [])
  }

  /** correspond. An Alivent leaves nothing behind. */
  function Correspond(s: Stack, i: Index, x: Rx): (Stack, seq<Answer>) {
    if x.tk.Allow? && x.pk.Hello? then (s.(remote := HelloAt(s.remote, i, x.pk.good, s.lesser)), [])
    else if x.tk.Message? && x.pk.Segment? then Handle(s, i, None, M.Seg(x.pk.packet))
    else (s, [])
  }

  /** The remote after the session check: a new valid session id drops what is of older ones. */
  function Admit(r: Remote, x: Rx): Remote {
    if !x.cf && x.si != r.rsid then DropCorrespondents(r.(rsid := x.si)) else r
  }

  predicate IsNack(k: PcktKind) { k.Nack? || k.Refuse? || k.Reject? || k.Unjoined? || k.Unallowed? }

  /** Stale packets that are not nacked: a renew only if it comes from a correspondent. */
  predicate Unanswered(x: Rx) { IsNack(x.pk) || (x.cf && x.pk.Renew?) }

  /** processRx. Session 0 is dropped, and so is a packet for a removed remote; an old session is
      refused with a stale nack. */
  function Process(s: Stack, x: Rx): (Stack, seq<Answer>) {
    var i := Index(!x.cf, x.si, x.ti);
    var stale := if Unanswered(x) then [] else [Answer(i, M.Nack)];
    if x.si == 0 || s.gone then (s, [])
    else if !x.cf && !ValidSid(x.si, s.remote.rsid) then (s, stale)
    else
      var s := s.(remote := Admit(s.remote, x));
      match Get(s.remote.transactions, i)
      case Some(t) => Receive(s, i, t, x)
      case None => if x.cf then (s, stale) else Correspond(s, i, x)
  }

  /** A Messengent's redo timer expires. */
  function Redo(s: Stack, i: Index): (Stack, seq<Answer>) {
    var t: Option<Transaction> := Get(s.remote.transactions, i);
    match t
    case Some(Messengent(m)) =>
      var (r, sent) := M.Nudge(Seen(s, i, Some(m)));
      (Settle(s, i, r), Answers(i, sent))
    case _ => (s, [])
  }

  /** completify and complete: a join gives a session if there is none. */
  function JoinDone(r: Remote, i: Index): Remote {
    if Get(r.transactions, i) != Some(Joining) then r
    else Gone((if r.sid == 0 then NewSession(r) else r).(joined := true), i)
  }

  /** A Joinent is entered, in session 0. */
  function JoinAsked(r: Remote, ti: nat): Remote {
    var i := Index(true, 0, ti);
    if Get(r.transactions, i).None? then Entered(r.(joined := false), i, Joining) else r
  }

  /** A handshake, join or alive transaction that ends by itself: it timed out, gave way or was refused. */
  function Lapse(r: Remote, i: Index): Remote {
    var t: Option<Transaction> := Get(r.transactions, i);
    if t.Some? && !t.value.Messengent? && !t.value.Messenger? then Gone(r, i) else r
  }

  // ------------------------------------------------------------ A rejected join

  /** The Messengents among the transactions, whose nacks mark their ids done. */
  function Marked(d: Table): set<nat> { set e | e in d && e.1.Messengent? :: e.0.ti }

  /** removeRemote: every transaction is nacked, and what the remote object still holds is out of
      reach, saved messages too. */
  function Removed(s: Stack): Stack {
    var r := s.remote;
    s.(remote := r.(transactions := [], done := r.done + Marked(r.transactions), messages := []), gone := true)
  }

  /** A join in process, or the request for one while no other of the remote's is. */
  predicate Rejectable(r: Remote, i: Index) {
    || Get(r.transactions, i) == Some(Joining)
    || (i.rf && i.si == 0 && forall k :: 0 <= k < |r.transactions| ==>
          !(r.transactions[k].1.Joining? && r.transactions[k].0.rf))
  }

  /** A join whose keys are rejected, by either side: the remote goes. */
  function JoinRejected(s: Stack, i: Index): Stack { if Rejectable(s.remote, i) then Removed(s) else s }

  /** The transactions whose nack does something. */
  function Nackable(d: Table): Table {
    if d == [] then [] else (if d[0].1.Aliver? then [] else [d[0]]) + Nackable(d[1..])
  }

  lemma NackableCons(e: (Index, Transaction), d: Table)
    ensures Nackable([e] + d) == (if e.1.Aliver? then [] else [e]) + Nackable(d)
  {
    assert ([e] + d)[1..] == d;
  }

  lemma {:induction false} NackableAppend(d: Table, e: (Index, Transaction))
    ensures Nackable(d + [e]) == Nackable(d) + if e.1.Aliver? then [] else [e]
  {
    if d == [] {
      assert d + [e] == [e] + [];
      NackableCons(e, []);
      assert Nackable([]) == [];
    } else {
      assert d + [e] == [d[0]] + (d[1..] + [e]) && d == [d[0]] + d[1..];
      NackableCons(d[0], d[1..] + [e]);
      NackableCons(d[0], d[1..]);
      NackableAppend(d[1..], e);
      hide Nackable;
    }
  }

  lemma MarkedNone()
    ensures Marked([]) == {} && Keys<Index, Transaction>(Nackable([])) == []
  {
  }

  lemma MarkedMore(items: Table, k: nat)
    requires k < |items|
    ensures Marked(items[..k + 1]) == Marked(items[..k]) + if items[k].1.Messengent? then {items[k].0.ti} else {}
    ensures Keys(Nackable(items[..k + 1]))
            == Keys(Nackable(items[..k])) + if items[k].1.Aliver? then [] else [items[k].0]
    ensures items[..0] == []
  {
    assert items[..k + 1] == items[..k] + [items[k]];
    NackableAppend(items[..k], items[k]);
    hide Nackable;
  }

  lemma MarkedWithout(d: Table, i: Index)
    requires Proper(d) && Get(d, i) == Some(Joining)
    ensures Marked(Delete(d, i)) == Marked(d)
  {
    GetIs(d, i);
    DeleteIs(d, i);
    hide Get, Delete;
  }

  // ------------------------------------------------------------------- The stack

  class RoadStack {
    const remote: RemoteEstate
    const lesser: bool
    var rxMsgs: seq<(Index, Bytes)>
    var gone: bool         // the remote is no longer among the stack's remotes
    var txes: seq<Answer>  // message replies and stale nacks

    ghost function View(): Stack
      reads this, remote
    {
      var r := remote.View();
      Stack(if gone then r.(transactions := [], messages := []) else r, lesser, rxMsgs, gone)
    }

    constructor (remote: RemoteEstate, lesser: bool)
      ensures this.remote == remote && this.lesser == lesser && rxMsgs == [] && !gone && txes == []
    {
      this.remote, this.lesser, rxMsgs, gone, txes := remote, lesser, [], false, [];
    }

    method ProcessRx(x: Rx)
      requires Proper(remote.transactions)
      modifies this, remote
      ensures Proper(remote.transactions)
      ensures var r := Process(old(View()), x); View() == r.0 && txes == old(txes) + r.1
    {
      hide ValidSid, Receive, Correspond, DropCorrespondents;
      if x.si == 0 || gone {
        return;
      }
      var i := Index(!x.cf, x.si, x.ti);
      if !x.cf {
        if !ValidSid(x.si, remote.rsid) {
          ReplyStale(i, x.pk);
          return;
        }
        if x.si != remote.rsid {
          remote.rsid := x.si;
          remote.RemoveStaleCorrespondents();
        }
      }
      match Get(remote.transactions, i)
      case Some(t) => DoReceive(i, t, x);
      case None =>
        if x.cf {
          Stale(i, x.pk);
        } else {
          DoCorrespond(i, x);
        }
    }

    /** stale, for a transaction of ours that is gone. */
    method Stale(i: Index, k: PcktKind)
      modifies this`txes
      ensures txes == old(txes) + if IsNack(k) || k.Renew? then [] else [Answer(i, M.Nack)]
    {
      if !IsNack(k) && !k.Renew? {
        txes := txes + [Answer(i, M.Nack)];
      }
    }

    /** replyStale, for an old session: nacks are not nacked. */
    method ReplyStale(i: Index, k: PcktKind)
      modifies this`txes
      ensures txes == old(txes) + if IsNack(k) then [] else [Answer(i, M.Nack)]
    {
      if !IsNack(k) {
        txes := txes + [Answer(i, M.Nack)];
      }
    }

    method DoReceive(i: Index, t: Transaction, x: Rx)
      requires !gone && Proper(remote.transactions)
      modifies this, remote
      ensures Proper(remote.transactions)
      ensures var r := Receive(old(View()), i, t, x); View() == r.0 && txes == old(txes) + r.1
    {
      hide Handle, React;
      if t.Messengent? {
        if x.tk.Message? && x.pk.Segment? {
          DoHandle(i, Some(t.m), M.Seg(x.pk.packet));
        } else if x.tk.Message? && x.pk.Nack? {
          DoHandle(i, Some(t.m), M.StaleNack);
        }
      } else {
        DoReact(i, t, x);
      }
    }

    method DoCorrespond(i: Index, x: Rx)
      requires !gone && Proper(remote.transactions)
      modifies this, remote
      ensures Proper(remote.transactions)
      ensures var r := Correspond(old(View()), i, x); View() == r.0 && txes == old(txes) + r.1
    {
      hide Handle, HelloAt;
      if x.tk.Allow? && x.pk.Hello? {
        DoHello(i, x.pk.good);
      } else if x.tk.Message? && x.pk.Segment? {
        DoHandle(i, None, M.Seg(x.pk.packet));
      }
    }

    /** Messengent.receive, and the refusal of a done or again message. */
    method DoHandle(i: Index, live: Option<M.Messengent>, u: M.Request)
      requires !gone && Proper(remote.transactions)
      modifies this, remote
      ensures Proper(remote.transactions)
      ensures var r := Handle(old(View()), i, live, u); View() == r.0 && txes == old(txes) + r.1
    {
      var (r, sent) := Respond(remote.allowed, M.Receiver(live, i.ti in remote.doneTransactions, []), u);
      hide Respond, Settle;
      DoSettle(i, r);
      txes := txes + Answers(i, sent);
    }

    method DoSettle(i: Index, r: M.Receiver)
      requires !gone && Proper(remote.transactions)
      modifies this`rxMsgs, remote`transactions, remote`doneTransactions
      ensures Proper(remote.transactions) && View() == Settle(old(View()), i, r)
    {
      hide Put, Delete, Proper, Get, Without;
      if r.live.Some? {
        PutIs(remote.transactions, i, Messengent(r.live.value));
        remote.transactions := Put(remote.transactions, i, Messengent(r.live.value));
      } else {
        remote.RemoveTransaction(i);
      }
      if r.done {
        remote.doneTransactions := remote.doneTransactions + {i.ti};
      }
      rxMsgs := rxMsgs + Tagged(i, r.rxMsgs);
    }

    /** A Messengent's redo timer expires. */
    method ProcessRedo(i: Index, m: M.Messengent)
      requires !gone && Proper(remote.transactions) && Get(remote.transactions, i) == Some(Messengent(m))
      modifies this, remote
      ensures Proper(remote.transactions)
      ensures var r := Redo(old(View()), i); View() == r.0 && txes == old(txes) + r.1
    {
      var (r, sent) := M.Nudge(M.Receiver(Some(m), i.ti in remote.doneTransactions, []));
      hide M.Nudge, Settle;
      DoSettle(i, r);
      txes := txes + Answers(i, sent);
    }

    /** The loop of Allowent.hello over the allows in process. */
    method Compete(i: Index) returns (race: Race)
      requires Proper(remote.transactions)
      modifies remote`transactions, remote`nacks
      ensures Proper(remote.transactions)
      ensures (race, remote.transactions) == Contend(old(remote.transactions), old(remote.transactions), i, lesser)
    {
      hide Delete, Proper, Get, Without;
      var items := remote.transactions;
      assert items[0..] == items;
      for k := 0 to |items|
        invariant Proper(remote.transactions)
        invariant Contend(items[k..], remote.transactions, i, lesser) == Contend(items, items, i, lesser)
      {
        assert items[k..][0] == items[k] && items[k..][1..] == items[k + 1..];
        var (j, t) := items[k];
        if t.Allower? || t.Allowent? {
          if j == i {
            return Duplicate;
          }
          if j.rf || lesser {
            return Refused;
          }
          remote.Dismiss(j);
        }
      }
      return Proceed;
    }

    /** Allowent.hello */
    method DoHello(i: Index, good: bool)
      requires Proper(remote.transactions)
      modifies remote
      ensures Proper(remote.transactions)
      ensures remote.View() == HelloAt(old(remote.View()), i, good, lesser)
    {
      hide Delete, Proper, Get, Without, JoinInProcess, Contend;
      if JoinInProcess(remote.transactions) {
        remote.RemoveTransaction(i);
      }
      var race := Compete(i);
      match race {
        case Duplicate =>
        case Refused => remote.RemoveTransaction(i);
        case Proceed =>
          remote.allowed := false;
          if remote.joined && good {
            var ok := remote.AddTransaction(i, Allowent);
          } else {
            remote.RemoveTransaction(i);
          }
      }
    }

    method StartSession()
      requires Proper(remote.transactions)
      modifies remote
      ensures Proper(remote.transactions) && remote.View() == NewSession(old(remote.View()))
    {
      hide ReplaceInitiators;
      remote.NextSid();
      remote.ReplaceStaleInitiators();
    }

    /** A new Joiner's join. */
    method StartJoin()
      requires Proper(remote.transactions)
      modifies remote
      ensures Proper(remote.transactions) && remote.View() == BeginJoin(old(remote.View()))
    {
      hide JoinInProcess, Get;
      remote.NextTid();
      if JoinInProcess(remote.transactions) {
        return;
      }
      remote.joined := false;
      var ok := remote.AddTransaction(Index(false, 0, remote.tid), Joining);
    }

    /** A new Allower's hello. */
    method StartAllow()
      requires Proper(remote.transactions)
      modifies remote
      ensures Proper(remote.transactions) && remote.View() == BeginAllow(old(remote.View()))
    {
      hide JoinInProcess, AllowInProcess, Get, BeginJoin;
      remote.NextTid();
      if JoinInProcess(remote.transactions) || AllowInProcess(remote.transactions) {
        return;
      }
      remote.allowed := false;
      if !remote.joined {
        StartJoin();
      } else {
        var ok := remote.AddTransaction(Index(false, remote.sid, remote.tid), Allower);
      }
    }

    /** A new Aliver's alive. */
    method StartAlive()
      requires Proper(remote.transactions)
      modifies remote
      ensures Proper(remote.transactions) && remote.View() == BeginAlive(old(remote.View()))
    {
      hide Get, BeginJoin, BeginAllow;
      remote.NextTid();
      if !remote.joined {
        StartJoin();
      } else if !remote.allowed {
        StartAllow();
      } else {
        var ok := remote.AddTransaction(Index(false, remote.sid, remote.tid), Aliver);
      }
    }

    /** receive of Messenger, Allower, Allowent and Aliver. */
    method DoReact(i: Index, t: Transaction, x: Rx)
      requires Proper(remote.transactions)
      modifies remote
      ensures Proper(remote.transactions)
      ensures remote.View() == React(old(remote.View()), i, t, x, lesser)
    {
      hide NewSession, SendSaved, BeginJoin, BeginAllow, HelloAt, Delete, Get, Without, Proper;
      match t
      case Messenger(_) =>
        if x.tk.Message? && (x.pk.Done? || x.pk.Nack? || (x.pk.Ack? && x.pk.more && !remote.allowed)) {
          remote.RemoveTransaction(i);
        }
      case Allower => if x.tk.Allow? { AllowerHears(i, x.pk); }
      case Allowent => if x.tk.Allow? { AllowentHears(i, x.pk); }
      case Aliver => if x.tk.Alive? { AliverHears(i, x.pk); }
      case _ =>
    }

    method AllowerHears(i: Index, k: PcktKind)
      requires Proper(remote.transactions)
      modifies remote
      ensures Proper(remote.transactions)
      ensures remote.View() == React(old(remote.View()), i, Allower, Rx(true, Allow, 0, 0, k), lesser)
    {
      hide NewSession, SendSaved, BeginJoin, BeginAllow, HelloAt, Delete, Get, Without, Proper;
      match k
      case Cookie(good) => if !good { remote.RemoveTransaction(i); }
      case Ack(_) =>
        remote.allowed := true;
        remote.RemoveTransaction(i);
        StartSession();
        remote.SendSavedMessages();
      case Nack => remote.RemoveTransaction(i);
      case Refuse => remote.RemoveTransaction(i);
      case Reject =>
        remote.allowed := false;
        remote.RemoveTransaction(i);
      case Unjoined =>
        remote.joined := false;
        remote.RemoveTransaction(i);
        StartJoin();
      case _ =>
    }

    method AllowentHears(i: Index, k: PcktKind)
      requires Proper(remote.transactions)
      modifies remote
      ensures Proper(remote.transactions)
      ensures remote.View() == React(old(remote.View()), i, Allowent, Rx(false, Allow, 0, 0, k), lesser)
    {
      hide NewSession, SendSaved, BeginJoin, BeginAllow, HelloAt, Delete, Get, Without, Proper;
      match k
      case Hello(good) => DoHello(i, good);
      case Initiate(good) =>
        if good {
          remote.allowed := true;
          StartSession();
        } else {
          remote.RemoveTransaction(i);
        }
      case Ack(_) =>
        remote.RemoveTransaction(i);
        remote.SendSavedMessages();
      case Nack => remote.RemoveTransaction(i);
      case Refuse => remote.RemoveTransaction(i);
      case Reject =>
        remote.allowed := false;
        remote.RemoveTransaction(i);
      case _ =>
    }

    method AliverHears(i: Index, k: PcktKind)
      requires Proper(remote.transactions)
      modifies remote
      ensures Proper(remote.transactions)
      ensures remote.View() == React(old(remote.View()), i, Aliver, Rx(true, Alive, 0, 0, k), lesser)
    {
      hide NewSession, SendSaved, BeginJoin, BeginAllow, HelloAt, Delete, Get, Without, Proper;
      match k
      case Unjoined =>
        remote.joined := false;
        remote.RemoveTransaction(i);
        StartJoin();
      case Unallowed =>
        remote.allowed := false;
        remote.RemoveTransaction(i);
        StartAllow();
      case Ack(_) => remote.RemoveTransaction(i);
      case Nack => remote.RemoveTransaction(i);
      case Refuse => remote.RemoveTransaction(i);
      case Reject => remote.RemoveTransaction(i);
      case _ =>
    }

    /** removeRemote. The base class's nack, which an Aliver has, does nothing. */
    method RemoveRemote()
      requires !gone && Proper(remote.transactions)
      modifies this`gone, remote`transactions, remote`nacks, remote`doneTransactions
      ensures View() == Removed(old(View())) && Proper(remote.transactions)
      ensures remote.nacks == old(remote.nacks) + Keys(Nackable(old(remote.transactions)))
    {
      hide Delete, Proper, Get, Without, Keys, Marked, Nackable;
      gone := true;
      var items := remote.transactions;
      MarkedNone();
      for k := 0 to |items|
        invariant gone && Proper(remote.transactions)
        invariant remote.doneTransactions == old(remote.doneTransactions) + Marked(items[..k])
        invariant remote.nacks == old(remote.nacks) + Keys(Nackable(items[..k]))
      {
        MarkedMore(items, k);
        Shift(old(remote.nacks), Keys(Nackable(items[..k])), items[k].0);
        if !items[k].1.Aliver? {
          if items[k].1.Messengent? {
            remote.doneTransactions := remote.doneTransactions + {items[k].0.ti};
          }
          remote.Dismiss(items[k].0);
        }
      }
      assert items[..|items|] == items;
    }

    /** Joiner.reject and Joinent.reject */
    method RejectJoin(i: Index)
      requires !gone && Proper(remote.transactions) && Get(remote.transactions, i) == Some(Joining)
      modifies this`gone, remote`transactions, remote`nacks, remote`doneTransactions
      ensures View() == JoinRejected(old(View()), i)
    {
      MarkedWithout(remote.transactions, i);
      hide Delete, Proper, Without, Marked;
      remote.RemoveTransaction(i);
      RemoveRemote();
    }

    /** The end of completify and of complete. */
    method FinishJoin(i: Index)
      requires Proper(remote.transactions) && Get(remote.transactions, i) == Some(Joining)
      modifies remote
      ensures Proper(remote.transactions) && remote.View() == JoinDone(old(remote.View()), i)
    {
      hide NewSession, Delete, Without, Proper;
      if remote.sid == 0 {
        StartSession();
      }
      remote.joined := true;
      remote.RemoveTransaction(i);
    }
  }
}
