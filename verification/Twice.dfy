/** A run in which a message is delivered twice: its done is lost, and the next session sends it again. */
module Twice {
  import opened Basics
  import opened Odicts
  import opened Lotting
  import opened Estating
  import opened Sessions
  import opened SessionRuns
  import opened Fates
  import opened Making
  import opened Serving
  import opened Repeats
  import M = Messaging
  import T = Traying

  // ------------------------------------------------------------------------ Steps

  ghost predicate Reaches(w: World, turns: seq<Turn>, w': World, cut: Bytes -> seq<Bytes>) {
    Legal(w, turns, cut) && Played(w, turns) == w'
  }

  lemma {:induction false} ReachesOn(w: World, a: seq<Turn>, w1: World, b: seq<Turn>, w2: World,
                                     cut: Bytes -> seq<Bytes>)
    requires Reaches(w, a, w1, cut) && Reaches(w1, b, w2, cut)
    ensures Reaches(w, a + b, w2, cut)
    decreases |a|
  {
    hide Turned, Possible;
    if a == [] {
      assert a + b == b;
    } else {
      assert (a + b)[1..] == a[1..] + b && (a + b)[0] == a[0];
      ReachesOn(Turned(w, a[0]), a[1..], w1, b, w2, cut);
    }
  }

  lemma ReachesTwo(w: World, t1: Turn, w1: World, t2: Turn, w2: World, cut: Bytes -> seq<Bytes>)
    requires Possible(w, t1, cut) && Turned(w, t1) == w1 && Possible(w1, t2, cut) && Turned(w1, t2) == w2
    ensures Reaches(w, [t1, t2], w2, cut)
  {
    hide Turned, Possible;
    assert [t1, t2][1..] == [t2] && [t2][1..] == [];
    assert Played(w1, [t2]) == Played(w2, []) && Legal(w2, [], cut);
    assert Legal(w1, [t2], cut);
  }

  /** A turn of theirs touches nothing of ours. */
  lemma TheirTurn(w: World, e: Event, s: Stack)
    requires Happen(w.theirs, e) == s && w.theirs.remote.rsid == 1 && s.remote.rsid == 1
    ensures Turned(w, Theirs(e)) == w.(theirs := s)
  {
    hide Happen;
  }

  /** A turn of ours that makes and puts back nothing. */
  lemma OurTurn(w: World, e: Event, s: Stack)
    requires Happen(w.ours, e) == s && s.remote.sid == w.ours.remote.sid && Proper(w.ours.remote.transactions)
    requires forall f :: f in s.remote.transactions && f.1.Messenger? ==> f in w.ours.remote.transactions
    requires Accepted(w.ours, e) == multiset{} == Dropped(w.ours, e)
    ensures Turned(w, Ours(e)) == w.(ours := s)
  {
    NoneMade(s.remote.transactions, w.ours.remote.transactions);
    hide Happen, Accepted, Dropped, Made, Proper;
    NoneOnly(w.accepted);
    NoneOnly(w.dropped);
    assert w.log + [] == w.log;
  }

  // ----------------------------------------------------------------- The messages

  /** A message of one segment. */
  function Whole(si: nat, ti: nat, body: Bytes): Rx {
    Rx(false, Message, si, ti, Segment(T.Packet(0, 1, 0, body, false, false)))
  }

  lemma WholeDelivers(s: Stack, si: nat, ti: nat, body: Bytes)
    requires s.remote.transactions == [] && s.remote.allowed && !s.gone && si != 0 && ValidSid(si, s.remote.rsid)
    requires si == s.remote.rsid ==> ti !in s.remote.done
    ensures Process(s, Whole(si, ti, body)).0
            == s.(remote := s.remote.(rsid := si, done := (if si == s.remote.rsid then s.remote.done else {}) + {ti}),
                  rxMsgs := s.rxMsgs + [(Index(true, si, ti), body)])
  {
    hide ValidSid;
    var r := Admit(s.remote, Whole(si, ti, body));
    assert r == s.remote.(rsid := si, done := if si == s.remote.rsid then s.remote.done else {});
    var i := Index(true, si, ti);
    var seen := M.Receiver(None, ti in r.done, []);
    assert M.Take(seen, M.Seg(T.Packet(0, 1, 0, body, false, false))).0 == M.Receiver(None, true, [body]);
    assert Tagged(i, [body]) == [(i, body)];
  }

  lemma WholePossible(w: World, si: nat, ti: nat, body: Bytes, k: nat, cut: Bytes -> seq<Bytes>)
    requires IsId(si) && cut(body) == [body] && k < |w.log| && w.log[k] == (Index(false, si, ti), body)
    ensures Possible(w, Theirs(Arrive(Whole(si, ti, body))), cut)
  {
    assert Part(Whole(si, ti, body).pk.packet, cut(body));
  }

  // ------------------------------------------------------------------- The worlds

  function Mine(sid: nat, tid: nat, table: Table, allowed: bool): Stack {
    Stack(Remote(sid, 1, tid, table, {}, [], true, allowed), false, [], false)
  }

  function Yours(sid: nat, rsid: nat, table: Table, done: set<nat>, allowed: bool, rxMsgs: Log): Stack {
    Stack(Remote(sid, rsid, 0, table, done, [], true, allowed), true, rxMsgs, false)
  }

  function Pend(si: nat, ti: nat, body: Bytes): (Index, Transaction) { (Index(false, si, ti), Messenger(body)) }

  /** Two stacks that have joined and allowed each other. */
  function Ready(): World {
    World(Mine(1, 0, [], true), Yours(1, 1, [], {}, true, []), [], {}, multiset{}, multiset{}, 0)
  }

  /** The message is delivered, but its Messenger has not heard so. */
  function Unheard(body: Bytes, ours: Stack, theirs: Stack): World {
    World(ours, theirs, [(Index(false, 1, 1), body)], {}, multiset{body}, multiset{}, 0)
  }

  /** It was put back and sent again. */
  function Resent(body: Bytes, theirs: Stack, moved: nat): World {
    World(Mine(2, 3, [Pend(2, 3, body)], true), theirs,
          [(Index(false, 1, 1), body), (Index(false, 2, 3), body)], {Index(false, 1, 1)}, multiset{body},
          multiset{}, moved)
  }

  function Came(body: Bytes): Log { [(Index(true, 1, 1), body)] }

  // ------------------------------------------------------------------- The events

  /** A packet of the allow handshake that ours begins in session 1. */
  function Shake(cf: bool, pk: PcktKind): Event { Arrive(Rx(cf, Allow, 1, 2, pk)) }

  /** Ours sends and theirs delivers; the done is lost. */
  function First(body: Bytes): seq<Turn> { [Ours(Send(body)), Theirs(Arrive(Whole(1, 1, body)))] }

  /** Ours begins an allow, and the handshake goes through. */
  function Greeting(): seq<Turn> { [Ours(StartAllow), Theirs(Shake(false, Hello(true)))] }

  function Agreeing(): seq<Turn> { [Ours(Shake(true, Cookie(true))), Theirs(Shake(false, Initiate(true)))] }

  function Closing(): seq<Turn> { [Ours(Shake(true, Ack(false))), Theirs(Shake(false, Ack(false)))] }

  /** The message arrives under its new index. */
  function Again(body: Bytes): seq<Turn> { [Theirs(Arrive(Whole(2, 3, body)))] }

  function TwiceSent(body: Bytes): seq<Turn> { First(body) + Greeting() + Agreeing() + Closing() + Again(body) }

  lemma SendTurn(body: Bytes)
    ensures Turned(Ready(), Ours(Send(body)))
            == Unheard(body, Mine(1, 1, [Pend(1, 1, body)], true), Yours(1, 1, [], {}, true, []))
  {
    var w, e := Ready(), Send(body);
    var s := Mine(1, 1, [Pend(1, 1, body)], true);
    var i := Index(false, 1, 1);
    assert Happen(w.ours, e) == s;
    MadeOne(i, body, []);
    NoneOnly(multiset{body});
    assert Accepted(w.ours, e) == multiset{body} && Dropped(w.ours, e) == multiset{};
    hide Happen, Made;
  }

  lemma FirstReaches(body: Bytes, cut: Bytes -> seq<Bytes>)
    requires cut(body) == [body]
    ensures Reaches(Ready(), First(body),
                    Unheard(body, Mine(1, 1, [Pend(1, 1, body)], true), Yours(1, 1, [], {1}, true, Came(body))), cut)
  {
    var w, w1 := Ready(), Unheard(body, Mine(1, 1, [Pend(1, 1, body)], true), Yours(1, 1, [], {}, true, []));
    var w2 := Unheard(body, Mine(1, 1, [Pend(1, 1, body)], true), Yours(1, 1, [], {1}, true, Came(body)));
    SendTurn(body);
    WholePossible(w1, 1, 1, body, 0, cut);
    WholeDelivers(w1.theirs, 1, 1, body);
    var s := Happen(w1.theirs, Arrive(Whole(1, 1, body)));
    assert s == Yours(1, 1, [], {1}, true, Came(body)) by { hide Process; assert [] + Came(body) == Came(body); }
    TheirTurn(w1, Arrive(Whole(1, 1, body)), s);
    assert Possible(w, Ours(Send(body)), cut);
    hide Turned, Possible, Happen, Reaches;
    ReachesTwo(w, Ours(Send(body)), w1, Theirs(Arrive(Whole(1, 1, body))), w2, cut);
  }

  // ---------------------------------------------------------------- The handshake

  function Ally(rf: bool): (Index, Transaction) { (Index(rf, 1, 2), if rf then Allowent else Allower) }

  /** While ours is allowing. */
  function Asking(body: Bytes): Stack { Mine(1, 2, [Pend(1, 1, body), Ally(false)], false) }

  lemma AllowStep(body: Bytes)
    ensures Happen(Mine(1, 1, [Pend(1, 1, body)], true), StartAllow) == Asking(body)
  {
    var e, f := Pend(1, 1, body), Ally(false);
    var r := Mine(1, 1, [e], true).remote;
    assert !JoinInProcess([e]) && !AllowInProcess([e]);
    TwoEntries(e, f);
    hide Get, JoinInProcess, AllowInProcess;
    assert [e] + [f] == [e, f];
    assert BeginAllow(r) == Asking(body).remote;
  }

  lemma HelloStep(body: Bytes)
    ensures Happen(Yours(1, 1, [], {1}, true, Came(body)), Shake(false, Hello(true)))
            == Yours(1, 1, [Ally(true)], {1}, false, Came(body))
  {
    var s, i := Yours(1, 1, [], {1}, true, Came(body)), Index(true, 1, 2);
    assert Contend([], [], i, true) == (Proceed, []);
    assert [] + [Ally(true)] == [Ally(true)];
    assert HelloAt(s.remote, i, true, true) == Yours(1, 1, [Ally(true)], {1}, false, Came(body)).remote;
    hide HelloAt;
  }

  lemma InitiateStep(body: Bytes)
    ensures Happen(Yours(1, 1, [Ally(true)], {1}, false, Came(body)), Shake(false, Initiate(true)))
            == Yours(2, 1, [Ally(true)], {1}, true, Came(body))
  {
    var s := Yours(1, 1, [Ally(true)], {1}, false, Came(body));
    assert [Ally(true)][1..] == [] && Stay([], false, 2) == [] && Leave([], false, 2) == [] && Bodies([]) == [];
    assert Stay([Ally(true)], false, 2) == [Ally(true)] && Bodies(Leave([Ally(true)], false, 2)) == [];
    assert NewSession(s.remote.(allowed := true)) == Yours(2, 1, [Ally(true)], {1}, true, Came(body)).remote;
    hide NewSession;
  }

  lemma FinalStep(body: Bytes)
    ensures Happen(Yours(2, 1, [Ally(true)], {1}, true, Came(body)), Shake(false, Ack(false)))
            == Yours(2, 1, [], {1}, true, Came(body))
  {
    assert Delete([Ally(true)], Ally(true).0) == [];
  }

  lemma CookieStep(body: Bytes)
    ensures Happen(Asking(body), Shake(true, Cookie(true))) == Asking(body)
  {
    TwoEntries(Pend(1, 1, body), Ally(false));
    hide Get;
  }

  /** The allow ends at ours: the message is put back, and sent again. */
  lemma AckStep(body: Bytes)
    ensures Happen(Asking(body), Shake(true, Ack(false))) == Mine(2, 3, [Pend(2, 3, body)], true)
    ensures Resending(Asking(body), Shake(true, Ack(false))) == Some(Mine(2, 2, [], true).remote.(messages := [body]))
  {
    var e, f := Pend(1, 1, body), Ally(false);
    TwoEntries(e, f);
    var r := Asking(body).remote.(allowed := true);
    assert Gone(r, f.0) == r.(transactions := [e]);
    assert [e][1..] == [] && Stay([], false, 2) == [] && Leave([], false, 2) == [] && Bodies([]) == [];
    assert Stay([e], false, 2) == [] && Leave([e], false, 2) == [e] && Bodies([e]) == [body];
    var r1 := Mine(2, 2, [], true).remote.(messages := [body]);
    assert NewSession(r.(transactions := [e])) == r1;
    var r2 := Mine(2, 3, [Pend(2, 3, body)], true).remote;
    assert SendOne(r1.(messages := []), body) == r2 by { assert [] + [Pend(2, 3, body)] == [Pend(2, 3, body)]; }
    assert [body][1..] == [];
    assert SendSaved(r1) == SendSaved(r2) == r2;
    hide Gone, NewSession, SendSaved, Get;
  }

  lemma ShakePossible(w: World, cf: bool, pk: PcktKind, cut: Bytes -> seq<Bytes>)
    requires !pk.Segment?
    ensures Possible(w, if cf then Ours(Shake(cf, pk)) else Theirs(Shake(cf, pk)), cut)
  {
  }

  lemma GreetingReaches(body: Bytes, cut: Bytes -> seq<Bytes>)
    ensures Reaches(Unheard(body, Mine(1, 1, [Pend(1, 1, body)], true), Yours(1, 1, [], {1}, true, Came(body))),
                    Greeting(), Unheard(body, Asking(body), Yours(1, 1, [Ally(true)], {1}, false, Came(body))), cut)
  {
    var w := Unheard(body, Mine(1, 1, [Pend(1, 1, body)], true), Yours(1, 1, [], {1}, true, Came(body)));
    var w1 := Unheard(body, Asking(body), Yours(1, 1, [], {1}, true, Came(body)));
    var w2 := Unheard(body, Asking(body), Yours(1, 1, [Ally(true)], {1}, false, Came(body)));
    AllowStep(body);
    HelloStep(body);
    ShakePossible(w1, false, Hello(true), cut);
    assert Possible(w, Ours(StartAllow), cut);
    hide Happen, Possible, Reaches;
    OurTurn(w, StartAllow, Asking(body));
    TheirTurn(w1, Shake(false, Hello(true)), w2.theirs);
    hide Turned;
    ReachesTwo(w, Ours(StartAllow), w1, Theirs(Shake(false, Hello(true))), w2, cut);
  }

  lemma AskingProper(body: Bytes)
    ensures Proper(Asking(body).remote.transactions)
    ensures Resending(Asking(body), Shake(true, Cookie(true))) == None
  {
  }

  lemma AgreeingReaches(body: Bytes, cut: Bytes -> seq<Bytes>)
    ensures Reaches(Unheard(body, Asking(body), Yours(1, 1, [Ally(true)], {1}, false, Came(body))), Agreeing(),
                    Unheard(body, Asking(body), Yours(2, 1, [Ally(true)], {1}, true, Came(body))), cut)
  {
    var w := Unheard(body, Asking(body), Yours(1, 1, [Ally(true)], {1}, false, Came(body)));
    var w2 := Unheard(body, Asking(body), Yours(2, 1, [Ally(true)], {1}, true, Came(body)));
    CookieStep(body);
    InitiateStep(body);
    AskingProper(body);
    ShakePossible(w, true, Cookie(true), cut);
    ShakePossible(w, false, Initiate(true), cut);
    hide Happen, Possible, Reaches, Resending, Proper;
    OurTurn(w, Shake(true, Cookie(true)), Asking(body));
    TheirTurn(w, Shake(false, Initiate(true)), w2.theirs);
    hide Turned;
    ReachesTwo(w, Ours(Shake(true, Cookie(true))), w, Theirs(Shake(false, Initiate(true))), w2, cut);
  }

  /** The saved body goes out. */
  lemma AllSent(body: Bytes)
    ensures Unsent(Mine(2, 2, [], true).remote.(messages := [body])) == multiset{}
  {
    var r := Mine(2, 2, [], true).remote.(messages := [body]);
    var next := SendOne(r.(messages := []), body);
    assert [body][1..] == [] && Unsent(next) == multiset{};
  }

  /** The Messengers of the table before, and the new one. */
  lemma AskingMakes(body: Bytes)
    ensures var table := Asking(body).remote.transactions;
            && Made([Pend(2, 3, body)], table) == [(Index(false, 2, 3), body)]
            && PendingAt(table) == {Index(false, 1, 1)}
  {
    var table := Asking(body).remote.transactions;
    assert Pend(1, 1, body) in table && forall f :: f in table <==> f == Pend(1, 1, body) || f == Ally(false);
    GetIs(table, Index(false, 2, 3));
    MadeOne(Index(false, 2, 3), body, table);
  }

  lemma AckTurn(body: Bytes, theirs: Stack)
    ensures Turned(Unheard(body, Asking(body), theirs), Ours(Shake(true, Ack(false)))) == Resent(body, theirs, 0)
  {
    var w, e := Unheard(body, Asking(body), theirs), Shake(true, Ack(false));
    AckStep(body);
    AllSent(body);
    AskingMakes(body);
    assert !Removes(w.ours, e);
    hide Happen, Resending, Unsent, Made, PendingAt, Get, Removes;
    assert w.log + [(Index(false, 2, 3), body)] == Resent(body, theirs, 0).log;
    NoneOnly(multiset{body});
  }

  lemma ClosingReaches(body: Bytes, cut: Bytes -> seq<Bytes>)
    ensures Reaches(Unheard(body, Asking(body), Yours(2, 1, [Ally(true)], {1}, true, Came(body))), Closing(),
                    Resent(body, Yours(2, 1, [], {1}, true, Came(body)), 0), cut)
  {
    var w := Unheard(body, Asking(body), Yours(2, 1, [Ally(true)], {1}, true, Came(body)));
    var w1 := Resent(body, w.theirs, 0);
    var w2 := Resent(body, Yours(2, 1, [], {1}, true, Came(body)), 0);
    AckTurn(body, w.theirs);
    FinalStep(body);
    ShakePossible(w, true, Ack(false), cut);
    ShakePossible(w1, false, Ack(false), cut);
    hide Happen, Possible, Reaches;
    TheirTurn(w1, Shake(false, Ack(false)), w2.theirs);
    hide Turned;
    ReachesTwo(w, Ours(Shake(true, Ack(false))), w1, Theirs(Shake(false, Ack(false))), w2, cut);
  }

  function Both(body: Bytes): Log { [(Index(true, 1, 1), body), (Index(true, 2, 3), body)] }

  lemma AgainReaches(body: Bytes, cut: Bytes -> seq<Bytes>)
    requires cut(body) == [body]
    ensures Reaches(Resent(body, Yours(2, 1, [], {1}, true, Came(body)), 0), Again(body),
                    Resent(body, Yours(2, 2, [], {3}, true, Both(body)), 1), cut)
  {
    var w := Resent(body, Yours(2, 1, [], {1}, true, Came(body)), 0);
    var w' := Resent(body, Yours(2, 2, [], {3}, true, Both(body)), 1);
    WholePossible(w, 2, 3, body, 1, cut);
    WholeDelivers(w.theirs, 2, 3, body);
    hide Process, Possible;
    assert Came(body) + [(Index(true, 2, 3), body)] == Both(body);
    assert Turned(w, Again(body)[0]) == w';
    hide Turned;
    assert Again(body)[1..] == [] && Played(w', []) == w' && Legal(w', [], cut);
  }

  // ------------------------------------------------------------------ The whole run

  /** A body delivered in a session whose done is lost is put back when the next session begins, and
      is delivered again under its new index: it was accepted once, and the other application has
      it twice. The session id of ours has moved by one. */
  lemma DeliveredTwice(body: Bytes, cut: Bytes -> seq<Bytes>)
    requires cut(body) == [body]
    ensures var (w, turns) := (Ready(), TwiceSent(body));
            var w' := Played(w, turns);
            && Blank(w) && Legal(w, turns, cut) && Unrepeated(w'.log) && w'.moved == 1
            && w'.accepted == multiset{body} && Delivery(w') == multiset{body, body}
            && Doubled(w') == multiset{body} && Open(w') == multiset{}
  {
    var w0 := Ready();
    var w1 := Unheard(body, Mine(1, 1, [Pend(1, 1, body)], true), Yours(1, 1, [], {1}, true, Came(body)));
    var w2 := Unheard(body, Asking(body), Yours(1, 1, [Ally(true)], {1}, false, Came(body)));
    var w3 := Unheard(body, Asking(body), Yours(2, 1, [Ally(true)], {1}, true, Came(body)));
    var w4 := Resent(body, Yours(2, 1, [], {1}, true, Came(body)), 0);
    var w5 := Resent(body, Yours(2, 2, [], {3}, true, Both(body)), 1);
    ReadyBlank();
    FirstReaches(body, cut);
    GreetingReaches(body, cut);
    AgreeingReaches(body, cut);
    ClosingReaches(body, cut);
    AgainReaches(body, cut);
    TwiceDelivered(body);
    assert Reaches(w0, TwiceSent(body), w5, cut) by {
      hide Reaches, First, Greeting, Agreeing, Closing, Again;
      ReachesOn(w0, First(body), w1, Greeting(), w2, cut);
      ReachesOn(w0, First(body) + Greeting(), w2, Agreeing(), w3, cut);
      ReachesOn(w0, First(body) + Greeting() + Agreeing(), w3, Closing(), w4, cut);
      ReachesOn(w0, First(body) + Greeting() + Agreeing() + Closing(), w4, Again(body), w5, cut);
    }
    hide Played, Legal, TwiceSent, Blank, Delivery, Doubled, Open;
  }

  lemma ReadyBlank()
    ensures Blank(Ready())
  {
  }

  lemma TwoTotal(log: Log)
    requires |log| == 2
    ensures Total(log) == multiset{log[0].1, log[1].1}
  {
    assert log[1..][1..] == [] && Total(log[1..]) == multiset{log[1].1} + Total(log[1..][1..]);
  }

  lemma TwoSums(log: Log, keys: set<Index>)
    requires |log| == 2
    ensures Sum(log, keys) == (if log[0].0 in keys then multiset{log[0].1} else multiset{})
                              + (if log[1].0 in keys then multiset{log[1].1} else multiset{})
    ensures Rest(log, keys) == (if log[0].0 in keys then multiset{} else multiset{log[0].1})
                               + (if log[1].0 in keys then multiset{} else multiset{log[1].1})
  {
    var rest := log[1..];
    assert rest[1..] == [] && rest[0] == log[1];
    NoneOnly(if log[1].0 in keys then multiset{log[1].1} else multiset{});
    NoneOnly(if log[1].0 in keys then multiset{} else multiset{log[1].1});
    assert Sum(rest, keys) == (if log[1].0 in keys then multiset{log[1].1} else multiset{}) + Sum(rest[1..], keys);
    assert Rest(rest, keys) == (if log[1].0 in keys then multiset{} else multiset{log[1].1}) + Rest(rest[1..], keys);
  }

  lemma TwiceDelivered(body: Bytes)
    ensures var w := Resent(body, Yours(2, 2, [], {3}, true, Both(body)), 1);
            && Unrepeated(w.log) && Delivery(w) == multiset{body, body}
            && Doubled(w) == multiset{body} && Open(w) == multiset{}
  {
    var w := Resent(body, Yours(2, 2, [], {3}, true, Both(body)), 1);
    var i, j := Index(false, 1, 1), Index(false, 2, 3);
    TwoTotal(Both(body));
    TwoSums(w.log, {i});
    TwoSums(w.log, {i, j});
    assert [Both(body)[0].1, Both(body)[1].1] == [body, body];
    assert Got(Both(body)) == {i, j} by {
      assert Both(body)[0] in Both(body) && Both(body)[1] in Both(body);
      assert forall f :: f in Both(body) <==> f == Both(body)[0] || f == Both(body)[1];
    }
    assert {i, j} * {i} == {i} && {i, j} + {i} == {i, j};
    hide Sum, Rest, Total, Got, Unrepeated;
  }
}
