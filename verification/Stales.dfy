/** Packets for transactions that are gone, at two stacks: how a Messengent learns that its Messenger
    has ended. */
module Stales {
  import opened Basics
  import opened Odicts
  import opened Lotting
  import opened Estating
  import opened Sessions
  import M = Messaging
  import T = Traying
  import E = Exchange

  /** A packet from the correspondent of a transaction of ours that is gone changes nothing, and is
      answered by one nack at its index, unless it is a nack of any kind, or a renew. */
  lemma GoneIsNacked(s: Stack, x: Rx)
    requires x.cf && x.si != 0 && !s.gone && Get(s.remote.transactions, Index(false, x.si, x.ti)).None?
    ensures Process(s, x)
            == (s, if x.pk in {Nack, Refuse, Reject, Renew, Unjoined, Unallowed} then []
                   else [Answer(Index(false, x.si, x.ti), M.Nack)])
  {
  }

  /** Session 0 is dropped without a word, and so is every packet for a remote that is gone. */
  lemma ZeroIsDropped(s: Stack, x: Rx)
    requires x.si == 0 || s.gone
    ensures Process(s, x) == (s, [])
  {
  }

  /** A packet that opens nothing here, in the remote's present session: no answer and no change. */
  lemma StrayIsDropped(s: Stack, x: Rx)
    requires !x.cf && x.si == s.remote.rsid && Get(s.remote.transactions, Index(true, x.si, x.ti)).None?
    requires !(x.tk.Allow? && x.pk.Hello?) && !(x.tk.Message? && x.pk.Segment?)
    ensures Process(s, x) == (s, [])
  {
  }

  /** A segment of a message with the again flag, or of one done in this session, is nacked where no
      transaction of it is live, and opens none. */
  lemma AgainIsNacked(s: Stack, x: Rx)
    requires Good(s.remote) && !s.gone && !x.cf && x.tk.Message? && x.pk.Segment? && x.si == s.remote.rsid != 0
    requires Get(s.remote.transactions, Index(true, x.si, x.ti)).None?
    requires x.pk.packet.af || x.ti in s.remote.done
    ensures var (s', answers) := Process(s, x);
            && answers == [Answer(Index(true, x.si, x.ti), M.Nack)] && s'.rxMsgs == s.rxMsgs
            && Get(s'.remote.transactions, Index(true, x.si, x.ti)).None?
            && s'.remote.transactions == s.remote.transactions && s'.remote.done == s.remote.done
  {
    var i := Index(true, x.si, x.ti);
    GetIs(s.remote.transactions, i);
    DeletesNothing(s.remote.transactions, i);
    assert Tagged(i, []) == [];
    hide Get, Delete, Good;
  }

  // ------------------------------------------------------------ The two stacks

  /** What goes on the road for an answer of the message protocol: it comes from the correspondent
      if it was sent under an index of the remote. */
  function Sent(a: Answer): Rx {
    Rx(a.index.rf, Message, a.index.si, a.index.ti,
       match a.reply
       case Ack(_) => Ack(false)
       case Resend(_) => Plain
       case Done => Done
       case Nack => Nack)
  }

  function Other(i: Index): Index { Index(!i.rf, i.si, i.ti) }

  /** The redo of a Messengent says something. */
  lemma RedoSpeaks(s: Stack, i: Index, m: M.Messengent)
    requires Get(s.remote.transactions, i) == Some(Messengent(m))
    ensures var (s', answers) := Redo(s, i);
            && answers != [] && forall k :: 0 <= k < |answers| ==> answers[k].index == i && !answers[k].reply.Nack?
  {
    M.RequestsCoverMissing(T.Missing(m.tray.segments, m.lowest, Min(m.tray.highest, |m.tray.segments|)));
    hide Get, Settle, T.Missing;
  }

  /** The nack of a gone Messenger ends the Messengent, and nothing else. */
  lemma NackEnds(s: Stack, i: Index, m: M.Messengent)
    requires i.rf && i.si == s.remote.rsid != 0 && !s.gone && Get(s.remote.transactions, i) == Some(Messengent(m))
    ensures var (s', answers) := Process(s, Sent(Answer(Other(i), M.Nack)));
            && answers == [] && s'.rxMsgs == s.rxMsgs
            && s'.remote == s.remote.(transactions := Delete(s.remote.transactions, i), done := s.remote.done + {i.ti})
  {
    assert Tagged(i, []) == [] && s.rxMsgs + [] == s.rxMsgs;
    hide Get, Delete;
  }

  lemma {:induction false} DeletePut(d: Table, i: Index, t: Transaction)
    requires Get(d, i).Some?
    ensures Delete(Put(d, i, t), i) == Delete(d, i) && Get(Put(d, i, t), i) == Some(t)
  {
    if d[0].0 != i {
      DeletePut(d[1..], i, t);
    }
  }

  lemma GoneAfter(d: Table, i: Index)
    requires Proper(d)
    ensures Get(Delete(d, i), i).None? && Delete(Delete(d, i), i) == Delete(d, i)
  {
    DeleteIs(d, i);
    GetIs(Delete(d, i), i);
    DeletesNothing(Delete(d, i), i);
    hide Get, Delete;
  }

  /** After the redo the Messengent is still there, or it has delivered and is gone. */
  lemma AfterRedo(s: Stack, i: Index, m: M.Messengent)
    requires Proper(s.remote.transactions) && Get(s.remote.transactions, i) == Some(Messengent(m))
    ensures var r := Redo(s, i).0.remote;
            && r == s.remote.(transactions := r.transactions, done := r.done)
            && s.remote.done <= r.done <= s.remote.done + {i.ti}
            && ( || (r.transactions == Delete(s.remote.transactions, i) && i.ti in r.done)
                 || exists m' :: Get(r.transactions, i) == Some(Messengent(m'))
                                 && Delete(r.transactions, i) == Delete(s.remote.transactions, i))
  {
    var (r, sent) := M.Nudge(Seen(s, i, Some(m)));
    if r.live.Some? {
      DeletePut(s.remote.transactions, i, Messengent(r.live.value));
    }
    hide Get, Delete, Put, M.AskMore;
    assert r.live.Some? || r.done;
    assert r.done ==> r.live.None? || i.ti in s.remote.done;
  }

  /** A Messengent whose Messenger is gone ends once its redo is answered: there is a nack to
      each of its packets, and one of these ends it, marks its id done, and changes nothing else. */
  lemma OrphanEnds(ours: Stack, theirs: Stack, i: Index, m: M.Messengent)
    requires Good(theirs.remote) && !ours.gone && !theirs.gone
    requires Get(theirs.remote.transactions, i) == Some(Messengent(m)) && Get(ours.remote.transactions, Other(i)).None?
    ensures var (asking, answers) := Redo(theirs, i);
            && answers != []
            && (forall k :: 0 <= k < |answers| ==>
                  Process(ours, Sent(answers[k])) == (ours, [Answer(Other(i), M.Nack)]))
            && var (ended, more) := Process(asking, Sent(Answer(Other(i), M.Nack)));
               && more == [] && ended.rxMsgs == asking.rxMsgs
               && ended.remote == theirs.remote.(transactions := Delete(theirs.remote.transactions, i),
                                                 done := theirs.remote.done + {i.ti})
               && Get(ended.remote.transactions, i).None?
  {
    GetIs(theirs.remote.transactions, i);
    assert Placed((i, Messengent(m)), theirs.remote.sid, theirs.remote.rsid);
    var (asking, answers) := Redo(theirs, i);
    RedoSpeaks(theirs, i, m);
    forall k | 0 <= k < |answers| ensures Process(ours, Sent(answers[k])) == (ours, [Answer(Other(i), M.Nack)]) {
      GoneIsNacked(ours, Sent(answers[k]));
      hide Process;
    }
    GoneAfter(theirs.remote.transactions, i);
    AfterRedo(theirs, i, m);
    hide Redo, Process, Good, Delete, Get, Proper;
    var r := asking.remote;
    if m' :| && Get(r.transactions, i) == Some(Messengent(m'))
             && Delete(r.transactions, i) == Delete(theirs.remote.transactions, i) {
      NackEnds(asking, i, m');
    } else {
      StrayIsDropped(asking, Sent(Answer(Other(i), M.Nack)));
    }
  }

  /** The nack that Exchange lets come from a Messenger that is gone is that of the stack. */
  lemma StaleIsExchange(e: E.Exchange, ours: Stack, i: Index, reply: M.Reply)
    requires e.sender.Valid() && !e.sender.live
    requires i.rf && i.si != 0 && !ours.gone && Get(ours.remote.transactions, Other(i)).None?
    ensures E.Step(e, E.ToSender(reply))
            == e.(up := e.up + if Process(ours, Sent(Answer(i, reply))).1 == [] then {} else {M.StaleNack})
  {
    GoneIsNacked(ours, Sent(Answer(i, reply)));
    assert e.up + {} == e.up;
    hide Process;
  }

  // ---------------------------------------------------------- Only what is allowed

  /** The Messengent under a segment's index, or that there is none. */
  predicate Fresh(r: Remote, i: Index) {
    var t: Option<Transaction> := Get(r.transactions, i);
    t.None? || t.value.Messengent?
  }

  /** While the remote is not allowed every segment is nacked, whether its message is new, live or done:
      nothing is delivered, and no Messengent is left that could deliver it. */
  lemma UnallowedIsNacked(s: Stack, x: Rx)
    requires Proper(s.remote.transactions) && !s.gone && !s.remote.allowed
    requires !x.cf && x.tk.Message? && x.pk.Segment? && x.si != 0 && ValidSid(x.si, s.remote.rsid)
    requires Fresh(Admit(s.remote, x), Index(true, x.si, x.ti))
    ensures var (s', answers) := Process(s, x);
            && answers == [Answer(Index(true, x.si, x.ti), M.Nack)] && s'.rxMsgs == s.rxMsgs
            && Get(s'.remote.transactions, Index(true, x.si, x.ti)).None?
  {
    var i := Index(true, x.si, x.ti);
    var r := Admit(s.remote, x);
    StayIs(s.remote.transactions, true, x.si);
    assert Proper(r.transactions) && !r.allowed;
    GoneAfter(r.transactions, i);
    assert Tagged(i, []) == [] && s.rxMsgs + [] == s.rxMsgs;
    hide Admit, Get, Delete, Proper, ValidSid;
  }

  /** A packet delivers only a segment of an allowed remote, in a session that is not old. */
  lemma DeliversAllowed(s: Stack, x: Rx)
    requires Process(s, x).0.rxMsgs != s.rxMsgs
    ensures s.remote.allowed && !s.gone && x.si != 0 && (x.cf || ValidSid(x.si, s.remote.rsid))
    ensures x.tk.Message? && x.pk.Segment?
  {
    var i := Index(!x.cf, x.si, x.ti);
    assert Tagged(i, []) == [] && s.rxMsgs + [] == s.rxMsgs;
    hide Get, Put, Delete, React, HelloAt, DropCorrespondents, M.Accept, ValidSid;
  }
}
