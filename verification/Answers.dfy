/** When a Messengent answers a segment, and that the redo of a Messenger always draws an answer. */
module Answers {
  import opened Basics
  import opened Traying
  import opened Messaging
  import opened Exchange
  import opened Bursts

  /** A segment that leaves a message incomplete is answered exactly if it waits, with what is missing
      or else an ack of the highest segment; one that completes it with a done, and one that does not
      match the announced length with a nack. Nothing is delivered but by the done. */
  lemma AnsweredExactly(r: Receiver, m: Messengent, p: Packet)
    ensures var ((r', replies), (t, o)) := (Accept(r, m, p), Collect(m.tray, p));
            var whole := t.complete;
            && (o == Parsed && !whole ==>
                  && (replies != [] <==> p.wf)
                  && (p.wf ==> var misseds := Missing(t.segments, m.lowest, Min(t.highest, |t.segments|));
                               if misseds == [] then replies == [Ack(t.highest)] else Asked(replies) == misseds)
                  && r'.live.Some? && r'.live.value.tray == t && r'.done == r.done && r'.rxMsgs == r.rxMsgs)
            && (o == Parsed && whole ==> replies == [Done] && r' == Receiver(None, true, r.rxMsgs + [t.body]))
            && (o == LengthMismatch ==> replies == [Nack] && r' == Receiver(None, true, r.rxMsgs))
            && (o == NoSuchSegment ==> replies == [] && r'.done == r.done && r'.rxMsgs == r.rxMsgs)
  {
    var t := Collect(m.tray, p).0;
    RequestsCoverMissing(Missing(t.segments, m.lowest, Min(t.highest, |t.segments|)));
    hide Collect, Missing, Asked;
  }

  /** While the remote is not allowed, and when its index is taken by another, a segment is nacked. */
  lemma RefusedExactly(r: Receiver, m: Messengent, p: Packet, allowed: bool, taken: bool)
    ensures var (r', replies) := AcceptIf(r, m, p, allowed, taken);
            if !allowed || (taken && Collect(m.tray, p).1 == Parsed)
            then replies == [Nack] && r' == Receiver(None, true, r.rxMsgs)
            else (r', replies) == Accept(r, m, p)
  {
  }

  // ------------------------------------------------------------------ The redo

  /** Every packet of the tray that the redo timer may send waits for an answer. */
  ghost predicate Waiting(s: Sender) { exists before :: Waits(s, before) }

  lemma StartWaits(chunks: seq<Bytes>, burst: nat)
    requires chunks != []
    ensures Waiting(Start(chunks, burst).sender)
  {
    var s := Sender(Fresh(chunks), burst, 0, [], false, None, true);
    NextKeeps(s);
    hide SendNext, Waits;
    assert Waits(SendNext(s).0, SendNext(s).1);
  }

  lemma StepWaits(e: Exchange, a: Action)
    requires e.sender.Valid() && Waiting(e.sender) && Enabled(e, a)
    ensures Waiting(Step(e, a).sender)
  {
    var before :| Waits(e.sender, before);
    match a {
      case SenderRedo =>
        MoveKeeps(e.sender, Expired, before);
        hide Waits;
        assert Waits(Step(e, a).sender, before + Move(e.sender, Expired).1);
      case ToSender(r) =>
        MoveKeeps(e.sender, Heard(r), before);
        hide Waits, Hear;
        assert Waits(Step(e, a).sender, before + Move(e.sender, Heard(r)).1);
      case _ => assert Step(e, a).sender == e.sender;
    }
  }

  lemma {:induction false} RunWaits(e: Exchange, run: seq<Action>)
    requires e.sender.Valid() && Waiting(e.sender) && Legal(e, run)
    ensures Waiting(Run(e, run).sender)
    decreases |run|
  {
    if run != [] {
      StepWaits(e, run[0]);
      hide Waiting, Step;
      RunWaits(Step(e, run[0]), run[1..]);
    }
  }

  /** A genuine packet that waits is answered, whatever state the receiver is in. */
  lemma WaitingIsAnswered(e: Exchange, p: Packet)
    requires Inv(e) && Genuine(e, p) && HasSent(e.up, p.sn) && p.wf
    ensures Take(e.receiver, Seg(p)).1 != []
  {
    var m := if e.receiver.live.Some? then e.receiver.live.value else Messengent(NEW_TRAY, 0);
    CollectKeeps(e, m, p);
    AnsweredExactly(e.receiver, m, p);
    hide Collect, Accept, Inv;
  }

  /** Over all runs: the redo of a live Messenger is one packet, which waits; and whenever it arrives,
      however late, it draws an answer. So no transaction stalls that still has its Messenger. */
  lemma RedoIsAnswered(chunks: seq<Bytes>, burst: nat, run: seq<Action>, later: seq<Action>)
    requires chunks != [] && Legal(Start(chunks, burst), run)
    requires Run(Start(chunks, burst), run).sender.live
    requires Legal(Step(Run(Start(chunks, burst), run), SenderRedo), later)
    ensures var e := Run(Start(chunks, burst), run);
            var sent := Redo(e.sender).1;
            && |sent| == 1 && sent[0].wf
            && Take(Run(Step(e, SenderRedo), later).receiver, Seg(sent[0])).1 != []
  {
    var e := Run(Start(chunks, burst), run);
    StartInv(chunks, burst);
    StartWaits(chunks, burst);
    RunWaits(Start(chunks, burst), run);
    RunKeepsInv(Start(chunks, burst), run);
    RedoIsGenuine(e);
    var e1 := Step(e, SenderRedo);
    StepKeepsInv(e, SenderRedo);
    RunKeepsInv(e1, later);
    hide Waiting, Inv, Start, Redo, Step, Take;
    StaysSent(e1, later, Redo(e.sender).1[0]);
    WaitingIsAnswered(Run(e1, later), Redo(e.sender).1[0]);
  }

  lemma RedoIsGenuine(e: Exchange)
    requires Inv(e) && Waiting(e.sender) && e.sender.live
    ensures var (sent, e1) := (Redo(e.sender).1, Step(e, SenderRedo));
            |sent| == 1 && sent[0].wf && Genuine(e1, sent[0]) && HasSent(e1.up, sent[0].sn)
  {
    var before :| Waits(e.sender, before);
    StepKeepsInv(e, SenderRedo);
    assert Seg(Redo(e.sender).1[0]) in Step(e, SenderRedo).up;
  }

  lemma {:induction false} StaysSent(e: Exchange, run: seq<Action>, p: Packet)
    requires e.sender.Valid() && Legal(e, run) && Genuine(e, p) && HasSent(e.up, p.sn)
    ensures Genuine(Run(e, run), p) && HasSent(Run(e, run).up, p.sn)
    decreases |run|
  {
    if run != [] {
      var e1 := Step(e, run[0]);
      var more := e1.up - e.up;
      MoreSent(e.up, more);
      assert e.up + more == e1.up;
      hide Step, HasSent;
      StaysSent(e1, run[1..], p);
    }
  }
}
