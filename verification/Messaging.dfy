/** The two ends of a message transaction: raet/road/transacting.py, Messenger and Messengent.

    Each end is first a value with one function per event, then a class whose methods do the
    same work statement by statement and are proved against those functions. */
module Messaging {
  import opened Basics
  import opened Traying

  /** What a Messengent (or a Stalent in its place) sends back. */
  datatype Reply = Ack(sn: nat) | Resend(misseds: seq<nat>) | Done | Nack

  /** What reaches the receiving stack: a message packet, or the nack of a Staler. */
  datatype Request = Seg(packet: Packet) | StaleNack

  // ---------------------------------------------------------------- Messenger

  predicate Below(s: seq<nat>, bound: nat) {
    forall j :: 0 <= j < |s| ==> s[j] < bound
  }

  /** `misseds` is an ordered set of packets; a packet is named by its position in `packets`.
      `last` is the position of .txPacket. `live` says the transaction is still indexed. */
  datatype Sender = Sender(packets: seq<Packet>, burst: nat, current: nat, misseds: seq<nat>,
                           acked: bool, last: Option<nat>, live: bool)
  {
    /** Positions below these bounds are what the methods index with. */
    ghost predicate Valid() {
      && current <= |packets|
      && Below(misseds, |packets|)
      && Distinct(misseds)
      && (last.Some? ==> last.value < |packets|)
    }
  }

  /** Burst size allowed by the stack, 0 meaning no limit. */
  function BurstOf(burst: nat, waiting: nat): (k: nat)
    ensures k <= waiting && (waiting > 0 ==> k > 0)
  {
    if burst == 0 then waiting else Min(burst, waiting)
  }

  /** Messenger.message: the next burst, wait flag on its last packet. */
  function SendNext(s: Sender): (r: (Sender, seq<Packet>))
    requires s.Valid()
    ensures r.0.Valid()
  {
    if s.current >= |s.packets| then (s.(live := false), [])
    else
      var next := s.current + BurstOf(s.burst, |s.packets| - s.current);
      var packets := s.packets[next - 1 := s.packets[next - 1].(wf := true)];
      (s.(packets := packets, current := next, last := Some(next - 1)), packets[s.current..next])
  }

  /** The packets with again set on the listed ones and wait set on exactly the last listed one. */
  function FlagAgain(packets: seq<Packet>, list: seq<nat>): (r: seq<Packet>)
    requires list != []
    ensures |r| == |packets|
  {
    seq(|packets|, i requires 0 <= i < |packets| =>
      if i in list then packets[i].(af := true, wf := i == list[|list| - 1]) else packets[i])
  }

  function Pick(packets: seq<Packet>, list: seq<nat>): (r: seq<Packet>)
    requires Below(list, |packets|)
    ensures |r| == |list| && forall j :: 0 <= j < |r| ==> r[j] == packets[list[j]]
  {
    seq(|list|, j requires 0 <= j < |list| => packets[list[j]])
  }

  /** Messenger.sendMisseds: the first burst of missed packets, which leave the set. */
  function SendMisseds(s: Sender): (r: (Sender, seq<Packet>))
    requires s.Valid()
    ensures r.0.Valid()
  {
    if s.misseds == [] then (s, [])
    else
      var k := BurstOf(s.burst, |s.misseds|);
      var list := s.misseds[..k];
      var packets := FlagAgain(s.packets, list);
      (s.(packets := packets, misseds := s.misseds[k..], last := Some(list[k - 1])),
       Pick(packets, list))
  }

  /** Messenger.another: missed packets go first; otherwise the cursor falls back to the
      segment after the acknowledged one if it is ahead of it, and sending goes on. */
  function Another(s: Sender, sn: nat): (r: (Sender, seq<Packet>))
    requires s.Valid()
    ensures r.0.Valid()
  {
    if s.misseds != [] then SendMisseds(s)
    else
      var s := if s.current > sn + 1 then s.(current := sn + 1) else s;
      if s.current < |s.packets| then SendNext(s) else (s, [])
  }

  /** The missed set after a resend request, stopping at the first number out of range. */
  function AddMisseds(misseds: seq<nat>, asked: seq<nat>, count: nat): (r: (seq<nat>, bool))
    requires Distinct(misseds) && Below(misseds, count)
    ensures Distinct(r.0) && Below(r.0, count)
    decreases |asked|
  {
    if asked == [] then (misseds, true)
    else if asked[0] >= count then (misseds, false)
    else AddMisseds(if asked[0] in misseds then misseds else misseds + [asked[0]], asked[1..], count)
  }

  /** Messenger.resend */
  function Again(s: Sender, asked: seq<nat>): (r: (Sender, seq<Packet>))
    requires s.Valid()
    ensures r.0.Valid()
  {
    if asked == [] then (s, [])
    else if s.packets == [] then (s, [])
    else
      var (misseds, ok) := AddMisseds(s.misseds, asked, |s.packets|);
      var s := s.(misseds := misseds);
      if ok then SendMisseds(s) else (s, [])
  }

  /** Messenger.receive */
  function Hear(s: Sender, r: Reply): (res: (Sender, seq<Packet>))
    requires s.Valid()
    ensures res.0.Valid()
  {
    match r
    case Ack(sn) => Another(s.(acked := true), sn)
    case Resend(misseds) => Again(s.(acked := true), misseds)
    case Done => (s.(acked := true, live := false), [])
    case Nack => (s.(live := false), [])
  }

  /** Messenger.process with the redo timer expired */
  function Redo(s: Sender): (r: (Sender, seq<Packet>))
    requires s.Valid()
    ensures r.0.Valid()
  {
    if s.last.None? then (s, [])
    else
      var i := s.last.value;
      var packets := if s.acked then s.packets[i := s.packets[i].(af := true)] else s.packets;
      (s.(packets := packets), [packets[i]])
  }

  /** Messenger.message with each of its exits: the remote is not allowed, the body does not pack,
      another transaction has the index. The first call packs. */
  function Send(s: Sender, allowed: bool, packed: Option<seq<Packet>>, taken: bool): (r: (Sender, seq<Packet>))
    requires s.Valid()
    ensures r.0.Valid()
  {
    if !allowed || (s.packets == [] && packed.None?) then (s.(live := false), [])
    else
      var s := if s.packets == [] then s.(packets := packed.value, current := 0) else s;
      if taken then (s.(live := false), []) else SendNext(s.(live := true))
  }

  lemma SendNothing(s: Sender)
    requires s.Valid()
    ensures s.current >= |s.packets| ==> SendNext(s) == (s.(live := false), [])
  {
  }

  /** The first call sends the first burst of a live Messenger with its packets; and a later one,
      while the remote stays allowed, is SendNext. */
  lemma FirstSend(s: Sender, burst: nat, packets: seq<Packet>)
    requires s.Valid() && s.live && s.packets != [] && packets != []
    ensures Send(Sender([], burst, 0, [], false, None, false), true, Some(packets), false)
            == SendNext(Sender(packets, burst, 0, [], false, None, true))
    ensures Send(s, true, None, false) == SendNext(s)
  {
    assert s.(live := true) == s;
  }

  /** Whether an acknowledgement of segment sn is followed by the next burst of new segments. */
  predicate GoesOn(s: Sender, sn: nat) { s.misseds == [] && Min(s.current, sn + 1) < |s.packets| }

  /** Messenger.receive when the remote may not be allowed: an acknowledgement then ends the
      transaction where it would have sent the next burst. */
  function HearIf(s: Sender, r: Reply, allowed: bool): (res: (Sender, seq<Packet>))
    requires s.Valid()
    ensures res.0.Valid()
  {
    var heard := Hear(s, r);
    if allowed || !r.Ack? || s.misseds != [] then heard
    else
      var s := s.(acked := true, current := Min(s.current, r.sn + 1));
      (if s.current < |s.packets| then s.(live := false) else s, [])
  }

  /** Which acknowledgements end a Messenger: those that go on while the remote is not allowed. The
      others, and all while it is allowed, leave it live; and exactly those that go on, or find
      segments missed, send something while it is. */
  lemma AckEndsExactly(s: Sender, sn: nat, allowed: bool)
    requires s.Valid() && s.live
    ensures !HearIf(s, Ack(sn), allowed).0.live <==> !allowed && GoesOn(s, sn)
    ensures HearIf(s, Ack(sn), true).1 != [] <==> GoesOn(s, sn) || s.misseds != []
  {
    hide FlagAgain, Pick;
  }

  class Messenger {
    var packets: seq<Packet>
    const burst: nat
    var current: nat
    var misseds: seq<nat>
    var acked: bool
    var txPacket: Option<nat>
    var live: bool
    var txes: seq<Packet>  // the packets this transaction put on the stack's transmit queue

    function View(): Sender
      reads this
    {
      Sender(packets, burst, current, misseds, acked, txPacket, live)
    }

    constructor (burst: nat)
      ensures View() == Sender([], burst, 0, [], false, None, false)
      ensures txes == []
    {
      this.burst := burst;
      packets, current, misseds, acked, txPacket, live, txes := [], 0, [], false, None, false, [];
    }

    method Transmit(i: nat)
      requires i < |packets|
      modifies this`txes, this`txPacket
      ensures txes == old(txes) + [packets[i]] && txPacket == Some(i)
    {
      txes, txPacket := txes + [packets[i]], Some(i);
    }

    method Message(allowed: bool, packed: Option<seq<Packet>>, taken: bool)
      requires View().Valid()
      modifies this
      ensures var r := Send(old(View()), allowed, packed, taken); View() == r.0 && txes == old(txes) + r.1
    {
      hide SendNext;
      if !allowed {
        live := false;
        return;
      }
      if packets == [] {
        if packed.None? {
          live := false;
          return;
        }
        packets, current := packed.value, 0;
      }
      if current >= |packets| || taken {
        SendNothing(View().(live := true));
        live := false;
        return;
      }
      live := true;
      SendOn();
    }

    /** The next burst, wait flag on its last packet. */
    method SendOn()
      requires View().Valid() && current < |packets|
      modifies this
      ensures var r := SendNext(old(View())); View() == r.0 && txes == old(txes) + r.1
    {
      var k := if burst != 0 then Min(burst, |packets| - current) else |packets| - current;
      packets := packets[current + k - 1 := packets[current + k - 1].(wf := true)];
      SendBurst(k);
    }

    /** The transmit loop of message. */
    method SendBurst(k: nat)
      requires current + k <= |packets|
      modifies this`txes, this`txPacket, this`current
      ensures current == old(current) + k
      ensures txPacket == if k == 0 then old(txPacket) else Some(current - 1)
      ensures txes == old(txes) + packets[old(current)..current]
    {
      for j := 0 to k
        invariant current == old(current) + j
        invariant txPacket == if j == 0 then old(txPacket) else Some(current - 1)
        invariant txes == old(txes) + packets[old(current)..current]
      {
        Transmit(current);
        current := current + 1;
      }
    }

    method FlagMissed(list: seq<nat>)
      requires list != [] && Below(list, |packets|) && Distinct(list)
      modifies this`packets
      ensures packets == FlagAgain(old(packets), list)
    {
      for j := 0 to |list|
        invariant |packets| == |old(packets)|
        invariant forall i :: 0 <= i < |packets| ==>
          packets[i] == if i in list[..j] then FlagAgain(old(packets), list)[i] else old(packets)[i]
      {
        packets := packets[list[j] := packets[list[j]].(af := true, wf := j == |list| - 1)];
        assert list[..j + 1] == list[..j] + [list[j]];
      }
      assert list[..|list|] == list;
    }

    method SendMissed()
      requires View().Valid()
      modifies this
      ensures var r := SendMisseds(old(View())); View() == r.0 && txes == old(txes) + r.1
    {
      hide FlagAgain, Pick;
      if misseds == [] {
        return;
      }
      var k := if burst != 0 then Min(burst, |misseds|) else |misseds|;
      FlagMissed(misseds[..k]);
      SendListed(k);
    }

    /** The transmit loop of sendMisseds. */
    method SendListed(k: nat)
      requires k <= |misseds| && Below(misseds, |packets|)
      modifies this`txes, this`txPacket, this`misseds
      ensures misseds == old(misseds)[k..]
      ensures txPacket == if k == 0 then old(txPacket) else Some(old(misseds)[k - 1])
      ensures txes == old(txes) + Pick(packets, old(misseds)[..k])
    {
      ghost var all := Pick(packets, old(misseds));
      for j := 0 to k
        invariant misseds == old(misseds)[j..]
        invariant txPacket == if j == 0 then old(txPacket) else Some(old(misseds)[j - 1])
        invariant txes == old(txes) + all[..j]
      {
        Transmit(misseds[0]);
        misseds := misseds[1..];
        assert all[..j + 1] == all[..j] + [all[j]];
      }
      assert all[..k] == Pick(packets, old(misseds)[..k]);
    }

    /** Messenger.another, on an acknowledgement of segment sn */
    method GoOn(sn: nat, allowed: bool)
      requires View().Valid() && live && acked
      modifies this
      ensures var r := HearIf(old(View()), Ack(sn), allowed); View() == r.0 && txes == old(txes) + r.1
    {
      if misseds != [] {
        SendMissed();
      } else {
        if current > sn + 1 {
          current := sn + 1;
        }
        if current < |packets| {
          Message(allowed, None, false);
        }
      }
    }

    /** The loop of Messenger.resend; ok is false when it meets a number out of range. */
    method AddMissed(asked: seq<nat>) returns (ok: bool)
      requires View().Valid()
      modifies this`misseds
      ensures (misseds, ok) == AddMisseds(old(misseds), asked, |packets|)
    {
      for j := 0 to |asked|
        invariant Distinct(misseds) && Below(misseds, |packets|)
        invariant AddMisseds(misseds, asked[j..], |packets|) == AddMisseds(old(misseds), asked, |packets|)
      {
        assert asked[j..][0] == asked[j] && asked[j..][1..] == asked[j + 1..];
        if asked[j] >= |packets| {
          return false;
        }
        if asked[j] !in misseds {
          misseds := misseds + [asked[j]];
        }
      }
      return true;
    }

    /** Messenger.resend */
    method ResendAsked(asked: seq<nat>)
      requires View().Valid()
      modifies this
      ensures var r := Again(old(View()), asked); View() == r.0 && txes == old(txes) + r.1
    {
      hide SendMisseds;
      if asked != [] && packets != [] {
        var ok := AddMissed(asked);
        if ok {
          SendMissed();
        }
      }
    }

    /** Messenger.receive and the method each packet kind leads to. */
    method Receive(r: Reply, allowed: bool)
      requires View().Valid() && live
      modifies this
      ensures var res := HearIf(old(View()), r, allowed); View() == res.0 && txes == old(txes) + res.1
    {
      hide Another, Again;
      match r
      case Ack(sn) =>
        acked := true;
        GoOn(sn, allowed);
      case Resend(asked) =>
        acked := true;
        ResendAsked(asked);
      case Done =>
        acked, live := true, false;
      case Nack =>
        live := false;
    }

    /** Messenger.process: a transaction that timed out is removed. */
    method Process(expired: bool, redo: bool)
      requires View().Valid()
      modifies this
      ensures var r := if expired then (old(View()).(live := false), [])
                       else if redo then Redo(old(View())) else (old(View()), []);
              View() == r.0 && txes == old(txes) + r.1
    {
      if expired {
        live := false;
        return;
      }
      if redo && txPacket.Some? {
        var i := txPacket.value;
        if acked && !packets[i].af {
          packets := packets[i := packets[i].(af := true)];
        }
        Transmit(i);
      }
    }
  }

  // --------------------------------------------------------------- Messengent

  /** `lowest` None is 0, the begin the source's missing() takes for it. */
  datatype Messengent = Messengent(tray: Tray, lowest: nat)

  /** The receiving stack as one transaction sees it: its Messengent while it is indexed,
      whether its tid is in doneTransactions, and the bodies it appended to rxMsgs. */
  datatype Receiver = Receiver(live: Option<Messengent>, done: bool, rxMsgs: seq<Bytes>)

  /** The missing list cut into requests of at most 64 numbers. */
  function Requests(misseds: seq<nat>): (r: seq<Reply>)
    ensures forall i :: 0 <= i < |r| ==> r[i].Resend? && 0 < |r[i].misseds| <= 64
    decreases |misseds|
  {
    if misseds == [] then []
    else if |misseds| > 64 then [Resend(misseds[..64])] + Requests(misseds[64..])
    else [Resend(misseds)]
  }

  function Asked(replies: seq<Reply>): seq<nat> {
    if replies == [] then []
    else (if replies[0].Resend? then replies[0].misseds else []) + Asked(replies[1..])
  }

  /** The resend loop asks for exactly the missing list, in its order. */
  lemma {:induction false} RequestsCoverMissing(misseds: seq<nat>)
    ensures Asked(Requests(misseds)) == misseds
    decreases |misseds|
  {
    if |misseds| > 64 {
      RequestsCoverMissing(misseds[64..]);
      assert Requests(misseds)[1..] == Requests(misseds[64..]);
    } else if misseds != [] {
      assert Asked([Resend(misseds)]) == misseds + Asked([Resend(misseds)][1..]);
    }
  }

  /** Ask for what is missing below the highest segment, else acknowledge it. */
  function AskMore(m: Messengent): (Messengent, seq<Reply>) {
    var misseds := Missing(m.tray.segments, m.lowest, Min(m.tray.highest, |m.tray.segments|));
    if misseds != [] then (m.(lowest := misseds[0]), Requests(misseds))
    else (m, [Ack(m.tray.highest)])
  }

  function Finish(r: Receiver, t: Tray): (Receiver, seq<Reply>) {
    (Receiver(None, true, r.rxMsgs + [t.body]), [Done])
  }

  function Nacked(r: Receiver): (Receiver, seq<Reply>) { (Receiver(None, true, r.rxMsgs), [Nack]) }

  /** Messengent.message. A PacketError nacks and ends the transaction; an IndexError leaves
      it as it was indexed. */
  function Accept(r: Receiver, m: Messengent, p: Packet): (Receiver, seq<Reply>) {
    var (t, o) := Collect(m.tray, p);
    var m := m.(tray := t);
    match o
    case LengthMismatch => Nacked(r)
    case NoSuchSegment => (if r.live.Some? then r.(live := Some(m)) else r, [])
    case Parsed =>
      if t.complete then Finish(r, t)
      else if p.wf then var (m, replies) := AskMore(m); (r.(live := Some(m)), replies)
      else (r.(live := Some(m)), [])
  }

  /** Messengent.message with its other exits: the remote is not allowed, which nacks before the
      packet is looked at, or another transaction has the index. */
  function AcceptIf(r: Receiver, m: Messengent, p: Packet, allowed: bool, taken: bool): (Receiver, seq<Reply>) {
    if !allowed || (taken && Collect(m.tray, p).1 == Parsed) then Nacked(r) else Accept(r, m, p)
  }

  /** processRx and correspond for a message packet whose session is current: the indexed
      Messengent takes it, or a new one does unless it is an again or done transaction. */
  function Take(r: Receiver, u: Request): (Receiver, seq<Reply>) {
    match u
    case Seg(p) =>
      if r.live.Some? then Accept(r, r.live.value, p)
      else if p.af || r.done then (r, [Nack])
      else Accept(r, Messengent(NEW_TRAY, 0), p)
    case StaleNack =>
      if r.live.Some? then (r.(live := None, done := true), []) else (r, [])
  }

  /** Messengent.process with the redo timer expired */
  function Nudge(r: Receiver): (Receiver, seq<Reply>) {
    if r.live.None? then (r, [])
    else if r.live.value.tray.complete then Finish(r, r.live.value.tray)
    else var (m, replies) := AskMore(r.live.value); (r.(live := Some(m)), replies)
  }

  /** One Messengent together with the parts of its stack and remote it changes. */
  class Correspondent {
    const tray: RxTray
    var lowest: nat
    var indexed: bool         // is in remote.transactions
    var done: bool            // its tid is in remote.doneTransactions
    var rxMsgs: seq<Bytes>
    var txes: seq<Reply>

    /** The value the spec functions work on. */
    function View(): Receiver
      reads this, tray
    {
      Receiver(if indexed then Some(Messengent(tray.View(), lowest)) else None, done, rxMsgs)
    }

    /** A Messengent just constructed by replyMessage, not indexed yet. */
    constructor ()
      ensures View() == Receiver(None, false, []) && txes == []
      ensures fresh(tray) && tray.View() == NEW_TRAY && lowest == 0
    {
      tray := new RxTray();
      lowest, indexed, done, rxMsgs, txes := 0, false, false, [], [];
    }

    method Remove()
      modifies this`indexed, this`done
      ensures !indexed && done
    {
      indexed, done := false, true;
    }

    method Complete()
      modifies this
      ensures View() == Finish(old(View()), old(tray.View())).0 && txes == old(txes) + [Done]
    {
      txes := txes + [Done];
      rxMsgs := rxMsgs + [tray.body];
      Remove();
    }

    method SendResend(missing: seq<nat>)
      modifies this`txes
      ensures txes == old(txes) + Requests(missing)
    {
      var misseds := missing;
      while misseds != []
        invariant txes + Requests(misseds) == old(txes) + Requests(missing)
        decreases |misseds|
      {
        var remainders := [];
        if |misseds| > 64 {
          remainders, misseds := misseds[64..], misseds[..64];
        }
        txes := txes + [Resend(misseds)];
        misseds := remainders;
      }
    }

    method SendMore()
      modifies this`lowest, this`txes
      ensures var r := AskMore(Messengent(tray.View(), old(lowest)));
              lowest == r.0.lowest && txes == old(txes) + r.1
    {
      var misseds := Missing(tray.segments, lowest, Min(tray.highest, |tray.segments|));
      if misseds != [] {
        lowest := misseds[0];
        SendResend(misseds);
      } else {
        txes := txes + [Ack(tray.highest)];
      }
    }

    method SendNack()
      modifies this`txes, this`indexed, this`done
      ensures View() == Nacked(old(View())).0 && txes == old(txes) + [Nack]
    {
      txes := txes + [Nack];
      Remove();
    }

    /** Called on the indexed Messengent, or on the new one replyMessage has just built; taken says
        that another transaction has its index. */
    method Message(p: Packet, allowed: bool, taken: bool)
      requires indexed || (tray.View() == NEW_TRAY && lowest == 0)
      requires taken ==> !indexed
      modifies this, tray
      ensures var r := AcceptIf(old(View()), old(Messengent(tray.View(), lowest)), p, allowed, taken);
              View() == r.0 && txes == old(txes) + r.1
    {
      if !allowed {
        SendNack();
        return;
      }
      var o := tray.Parse(p);
      if o == LengthMismatch {
        SendNack();
        return;
      }
      if o == NoSuchSegment {
        return;
      }
      if taken {
        SendNack();
        return;
      }
      indexed := true;
      if tray.complete {
        Complete();
      } else if p.wf {
        SendMore();
      }
    }

    /** Messengent.reject: the initiator's nack ends an indexed transaction. */
    method Reject()
      requires indexed
      modifies this
      ensures (View(), []) == Take(old(View()), StaleNack) && txes == old(txes)
    {
      Remove();
    }

    /** Messengent.process: a transaction that timed out is nacked. */
    method Process(expired: bool, redo: bool)
      requires indexed
      modifies this
      ensures var r := if expired then Nacked(old(View()))
                       else if redo then Nudge(old(View())) else (old(View()), []);
              View() == r.0 && txes == old(txes) + r.1
    {
      if expired {
        SendNack();
        return;
      }
      if redo {
        if tray.complete {
          Complete();
        } else {
          SendMore();
        }
      }
    }
  }
}
