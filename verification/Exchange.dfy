/** One message transaction as a two-party system over a road that may lose, duplicate and
    reorder packets: every packet ever sent stays in `up` or `down` and may be delivered any
    number of times, in any order, or never. */
module Exchange {
  import opened Basics
  import opened Traying
  import opened Messaging

  /** `chunks` are the coat segments of the message and `body` their concatenation; neither changes. */
  datatype Exchange = Exchange(chunks: seq<Bytes>, body: Bytes, sender: Sender, receiver: Receiver,
                               up: set<Request>, down: set<Reply>)

  datatype Action = SenderRedo | ReceiverRedo | ToSender(reply: Reply) | ToReceiver(request: Request)

  function Wrap(packets: seq<Packet>): set<Request> { set p | p in packets :: Seg(p) }

  predicate Enabled(e: Exchange, a: Action) {
    match a
    case SenderRedo => e.sender.live
    case ReceiverRedo => e.receiver.live.Some?
    case ToSender(r) => r in e.down
    case ToReceiver(u) => u in e.up
  }

  /** A packet for a Messenger that is gone makes the stack send a stale nack, except for a nack. */
  function Step(e: Exchange, a: Action): (r: Exchange)
    requires e.sender.Valid()
    ensures r.sender.Valid() && r.chunks == e.chunks && r.body == e.body
  {
    match a
    case SenderRedo =>
      var (s, sent) := Redo(e.sender);
      e.(sender := s, up := e.up + Wrap(sent))
    case ReceiverRedo =>
      var (r, sent) := Nudge(e.receiver);
      e.(receiver := r, down := e.down + ToSet(sent))
    case ToSender(reply) =>
      if e.sender.live then
        var (s, sent) := Hear(e.sender, reply);
        e.(sender := s, up := e.up + Wrap(sent))
      else if reply == Nack then e
      else e.(up := e.up + {StaleNack})
    case ToReceiver(request) =>
      var (r, sent) := Take(e.receiver, request);
      e.(receiver := r, down := e.down + ToSet(sent))
  }

  /** A Messenger is created and its message() sends the first burst. */
  function Start(chunks: seq<Bytes>, burst: nat): (e: Exchange)
    requires chunks != []
    ensures e.sender.Valid() && e.chunks == chunks
  {
    var (s, sent) := SendNext(Sender(Fresh(chunks), burst, 0, [], false, None, true));
    Exchange(chunks, Join(chunks), s, Receiver(None, false, []), Wrap(sent), {})
  }

  // ------------------------------------------------------------- Invariant

  predicate Genuine(e: Exchange, p: Packet) {
    p.sn < |e.chunks| && p.sc == |e.chunks| && p.ml == MessageLength(e.chunks) && p.segment == e.chunks[p.sn]
  }

  ghost predicate HasSent(up: set<Request>, i: nat) {
    exists u :: u in up && u.Seg? && u.packet.sn == i
  }

  ghost predicate AllSent(up: set<Request>, list: seq<nat>) {
    forall j :: 0 <= j < |list| ==> HasSent(up, list[j])
  }

  ghost predicate SenderOk(e: Exchange) {
    && e.chunks != [] && Join(e.chunks) == e.body
    && e.sender.Valid()
    && |e.sender.packets| == |e.chunks|
    && (forall i :: 0 <= i < |e.chunks| ==> e.sender.packets[i].sn == i && Genuine(e, e.sender.packets[i]))
    && e.sender.last.Some?
  }

  /** Segments are first transmitted in order, so what has been sent is a prefix. */
  ghost predicate SentOk(e: Exchange) {
    && (forall u :: u in e.up && u.Seg? ==> Genuine(e, u.packet))
    && (forall u, j :: u in e.up && u.Seg? && 0 <= j <= u.packet.sn ==> HasSent(e.up, j))
    && (forall i :: 0 <= i < e.sender.current ==> HasSent(e.up, i))
    && AllSent(e.up, e.sender.misseds)
    && (e.sender.last.Some? ==> HasSent(e.up, e.sender.last.value))
  }

  ghost predicate TrayOk(e: Exchange, m: Messengent) {
    var t := m.tray;
    && !t.complete && !Full(t.segments)
    && |t.segments| == |e.chunks| == t.sc && |t.segments| != 1 && t.ml == |e.body|
    && t.highest < |t.segments| && t.segments[t.highest].Some?
    && (forall i :: 0 <= i < |t.segments| && t.segments[i].Some? ==>
          i <= t.highest && t.segments[i].value == e.chunks[i] && HasSent(e.up, i))
    && m.lowest <= t.highest
    && (forall i :: 0 <= i < m.lowest ==> t.segments[i].Some?)
  }

  ghost predicate ReceiverOk(e: Exchange) {
    && (e.receiver.live.Some? ==> TrayOk(e, e.receiver.live.value) && !e.receiver.done)
    && (e.receiver.done ==> e.receiver.rxMsgs == [e.body])
    && (!e.receiver.done ==> e.receiver.rxMsgs == [])
  }

  /** Some Messengent has been created for this transaction. */
  predicate Known(e: Exchange) {
    e.receiver.live.Some? || e.receiver.done
  }

  ghost predicate AgainOk(e: Exchange) {
    || Known(e)
    || (&& e.down == {} && !e.sender.acked && e.sender.live && e.sender.misseds == []
        && (forall i :: 0 <= i < |e.sender.packets| ==> !e.sender.packets[i].af)
        && (forall u :: u in e.up && u.Seg? ==> !u.packet.af))
  }

  /** What a reply still in flight promises. */
  ghost predicate Honest(e: Exchange, r: Reply) {
    match r
    case Ack(sn) =>
      && sn < |e.chunks| && HasSent(e.up, sn)
      && (e.receiver.live.Some? ==>
            var t := e.receiver.live.value.tray;
            sn <= t.highest < |t.segments| && forall i :: 0 <= i <= sn ==> t.segments[i].Some?)
    case Resend(misseds) =>
      misseds != [] && Below(misseds, |e.chunks|) && AllSent(e.up, misseds)
    case Done => e.receiver.done
    case Nack => e.receiver.done
  }

  ghost predicate Inv(e: Exchange)
    ensures Inv(e) ==> e.sender.Valid()
  {
    && SenderOk(e) && SentOk(e) && ReceiverOk(e) && AgainOk(e)
    && (forall r :: r in e.down ==> Honest(e, r))
    && (!e.sender.live ==> e.receiver.done)
    && (StaleNack in e.up ==> e.receiver.done)
  }

  // ------------------------------------------- The sender's side of the invariant

  function Sends(e: Exchange, r: (Sender, seq<Packet>)): Exchange {
    e.(sender := r.0, up := e.up + Wrap(r.1))
  }

  ghost predicate SenderSide(e: Exchange) { SenderOk(e) && SentOk(e) }

  /** The packets are those of before up to their flags. */
  ghost predicate Reflagged(before: seq<Packet>, after: seq<Packet>) {
    |after| == |before| &&
    forall i :: 0 <= i < |before| ==> after[i] == before[i].(af := after[i].af, wf := after[i].wf)
  }

  /** Segment number i was sent before or is sent now. */
  ghost predicate Covered(up: set<Request>, sent: seq<Packet>, i: nat) {
    HasSent(up, i) || exists l :: 0 <= l < |sent| && sent[l].sn == i
  }

  /** Sending packets of the tray, none of them more than one ahead of those sent before it. */
  lemma Transmits(e: Exchange, s: Sender, sent: seq<Packet>)
    requires SenderSide(e) && s.Valid() && s.last.Some? && Reflagged(e.sender.packets, s.packets)
    requires forall k :: 0 <= k < |sent| ==> sent[k].sn < |s.packets| && sent[k] == s.packets[sent[k].sn]
    requires forall k, j :: 0 <= k < |sent| && 0 <= j < sent[k].sn ==> Covered(e.up, sent, j)
    requires forall i :: 0 <= i < s.current ==> Covered(e.up, sent, i)
    requires forall j :: 0 <= j < |s.misseds| ==> Covered(e.up, sent, s.misseds[j])
    requires Covered(e.up, sent, s.last.value)
    ensures SenderSide(Sends(e, (s, sent)))
  {
    var e' := Sends(e, (s, sent));
    MoreSent(e.up, Wrap(sent));
    forall i | Covered(e.up, sent, i) ensures HasSent(e'.up, i) {
      if !HasSent(e.up, i) {
        var l :| 0 <= l < |sent| && sent[l].sn == i;
        assert Seg(sent[l]) in e'.up;
      }
    }
    forall u | u in e'.up && u.Seg?
      ensures Genuine(e', u.packet) && forall j :: 0 <= j <= u.packet.sn ==> HasSent(e'.up, j)
    {
      if u !in e.up {
        var k :| 0 <= k < |sent| && sent[k] == u.packet;
        assert Covered(e.up, sent, sent[k].sn);
      }
    }
  }

  lemma MoreSent(up: set<Request>, more: set<Request>)
    ensures forall i :: HasSent(up, i) ==> HasSent(up + more, i)
  {
    forall i | HasSent(up, i) ensures HasSent(up + more, i) {
      var u :| u in up && u.Seg? && u.packet.sn == i;
      assert u in up + more;
    }
  }

  /** Every packet of the tray carries its own position as segment number. */
  predicate Numbered(packets: seq<Packet>) {
    forall i :: 0 <= i < |packets| ==> packets[i].sn == i
  }

  lemma NextBurst(s: Sender)
    requires s.Valid() && Numbered(s.packets) && s.current < |s.packets|
    ensures var (s', sent) := SendNext(s);
            && s'.misseds == s.misseds && s.current < s'.current <= |s.packets| && s'.last == Some(s'.current - 1)
            && Reflagged(s.packets, s'.packets) && |sent| == s'.current - s.current
            && forall l :: 0 <= l < |sent| ==> sent[l].sn == s.current + l && sent[l] == s'.packets[s.current + l]
  {
  }

  lemma SendNextKeeps(e: Exchange)
    requires SenderSide(e) && e.sender.current < |e.sender.packets|
    ensures SenderSide(Sends(e, SendNext(e.sender)))
  {
    var (s, sent) := SendNext(e.sender);
    var c := e.sender.current;
    NextBurst(e.sender);
    hide SendNext;
    forall i | 0 <= i < s.current ensures Covered(e.up, sent, i) {
      if c <= i { assert sent[i - c].sn == i; }
    }
    Keep(e, s);
    Transmits(e, s, sent);
  }

  /** Missed segments that stay missed were sent before. */
  lemma Keep(e: Exchange, s: Sender)
    requires SentOk(e) && |s.misseds| <= |e.sender.misseds|
    requires s.misseds == e.sender.misseds[|e.sender.misseds| - |s.misseds|..]
    ensures forall j, sent :: 0 <= j < |s.misseds| ==> Covered(e.up, sent, s.misseds[j])
  {
    var k := |e.sender.misseds| - |s.misseds|;
    forall j, sent | 0 <= j < |s.misseds| ensures Covered(e.up, sent, s.misseds[j]) {
      assert e.sender.misseds[k + j] == s.misseds[j];
    }
  }

  lemma FlagsOnly(packets: seq<Packet>, list: seq<nat>)
    requires Numbered(packets) && list != []
    ensures Numbered(FlagAgain(packets, list)) && Reflagged(packets, FlagAgain(packets, list))
  {
  }

  lemma PickNumbered(packets: seq<Packet>, list: seq<nat>)
    requires Numbered(packets) && Below(list, |packets|)
    ensures forall l :: 0 <= l < |list| ==> Pick(packets, list)[l].sn == list[l]
  {
    hide Pick;
  }

  lemma FirstOf(misseds: seq<nat>, k: nat, n: nat)
    requires k <= |misseds| && Below(misseds, n)
    ensures Below(misseds[..k], n) && forall l :: 0 <= l < k ==> misseds[..k][l] == misseds[l]
  {
  }

  lemma MissedParts(s: Sender)
    requires s.Valid() && s.misseds != []
    ensures var k := BurstOf(s.burst, |s.misseds|);
            var packets := FlagAgain(s.packets, s.misseds[..k]);
            && Below(s.misseds[..k], |packets|)
            && SendMisseds(s) == (s.(packets := packets, misseds := s.misseds[k..], last := Some(s.misseds[k - 1])),
                                  Pick(packets, s.misseds[..k]))
  {
    hide FlagAgain, Pick, BurstOf;
  }

  lemma MissedBurst(s: Sender)
    requires s.Valid() && Numbered(s.packets) && s.misseds != []
    ensures var (s', sent) := SendMisseds(s);
            var k := BurstOf(s.burst, |s.misseds|);
            && Numbered(s'.packets) && Reflagged(s.packets, s'.packets)
            && |sent| == k > 0 && s'.misseds == s.misseds[k..] && s'.last == Some(sent[k - 1].sn)
            && (forall l :: 0 <= l < k ==> sent[l].sn == s.misseds[l] && sent[l] == s'.packets[s.misseds[l]])
  {
    var list := s.misseds[..BurstOf(s.burst, |s.misseds|)];
    FirstOf(s.misseds, |list|, |s.packets|);
    hide *;
    MissedParts(s);
    FlagsOnly(s.packets, list);
    PickNumbered(FlagAgain(s.packets, list), list);
  }

  lemma SendMissedsKeeps(e: Exchange)
    requires SenderSide(e)
    ensures SenderSide(Sends(e, SendMisseds(e.sender)))
  {
    var (s, sent) := SendMisseds(e.sender);
    if e.sender.misseds == [] {
      assert e.up + Wrap(sent) == e.up;
    } else {
      MissedBurst(e.sender);
      Keep(e, s);
      assert forall l :: 0 <= l < |sent| ==> HasSent(e.up, sent[l].sn);
      Transmits(e, s, sent);
    }
  }

  lemma {:induction false} AddMissedsSent(up: set<Request>, misseds: seq<nat>, asked: seq<nat>, n: nat)
    requires Distinct(misseds) && Below(misseds, n) && AllSent(up, misseds) && AllSent(up, asked)
    ensures AllSent(up, AddMisseds(misseds, asked, n).0)
    decreases |asked|
  {
    if asked != [] && asked[0] < n {
      var more := if asked[0] in misseds then misseds else misseds + [asked[0]];
      AddMissedsSent(up, more, asked[1..], n);
    }
  }

  lemma AnotherKeeps(e: Exchange, sn: nat)
    requires SenderSide(e)
    ensures SenderSide(Sends(e, Another(e.sender, sn)))
  {
    if e.sender.misseds != [] {
      SendMissedsKeeps(e);
    } else {
      var s := if e.sender.current > sn + 1 then e.sender.(current := sn + 1) else e.sender;
      if s.current < |s.packets| {
        SendNextKeeps(e.(sender := s));
      } else {
        assert e.up + Wrap([]) == e.up;
      }
    }
  }

  lemma AgainKeeps(e: Exchange, asked: seq<nat>)
    requires SenderSide(e) && AllSent(e.up, asked) && Below(asked, |e.chunks|)
    ensures SenderSide(Sends(e, Again(e.sender, asked)))
  {
    AddMissedsSent(e.up, e.sender.misseds, asked, |e.sender.packets|);
    var (misseds, ok) := AddMisseds(e.sender.misseds, asked, |e.sender.packets|);
    SendMissedsKeeps(e.(sender := e.sender.(misseds := misseds)));
    assert e.up + Wrap([]) == e.up;
  }

  lemma HearKeeps(e: Exchange, r: Reply)
    requires SenderSide(e) && Honest(e, r)
    ensures SenderSide(Sends(e, Hear(e.sender, r)))
  {
    var heard := e.(sender := e.sender.(acked := true));
    match r {
      case Ack(sn) => AnotherKeeps(heard, sn);
      case Resend(asked) => AgainKeeps(heard, asked);
      case Done => assert e.up + Wrap([]) == e.up;
      case Nack => assert e.up + Wrap([]) == e.up;
    }
  }

  lemma RedoKeeps(e: Exchange)
    requires SenderSide(e)
    ensures SenderSide(Sends(e, Redo(e.sender)))
  {
    var (s, sent) := Redo(e.sender);
    assert HasSent(e.up, sent[0].sn);
    Keep(e, s);
    Transmits(e, s, sent);
  }

  // ----------------------------------------- The receiver's side of the invariant

  /** A genuine packet is always parsed; the last missing one yields the body. */
  lemma CollectKeeps(e: Exchange, m: Messengent, p: Packet)
    requires SenderOk(e) && Genuine(e, p) && HasSent(e.up, p.sn)
    requires m == Messengent(NEW_TRAY, 0) || TrayOk(e, m)
    ensures var (t, o) := Collect(m.tray, p);
            o == Parsed && if t.complete then t.body == e.body else TrayOk(e, m.(tray := t))
  {
    var t := Collect(m.tray, p).0;
    hide HasSent;
    if p.sc == 1 {
      assert Join(e.chunks) == e.chunks[0] + Join(e.chunks[1..]);
    } else {
      CollectOne(m.tray, p);
      hide Join, Collect;
      if Full(t.segments) {
        assert Values(t.segments) == e.chunks;
      } else {
        assert t.segments[t.highest].Some?;
      }
    }
  }

  lemma FirstMissed(segments: seq<Option<Bytes>>, low: nat, end: nat)
    requires low <= end <= |segments|
    ensures var misseds := Missing(segments, low, end);
            var first := if misseds == [] then end else misseds[0];
            && low <= first <= end && (forall i :: low <= i < first ==> segments[i].Some?)
            && Below(misseds, end)
  {
    var misseds := Missing(segments, low, end);
    assert forall j :: 0 <= j < |misseds| ==> misseds[j] in misseds;
    var first := if misseds == [] then end else misseds[0];
    forall i | low <= i < first ensures segments[i].Some? {
      assert i !in misseds;
    }
  }

  lemma AckHonest(e: Exchange, m: Messengent)
    requires SenderSide(e) && TrayOk(e, m) && forall i :: m.lowest <= i < m.tray.highest ==> m.tray.segments[i].Some?
    ensures Honest(e.(receiver := Receiver(Some(m), false, [])), Ack(m.tray.highest))
  {
  }

  lemma AskedWereSent(e: Exchange, misseds: seq<nat>, h: nat)
    requires SentOk(e) && HasSent(e.up, h) && Below(misseds, h)
    ensures AllSent(e.up, misseds)
  {
    var u :| u in e.up && u.Seg? && u.packet.sn == h;
  }

  /** What a Messengent asks for is honest, and asking leaves its tray as it was. */
  lemma AskMoreHonest(e: Exchange, m: Messengent)
    requires SenderSide(e) && TrayOk(e, m)
    ensures var (m', replies) := AskMore(m);
            && TrayOk(e, m') && m'.tray == m.tray
            && forall r :: r in replies ==> Honest(e.(receiver := Receiver(Some(m'), false, [])), r)
  {
    var misseds := Missing(m.tray.segments, m.lowest, m.tray.highest);
    FirstMissed(m.tray.segments, m.lowest, m.tray.highest);
    AskedWereSent(e, misseds, m.tray.highest);
    if misseds == [] {
      AckHonest(e, m);
      hide TrayOk, SenderSide, Honest, Missing, Requests;
    } else {
      RequestsWithin(e.up, misseds, |e.chunks|);
      hide SenderSide, HasSent, Missing, Requests, AllSent;
    }
  }

  lemma {:induction false} RequestsWithin(up: set<Request>, misseds: seq<nat>, n: nat)
    requires Below(misseds, n) && AllSent(up, misseds)
    ensures forall r :: r in Requests(misseds) ==>
              r.Resend? && r.misseds != [] && Below(r.misseds, n) && AllSent(up, r.misseds)
    decreases |misseds|
  {
    if |misseds| > 64 {
      RequestsWithin(up, misseds[64..], n);
    }
  }

  // ---------------------------------------------------------- Every step keeps it

  ghost predicate Grown(t: Tray, t': Tray) {
    && t.highest <= t'.highest && |t.segments| == |t'.segments|
    && forall i :: 0 <= i < |t.segments| && t.segments[i].Some? ==> t'.segments[i] == t.segments[i]
  }

  /** A change of the receiver that keeps earlier replies honest. */
  ghost predicate Onward(r: Receiver, r': Receiver) {
    && (r.done ==> r'.done)
    && (r'.live.Some? ==> !r.done && (r.live.Some? ==> Grown(r.live.value.tray, r'.live.value.tray)))
    && (r.live.Some? ==> r'.live.Some? || r'.done)
  }

  lemma StillHonest(e: Exchange, r: Receiver, reply: Reply)
    requires ReceiverOk(e) && ReceiverOk(e.(receiver := r)) && Onward(e.receiver, r) && Known(e)
    requires Honest(e, reply)
    ensures Honest(e.(receiver := r), reply)
  {
    hide HasSent;
  }

  lemma Replies(e: Exchange, r: Receiver, sent: seq<Reply>)
    requires Inv(e) && Onward(e.receiver, r)
    requires var e' := e.(receiver := r);
             ReceiverOk(e') && (sent != [] ==> Known(e')) && forall reply :: reply in sent ==> Honest(e', reply)
    ensures Inv(e.(receiver := r, down := e.down + ToSet(sent)))
  {
    var e' := e.(receiver := r, down := e.down + ToSet(sent));
    forall reply | reply in e'.down ensures Honest(e', reply) {
      assert Honest(e.(receiver := r), reply) by {
        if reply in e.down { StillHonest(e, r, reply); }
      }
    }
    assert ReceiverOk(e') by { hide *; }
    hide Honest, ReceiverOk, HasSent, Onward, Genuine;
  }

  lemma CollectGrows(t: Tray, p: Packet)
    requires t.segments != [] && (p.sn < |t.segments| && t.segments[p.sn].Some? ==> t.segments[p.sn].value == p.segment)
    ensures Grown(t, Collect(t, p).0)
  {
  }

  lemma AcceptKeeps(e: Exchange, m: Messengent, p: Packet)
    requires Inv(e) && Genuine(e, p) && HasSent(e.up, p.sn) && !e.receiver.done
    requires e.receiver.live == Some(m) || (e.receiver.live == None && m == Messengent(NEW_TRAY, 0))
    ensures var (r, sent) := Accept(e.receiver, m, p);
            Inv(e.(receiver := r, down := e.down + ToSet(sent)))
  {
    hide Collect, AskMore;
    CollectKeeps(e, m, p);
    if e.receiver.live.Some? { CollectGrows(m.tray, p); }
    var t := Collect(m.tray, p).0;
    var (r, sent) := Accept(e.receiver, m, p);
    if !t.complete {
      AskMoreHonest(e, m.(tray := t));
    }
    Replies(e, r, sent);
  }

  lemma TakeKeeps(e: Exchange, u: Request)
    requires Inv(e) && u in e.up
    ensures Inv(Step(e, ToReceiver(u)))
  {
    match u {
      case Seg(p) =>
        assert HasSent(e.up, p.sn);
        if e.receiver.live.Some? {
          AcceptKeeps(e, e.receiver.live.value, p);
        } else if p.af || e.receiver.done {
          Replies(e, e.receiver, [Nack]);
        } else {
          AcceptKeeps(e, Messengent(NEW_TRAY, 0), p);
        }
      case StaleNack =>
        Replies(e, e.receiver, []);
    }
  }

  lemma NudgeKeeps(e: Exchange)
    requires Inv(e) && e.receiver.live.Some?
    ensures Inv(Step(e, ReceiverRedo))
  {
    AskMoreHonest(e, e.receiver.live.value);
    var (r, sent) := Nudge(e.receiver);
    Replies(e, r, sent);
  }

  /** A sender's move keeps everything the receiver's side says. */
  lemma Moves(e: Exchange, s: Sender, sent: seq<Packet>)
    requires Inv(e)
    requires var e' := Sends(e, (s, sent));
             SenderSide(e') && (!s.live ==> e.receiver.done) && AgainOk(e')
    ensures Inv(Sends(e, (s, sent)))
  {
    MoreSent(e.up, Wrap(sent));
  }

  lemma StaysLive(s: Sender, r: Reply)
    requires s.Valid() && s.live && (r.Ack? || r.Resend?)
    ensures Hear(s, r).0.live
  {
  }

  lemma RedoKeepsInv(e: Exchange)
    requires Inv(e) && e.sender.live
    ensures Inv(Step(e, SenderRedo))
  {
    RedoKeeps(e);
    var (s, sent) := Redo(e.sender);
    Moves(e, s, sent);
  }

  lemma HearKeepsInv(e: Exchange, r: Reply)
    requires Inv(e) && r in e.down
    ensures Inv(Step(e, ToSender(r)))
  {
    if e.sender.live {
      HearKeeps(e, r);
      var (s, sent) := Hear(e.sender, r);
      if r.Ack? || r.Resend? {
        StaysLive(e.sender, r);
      } else {
        assert Honest(e, r) && s.live == false;
      }
      hide Hear, SenderSide, Honest, SentOk, SenderOk, ReceiverOk;
      Moves(e, s, sent);
    } else {
      MoreSent(e.up, {StaleNack});
    }
  }

  lemma StepKeepsInv(e: Exchange, a: Action)
    requires Inv(e) && Enabled(e, a)
    ensures Inv(Step(e, a))
  {
    match a {
      case SenderRedo => RedoKeepsInv(e);
      case ReceiverRedo => NudgeKeeps(e);
      case ToSender(r) => HearKeepsInv(e, r);
      case ToReceiver(u) => TakeKeeps(e, u);
    }
  }

  lemma FirstBurst(chunks: seq<Bytes>, burst: nat)
    requires chunks != []
    ensures var (s, sent) := SendNext(Sender(Fresh(chunks), burst, 0, [], false, None, true));
            && 0 < |sent| == s.current && s.last == Some(s.current - 1)
            && s.live && !s.acked && s.misseds == [] && |s.packets| == |chunks|
            && (forall l :: 0 <= l < |sent| ==> sent[l] == s.packets[l])
            && (forall i :: 0 <= i < |chunks| ==> Fresh(chunks)[i] == s.packets[i].(wf := false))
  {
  }

  lemma StartSends(chunks: seq<Bytes>, burst: nat)
    requires chunks != []
    ensures var e := Start(chunks, burst); SenderSide(e) && AgainOk(e)
  {
    FirstBurst(chunks, burst);
    var (s, sent) := SendNext(Sender(Fresh(chunks), burst, 0, [], false, None, true));
    var e := Start(chunks, burst);
    hide SendNext, Join;
    forall i | 0 <= i < s.current ensures HasSent(e.up, i) {
      assert Seg(sent[i]) in e.up && sent[i].sn == i;
    }
    forall u | u in e.up && u.Seg? ensures Genuine(e, u.packet) && u.packet.sn < s.current && !u.packet.af {
      var k :| 0 <= k < |sent| && sent[k] == u.packet;
    }
    hide HasSent, Genuine;
  }

  lemma StartInv(chunks: seq<Bytes>, burst: nat)
    requires chunks != []
    ensures Inv(Start(chunks, burst))
  {
    StartSends(chunks, burst);
    hide SenderOk, SentOk, AgainOk, SendNext;
  }

  // ------------------------------------------------------------------- Whole runs

  predicate Legal(e: Exchange, run: seq<Action>)
    requires e.sender.Valid()
    decreases |run|
  {
    run == [] || (Enabled(e, run[0]) && Legal(Step(e, run[0]), run[1..]))
  }

  function Run(e: Exchange, run: seq<Action>): (r: Exchange)
    requires e.sender.Valid()
    ensures r.sender.Valid() && r.chunks == e.chunks && r.body == e.body
    decreases |run|
  {
    if run == [] then e else Run(Step(e, run[0]), run[1..])
  }

  lemma {:induction false} RunKeepsInv(e: Exchange, run: seq<Action>)
    requires Inv(e) && Legal(e, run)
    ensures Inv(Run(e, run))
    decreases |run|
  {
    if run != [] {
      StepKeepsInv(e, run[0]);
      RunKeepsInv(Step(e, run[0]), run[1..]);
    }
  }

  /** Exactly-once delivery. In every run the body is appended to rxMsgs at most once, and never
      altered; when the Messenger has ended, by done or by nack, it has been appended once; and
      whatever is delivered after that appends nothing more. */
  lemma ExactlyOnce(chunks: seq<Bytes>, burst: nat, run: seq<Action>, later: seq<Action>)
    requires chunks != [] && Legal(Start(chunks, burst), run)
    requires Legal(Run(Start(chunks, burst), run), later)
    ensures var e := Run(Start(chunks, burst), run);
            && (e.receiver.rxMsgs == [] || e.receiver.rxMsgs == [Join(chunks)])
            && (!e.sender.live ==> e.receiver.rxMsgs == [Join(chunks)])
            && (!e.sender.live ==> Run(e, later).receiver.rxMsgs == [Join(chunks)])
            && (e.receiver.done <==> e.receiver.rxMsgs != [])
            && (e.receiver.rxMsgs != [] ==> Run(e, later).receiver.rxMsgs == e.receiver.rxMsgs)
  {
    var e0 := Start(chunks, burst);
    StartInv(chunks, burst);
    RunKeepsInv(e0, run);
    var e := Run(e0, run);
    RunKeepsInv(e, later);
    DoneStays(e, later);
  }

  lemma {:induction false} DoneStays(e: Exchange, run: seq<Action>)
    requires Inv(e) && Legal(e, run)
    ensures e.receiver.done ==> Run(e, run).receiver.done
    decreases |run|
  {
    if run != [] {
      StepKeepsInv(e, run[0]);
      DoneStays(Step(e, run[0]), run[1..]);
    }
  }

  predicate HoldsUpTo(t: Tray, chunks: seq<Bytes>, h: nat) {
    h < |t.segments| && h < |chunks| && forall i :: 0 <= i <= h ==> t.segments[i] == Some(chunks[i])
  }

  lemma HonestWhere(e: Exchange)
    requires Inv(e)
    ensures forall h: nat :: Ack(h) in e.down && e.receiver.live.Some? ==>
              HoldsUpTo(e.receiver.live.value.tray, e.chunks, h)
    ensures forall i :: e.receiver.live.Some? && 0 <= i <= e.receiver.live.value.tray.highest ==> HasSent(e.up, i)
  {
    if e.receiver.live.Some? {
      var t := e.receiver.live.value.tray;
      forall h: nat | Ack(h) in e.down ensures HoldsUpTo(t, e.chunks, h) {
        assert Honest(e, Ack(h));
      }
      var u :| u in e.up && u.Seg? && u.packet.sn == t.highest;
      hide HoldsUpTo;
    }
  }

  lemma AgainAndNack(e: Exchange)
    requires Inv(e)
    ensures forall p :: Seg(p) in e.up && p.af ==> e.receiver.live.Some? || e.receiver.done
    ensures Nack in e.down || Done in e.down ==> e.receiver.rxMsgs == [Join(e.chunks)]
  {
    assert forall p :: Seg(p) in e.up && p.af ==> Known(e);
    assert Nack in e.down || Done in e.down ==> e.receiver.done;
  }

  /** Honest packets over all runs. An acknowledgement in flight for segment h means the live
      receiver holds segments 0..h; everything up to the receiver's highest segment has been
      transmitted; an again flag in flight means the receiver has made a Messengent for it. */
  lemma HonestPackets(chunks: seq<Bytes>, burst: nat, run: seq<Action>)
    requires chunks != [] && Legal(Start(chunks, burst), run)
    ensures var e := Run(Start(chunks, burst), run);
            && (forall h: nat :: Ack(h) in e.down && e.receiver.live.Some? ==>
                  HoldsUpTo(e.receiver.live.value.tray, chunks, h))
            && (forall i :: e.receiver.live.Some? && 0 <= i <= e.receiver.live.value.tray.highest ==> HasSent(e.up, i))
            && (forall p :: Seg(p) in e.up && p.af ==> e.receiver.live.Some? || e.receiver.done)
            && (Nack in e.down || Done in e.down ==> e.receiver.rxMsgs == [Join(chunks)])
  {
    hide *;
    StartInv(chunks, burst);
    RunKeepsInv(Start(chunks, burst), run);
    HonestWhere(Run(Start(chunks, burst), run));
    AgainAndNack(Run(Start(chunks, burst), run));
  }

  lemma FastScan(e: Exchange)
    requires Inv(e) && e.receiver.live.Some?
    ensures var m := e.receiver.live.value;
            && m.tray.highest <= |m.tray.segments|
            && var full := Missing(m.tray.segments, 0, m.tray.highest);
            && Missing(m.tray.segments, m.lowest, m.tray.highest) == full
            && Asked(Nudge(e.receiver).1) == full
            && (Nudge(e.receiver).1 == [Ack(m.tray.highest)] <==> full == [])
  {
    var m := e.receiver.live.value;
    assert TrayOk(e, m);
    ShortScan(m.tray.segments, 0, m.lowest, m.tray.highest);
    RequestsCoverMissing(Missing(m.tray.segments, 0, m.tray.highest));
    assert Asked([Ack(m.tray.highest)]) == Asked([Ack(m.tray.highest)][1..]);
    hide TrayOk, SenderOk, SentOk, Missing, Honest, AgainOk;
  }

  /** In every reachable state the scan from `lowest` finds what a scan from 0 would, and the
      resend requests of one redo list exactly that. */
  lemma FastScanIsFullScan(chunks: seq<Bytes>, burst: nat, run: seq<Action>)
    requires chunks != [] && Legal(Start(chunks, burst), run)
    ensures var r := Run(Start(chunks, burst), run).receiver;
            r.live.Some? ==>
              var m := r.live.value;
              && m.tray.highest <= |m.tray.segments|
              && var full := Missing(m.tray.segments, 0, m.tray.highest);
              && Missing(m.tray.segments, m.lowest, m.tray.highest) == full
              && Asked(Nudge(r).1) == full
              && (Nudge(r).1 == [Ack(m.tray.highest)] <==> full == [])
  {
    hide *;
    StartInv(chunks, burst);
    RunKeepsInv(Start(chunks, burst), run);
    var e := Run(Start(chunks, burst), run);
    if e.receiver.live.Some? {
      FastScan(e);
    }
  }
}
