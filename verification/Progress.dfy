/** A loss-free round of a message transaction makes progress, whatever happened before it. */
module Progress {
  import opened Basics
  import opened Traying
  import opened Messaging
  import opened Exchange

  // ------------------------------------------------------------------ The round

  /** The sender hears every reply in turn; the packets it sends meanwhile, in order. */
  function HearAll(e: Exchange, replies: seq<Reply>): (r: (Exchange, seq<Packet>))
    requires e.sender.Valid()
    ensures r.0.sender.Valid()
    decreases |replies|
  {
    if replies == [] then (e, [])
    else
      var sent := if e.sender.live then Hear(e.sender, replies[0]).1 else [];
      var (e', rest) := HearAll(Step(e, ToSender(replies[0])), replies[1..]);
      (e', sent + rest)
  }

  /** The receiver takes every packet in turn. */
  function TakeAll(e: Exchange, sent: seq<Packet>): (r: Exchange)
    requires e.sender.Valid()
    ensures r.sender.Valid()
    decreases |sent|
  {
    if sent == [] then e else TakeAll(Step(e, ToReceiver(Seg(sent[0]))), sent[1..])
  }

  /** The receiver's redo, the sender's answer, its delivery. Replies the receiver makes to the
      delivered packets are left in flight. */
  function Round(e: Exchange): (r: Exchange)
    requires e.sender.Valid()
    ensures r.sender.Valid()
  {
    var (e', sent) := HearAll(Step(e, ReceiverRedo), Nudge(e.receiver).1);
    TakeAll(e', sent)
  }

  // ---------------------------------------------------------------- The measure

  function Held(segments: seq<Option<Bytes>>): set<nat> {
    set i: nat | 0 <= i < |segments| && segments[i].Some?
  }

  lemma SmallerSet<T>(a: set<T>, b: set<T>)
    requires a <= b
    ensures |a| <= |b| && (a != b ==> |a| < |b|)
  {
    assert b == a + (b - a);
    assert |b| == |a| + |b - a|;
  }

  lemma {:induction false} HeldWithin(segments: seq<Option<Bytes>>)
    ensures |Held(segments)| <= |segments|
  {
    if segments != [] {
      var n := |segments| - 1;
      HeldWithin(segments[..n]);
      SmallerSet(Held(segments), Held(segments[..n]) + {n});
    }
  }

  /** Sender misseds among the held segments. */
  function Wasted(misseds: seq<nat>, held: set<nat>): nat {
    |ToSet(misseds) * held|
  }

  /** How far a cursor is behind the segment after the highest one. */
  function Behind(current: nat, highest: nat): nat {
    if current <= highest then highest + 1 - current else 0
  }

  /** Segments the receiver lacks. */
  function Lack(e: Exchange): nat {
    match e.receiver.live
    case None => 0
    case Some(m) => HeldWithin(m.tray.segments); |m.tray.segments| - |Held(m.tray.segments)|
  }

  /** Sender misseds the receiver holds already. */
  function Waste(e: Exchange): nat {
    match e.receiver.live
    case None => 0
    case Some(m) => Wasted(e.sender.misseds, Held(m.tray.segments))
  }

  /** How far the sender's cursor is behind the receiver's highest segment. */
  function Lag(e: Exchange): nat {
    match e.receiver.live
    case None => 0
    case Some(m) => Behind(e.sender.current, m.tray.highest)
  }

  predicate Nearer(e': Exchange, e: Exchange) {
    || Lack(e') < Lack(e)
    || (Lack(e') == Lack(e) && Waste(e') < Waste(e))
    || (Lack(e') == Lack(e) && Waste(e') == Waste(e) && Lag(e') < Lag(e))
  }

  // -------------------------------------------------------------- The sender's part

  /** A burst of misseds wastes no more than was wasted, and less if its first packet is a waste. */
  lemma MissedWaste(s: Sender, held: set<nat>)
    requires s.Valid() && Numbered(s.packets) && s.misseds != []
    ensures var (s', sent) := SendMisseds(s);
            && sent != [] && Wasted(s'.misseds, held) <= Wasted(s.misseds, held)
            && (sent[0].sn in held ==> Wasted(s'.misseds, held) < Wasted(s.misseds, held))
  {
    MissedBurst(s);
    var (s', sent) := SendMisseds(s);
    var k := BurstOf(s.burst, |s.misseds|);
    var first := s.misseds[0];
    forall x | x in s'.misseds ensures x in s.misseds && x != first {
      var j :| 0 <= j < |s'.misseds| && s'.misseds[j] == x;
      assert s.misseds[k + j] == x;
    }
    SmallerSet(ToSet(s'.misseds) * held, ToSet(s.misseds) * held);
    if first in held {
      assert first in ToSet(s.misseds) * held && first !in ToSet(s'.misseds);
    }
  }

  lemma {:induction false} AddedSet(misseds: seq<nat>, asked: seq<nat>, n: nat)
    requires Distinct(misseds) && Below(misseds, n) && Below(asked, n)
    ensures var (r, ok) := AddMisseds(misseds, asked, n);
            ok && ToSet(r) == ToSet(misseds) + ToSet(asked)
    decreases |asked|
  {
    if asked != [] {
      var more := if asked[0] in misseds then misseds else misseds + [asked[0]];
      AddedSet(more, asked[1..], n);
      assert ToSet(more) == ToSet(misseds) + {asked[0]};
      assert ToSet(asked) == {asked[0]} + ToSet(asked[1..]);
    }
  }

  lemma SameWaste(a: seq<nat>, b: seq<nat>, held: set<nat>)
    requires ToSet(a) <= ToSet(b) && ToSet(b) * held <= ToSet(a)
    ensures Wasted(a, held) == Wasted(b, held)
  {
    assert ToSet(a) * held == ToSet(b) * held;
  }

  lemma AgainWaste(s: Sender, asked: seq<nat>, held: set<nat>)
    requires s.Valid() && Numbered(s.packets) && asked != [] && Below(asked, |s.packets|)
    requires ToSet(asked) !! held
    ensures var (s', sent) := Again(s, asked);
            && sent != [] && Wasted(s'.misseds, held) <= Wasted(s.misseds, held)
            && (sent[0].sn in held ==> Wasted(s'.misseds, held) < Wasted(s.misseds, held))
  {
    hide SendMisseds, Numbered, Wasted;
    AddedSet(s.misseds, asked, |s.packets|);
    var misseds := AddMisseds(s.misseds, asked, |s.packets|).0;
    assert asked[0] in ToSet(asked);
    assert misseds != [];
    SameWaste(s.misseds, misseds, held);
    MissedWaste(s.(misseds := misseds), held);
  }

  lemma SendsInto(e: Exchange, r: Reply)
    requires e.sender.Valid() && e.sender.live
    ensures var e' := Step(e, ToSender(r));
            var (s, sent) := Hear(e.sender, r);
            && e'.sender == s && e'.receiver == e.receiver && e'.down == e.down && e.up <= e'.up
            && forall k :: 0 <= k < |sent| ==> Seg(sent[k]) in e'.up
  {
  }

  lemma HearResend(e: Exchange, r: Reply, held: set<nat>)
    requires Inv(e) && e.sender.live && r in e.down && r.Resend? && ToSet(r.misseds) !! held
    ensures var e', sent := Step(e, ToSender(r)), Hear(e.sender, r).1;
            && Inv(e') && e'.receiver == e.receiver && e'.sender.live && e'.down == e.down && e.up <= e'.up
            && sent != [] && (forall k :: 0 <= k < |sent| ==> Seg(sent[k]) in e'.up)
            && Wasted(e'.sender.misseds, held) <= Wasted(e.sender.misseds, held)
            && (sent[0].sn in held ==> Wasted(e'.sender.misseds, held) < Wasted(e.sender.misseds, held))
  {
    assert Honest(e, r);
    AgainWaste(e.sender.(acked := true), r.misseds, held);
    StaysLive(e.sender, r);
    SendsInto(e, r);
    StepKeepsInv(e, ToSender(r));
    hide Inv, Step, Wasted, Again;
  }

  lemma HearStep(e: Exchange, replies: seq<Reply>)
    requires e.sender.Valid() && e.sender.live && replies != []
    ensures var (e', rest) := HearAll(Step(e, ToSender(replies[0])), replies[1..]);
            HearAll(e, replies) == (e', Hear(e.sender, replies[0]).1 + rest)
  {
  }

  lemma StillInFlight(sent: seq<Packet>, rest: seq<Packet>, up: set<Request>, up': set<Request>)
    requires up <= up' && (forall k :: 0 <= k < |sent| ==> Seg(sent[k]) in up)
    requires forall k :: 0 <= k < |rest| ==> Seg(rest[k]) in up'
    ensures forall k :: 0 <= k < |sent + rest| ==> Seg((sent + rest)[k]) in up'
  {
  }

  lemma {:induction false} HearResends(e: Exchange, replies: seq<Reply>, held: set<nat>)
    requires Inv(e) && e.sender.live
    requires forall k :: 0 <= k < |replies| ==>
               replies[k] in e.down && replies[k].Resend? && ToSet(replies[k].misseds) !! held
    ensures var (e', sent) := HearAll(e, replies);
            && Inv(e') && e'.receiver == e.receiver && e'.sender.live && e.up <= e'.up
            && (forall k :: 0 <= k < |sent| ==> Seg(sent[k]) in e'.up)
            && Wasted(e'.sender.misseds, held) <= Wasted(e.sender.misseds, held)
            && (replies != [] ==> sent != [] && (sent[0].sn in held ==>
                  Wasted(e'.sender.misseds, held) < Wasted(e.sender.misseds, held)))
    decreases |replies|
  {
    if replies != [] {
      var e1, sent := Step(e, ToSender(replies[0])), Hear(e.sender, replies[0]).1;
      HearStep(e, replies);
      hide *;
      HearResend(e, replies[0], held);
      HearResends(e1, replies[1..], held);
      var (e', rest) := HearAll(e1, replies[1..]);
      StillInFlight(sent, rest, e1.up, e'.up);
    }
  }

  // ------------------------------------------------------------ The receiver's part

  /** One delivered packet: the receiver is done, or it holds that segment too. */
  lemma TakeOne(e: Exchange, p: Packet)
    requires Inv(e) && e.receiver.live.Some? && Seg(p) in e.up
    ensures var e' := Step(e, ToReceiver(Seg(p)));
            && Inv(e') && e'.sender == e.sender && e'.up == e.up
            && (e'.receiver.done || (e'.receiver.live.Some? &&
                  var t, t' := e.receiver.live.value.tray, e'.receiver.live.value.tray;
                  t'.segments == t.segments[p.sn := Some(p.segment)] && t'.highest == Max(t.highest, p.sn)))
  {
    StepKeepsInv(e, ToReceiver(Seg(p)));
    CollectKeeps(e, e.receiver.live.value, p);
  }

  lemma InTray(e: Exchange, p: Packet)
    requires Inv(e) && e.receiver.live.Some? && Seg(p) in e.up
    ensures var t := e.receiver.live.value.tray;
            p.sn < |t.segments| && forall i :: 0 <= i < |t.segments| && t.segments[i].Some? ==> i <= t.highest
    ensures !e.receiver.done
  {
  }

  lemma NoneAfterDone(e: Exchange, sent: seq<Packet>)
    requires Inv(e) && e.receiver.done && forall k :: 0 <= k < |sent| ==> Seg(sent[k]) in e.up
    ensures Inv(TakeAll(e, sent)) && TakeAll(e, sent).receiver.done
    ensures TakeAll(e, sent).sender == e.sender
    decreases |sent|
  {
    if sent != [] {
      StepKeepsInv(e, ToReceiver(Seg(sent[0])));
      NoneAfterDone(Step(e, ToReceiver(Seg(sent[0]))), sent[1..]);
    }
  }

  /** The receiver has taken in the packets: it holds their segments and nothing more. */
  ghost predicate Took(t: Tray, t': Tray, sent: seq<Packet>) {
    && |t'.segments| == |t.segments| && t.highest <= t'.highest
    && Held(t.segments) <= Held(t'.segments)
    && (forall k :: 0 <= k < |sent| ==> sent[k].sn in Held(t'.segments))
    && ((forall k :: 0 <= k < |sent| ==> sent[k].sn in Held(t.segments)) ==>
          Held(t'.segments) == Held(t.segments) && t'.highest == t.highest)
  }

  lemma TakeFirst(e: Exchange, sent: seq<Packet>)
    requires e.sender.Valid() && sent != []
    ensures TakeAll(e, sent) == TakeAll(Step(e, ToReceiver(Seg(sent[0]))), sent[1..])
  {
    hide Step;
  }

  lemma {:induction false} TakesAll(e: Exchange, sent: seq<Packet>)
    requires Inv(e) && e.receiver.live.Some? && forall k :: 0 <= k < |sent| ==> Seg(sent[k]) in e.up
    ensures var e' := TakeAll(e, sent);
            && Inv(e') && e'.sender == e.sender
            && (e'.receiver.done || (e'.receiver.live.Some? &&
                  Took(e.receiver.live.value.tray, e'.receiver.live.value.tray, sent)))
    decreases |sent|
  {
    if sent != [] {
      var e1 := Step(e, ToReceiver(Seg(sent[0])));
      var e' := TakeAll(e1, sent[1..]);
      TakeFirst(e, sent);
      hide *;
      TakeOne(e, sent[0]);
      InTray(e, sent[0]);
      forall k | 0 <= k < |sent[1..]| ensures Seg(sent[1..][k]) in e1.up {
        assert sent[1..][k] == sent[k + 1];
      }
      if e1.receiver.done {
        NoneAfterDone(e1, sent[1..]);
      } else {
        TakesAll(e1, sent[1..]);
        if e'.receiver.live.Some? {
          TookMore(e.receiver.live.value.tray, e1.receiver.live.value.tray,
                   e'.receiver.live.value.tray, sent);
        }
      }
    }
  }

  lemma TookMore(t: Tray, t1: Tray, t': Tray, sent: seq<Packet>)
    requires sent != [] && sent[0].sn < |t.segments| && Took(t1, t', sent[1..])
    requires t1.segments == t.segments[sent[0].sn := Some(sent[0].segment)]
    requires t1.highest == Max(t.highest, sent[0].sn)
    requires forall i :: 0 <= i < |t.segments| && t.segments[i].Some? ==> i <= t.highest
    ensures Took(t, t', sent)
  {
    assert Held(t1.segments) == Held(t.segments) + {sent[0].sn};
    assert forall k :: 0 < k < |sent| ==> sent[1..][k - 1] == sent[k];
    if forall k :: 0 <= k < |sent| ==> sent[k].sn in Held(t.segments) {
      assert sent[0].sn in Held(t.segments);
      assert Held(t1.segments) == Held(t.segments) && t1.highest == t.highest;
      assert forall k :: 0 <= k < |sent[1..]| ==> sent[1..][k] == sent[k + 1];
    }
  }

  // ---------------------------------------------------------------- The round

  /** With nothing missed, the sender goes on from its cursor, not beyond the segment after
      the acknowledged one: it sends something new or catches up. */
  lemma CursorAdvances(s: Sender, high: nat)
    requires s.Valid() && Numbered(s.packets) && s.misseds == [] && high + 1 < |s.packets|
    ensures var (s', sent) := Another(s, high);
            && sent != [] && s'.misseds == []
            && ((forall k :: 0 <= k < |sent| ==> sent[k].sn <= high) ==>
                  Behind(s'.current, high) < Behind(s.current, high))
  {
    var s1 := if s.current > high + 1 then s.(current := high + 1) else s;
    CursorBurst(s1);
    hide SendNext;
    var (s', sent) := SendNext(s1);
    assert sent[0].sn == s1.current && sent[|sent| - 1].sn == s'.current - 1;
  }

  lemma CursorBurst(s: Sender)
    requires s.Valid() && Numbered(s.packets) && s.current < |s.packets|
    ensures var (s', sent) := SendNext(s);
            && s'.misseds == s.misseds && s.current < s'.current <= |s.packets|
            && |sent| == s'.current - s.current
            && forall l :: 0 <= l < |sent| ==> sent[l].sn == s.current + l
  {
  }

  /** On an acknowledgement the sender sends its misseds, else from its cursor on. */
  lemma HearAck(e: Exchange, m: Messengent)
    requires Inv(e) && e.sender.live && e.receiver.live == Some(m)
    requires Missing(m.tray.segments, 0, m.tray.highest) == []
    ensures var (s, sent) := Hear(e.sender, Ack(m.tray.highest));
            var held := Held(m.tray.segments);
            && sent != []
            && ((forall k :: 0 <= k < |sent| ==> sent[k].sn in held) ==>
                 || Wasted(s.misseds, held) < Wasted(e.sender.misseds, held)
                 || (s.misseds == e.sender.misseds &&
                       Behind(s.current, m.tray.highest) < Behind(e.sender.current, m.tray.highest)))
  {
    var s := e.sender.(acked := true);
    if s.misseds != [] {
      MissedWaste(s, Held(m.tray.segments));
    } else {
      NotLast(e, m);
      CursorAdvances(s, m.tray.highest);
    }
  }

  /** A live tray with no gap below its highest segment lacks the one after it. */
  lemma NotLast(e: Exchange, m: Messengent)
    requires Inv(e) && e.receiver.live == Some(m)
    requires Missing(m.tray.segments, 0, m.tray.highest) == []
    ensures m.tray.highest + 1 < |m.tray.segments|
  {
    var t := m.tray;
    forall i | 0 <= i < t.highest ensures t.segments[i].Some? {
      assert i !in Missing(t.segments, 0, t.highest);
    }
    if t.highest + 1 == |t.segments| { assert Full(t.segments); }
  }

  lemma {:induction false} RequestsDisjoint(misseds: seq<nat>, held: set<nat>)
    requires ToSet(misseds) !! held
    ensures forall r :: r in Requests(misseds) ==> ToSet(r.misseds) !! held
    decreases |misseds|
  {
    if |misseds| > 64 {
      RequestsDisjoint(misseds[64..], held);
      assert ToSet(misseds[..64]) <= ToSet(misseds);
    }
  }

  /** A redo asks for everything missing below the highest segment, else acknowledges that. */
  lemma RedoAsks(e: Exchange)
    requires Inv(e) && e.receiver.live.Some?
    ensures var e1 := Step(e, ReceiverRedo);
            var t := e.receiver.live.value.tray;
            var (misseds, replies) := (Missing(t.segments, 0, t.highest), Nudge(e.receiver).1);
            && Inv(e1) && e1.sender == e.sender && e1.receiver.live.Some?
            && e1.receiver.live.value.tray == t
            && replies == (if misseds != [] then Requests(misseds) else [Ack(t.highest)])
            && forall k :: 0 <= k < |replies| ==> replies[k] in e1.down
  {
    var m := e.receiver.live.value;
    StepKeepsInv(e, ReceiverRedo);
    ShortScan(m.tray.segments, 0, m.lowest, m.tray.highest);
  }

  /** What the sender's answer to a redo does: it sends something, and if the receiver holds all
      of that already, then the sender's misseds or its cursor got better. */
  ghost predicate Answered(e: Exchange, e': Exchange, sent: seq<Packet>, m: Messengent) {
    var held := Held(m.tray.segments);
    && Inv(e') && e'.receiver == e.receiver
    && sent != [] && (forall k :: 0 <= k < |sent| ==> Seg(sent[k]) in e'.up)
    && ((forall k :: 0 <= k < |sent| ==> sent[k].sn in held) ==>
         || Wasted(e'.sender.misseds, held) < Wasted(e.sender.misseds, held)
         || (e'.sender.misseds == e.sender.misseds &&
               Behind(e'.sender.current, m.tray.highest) < Behind(e.sender.current, m.tray.highest)))
  }

  lemma AnswersAck(e: Exchange, m: Messengent)
    requires Inv(e) && e.receiver.live == Some(m) && Ack(m.tray.highest) in e.down
    requires Missing(m.tray.segments, 0, m.tray.highest) == []
    ensures var (e', sent) := HearAll(e, [Ack(m.tray.highest)]);
            Answered(e, e', sent, m)
  {
    var r := Ack(m.tray.highest);
    HearAck(e, m);
    SendsInto(e, r);
    StepKeepsInv(e, ToSender(r));
    HearOne(e, r);
    var (s, sent) := Hear(e.sender, r);
    var e' := Step(e, ToSender(r));
    assert Answered(e, e', sent, m);
  }

  lemma HearOne(e: Exchange, r: Reply)
    requires e.sender.Valid() && e.sender.live
    ensures HearAll(e, [r]) == (Step(e, ToSender(r)), Hear(e.sender, r).1)
  {
    assert [r][1..] == [];
    assert Hear(e.sender, r).1 + [] == Hear(e.sender, r).1;
  }

  lemma AnswersResend(e: Exchange, m: Messengent, misseds: seq<nat>)
    requires Inv(e) && e.receiver.live == Some(m)
    requires misseds != [] && misseds == Missing(m.tray.segments, 0, m.tray.highest)
    requires forall k :: 0 <= k < |Requests(misseds)| ==> Requests(misseds)[k] in e.down
    ensures var (e', sent) := HearAll(e, Requests(misseds));
            Answered(e, e', sent, m)
  {
    var held := Held(m.tray.segments);
    RequestsDisjoint(misseds, held);
    assert forall k :: 0 <= k < |Requests(misseds)| ==> Requests(misseds)[k] in Requests(misseds);
    HearResends(e, Requests(misseds), held);
  }

  lemma AnswersRedo(e: Exchange)
    requires Inv(e) && e.receiver.live.Some?
    ensures var e1 := Step(e, ReceiverRedo);
            var (e', sent) := HearAll(e1, Nudge(e.receiver).1);
            && e1.receiver.live.Some? && e1.sender == e.sender
            && e1.receiver.live.value.tray == e.receiver.live.value.tray
            && Answered(e1, e', sent, e.receiver.live.value)
  {
    RedoAsks(e);
    var e1 := Step(e, ReceiverRedo);
    var t := e.receiver.live.value.tray;
    var misseds := Missing(t.segments, 0, t.highest);
    if misseds != [] {
      AnswersResend(e1, e1.receiver.live.value, misseds);
    } else {
      AnswersAck(e1, e1.receiver.live.value);
    }
  }

  /** One loss-free round from any reachable unfinished state with a live Messengent either
      delivers the message or lowers, lexicographically, the segments the receiver lacks, the
      misseds it already holds and the cursor's distance. */
  lemma RoundProgress(e: Exchange)
    requires Inv(e) && e.receiver.live.Some?
    ensures var e' := Round(e);
            && Inv(e')
            && (e'.receiver.done || (e'.receiver.live.Some? && Nearer(e', e)))
  {
    AnswersRedo(e);
    var (e1, sent) := HearAll(Step(e, ReceiverRedo), Nudge(e.receiver).1);
    TakesAll(e1, sent);
    var e' := Round(e);
    if !e'.receiver.done {
      var t, t' := e.receiver.live.value.tray, e'.receiver.live.value.tray;
      SmallerSet(Held(t.segments), Held(t'.segments));
    }
  }

  // ------------------------------------------------------------ Whole recoveries

  /** e' can be reached from e by steps the road allows. */
  ghost predicate Leads(e: Exchange, e': Exchange)
    requires e.sender.Valid()
  {
    exists run :: Legal(e, run) && Run(e, run) == e'
  }

  lemma RunOn(e: Exchange, run: seq<Action>)
    requires e.sender.Valid() && run != []
    ensures Legal(e, run) <==> Enabled(e, run[0]) && Legal(Step(e, run[0]), run[1..])
    ensures Run(e, run) == Run(Step(e, run[0]), run[1..])
  {
    hide Step;
  }

  lemma {:induction false} RunsJoin(e: Exchange, first: seq<Action>, second: seq<Action>)
    requires e.sender.Valid() && Legal(e, first) && Legal(Run(e, first), second)
    ensures Legal(e, first + second) && Run(e, first + second) == Run(Run(e, first), second)
    decreases |first|
  {
    if first == [] {
      assert first + second == second;
    } else {
      assert (first + second)[1..] == first[1..] + second && (first + second)[0] == first[0];
      hide *;
      RunOn(e, first + second);
      RunOn(e, first);
      RunsJoin(Step(e, first[0]), first[1..], second);
    }
  }

  lemma LeadsOn(e: Exchange, mid: Exchange, e': Exchange)
    requires e.sender.Valid() && mid.sender.Valid() && Leads(e, mid) && Leads(mid, e')
    ensures Leads(e, e')
  {
    var first :| Legal(e, first) && Run(e, first) == mid;
    var second :| Legal(mid, second) && Run(mid, second) == e';
    RunsJoin(e, first, second);
  }

  lemma OneStep(e: Exchange, a: Action)
    requires e.sender.Valid() && Enabled(e, a)
    ensures Leads(e, Step(e, a))
  {
    hide Step;
    var run := [a];
    assert run[1..] == [];
    assert Legal(e, run);
    assert Run(e, run) == Run(Step(e, a), []) == Step(e, a);
  }

  lemma NoStep(e: Exchange)
    requires e.sender.Valid()
    ensures Leads(e, e)
  {
    assert Legal(e, []) && Run(e, []) == e;
  }

  lemma {:induction false} HearAllLeads(e: Exchange, replies: seq<Reply>)
    requires e.sender.Valid() && forall k :: 0 <= k < |replies| ==> replies[k] in e.down
    ensures Leads(e, HearAll(e, replies).0)
    decreases |replies|
  {
    if replies == [] {
      NoStep(e);
    } else {
      OneStep(e, ToSender(replies[0]));
      HearAllLeads(Step(e, ToSender(replies[0])), replies[1..]);
      LeadsOn(e, Step(e, ToSender(replies[0])), HearAll(e, replies).0);
    }
  }

  lemma {:induction false} TakeAllLeads(e: Exchange, sent: seq<Packet>)
    requires e.sender.Valid() && forall k :: 0 <= k < |sent| ==> Seg(sent[k]) in e.up
    ensures Leads(e, TakeAll(e, sent))
    decreases |sent|
  {
    if sent == [] {
      NoStep(e);
    } else {
      var e1 := Step(e, ToReceiver(Seg(sent[0])));
      OneStep(e, ToReceiver(Seg(sent[0])));
      TakeAllLeads(e1, sent[1..]);
      LeadsOn(e, e1, TakeAll(e, sent));
    }
  }

  /** A round is a run of ordinary steps. */
  lemma RoundLeads(e: Exchange)
    requires Inv(e) && e.receiver.live.Some?
    ensures Leads(e, Round(e))
  {
    RedoAsks(e);
    AnswersRedo(e);
    var e1 := Step(e, ReceiverRedo);
    var (e2, sent) := HearAll(e1, Nudge(e.receiver).1);
    OneStep(e, ReceiverRedo);
    HearAllLeads(e1, Nudge(e.receiver).1);
    LeadsOn(e, e1, e2);
    TakeAllLeads(e2, sent);
    LeadsOn(e, e2, Round(e));
  }

  /** Loss-free rounds until the message is delivered. */
  function Rounds(e: Exchange, n: nat): (r: Exchange)
    requires e.sender.Valid()
    ensures r.sender.Valid()
    decreases n
  {
    if n == 0 || e.receiver.live.None? then e else Rounds(Round(e), n - 1)
  }

  lemma RoundStays(e: Exchange)
    requires Inv(e) && e.receiver.live.Some?
    ensures Inv(Round(e)) && Leads(e, Round(e))
  {
    RoundProgress(e);
    RoundLeads(e);
    hide *;
  }

  lemma {:induction false} RoundsLead(e: Exchange, n: nat)
    requires Inv(e)
    ensures Inv(Rounds(e, n)) && Leads(e, Rounds(e, n))
    decreases n
  {
    hide *;
    if n == 0 || e.receiver.live.None? {
      NoRounds(e, n);
      NoStep(e);
    } else {
      RoundStays(e);
      OneMoreRound(e, n - 1);
      RoundsLead(Round(e), n - 1);
      LeadsOn(e, Round(e), Rounds(e, n));
    }
  }

  /** Finitely many loss-free rounds deliver the message, for every burst size and whatever was
      lost before. */
  lemma {:induction false} RoundsDeliver(e: Exchange) returns (n: nat)
    requires Inv(e) && e.receiver.live.Some?
    ensures Rounds(e, n).receiver.done
    decreases Lack(e), Waste(e), Lag(e)
  {
    hide Inv, Round, Rounds, Lack, Waste, Lag;
    RoundProgress(e);
    var k := 0;
    if Round(e).receiver.done {
      NoRounds(Round(e), 0);
    } else {
      k := RoundsDeliver(Round(e));
    }
    OneMoreRound(e, k);
    n := k + 1;
  }

  lemma NoRounds(e: Exchange, n: nat)
    requires e.sender.Valid() && (n == 0 || e.receiver.live.None?)
    ensures Rounds(e, n) == e
  {
  }

  lemma OneMoreRound(e: Exchange, k: nat)
    requires e.sender.Valid() && e.receiver.live.Some?
    ensures Rounds(e, k + 1) == Rounds(Round(e), k)
  {
    hide Round;
  }

  /** A redo of a Messenger whose Messengent does not exist yet brings one about, or delivers. */
  lemma RedoReaches(e: Exchange) returns (e': Exchange)
    requires Inv(e) && !Known(e)
    ensures Inv(e') && Leads(e, e') && Known(e')
  {
    var p := Redo(e.sender).1[0];
    var e1 := Step(e, SenderRedo);
    StepKeepsInv(e, SenderRedo);
    OneStep(e, SenderRedo);
    assert Seg(p) in e1.up;
    e' := Step(e1, ToReceiver(Seg(p)));
    StepKeepsInv(e1, ToReceiver(Seg(p)));
    OneStep(e1, ToReceiver(Seg(p)));
    LeadsOn(e, e1, e');
    CollectKeeps(e1, Messengent(NEW_TRAY, 0), p);
  }

  lemma RedoSends(e: Exchange)
    requires Inv(e) && e.sender.live
    ensures var (p, e1) := (Redo(e.sender).1[0], Step(e, SenderRedo));
            && Inv(e1) && Leads(e, e1) && Seg(p) in e1.up && Genuine(e1, p) && HasSent(e1.up, p.sn)
            && e1.sender.live && e1.receiver == e.receiver
  {
    StepKeepsInv(e, SenderRedo);
    OneStep(e, SenderRedo);
    hide Inv, Leads;
    assert e.sender.last.Some?;
    var p, e1 := Redo(e.sender).1[0], Step(e, SenderRedo);
    assert Seg(p) in e1.up;
  }

  lemma DoneNacks(e: Exchange, p: Packet)
    requires Inv(e) && e.sender.live && e.receiver.done && Seg(p) in e.up
    ensures var e' := Step(Step(e, ToReceiver(Seg(p))), ToSender(Nack));
            Inv(e') && Leads(e, e') && !e'.sender.live
  {
    var e1 := Step(e, ToReceiver(Seg(p)));
    assert Nack in e1.down && e1.sender == e.sender;
    StepKeepsInv(e, ToReceiver(Seg(p)));
    OneStep(e, ToReceiver(Seg(p)));
    StepKeepsInv(e1, ToSender(Nack));
    OneStep(e1, ToSender(Nack));
    LeadsOn(e, e1, Step(e1, ToSender(Nack)));
    hide Inv, Leads, Take;
  }

  /** A Messenger that missed the done learns of it: its redo is answered by a nack. */
  lemma DoneIsLearnt(e: Exchange) returns (e': Exchange)
    requires Inv(e) && e.receiver.done
    ensures Inv(e') && Leads(e, e') && !e'.sender.live
  {
    if !e.sender.live {
      NoStep(e);
      return e;
    }
    RedoSends(e);
    hide Leads;
    var p, e1 := Redo(e.sender).1[0], Step(e, SenderRedo);
    DoneNacks(e1, p);
    e' := Step(Step(e1, ToReceiver(Seg(p))), ToSender(Nack));
    LeadsOn(e, e1, e');
  }

  /** No run gets stuck: from every reachable state some continuation ends the Messenger with
      the body delivered exactly once. */
  lemma AlwaysRecoverable(chunks: seq<Bytes>, burst: nat, run: seq<Action>) returns (e': Exchange)
    requires chunks != [] && Legal(Start(chunks, burst), run)
    ensures Leads(Run(Start(chunks, burst), run), e')
    ensures !e'.sender.live && e'.receiver.rxMsgs == [Join(chunks)]
  {
    var e := Run(Start(chunks, burst), run);
    StartInv(chunks, burst);
    RunKeepsInv(Start(chunks, burst), run);
    var e1 := e;
    NoStep(e);
    if !Known(e) {
      e1 := RedoReaches(e);
    }
    var e2 := e1;
    if !e1.receiver.done {
      var n := RoundsDeliver(e1);
      e2 := Rounds(e1, n);
      RoundsLead(e1, n);
      LeadsOn(e, e1, e2);
    }
    e' := DoneIsLearnt(e2);
    LeadsOn(e, e2, e');
    KeepsBody(e, e');
  }

  lemma KeepsBody(e: Exchange, e': Exchange)
    requires e.sender.Valid() && Leads(e, e')
    ensures e'.chunks == e.chunks && e'.body == e.body
  {
    var run :| Legal(e, run) && Run(e, run) == e';
  }
}
