/** What a Messenger puts on the road: the size of its bursts, their flags, and what its redo timer
    sends again. */
module Bursts {
  import opened Basics
  import opened Traying
  import opened Messaging
  import Exchange

  /** Of n packets waiting, those that go out together under a burst size, 0 for no limit. */
  function Share(burst: nat, n: nat): nat { if 0 < burst < n then burst else n }

  /** A burst of new segments: the next ones, no more than the burst size, as they were but for the
      wait flag of the last. */
  lemma NextWaits(s: Sender)
    requires s.Valid() && s.current < |s.packets|
    ensures var ((s', sent), k) := (SendNext(s), Share(s.burst, |s.packets| - s.current));
            && |sent| == k >= 1 && s' == s.(packets := s'.packets, current := s.current + k, last := s'.last)
            && |s'.packets| == |s.packets| && s'.last == Some(s'.current - 1)
            && (forall l :: 0 <= l < k ==>
                  sent[l] == (if l == k - 1 then s.packets[s.current + l].(wf := true) else s.packets[s.current + l]))
            && (forall i :: 0 <= i < |s.packets| ==>
                  s'.packets[i] == if s.current <= i < s'.current then sent[i - s.current] else s.packets[i])
  {
  }

  /** A burst of missed segments: the first ones missed, no more than the burst size, each with the
      again flag, the last of them and no other with the wait flag. */
  lemma MissedWait(s: Sender)
    requires s.Valid() && s.misseds != []
    ensures var ((s', sent), k) := (SendMisseds(s), Share(s.burst, |s.misseds|));
            && |sent| == k >= 1 && s' == s.(packets := s'.packets, misseds := s.misseds[k..], last := s'.last)
            && |s'.packets| == |s.packets| && s'.last == Some(s.misseds[k - 1])
            && (forall l :: 0 <= l < k ==> sent[l] == s.packets[s.misseds[l]].(af := true, wf := l == k - 1))
            && (forall l :: 0 <= l < k ==> s'.packets[s.misseds[l]] == sent[l])
            && (forall i :: 0 <= i < |s.packets| && i !in s.misseds[..k] ==> s'.packets[i] == s.packets[i])
  {
    var k := Share(s.burst, |s.misseds|);
    var list := s.misseds[..k];
    FirstMisseds(s.misseds, k, |s.packets|);
    FlaggedAre(s.packets, list);
    Exchange.MissedParts(s);
    assert BurstOf(s.burst, |s.misseds|) == k;
    var packets := FlagAgain(s.packets, list);
    hide *;
    assert SendMisseds(s).1 == Pick(packets, list) && SendMisseds(s).0.packets == packets;
    forall l | 0 <= l < k
      ensures SendMisseds(s).1[l] == s.packets[s.misseds[l]].(af := true, wf := l == k - 1) == packets[s.misseds[l]]
    {
      assert list[l] == s.misseds[l];
    }
  }

  lemma FirstMisseds(misseds: seq<nat>, k: nat, n: nat)
    requires k <= |misseds| && Below(misseds, n) && Distinct(misseds)
    ensures Below(misseds[..k], n) && Distinct(misseds[..k])
    ensures forall l :: 0 <= l < k ==> misseds[..k][l] == misseds[l]
  {
  }

  lemma FlaggedAre(packets: seq<Packet>, list: seq<nat>)
    requires list != [] && Below(list, |packets|) && Distinct(list)
    ensures forall i :: 0 <= i < |packets| && i !in list ==> FlagAgain(packets, list)[i] == packets[i]
    ensures forall l :: 0 <= l < |list| ==>
              FlagAgain(packets, list)[list[l]] == packets[list[l]].(af := true, wf := l == |list| - 1)
  {
    forall l | 0 <= l < |list| ensures list[l] in list && (list[l] == list[|list| - 1] <==> l == |list| - 1) { }
  }

  // ----------------------------------------------------------------- Whole runs

  /** What moves a Messenger: a reply, or its redo timer. */
  datatype Cue = Heard(reply: Reply) | Expired

  function Move(s: Sender, c: Cue): (r: (Sender, seq<Packet>))
    requires s.Valid()
    ensures r.0.Valid()
  {
    if !s.live then (s, [])
    else
      match c
      case Heard(reply) => Hear(s, reply)
      case Expired => Redo(s)
  }

  /** The Messenger after the cues, and all the packets it has sent. */
  function Moves(s: Sender, cues: seq<Cue>): (r: (Sender, seq<Packet>))
    requires s.Valid()
    ensures r.0.Valid()
    decreases |cues|
  {
    if cues == [] then (s, [])
    else
      var (s1, sent) := Move(s, cues[0]);
      var (s2, rest) := Moves(s1, cues[1..]);
      (s2, sent + rest)
  }

  /** The remote has answered with an ack, a resend request or a done. */
  predicate Answered(cues: seq<Cue>) { exists k :: 0 <= k < |cues| && cues[k].Heard? && !cues[k].reply.Nack? }

  /** The packet last sent is the one under .txPacket, it waits for an answer, and no packet has the
      again flag before the remote has answered. */
  ghost predicate Waits(s: Sender, sent: seq<Packet>) {
    && s.Valid() && s.last.Some? && sent != []
    && s.packets[s.last.value] == sent[|sent| - 1] && sent[|sent| - 1].wf
    && forall i :: 0 <= i < |s.packets| ==> s.packets[i].af ==> s.acked
  }

  lemma NextKeeps(s: Sender)
    requires s.Valid() && s.current < |s.packets| && forall i :: 0 <= i < |s.packets| ==> s.packets[i].af ==> s.acked
    ensures var (s', sent) := SendNext(s); Waits(s', sent) && |sent| == Share(s.burst, |s.packets| - s.current)
    ensures SendNext(s).0.acked == s.acked && SendNext(s).0.live == s.live && SendNext(s).0.burst == s.burst
  {
    NextWaits(s);
  }

  lemma MissedKeeps(s: Sender)
    requires s.Valid() && s.misseds != [] && s.acked
    ensures var (s', sent) := SendMisseds(s); Waits(s', sent) && |sent| == Share(s.burst, |s.misseds|)
    ensures SendMisseds(s).0.acked && SendMisseds(s).0.live == s.live && SendMisseds(s).0.burst == s.burst
  {
    MissedWait(s);
    hide SendMisseds;
  }

  /** One cue: nothing is sent, or a burst within the burst size whose last packet waits. */
  ghost predicate Burst(s: Sender, sent: seq<Packet>) {
    sent == [] || ((s.burst > 0 ==> |sent| <= s.burst) && sent[|sent| - 1].wf)
  }

  lemma WaitsMore(before: seq<Packet>, s: Sender, sent: seq<Packet>)
    requires Waits(s, sent)
    ensures Waits(s, before + sent)
  {
  }

  lemma AnotherKeeps(s: Sender, sn: nat, before: seq<Packet>)
    requires Waits(s, before) && s.acked
    ensures var (s', sent) := Another(s, sn);
            Waits(s', before + sent) && Burst(s, sent) && s'.acked && s'.live == s.live && s'.burst == s.burst
  {
    var s1 := if s.current > sn + 1 then s.(current := sn + 1) else s;
    assert Waits(s1, before) && before + [] == before;
    AskedKeeps(s, s.misseds, before);
    assert s.(misseds := s.misseds) == s;
    if s.misseds == [] && s1.current < |s.packets| {
      NextKeeps(s1);
      hide SendNext;
      WaitsMore(before, SendNext(s1).0, SendNext(s1).1);
    }
    hide SendMisseds, Waits, SendNext;
  }

  lemma AgainKeeps(s: Sender, asked: seq<nat>, before: seq<Packet>)
    requires Waits(s, before) && s.acked
    ensures var (s', sent) := Again(s, asked);
            Waits(s', before + sent) && Burst(s, sent) && s'.acked && s'.live == s.live && s'.burst == s.burst
  {
    assert before + [] == before;
    if asked != [] && s.packets != [] {
      var (misseds, ok) := AddMisseds(s.misseds, asked, |s.packets|);
      AskedKeeps(s, misseds, before);
    }
    hide SendMisseds, AddMisseds, Waits, Burst;
  }

  lemma AskedKeeps(s: Sender, misseds: seq<nat>, before: seq<Packet>)
    requires Waits(s, before) && s.acked && Distinct(misseds) && Below(misseds, |s.packets|)
    ensures var s1 := s.(misseds := misseds);
            && s1.Valid() && Waits(s1, before)
            && var (s', sent) := SendMisseds(s1);
               Waits(s', before + sent) && Burst(s, sent) && s'.acked && s'.live == s.live && s'.burst == s.burst
  {
    var s1 := s.(misseds := misseds);
    if misseds == [] {
      assert SendMisseds(s1) == (s1, []) && before + [] == before;
    } else {
      MissedKeeps(s1);
      hide SendMisseds;
      WaitsMore(before, SendMisseds(s1).0, SendMisseds(s1).1);
      hide Waits;
    }
  }

  lemma RedoKeeps(s: Sender, before: seq<Packet>)
    requires Waits(s, before)
    ensures var (s', sent) := Redo(s);
            && Waits(s', before + sent) && s'.acked == s.acked && s'.live == s.live && s'.burst == s.burst
            && sent == [before[|before| - 1].(af := s.acked)] && Burst(s, sent)
  {
  }

  lemma MoveKeeps(s: Sender, c: Cue, before: seq<Packet>)
    requires Waits(s, before)
    ensures var (s', sent) := Move(s, c);
            && Waits(s', before + sent) && Burst(s, sent) && s'.burst == s.burst
            && (s'.live ==> s.live && (s'.acked <==> s.acked || Answered([c])))
  {
    assert before + [] == before;
    assert Answered([c]) <==> c.Heard? && !c.reply.Nack? by {
      if c.Heard? && !c.reply.Nack? { assert [c][0] == c; }
    }
    hide Another, Again, Redo, Answered;
    if s.live {
      match c {
        case Expired => RedoKeeps(s, before);
        case Heard(Ack(sn)) => AnotherKeeps(s.(acked := true), sn, before);
        case Heard(Resend(asked)) => AgainKeeps(s.(acked := true), asked, before);
        case Heard(_) =>
      }
    }
  }

  lemma AnsweredFirst(cues: seq<Cue>)
    requires cues != []
    ensures Answered(cues) <==> Answered([cues[0]]) || Answered(cues[1..])
  {
    if Answered(cues) {
      var k :| 0 <= k < |cues| && cues[k].Heard? && !cues[k].reply.Nack?;
      if k > 0 { assert cues[1..][k - 1] == cues[k]; } else { assert [cues[0]][0] == cues[0]; }
    }
    if Answered(cues[1..]) {
      var k :| 0 <= k < |cues[1..]| && cues[1..][k].Heard? && !cues[1..][k].reply.Nack?;
      assert cues[k + 1] == cues[1..][k];
    }
  }

  lemma MovesFirst(s: Sender, cues: seq<Cue>)
    requires s.Valid() && cues != []
    ensures var (s1, sent) := Move(s, cues[0]);
            Moves(s, cues) == (Moves(s1, cues[1..]).0, sent + Moves(s1, cues[1..]).1)
  {
    hide Move;
  }

  lemma {:induction false} MovesKeep(s: Sender, cues: seq<Cue>, before: seq<Packet>)
    requires Waits(s, before)
    ensures var (s', sent) := Moves(s, cues);
            && Waits(s', before + sent) && s'.burst == s.burst
            && (s'.live ==> s.live && (s'.acked <==> s.acked || Answered(cues)))
    decreases |cues|
  {
    assert s.Valid() && !Answered([]) && before + [] == before;
    if cues != [] {
      MovesFirst(s, cues);
      var (s1, sent) := Move(s, cues[0]);
      hide *;
      MoveKeeps(s, cues[0], before);
      AnsweredFirst(cues);
      MovesKeep(s1, cues[1..], before + sent);
      var rest := Moves(s1, cues[1..]).1;
      assert before + sent + rest == before + (sent + rest);
    }
  }

  /** Over every run of a Messenger: whatever a cue makes it send is within the burst size and ends
      with a packet that waits for an answer, and the redo timer sends the last packet sent once more,
      with the again flag exactly if the remote has answered anything but a nack. */
  lemma RedoRepeats(packets: seq<Packet>, burst: nat, cues: seq<Cue>)
    requires packets != [] && forall i :: 0 <= i < |packets| ==> !packets[i].af
    ensures var (s0, first) := SendNext(Sender(packets, burst, 0, [], false, None, true));
            var (s, more) := Moves(s0, cues);
            var sent := first + more;
            && |first| == Share(burst, |packets|) && sent != [] && sent[|sent| - 1].wf
            && (forall c: Cue :: Burst(s, Move(s, c).1))
            && (s.live ==> Redo(s).1 == [sent[|sent| - 1].(af := Answered(cues))])
  {
    var new0 := Sender(packets, burst, 0, [], false, None, true);
    NextKeeps(new0);
    hide SendNext;
    var (s0, first) := SendNext(new0);
    MovesKeep(s0, cues, first);
    var (s, more) := Moves(s0, cues);
    hide Moves, Move, Answered;
    RedoKeeps(s, first + more);
    assert (first + more)[|first + more| - 1].wf;
    hide Waits;
    forall c: Cue ensures Burst(s, Move(s, c).1) {
      MoveKeeps(s, c, first + more);
    }
  }

  /** message() either sends and lives on, or ends and sends nothing: exactly if the remote is allowed,
      the body packs, no other transaction has the index, and a packet is left to send. */
  lemma SendsExactly(s: Sender, allowed: bool, packed: Option<seq<Packet>>, taken: bool)
    requires s.Valid()
    ensures var (s', sent) := Send(s, allowed, packed, taken);
            && (s'.live <==> sent != [])
            && (s'.live <==> allowed && !taken && if s.packets == [] then packed.Some? && packed.value != []
                                                 else s.current < |s.packets|)
  {
    var s1 := if s.packets == [] && packed.Some? then s.(packets := packed.value, current := 0, live := true)
              else s.(live := true);
    if s1.Valid() && s1.current < |s1.packets| { NextWaits(s1); }
    hide SendNext;
    SendNothing(s1);
  }

  /** What is asked for goes behind what was missed before, in the order asked. */
  lemma {:induction false} AskedInOrder(misseds: seq<nat>, asked: seq<nat>, n: nat)
    requires Distinct(misseds) && Below(misseds, n) && Distinct(asked) && Below(asked, n)
    requires forall x :: x in asked ==> x !in misseds
    ensures AddMisseds(misseds, asked, n) == (misseds + asked, true)
    decreases |asked|
  {
    if asked == [] {
      assert misseds + asked == misseds;
    } else {
      assert asked[0] in asked && asked[0] !in asked[1..];
      assert Distinct(misseds + [asked[0]]) && Below(misseds + [asked[0]], n);
      AskedInOrder(misseds + [asked[0]], asked[1..], n);
      assert misseds + [asked[0]] + asked[1..] == misseds + asked;
    }
  }
}
