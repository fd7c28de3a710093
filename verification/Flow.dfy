/** A message over a road that loses and reorders nothing: no redo timer is needed. */
module Flow {
  import opened Basics
  import opened Traying
  import opened Messaging
  import opened Exchange
  import opened Bursts
  import Progress

  /** Both ends with their packets under way, in order. `taken` lists the segment numbers that have
      arrived, `heard` counts the replies. */
  datatype Line = Line(sender: Sender, receiver: Receiver, up: seq<Packet>, down: seq<Reply>,
                       taken: seq<nat>, heard: nat)

  /** The next packet arrives, or else the next reply. */
  function Tick(l: Line): (r: Line)
    requires l.sender.Valid()
    ensures r.sender.Valid()
  {
    if l.up != [] then
      var (receiver, replies) := Take(l.receiver, Seg(l.up[0]));
      l.(receiver := receiver, up := l.up[1..], down := l.down + replies, taken := l.taken + [l.up[0].sn])
    else if l.down != [] && l.sender.live then
      var (sender, sent) := Hear(l.sender, l.down[0]);
      l.(sender := sender, up := l.up + sent, down := l.down[1..], heard := l.heard + 1)
    else l
  }

  function Ticks(l: Line, n: nat): (r: Line)
    requires l.sender.Valid()
    ensures r.sender.Valid()
    decreases n
  {
    if n == 0 then l else Ticks(Tick(l), n - 1)
  }

  function Opening(chunks: seq<Bytes>, burst: nat): (l: Line)
    requires chunks != []
    ensures l.sender.Valid()
  {
    var (s, sent) := SendNext(Sender(Fresh(chunks), burst, 0, [], false, None, true));
    Line(s, Receiver(None, false, []), sent, [], [], 0)
  }

  /** In how many bursts n segments go out. */
  function Rounds(burst: nat, n: nat): nat
    decreases n
  {
    if n == 0 then 0 else 1 + Rounds(burst, n - Share(burst, n))
  }

  function Numbers(n: nat): (r: seq<nat>)
    ensures |r| == n && forall i :: 0 <= i < n ==> r[i] == i
  {
    seq(n, i => i)
  }

  lemma {:induction false} TicksAdd(l: Line, m: nat, n: nat)
    requires l.sender.Valid()
    ensures Ticks(l, m + n) == Ticks(Ticks(l, m), n)
    decreases m
  {
    if m > 0 {
      TicksAdd(Tick(l), m - 1, n);
    }
    hide Tick;
  }

  // ----------------------------------------------------------------- The receiver

  /** The tray that holds the first b segments. */
  function First(chunks: seq<Bytes>, b: nat): Tray
    requires 0 < b < |chunks|
  {
    Tray(seq(|chunks|, i requires 0 <= i < |chunks| => if i < b then Some(chunks[i]) else None),
         |chunks|, MessageLength(chunks), false, b - 1, "")
  }

  /** The receiver once the first b segments have arrived. */
  function Has(chunks: seq<Bytes>, b: nat): Receiver
    requires b <= |chunks|
  {
    if b == 0 then Receiver(None, false, [])
    else if b == |chunks| then Receiver(None, true, [Join(chunks)])
    else Receiver(Some(Messengent(First(chunks, b), 0)), false, [])
  }

  lemma CollectFirst(chunks: seq<Bytes>, p: Packet)
    requires |chunks| > 1 && p == Fresh(chunks)[0].(wf := p.wf)
    ensures Collect(NEW_TRAY, p) == (First(chunks, 1), Parsed)
  {
    var blank: seq<Option<Bytes>> := Blank(|chunks|);
    assert blank[0 := Some(chunks[0])] == First(chunks, 1).segments;
    assert First(chunks, 1).segments[1].None?;
    hide Join, MessageLength;
  }

  lemma CollectMore(chunks: seq<Bytes>, b: nat, p: Packet)
    requires 0 < b < |chunks| - 1 && p == Fresh(chunks)[b].(wf := p.wf)
    ensures Collect(First(chunks, b), p) == (First(chunks, b + 1), Parsed)
  {
    var t := First(chunks, b);
    assert t.segments[b := Some(chunks[b])] == First(chunks, b + 1).segments;
    assert First(chunks, b + 1).segments[b + 1].None?;
    hide Join, MessageLength;
  }

  lemma AllHeld(chunks: seq<Bytes>)
    requires |chunks| > 1
    ensures var segments := First(chunks, |chunks| - 1).segments[|chunks| - 1 := Some(chunks[|chunks| - 1])];
            Full(segments) && Values(segments) == chunks
  {
    hide MessageLength;
  }

  lemma CollectLast(chunks: seq<Bytes>, p: Packet)
    requires |chunks| > 1 && p == Fresh(chunks)[|chunks| - 1].(wf := p.wf)
    ensures var (t, o) := Collect(First(chunks, |chunks| - 1), p); o == Parsed && t.complete && t.body == Join(chunks)
  {
    var t := First(chunks, |chunks| - 1);
    AllHeld(chunks);
    assert p.sn == |chunks| - 1 && p.segment == chunks[|chunks| - 1] && p.sc == |chunks|;
    assert |t.segments| == |chunks| && t.ml == |Join(chunks)| && !t.complete;
    hide *;
    CollectOne(t, p);
  }

  /** One packet more, in order: a reply exactly if it waits or completes the message. */
  lemma TakeNext(chunks: seq<Bytes>, b: nat, p: Packet)
    requires b < |chunks| && p == Fresh(chunks)[b].(wf := p.wf)
    ensures Take(Has(chunks, b), Seg(p))
            == (Has(chunks, b + 1), if b + 1 == |chunks| then [Done] else if p.wf then [Ack(b)] else [])
  {
    if |chunks| == 1 {
      assert Join(chunks) == chunks[0] + Join(chunks[1..]) && chunks[0] + "" == chunks[0];
    } else if b < |chunks| - 1 {
      if b == 0 { CollectFirst(chunks, p); } else { CollectMore(chunks, b, p); }
      NoneMissing(chunks, b + 1);
      hide Join, MessageLength, Collect, First, AskMore;
    } else {
      CollectLast(chunks, p);
      assert [] + [Join(chunks)] == [Join(chunks)];
      hide Join, MessageLength, Collect, First;
    }
  }

  lemma NoneMissing(chunks: seq<Bytes>, b: nat)
    requires 0 < b < |chunks|
    ensures AskMore(Messengent(First(chunks, b), 0)) == (Messengent(First(chunks, b), 0), [Ack(b - 1)])
  {
    EmptyOrHas(Missing(First(chunks, b).segments, 0, b - 1));
    hide MessageLength;
  }

  lemma EmptyOrHas(s: seq<nat>)
    ensures s == [] || s[0] in s
  {
  }

  // -------------------------------------------------------------------- One burst

  /** Segments b to c - 1 are on their way, the last of them waiting. */
  predicate OnTheWay(up: seq<Packet>, chunks: seq<Bytes>, b: nat, c: nat) {
    && b < c <= |chunks| && |up| == c - b
    && forall k :: 0 <= k < |up| ==> up[k] == Fresh(chunks)[b + k].(wf := k == |up| - 1)
  }

  predicate Arriving(l: Line, chunks: seq<Bytes>, b: nat, c: nat) {
    OnTheWay(l.up, chunks, b, c) && l.down == [] && l.receiver == Has(chunks, b) && l.taken == Numbers(b)
  }

  /** Once they have arrived the receiver answers once. */
  function Arrived(l: Line, chunks: seq<Bytes>, c: nat): Line
    requires 0 < c <= |chunks|
  {
    l.(receiver := Has(chunks, c), up := [], down := if c == |chunks| then [Done] else [Ack(c - 1)],
       taken := Numbers(c))
  }

  lemma FirstOfThem(up: seq<Packet>, chunks: seq<Bytes>, b: nat, c: nat)
    requires OnTheWay(up, chunks, b, c)
    ensures up[0] == Fresh(chunks)[b].(wf := up[0].wf) && (up[0].wf <==> b + 1 == c) && up[0].sn == b
    ensures if b + 1 == c then up[1..] == [] else OnTheWay(up[1..], chunks, b + 1, c)
    ensures Numbers(b) + [b] == Numbers(b + 1)
  {
    assert up[0] == Fresh(chunks)[b + 0].(wf := 0 == |up| - 1);
    assert Fresh(chunks)[b].sn == b;
    hide Fresh;
    forall k | 0 <= k < |up| - 1 ensures up[1..][k] == Fresh(chunks)[b + 1 + k].(wf := k == |up| - 2) {
      assert up[k + 1] == Fresh(chunks)[b + (k + 1)].(wf := k + 1 == |up| - 1);
    }
  }

  lemma OneArrives(l: Line, chunks: seq<Bytes>, b: nat, c: nat)
    requires l.sender.Valid() && Arriving(l, chunks, b, c)
    ensures if b + 1 == c then Tick(l) == Arrived(l, chunks, c)
            else Tick(l).sender == l.sender && Tick(l).heard == l.heard && Arriving(Tick(l), chunks, b + 1, c)
  {
    FirstOfThem(l.up, chunks, b, c);
    TakeNext(chunks, b, l.up[0]);
    hide Take, Has, Fresh, Numbers, OnTheWay;
    assert [] + [Done] == [Done] && [] + [Ack(b)] == [Ack(b)];
  }

  lemma {:induction false} BurstArrives(l: Line, chunks: seq<Bytes>, b: nat, c: nat)
    requires l.sender.Valid() && Arriving(l, chunks, b, c)
    ensures Ticks(l, c - b) == Arrived(l, chunks, c)
    decreases c - b
  {
    OneArrives(l, chunks, b, c);
    assert Ticks(l, c - b) == Ticks(Tick(l), c - b - 1);
    hide Tick, Has, Numbers, OnTheWay;
    if b + 1 < c {
      BurstArrives(Tick(l), chunks, b + 1, c);
    }
  }

  // --------------------------------------------------------------- The whole message

  /** The sender has nothing missed, and from segment c on its packets are as they were made. */
  ghost predicate Untouched(s: Sender, chunks: seq<Bytes>, burst: nat, c: nat) {
    && s.Valid() && s.live && s.misseds == [] && s.burst == burst && s.current == c
    && |s.packets| == |chunks| && forall i :: c <= i < |chunks| ==> s.packets[i] == Fresh(chunks)[i]
  }

  /** A burst from segment b is under way. */
  ghost predicate Going(l: Line, chunks: seq<Bytes>, burst: nat, b: nat) {
    && b < |chunks| && Untouched(l.sender, chunks, burst, b + Share(burst, |chunks| - b))
    && Arriving(l, chunks, b, b + Share(burst, |chunks| - b))
  }

  lemma NextGoes(s: Sender, chunks: seq<Bytes>, burst: nat, b: nat)
    requires b < |chunks| && Untouched(s, chunks, burst, b)
    ensures var (s', sent) := SendNext(s);
            Untouched(s', chunks, burst, s'.current) && OnTheWay(sent, chunks, b, s'.current)
            && s'.current == b + Share(burst, |chunks| - b)
  {
    NextWaits(s);
    hide SendNext, Fresh;
  }

  lemma AckGoes(l: Line, chunks: seq<Bytes>, burst: nat, c: nat)
    requires 0 < c < |chunks| && Untouched(l.sender, chunks, burst, c)
    requires l == Arrived(l, chunks, c)
    ensures Going(Tick(l), chunks, burst, c) && Tick(l).heard == l.heard + 1
  {
    var s := l.sender.(acked := true);
    assert Untouched(s, chunks, burst, c);
    NextGoes(s, chunks, burst, c);
    assert Hear(l.sender, Ack(c - 1)) == SendNext(s);
    hide SendNext, Hear, OnTheWay, Untouched, Has, Numbers;
    assert [] + SendNext(s).1 == SendNext(s).1;
  }

  lemma DoneEnds(l: Line)
    requires l.sender.Valid() && l.sender.live && l.up == [] && l.down == [Done]
    ensures Tick(l) == l.(sender := l.sender.(acked := true, live := false), down := [], heard := l.heard + 1)
  {
    assert l.up + [] == l.up;
  }

  /** Both ends are done and nothing is under way. */
  ghost predicate Finished(l: Line, chunks: seq<Bytes>, heard: nat) {
    && l.receiver == Receiver(None, true, [Join(chunks)]) && !l.sender.live && l.up == [] && l.down == []
    && l.taken == Numbers(|chunks|) && l.heard == heard
  }

  /** A burst arrives and is answered. */
  lemma BurstGoes(l: Line, chunks: seq<Bytes>, burst: nat, b: nat)
    requires l.sender.Valid() && Going(l, chunks, burst, b)
    ensures var k := Share(burst, |chunks| - b);
            var l' := Ticks(l, k + 1);
            && k <= |chunks| - b
            && if b + k == |chunks| then Finished(l', chunks, l.heard + 1)
               else Going(l', chunks, burst, b + k) && l'.heard == l.heard + 1
  {
    var k := Share(burst, |chunks| - b);
    var l1 := Arrived(l, chunks, b + k);
    BurstArrives(l, chunks, b, b + k);
    TicksAdd(l, k, 1);
    assert Ticks(l1, 1) == Ticks(Tick(l1), 0) == Tick(l1);
    assert l.sender.live && Untouched(l1.sender, chunks, burst, b + k) && l1 == Arrived(l1, chunks, b + k);
    hide Going, Tick, Untouched, Ticks, Numbers, Arriving;
    if b + k == |chunks| {
      DoneEnds(l1);
    } else {
      AckGoes(l1, chunks, burst, b + k);
    }
  }

  lemma RoundsFirst(burst: nat, n: nat)
    requires n > 0
    ensures 0 < Share(burst, n) <= n && Rounds(burst, 0) == 0
    ensures Rounds(burst, n) == 1 + Rounds(burst, n - Share(burst, n))
  {
  }

  /** Whatever has arrived, the rest follows burst by burst. */
  lemma {:induction false} RestArrives(l: Line, chunks: seq<Bytes>, burst: nat, b: nat)
    requires b < |chunks| && l.sender.Valid() && Going(l, chunks, burst, b)
    ensures Finished(Ticks(l, |chunks| - b + Rounds(burst, |chunks| - b)), chunks,
                     l.heard + Rounds(burst, |chunks| - b))
    decreases |chunks| - b
  {
    hide *;
    RoundsFirst(burst, |chunks| - b);
    var k := Share(burst, |chunks| - b);
    var rest := Rounds(burst, |chunks| - (b + k));
    BurstGoes(l, chunks, burst, b);
    TicksAdd(l, k + 1, |chunks| - (b + k) + rest);
    assert k + 1 + (|chunks| - (b + k) + rest) == |chunks| - b + Rounds(burst, |chunks| - b);
    if b + k < |chunks| {
      RestArrives(Ticks(l, k + 1), chunks, burst, b + k);
    } else {
      NoTick(Ticks(l, k + 1));
    }
  }

  lemma NoTick(l: Line)
    requires l.sender.Valid()
    ensures Ticks(l, 0) == l
  {
  }

  lemma AllArrives(l: Line, chunks: seq<Bytes>, burst: nat)
    requires chunks != [] && l.sender.Valid() && Going(l, chunks, burst, 0) && l.heard == 0
    ensures Finished(Ticks(l, |chunks| + Rounds(burst, |chunks|)), chunks, Rounds(burst, |chunks|))
  {
    hide *;
    RestArrives(l, chunks, burst, 0);
  }

  /** The first burst is under way. */
  lemma OpeningGoes(chunks: seq<Bytes>, burst: nat)
    requires chunks != []
    ensures Going(Opening(chunks, burst), chunks, burst, 0) && Opening(chunks, burst).heard == 0
  {
    NextGoes(Sender(Fresh(chunks), burst, 0, [], false, None, true), chunks, burst, 0);
    assert Numbers(0) == [];
    hide SendNext, Fresh, OnTheWay, Untouched, Numbers;
  }

  /** Every message arrives over such a road without any redo timer, whatever the burst size: each
      segment is sent once, in order, each burst is answered once, and both ends are done. */
  lemma InOrder(chunks: seq<Bytes>, burst: nat)
    requires chunks != []
    ensures Finished(Ticks(Opening(chunks, burst), |chunks| + Rounds(burst, |chunks|)), chunks, Rounds(burst, |chunks|))
  {
    hide *;
    OpeningGoes(chunks, burst);
    AllArrives(Opening(chunks, burst), chunks, burst);
  }

  // ------------------------------------------------------- One of the runs of Exchange

  /** The line has the two ends of the exchange, and what is under way on it was sent. */
  ghost predicate Part(l: Line, e: Exchange) {
    && e.sender == l.sender && e.receiver == l.receiver
    && (forall k :: 0 <= k < |l.up| ==> Seg(l.up[k]) in e.up)
    && (forall k :: 0 <= k < |l.down| ==> l.down[k] in e.down)
  }

  lemma TickLeads(l: Line, e: Exchange) returns (e': Exchange)
    requires l.sender.Valid() && e.sender.Valid() && Part(l, e)
    ensures e'.sender.Valid() && Progress.Leads(e, e') && Part(Tick(l), e')
  {
    if l.up != [] {
      e' := Step(e, ToReceiver(Seg(l.up[0])));
      Progress.OneStep(e, ToReceiver(Seg(l.up[0])));
      hide Take, Progress.Leads;
    } else if l.down != [] && l.sender.live {
      e' := Step(e, ToSender(l.down[0]));
      Progress.OneStep(e, ToSender(l.down[0]));
      hide Hear, Progress.Leads;
    } else {
      e' := e;
      Progress.NoStep(e);
    }
  }

  lemma {:induction false} TicksLead(l: Line, e: Exchange, n: nat) returns (e': Exchange)
    requires l.sender.Valid() && e.sender.Valid() && Part(l, e)
    ensures e'.sender.Valid() && Progress.Leads(e, e') && Part(Ticks(l, n), e')
    decreases n
  {
    hide Tick, Part, Progress.Leads;
    if n == 0 {
      e' := e;
      Progress.NoStep(e);
    } else {
      var e1 := TickLeads(l, e);
      e' := TicksLead(Tick(l), e1, n - 1);
      Progress.LeadsOn(e, e1, e');
    }
  }

  /** So the fast run is one of those over the unreliable road. */
  lemma InOrderIsRun(chunks: seq<Bytes>, burst: nat, n: nat)
    requires chunks != []
    ensures exists run :: && Legal(Start(chunks, burst), run)
                          && Run(Start(chunks, burst), run).sender == Ticks(Opening(chunks, burst), n).sender
                          && Run(Start(chunks, burst), run).receiver == Ticks(Opening(chunks, burst), n).receiver
  {
    var e := Start(chunks, burst);
    hide SendNext, Ticks;
    var e' := TicksLead(Opening(chunks, burst), e, n);
    var run :| Legal(e, run) && Run(e, run) == e';
    hide Opening, Start;
  }

  /** The number of bursts: the ceiling of n over the burst size, and one without a limit. */
  lemma {:induction false} RoundsIs(burst: nat, n: nat)
    requires n > 0
    ensures burst == 0 ==> Rounds(burst, n) == 1
    ensures burst > 0 ==> (Rounds(burst, n) - 1) * burst < n <= Rounds(burst, n) * burst
    decreases n
  {
    RoundsFirst(burst, n);
    if 0 < burst < n {
      RoundsIs(burst, n - burst);
      assert Rounds(burst, n) * burst == Rounds(burst, n - burst) * burst + burst;
    }
  }
}
