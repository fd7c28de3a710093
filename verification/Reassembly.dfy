/** The segmentation round trip: what TxTray.pack leaves, sent over the wire in any order and any
    number of times, is what RxTray puts together again. */
module Reassembly {
  import opened Basics
  import opened Traying
  import opened Packeting
  import opened Packets
  import opened Segmenting

  /** A tray fed with packets until it is complete or refuses one. */
  function Feed(t: Tray, ps: seq<Packet>): (Tray, Outcome)
    decreases |ps|
  {
    if ps == [] || t.complete then (t, Parsed)
    else
      var (t', o) := Collect(t, ps[0]);
      if o != Parsed then (t', o) else Feed(t', ps[1..])
  }

  /** Packets of one message, with any flags. */
  predicate Carries(ps: seq<Packet>, chunks: seq<Bytes>) {
    forall j :: 0 <= j < |ps| ==>
      && ps[j].sn < |chunks| && ps[j].sc == |chunks| && ps[j].ml == MessageLength(chunks)
      && ps[j].segment == chunks[ps[j].sn]
  }

  function Numbers(ps: seq<Packet>): (r: set<nat>)
  {
    set p | p in ps :: p.sn
  }

  /** Exactly the segments in `have` are there. */
  ghost predicate Shows(segments: seq<Option<Bytes>>, chunks: seq<Bytes>, have: set<nat>) {
    && |segments| == |chunks|
    && forall i :: 0 <= i < |chunks| ==> segments[i] == if i in have then Some(chunks[i]) else None
  }

  ghost predicate All(n: nat, have: set<nat>) { forall i :: 0 <= i < n ==> i in have }

  lemma ShowsOneMore(segments: seq<Option<Bytes>>, chunks: seq<Bytes>, have: set<nat>, i: nat)
    requires Shows(segments, chunks, have) && i < |chunks|
    ensures Shows(segments[i := Some(chunks[i])], chunks, have + {i})
  {
  }

  lemma ShowsAll(segments: seq<Option<Bytes>>, chunks: seq<Bytes>, have: set<nat>)
    requires Shows(segments, chunks, have)
    ensures Full(segments) <==> All(|chunks|, have)
    ensures Full(segments) ==> Values(segments) == chunks
  {
    if Full(segments) {
      forall i | 0 <= i < |chunks| ensures i in have { assert segments[i].Some?; }
      assert Values(segments) == chunks;
    }
  }

  /** The segments in `have` are in the tray, and some are not. */
  ghost predicate Holding(t: Tray, chunks: seq<Bytes>, have: set<nat>) {
    && !t.complete
    && (if have == {} then t == NEW_TRAY
        else Shows(t.segments, chunks, have) && t.sc == |chunks| && t.ml == |Join(chunks)| && !All(|chunks|, have))
  }

  /** One more packet: the tray holds its segment too, or that was the last one. */
  lemma OneMore(t: Tray, chunks: seq<Bytes>, have: set<nat>, p: Packet)
    requires |chunks| > 1 && Holding(t, chunks, have) && Carries([p], chunks)
    ensures var (t', o) := Collect(t, p);
            && o == Parsed && (if All(|chunks|, have + {p.sn}) then t'.complete && t'.body == Join(chunks)
                               else Holding(t', chunks, have + {p.sn}))
  {
    assert [p][0] == p;
    assert have != {} ==> t.segments != [];
    CollectOne(t, p);
    var before := if have == {} then Blank(p.sc) else t.segments;
    assert Shows(before, chunks, have);
    hide Collect, Join, Full, All, Shows;
    ShowsOneMore(before, chunks, have, p.sn);
    ShowsAll(before[p.sn := Some(p.segment)], chunks, have + {p.sn});
  }

  lemma {:induction false} FeedFrom(t: Tray, chunks: seq<Bytes>, have: set<nat>, ps: seq<Packet>)
    requires |chunks| > 1 && Holding(t, chunks, have) && Carries(ps, chunks)
    ensures var (t', o) := Feed(t, ps);
            && o == Parsed
            && (t'.complete <==> All(|chunks|, have + Numbers(ps)))
            && (t'.complete ==> t'.body == Join(chunks))
    decreases |ps|
  {
    if ps == [] {
      assert have + Numbers(ps) == have;
      if have == {} { assert 0 !in have; }
    } else {
      OneMore(t, chunks, have, ps[0]);
      NumbersSplit(ps);
      var next := have + {ps[0].sn};
      assert have + Numbers(ps) == next + Numbers(ps[1..]);
      hide Collect, Holding, Numbers, All;
      var t' := Collect(t, ps[0]).0;
      if t'.complete {
        AllAndMore(|chunks|, next, Numbers(ps[1..]));
      } else {
        NotComplete(t', chunks, next);
        FeedFrom(t', chunks, next, ps[1..]);
      }
    }
  }

  lemma AllAndMore(n: nat, have: set<nat>, more: set<nat>)
    requires All(n, have)
    ensures All(n, have + more)
  {
  }

  lemma NumbersSplit(ps: seq<Packet>)
    requires ps != []
    ensures Numbers(ps) == {ps[0].sn} + Numbers(ps[1..])
  {
    assert ps == [ps[0]] + ps[1..];
  }

  lemma NotComplete(t: Tray, chunks: seq<Bytes>, have: set<nat>)
    requires !t.complete && (t.complete || Holding(t, chunks, have))
    ensures Holding(t, chunks, have)
  {
  }

  /** In any order, with any duplicates: no packet is refused, the tray completes exactly when
      every segment has come, and then holds the concatenation of the segments. */
  lemma FeedRebuilds(chunks: seq<Bytes>, ps: seq<Packet>)
    requires chunks != [] && Carries(ps, chunks)
    ensures var (t, o) := Feed(NEW_TRAY, ps);
            && o == Parsed
            && (t.complete <==> forall i :: 0 <= i < |chunks| ==> i in Numbers(ps))
            && (t.complete ==> t.body == Join(chunks))
  {
    if |chunks| > 1 {
      FeedFrom(NEW_TRAY, chunks, {}, ps);
      assert {} + Numbers(ps) == Numbers(ps);
    } else if ps != [] {
      NumbersSplit(ps);
      assert ps[0].sn == 0 && 0 in Numbers(ps);
      assert Join(chunks) == chunks[0] + Join(chunks[1..]);
      assert Feed(Collect(NEW_TRAY, ps[0]).0, ps[1..]) == (Collect(NEW_TRAY, ps[0]).0, Parsed);
    } else {
      assert 0 !in Numbers(ps);
    }
  }

  // ------------------------------------------------------------- From the wire

  /** What a received packet brings to the tray. */
  function Arrived(packed: string, verify: (string, string) -> bool): Result<Packet, PacketError> {
    match ParseOuter(packed, verify)
    case Err(e) => Err(e)
    case Ok(d) => Ok(Seen(TxPacket(d, CoatOf(packed, d), packed)))
  }

  /** The coat segments of a message. */
  function Chunks(d: HeadData, s: Bytes): (r: seq<Bytes>)
    requires Unsegmented(d) && |s| <= MAX_MESSAGE_SIZE
  {
    SegSizePositive(d);
    if SizeOf(d, s) <= UDP_MAX_PACKET_SIZE then [s]
    else Cuts(s, SegSize(d), SegCount(|s|, SegSize(d)))
  }

  /** The packets on the wire, in the order given. */
  function Wires(packets: seq<TxPacket>, order: seq<nat>): (r: seq<string>)
    requires forall j :: 0 <= j < |order| ==> order[j] < |packets|
    ensures |r| == |order| && forall j :: 0 <= j < |r| ==> r[j] == packets[order[j]].packed
  {
    seq(|order|, j requires 0 <= j < |order| => packets[order[j]].packed)
  }

  function Arrivals(wires: seq<string>, verify: (string, string) -> bool): (r: seq<Packet>)
    requires forall j :: 0 <= j < |wires| ==> Arrived(wires[j], verify).Ok?
    ensures |r| == |wires| && forall j :: 0 <= j < |r| ==> r[j] == Arrived(wires[j], verify).value
  {
    seq(|wires|, j requires 0 <= j < |wires| => Arrived(wires[j], verify).value)
  }

  lemma ChunksJoin(d: HeadData, s: Bytes)
    requires Unsegmented(d) && |s| <= MAX_MESSAGE_SIZE
    ensures var chunks := Chunks(d, s);
            && chunks != [] && Join(chunks) == s
            && (SizeOf(d, s) <= UDP_MAX_PACKET_SIZE ==> MessageLength(chunks) == 0 && |chunks| == 1)
            && (SizeOf(d, s) > UDP_MAX_PACKET_SIZE ==> MessageLength(chunks) == |s| && |chunks| >= 2)
  {
    hide SizeOf, SegSize, Cuts, SegCount, Unsegmented;
    if SizeOf(d, s) <= UDP_MAX_PACKET_SIZE {
      assert Join([s]) == s + Join([s][1..]);
    } else {
      SegmentsFit(d, s, 0);
      JoinCuts(s, SegSize(d), SegCount(|s|, SegSize(d)));
    }
  }

  /** Packet i of a message is within the packet limit, arrives, and carries chunk i. */
  lemma PacketArrives(d: HeadData, s: Bytes, packets: seq<TxPacket>, i: nat,
                      sign: string -> string, verify: (string, string) -> bool)
    requires Unsegmented(d) && d.num[Vn] == 0 && |s| <= MAX_MESSAGE_SIZE && Pair(sign, verify)
    requires SizeOf(d, s) > UDP_MAX_PACKET_SIZE ==> |packets| <= MAX_SEGMENT_COUNT
    requires Built(d, s, sign, packets) && i < |packets|
    ensures var chunks := Chunks(d, s);
            && |packets| == |chunks| && |packets[i].packed| <= UDP_MAX_PACKET_SIZE
            && Arrived(packets[i].packed, verify)
               == Ok(Packet(i, |chunks|, MessageLength(chunks), chunks[i], d.flags[3], d.flags[5]))
  {
    ChunksJoin(d, s);
    WholeSize(d, s);
    if SizeOf(d, s) <= UDP_MAX_PACKET_SIZE {
      PacksExactly(d, s, sign);
      PacketRoundTrip(d, s, sign, verify);
    } else {
      SegmentDelivers(d, s, i, sign, verify);
    }
  }

  /** The round trip. Every packet a message is packed into, at most 65535 of them, fits the
      packet limit and arrives; and for every order of delivery with any repetitions, feeding the
      arrived packets refuses none, completes exactly when each packet has come at least once, and
      then yields the message. */
  lemma MessageRoundTrip(d: HeadData, s: Bytes, packets: seq<TxPacket>, order: seq<nat>,
                         sign: string -> string, verify: (string, string) -> bool)
    requires Unsegmented(d) && d.num[Vn] == 0 && |s| <= MAX_MESSAGE_SIZE && Pair(sign, verify)
    requires Built(d, s, sign, packets)
    requires SizeOf(d, s) > UDP_MAX_PACKET_SIZE ==> |packets| <= MAX_SEGMENT_COUNT
    requires forall j :: 0 <= j < |order| ==> order[j] < |packets|
    ensures forall i :: 0 <= i < |packets| ==> |packets[i].packed| <= UDP_MAX_PACKET_SIZE
    ensures var wires := Wires(packets, order);
            && (forall j :: 0 <= j < |wires| ==> Arrived(wires[j], verify).Ok?)
            && var (t, o) := Feed(NEW_TRAY, Arrivals(wires, verify));
               && o == Parsed
               && (t.complete <==> forall i :: 0 <= i < |packets| ==> i in order)
               && (t.complete ==> t.body == s)
  {
    hide Feed, Collect, Chunks, Arrived, Built, Unsegmented, Pair, SizeOf, MessageLength;
    var chunks := Chunks(d, s);
    ChunksJoin(d, s);
    AsManyAsChunks(d, s, packets, sign);
    forall i | 0 <= i < |packets|
      ensures |packets[i].packed| <= UDP_MAX_PACKET_SIZE
      ensures Arrived(packets[i].packed, verify)
              == Ok(Packet(i, |chunks|, MessageLength(chunks), chunks[i], d.flags[3], d.flags[5]))
    {
      PacketArrives(d, s, packets, i, sign, verify);
    }
    var wires := Wires(packets, order);
    var ps := Arrivals(wires, verify);
    assert forall j :: 0 <= j < |ps| ==>
             ps[j] == Packet(order[j], |chunks|, MessageLength(chunks), chunks[order[j]], d.flags[3], d.flags[5]);
    FeedRebuilds(chunks, ps);
    NumbersAre(ps, order);
  }

  lemma NumbersAre(ps: seq<Packet>, order: seq<nat>)
    requires |ps| == |order| && forall j :: 0 <= j < |ps| ==> ps[j].sn == order[j]
    ensures forall i :: i in Numbers(ps) <==> i in order
  {
    forall i | i in order ensures i in Numbers(ps) {
      var j :| 0 <= j < |order| && order[j] == i;
      assert ps[j] in ps;
    }
  }

  lemma AsManyAsChunks(d: HeadData, s: Bytes, packets: seq<TxPacket>, sign: string -> string)
    requires Unsegmented(d) && |s| <= MAX_MESSAGE_SIZE && Built(d, s, sign, packets)
    ensures |packets| == |Chunks(d, s)|
  {
    WholeSize(d, s);
  }

  /** And a message that makes at most 65535 segments is always packed: TxTray.Pack promises Err
      only where nothing can be Built. */
  lemma AlwaysBuilt(d: HeadData, s: Bytes, sign: string -> string, verify: (string, string) -> bool)
    requires Unsegmented(d) && d.num[Vn] == 0 && |s| <= MAX_MESSAGE_SIZE && Pair(sign, verify)
    requires SizeOf(d, s) > UDP_MAX_PACKET_SIZE ==> SegSize(d) > 0 && SegCount(|s|, SegSize(d)) <= MAX_SEGMENT_COUNT
    ensures exists packets :: Built(d, s, sign, packets)
  {
    WholeSize(d, s);
    if SizeOf(d, s) <= UDP_MAX_PACKET_SIZE {
      BuiltSingle(d, s, sign);
    } else {
      hide *;
      var n := SegCount(|s|, SegSize(d));
      forall i | 0 <= i < n ensures SegmentPacket(d, s, SegSize(d), i, sign).Ok? {
        SegmentDelivers(d, s, i, sign, verify);
      }
      var packets := seq(n, i requires 0 <= i < n => SegmentPacket(d, s, SegSize(d), i, sign).value);
      BuiltSegments(d, s, sign, packets);
    }
  }

  lemma BuiltSegments(d: HeadData, s: Bytes, sign: string -> string, packets: seq<TxPacket>)
    requires d.Valid() && IsFootKind(d.num[Fk]) && Whole(d, s).Ok? && |Whole(d, s).value.1| > UDP_MAX_PACKET_SIZE
    requires SegSize(d) > 0 && |packets| == SegCount(|s|, SegSize(d))
    requires forall i :: 0 <= i < |packets| ==> SegmentPacket(d, s, SegSize(d), i, sign) == Ok(packets[i])
    ensures Built(d, s, sign, packets)
  {
    hide Whole, SegmentPacket, SegSize, SegCount;
  }
}
