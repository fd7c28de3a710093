/** The packets of the message protocol are packets on the wire: what TxTray.pack leaves, and what
    a Messenger sends after setting flags and repacking, arrives as Exchange takes it to. */
module EndToEnd {
  import opened Basics
  import opened Traying
  import opened Messaging
  import opened Exchange
  import opened Packeting
  import opened Packets
  import opened Segmenting
  import opened Reassembly

  /** The head data packet i of a message is packed from. */
  function BaseData(d: HeadData, s: Bytes, i: nat): (r: HeadData)
    requires Unsegmented(d) && |s| <= MAX_MESSAGE_SIZE
    ensures r.Valid()
  {
    SegSizePositive(d);
    if SizeOf(d, s) <= UDP_MAX_PACKET_SIZE then d
    else SegmentData(d, i, SegCount(|s|, SegSize(d)), |s|)
  }

  /** What is known of packet i: its coat is chunk i, it was packed from its base data, and those
      make a packet within the limit. */
  lemma PackedFrom(d: HeadData, s: Bytes, packets: seq<TxPacket>, i: nat, sign: string -> string)
    requires Unsegmented(d) && |s| <= MAX_MESSAGE_SIZE
    requires forall m :: |sign(m)| == NACL_FOOT
    requires SizeOf(d, s) > UDP_MAX_PACKET_SIZE ==> |packets| <= MAX_SEGMENT_COUNT
    requires Built(d, s, sign, packets) && i < |packets|
    ensures |packets| == |Chunks(d, s)|
    ensures var (b, chunk) := (BaseData(d, s, i), Chunks(d, s)[i]);
            && InRange(b) && IsFootKind(b.num[Fk]) && b.num[Hk] == 0 && b.num[Vn] == d.num[Vn]
            && |chunk| <= MAX_MESSAGE_SIZE
            && Pack(b, chunk, sign).Ok? && packets[i].coat == chunk
            && Pack(b, chunk, sign).value == (packets[i].data, packets[i].packed)
  {
    AsManyAsChunks(d, s, packets, sign);
    WholeSize(d, s);
    SegSizePositive(d);
    if SizeOf(d, s) <= UDP_MAX_PACKET_SIZE {
      PacksExactly(d, s, sign);
    } else {
      SegmentsFit(d, s, i);
      SegmentHead(d, i, |packets|, |s|);
      var b, chunk := BaseData(d, s, i), Chunks(d, s)[i];
      hide SizeOf, SegSize, Unsegmented, InRange, SegmentData, Cut;
      PacksExactly(b, chunk, sign);
      WholeSize(b, chunk);
    }
  }

  /** Setting the again and wait flags of a packet and repacking it always succeeds, keeps its size,
      and it arrives with those flags, its number, count, full length and segment unchanged. */
  lemma RepackedArrives(d: HeadData, s: Bytes, packets: seq<TxPacket>, i: nat, af: bool, wf: bool,
                        sign: string -> string, verify: (string, string) -> bool)
    requires Unsegmented(d) && d.num[Vn] == 0 && |s| <= MAX_MESSAGE_SIZE && Pair(sign, verify)
    requires SizeOf(d, s) > UDP_MAX_PACKET_SIZE ==> |packets| <= MAX_SEGMENT_COUNT
    requires Built(d, s, sign, packets) && i < |packets|
    ensures packets[i].data.Valid() && |packets| == |Chunks(d, s)|
    ensures var (p, chunks) := (packets[i], Chunks(d, s));
            var r := Pack(p.data.(flags := p.data.flags[3 := af][5 := wf]), p.coat, sign);
            && r.Ok? && |r.value.1| == |p.packed|
            && Arrived(r.value.1, verify) == Ok(Packet(i, |chunks|, MessageLength(chunks), chunks[i], af, wf))
  {
    PackedFrom(d, s, packets, i, sign);
    PacketArrives(d, s, packets, i, sign, verify);
    var b, p := BaseData(d, s, i), packets[i];
    hide Built, Unsegmented, Chunks, BaseData, SizeOf, Pack, Pair;
    Reflag(b, p.coat, af, wf, sign, verify);
  }

  lemma Reflag(b: HeadData, coat: Bytes, af: bool, wf: bool, sign: string -> string, verify: (string, string) -> bool)
    requires InRange(b) && IsFootKind(b.num[Fk]) && b.num[Hk] == 0 && b.num[Vn] == 0 && |coat| <= MAX_MESSAGE_SIZE
    requires Pair(sign, verify) && Pack(b, coat, sign).Ok?
    ensures var (data, packed) := Pack(b, coat, sign).value;
            && data.Valid() && |data.flags| == FLAG_COUNT
            && var r := Pack(data.(flags := data.flags[3 := af][5 := wf]), coat, sign);
               && r.Ok? && |r.value.1| == |packed|
               && Arrived(packed, verify).Ok?
               && Arrived(r.value.1, verify) == Ok(Arrived(packed, verify).value.(af := af, wf := wf))
  {
    var head, last := PackedHead(b, coat, sign);
    hide Pack, PackHead, ParseHead, ParseOuter, CoatOf, BlankFoot, SizeOf, Pair, InRange, Footed,
         Lengths, Seen, Arrived, SameFields;
    PacketRoundTrip(b, coat, sign, verify);
    var (data, packed) := Pack(b, coat, sign).value;
    var flags := data.flags[3 := af][5 := wf];
    HeadShort(b, coat, sign);
    FootedOnce(b, coat, sign);
    var again := data.(flags := flags);
    FlagsKeepRange(b, flags, |packed|, |head|);
    RepackKeepsSize(Footed(b), flags, |packed|, |head|, coat, sign);
    PacketRoundTrip(again, coat, sign, verify);
    ArrivesAs(packed, verify, data, coat);
    var (data', packed') := Pack(again, coat, sign).value;
    ArrivesAs(packed', verify, data', coat);
    SeenAlike(data, again, data', coat, packed, packed', af, wf);
  }

  lemma ArrivesAs(packed: Bytes, verify: (string, string) -> bool, data: HeadData, coat: Bytes)
    requires data.Valid() && ParseOuter(packed, verify) == Ok(data) && CoatOf(packed, data) == coat
    ensures Arrived(packed, verify) == Ok(Seen(TxPacket(data, coat, packed)))
  {
    hide ParseOuter, CoatOf;
  }

  lemma SeenAlike(data: HeadData, again: HeadData, data': HeadData, coat: Bytes, packed: Bytes, packed': Bytes,
                  af: bool, wf: bool)
    requires data.Valid() && data'.Valid() && again == data.(flags := data.flags[3 := af][5 := wf])
    requires SameFields(again, data')
    ensures Seen(TxPacket(data', coat, packed')) == Seen(TxPacket(data, coat, packed)).(af := af, wf := wf)
  {
  }

  lemma FlagsKeepRange(b: HeadData, flags: seq<bool>, pl: nat, hl: nat)
    requires InRange(b) && IsFootKind(b.num[Fk]) && |flags| == FLAG_COUNT && pl < 0x1_0000 && hl < 0x100
    ensures var r := Lengths(Footed(b), pl, hl).(flags := flags);
            InRange(r) && r.num[Hk] == b.num[Hk] && r.num[Vn] == b.num[Vn] && IsFootKind(r.num[Fk])
    ensures InRange(Footed(b)) && IsFootKind(Footed(b).num[Fk])
  {
  }

  /** A packed head is shorter than 256 bytes. */
  lemma HeadShort(b: HeadData, coat: Bytes, sign: string -> string)
    requires InRange(b) && IsFootKind(b.num[Fk]) && |coat| <= MAX_MESSAGE_SIZE && Pack(b, coat, sign).Ok?
    ensures Pack(b, coat, sign).value.0.Valid() && Pack(b, coat, sign).value.0.num[Hl] < 0x100
  {
    hide HeadSize, PackHead, InRange;
    PackHeadIs(Footed(b), |coat|);
    HeadFits(Footed(b));
  }

  lemma FootedOnce(b: HeadData, coat: Bytes, sign: string -> string)
    requires b.Valid() && IsFootKind(b.num[Fk])
    ensures Footed(b).num[Fk] == b.num[Fk] && Footed(Footed(b)) == Footed(b)
    ensures Pack(Footed(b), coat, sign) == Pack(b, coat, sign)
  {
    assert Footed(Footed(b)).num == Footed(b).num;
    hide PackHead;
  }

  /** A tray with no flag set is what Exchange starts from, packet for packet. */
  lemma TrayIsFresh(d: HeadData, s: Bytes, packets: seq<TxPacket>, i: nat,
                    sign: string -> string, verify: (string, string) -> bool)
    requires Unsegmented(d) && d.num[Vn] == 0 && |s| <= MAX_MESSAGE_SIZE && Pair(sign, verify)
    requires SizeOf(d, s) > UDP_MAX_PACKET_SIZE ==> |packets| <= MAX_SEGMENT_COUNT
    requires Built(d, s, sign, packets) && i < |packets| && !d.flags[3] && !d.flags[5]
    ensures |packets| == |Fresh(Chunks(d, s))|
    ensures Arrived(packets[i].packed, verify) == Ok(Fresh(Chunks(d, s))[i])
  {
    PacketArrives(d, s, packets, i, sign, verify);
  }

  /** So, message by message: whatever the road does, the receiver's rxMsgs never holds anything
      but the message itself, once, and holds it when its Messenger has ended. */
  lemma MessageOnce(d: HeadData, s: Bytes, burst: nat, run: seq<Action>)
    requires Unsegmented(d) && |s| <= MAX_MESSAGE_SIZE
    requires Chunks(d, s) != [] && Legal(Start(Chunks(d, s), burst), run)
    ensures var e := Run(Start(Chunks(d, s), burst), run);
            && (e.receiver.rxMsgs == [] || e.receiver.rxMsgs == [s])
            && (!e.sender.live ==> e.receiver.rxMsgs == [s])
  {
    ChunksJoin(d, s);
    hide Chunks, Unsegmented;
    ExactlyOnce(Chunks(d, s), burst, run, []);
  }
}
