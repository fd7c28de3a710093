/** A message cut into segments and put together again: TxTray.pack and packetize of
    raet/road/packeting.py, against RxTray. */
module Segmenting {
  import opened Basics
  import opened Traying
  import opened HeadLines
  import opened Packeting
  import opened Packets
  import Hex

  /** Bytes a segment's head may need beyond that of the unsegmented packet. */
  const EXTRA_SIZE := 27

  const SF := 4  // position of sf among the flags

  // --------------------------------------------------------------------- Cutting

  function SegCount(size: nat, segsize: nat): nat
    requires segsize > 0
  {
    size / segsize + if size % segsize != 0 then 1 else 0
  }

  lemma CountBounds(size: nat, segsize: nat)
    requires segsize > 0
    ensures var n := SegCount(size, segsize);
            size <= n * segsize && (n > 0 ==> (n - 1) * segsize < size) && (n == 0 <==> size == 0)
  {
    var q, r := size / segsize, size % segsize;
    assert size == q * segsize + r;
    assert (q + 1) * segsize == q * segsize + segsize;
    if size > 0 && q == 0 { assert r == size; }
    assert r == 0 && q > 0 ==> (q - 1) * segsize == q * segsize - segsize;
  }

  lemma CutWithin(size: nat, segsize: nat, i: nat)
    requires segsize > 0 && i < SegCount(size, segsize)
    ensures i * segsize < size
    ensures i + 1 < SegCount(size, segsize) ==> (i + 1) * segsize < size
  {
    CountBounds(size, segsize);
    var n := SegCount(size, segsize);
    Times(i, n - 1, segsize);
    if i + 1 < n { Times(i + 1, n - 1, segsize); }
  }

  lemma Times(a: nat, b: nat, k: nat)
    requires a <= b
    ensures a * k <= b * k
  {
  }

  /** Segment i: the last one is all that remains. */
  function Cut(s: Bytes, segsize: nat, i: nat): (r: Bytes)
    requires segsize > 0 && i < SegCount(|s|, segsize)
    ensures |r| <= segsize
  {
    CutWithin(|s|, segsize, i);
    CountBounds(|s|, segsize);
    if i == SegCount(|s|, segsize) - 1 then s[i * segsize..] else s[i * segsize..(i + 1) * segsize]
  }

  function Cuts(s: Bytes, segsize: nat, n: nat): (r: seq<Bytes>)
    requires segsize > 0 && n <= SegCount(|s|, segsize)
    ensures |r| == n
  {
    seq(n, i requires 0 <= i < n => Cut(s, segsize, i))
  }

  /** The first n segments are what comes before the end of segment n - 1. */
  function CutEnd(size: nat, segsize: nat, n: nat): (end: nat)
    requires segsize > 0 && n <= SegCount(size, segsize)
    ensures end <= size
  {
    CountBounds(size, segsize);
    if n == SegCount(size, segsize) then size
    else CutWithin(size, segsize, n); n * segsize
  }

  lemma CutIs(s: Bytes, segsize: nat, i: nat)
    requires segsize > 0 && i < SegCount(|s|, segsize)
    ensures CutEnd(|s|, segsize, i) <= CutEnd(|s|, segsize, i + 1)
    ensures Cut(s, segsize, i) == s[CutEnd(|s|, segsize, i)..CutEnd(|s|, segsize, i + 1)]
    ensures CutEnd(|s|, segsize, 0) == 0
  {
    CutWithin(|s|, segsize, i);
    Times(i, i + 1, segsize);
  }

  lemma {:induction false} JoinCuts(s: Bytes, segsize: nat, n: nat)
    requires segsize > 0 && n <= SegCount(|s|, segsize)
    ensures Join(Cuts(s, segsize, n)) == s[..CutEnd(|s|, segsize, n)]
    decreases n
  {
    if n > 0 {
      JoinCuts(s, segsize, n - 1);
      CutIs(s, segsize, n - 1);
      hide CutEnd, SegCount, Cut, Join;
      var last := Cut(s, segsize, n - 1);
      assert Cuts(s, segsize, n) == Cuts(s, segsize, n - 1) + [last];
      JoinAppend(Cuts(s, segsize, n - 1), last);
      var a, b := CutEnd(|s|, segsize, n - 1), CutEnd(|s|, segsize, n);
      assert s[..a] + s[a..b] == s[..b];
    } else {
      CountBounds(|s|, segsize);
    }
  }

  // ---------------------------------------------------------------- Segment heads

  /** The head data of segment i: packetize copies the tray's data and sets these. */
  function SegmentData(d: HeadData, i: nat, n: nat, size: nat): (r: HeadData)
    requires d.Valid()
    ensures r.Valid()
  {
    HeadData(d.num[Sn := i][Sc := n][Ml := size], d.flags[SF := true])
  }

  /** What a segment field can add: its line with at most 4, 4 and 7 digits. */
  function Allowance(k: Key): nat {
    if k == Sn || k == Sc then 8 else if k == Ml then 11 else 0
  }

  function Allowances(keys: seq<Key>): nat {
    if keys == [] then 0 else Allowance(keys[0]) + Allowances(keys[1..])
  }

  /** With sn, sc and ml at places 9, 10 and 11. */
  lemma {:induction false} AllowancesFrom(keys: seq<Key>, i: nat)
    requires i <= |keys| == 16
    requires forall j :: 0 <= j < 16 ==>
               Allowance(keys[j]) == if j == 9 || j == 10 then 8 else if j == 11 then 11 else 0
    ensures Allowances(keys[i..]) == if i > 11 then 0 else if i == 11 then 11 else if i == 10 then 19 else 27
    decreases 16 - i
  {
    if i < 16 {
      assert keys[i..][1..] == keys[i + 1..];
      AllowancesFrom(keys, i + 1);
    }
  }

  lemma TotalAllowance()
    ensures Allowances(Optional()) == EXTRA_SIZE
  {
    var keys := Optional();
    hide Allowances;
    AllowancesFrom(keys, 0);
    assert keys[0..] == keys;
  }

  lemma {:induction false} WidthGrows(num: map<Key, nat>, num': map<Key, nat>, keys: seq<Key>)
    requires forall k :: k in keys ==> k in num && k in num'
    requires forall k :: k in keys && Allowance(k) == 0 ==> num'[k] == num[k]
    requires forall k :: k in keys && Allowance(k) > 0 ==>
               num[k] == Default(k) && num'[k] < if k == Ml then 0x1000_0000 else 0x1_0000
    ensures Width(Shown(num', keys)) <= Width(Shown(num, keys)) + Allowances(keys)
  {
    if keys != [] {
      var k := keys[0];
      assert k in keys;
      WidthGrows(num, num', keys[1..]);
      Hex.Powers();
      if Allowance(k) > 0 {
        Hex.PrintLength(num'[k], 1, if k == Ml then 7 else 4);
      }
      WidthCons((Name(k), Hex.Print(num'[k], 1)), Shown(num', keys[1..]));
      WidthCons((Name(k), Hex.Print(num[k], 1)), Shown(num, keys[1..]));
    }
  }

  /** The data TxTray.pack starts from: segment fields at their defaults, native head. */
  ghost predicate Unsegmented(d: HeadData)
    ensures Unsegmented(d) ==> d.Valid() && IsFootKind(d.num[Fk])
  {
    && InRange(d) && d.num[Hk] == 0 && IsFootKind(d.num[Fk])
    && d.num[Sn] == 0 && d.num[Sc] == 1 && d.num[Ml] == 0
  }

  /** Such data are those of every new packet. */
  lemma DefaultsAreUnsegmented()
    ensures Unsegmented(Defaults())
  {
    assert forall k: Key :: Defaults().num[k] == Default(k);
  }

  lemma SegmentInRange(d: HeadData, i: nat, n: nat, size: nat)
    requires Unsegmented(d) && i < n <= MAX_SEGMENT_COUNT && size <= MAX_MESSAGE_SIZE
    ensures var s := SegmentData(d, i, n, size);
            InRange(s) && s.num[Fk] == d.num[Fk] && s.num[Hk] == 0 && s.num[Vn] == d.num[Vn]
  {
  }

  lemma SegmentWidth(a: HeadData, b: HeadData, i: nat, n: nat, size: nat, keys: seq<Key>)
    requires a.Valid() && b.Valid() && a.num[Sn] == 0 && a.num[Sc] == 1 && a.num[Ml] == 0
    requires b.num == a.num[Sn := i][Sc := n][Ml := size]
    requires i < 0x1_0000 && n < 0x1_0000 && size < 0x1000_0000
    ensures Width(Shown(b.num, keys)) <= Width(Shown(a.num, keys)) + Allowances(keys)
  {
    hide Shown, Allowances;
    WidthGrows(a.num, b.num, keys);
  }

  lemma FootedSegment(d: HeadData, i: nat, n: nat, size: nat)
    requires Unsegmented(d)
    ensures Footed(SegmentData(d, i, n, size)).num == Footed(d).num[Sn := i][Sc := n][Ml := size]
    ensures Footed(d).num[Sn] == 0 && Footed(d).num[Sc] == 1 && Footed(d).num[Ml] == 0
  {
  }

  /** A segment's head is at most 27 bytes longer than the unsegmented one. */
  lemma SegmentHead(d: HeadData, i: nat, n: nat, size: nat)
    requires Unsegmented(d) && i < n <= MAX_SEGMENT_COUNT && size <= MAX_MESSAGE_SIZE
    ensures var s := SegmentData(d, i, n, size);
            && InRange(s) && s.num[Fk] == d.num[Fk] && s.num[Hk] == 0 && s.num[Vn] == d.num[Vn]
            && HeadSize(Footed(s)) <= HeadSize(Footed(d)) + EXTRA_SIZE
  {
    SegmentInRange(d, i, n, size);
    var s := SegmentData(d, i, n, size);
    TotalAllowance();
    FootedSegment(d, i, n, size);
    hide Optional, Shown, Allowances, InRange, BlankFoot, Width, Footed, SegmentData;
    SegmentWidth(Footed(d), Footed(s), i, n, size, Optional());
  }

  /** The segment size packetize computes from the unsegmented packet. */
  function SegSize(d: HeadData): int
    requires d.Valid() && IsFootKind(d.num[Fk])
  {
    UDP_MAX_PACKET_SIZE - (HeadSize(Footed(d)) + EXTRA_SIZE + |BlankFoot(d.num[Fk]).value|)
  }

  lemma SegSizePositive(d: HeadData)
    requires Unsegmented(d)
    ensures SegSize(d) >= 712
  {
    hide HeadSize;
    HeadFits(Footed(d));
  }

  /** A message that does not fit one packet makes at least two segments, and with at most 65535
      of them every segment's packet fits. */
  lemma SegmentsFit(d: HeadData, s: Bytes, i: nat)
    requires Unsegmented(d) && |s| <= MAX_MESSAGE_SIZE && SizeOf(d, s) > UDP_MAX_PACKET_SIZE
    ensures SegSize(d) > 0 && SegCount(|s|, SegSize(d)) >= 2
    ensures var n := SegCount(|s|, SegSize(d));
            i < n <= MAX_SEGMENT_COUNT ==>
              SizeOf(SegmentData(d, i, n, |s|), Cut(s, SegSize(d), i)) <= UDP_MAX_PACKET_SIZE
  {
    hide HeadSize, Footed, Unsegmented, InRange;
    SegSizePositive(d);
    var k := SegSize(d);
    CountBounds(|s|, k);
    var n := SegCount(|s|, k);
    if n < 2 { Times(n, 1, k); }
    if i < n <= MAX_SEGMENT_COUNT {
      SegmentHead(d, i, n, |s|);
    }
  }

  // ---------------------------------------------------- Where the size bound ends

  /** What the lines of the segment fields add. */
  function Added(num: map<Key, nat>, keys: seq<Key>): nat
    requires forall k :: k in keys ==> k in num
  {
    if keys == [] then 0
    else (if Allowance(keys[0]) > 0 then 4 + |Hex.Print(num[keys[0]], 1)| else 0) + Added(num, keys[1..])
  }

  lemma {:induction false} WidthExactly(num: map<Key, nat>, num': map<Key, nat>, keys: seq<Key>)
    requires forall k :: k in keys ==> k in num && k in num'
    requires forall k :: k in keys && Allowance(k) == 0 ==> num'[k] == num[k]
    requires forall k :: k in keys && Allowance(k) > 0 ==> num[k] == Default(k) && num'[k] != Default(k)
    ensures Width(Shown(num', keys)) == Width(Shown(num, keys)) + Added(num', keys)
  {
    if keys != [] {
      var k := keys[0];
      assert k in keys;
      WidthExactly(num, num', keys[1..]);
      WidthCons((Name(k), Hex.Print(num'[k], 1)), Shown(num', keys[1..]));
      WidthCons((Name(k), Hex.Print(num[k], 1)), Shown(num, keys[1..]));
    }
  }

  lemma {:induction false} AddedFrom(num: map<Key, nat>, keys: seq<Key>, i: nat)
    requires i <= |keys| == 16 && forall k: Key :: k in num
    requires forall j :: 0 <= j < 16 && Allowance(keys[j]) > 0 ==> 9 <= j <= 11
    requires keys[9] == Sn && keys[10] == Sc && keys[11] == Ml
    ensures Added(num, keys[i..]) == (if i <= 9 then 4 + |Hex.Print(num[Sn], 1)| else 0)
                                     + (if i <= 10 then 4 + |Hex.Print(num[Sc], 1)| else 0)
                                     + (if i <= 11 then 4 + |Hex.Print(num[Ml], 1)| else 0)
    decreases 16 - i
  {
    hide Hex.Print;
    if i < 16 {
      assert keys[i..][1..] == keys[i + 1..];
      AddedFrom(num, keys, i + 1);
    }
  }

  lemma SegmentFieldPlaces()
    ensures var keys := Optional();
            && |keys| == 16 && keys[9] == Sn && keys[10] == Sc && keys[11] == Ml && keys[0..] == keys
            && forall j :: 0 <= j < 16 && Allowance(keys[j]) > 0 ==> 9 <= j <= 11
  {
  }

  /** A segment's size when none of its three fields is at its default. */
  lemma SegmentSizeIs(d: HeadData, i: nat, n: nat, size: nat, cut: Bytes)
    requires Unsegmented(d) && i > 0 && n > 1 && size > 0
    ensures var s := SegmentData(d, i, n, size);
            IsFootKind(s.num[Fk]) && SizeOf(s, cut) == HeadSize(Footed(d)) + |cut| + |BlankFoot(d.num[Fk]).value|
                                       + 12 + |Hex.Print(i, 1)| + |Hex.Print(n, 1)| + |Hex.Print(size, 1)|
  {
    var s, keys := SegmentData(d, i, n, size), Optional();
    FootedSegment(d, i, n, size);
    assert s.num[Fk] == d.num[Fk] && IsFootKind(d.num[Fk]);
    SegmentFieldPlaces();
    hide Optional, Shown, Added, InRange, BlankFoot, Width, Footed, SegmentData, Hex.Print, Allowance, Unsegmented;
    SegmentAdds(Footed(d), Footed(s), i, n, size, keys);
    AddedFrom(Footed(s).num, keys, 0);
  }

  lemma SegmentAdds(a: HeadData, b: HeadData, i: nat, n: nat, size: nat, keys: seq<Key>)
    requires a.Valid() && b.Valid() && a.num[Sn] == 0 && a.num[Sc] == 1 && a.num[Ml] == 0
    requires b.num == a.num[Sn := i][Sc := n][Ml := size] && i > 0 && n > 1 && size > 0
    ensures Width(Shown(b.num, keys)) == Width(Shown(a.num, keys)) + Added(b.num, keys)
    ensures b.num[Sn] == i && b.num[Sc] == n && b.num[Ml] == size
  {
    hide Shown, Added;
    WidthExactly(a.num, b.num, keys);
  }

  /** Every segment of a long message fits its packet exactly if there are at most 65535 of them:
      of more, already segment 4096 is too long, and repacking it raises. */
  lemma AllFitExactly(d: HeadData, s: Bytes)
    requires Unsegmented(d) && |s| <= MAX_MESSAGE_SIZE && SizeOf(d, s) > UDP_MAX_PACKET_SIZE
    ensures SegSize(d) > 0
    ensures var n := SegCount(|s|, SegSize(d));
            n <= MAX_SEGMENT_COUNT <==>
              forall i :: 0 <= i < n ==> SizeOf(SegmentData(d, i, n, |s|), Cut(s, SegSize(d), i)) <= UDP_MAX_PACKET_SIZE
  {
    SegSizePositive(d);
    var k := SegSize(d);
    var n := SegCount(|s|, k);
    hide SizeOf, SegSize, SegmentData, Cut, SegCount, Unsegmented;
    if n <= MAX_SEGMENT_COUNT {
      forall i | 0 <= i < n ensures SizeOf(SegmentData(d, i, n, |s|), Cut(s, k, i)) <= UDP_MAX_PACKET_SIZE {
        SegmentsFit(d, s, i);
      }
    } else {
      TooLong(d, s);
    }
  }

  /** Lower bounds of the three numbers when there are too many segments. */
  lemma TooMany(size: nat, k: nat)
    requires 712 <= k && SegCount(size, k) > MAX_SEGMENT_COUNT
    ensures size >= 712 * 65535 && |Hex.Print(0x1000, 1)| >= 4
    ensures |Hex.Print(SegCount(size, k), 1)| >= 5 && |Hex.Print(size, 1)| >= 7
  {
    var n := SegCount(size, k);
    CountBounds(size, k);
    Times(65535, n - 1, k);
    Times(712, k, 65535);
    hide Hex.Print, SegCount;
    Hex.Powers();
    assert Hex.Pow16(3) * 16 == Hex.Pow16(4) && Hex.Pow16(6) * 16 == Hex.Pow16(7);
    Hex.PrintAtLeast(0x1000, 3);
    Hex.PrintAtLeast(n, 4);
    Hex.PrintAtLeast(size, 6);
  }

  lemma TooLong(d: HeadData, s: Bytes)
    requires Unsegmented(d) && |s| <= MAX_MESSAGE_SIZE && SegSize(d) > 0
    requires SegCount(|s|, SegSize(d)) > MAX_SEGMENT_COUNT
    ensures SizeOf(SegmentData(d, 0x1000, SegCount(|s|, SegSize(d)), |s|), Cut(s, SegSize(d), 0x1000))
            > UDP_MAX_PACKET_SIZE
  {
    SegSizePositive(d);
    var k := SegSize(d);
    var n := SegCount(|s|, k);
    TooMany(|s|, k);
    CutIsFull(s, k, 0x1000);
    hide Hex.Print, SizeOf, SegmentData, Cut, SegCount, HeadSize, Footed, BlankFoot, Unsegmented;
    SegmentSizeIs(d, 0x1000, n, |s|, Cut(s, k, 0x1000));
  }

  /** The permitted message length does not keep the count within that bound: the longest message
      always makes more. */
  lemma LongestMakesMore(d: HeadData, s: Bytes)
    requires Unsegmented(d) && |s| == MAX_MESSAGE_SIZE
    ensures SegSize(d) > 0 && SegCount(|s|, SegSize(d)) > MAX_SEGMENT_COUNT
  {
    SegSizePositive(d);
    hide Shown, SegCount;
    var n := SegCount(|s|, SegSize(d));
    CountBounds(|s|, SegSize(d));
    assert SegSize(d) <= 968;
    Times(SegSize(d), 968, n);
  }

  lemma CutIsFull(s: Bytes, segsize: nat, i: nat)
    requires segsize > 0 && i + 1 < SegCount(|s|, segsize)
    ensures |Cut(s, segsize, i)| == segsize
  {
    CutWithin(|s|, segsize, i);
    assert (i + 1) * segsize == i * segsize + segsize;
  }

  // ---------------------------------------------------------------------- The tray

  datatype TxPacket = TxPacket(data: HeadData, coat: Bytes, packed: string)

  /** One segment as packetize builds it, without a check of its size. */
  function SegmentPacket(d: HeadData, s: Bytes, segsize: nat, i: nat, sign: string -> string)
    : Result<TxPacket, PacketError>
    requires d.Valid() && segsize > 0 && i < SegCount(|s|, segsize)
  {
    var cut := Cut(s, segsize, i);
    match Whole(SegmentData(d, i, SegCount(|s|, segsize), |s|), cut)
    case Err(e) => Err(e)
    case Ok(built) => Ok(TxPacket(built.0, cut, Signed(d.num[Fk], built.1, sign)))
  }

  /** What the receiving tray sees of a packet. */
  function Seen(p: TxPacket): Packet
    requires p.data.Valid()
  {
    Packet(p.data.num[Sn], p.data.num[Sc], p.data.num[Ml], p.coat, p.data.flags[3], p.data.flags[5])
  }

  lemma SegmentFields(d: HeadData, i: nat, n: nat, size: nat)
    requires d.Valid()
    ensures var r := SegmentData(d, i, n, size);
            && r.num[Sn] == i && r.num[Sc] == n && r.num[Ml] == size
            && r.flags[3] == d.flags[3] && r.flags[5] == d.flags[5]
  {
  }

  lemma SegmentPacketIs(d: HeadData, s: Bytes, segsize: nat, i: nat, sign: string -> string)
    requires d.Valid() && segsize > 0 && i < SegCount(|s|, segsize)
    ensures var cut := Cut(s, segsize, i);
            var packed := Pack(SegmentData(d, i, SegCount(|s|, segsize), |s|), cut, sign);
            packed.Ok? ==> SegmentPacket(d, s, segsize, i, sign) == Ok(TxPacket(packed.value.0, cut, packed.value.1))
  {
    hide Whole, Signed, Cut, SegCount;
  }

  /** Segment i of a long message: its packet is built, fits, carries its number, the count and
      the full length, and is accepted by the other side, which slices out the same segment. */
  lemma SegmentDelivers(d: HeadData, s: Bytes, i: nat, sign: string -> string, verify: (string, string) -> bool)
    requires Unsegmented(d) && d.num[Vn] == 0 && |s| <= MAX_MESSAGE_SIZE && SizeOf(d, s) > UDP_MAX_PACKET_SIZE
    requires SegSize(d) > 0 && i < SegCount(|s|, SegSize(d)) <= MAX_SEGMENT_COUNT && Pair(sign, verify)
    ensures var n := SegCount(|s|, SegSize(d));
            var r := SegmentPacket(d, s, SegSize(d), i, sign);
            && r.Ok? && r.value.data.Valid() && |r.value.packed| <= UDP_MAX_PACKET_SIZE
            && Seen(r.value) == Packet(i, n, |s|, Cut(s, SegSize(d), i), d.flags[3], d.flags[5])
            && ParseOuter(r.value.packed, verify) == Ok(r.value.data)
            && CoatOf(r.value.packed, r.value.data) == r.value.coat
  {
    var n := SegCount(|s|, SegSize(d));
    var cut := Cut(s, SegSize(d), i);
    var data := SegmentData(d, i, n, |s|);
    SegmentFields(d, i, n, |s|);
    hide SegmentData, Cut, SizeOf, Unsegmented, SegSize, InRange, ParseOuter, CoatOf, Footed, HeadSize,
         SegCount, ParseHead, BlankFoot, Pack, SegmentPacket;
    SegmentsFit(d, s, i);
    SegmentHead(d, i, n, |s|);
    PacksExactly(data, cut, sign);
    SegmentPacketIs(d, s, SegSize(d), i, sign);
    PacketRoundTrip(data, cut, sign, verify);
  }

  /** What TxTray.pack leaves in .packets when it raises nothing: one packet if that is short
      enough, and otherwise the segments in order. */
  ghost predicate Built(d: HeadData, s: Bytes, sign: string -> string, packets: seq<TxPacket>)
    requires d.Valid()
  {
    && IsFootKind(d.num[Fk]) && Whole(d, s).Ok?
    && var (data, text) := Whole(d, s).value;
       if |text| <= UDP_MAX_PACKET_SIZE then packets == [TxPacket(data, s, Signed(d.num[Fk], text, sign))]
       else
         && SegSize(d) > 0 && |packets| == SegCount(|s|, SegSize(d))
         && forall i :: 0 <= i < |packets| ==> SegmentPacket(d, s, SegSize(d), i, sign) == Ok(packets[i])
  }

  lemma NotBuilt(d: HeadData, s: Bytes, sign: string -> string)
    requires d.Valid() && Whole(d, s).Err?
    ensures forall ps :: !Built(d, s, sign, ps)
  {
    hide Whole;
  }

  lemma BuiltSingle(d: HeadData, s: Bytes, sign: string -> string)
    requires d.Valid() && Whole(d, s).Ok? && |Whole(d, s).value.1| <= UDP_MAX_PACKET_SIZE
    ensures var (data, text) := Whole(d, s).value;
            Built(d, s, sign, [TxPacket(data, s, Signed(d.num[Fk], text, sign))])
  {
    WholeFooted(d, s);
    hide Whole, Signed, SegSize;
  }

  /** The packets are the segments in order, or building one of them failed. */
  ghost predicate Segmented(d: HeadData, s: Bytes, segsize: int, sign: string -> string,
                            packets: seq<TxPacket>, r: Result<(), PacketError>)
    requires d.Valid()
  {
    && segsize > 0
    && var n := SegCount(|s|, segsize);
       if r.Ok? then
         |packets| == n && forall i :: 0 <= i < n ==> SegmentPacket(d, s, segsize, i, sign) == Ok(packets[i])
       else
         exists i :: 0 <= i < n && SegmentPacket(d, s, segsize, i, sign) == Err(r.error)
  }

  lemma BuiltOrRefused(d: HeadData, s: Bytes, sign: string -> string, packets: seq<TxPacket>,
                       r: Result<(), PacketError>)
    requires d.Valid() && IsFootKind(d.num[Fk]) && Whole(d, s).Ok? && |Whole(d, s).value.1| > UDP_MAX_PACKET_SIZE
    requires Segmented(d, s, SegSize(d), sign, packets, r)
    ensures if r.Ok? then Built(d, s, sign, packets) else forall ps :: !Built(d, s, sign, ps)
  {
    hide Whole, SegmentPacket, SegCount, SegSize;
  }

  /** A head that packs is short enough to leave room for segments. */
  lemma WholeFooted(d: HeadData, coat: Bytes)
    requires d.Valid() && Whole(d, coat).Ok?
    ensures IsFootKind(d.num[Fk]) && BlankFoot(d.num[Fk]).Ok?
    ensures SegSize(d) == UDP_MAX_PACKET_SIZE - (HeadSize(Footed(d)) + EXTRA_SIZE + |BlankFoot(d.num[Fk]).value|)
    ensures SegSize(d) > 0
  {
    hide PackHead, HeadSize;
    PackedSize(Footed(d), |coat|);
  }

  class TxTray {
    const sign: string -> string
    var data: HeadData
    var packed: Bytes
    var packets: seq<TxPacket>
    var current: nat

    constructor (sign: string -> string, data: HeadData)
      ensures this.sign == sign && this.data == data && packets == []
    {
      this.sign, this.data, packed, packets, current := sign, data, "", [], 0;
    }

    /** Convert a packed message into one packet, or into segments if that is too long. */
    method Pack(coat: Bytes) returns (r: Result<(), PacketError>)
      requires data.Valid()
      modifies this
      ensures data == old(data) && current == 0
      ensures r.Ok? ==> Built(data, coat, sign, packets)
      ensures r.Err? ==> forall ps :: !Built(data, coat, sign, ps)
      ensures Whole(data, coat).Err? ==> r == Err(Whole(data, coat).error)
    {
      hide Whole, Segmented, Signed, HeadSize, Footed, Built, BlankFoot, SegSize;
      current, packets := 0, [];
      var whole := Whole(data, coat);
      if whole.Err? {
        NotBuilt(data, coat, sign);
        return Err(whole.error);
      }
      WholeFooted(data, coat);
      var (d, text) := whole.value;
      if |text| <= UDP_MAX_PACKET_SIZE {
        packets := [TxPacket(d, coat, Signed(data.num[Fk], text, sign))];
        BuiltSingle(data, coat, sign);
        return Ok(());
      }
      packed := coat;
      r := Packetize(HeadSize(Footed(data)), |BlankFoot(data.num[Fk]).value|);
      BuiltOrRefused(data, coat, sign, packets, r);
    }

    method Packetize(headsize: nat, footsize: nat) returns (r: Result<(), PacketError>)
      requires data.Valid() && packets == [] && headsize + EXTRA_SIZE + footsize < UDP_MAX_PACKET_SIZE
      modifies this`packets
      ensures Segmented(data, packed, UDP_MAX_PACKET_SIZE - (headsize + EXTRA_SIZE + footsize), sign, packets, r)
    {
      hide SegmentPacket, SegCount;
      var hotelsize := headsize + EXTRA_SIZE + footsize;
      var segsize := UDP_MAX_PACKET_SIZE - hotelsize;
      var segcount := SegCount(|packed|, segsize);
      for i := 0 to segcount
        invariant |packets| == i
        invariant forall j :: 0 <= j < i ==> SegmentPacket(data, packed, segsize, j, sign) == Ok(packets[j])
      {
        var built := Segment(segsize, segcount, i);
        if built.Err? {
          return Err(built.error);
        }
        packets := packets + [built.value];
      }
      return Ok(());
    }

    /** One turn of the loop of packetize. */
    method Segment(segsize: nat, segcount: nat, i: nat) returns (r: Result<TxPacket, PacketError>)
      requires data.Valid() && segsize > 0 && i < segcount == SegCount(|packed|, segsize)
      ensures r == SegmentPacket(data, packed, segsize, i, sign)
    {
      CutWithin(|packed|, segsize, i);
      var segment := if i == segcount - 1 then packed[i * segsize..] else packed[i * segsize..(i + 1) * segsize];
      hide SegCount, Whole, SegmentData, Signed;
      var whole := Whole(SegmentData(data, i, segcount, |packed|), segment);
      if whole.Err? {
        return Err(whole.error);
      }
      var (d, text) := whole.value;
      return Ok(TxPacket(d, segment, Signed(data.num[Fk], text, sign)));
    }
  }
}
