/** Whole packets, signed and verified: TxPacket and RxPacket of raet/road/packeting.py. Signing
    and verifying are parameters; encryption of the coat is not part of this model. */
module Packets {
  import opened Basics
  import opened HeadLines
  import opened Packeting
  import Hex

  const NACL_FOOT := 64

  predicate IsFootKind(k: nat) { k in {0, 1, 2, 3, 255} }

  function Zeros(n: nat): (s: string)
    ensures |s| == n
  {
    seq(n, i => '\0')
  }

  /** TxFoot.pack: the foot before signing. */
  function BlankFoot(fk: nat): Result<string, PacketError> {
    if !IsFootKind(fk) then Err(UnknownFoot)
    else if fk == 1 then Ok(Zeros(NACL_FOOT)) else Ok("")
  }

  /** The head of a packet with the given coat, its foot length set first. */
  function FootedHead(d: HeadData, coat: string): Result<(HeadData, string), PacketError>
    requires d.Valid()
  {
    match BlankFoot(d.num[Fk])
    case Err(e) => Err(e)
    case Ok(foot) => PackHead(Footed(d), |coat|)
  }

  /** TxPacket.prepack once body and coat are packed: the packet with a blank foot. */
  function Whole(d: HeadData, coat: string): Result<(HeadData, string), PacketError>
    requires d.Valid()
  {
    var foot := BlankFoot(d.num[Fk]);
    if foot.Err? then Err(foot.error)
    else
      var head := FootedHead(d, coat);
      if head.Err? then Err(head.error) else Ok((head.value.0, head.value.1 + coat + foot.value))
  }

  /** TxPacket.sign: the signature of the whole packet takes the place of its blank foot. */
  function Signed(fk: nat, whole: string, sign: string -> string): string {
    if fk == 1 && |whole| >= NACL_FOOT then whole[..|whole| - NACL_FOOT] + sign(whole) else whole
  }

  /** TxPacket.pack once body and coat are packed, and equally TxPacket.repack. */
  function Pack(d: HeadData, coat: string, sign: string -> string): Result<(HeadData, string), PacketError>
    requires d.Valid()
  {
    var whole := Whole(d, coat);
    if whole.Err? then Err(whole.error)
    else if |whole.value.1| > UDP_MAX_PACKET_SIZE then Err(PacketTooLong)
    else Ok((whole.value.0, Signed(d.num[Fk], whole.value.1, sign)))
  }

  /** The data with its foot length set. */
  function Footed(d: HeadData): (r: HeadData)
    requires d.Valid() && IsFootKind(d.num[Fk])
    ensures r.Valid()
    ensures InRange(d) ==> InRange(r)
  {
    d.(num := d.num[Fl := |BlankFoot(d.num[Fk]).value|])
  }

  /** RxPacket.parseOuter */
  function ParseOuter(packed: string, verify: (string, string) -> bool): (r: Result<HeadData, PacketError>)
    ensures r.Ok? ==> r.value.Valid()
  {
    var head := ParseHead(packed);
    if head.Err? then head
    else
      var d := head.value;
      if d.num[Vn] != 0 then Err(BadVersion)
      else if !IsFootKind(d.num[Fk]) then Err(UnknownFoot)
      else if |packed| < d.num[Fl] then Err(FootTooLong)
      else
        var front := packed[..|packed| - d.num[Fl]];
        var foot := packed[|packed| - d.num[Fl]..];
        if d.num[Fk] == 1 && |foot| != NACL_FOOT then Err(FootSizeMismatch)
        else if d.num[Fk] == 1 && !verify(foot, front + Zeros(NACL_FOOT)) then Err(FailedVerification)
        else Ok(d)
  }

  /** The slice unpackInner takes for the coat. */
  function CoatOf(packed: string, d: HeadData): string
    requires d.Valid()
  {
    if d.num[Hl] + d.num[Fl] <= |packed| then packed[d.num[Hl]..|packed| - d.num[Fl]] else ""
  }

  /** Signatures have the foot's size and verify against what they sign. */
  ghost predicate Pair(sign: string -> string, verify: (string, string) -> bool) {
    forall m :: |sign(m)| == NACL_FOOT && verify(sign(m), m)
  }

  /** There are such pairs. */
  lemma PairExists()
    ensures exists sign, verify :: Pair(sign, verify)
  {
    assert Pair(m => Zeros(NACL_FOOT), (s, m) => true);
  }

  /** All fields but the three lengths, which packing sets, and all flags agree. */
  ghost predicate SameFields(d: HeadData, d': HeadData)
    requires d.Valid() && d'.Valid()
  {
    d'.flags == d.flags && forall k: Key :: k != Pl && k != Hl && k != Fl ==> d'.num[k] == d.num[k]
  }

  lemma LengthsSet(d: HeadData, hl: nat, pl: nat)
    requires d.Valid() && IsFootKind(d.num[Fk])
    ensures SameFields(d, Lengths(Footed(d), pl, hl))
  {
  }

  /** Whatever packs is accepted by the other side, which sees the same fields and flags and
      slices out the original coat; the signed bytes are those verified. */
  lemma PacketRoundTrip(d: HeadData, coat: string, sign: string -> string, verify: (string, string) -> bool)
    requires InRange(d) && d.num[Hk] == 0 && d.num[Vn] == 0 && Pair(sign, verify)
    requires |coat| <= MAX_MESSAGE_SIZE && Pack(d, coat, sign).Ok?
    ensures var (d', packed) := Pack(d, coat, sign).value;
            && d'.Valid() && ParseOuter(packed, verify) == Ok(d') && CoatOf(packed, d') == coat
            && |packed| == d'.num[Pl] <= UDP_MAX_PACKET_SIZE
            && SameFields(d, d')
  {
    var head, last := PackedHead(d, coat, sign);
    hide Pack, PackHead, ParseHead, ParseOuter, InRange, CoatOf, SameFields, BlankFoot, Footed, Lengths;
    var (d', packed) := Pack(d, coat, sign).value;
    LengthsSet(d, d'.num[Hl], d'.num[Pl]);
    Checking(d', head, coat, last, verify);
  }

  /** The parts of a packed packet, and its head read back. */
  lemma PackedHead(d: HeadData, coat: string, sign: string -> string) returns (head: string, last: string)
    requires InRange(d) && d.num[Hk] == 0 && (forall m :: |sign(m)| == NACL_FOOT)
    requires |coat| <= MAX_MESSAGE_SIZE && Pack(d, coat, sign).Ok?
    ensures IsFootKind(d.num[Fk])
    ensures var (d', packed) := Pack(d, coat, sign).value;
            && packed == head + coat + last && |packed| <= UDP_MAX_PACKET_SIZE
            && d' == Lengths(Footed(d), |packed|, |head|)
            && ParseHead(head + (coat + last)) == Ok(d') && d'.num[Fl] == |last|
            && d'.num[Vn] == d.num[Vn] && d'.num[Fk] == d.num[Fk]
            && (d.num[Fk] == 1 ==> |last| == NACL_FOOT && last == sign(head + coat + Zeros(NACL_FOOT)))
  {
    var foot;
    head, foot := Packing(d, coat, sign);
    last := if d.num[Fk] == 1 then sign(head + coat + foot) else foot;
    Assoc(head, coat, last);
    ReadsBack(d, coat, head, coat + last);
  }

  lemma Assoc(a: string, b: string, c: string)
    ensures a + (b + c) == a + b + c
  {
  }

  /** HeadRoundTrip for a head whose foot length has been set. */
  lemma ReadsBack(d: HeadData, coat: string, head: string, tail: string)
    requires InRange(d) && d.num[Hk] == 0 && IsFootKind(d.num[Fk]) && |coat| <= MAX_MESSAGE_SIZE
    requires PackHead(Footed(d), |coat|).Ok? && PackHead(Footed(d), |coat|).value.1 == head
    requires |tail| == |coat| + Footed(d).num[Fl] && |head + tail| <= UDP_MAX_PACKET_SIZE
    ensures var d' := Lengths(Footed(d), |head + tail|, |head|);
            && PackHead(Footed(d), |coat|).value.0 == d' && ParseHead(head + tail) == Ok(d')
            && d'.num[Vn] == d.num[Vn] && d'.num[Fk] == d.num[Fk] && d'.num[Fl] == Footed(d).num[Fl]
  {
    var d1 := Footed(d);
    assert d1.num[Hk] == 0 && d1.num[Vn] == d.num[Vn] && d1.num[Fk] == d.num[Fk];
    hide PackHead, ParseHead, InRange, Footed, Lengths;
    HeadRoundTrip(d1, |coat|, tail);
  }

  lemma Packing(d: HeadData, coat: string, sign: string -> string) returns (head: string, foot: string)
    requires d.Valid() && Pack(d, coat, sign).Ok?
    ensures IsFootKind(d.num[Fk]) && PackHead(Footed(d), |coat|).Ok?
    ensures head == PackHead(Footed(d), |coat|).value.1 && Footed(d).num[Fl] == |foot|
    ensures foot == if d.num[Fk] == 1 then Zeros(NACL_FOOT) else ""
    ensures |head| + |coat| + |foot| <= UDP_MAX_PACKET_SIZE
    ensures Pack(d, coat, sign).value
            == (PackHead(Footed(d), |coat|).value.0,
                head + coat + if d.num[Fk] == 1 then sign(head + coat + foot) else foot)
  {
    hide PackHead;
    foot := BlankFoot(d.num[Fk]).value;
    head := PackHead(Footed(d), |coat|).value.1;
    Slices(head, coat, foot);
  }

  lemma Checking(d: HeadData, head: string, coat: string, foot: string, verify: (string, string) -> bool)
    requires d.Valid() && ParseHead(head + (coat + foot)) == Ok(d)
    requires d.num[Vn] == 0 && IsFootKind(d.num[Fk]) && d.num[Fl] == |foot| && d.num[Hl] == |head|
    requires d.num[Fk] == 1 ==> |foot| == NACL_FOOT && verify(foot, head + coat + Zeros(NACL_FOOT))
    ensures ParseOuter(head + coat + foot, verify) == Ok(d)
    ensures CoatOf(head + coat + foot, d) == coat
  {
    hide ParseHead;
    Slices(head, coat, foot);
  }

  lemma Slices(head: string, coat: string, foot: string)
    ensures var packed := head + coat + foot;
            && packed == head + (coat + foot)
            && packed[..|packed| - |foot|] == head + coat && packed[|packed| - |foot|..] == foot
            && packed[|head|..|packed| - |foot|] == coat
  {
  }

  /** The size of a packet: its head's, from the shown fields, its coat's and its foot's. */
  function SizeOf(d: HeadData, coat: string): nat
    requires d.Valid() && IsFootKind(d.num[Fk])
  {
    HeadSize(Footed(d)) + |coat| + |BlankFoot(d.num[Fk]).value|
  }

  lemma WholeSize(d: HeadData, coat: string)
    requires InRange(d) && IsFootKind(d.num[Fk]) && |coat| <= MAX_MESSAGE_SIZE
    ensures Whole(d, coat).Ok? && |Whole(d, coat).value.1| == SizeOf(d, coat)
  {
    hide PackHead, HeadText, HeadSize, InRange;
    PackHeadIs(Footed(d), |coat|);
  }

  /** A packet is packed, at that size, exactly if that is within the limit. */
  lemma PacksExactly(d: HeadData, coat: string, sign: string -> string)
    requires InRange(d) && IsFootKind(d.num[Fk]) && |coat| <= MAX_MESSAGE_SIZE
    requires forall m :: |sign(m)| == NACL_FOOT
    ensures Pack(d, coat, sign).Ok? <==> SizeOf(d, coat) <= UDP_MAX_PACKET_SIZE
    ensures Pack(d, coat, sign).Ok? ==> |Pack(d, coat, sign).value.1| == SizeOf(d, coat)
  {
    hide PackHead, HeadText, HeadSize, InRange;
    WholeSize(d, coat);
  }

  /** Changing flags, or the lengths an earlier pack left, does not change the size: a packet
      that was packed can be repacked after its wait or again flag changed. */
  lemma RepackKeepsSize(d: HeadData, flags: seq<bool>, pl: nat, hl: nat, coat: string, sign: string -> string)
    requires InRange(d) && IsFootKind(d.num[Fk]) && |coat| <= MAX_MESSAGE_SIZE
    requires |flags| == FLAG_COUNT && pl < 0x1_0000 && hl < 0x100
    requires forall m :: |sign(m)| == NACL_FOOT
    ensures var d' := Lengths(d, pl, hl).(flags := flags);
            && d'.Valid()
            && (Pack(d, coat, sign).Ok? <==> Pack(d', coat, sign).Ok?)
            && (Pack(d, coat, sign).Ok? ==> |Pack(d', coat, sign).value.1| == |Pack(d, coat, sign).value.1|)
  {
    LengthsReset(d, flags, pl, hl);
    hide *;
    var d' := Lengths(d, pl, hl).(flags := flags);
    PacksExactly(d, coat, sign);
    PacksExactly(d', coat, sign);
    assert SizeOf(d, coat) == SizeOf(d', coat);
  }

  lemma LengthsReset(d: HeadData, flags: seq<bool>, pl: nat, hl: nat)
    requires InRange(d) && IsFootKind(d.num[Fk]) && |flags| == FLAG_COUNT && pl < 0x1_0000 && hl < 0x100
    ensures var d' := Lengths(d, pl, hl).(flags := flags);
            && InRange(d') && IsFootKind(d'.num[Fk])
            && forall coat :: SizeOf(d', coat) == SizeOf(d, coat)
  {
    var d' := Lengths(d, pl, hl).(flags := flags);
    hide Optional, Shown, Lengths, Width;
    AllOptional();
    assert InRange(d') && d'.num[Fk] == d.num[Fk];
    hide InRange;
    SameShown(Footed(d).num, Footed(d').num, Optional());
  }

  lemma {:induction false} SameShown(num: map<Key, nat>, num': map<Key, nat>, keys: seq<Key>)
    requires forall k: Key :: k in num && k in num'
    requires forall k :: k in keys && k != Pl && k != Hl ==> num'[k] == num[k]
    requires Pl !in keys && Hl !in keys
    ensures Shown(num', keys) == Shown(num, keys)
  {
    if keys != [] {
      assert keys[0] in keys;
      SameShown(num, num', keys[1..]);
    }
  }

  /** What is accepted was checked: the head is true, the version and the foot are known ones, and under
      a signature the foot verifies against the packet with a blank one. So if only what was signed
      verifies, an accepted packet was signed, but for its foot. */
  lemma AcceptedIsVerified(packed: string, verify: (string, string) -> bool, signed: set<string>)
    requires ParseOuter(packed, verify).Ok? && forall s, m :: verify(s, m) ==> m in signed
    ensures var d := ParseOuter(packed, verify).value;
            && ParseHead(packed) == Ok(d) && d.num[Vn] == 0 && IsFootKind(d.num[Fk]) && d.num[Fl] <= |packed|
            && (d.num[Fk] == 1 ==>
                  && d.num[Fl] == NACL_FOOT
                  && var (front, foot) := (packed[..|packed| - NACL_FOOT], packed[|packed| - NACL_FOOT..]);
                     verify(foot, front + Zeros(NACL_FOOT)) && front + Zeros(NACL_FOOT) in signed)
  {
    hide ParseHead;
  }
}
