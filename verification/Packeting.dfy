/** Packets under the native head kind: raet/road/packeting.py, from TxHead to RxPacket. */
module Packeting {
  import opened Basics
  import opened HeadLines
  import Hex

  const MAX_HEAD_SIZE := 255
  const UDP_MAX_PACKET_SIZE := 1024
  const MAX_SEGMENT_COUNT := 65535
  const MAX_MESSAGE_SIZE := 67107840

  datatype PacketError =
    | HeadTooLong | MessageTooLong | PacketTooLong | UnknownFoot
    | Unrecognizable | BadField | HeadKindMismatch | HeadLengthMismatch | PacketLengthMismatch
    | BadVersion | FootTooLong | FootSizeMismatch | FailedVerification

  /** The numeric head fields; pl and hl are always shown, the others only off their default. */
  datatype Key =
    | Vn | Pk | Pl | Hk | Hl | Se | De | Si | Ti | Tk | Oi | Sn | Sc | Ml | Bk | Ck | Fk | Fl

  /** The fields that may be left out, in head order. */
  function Optional(): seq<Key> {
    [Vn, Pk, Hk, Se, De, Si, Ti, Tk, Oi, Sn, Sc, Ml, Bk, Ck, Fk, Fl]
  }

  function Name(k: Key): (s: string)
    ensures |s| == 2 && Plain(s)
  {
    match k
    case Vn => "vn" case Pk => "pk" case Pl => "pl" case Hk => "hk" case Hl => "hl" case Se => "se"
    case De => "de" case Si => "si" case Ti => "ti" case Tk => "tk" case Oi => "oi" case Sn => "sn"
    case Sc => "sc" case Ml => "ml" case Bk => "bk" case Ck => "ck" case Fk => "fk" case Fl => "fl"
  }

  function KeyOf(s: string): Option<Key> {
    if |s| != 2 then None
    else
      match (s[0], s[1])
      case ('v', 'n') => Some(Vn) case ('p', 'k') => Some(Pk) case ('p', 'l') => Some(Pl)
      case ('h', 'k') => Some(Hk) case ('h', 'l') => Some(Hl) case ('s', 'e') => Some(Se)
      case ('d', 'e') => Some(De) case ('s', 'i') => Some(Si) case ('t', 'i') => Some(Ti)
      case ('t', 'k') => Some(Tk) case ('o', 'i') => Some(Oi) case ('s', 'n') => Some(Sn)
      case ('s', 'c') => Some(Sc) case ('m', 'l') => Some(Ml) case ('b', 'k') => Some(Bk)
      case ('c', 'k') => Some(Ck) case ('f', 'k') => Some(Fk) case ('f', 'l') => Some(Fl)
      case _ => None
  }

  lemma KeyOfName(k: Key)
    ensures KeyOf(Name(k)) == Some(k)
  {
  }

  const FLAG_COUNT := 8

  function Default(k: Key): nat { if k == Sc then 1 else 0 }

  /** The numeric entries of a packet's .data, and its flags in PACKET_FLAG_FIELDS order. */
  datatype HeadData = HeadData(num: map<Key, nat>, flags: seq<bool>)
  {
    ghost predicate Valid() {
      (forall k: Key :: k in num) && |flags| == FLAG_COUNT
    }
  }

  /** What RxPacket.data starts from: PACKET_DEFAULTS. */
  function Defaults(): (d: HeadData)
    ensures d.Valid() && forall k: Key :: d.num[k] == Default(k)
  {
    HeadData(map k: Key {:trigger Default(k)} | true :: Default(k),
             [false, false, false, false, false, false, false, false])
  }

  // --------------------------------------------------------------------- Flags

  function PackByte(flags: seq<bool>): nat {
    if flags == [] then 0
    else PackByte(flags[..|flags| - 1]) * 2 + if flags[|flags| - 1] then 1 else 0
  }

  function UnpackByte(byte: nat, count: nat): (flags: seq<bool>)
    ensures |flags| == count
  {
    if count == 0 then [] else UnpackByte(byte / 2, count - 1) + [byte % 2 == 1]
  }

  lemma {:induction false} FlagsRoundTrip(flags: seq<bool>)
    ensures UnpackByte(PackByte(flags), |flags|) == flags
  {
    if flags != [] {
      FlagsRoundTrip(flags[..|flags| - 1]);
    }
  }

  lemma FlagsFitByte(flags: seq<bool>)
    requires |flags| == FLAG_COUNT
    ensures PackByte(flags) < 256
  {
    FlagsFit(flags, 256);
  }

  lemma {:induction false} FlagsFit(flags: seq<bool>, bound: nat)
    requires bound == Doubled(|flags|)
    ensures PackByte(flags) < bound
  {
    if flags != [] {
      FlagsFit(flags[..|flags| - 1], Doubled(|flags| - 1));
    }
  }

  function Doubled(n: nat): nat { if n == 0 then 1 else 2 * Doubled(n - 1) }

  // ---------------------------------------------------------------------- Head

  /** The fields among keys that are not at their default. */
  function Shown(num: map<Key, nat>, keys: seq<Key>): Kit
    requires forall k :: k in keys ==> k in num
  {
    if keys == [] then []
    else
      var rest := Shown(num, keys[1..]);
      if num[keys[0]] == Default(keys[0]) then rest else [(Name(keys[0]), Hex.Print(num[keys[0]], 1))] + rest
  }

  /** The head's fields with the given texts for its two lengths. */
  function HeadKit(d: HeadData, pl: string, hl: string): Kit
    requires d.Valid()
  {
    [("ri", "RAET"), ("pl", pl), ("hl", hl), ("fg", Hex.Print(PackByte(d.flags), 2))] + Shown(d.num, Optional())
  }

  function Last(s: string, n: nat): string { if |s| <= n then s else s[|s| - n..] }

  /** The data with its two lengths set. */
  function Lengths(d: HeadData, pl: nat, hl: nat): (r: HeadData)
    requires d.Valid()
    ensures r.Valid() && r.flags == d.flags && r.num[Pl] == pl && r.num[Hl] == hl
    ensures forall k: Key :: k != Pl && k != Hl ==> r.num[k] == d.num[k]
  {
    d.(num := d.num[Pl := pl][Hl := hl])
  }

  /** The first line of a key with that text in it, given another. */
  function Patch(text: string, key: string, was: string, put: string): string {
    ReplaceFirst(text, "\n" + key + " " + was + "\n", "\n" + key + " " + put + "\n")
  }

  /** TxHead.pack for a coat of the given size: the data with its lengths set, and the text. The
      lengths already in the data, left by an earlier pack, are printed first and then replaced. */
  function PackHead(d: HeadData, coat: nat): Result<(HeadData, string), PacketError>
    requires d.Valid()
  {
    var oldPl, oldHl := Hex.Print(d.num[Pl], 4), Hex.Print(d.num[Hl], 2);
    var text := Print(HeadKit(d, oldPl, oldHl)) + HEAD_END;
    var hl := |text|;
    if hl > MAX_HEAD_SIZE then Err(HeadTooLong)
    else if coat > MAX_MESSAGE_SIZE then Err(MessageTooLong)
    else
      var pl := hl + coat + d.num[Fl];
      Ok((Lengths(d, pl, hl),
          Patch(Patch(text, "pl", oldPl, Last(Hex.Print(pl, 4), 4)), "hl", oldHl, Last(Hex.Print(hl, 2), 2))))
  }

  /** One field of a received head entering .data. The float field dt, and the fields bl and cl
      that have no format, count as unknown here; flag names are overruled by fg. */
  function Enter(d: HeadData, key: string, val: string): (r: Option<HeadData>)
    ensures d.Valid() && r.Some? ==> r.value.Valid()
  {
    if KeyOf(key).Some? then
      var n := Hex.Parse(val);
      if n.None? then None else Some(d.(num := d.num[KeyOf(key).value := n.value]))
    else if key == "fg" then
      var n := Hex.Parse(val);
      if n.None? then None else Some(d.(flags := UnpackByte(n.value, FLAG_COUNT)))
    else if key in ["ri", "vf", "df", "nf", "af", "sf", "wf", "bf", "cf"] then Some(d)
    else None
  }

  function EnterAll(d: HeadData, kit: Kit): (r: Option<HeadData>)
    ensures d.Valid() && r.Some? ==> r.value.Valid()
    decreases |kit|
  {
    if kit == [] then Some(d)
    else
      var next := Enter(d, kit[0].0, kit[0].1);
      if next.None? then None else EnterAll(next.value, kit[1..])
  }

  /** RxHead.parse: the data of a packet with a native head. */
  function ParseHead(packed: string): (r: Result<HeadData, PacketError>)
    ensures r.Ok? ==> r.value.Valid()
  {
    var end := Find(packed, HEAD_END);
    if !("ri RAET\n" <= packed) || end.None? || end.value > |packed| then Err(Unrecognizable)
    else
      var kit := Parse(packed[..end.value]);
      if kit.None? then Err(BadField)
      else
        var d := EnterAll(Defaults(), kit.value);
        if d.None? then Err(BadField)
        else if d.value.num[Hk] != 0 then Err(HeadKindMismatch)
        else if d.value.num[Hl] != end.value + 2 then Err(HeadLengthMismatch)
        else if d.value.num[Pl] != |packed| then Err(PacketLengthMismatch)
        else Ok(d.value)
  }

  // -------------------------------------------------------- The patched-in lengths

  /** A head's text: its lengths, and what follows them. */
  function HeadText(pl: string, hl: string, after: string): string {
    "ri RAET" + "\npl " + pl + "\nhl " + hl + "\n" + after
  }

  function Flagged(d: HeadData): Kit
    requires d.Valid()
  {
    [("fg", Hex.Print(PackByte(d.flags), 2))] + Shown(d.num, Optional())
  }

  lemma EndedCons(field: (string, string), kit: Kit)
    ensures Ended([field] + kit) == field.0 + " " + field.1 + "\n" + Ended(kit)
  {
    assert ([field] + kit)[1..] == kit;
  }

  lemma LinesJoin(pl: string, hl: string, after: string)
    ensures HeadText(pl, hl, after)
            == "ri" + " " + "RAET" + "\n" + ("pl" + " " + pl + "\n" + ("hl" + " " + hl + "\n" + after))
  {
    var lines := "hl" + " " + hl + "\n" + after;
    assert "\nhl " + hl + "\n" + after == "\n" + lines;
    assert "\npl " + pl + ("\n" + lines) == "\n" + ("pl" + " " + pl + "\n" + lines);
  }

  lemma TextOfKit(d: HeadData, pl: string, hl: string)
    requires d.Valid()
    ensures Print(HeadKit(d, pl, hl)) + HEAD_END == HeadText(pl, hl, Ended(Flagged(d)))
  {
    PrintEnded(HeadKit(d, pl, hl));
    hide Print, Ended, HeadText, Shown, Hex.Print, PackByte;
    var rest := [("pl", pl)] + ([("hl", hl)] + Flagged(d));
    assert HeadKit(d, pl, hl) == [("ri", "RAET")] + rest;
    EndedCons(("ri", "RAET"), rest);
    EndedCons(("pl", pl), [("hl", hl)] + Flagged(d));
    EndedCons(("hl", hl), Flagged(d));
    LinesJoin(pl, hl, Ended(Flagged(d)));
  }

  lemma PatchesPl(was: string, pl: string, hl: string, after: string)
    requires '\n' !in was
    ensures Patch(HeadText(was, hl, after), "pl", was, pl) == HeadText(pl, hl, after)
  {
    hide Find, ReplaceFirst;
    assert "\n" + "pl" + " " == "\npl ";
    var pattern := "\npl " + was + "\n";
    var rest := "hl " + hl + "\n" + after;
    var text := HeadText(was, hl, after);
    assert text == "ri RAET" + (pattern + rest) == "ri RAET" + pattern + rest;
    FindHere(pattern + rest, pattern);
    FindSkips("ri RAET", pattern + rest, pattern);
    ReplaceAt(text, "ri RAET", pattern, rest, "\npl " + pl + "\n");
  }

  lemma PatchesHl(pl: string, was: string, hl: string, after: string)
    requires '\n' !in pl && '\n' !in was
    ensures Patch(HeadText(pl, was, after), "hl", was, hl) == HeadText(pl, hl, after)
  {
    hide Find, ReplaceFirst;
    assert "\n" + "hl" + " " == "\nhl ";
    var line := "pl " + pl;
    var pattern := "\nhl " + was + "\n";
    var text := HeadText(pl, was, after);
    var front := "ri RAET" + "\n" + line;
    assert text == "ri RAET" + ("\n" + (line + (pattern + after)));
    assert text == front + pattern + after;
    FindHere(pattern + after, pattern);
    FindSkipsLine("ri RAET", line, pattern + after, pattern);
    ReplaceAt(text, front, pattern, after, "\nhl " + hl + "\n");
  }

  /** The two replacements put the new lengths where the old ones were. */
  lemma Patched(d: HeadData, oldPl: string, oldHl: string, pl: string, hl: string)
    requires d.Valid() && '\n' !in oldPl && '\n' !in oldHl && '\n' !in pl
    ensures Patch(Patch(Print(HeadKit(d, oldPl, oldHl)) + HEAD_END, "pl", oldPl, pl), "hl", oldHl, hl)
            == Print(HeadKit(d, pl, hl)) + HEAD_END == HeadText(pl, hl, Ended(Flagged(d)))
  {
    TextOfKit(d, oldPl, oldHl);
    TextOfKit(d, pl, hl);
    hide *;
    PatchesPl(oldPl, pl, oldHl, Ended(Flagged(d)));
    PatchesHl(pl, oldHl, hl, Ended(Flagged(d)));
  }

  // -------------------------------------------------------------------- Its size

  /** Every numeric field below 2^32, and room for the lengths of an earlier pack. */
  ghost predicate InRange(d: HeadData)
    ensures InRange(d) ==> d.Valid()
  {
    && d.Valid() && (forall k: Key :: d.num[k] < 0x1_0000_0000)
    && d.num[Pl] < 0x1_0000 && d.num[Hl] < 0x100
  }

  /** The size of a head, from its shown fields alone. */
  function HeadSize(d: HeadData): nat
    requires d.Valid()
  {
    29 + Width(Shown(d.num, Optional()))
  }

  lemma {:induction false} ShownWidth(num: map<Key, nat>, keys: seq<Key>)
    requires forall k :: k in keys ==> k in num && num[k] < 0x1_0000_0000
    ensures Width(Shown(num, keys)) <= 12 * |keys|
  {
    if keys != [] {
      assert keys[0] in keys;
      Hex.Powers();
      Hex.PrintLength(num[keys[0]], 1, 8);
      ShownWidth(num, keys[1..]);
      var shown := (Name(keys[0]), Hex.Print(num[keys[0]], 1));
      assert ([shown] + Shown(num, keys[1..]))[1..] == Shown(num, keys[1..]);
    }
  }

  lemma KitWidth(d: HeadData, pl: string, hl: string)
    requires d.Valid()
    ensures |Print(HeadKit(d, pl, hl))| + 2 == HeadSize(d) - 6 + |pl| + |hl|
  {
    var fg := Hex.Print(PackByte(d.flags), 2);
    FlagsFitByte(d.flags);
    Hex.Powers();
    Hex.PrintLength(PackByte(d.flags), 2, 2);
    var k4 := Flagged(d);
    var k3 := [("hl", hl)] + k4;
    var k2 := [("pl", pl)] + k3;
    WidthCons(("fg", fg), Shown(d.num, Optional()));
    WidthCons(("hl", hl), k4);
    WidthCons(("pl", pl), k3);
    WidthCons(("ri", "RAET"), k2);
    assert HeadKit(d, pl, hl) == [("ri", "RAET")] + k2;
    PrintWidth(HeadKit(d, pl, hl));
  }

  /** No head of a packet in range is too long. */
  lemma HeadFits(d: HeadData)
    requires InRange(d)
    ensures HeadSize(d) <= 221 < MAX_HEAD_SIZE
  {
    ShownWidth(d.num, Optional());
  }

  lemma FourDigits(n: nat)
    ensures |Last(Hex.Print(n, 4), 4)| == 4 && '\n' !in Hex.Print(n, 4)
    ensures n < 0x1_0000 ==> Last(Hex.Print(n, 4), 4) == Hex.Print(n, 4)
  {
    Hex.Powers();
    if n < 0x1_0000 {
      Hex.PrintLength(n, 4, 4);
    }
  }

  lemma TwoDigits(n: nat)
    requires n < 0x100
    ensures |Hex.Print(n, 2)| == 2 && '\n' !in Hex.Print(n, 2)
  {
    Hex.Powers();
    Hex.PrintLength(n, 2, 2);
  }

  lemma NoNewline(n: nat, w: nat)
    requires w >= 1
    ensures '\n' !in Hex.Print(n, w) && '\n' !in Last(Hex.Print(n, w), 4)
  {
    hide Hex.Print;
  }

  /** However wide the lengths that an earlier pack left, a head that packs has this size. */
  lemma PackedSize(d: HeadData, coat: nat)
    requires d.Valid() && PackHead(d, coat).Ok?
    ensures |PackHead(d, coat).value.1| == HeadSize(d) <= MAX_HEAD_SIZE
  {
    hide Hex.Print, HeadLines.Print, Ended, Patch, HeadText, HeadKit, Flagged, Shown, HeadSize;
    var oldPl, oldHl := Hex.Print(d.num[Pl], 4), Hex.Print(d.num[Hl], 2);
    KitWidth(d, oldPl, oldHl);
    var hl := |Print(HeadKit(d, oldPl, oldHl)) + HEAD_END|;
    var pl := hl + coat + d.num[Fl];
    FourDigits(pl);
    TwoDigits(hl);
    var newPl, newHl := Last(Hex.Print(pl, 4), 4), Last(Hex.Print(hl, 2), 2);
    NoNewline(d.num[Pl], 4);
    NoNewline(d.num[Hl], 2);
    NoNewline(pl, 4);
    Patched(d, oldPl, oldHl, newPl, newHl);
    KitWidth(d, newPl, newHl);
  }

  /** The patched head: hl is its true length and pl that of the packet, whatever lengths an
      earlier pack left, and its text is that of the true lengths. */
  lemma PackHeadIs(d: HeadData, coat: nat)
    requires InRange(d) && coat <= MAX_MESSAGE_SIZE
    ensures var hl := HeadSize(d);
            var pl := hl + coat + d.num[Fl];
            var text := HeadText(Last(Hex.Print(pl, 4), 4), Hex.Print(hl, 2), Ended(Flagged(d)));
            && PackHead(d, coat) == Ok((Lengths(d, pl, hl), text))
            && |text| == hl
  {
    hide Hex.Print, HeadLines.Print, Ended, Patch, HeadText, HeadKit, Flagged, Shown, HeadSize, Lengths;
    var oldPl, oldHl := Hex.Print(d.num[Pl], 4), Hex.Print(d.num[Hl], 2);
    var hl := HeadSize(d);
    var pl := hl + coat + d.num[Fl];
    HeadFits(d);
    FourDigits(d.num[Pl]);
    TwoDigits(d.num[Hl]);
    FourDigits(pl);
    TwoDigits(hl);
    hide InRange;
    KitWidth(d, oldPl, oldHl);
    var newPl, newHl := Last(Hex.Print(pl, 4), 4), Hex.Print(hl, 2);
    assert Last(newHl, 2) == newHl && Last(newPl, 4) == newPl;
    NoNewline(pl, 4);
    hide Last;
    Patched(d, oldPl, oldHl, newPl, newHl);
    KitWidth(d, newPl, newHl);
  }

  // ------------------------------------------------------------- The way back

  lemma {:induction false} PlainShown(num: map<Key, nat>, keys: seq<Key>)
    requires forall k :: k in keys ==> k in num
    ensures PlainKit(Shown(num, keys))
  {
    if keys != [] {
      assert keys[0] in keys;
      PlainShown(num, keys[1..]);
    }
  }

  lemma PlainHead(d: HeadData, pl: string, hl: string)
    requires d.Valid() && Plain(pl) && Plain(hl)
    ensures PlainKit(HeadKit(d, pl, hl))
  {
    PlainShown(d.num, Optional());
    PlainCons("fg", Hex.Print(PackByte(d.flags), 2), Shown(d.num, Optional()));
    PlainCons("hl", hl, Flagged(d));
    PlainCons("pl", pl, [("hl", hl)] + Flagged(d));
    PlainCons("ri", "RAET", [("pl", pl)] + ([("hl", hl)] + Flagged(d)));
    assert HeadKit(d, pl, hl) == [("ri", "RAET")] + ([("pl", pl)] + ([("hl", hl)] + Flagged(d)));
  }

  lemma PlainCons(key: string, val: string, kit: Kit)
    requires Plain(key) && Plain(val) && key != "" && PlainKit(kit)
    ensures PlainKit([(key, val)] + kit)
  {
  }

  /** The given fields as num has them. */
  function With(d: HeadData, num: map<Key, nat>, keys: seq<Key>): HeadData
    requires forall k :: k in keys ==> k in num
  {
    d.(num := map k | k in d.num :: if k in keys then num[k] else d.num[k])
  }

  lemma EnterOne(d: HeadData, key: string, val: string, kit: Kit)
    requires Enter(d, key, val).Some?
    ensures EnterAll(d, [(key, val)] + kit) == EnterAll(Enter(d, key, val).value, kit)
  {
    assert ([(key, val)] + kit)[1..] == kit;
  }

  lemma WithCons(d: HeadData, num: map<Key, nat>, keys: seq<Key>)
    requires keys != [] && forall k :: k in keys ==> k in num && k in d.num
    ensures With(d.(num := d.num[keys[0] := num[keys[0]]]), num, keys[1..]) == With(d, num, keys)
  {
    assert keys == [keys[0]] + keys[1..];
    assert With(d.(num := d.num[keys[0] := num[keys[0]]]), num, keys[1..]).num == With(d, num, keys).num;
  }

  lemma EnterShownOne(d: HeadData, k: Key, n: nat)
    ensures Enter(d, Name(k), Hex.Print(n, 1)) == Some(d.(num := d.num[k := n]))
  {
    Hex.ParsePrint(n, 1);
    KeyOfName(k);
    hide Hex.Print, Hex.Parse, KeyOf, Name;
  }

  /** Reading the shown fields over the defaults restores all of them, elided ones included. */
  lemma {:induction false} EnterShown(d: HeadData, num: map<Key, nat>, keys: seq<Key>)
    requires forall k :: k in keys ==> k in num && k in d.num
    requires forall k :: k in keys ==> d.num[k] == Default(k) || d.num[k] == num[k]
    ensures EnterAll(d, Shown(num, keys)) == Some(With(d, num, keys))
    decreases |keys|
  {
    if keys == [] {
      assert With(d, num, keys).num == d.num;
    } else {
      var k := keys[0];
      assert k in keys;
      var d1 := d.(num := d.num[k := num[k]]);
      EnterShown(d1, num, keys[1..]);
      WithCons(d, num, keys);
      if num[k] == Default(k) {
        assert d1.num == d.num;
        hide EnterAll, With, Hex.Print;
      } else {
        EnterShownOne(d, k, num[k]);
        EnterOne(d, Name(k), Hex.Print(num[k], 1), Shown(num, keys[1..]));
        hide EnterAll, With, Enter, Hex.Print, Name;
      }
    }
  }

  lemma EnterFixed(d: HeadData, val: string)
    ensures Enter(d, "ri", val) == Some(d)
    ensures Hex.Parse(val).Some? ==>
              && Enter(d, "pl", val) == Some(d.(num := d.num[Pl := Hex.Parse(val).value]))
              && Enter(d, "hl", val) == Some(d.(num := d.num[Hl := Hex.Parse(val).value]))
              && Enter(d, "fg", val) == Some(d.(flags := UnpackByte(Hex.Parse(val).value, FLAG_COUNT)))
  {
  }

  /** Reading a printed head over the defaults gives its data back, with the lengths its texts denote. */
  lemma EnterHead(d: HeadData, pl: string, hl: string)
    requires d.Valid() && Hex.Parse(pl).Some? && Hex.Parse(hl).Some?
    ensures EnterAll(Defaults(), HeadKit(d, pl, hl))
            == Some(Lengths(d, Hex.Parse(pl).value, Hex.Parse(hl).value))
  {
    AllOptional();
    hide Shown, EnterAll, Defaults, Enter, Optional, Lengths;
    var shown := Shown(d.num, Optional());
    var fg := Hex.Print(PackByte(d.flags), 2);
    var k4 := [("fg", fg)] + shown;
    var k3 := [("hl", hl)] + k4;
    var k2 := [("pl", pl)] + k3;
    assert HeadKit(d, pl, hl) == [("ri", "RAET")] + k2;
    var d0 := Defaults();
    var d1 := d0.(num := d0.num[Pl := Hex.Parse(pl).value]);
    var d2 := d1.(num := d1.num[Hl := Hex.Parse(hl).value]);
    var d3 := d2.(flags := d.flags);
    EnterFixed(d0, "RAET");
    EnterFixed(d0, pl);
    EnterFixed(d1, hl);
    EnterFixed(d2, fg);
    Hex.ParsePrint(PackByte(d.flags), 2);
    FlagsRoundTrip(d.flags);
    EnterOne(d0, "ri", "RAET", k2);
    EnterOne(d0, "pl", pl, k3);
    EnterOne(d1, "hl", hl, k4);
    EnterOne(d2, "fg", fg, shown);
    Restored(d3, d, Hex.Parse(pl).value, Hex.Parse(hl).value, Optional());
  }

  lemma WithAll(d3: HeadData, d: HeadData, pl: nat, hl: nat, keys: seq<Key>)
    requires d.Valid() && d3.flags == d.flags && forall k: Key :: k in d3.num
    requires d3.num[Pl] == pl && d3.num[Hl] == hl
    requires forall k: Key :: k in keys <==> k != Pl && k != Hl
    ensures With(d3, d.num, keys) == Lengths(d, pl, hl)
  {
    var a, b := With(d3, d.num, keys).num, Lengths(d, pl, hl).num;
    assert forall k: Key :: k in a && k in b && a[k] == b[k];
    assert a == b;
  }

  /** Over defaults but for the lengths, the shown fields restore everything. */
  lemma Restored(d3: HeadData, d: HeadData, pl: nat, hl: nat, keys: seq<Key>)
    requires d.Valid() && d3.flags == d.flags
    requires forall k: Key :: k in d3.num
    requires forall k: Key :: d3.num[k] == if k == Pl then pl else if k == Hl then hl else Default(k)
    requires forall k: Key :: k in keys <==> k != Pl && k != Hl
    ensures EnterAll(d3, Shown(d.num, keys)) == Some(Lengths(d, pl, hl))
  {
    EnterShown(d3, d.num, keys);
    hide EnterAll, Shown, Default;
    WithAll(d3, d, pl, hl, keys);
  }

  lemma AllOptional()
    ensures forall k: Key :: k in Optional() <==> k != Pl && k != Hl
  {
    forall k: Key ensures k in Optional() <==> k != Pl && k != Hl { OptionalKeys(k); }
  }

  lemma OptionalKeys(k: Key)
    ensures k in Optional() <==> k != Pl && k != Hl
  {
    var i := match k
      case Vn => 0 case Pk => 1 case Pl => 0 case Hk => 2 case Hl => 0 case Se => 3 case De => 4
      case Si => 5 case Ti => 6 case Tk => 7 case Oi => 8 case Sn => 9 case Sc => 10 case Ml => 11
      case Bk => 12 case Ck => 13 case Fk => 14 case Fl => 15;
    assert k == Pl || k == Hl || Optional()[i] == k;
  }

  lemma PlainDigits(s: string)
    requires Hex.Parse(s).Some?
    ensures Plain(s)
    decreases |s|
  {
    if |s| > 1 {
      PlainDigits(s[..|s| - 1]);
      assert s == s[..|s| - 1] + [s[|s| - 1]];
    } else {
      assert s == [s[0]];
    }
  }

  // ----------------------------------------------------------- The head round trip

  lemma {:induction false} LastDigits(s: string, n: nat)
    requires Hex.Parse(s).Some? && 1 <= n <= |s|
    ensures var v := Hex.Parse(s[|s| - n..]);
            v.Some? && v.value < Hex.Pow16(n) && (n < |s| || v == Hex.Parse(s))
    decreases n
  {
    var t := s[|s| - n..];
    var front := s[..|s| - 1];
    assert t[|t| - 1] == s[|s| - 1];
    if n == 1 {
      assert Hex.Pow16(1) == 16 * Hex.Pow16(0);
    } else {
      LastDigits(front, n - 1);
      assert t[..|t| - 1] == front[|front| - (n - 1)..];
    }
    if n == |s| { assert t == s; }
  }

  /** The printed packet length, cut to its last four digits, denotes the length exactly if that
      is below 2^16. */
  lemma LastFour(n: nat)
    ensures var v := Hex.Parse(Last(Hex.Print(n, 4), 4));
            v.Some? && (v.value == n <==> n < 0x1_0000)
  {
    Hex.Powers();
    FourDigits(n);
    var s := Hex.Print(n, 4);
    Hex.ParsePrint(n, 4);
    LastDigits(s, 4);
    assert s[|s| - 4..] == Last(s, 4) by { if |s| == 4 { assert s[0..] == s; } }
  }

  /** Parsing a packed head followed by any bytes of the packed length, whatever blank lines they
      hold, restores every field and flag although defaults were left out; and it is accepted
      exactly when the packet length fits its four digits. */
  lemma HeadRoundTrip(d: HeadData, coat: nat, tail: string)
    requires InRange(d) && d.num[Hk] == 0 && coat <= MAX_MESSAGE_SIZE
    requires |tail| == coat + d.num[Fl]
    ensures PackHead(d, coat).Ok?
    ensures var (d', text) := PackHead(d, coat).value;
            && d'.num[Hl] == |text| && d'.num[Pl] == |text + tail|
            && d' == Lengths(d, |text + tail|, |text|)
            && ParseHead(text + tail) == if |text + tail| < 0x1_0000 then Ok(d') else Err(PacketLengthMismatch)
  {
    hide Hex.Print, Hex.Parse, Find, HeadLines.Print, Parse, Ended, HeadText, HeadSize, EnterAll, PackHead,
         HeadKit, Flagged, Lengths;
    PackHeadIs(d, coat);
    var (d', text) := PackHead(d, coat).value;
    var hl := HeadSize(d);
    var pl := hl + coat + d.num[Fl];
    var plText, hlText := Last(Hex.Print(pl, 4), 4), Hex.Print(hl, 2);
    HeadFits(d);
    TwoDigits(hl);
    Hex.ParsePrint(hl, 2);
    LastFour(pl);
    PlainDigits(plText);
    PlainDigits(hlText);
    TextParses(d, plText, hlText, tail);
    TextOfKit(d, plText, hlText);
    EnterHead(d, plText, hlText);
    var got := Lengths(d, Hex.Parse(plText).value, hl);
    assert EnterAll(Defaults(), HeadKit(d, plText, hlText)) == Some(got);
  }

  /** A head's text is recognised, ends at its own blank line and yields its fields. */
  lemma TextParses(d: HeadData, pl: string, hl: string, tail: string)
    requires d.Valid() && Plain(pl) && Plain(hl)
    ensures var text := HeadText(pl, hl, Ended(Flagged(d)));
            && "ri RAET\n" <= text + tail
            && Find(text + tail, HEAD_END) == Some(|text| - 2) && |text| >= 2
            && Parse((text + tail)[..|text| - 2]) == Some(HeadKit(d, pl, hl))
  {
    hide Find, HeadLines.Print, Parse, Ended, Flagged;
    var kit := HeadKit(d, pl, hl);
    var text := HeadText(pl, hl, Ended(Flagged(d)));
    TextOfKit(d, pl, hl);
    PlainHead(d, pl, hl);
    HeadEndsAtBlank(kit, tail);
    ParsePrint(kit);
    assert text + tail == HeadLines.Print(kit) + HEAD_END + tail;
    assert (text + tail)[..|text| - 2] == HeadLines.Print(kit);
  }

  /** What an accepted head says of its packet is true: it begins and ends as a head does, is native,
      and announces its own length and that of the packet. */
  lemma AcceptedIsTrue(packed: string)
    requires ParseHead(packed).Ok?
    ensures var d := ParseHead(packed).value;
            && "ri RAET\n" <= packed && d.num[Hk] == 0 && d.num[Pl] == |packed|
            && Find(packed, HEAD_END) == Some(d.num[Hl] - 2) && 2 <= d.num[Hl]
  {
    hide Find, Parse, EnterAll;
  }
}
