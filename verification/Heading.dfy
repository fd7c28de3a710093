/** TxHead.pack and RxHead.parse of raet/road/packeting.py, field by field and line by line, against
    the functions of Packeting. */
module Heading {
  import opened Basics
  import opened HeadLines
  import opened Packeting
  import Hex

  /** '\n'.join(lines) */
  function JoinLines(lines: seq<string>): string {
    if lines == [] then ""
    else if |lines| == 1 then lines[0]
    else lines[0] + "\n" + JoinLines(lines[1..])
  }

  function Lines(kit: Kit): (r: seq<string>)
    ensures |r| == |kit| && forall i :: 0 <= i < |r| ==> r[i] == Line(kit[i])
  {
    seq(|kit|, i requires 0 <= i < |kit| => Line(kit[i]))
  }

  lemma {:induction false} PrintJoins(kit: Kit)
    ensures JoinLines(Lines(kit)) == Print(kit)
  {
    if |kit| > 1 {
      PrintJoins(kit[1..]);
      assert Lines(kit)[1..] == Lines(kit[1..]);
    }
  }

  class TxHead {
    var data: HeadData
    var packed: string

    constructor (data: HeadData)
      ensures this.data == data
    {
      this.data, packed := data, "";
    }

    method PackFlags() returns (byte: nat)
      requires data.Valid()
      ensures byte == PackByte(data.flags)
    {
      byte := 0;
      for i := 0 to |data.flags|
        invariant byte == PackByte(data.flags[..i])
      {
        byte := byte * 2 + if data.flags[i] then 1 else 0;
        assert data.flags[..i + 1][..i] == data.flags[..i];
      }
      assert data.flags[..|data.flags|] == data.flags;
    }

    /** The fields that go into the head. */
    method BuildKit(pl: string, hl: string) returns (kit: Kit)
      requires data.Valid()
      ensures kit == HeadKit(data, pl, hl)
    {
      var byte := PackFlags();
      var keys := Optional();
      hide Optional, Hex.Print;
      kit := [("ri", "RAET"), ("pl", pl), ("hl", hl), ("fg", Hex.Print(byte, 2))];
      assert keys[0..] == keys;
      for j := 0 to |keys|
        invariant kit + Shown(data.num, keys[j..]) == HeadKit(data, pl, hl)
      {
        var k := keys[j];
        assert keys[j..][0] == k && keys[j..][1..] == keys[j + 1..];
        if data.num[k] != Default(k) {
          assert kit + Shown(data.num, keys[j..])
                 == (kit + [(Name(k), Hex.Print(data.num[k], 1))]) + Shown(data.num, keys[j + 1..]);
          kit := kit + [(Name(k), Hex.Print(data.num[k], 1))];
        }
      }
      assert kit + [] == kit;
    }

    /** pack, for a coat of that size; the foot length is already in the data. */
    method Pack(coat: nat) returns (r: Result<(), PacketError>)
      requires data.Valid()
      modifies this
      ensures var head := PackHead(old(data), coat);
              if head.Ok? then r.Ok? && data == head.value.0 && packed == head.value.1 else r == Err(head.error)
    {
      hide HeadKit, Hex.Print, Patch, Lengths;
      packed := "";
      var oldPl, oldHl := Hex.Print(data.num[Pl], 4), Hex.Print(data.num[Hl], 2);
      var kit := BuildKit(oldPl, oldHl);
      var lines: seq<string> := [];
      for i := 0 to |kit|
        invariant lines == Lines(kit)[..i]
      {
        lines := lines + [Line(kit[i])];
      }
      assert lines == Lines(kit);
      PrintJoins(kit);
      var text := JoinLines(lines) + HEAD_END;
      var hl := |text|;
      if hl > MAX_HEAD_SIZE {
        return Err(HeadTooLong);
      }
      if coat > MAX_MESSAGE_SIZE {
        return Err(MessageTooLong);
      }
      var pl := hl + coat + data.num[Fl];
      text := Patch(text, "pl", oldPl, Last(Hex.Print(pl, 4), 4));
      text := Patch(text, "hl", oldHl, Last(Hex.Print(hl, 2), 2));
      data, packed := Lengths(data, pl, hl), text;
      return Ok(());
    }
  }

  class RxHead {
    var data: HeadData

    constructor ()
      ensures data == Defaults()
    {
      data := Defaults();
    }

    method Parse(packed: string) returns (r: Result<(), PacketError>)
      requires data == Defaults()
      modifies this
      ensures var head := ParseHead(packed);
              if head.Ok? then r.Ok? && data == head.value else r == Err(head.error)
    {
      hide EnterAll, Enter, HeadLines.Parse, Fields, Split, Find, Defaults;
      var end := Find(packed, HEAD_END);
      if !("ri RAET\n" <= packed) || end.None? || end.value > |packed| {
        return Err(Unrecognizable);
      }
      var entered := ParseLines(packed[..end.value]);
      if entered.None? {
        return Err(BadField);
      }
      data := entered.value;
      if data.num[Hk] != 0 {
        return Err(HeadKindMismatch);
      }
      if data.num[Hl] != end.value + 2 {
        return Err(HeadLengthMismatch);
      }
      if data.num[Pl] != |packed| {
        return Err(PacketLengthMismatch);
      }
      return Ok(());
    }

    /** The loop over the head's lines: the data with every field entered, or None at the first line
        that is malformed or names an unknown field. */
    method ParseLines(front: string) returns (entered: Option<HeadData>)
      requires data.Valid()
      ensures var kit := HeadLines.Parse(front);
              entered == if kit.None? then None else EnterAll(data, kit.value)
      ensures entered.Some? ==> entered.value.Valid()
    {
      hide Enter, Split;
      var lines := Split(front, '\n');
      var next := data;
      assert lines[0..] == lines;
      for j := 0 to |lines|
        invariant next.Valid()
        invariant Fields(lines[j..]).None? <==> Fields(lines).None?
        invariant Fields(lines).Some? ==>
                    EnterAll(next, Fields(lines[j..]).value) == EnterAll(data, Fields(lines).value)
      {
        assert lines[j..][0] == lines[j] && lines[j..][1..] == lines[j + 1..];
        var parts := Split(lines[j], ' ');
        if |parts| != 2 {
          return None;
        }
        ghost var rest := Fields(lines[j + 1..]);
        if rest.Some? {
          assert ([(parts[0], parts[1])] + rest.value)[1..] == rest.value;
        }
        var one := Enter(next, parts[0], parts[1]);
        if one.None? {
          return None;
        }
        next := one.value;
      }
      return Some(next);
    }
  }
}
