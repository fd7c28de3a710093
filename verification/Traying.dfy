/** The receive side of a segmented message: raet/road/packeting.py, RxTray. */
module Traying {
  import opened Basics

  /** A message packet of one transaction, reduced to the head fields and coat bytes the trays use. */
  datatype Packet = Packet(sn: nat, sc: nat, ml: nat, segment: Bytes, af: bool, wf: bool)

  /** The packets TxTray leaves for the message, before any flag is set. */
  function Fresh(chunks: seq<Bytes>): (r: seq<Packet>)
    ensures |r| == |chunks|
  {
    seq(|chunks|, i requires 0 <= i < |chunks| =>
      Packet(i, |chunks|, MessageLength(chunks), chunks[i], false, false))
  }

  /** An unsegmented message leaves ml at its default. */
  function MessageLength(chunks: seq<Bytes>): nat {
    if |chunks| == 1 then 0 else |Join(chunks)|
  }

  /** How RxTray.parse ends: normally, by PacketError, or by the IndexError of a segment
      number beyond the segment list. */
  datatype Outcome = Parsed | LengthMismatch | NoSuchSegment

  /** The fields of an RxTray. `sc` and `ml` are the two entries of .data it reads. */
  datatype Tray = Tray(segments: seq<Option<Bytes>>, sc: nat, ml: nat,
                       complete: bool, highest: nat, body: Bytes)

  const NEW_TRAY := Tray([], 1, 0, false, 0, "")

  function Blank(n: nat): (s: seq<Option<Bytes>>)
    ensures |s| == n && forall i :: 0 <= i < n ==> s[i] == None
  {
    seq(n, i => None)
  }

  predicate Full(segments: seq<Option<Bytes>>) {
    forall i :: 0 <= i < |segments| ==> segments[i].Some?
  }

  function Values(segments: seq<Option<Bytes>>): (v: seq<Bytes>)
    requires Full(segments)
    ensures |v| == |segments| && forall i :: 0 <= i < |v| ==> v[i] == segments[i].value
  {
    seq(|segments|, i requires 0 <= i < |segments| => segments[i].value)
  }

  /** The tray after one more packet, and how the call ended. */
  function Collect(t: Tray, p: Packet): (Tray, Outcome) {
    var high := Max(t.highest, p.sn);
    if p.sc == 1 then
      (t.(highest := high, sc := 1, ml := p.ml, body := p.segment, complete := true), Parsed)
    else
      var t := if t.segments == []
               then t.(highest := high, sc := p.sc, ml := p.ml, segments := Blank(p.sc))
               else t.(highest := high);
      if p.sn >= |t.segments| then (t, NoSuchSegment)
      else
        var t := t.(segments := t.segments[p.sn := Some(p.segment)]);
        if !Full(t.segments) then (t, Parsed)
        else
          var whole := Join(Values(t.segments));
          if t.sc > 1 && |whole| != t.ml then (t, LengthMismatch)
          else (t.(body := whole, complete := true), Parsed)
  }

  /** A segment's effect on the tray. */
  lemma CollectOne(t: Tray, p: Packet)
    requires p.sn < p.sc && p.sc > 1 && (t.segments == [] || |t.segments| == p.sc) && !t.complete
    ensures var (t', o) := Collect(t, p);
            && t'.highest == Max(t.highest, p.sn)
            && t'.segments == (if t.segments == [] then Blank(p.sc) else t.segments)[p.sn := Some(p.segment)]
            && t'.sc == (if t.segments == [] then p.sc else t.sc)
            && t'.ml == (if t.segments == [] then p.ml else t.ml)
            && (!Full(t'.segments) ==> o == Parsed && !t'.complete)
            && (Full(t'.segments) && |Join(Values(t'.segments))| == t'.ml ==>
                  o == Parsed && t'.complete && t'.body == Join(Values(t'.segments)))
  {
    hide Full, Join, Values;
  }

  /** A segment completes the tray exactly if it is the last one missing and the whole has the announced
      length; if it has not, the message is refused. */
  lemma CompletesExactly(t: Tray, p: Packet)
    requires p.sc > 1 && !t.complete
    ensures var (t', o) := Collect(t, p);
            && (o == NoSuchSegment <==> p.sn >= if t.segments == [] then p.sc else |t.segments|)
            && (o != NoSuchSegment ==>
                  && (t'.complete <==> Full(t'.segments) && (t'.sc > 1 ==> |Join(Values(t'.segments))| == t'.ml))
                  && (o == LengthMismatch <==> Full(t'.segments) && !t'.complete)
                  && (t'.complete ==> t'.body == Join(Values(t'.segments))))
  {
    hide Join, Full, Values;
  }

  /** Indexes in [begin, end) with no segment yet, in increasing order. */
  function Missing(segments: seq<Option<Bytes>>, begin: nat, end: nat): (r: seq<nat>)
    requires end <= |segments|
    ensures forall i :: i in r <==> begin <= i < end && segments[i].None?
    ensures forall a, b :: 0 <= a < b < |r| ==> r[a] < r[b]
    decreases end - begin
  {
    if begin >= end then []
    else
      var rest := Missing(segments, begin + 1, end);
      assert forall b :: 0 <= b < |rest| ==> rest[b] in rest;
      if segments[begin].None? then [begin] + rest else rest
  }

  /** Below a begin under which nothing is missing, the short scan finds what the full scan finds. */
  lemma {:induction false} ShortScan(segments: seq<Option<Bytes>>, begin: nat, low: nat, end: nat)
    requires begin <= low && end <= |segments|
    requires forall i :: begin <= i < low && i < end ==> segments[i].Some?
    ensures Missing(segments, low, end) == Missing(segments, begin, end)
    decreases low - begin
  {
    if begin < low && begin < end {
      ShortScan(segments, begin + 1, low, end);
    }
  }

  class RxTray {
    var segments: seq<Option<Bytes>>
    var sc: nat
    var ml: nat
    var complete: bool
    var highest: nat
    var body: Bytes

    function View(): Tray
      reads this
    {
      Tray(segments, sc, ml, complete, highest, body)
    }

    constructor ()
      ensures View() == NEW_TRAY
    {
      segments, sc, ml, complete, highest, body := [], 1, 0, false, 0, "";
    }

    method Parse(p: Packet) returns (o: Outcome)
      modifies this
      ensures (View(), o) == Collect(old(View()), p)
    {
      if p.sn > highest {
        highest := p.sn;
      }
      if p.sc == 1 {
        sc, ml, body, complete := p.sc, p.ml, p.segment, true;
        return Parsed;
      }
      if segments == [] {
        sc, ml, segments := p.sc, p.ml, Blank(p.sc);
      }
      if p.sn >= |segments| {
        return NoSuchSegment;
      }
      segments := segments[p.sn := Some(p.segment)];
      if None in segments {
        return Parsed;
      }
      o := Desegmentize();
    }

    method Desegmentize() returns (o: Outcome)
      requires Full(segments)
      modifies this`body, this`complete
      ensures var whole := Join(Values(segments));
              if sc > 1 && |whole| != ml then o == LengthMismatch && unchanged(this)
              else o == Parsed && body == whole && complete
    {
      var whole := Join(Values(segments));
      if sc > 1 && |whole| != ml {
        return LengthMismatch;
      }
      body, complete := whole, true;
      return Parsed;
    }
  }
}
