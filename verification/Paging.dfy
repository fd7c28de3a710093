/** Pages of the lane and the books that cut messages into them: raet/lane/paging.py. */
module Paging {
  import opened Basics
  import opened HeadLines
  import opened Segmenting
  import Hex

  const UXD_MAX_PACKET_SIZE := 65535
  const MAX_MESSAGE_SIZE := 67107840

  /** Bytes the page numbers may need beyond those of an unpaginated head. */
  const EXTRA_PAGE_SIZE := 2

  /** The fields of a page head, all of which are always printed. */
  datatype PageData = PageData(vn: nat, pk: nat, sn: string, dn: string, si: string, bi: nat, pn: nat, pc: nat)

  const PAGE_DEFAULTS := PageData(0, 0, "", "", "000000000000000000", 0, 0, 1)

  // ----------------------------------------------------------------------- Heads

  /** The fields after the session id. */
  function Numbers(d: PageData): Kit {
    [("bi", Hex.Print(d.bi, 1))] + ([("pn", Hex.Print(d.pn, 4))] + [("pc", Hex.Print(d.pc, 4))])
  }

  function Names(d: PageData): Kit {
    [("sn", d.sn)] + ([("dn", d.dn)] + ([("si", if |d.si| <= 18 then d.si else d.si[..18])] + Numbers(d)))
  }

  function HeadKit(d: PageData): Kit {
    [("ri", "RAET")] + ([("vn", Hex.Print(d.vn, 1))] + ([("pk", Hex.Print(d.pk, 1))] + Names(d)))
  }

  /** TxHead.pack */
  function PackHead(d: PageData): string { Print(HeadKit(d)) + HEAD_END }

  /** One field of a received head entering .data. */
  function Enter(d: PageData, key: string, val: string): Option<PageData> {
    if key == "ri" then Some(d)
    else if key == "sn" then Some(d.(sn := val))
    else if key == "dn" then Some(d.(dn := val))
    else if key == "si" then Some(d.(si := val))
    else
      var n := Hex.Parse(val);
      if n.None? then None
      else if key == "vn" then Some(d.(vn := n.value))
      else if key == "pk" then Some(d.(pk := n.value))
      else if key == "bi" then Some(d.(bi := n.value))
      else if key == "pn" then Some(d.(pn := n.value))
      else if key == "pc" then Some(d.(pc := n.value))
      else None
  }

  function EnterAll(d: PageData, kit: Kit): Option<PageData>
    decreases |kit|
  {
    if kit == [] then Some(d)
    else
      var next := Enter(d, kit[0].0, kit[0].1);
      if next.None? then None else EnterAll(next.value, kit[1..])
  }

  /** RxHead.parse: the head's data and the body behind it, None for a PageError. */
  function ParsePage(packed: Bytes): Option<(PageData, Bytes)> {
    var end := Find(packed, HEAD_END);
    if !("ri RAET\n" <= packed) || end.None? || end.value + 2 > |packed| then None
    else
      var kit := Parse(packed[..end.value]);
      if kit.None? then None
      else
        var d := EnterAll(PAGE_DEFAULTS, kit.value);
        if d.None? then None else Some((d.value, packed[end.value + 2..]))
  }

  /** Yard names and session ids: no blank or newline in them, and 18 characters at most in the id. */
  ghost predicate PlainData(d: PageData) {
    Plain(d.sn) && Plain(d.dn) && Plain(d.si) && |d.si| <= 18
  }

  // ------------------------------------------------------------ Heads, round trip

  lemma PlainCons(key: string, val: string, kit: Kit)
    requires Plain(key) && Plain(val) && key != "" && PlainKit(kit)
    ensures PlainKit([(key, val)] + kit)
  {
  }

  lemma PlainHead(d: PageData)
    requires PlainData(d)
    ensures PlainKit(HeadKit(d))
  {
    PlainCons("pn", Hex.Print(d.pn, 4), [("pc", Hex.Print(d.pc, 4))]);
    PlainCons("bi", Hex.Print(d.bi, 1), [("pn", Hex.Print(d.pn, 4))] + [("pc", Hex.Print(d.pc, 4))]);
    hide Numbers;
    PlainCons("si", d.si, Numbers(d));
    PlainCons("dn", d.dn, [("si", d.si)] + Numbers(d));
    PlainCons("sn", d.sn, [("dn", d.dn)] + ([("si", d.si)] + Numbers(d)));
    hide Names;
    PlainCons("pk", Hex.Print(d.pk, 1), Names(d));
    PlainCons("vn", Hex.Print(d.vn, 1), [("pk", Hex.Print(d.pk, 1))] + Names(d));
    PlainCons("ri", "RAET", [("vn", Hex.Print(d.vn, 1))] + ([("pk", Hex.Print(d.pk, 1))] + Names(d)));
  }

  lemma EnterOne(d: PageData, key: string, val: string, kit: Kit, next: PageData)
    requires Enter(d, key, val) == Some(next)
    ensures EnterAll(d, [(key, val)] + kit) == EnterAll(next, kit)
  {
    assert ([(key, val)] + kit)[1..] == kit;
  }

  lemma EnterNumber(d: PageData, val: string)
    requires Hex.Parse(val).Some?
    ensures var n := Hex.Parse(val).value;
            && Enter(d, "bi", val) == Some(d.(bi := n))
            && Enter(d, "pn", val) == Some(d.(pn := n))
            && Enter(d, "pc", val) == Some(d.(pc := n))
  {
    hide Hex.Parse;
  }

  lemma EnterNumbers(d: PageData, bi: nat, pn: nat, pc: nat)
    ensures EnterAll(d, Numbers(PageData(0, 0, "", "", "", bi, pn, pc))) == Some(d.(bi := bi, pn := pn, pc := pc))
  {
    Hex.ParsePrint(bi, 1);
    Hex.ParsePrint(pn, 4);
    Hex.ParsePrint(pc, 4);
    assert EnterAll(d.(bi := bi, pn := pn, pc := pc), []) == Some(d.(bi := bi, pn := pn, pc := pc));
    hide EnterAll, Enter, Hex.Print, Hex.Parse;
    var d1 := d.(bi := bi);
    var d2 := d1.(pn := pn);
    EnterNumber(d, Hex.Print(bi, 1));
    EnterNumber(d1, Hex.Print(pn, 4));
    EnterNumber(d2, Hex.Print(pc, 4));
    var last := [("pc", Hex.Print(pc, 4))];
    EnterOne(d, "bi", Hex.Print(bi, 1), [("pn", Hex.Print(pn, 4))] + last, d1);
    EnterOne(d1, "pn", Hex.Print(pn, 4), last, d2);
    assert last == [("pc", Hex.Print(pc, 4))] + [];
    EnterOne(d2, "pc", Hex.Print(pc, 4), [], d2.(pc := pc));
  }

  /** Reading a printed head gives all its fields back. */
  lemma EnterHead(d: PageData)
    requires PlainData(d)
    ensures EnterAll(PAGE_DEFAULTS, HeadKit(d)) == Some(d)
  {
    Hex.ParsePrint(d.vn, 1);
    Hex.ParsePrint(d.pk, 1);
    hide EnterAll, Hex.Print, Hex.Parse;
    var vn, pk := Hex.Print(d.vn, 1), Hex.Print(d.pk, 1);
    var d1 := PAGE_DEFAULTS.(vn := d.vn);
    var d2 := d1.(pk := d.pk);
    var d3 := d2.(sn := d.sn);
    var d4 := d3.(dn := d.dn);
    var d5 := d4.(si := d.si);
    EnterOne(PAGE_DEFAULTS, "ri", "RAET", [("vn", vn)] + ([("pk", pk)] + Names(d)), PAGE_DEFAULTS);
    EnterOne(PAGE_DEFAULTS, "vn", vn, [("pk", pk)] + Names(d), d1);
    EnterOne(d1, "pk", pk, Names(d), d2);
    EnterOne(d2, "sn", d.sn, [("dn", d.dn)] + ([("si", d.si)] + Numbers(d)), d3);
    EnterOne(d3, "dn", d.dn, [("si", d.si)] + Numbers(d), d4);
    EnterOne(d4, "si", d.si, Numbers(d), d5);
    EnterNumbers(d5, d.bi, d.pn, d.pc);
    assert Numbers(PageData(0, 0, "", "", "", d.bi, d.pn, d.pc)) == Numbers(d);
  }

  lemma PageStart(d: PageData)
    ensures "ri RAET\n" <= PackHead(d)
  {
    var rest := [("vn", Hex.Print(d.vn, 1))] + ([("pk", Hex.Print(d.pk, 1))] + Names(d));
    var kit := HeadKit(d);
    assert kit[1..] == rest && |kit| > 1;
    hide Names, Hex.Print;
    assert Print(kit) == Line(kit[0]) + "\n" + Print(rest);
    assert Line(kit[0]) == "ri RAET";
  }

  /** Whatever bytes follow a packed head, parsing yields its data and those bytes. */
  lemma PageRoundTrip(d: PageData, body: Bytes)
    requires PlainData(d)
    ensures ParsePage(PackHead(d) + body) == Some((d, body))
  {
    var kit := HeadKit(d);
    PageStart(d);
    PlainHead(d);
    assert kit != [];
    HeadEndsAtBlank(kit, body);
    ParsePrint(kit);
    EnterHead(d);
    hide HeadLines.Print, Parse, Find, EnterAll, HeadKit, PlainData;
    var packed := PackHead(d) + body;
    var end := |HeadLines.Print(kit)|;
    assert packed[..end] == HeadLines.Print(kit);
    assert packed[end + 2..] == body;
    assert "ri RAET\n" <= packed;
  }

  // ----------------------------------------------------------------------- Books

  /** What TxBook.pack leaves in .pages: the whole message on one page if it fits, else its
      sections, numbered, under heads of their own; and nothing if the head leaves no room. */
  function Pages(d: PageData, body: Bytes): (r: seq<Bytes>) {
    if |PackHead(d)| + |body| <= UXD_MAX_PACKET_SIZE then [PackHead(d) + body]
    else if |PackHead(d)| + EXTRA_PAGE_SIZE >= UXD_MAX_PACKET_SIZE then []
    else
      var secsize := SecSize(d);
      seq(SegCount(|body|, secsize), i requires 0 <= i < SegCount(|body|, secsize) => Section(d, body, secsize, i))
  }

  function SecSize(d: PageData): (r: nat)
    requires |PackHead(d)| + EXTRA_PAGE_SIZE < UXD_MAX_PACKET_SIZE
    ensures r > 0
  {
    UXD_MAX_PACKET_SIZE - (|PackHead(d)| + EXTRA_PAGE_SIZE)
  }

  function Section(d: PageData, body: Bytes, secsize: nat, i: nat): Bytes
    requires secsize > 0 && i < SegCount(|body|, secsize)
  {
    PackHead(d.(pn := i, pc := SegCount(|body|, secsize))) + Cut(body, secsize, i)
  }

  /** The size of a head without its page numbers. */
  function BaseSize(d: PageData): nat {
    |d.sn| + |d.dn| + (if |d.si| <= 18 then |d.si| else 18)
    + |Hex.Print(d.bi, 1)| + |Hex.Print(d.vn, 1)| + |Hex.Print(d.pk, 1)| + 41
  }

  lemma NamesWidth(d: PageData)
    ensures Width(Names(d)) == |d.sn| + |d.dn| + (if |d.si| <= 18 then |d.si| else 18) + |Hex.Print(d.bi, 1)| + 24
                               + |Hex.Print(d.pn, 4)| + |Hex.Print(d.pc, 4)|
  {
    hide Hex.Print;
    var pn, pc := ("pn", Hex.Print(d.pn, 4)), ("pc", Hex.Print(d.pc, 4));
    var si := if |d.si| <= 18 then d.si else d.si[..18];
    assert [pc] == [pc] + [];
    WidthCons(pc, []);
    WidthCons(pn, [pc]);
    WidthCons(("bi", Hex.Print(d.bi, 1)), [pn] + [pc]);
    hide Width;
    WidthCons(("si", si), Numbers(d));
    WidthCons(("dn", d.dn), [("si", si)] + Numbers(d));
    WidthCons(("sn", d.sn), [("dn", d.dn)] + ([("si", si)] + Numbers(d)));
  }

  lemma HeadSize(d: PageData)
    ensures |PackHead(d)| == BaseSize(d) + |Hex.Print(d.pn, 4)| + |Hex.Print(d.pc, 4)|
  {
    PrintWidth(HeadKit(d));
    NamesWidth(d);
    hide Hex.Print, Names, HeadLines.Print, Width;
    var vn, pk := ("vn", Hex.Print(d.vn, 1)), ("pk", Hex.Print(d.pk, 1));
    WidthCons(pk, Names(d));
    WidthCons(vn, [pk] + Names(d));
    WidthCons(("ri", "RAET"), [vn] + ([pk] + Names(d)));
  }

  lemma NumberWidth(n: nat, k: nat)
    requires 4 <= k && n < Hex.Pow16(k)
    ensures 4 <= |Hex.Print(n, 4)| <= k
  {
    Hex.PrintLength(n, 4, k);
  }

  /** The unpaginated head data a TxBook starts from. */
  ghost predicate Whole(d: PageData) {
    d.pn == 0 && d.pc == 1 && |PackHead(d)| + EXTRA_PAGE_SIZE < UXD_MAX_PACKET_SIZE
  }

  /** Page sizes. A single page is within the limit; of a paginated message there are at least two
      pages, each 2 bytes below the limit while their count fits four digits, and within it while
      the count fits five. */
  lemma PageSizes(d: PageData, body: Bytes, i: nat)
    requires Whole(d) && i < |Pages(d, body)|
    ensures var pages := Pages(d, body);
            && (|PackHead(d)| + |body| <= UXD_MAX_PACKET_SIZE ==> |pages| == 1 && |pages[i]| <= UXD_MAX_PACKET_SIZE)
            && (|PackHead(d)| + |body| > UXD_MAX_PACKET_SIZE ==> |pages| >= 2)
            && (|PackHead(d)| + |body| > UXD_MAX_PACKET_SIZE && |pages| < 0x1_0000 ==>
                  |pages[i]| <= UXD_MAX_PACKET_SIZE - 2)
            && (|pages| < 0x10_0000 ==> |pages[i]| <= UXD_MAX_PACKET_SIZE)
  {
    if |PackHead(d)| + |body| > UXD_MAX_PACKET_SIZE {
      var k, n := SecSize(d), |Pages(d, body)|;
      CountBounds(|body|, k);
      if n < 2 { Times(n, 1, k); }
      HeadSize(d);
      HeadSize(d.(pn := i, pc := n));
      Hex.Powers();
      assert Hex.Pow16(5) == 16 * Hex.Pow16(4);
      NumberWidth(0, 4);
      NumberWidth(1, 4);
      hide Hex.Print, PackHead, SegCount;
      if n < 0x1_0000 {
        NumberWidth(i, 4);
        NumberWidth(n, 4);
      } else if n < 0x10_0000 {
        NumberWidth(i, 5);
        NumberWidth(n, 5);
      }
    }
  }

  lemma Cancels(a: nat, b: nat, k: nat)
    requires a * k < b * k
    ensures a < b
  {
    if b <= a { Times(b, a, k); }
  }

  /** With heads of up to 64509 bytes no message of permitted length makes more than 65535 pages. */
  lemma PagesCountFits(d: PageData, body: Bytes)
    requires Whole(d) && |body| <= MAX_MESSAGE_SIZE && |PackHead(d)| <= 64509
    ensures |Pages(d, body)| < 0x1_0000
  {
    hide PackHead;
    if |PackHead(d)| + |body| > UXD_MAX_PACKET_SIZE {
      var k := SecSize(d);
      CountBounds(|body|, k);
      var n := SegCount(|body|, k);
      Times(1024, k, 65535);
      if n > 0 { Cancels(n - 1, 65535, k); }
    }
  }

  /** A PageError, or the ZeroDivisionError of paginate, which its caller does not catch. */
  datatype PackError = MessageTooLong | DivisionByZero

  /** The head takes the very room that the sections would need. */
  ghost predicate NoSection(d: PageData, body: Bytes) {
    |PackHead(d)| + |body| > UXD_MAX_PACKET_SIZE && |PackHead(d)| + EXTRA_PAGE_SIZE == UXD_MAX_PACKET_SIZE
  }

  lemma NoPages(d: PageData, body: Bytes)
    requires NoSection(d, body)
    ensures Pages(d, body) == []
  {
  }

  /** size // secsize, one more if there is a remainder; // rounds down. */
  function SecCount(size: nat, secsize: int): (n: int)
    requires secsize != 0
    ensures secsize > 0 ==> n == SegCount(size, secsize)
    ensures secsize < 0 ==> n <= 0
  {
    if secsize > 0 then SegCount(size, secsize) else -(size / -secsize)
  }

  class TxBook {
    const data: PageData
    var packed: Bytes
    var pages: seq<Bytes>

    constructor (data: PageData)
      ensures this.data == data && pages == []
    {
      this.data, packed, pages := data, "", [];
    }

    method Pack(body: Bytes) returns (r: Result<(), PackError>)
      modifies this
      ensures pages == if r.Ok? then Pages(data, body) else []
      ensures r == if |body| > MAX_MESSAGE_SIZE then Err(MessageTooLong)
                   else if NoSection(data, body) then Err(DivisionByZero) else Ok(())
    {
      pages := [];
      var head := PackHead(data);
      if |body| > MAX_MESSAGE_SIZE {
        return Err(MessageTooLong);
      }
      packed := body;
      if |head + body| <= UXD_MAX_PACKET_SIZE {
        pages := [head + body];
        return Ok(());
      }
      r := Paginate(|head|);
    }

    method Paginate(headsize: nat) returns (r: Result<(), PackError>)
      requires pages == [] && headsize == |PackHead(data)| && headsize + |packed| > UXD_MAX_PACKET_SIZE
      modifies this`pages
      ensures pages == if r.Ok? then Pages(data, packed) else []
      ensures r == if NoSection(data, packed) then Err(DivisionByZero) else Ok(())
    {
      hide PackHead, SegCount;
      var hotelsize := headsize + EXTRA_PAGE_SIZE;
      var secsize := UXD_MAX_PACKET_SIZE - hotelsize;
      if secsize == 0 {
        return Err(DivisionByZero);
      }
      var seccount := SecCount(|packed|, secsize);
      var i := 0;
      while i < seccount
        invariant |pages| == i && (i == 0 || i <= seccount)
        invariant forall j :: 0 <= j < i ==> secsize > 0 && pages[j] == Section(data, packed, secsize, j)
      {
        CutWithin(|packed|, secsize, i);
        var section := if i == seccount - 1 then packed[i * secsize..] else packed[i * secsize..(i + 1) * secsize];
        var d := data.(pn := i, pc := seccount);
        pages := pages + [PackHead(d) + section];
        i := i + 1;
      }
      return Ok(());
    }
  }

  /** What is accepted as a page begins and ends its head as one, and its body is all that follows. */
  lemma AcceptedIsPage(packed: Bytes)
    requires ParsePage(packed).Some?
    ensures "ri RAET\n" <= packed
    ensures var end := Find(packed, HEAD_END);
            end.Some? && end.value + 2 <= |packed| && ParsePage(packed).value.1 == packed[end.value + 2..]
  {
    hide Find, Parse, EnterAll;
  }
}
