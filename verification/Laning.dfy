/** Messages between yards of a lane: raet/lane/stacking.py and raet/lane/yarding.py. */
module Laning {
  import opened Basics
  import opened Odicts
  import opened Lotting
  import opened Paging
  import T = Traying
  import Segmenting
  import TxQueue

  // ------------------------------------------------------------------ Receiving

  /** RxPage.index: local name, remote name, session id and book id. */
  datatype Key = Key(ln: string, rn: string, si: string, bi: nat)

  function KeyOf(d: PageData): Key { Key(d.dn, d.sn, d.si, d.bi) }

  /** An RxBook before it is complete. */
  type Book = seq<Option<Bytes>>

  type Books = Odict<Key, Book>

  /** A remote yard as its stack knows it, and the bodies received from it. */
  datatype Yard = Yard(rsid: string, books: Books, rxMsgs: seq<Bytes>)

  /** removeStaleBooks */
  function Current(books: Books, rsid: string): Books {
    if books == [] then []
    else (if books[0].0.si == rsid then [books[0]] else []) + Current(books[1..], rsid)
  }

  /** RxBook.parse for a page of several: the sections with this one, unless its number is out of
      range, which raises. */
  function AddSection(book: Book, d: PageData, body: Bytes): Book {
    var sections := if book == [] then T.Blank(d.pc) else book;
    if d.pn < |sections| then sections[d.pn := Some(body)] else sections
  }

  /** processRx for a page of the present session. A page of a book whose first page was missed is
      dropped. */
  function Accept(y: Yard, d: PageData, body: Bytes): Yard {
    if d.pc <= 1 then y.(rxMsgs := y.rxMsgs + [body])
    else
      var k := KeyOf(d);
      var found := Get(y.books, k);
      if found.None? && d.pn != 0 then y
      else
        var book := AddSection(if found.Some? then found.value else [], d, body);
        if T.Full(book) && d.pn < |book| then
          y.(books := Delete(y.books, k), rxMsgs := y.rxMsgs + [Join(T.Values(book))])
        else y.(books := Put(y.books, k, book))
  }

  /** _handleOneRx for a page from this remote: a new session id drops the books of others first. */
  function Receive(y: Yard, d: PageData, body: Bytes): Yard {
    Accept(if d.si != y.rsid then Yard(d.si, Current(y.books, d.si), y.rxMsgs) else y, d, body)
  }

  class RemoteYard {
    const name: string
    var rsid: string
    var books: Books
    var sid: string
    var bid: nat

    constructor (name: string, sid: string)
      ensures this.name == name && rsid == "" && books == [] && this.sid == sid && bid == 0
    {
      this.name, this.sid, rsid, books, bid := name, sid, "", [], 0;
    }

    /** YardError, as false, if the index is there already. */
    method AddBook(k: Key, book: Book) returns (ok: bool)
      requires Proper(books)
      modifies this`books
      ensures Proper(books) && (ok <==> Get(old(books), k).None?)
      ensures books == if ok then old(books) + [(k, book)] else old(books)
    {
      if Get(books, k).Some? {
        return false;
      }
      PutIs(books, k, book);
      books := Put(books, k, book);
      return true;
    }

    /** The book at that index is gone, and no other. */
    method RemoveBook(k: Key)
      requires Proper(books)
      modifies this`books
      ensures Proper(books) && Get(books, k).None?
      ensures Without(old(books), k, books) && books == Delete(old(books), k)
    {
      DeleteIs(books, k);
      DeleteIsWithout(books, k);
      books := Delete(books, k);
    }

    method RemoveStaleBooks()
      requires Proper(books)
      modifies this`books
      ensures books == Current(old(books), rsid) && Proper(books)
    {
      hide Current, Delete, Proper, Get, Without;
      var items := books;
      CurrentStart(items, rsid);
      for j := 0 to |items|
        invariant books == Current(items[..j], rsid) + items[j..] && Proper(books)
      {
        CurrentStep(items, j, rsid);
        if items[j].0.si != rsid {
          RemoveBook(items[j].0);
        }
      }
      assert items[..|items|] == items && items[|items|..] == [];
      CurrentProper(items, rsid);
    }

    method NextBid() returns (r: nat)
      modifies this`bid
      ensures bid == Next(old(bid)) && r == bid
    {
      bid := bid + 1;
      if bid > SID_ROLLOVER {
        bid := 1;
      }
      return bid;
    }
  }

  lemma {:induction false} CurrentIs(d: Books, rsid: string)
    ensures forall e :: e in Current(d, rsid) ==> e in d && e.0.si == rsid
    ensures forall e :: e in d && e.0.si == rsid ==> e in Current(d, rsid)
    ensures Proper(d) ==> Proper(Current(d, rsid))
  {
    if d != [] {
      CurrentIs(d[1..], rsid);
      assert d == [d[0]] + d[1..];
      ConsIs(d[0], d[1..]);
      ConsIs(d[0], Current(d[1..], rsid));
    }
  }

  lemma CurrentProper(d: Books, rsid: string)
    requires Proper(d)
    ensures Proper(Current(d, rsid)) && Current(d, rsid) + [] == Current(d, rsid)
  {
    CurrentIs(d, rsid);
  }

  lemma CurrentStart(d: Books, rsid: string)
    ensures Current(d[..0], rsid) + d[0..] == d
  {
  }

  lemma CurrentCons(e: (Key, Book), d: Books, rsid: string)
    ensures Current([e] + d, rsid) == (if e.0.si == rsid then [e] else []) + Current(d, rsid)
  {
    assert ([e] + d)[1..] == d;
  }

  lemma {:induction false} CurrentAppend(d: Books, e: (Key, Book), rsid: string)
    ensures Current(d + [e], rsid) == Current(d, rsid) + if e.0.si == rsid then [e] else []
  {
    if d == [] {
      assert d + [e] == [e] + [];
      CurrentCons(e, [], rsid);
    } else {
      assert d + [e] == [d[0]] + (d[1..] + [e]);
      assert d == [d[0]] + d[1..];
      CurrentCons(d[0], d[1..] + [e], rsid);
      CurrentCons(d[0], d[1..], rsid);
      CurrentAppend(d[1..], e, rsid);
      hide Current;
    }
  }

  lemma CurrentStep(items: Books, j: nat, rsid: string)
    requires Proper(items) && j < |items|
    ensures var before := Current(items[..j], rsid) + items[j..];
            Current(items[..j + 1], rsid) + items[j + 1..]
            == if items[j].0.si != rsid then Delete(before, items[j].0) else before
  {
    var front, e, back := Current(items[..j], rsid), items[j], items[j + 1..];
    assert items[..j + 1] == items[..j] + [e];
    assert front + items[j..] == front + [e] + back;
    CurrentIs(items[..j], rsid);
    CurrentAppend(items[..j], e, rsid);
    forall f | f in front ensures f.0 != e.0 {
      assert f in items[..j];
    }
    DeleteAt(front, e, back);
  }

  class LaneStack {
    const name: string
    const remote: RemoteYard
    var rxMsgs: seq<Bytes>
    var txes: seq<Bytes>  // the packets queued for this remote

    function View(): Yard
      reads this, remote
    {
      Yard(remote.rsid, remote.books, rxMsgs)
    }

    constructor (name: string, remote: RemoteYard)
      ensures this.name == name && this.remote == remote && rxMsgs == [] && txes == []
    {
      this.name, this.remote, rxMsgs, txes := name, remote, [], [];
    }

    /** _handleOneRx for a datagram of this remote: one that does not parse, or is not for us, is
        dropped. */
    method HandleOneRx(raw: Bytes)
      requires Proper(remote.books)
      modifies this`rxMsgs, remote
      ensures Proper(remote.books)
      ensures View() == Hear(old(View()), name, raw)
    {
      hide Accept, Current;
      var page := ParsePage(raw);
      if page.None? {
        return;
      }
      var (d, body) := page.value;
      if d.dn != name {
        return;
      }
      if d.si != remote.rsid {
        remote.rsid := d.si;
        remote.RemoveStaleBooks();
      }
      ProcessRx(d, body);
    }

    method ProcessRx(d: PageData, body: Bytes)
      requires Proper(remote.books)
      modifies this`rxMsgs, remote
      ensures Proper(remote.books)
      ensures View() == Accept(old(View()), d, body)
    {
      hide AddSection;
      if d.pc <= 1 {
        rxMsgs := rxMsgs + [body];
        return;
      }
      var k := KeyOf(d);
      var found := Get(remote.books, k);
      if found.None? && d.pn != 0 {
        return;
      }
      var book := AddSection(if found.Some? then found.value else [], d, body);
      PutIs(remote.books, k, book);
      DeleteIs(remote.books, k);
      if T.Full(book) && d.pn < |book| {
        remote.RemoveBook(k);
        rxMsgs := rxMsgs + [Join(T.Values(book))];
      } else {
        remote.books := Put(remote.books, k, book);
      }
    }

    /** message: the pages of a body, under the next book id. */
    method Message(body: Bytes, data: PageData) returns (raised: bool)
      requires data.bi == Next(remote.bid)
      modifies this`txes, remote`bid
      ensures remote.bid == Next(old(remote.bid))
      ensures txes == old(txes) + Queued(data, body)
      ensures raised <==> |body| <= MAX_MESSAGE_SIZE && NoSection(data, body)
    {
      hide Pages, NoSection;
      var bi := remote.NextBid();
      var book := new TxBook(data);
      var packed := book.Pack(body);
      if packed.Err? {
        if packed.error == DivisionByZero { NoPages(data, body); }
        return packed.error == DivisionByZero;
      }
      var pages := book.pages;
      for i := 0 to |pages|
        invariant txes == old(txes) + pages[..i] && remote.bid == Next(old(remote.bid))
      {
        txes := txes + [pages[i]];
      }
      return false;
    }
  }

  /** The pages a message puts on the queue: none if it is too long. */
  function Queued(d: PageData, body: Bytes): seq<Bytes> {
    if |body| <= MAX_MESSAGE_SIZE then Pages(d, body) else []
  }

  /** A datagram arriving at the yard of that name. */
  function Hear(y: Yard, name: string, raw: Bytes): Yard {
    var page := ParsePage(raw);
    if page.None? || page.value.0.dn != name then y else Receive(y, page.value.0, page.value.1)
  }

  // ---------------------------------------------------------- One message received

  function HearAll(y: Yard, name: string, raws: seq<Bytes>): Yard
    decreases |raws|
  {
    if raws == [] then y else HearAll(Hear(y, name, raws[0]), name, raws[1..])
  }

  lemma {:induction false} HearAllAppend(y: Yard, name: string, a: seq<Bytes>, b: seq<Bytes>)
    ensures HearAll(y, name, a + b) == HearAll(HearAll(y, name, a), name, b)
    decreases |a|
  {
    if a == [] {
      assert a + b == b;
    } else {
      assert (a + b)[1..] == a[1..] + b;
      HearAllAppend(Hear(y, name, a[0]), name, a[1..], b);
    }
  }

  /** A datagram that does not parse, or is for another yard, changes nothing; nor does a page of a
      book whose first page was missed, but for the books it makes stale. */
  lemma StrayIsDropped(y: Yard, name: string, raw: Bytes)
    ensures var page := ParsePage(raw);
            && (page.None? || page.value.0.dn != name ==> Hear(y, name, raw) == y)
            && (page.Some? ==>
                  var d := page.value.0;
                  d.pc > 1 && d.pn != 0 && d.si == y.rsid && Get(y.books, KeyOf(d)).None? ==> Hear(y, name, raw) == y)
  {
    hide ParsePage, Get;
  }

  /** Every book in progress has its first page. */
  ghost predicate Started(books: Books) {
    forall e :: e in books ==> e.1 != [] && e.1[0].Some?
  }

  lemma AcceptStarted(y: Yard, d: PageData, body: Bytes)
    requires Proper(y.books) && Started(y.books)
    ensures Proper(Accept(y, d, body).books) && Started(Accept(y, d, body).books)
  {
    var k := KeyOf(d);
    GetIs(y.books, k);
    DeleteIs(y.books, k);
    var found: Option<Book> := Get(y.books, k);
    PutIs(y.books, k, AddSection(if found.Some? then found.value else [], d, body));
    hide Get, Delete, Put, Proper, T.Full, T.Values, Join;
  }

  /** Whatever datagrams come, in any order: no book is kept that did not begin with its first page. */
  lemma {:induction false} AllStarted(y: Yard, name: string, raws: seq<Bytes>)
    requires Proper(y.books) && Started(y.books)
    ensures Proper(HearAll(y, name, raws).books) && Started(HearAll(y, name, raws).books)
    decreases |raws|
  {
    if raws != [] {
      var page := ParsePage(raws[0]);
      if page.Some? {
        var (d, body) := page.value;
        CurrentIs(y.books, d.si);
        AcceptStarted(Yard(d.si, Current(y.books, d.si), y.rxMsgs), d, body);
        AcceptStarted(y, d, body);
      }
      hide ParsePage, Accept, Current, Started, Proper;
      AllStarted(Hear(y, name, raws[0]), name, raws[1..]);
    }
  }

  /** The sections of a book of which the first n have come. */
  function Begun(chunks: seq<Bytes>, n: nat): (b: Book)
    requires n <= |chunks|
    ensures |b| == |chunks| && forall i :: 0 <= i < |b| ==> b[i] == if i < n then Some(chunks[i]) else None
  {
    seq(|chunks|, i requires 0 <= i < |chunks| => if i < n then Some(chunks[i]) else None)
  }

  /** The yard after the first n pages of a message of several. */
  function Midway(y: Yard, k: Key, chunks: seq<Bytes>, n: nat): Yard
    requires 0 < n <= |chunks|
  {
    Yard(k.si, if n < |chunks| then [(k, Begun(chunks, n))] else [],
         if n < |chunks| then y.rxMsgs else y.rxMsgs + [Join(chunks)])
  }

  /** The next section of the one book in progress. */
  lemma NextSection(y: Yard, d: PageData, chunks: seq<Bytes>, n: nat)
    requires |chunks| > 1 && n < |chunks| && d.pn == n && d.pc == |chunks|
    requires y.books == if n == 0 then [] else [(KeyOf(d), Begun(chunks, n))]
    requires n > 0 ==> y.rsid == d.si
    ensures Receive(y, d, chunks[n]) == Midway(y, KeyOf(d), chunks, n + 1)
  {
    var k := KeyOf(d);
    var y1 := Yard(d.si, y.books, y.rxMsgs);
    assert Receive(y, d, chunks[n]) == Accept(y1, d, chunks[n]);
    var book := AddSection(if n == 0 then [] else Begun(chunks, n), d, chunks[n]);
    assert book == Begun(chunks, n + 1);
    LastOrNot(chunks, n + 1);
    hide AddSection, Begun, T.Full, T.Values, Join;
    assert Get(y1.books, k) == if n == 0 then None else Some(Begun(chunks, n));
    assert Delete(y1.books, k) == [];
    assert Put(y1.books, k, book) == [(k, book)];
  }

  lemma LastOrNot(chunks: seq<Bytes>, n: nat)
    requires n <= |chunks|
    ensures T.Full(Begun(chunks, n)) <==> n == |chunks|
    ensures n == |chunks| ==> T.Values(Begun(chunks, n)) == chunks
  {
    if n < |chunks| { assert Begun(chunks, n)[n].None?; }
  }

  /** One more of several pages. */
  lemma HearNext(y: Yard, d: PageData, body: Bytes, n: nat)
    requires y.books == [] && Whole(d) && PlainData(d) && 0 < n <= |Pages(d, body)|
    requires |PackHead(d)| + |body| > UXD_MAX_PACKET_SIZE
    requires HearAll(y, d.dn, Pages(d, body)[..n - 1])
             == if n == 1 then y else Midway(y, KeyOf(d), Chunks(d, body), n - 1)
    ensures HearAll(y, d.dn, Pages(d, body)[..n]) == Midway(y, KeyOf(d), Chunks(d, body), n)
    ensures Join(Chunks(d, body)) == body
  {
    hide *;
    var pages := Pages(d, body);
    var was := HearAll(y, d.dn, pages[..n - 1]);
    assert pages[..n] == pages[..n - 1] + [pages[n - 1]];
    HearAllAppend(y, d.dn, pages[..n - 1], [pages[n - 1]]);
    HearOne(was, d.dn, pages[n - 1]);
    HearSection(y, was, d, body, n);
  }

  /** Hearing the first n pages of one message, from a yard with no book in progress. */
  lemma {:induction false} HearMessage(y: Yard, d: PageData, body: Bytes, n: nat)
    requires y.books == [] && Whole(d) && PlainData(d) && n <= |Pages(d, body)|
    ensures var (pages, y') := (Pages(d, body), HearAll(y, d.dn, Pages(d, body)[..n]));
            && (n == 0 ==> y' == y)
            && (0 < n < |pages| ==> y'.rxMsgs == y.rxMsgs)
            && (0 < n == |pages| ==> y' == Yard(d.si, [], y.rxMsgs + [body]))
            && (|pages| > 1 && n > 0 ==> y' == Midway(y, KeyOf(d), Chunks(d, body), n))
  {
    var pages := Pages(d, body);
    if n == 0 {
      assert pages[..0] == [];
    } else if |PackHead(d)| + |body| <= UXD_MAX_PACKET_SIZE {
      HearOnly(y, d, body);
      assert pages[..1] == pages;
    } else {
      hide *;
      PageSizes(d, body, 0);
      HearMessage(y, d, body, n - 1);
      HearNext(y, d, body, n);
      MidwayIs(y, d, body, n);
    }
  }

  lemma MidwayIs(y: Yard, d: PageData, body: Bytes, n: nat)
    requires y.books == [] && Whole(d) && |PackHead(d)| + |body| > UXD_MAX_PACKET_SIZE && 0 < n <= |Pages(d, body)|
    requires Join(Chunks(d, body)) == body
    ensures var y' := Midway(y, KeyOf(d), Chunks(d, body), n);
            && (n < |Pages(d, body)| ==> y'.rxMsgs == y.rxMsgs)
            && (n == |Pages(d, body)| ==> y' == Yard(d.si, [], y.rxMsgs + [body]))
  {
    hide PackHead, Pages, Chunks, Join;
  }

  /** The only page of a message. */
  lemma HearOnly(y: Yard, d: PageData, body: Bytes)
    requires y.books == [] && Whole(d) && PlainData(d) && |PackHead(d)| + |body| <= UXD_MAX_PACKET_SIZE
    ensures |Pages(d, body)| == 1 && HearAll(y, d.dn, Pages(d, body)) == Yard(d.si, [], y.rxMsgs + [body])
  {
    PageRoundTrip(d, body);
    HearOne(y, d.dn, PackHead(d) + body);
    hide HearAll, PackHead, ParsePage, PlainData;
  }

  function Chunks(d: PageData, body: Bytes): (r: seq<Bytes>)
    requires Whole(d)
    ensures |PackHead(d)| + |body| > UXD_MAX_PACKET_SIZE ==> |r| == |Pages(d, body)|
  {
    Segmenting.Cuts(body, SecSize(d), Segmenting.SegCount(|body|, SecSize(d)))
  }

  lemma HearSection(y: Yard, was: Yard, d: PageData, body: Bytes, n: nat)
    requires y.books == [] && Whole(d) && PlainData(d) && 0 < n <= |Pages(d, body)|
    requires |PackHead(d)| + |body| > UXD_MAX_PACKET_SIZE
    requires var chunks := Chunks(d, body); was == if n == 1 then y else Midway(y, KeyOf(d), chunks, n - 1)
    ensures Hear(was, d.dn, Pages(d, body)[n - 1]) == Midway(y, KeyOf(d), Chunks(d, body), n)
    ensures |Pages(d, body)| > 1 && Join(Chunks(d, body)) == body
  {
    PageSizes(d, body, n - 1);
    var chunks := Chunks(d, body);
    SectionPage(d, body, n - 1);
    var di := d.(pn := n - 1, pc := |chunks|);
    hide Chunks, Pages, PackHead, ParsePage, Receive, Midway, Whole;
    PageRoundTrip(di, chunks[n - 1]);
    assert KeyOf(di) == KeyOf(d);
    FirstOrMidway(y, was, KeyOf(d), chunks, n);
    NextSection(was, di, chunks, n - 1);
    MidwayFrom(y, was, KeyOf(d), chunks, n);
  }

  /** Page i of a long message is chunk i under its own head; the chunks are the message. */
  lemma SectionPage(d: PageData, body: Bytes, i: nat)
    requires Whole(d) && |PackHead(d)| + |body| > UXD_MAX_PACKET_SIZE && i < |Pages(d, body)|
    ensures var chunks := Chunks(d, body);
            && Pages(d, body)[i] == PackHead(d.(pn := i, pc := |chunks|)) + chunks[i]
            && Join(chunks) == body
  {
    hide PackHead, Segmenting.Cut, Segmenting.SegCount, Join;
    Segmenting.JoinCuts(body, SecSize(d), Segmenting.SegCount(|body|, SecSize(d)));
    assert body[..|body|] == body;
  }

  lemma FirstOrMidway(y: Yard, was: Yard, k: Key, chunks: seq<Bytes>, n: nat)
    requires y.books == [] && 0 < n <= |chunks| && was == if n == 1 then y else Midway(y, k, chunks, n - 1)
    ensures was.books == if n == 1 then [] else [(k, Begun(chunks, n - 1))]
    ensures n > 1 ==> was.rsid == k.si
    ensures was.rxMsgs == y.rxMsgs
  {
  }

  lemma MidwayFrom(y: Yard, was: Yard, k: Key, chunks: seq<Bytes>, n: nat)
    requires 0 < n <= |chunks| && was.rxMsgs == y.rxMsgs
    ensures Midway(was, k, chunks, n) == Midway(y, k, chunks, n)
  {
  }

  // ------------------------------------------------------- A stream of messages

  /** What every page of one sender in one session carries, with room for its heads. */
  ghost predicate Template(d: PageData) {
    && d.pn == 0 && d.pc == 1 && d.vn == 0 && d.pk < 16
    && PlainData(d) && |d.sn| + |d.dn| <= 60000
  }

  lemma TemplateWhole(d: PageData, bi: nat)
    requires Template(d) && IsId(bi)
    ensures Whole(d.(bi := bi)) && PlainData(d.(bi := bi)) && KeyOf(d.(bi := bi)).si == d.si
  {
    Hex.Powers();
    Hex.PrintLength(bi, 1, 8);
    assert Hex.Pow16(1) == 16 * Hex.Pow16(0);
    Hex.PrintLength(d.pk, 1, 1);
    Hex.PrintLength(0, 1, 1);
    NumberWidth(0, 4);
    NumberWidth(1, 4);
    hide Hex.Print, PackHead;
    HeadSize(d.(bi := bi));
  }

  /** A message accepted for the yard: its book id and body. */
  datatype Sent = Sent(bid: nat, body: Bytes)

  /** Successive messages: their pages. */
  function Stream(d: PageData, msgs: seq<Sent>): seq<Bytes>
    requires Template(d) && forall i :: 0 <= i < |msgs| ==> IsId(msgs[i].bid)
  {
    if msgs == [] then []
    else
      TemplateWhole(d, msgs[0].bid);
      Pages(d.(bi := msgs[0].bid), msgs[0].body) + Stream(d, msgs[1..])
  }

  function Bodies(msgs: seq<Sent>): (r: seq<Bytes>)
    ensures |r| == |msgs| && forall i :: 0 <= i < |r| ==> r[i] == msgs[i].body
  {
    seq(|msgs|, i requires 0 <= i < |msgs| => msgs[i].body)
  }

  /** Hearing the first n of a message's pages and what follows them. */
  lemma HearFirst(y: Yard, d: PageData, body: Bytes, rest: seq<Bytes>, n: nat)
    requires y.books == [] && Whole(d) && PlainData(d) && n <= |Pages(d, body)| + |rest|
    ensures var (k, y') := (|Pages(d, body)|, HearAll(y, d.dn, (Pages(d, body) + rest)[..n]));
            && k > 0
            && (n < k ==> y'.rxMsgs == y.rxMsgs)
            && (n >= k ==> y' == HearAll(Yard(d.si, [], y.rxMsgs + [body]), d.dn, rest[..n - k]))
  {
    hide *;
    NonePageless(d, body);
    var pages := Pages(d, body);
    if n < |pages| {
      assert (pages + rest)[..n] == pages[..n];
      HearMessage(y, d, body, n);
    } else {
      HearMessage(y, d, body, |pages|);
      assert pages[..|pages|] == pages;
      assert (pages + rest)[..n] == pages + rest[..n - |pages|];
      HearAllAppend(y, d.dn, pages, rest[..n - |pages|]);
    }
  }

  lemma Prepends(rxMsgs: seq<Bytes>, msgs: seq<Sent>)
    requires msgs != []
    ensures rxMsgs + Bodies(msgs) == rxMsgs + [msgs[0].body] + Bodies(msgs[1..])
    ensures rxMsgs <= rxMsgs + Bodies(msgs)
  {
  }

  /** Hearing any first part of the stream yields a first part of the bodies, and hearing all of it
      all of them. */
  lemma {:induction false} HearStream(y: Yard, d: PageData, msgs: seq<Sent>, n: nat)
    requires y.books == [] && Template(d) && (forall i :: 0 <= i < |msgs| ==> IsId(msgs[i].bid))
    requires n <= |Stream(d, msgs)|
    ensures var (stream, y') := (Stream(d, msgs), HearAll(y, d.dn, Stream(d, msgs)[..n]));
            && y'.rxMsgs <= y.rxMsgs + Bodies(msgs)
            && (n == |stream| ==> y'.rxMsgs == y.rxMsgs + Bodies(msgs))
    decreases |msgs|
  {
    if msgs == [] {
      assert y.rxMsgs + Bodies(msgs) == y.rxMsgs;
    } else {
      var di, body := d.(bi := msgs[0].bid), msgs[0].body;
      TemplateWhole(d, msgs[0].bid);
      var pages, rest := Pages(di, body), Stream(d, msgs[1..]);
      assert Stream(d, msgs) == pages + rest;
      hide HearAll, Stream, Pages, Whole, Template, PlainData;
      HearFirst(y, di, body, rest, n);
      Prepends(y.rxMsgs, msgs);
      if n >= |pages| {
        HearStream(Yard(d.si, [], y.rxMsgs + [body]), d, msgs[1..], n - |pages|);
      }
    }
  }

  lemma NonePageless(d: PageData, body: Bytes)
    requires Whole(d)
    ensures Pages(d, body) != []
  {
    if |PackHead(d)| + |body| > UXD_MAX_PACKET_SIZE {
      Segmenting.CountBounds(|body|, SecSize(d));
    }
  }

  lemma {:induction false} StreamAppend(d: PageData, msgs: seq<Sent>, m: Sent)
    requires Template(d) && IsId(m.bid) && forall i :: 0 <= i < |msgs| ==> IsId(msgs[i].bid)
    ensures Whole(d.(bi := m.bid))
    ensures Stream(d, msgs + [m]) == Stream(d, msgs) + Pages(d.(bi := m.bid), m.body)
  {
    TemplateWhole(d, m.bid);
    var all := msgs + [m];
    if msgs == [] {
      assert all[1..] == [] && all[0] == m;
      assert Stream(d, all) == Pages(d.(bi := m.bid), m.body) + Stream(d, []);
    } else {
      TemplateWhole(d, msgs[0].bid);
      hide Pages, Template, Whole;
      assert all[1..] == msgs[1..] + [m] && all[0] == msgs[0];
      StreamAppend(d, msgs[1..], m);
    }
  }

  // ------------------------------------------------------------------ Whole runs

  /** A sending yard, its queue for all destinations, a socket that keeps datagram order, and the
      receiving yard. `msgs` remembers what message() has accepted for it and `heard` the
      datagrams it has taken. */
  datatype World = World(bid: nat, txes: seq<TxQueue.Tx>, wire: seq<Bytes>, yard: Yard,
                         msgs: seq<Sent>, heard: seq<Bytes>)

  /** Message a body to the yard, queue something for another destination, service the queue with
      sends that succeed or block, and take a datagram. */
  datatype Event = Message(body: Bytes) | Elsewhere(tx: TxQueue.Tx) | Service(plan: seq<TxQueue.Outcome>) | Take

  function Packets(raws: seq<Bytes>, ta: nat): (r: seq<TxQueue.Tx>)
    ensures |r| == |raws| && forall i :: 0 <= i < |r| ==> r[i] == TxQueue.Tx(raws[i], ta)
  {
    seq(|raws|, i requires 0 <= i < |raws| => TxQueue.Tx(raws[i], ta))
  }

  function Datagrams(txes: seq<TxQueue.Tx>): (r: seq<Bytes>)
    ensures |r| == |txes| && forall i :: 0 <= i < |r| ==> r[i] == txes[i].packed
  {
    seq(|txes|, i requires 0 <= i < |txes| => txes[i].packed)
  }

  ghost predicate Possible(w: World, d: PageData, ta: nat, e: Event) {
    match e
    case Message(_) => true
    case Elsewhere(t) => t.ta != ta
    case Service(plan) => !TxQueue.Service(w.txes, plan, []).raised
    case Take => w.wire != []
  }

  function Happen(w: World, d: PageData, ta: nat, e: Event): (w': World)
    requires Template(d) && IsId(w.bid) && (e.Take? ==> w.wire != [])
    ensures IsId(w'.bid)
  {
    match e
    case Message(body) =>
      var bid := Next(w.bid);
      TemplateWhole(d, bid);
      var w := w.(bid := bid, txes := w.txes + Packets(Queued(d.(bi := bid), body), ta));
      if |body| <= MAX_MESSAGE_SIZE then w.(msgs := w.msgs + [Sent(bid, body)]) else w
    case Elsewhere(t) => w.(txes := w.txes + [t])
    case Service(plan) =>
      var r := TxQueue.Service(w.txes, plan, []);
      w.(txes := r.Queue(), wire := w.wire + Datagrams(TxQueue.To(r.sent, ta)))
    case Take =>
      w.(wire := w.wire[1..], yard := Hear(w.yard, d.dn, w.wire[0]), heard := w.heard + [w.wire[0]])
  }

  /** Nothing is lost on the way: the pages taken, those on the socket and those still queued are
      together the pages of the messages accepted, in order. */
  ghost predicate Sound(w: World, d: PageData, ta: nat, start: Yard) {
    && Template(d) && IsId(w.bid) && (forall i :: 0 <= i < |w.msgs| ==> IsId(w.msgs[i].bid))
    && w.yard == HearAll(start, d.dn, w.heard)
    && w.heard + w.wire + Datagrams(TxQueue.To(w.txes, ta)) == Stream(d, w.msgs)
  }

  lemma {:induction false} ToAppends(a: seq<TxQueue.Tx>, b: seq<TxQueue.Tx>, ta: nat)
    ensures TxQueue.To(a + b, ta) == TxQueue.To(a, ta) + TxQueue.To(b, ta)
  {
    if a == [] {
      assert a + b == b;
    } else {
      assert a + b == [a[0]] + (a[1..] + b) && a == [a[0]] + a[1..];
      TxQueue.ToCons(a[0], a[1..] + b, ta);
      TxQueue.ToCons(a[0], a[1..], ta);
      ToAppends(a[1..], b, ta);
    }
  }

  lemma {:induction false} ToPackets(raws: seq<Bytes>, ta: nat)
    ensures TxQueue.To(Packets(raws, ta), ta) == Packets(raws, ta)
  {
    if raws != [] {
      assert Packets(raws, ta) == [TxQueue.Tx(raws[0], ta)] + Packets(raws[1..], ta);
      TxQueue.ToCons(TxQueue.Tx(raws[0], ta), Packets(raws[1..], ta), ta);
      ToPackets(raws[1..], ta);
    }
  }

  lemma Accepted(d: PageData, msgs: seq<Sent>, bid: nat, body: Bytes)
    requires Template(d) && IsId(bid) && forall i :: 0 <= i < |msgs| ==> IsId(msgs[i].bid)
    ensures Stream(d, if |body| <= MAX_MESSAGE_SIZE then msgs + [Sent(bid, body)] else msgs)
            == Stream(d, msgs) + Queued(d.(bi := bid), body)
  {
    TemplateWhole(d, bid);
    StreamAppend(d, msgs, Sent(bid, body));
    hide Pages, Template, Whole, Stream, PlainData;
  }

  lemma MessageKeeps(w: World, d: PageData, ta: nat, start: Yard, body: Bytes)
    requires Sound(w, d, ta, start)
    ensures Sound(Happen(w, d, ta, Message(body)), d, ta, start)
  {
    var bid := Next(w.bid);
    assert IsId(bid);
    hide Pages, Template, Whole, Stream, HearAll, TxQueue.To, PlainData, Queued, IsId, Next;
    Accepted(d, w.msgs, bid, body);
    var raws := Queued(d.(bi := bid), body);
    QueueGrows(w.txes, raws, ta);
    Assoc(w.heard + w.wire, Datagrams(TxQueue.To(w.txes, ta)), raws);
  }

  lemma Assoc(a: seq<Bytes>, b: seq<Bytes>, c: seq<Bytes>)
    ensures a + (b + c) == a + b + c
  {
  }

  lemma QueueGrows(txes: seq<TxQueue.Tx>, raws: seq<Bytes>, ta: nat)
    ensures Datagrams(TxQueue.To(txes + Packets(raws, ta), ta)) == Datagrams(TxQueue.To(txes, ta)) + raws
  {
    ToAppends(txes, Packets(raws, ta), ta);
    ToPackets(raws, ta);
    hide *;
    var before := TxQueue.To(txes, ta);
    assert Datagrams(before + Packets(raws, ta)) == Datagrams(before) + raws;
  }

  lemma ElsewhereKeeps(w: World, d: PageData, ta: nat, start: Yard, t: TxQueue.Tx)
    requires Sound(w, d, ta, start) && t.ta != ta
    ensures Sound(Happen(w, d, ta, Elsewhere(t)), d, ta, start)
  {
    TxQueue.ToAppend(w.txes, t, ta);
    hide Template, Stream, HearAll, TxQueue.To;
    assert TxQueue.To(w.txes, ta) + [] == TxQueue.To(w.txes, ta);
  }

  lemma Regroup(heard: seq<Bytes>, wire: seq<Bytes>, sent: seq<TxQueue.Tx>, kept: seq<TxQueue.Tx>)
    ensures heard + (wire + Datagrams(sent)) + Datagrams(kept) == heard + wire + Datagrams(sent + kept)
  {
    assert Datagrams(sent + kept) == Datagrams(sent) + Datagrams(kept);
  }

  lemma ServiceKeeps(w: World, d: PageData, ta: nat, start: Yard, plan: seq<TxQueue.Outcome>)
    requires Sound(w, d, ta, start) && !TxQueue.Service(w.txes, plan, []).raised
    ensures Sound(Happen(w, d, ta, Service(plan)), d, ta, start)
  {
    var r := TxQueue.Service(w.txes, plan, []);
    TxQueue.ServiceIsFifoExactly(w.txes, plan);
    hide Template, Stream, HearAll, TxQueue.To, TxQueue.Service;
    var sent, kept := TxQueue.To(r.sent, ta), TxQueue.To(r.Queue(), ta);
    assert sent + kept == TxQueue.To(w.txes, ta);
    Regroup(w.heard, w.wire, sent, kept);
    hide Datagrams;
  }

  lemma MovesOn(heard: seq<Bytes>, wire: seq<Bytes>, queued: seq<Bytes>)
    requires wire != []
    ensures heard + [wire[0]] + wire[1..] + queued == heard + wire + queued
  {
    assert heard + [wire[0]] + wire[1..] == heard + wire;
  }

  lemma HearOne(y: Yard, name: string, raw: Bytes)
    ensures HearAll(y, name, [raw]) == Hear(y, name, raw)
  {
    assert [raw][0] == raw && [raw][1..] == [];
    hide Hear;
  }

  lemma TakeKeeps(w: World, d: PageData, ta: nat, start: Yard)
    requires Sound(w, d, ta, start) && w.wire != []
    ensures Sound(Happen(w, d, ta, Take), d, ta, start)
  {
    var raw := w.wire[0];
    HearAllAppend(start, d.dn, w.heard, [raw]);
    HearOne(w.yard, d.dn, raw);
    hide Template, Stream, HearAll, Hear, TxQueue.To, Datagrams, IsId;
    MovesOn(w.heard, w.wire, Datagrams(TxQueue.To(w.txes, ta)));
  }

  lemma HappenKeeps(w: World, d: PageData, ta: nat, start: Yard, e: Event)
    requires Sound(w, d, ta, start) && Possible(w, d, ta, e)
    ensures Sound(Happen(w, d, ta, e), d, ta, start)
  {
    hide Sound;
    match e
    case Message(body) => MessageKeeps(w, d, ta, start, body);
    case Elsewhere(t) => ElsewhereKeeps(w, d, ta, start, t);
    case Service(plan) => ServiceKeeps(w, d, ta, start, plan);
    case Take => TakeKeeps(w, d, ta, start);
  }

  ghost predicate Unfolds(w: World, d: PageData, ta: nat, events: seq<Event>, w': World)
    requires Template(d) && IsId(w.bid)
    decreases |events|
  {
    if events == [] then w' == w
    else Possible(w, d, ta, events[0]) && Unfolds(Happen(w, d, ta, events[0]), d, ta, events[1..], w')
  }

  lemma {:induction false} UnfoldsSound(w: World, d: PageData, ta: nat, start: Yard, events: seq<Event>, w': World)
    requires Sound(w, d, ta, start) && IsId(w.bid) && Unfolds(w, d, ta, events, w')
    ensures Sound(w', d, ta, start)
    decreases |events|
  {
    if events != [] {
      HappenKeeps(w, d, ta, start, events[0]);
      UnfoldsSound(Happen(w, d, ta, events[0]), d, ta, start, events[1..], w');
    }
  }

  /** In-order delivery. In every run the bodies a yard has received are a first part of those the
      sender's message() accepted, across any mix of short and paginated messages, of blocked sends
      and of traffic for other destinations; and all of them once nothing is queued or in flight. */
  lemma PrefixDelivery(d: PageData, ta: nat, bid: nat, start: Yard, events: seq<Event>, w: World)
    requires Template(d) && IsId(bid) && start.books == [] && start.rxMsgs == []
    requires Unfolds(World(bid, [], [], start, [], []), d, ta, events, w)
    ensures w.yard.rxMsgs <= Bodies(w.msgs)
    ensures w.wire == [] && TxQueue.To(w.txes, ta) == [] ==> w.yard.rxMsgs == Bodies(w.msgs)
  {
    UnfoldsSound(World(bid, [], [], start, [], []), d, ta, start, events, w);
    hide Template, HearAll, Stream;
    var left := Datagrams(TxQueue.To(w.txes, ta));
    Assoc(w.heard, w.wire, left);
    Front(w.heard, w.wire + left);
    HearStream(start, d, w.msgs, |w.heard|);
    assert start.rxMsgs + Bodies(w.msgs) == Bodies(w.msgs);
  }

  lemma Front(a: seq<Bytes>, b: seq<Bytes>)
    ensures (a + b)[..|a|] == a && (b == [] ==> a + b == a)
  {
  }

  // -------------------------------------------------------------- Session changes

  /** Whatever datagrams come, all books in progress are of the session the last page came from. */
  lemma {:induction false} OnlyPresentBooks(y: Yard, name: string, raws: seq<Bytes>)
    requires Proper(y.books) && forall e :: e in y.books ==> e.0.si == y.rsid
    ensures var y' := HearAll(y, name, raws); Proper(y'.books) && forall e :: e in y'.books ==> e.0.si == y'.rsid
    decreases |raws|
  {
    if raws != [] {
      var page := ParsePage(raws[0]);
      if page.Some? {
        var d, body := page.value.0, page.value.1;
        CurrentIs(y.books, d.si);
        AcceptPresent(if d.si != y.rsid then Yard(d.si, Current(y.books, d.si), y.rxMsgs) else y, d, body);
      }
      hide ParsePage, Accept, Current;
      OnlyPresentBooks(Hear(y, name, raws[0]), name, raws[1..]);
    }
  }

  lemma AcceptPresent(y: Yard, d: PageData, body: Bytes)
    requires Proper(y.books) && d.si == y.rsid && forall e :: e in y.books ==> e.0.si == y.rsid
    ensures var y' := Accept(y, d, body);
            y'.rsid == y.rsid && Proper(y'.books) && forall e :: e in y'.books ==> e.0.si == y.rsid
  {
    var k := KeyOf(d);
    var found := Get(y.books, k);
    DeleteIs(y.books, k);
    PutIs(y.books, k, AddSection(if found.Some? then found.value else [], d, body));
    hide AddSection;
  }
}
