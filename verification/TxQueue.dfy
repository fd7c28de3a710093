/** The transmit queue of a stack: raet/stacking.py, _handleOneTx, serviceTxes and serviceTxOnce. */
module TxQueue {
  import opened Basics

  type Address = nat

  datatype Tx = Tx(packed: Bytes, ta: Address)

  /** How server.send ends: the datagram is sent, the socket says to try again later, or it raises
      any other error. */
  datatype Outcome = Sent | Blocked | Raised

  /** A socket. `plan` is how its next sends will end; after those it just sends. */
  class Server {
    var plan: seq<Outcome>
    var sent: seq<Tx>

    constructor (plan: seq<Outcome>)
      ensures this.plan == plan && sent == []
    {
      this.plan, sent := plan, [];
    }

    method Send(t: Tx) returns (o: Outcome)
      modifies this
      ensures o == First(old(plan)) && plan == Rest(old(plan))
      ensures sent == if o == Sent then old(sent) + [t] else old(sent)
    {
      o := First(plan);
      plan := Rest(plan);
      if o == Sent {
        sent := sent + [t];
      }
    }
  }

  function First(plan: seq<Outcome>): Outcome { if plan == [] then Sent else plan[0] }

  function Rest(plan: seq<Outcome>): seq<Outcome> { if plan == [] then [] else plan[1..] }

  /** What servicing does with a queue: packets sent, packets kept for later, whether a send
      raised, and then what was not reached. */
  datatype Serviced = Serviced(sent: seq<Tx>, laters: seq<Tx>, raised: bool, unreached: seq<Tx>)
  {
    /** The queue afterwards. An exception loses the packet it is about and the laters. */
    function Queue(): seq<Tx> { if raised then unreached else laters }
  }

  function Service(txes: seq<Tx>, plan: seq<Outcome>, blocks: seq<Address>): Serviced
    decreases |txes|
  {
    if txes == [] then Serviced([], [], false, [])
    else if txes[0].ta in blocks then Later(txes[0], Service(txes[1..], plan, blocks))
    else
      match First(plan)
      case Sent =>
        var r := Service(txes[1..], Rest(plan), blocks);
        r.(sent := [txes[0]] + r.sent)
      case Blocked => Later(txes[0], Service(txes[1..], Rest(plan), blocks + [txes[0].ta]))
      case Raised => Serviced([], [], true, txes[1..])
  }

  function Later(t: Tx, r: Serviced): Serviced { r.(laters := [t] + r.laters) }

  class Stack {
    var txes: seq<Tx>
    const server: Server

    constructor (server: Server)
      ensures this.server == server && txes == []
    {
      this.server, txes := server, [];
    }

    /** _handleOneTx. `laters` and `blocks` are the caller's deque and list. */
    method HandleOneTx(laters: seq<Tx>, blocks: seq<Address>)
      returns (laters': seq<Tx>, blocks': seq<Address>, raised: bool)
      requires txes != []
      modifies this, server
      ensures txes == old(txes)[1..]
      ensures old(txes)[0].ta in blocks ==>
                !raised && laters' == laters + [old(txes)[0]] && blocks' == blocks && unchanged(server)
      ensures old(txes)[0].ta !in blocks ==>
                && server.plan == Rest(old(server.plan))
                && server.sent == old(server.sent) + (if First(old(server.plan)) == Sent then [old(txes)[0]] else [])
                && (raised <==> First(old(server.plan)) == Raised)
                && (if First(old(server.plan)) == Blocked
                    then laters' == laters + [old(txes)[0]] && blocks' == blocks + [old(txes)[0].ta]
                    else laters' == laters && blocks' == blocks)
    {
      var t := txes[0];
      txes := txes[1..];
      laters', blocks', raised := laters, blocks, false;
      if t.ta in blocks {
        laters' := laters' + [t];
        return;
      }
      var o := server.Send(t);
      match o {
        case Sent =>
        case Blocked => laters', blocks' := laters' + [t], blocks' + [t.ta];
        case Raised => raised := true;
      }
    }

    method ServiceTxes() returns (raised: bool)
      modifies this, server
      ensures var r := Service(old(txes), old(server.plan), []);
              raised == r.raised && txes == r.Queue() && server.sent == old(server.sent) + r.sent
    {
      hide Service, First, Rest;
      var laters: seq<Tx>, blocks: seq<Address> := [], [];
      raised := false;
      ghost var whole := Service(txes, server.plan, []);
      ghost var rest := whole;
      while txes != []
        invariant rest == Service(txes, server.plan, blocks)
        invariant whole.raised == rest.raised && whole.unreached == rest.unreached
        invariant whole.laters == laters + rest.laters
        invariant old(server.sent) + whole.sent == server.sent + rest.sent
        decreases |txes|
      {
        ServiceEnds(txes, server.plan, blocks);
        ghost var t := txes[0];
        ghost var (plan', after, goes) := Taken(t, server.plan, blocks);
        ghost var next := Service(txes[1..], plan', after);
        if t.ta in blocks || First(server.plan) != Raised {
          ServiceStep(txes, server.plan, blocks);
          Shift(laters, t, next.laters);
          Shift(server.sent, t, next.sent);
        }
        laters, blocks, raised := HandleOneTx(laters, blocks);
        if raised {
          return;
        }
        rest := next;
      }
      ServiceEnds(txes, server.plan, blocks);
      Requeue(laters);
    }

    /** The loop that puts what is kept back on the queue. */
    method Requeue(kept: seq<Tx>)
      modifies this`txes
      ensures txes == old(txes) + kept
    {
      var laters := kept;
      while laters != []
        invariant txes + laters == old(txes) + kept
        decreases |laters|
      {
        txes, laters := txes + [laters[0]], laters[1..];
      }
    }

    method ServiceTxOnce() returns (raised: bool)
      modifies this, server
      ensures var r := Once(old(txes), old(server.plan));
              raised == r.raised && txes == r.Queue() && server.sent == old(server.sent) + r.sent
    {
      raised := false;
      var laters: seq<Tx> := [];
      if txes != [] {
        var blocks;
        laters, blocks, raised := HandleOneTx(laters, []);
        if raised {
          return;
        }
      }
      Requeue(laters);
    }
  }

  /** serviceTxOnce: a blocked packet goes to the back. */
  function Once(txes: seq<Tx>, plan: seq<Outcome>): Serviced {
    if txes == [] then Serviced([], [], false, [])
    else
      match First(plan)
      case Sent => Serviced([txes[0]], txes[1..], false, [])
      case Blocked => Serviced([], txes[1..] + [txes[0]], false, [])
      case Raised => Serviced([], [], true, txes[1..])
  }

  // ------------------------------------------------------------- What it means

  /** The packets to one destination. */
  function To(txes: seq<Tx>, d: Address): seq<Tx> {
    if txes == [] then [] else (if txes[0].ta == d then [txes[0]] else []) + To(txes[1..], d)
  }

  lemma ToCons(t: Tx, txes: seq<Tx>, d: Address)
    ensures To([t] + txes, d) == (if t.ta == d then [t] else []) + To(txes, d)
  {
    assert ([t] + txes)[1..] == txes;
  }

  /** Some of the packets, in their order. */
  ghost predicate Subsequence(a: seq<Tx>, b: seq<Tx>)
    decreases |b|
  {
    a == [] || (b != [] && ((a[0] == b[0] && Subsequence(a[1..], b[1..])) || Subsequence(a, b[1..])))
  }

  /** No destination's packets are lost, repeated or reordered. */
  ghost predicate Fifo(txes: seq<Tx>, r: Serviced) {
    forall d :: To(r.sent, d) + To(r.Queue(), d) == To(txes, d)
  }

  /** Plan and blocks after the first packet of a queue, and whether it is sent. */
  function Taken(t: Tx, plan: seq<Outcome>, blocks: seq<Address>): (seq<Outcome>, seq<Address>, bool) {
    if t.ta in blocks then (plan, blocks, false)
    else (Rest(plan), if First(plan) == Blocked then blocks + [t.ta] else blocks, First(plan) == Sent)
  }

  lemma Shift(a: seq<Tx>, t: Tx, b: seq<Tx>)
    ensures a + ([t] + b) == a + [t] + b && a + ([] + b) == a + b
  {
  }

  lemma ServiceEnds(txes: seq<Tx>, plan: seq<Outcome>, blocks: seq<Address>)
    ensures txes == [] ==> Service(txes, plan, blocks) == Serviced([], [], false, [])
    ensures txes != [] && txes[0].ta !in blocks && First(plan) == Raised ==>
              Service(txes, plan, blocks) == Serviced([], [], true, txes[1..])
  {
  }

  lemma ServiceStep(txes: seq<Tx>, plan: seq<Outcome>, blocks: seq<Address>)
    requires txes != [] && (txes[0].ta in blocks || First(plan) != Raised)
    ensures var (plan', blocks', goes) := Taken(txes[0], plan, blocks);
            var (r, r') := (Service(txes, plan, blocks), Service(txes[1..], plan', blocks'));
            && r.sent == (if goes then [txes[0]] else []) + r'.sent
            && r.laters == (if goes then [] else [txes[0]]) + r'.laters
            && r.raised == r'.raised && r.unreached == r'.unreached
  {
  }

  /** One packet more in front, sent or kept. */
  lemma InFront(t: Tx, goes: bool, sent: seq<Tx>, kept: seq<Tx>, rest: seq<Tx>, d: Address)
    requires To(sent, d) + To(kept, d) == To(rest, d)
    requires t.ta == d && !goes ==> To(sent, d) == []
    ensures var sent', kept' := (if goes then [t] else []) + sent, (if goes then [] else [t]) + kept;
            && To(sent', d) + To(kept', d) == To([t] + rest, d)
            && (To(sent, d) == [] && (goes ==> t.ta != d) ==> To(sent', d) == [])
  {
    ToCons(t, rest, d);
    ToCons(t, sent, d);
    ToCons(t, kept, d);
    hide *;
    assert [] + sent == sent && [] + kept == kept;
    var a, b, first := To(sent, d), To(kept, d), if t.ta == d then [t] else [];
    assert To([t] + rest, d) == first + (a + b);
    if goes {
      assert To([t] + sent, d) == first + a;
      assert first + a + b == first + (a + b);
    } else {
      assert To([t] + kept, d) == first + b;
      assert a == [] || first == [];
      assert a + (first + b) == first + (a + b);
    }
  }

  /** The packets to one destination, sent ones before kept ones; all kept once it has blocked. */
  lemma {:induction false} Keeps(txes: seq<Tx>, plan: seq<Outcome>, blocks: seq<Address>, d: Address)
    requires !Service(txes, plan, blocks).raised
    ensures var r := Service(txes, plan, blocks);
            && To(r.sent, d) + To(r.laters, d) == To(txes, d)
            && (d in blocks ==> To(r.sent, d) == [])
    decreases |txes|
  {
    if txes != [] {
      var t := txes[0];
      var (plan', blocks', goes) := Taken(t, plan, blocks);
      ServiceStep(txes, plan, blocks);
      assert d in blocks ==> d in blocks' && (goes ==> t.ta != d);
      assert t.ta == d && !goes ==> d in blocks';
      assert txes == [t] + txes[1..];
      hide *;
      var r := Service(txes[1..], plan', blocks');
      Keeps(txes[1..], plan', blocks', d);
      InFront(t, goes, r.sent, r.laters, txes[1..], d);
    }
  }

  lemma OneLonger(t: Tx, a: seq<Tx>, b: seq<Tx>)
    requires Subsequence(a, b)
    ensures Subsequence(a, [t] + b) && Subsequence([t] + a, [t] + b)
  {
    assert ([t] + a)[1..] == a && ([t] + b)[1..] == b;
  }

  lemma {:induction false} InOrder(txes: seq<Tx>, plan: seq<Outcome>, blocks: seq<Address>)
    ensures var r := Service(txes, plan, blocks);
            Subsequence(r.sent, txes) && Subsequence(r.Queue(), txes)
    decreases |txes|
  {
    if txes != [] {
      var t := txes[0];
      assert txes == [t] + txes[1..];
      Itself(txes[1..]);
      OneLonger(t, txes[1..], txes[1..]);
      if t.ta in blocks || First(plan) != Raised {
        var (plan', blocks', goes) := Taken(t, plan, blocks);
        var r := Service(txes[1..], plan', blocks');
        ServiceStep(txes, plan, blocks);
        InOrder(txes[1..], plan', blocks');
        hide Service, Subsequence;
        OneLonger(t, r.sent, txes[1..]);
        OneLonger(t, r.Queue(), txes[1..]);
      }
    }
  }

  lemma {:induction false} Conserves(txes: seq<Tx>, plan: seq<Outcome>, blocks: seq<Address>)
    requires !Service(txes, plan, blocks).raised
    ensures var r := Service(txes, plan, blocks); multiset(r.sent) + multiset(r.laters) == multiset(txes)
    decreases |txes|
  {
    if txes != [] {
      var (plan', blocks', goes) := Taken(txes[0], plan, blocks);
      ServiceStep(txes, plan, blocks);
      assert txes == [txes[0]] + txes[1..];
      hide *;
      Conserves(txes[1..], plan', blocks');
    }
  }

  lemma {:induction false} Itself(a: seq<Tx>)
    ensures Subsequence(a, a)
  {
    if a != [] { Itself(a[1..]); }
  }

  /** An exception loses at least the packet it is about. */
  lemma {:induction false} Loses(txes: seq<Tx>, plan: seq<Outcome>, blocks: seq<Address>) returns (d: Address)
    requires Service(txes, plan, blocks).raised
    ensures var r := Service(txes, plan, blocks);
            |To(r.sent, d)| + |To(r.unreached, d)| < |To(txes, d)|
    decreases |txes|
  {
    var t := txes[0];
    assert txes == [t] + txes[1..];
    if t.ta !in blocks && First(plan) == Raised {
      d := t.ta;
    } else {
      var (plan', blocks', goes) := Taken(t, plan, blocks);
      ServiceStep(txes, plan, blocks);
      hide Service;
      d := Loses(txes[1..], plan', blocks');
      ToCons(t, Service(txes[1..], plan', blocks').sent, d);
    }
    ToCons(t, txes[1..], d);
  }

  /** For every pattern of send outcomes, serviceTxes keeps every destination's packets in order
      without loss, exactly if no send raises; and what it leaves is in the old order. */
  lemma ServiceIsFifoExactly(txes: seq<Tx>, plan: seq<Outcome>)
    ensures var r := Service(txes, plan, []);
            && (Fifo(txes, r) <==> !r.raised)
            && Subsequence(r.Queue(), txes) && Subsequence(r.sent, txes)
            && (!r.raised ==> multiset(r.sent) + multiset(r.Queue()) == multiset(txes))
  {
    var r := Service(txes, plan, []);
    InOrder(txes, plan, []);
    if r.raised {
      var d := Loses(txes, plan, []);
      assert |To(r.sent, d) + To(r.Queue(), d)| < |To(txes, d)|;
    } else {
      Conserves(txes, plan, []);
      forall d ensures To(r.sent, d) + To(r.Queue(), d) == To(txes, d) {
        Keeps(txes, plan, [], d);
      }
    }
  }

  /** Moving the first to the back changes nothing exactly if all are alike. */
  lemma {:induction false} RotateSame(x: Tx, s: seq<Tx>)
    ensures s + [x] == [x] + s <==> forall i :: 0 <= i < |s| ==> s[i] == x
  {
    if s + [x] == [x] + s && s != [] {
      assert s[0] == (s + [x])[0] == ([x] + s)[0] == x;
      assert s[1..] + [x] == (s + [x])[1..] == ([x] + s)[1..] == s == [x] + s[1..];
      RotateSame(x, s[1..]);
      assert forall i :: 0 < i < |s| ==> s[i] == s[1..][i - 1];
    }
  }

  lemma {:induction false} ToAppend(a: seq<Tx>, t: Tx, d: Address)
    ensures To(a + [t], d) == To(a, d) + if t.ta == d then [t] else []
  {
    if a == [] {
      assert a + [t] == [t] + [];
      ToCons(t, [], d);
    } else {
      assert a + [t] == [a[0]] + (a[1..] + [t]) && a == [a[0]] + a[1..];
      ToAppend(a[1..], t, d);
      ToCons(a[0], a[1..] + [t], d);
      ToCons(a[0], a[1..], d);
    }
  }

  /** serviceTxOnce does not: it keeps every destination's order exactly if the send succeeds, or
      it blocks and every other packet waiting for that destination is the same packet. */
  lemma OnceIsFifoExactly(txes: seq<Tx>, plan: seq<Outcome>)
    requires txes != []
    ensures Fifo(txes, Once(txes, plan)) <==>
              || First(plan) == Sent
              || (First(plan) == Blocked &&
                    var others := To(txes[1..], txes[0].ta); forall i :: 0 <= i < |others| ==> others[i] == txes[0])
  {
    var t, rest := txes[0], txes[1..];
    var r := Once(txes, plan);
    assert txes == [t] + rest;
    forall d
      ensures To(txes, d) == (if t.ta == d then [t] else []) + To(rest, d)
      ensures To(rest + [t], d) == To(rest, d) + (if t.ta == d then [t] else [])
      ensures To([t], d) == if t.ta == d then [t] else []
    {
      ToCons(t, rest, d);
      ToAppend(rest, t, d);
      assert [t] == [t] + [];
      ToCons(t, [], d);
    }
    RotateSame(t, To(rest, t.ta));
    match First(plan) {
      case Sent =>
      case Blocked =>
        assert forall d :: d != t.ta ==> To(r.Queue(), d) == To(txes, d);
        assert To(r.sent, t.ta) + To(r.Queue(), t.ta) == To(rest, t.ta) + [t];
      case Raised =>
        assert |To(r.sent, t.ta) + To(r.Queue(), t.ta)| < |To(txes, t.ta)|;
    }
  }
}
