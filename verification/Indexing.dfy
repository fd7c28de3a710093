/** How packets find their transaction: TxPacket.index and RxPacket.index of
    raet/road/packeting.py against the head data each kind of transaction sends. */
module Indexing {

  datatype Address = Address(host: string, port: nat)

  /** The remote end of a transaction: its uid, or its address while it has none. */
  datatype Far = Uid(uid: nat) | At(ha: Address)

  datatype Index = Index(rf: bool, le: nat, re: Far, si: nat, ti: nat, bf: bool)

  /** The entries of a packet's .data that make its index. The addresses (sh, sp) and (dh, dp)
      are not sent: a receiver sets the first from the socket. */
  datatype Data = Data(se: nat, de: nat, cf: bool, bf: bool, si: nat, ti: nat, sa: Address, da: Address)

  function TxIndex(d: Data): Index {
    var re := if (d.de == 0 && !d.cf) || (d.se == 0 && d.cf) then At(d.da) else Uid(d.de);
    Index(d.cf, d.se, re, d.si, d.ti, d.bf)
  }

  function RxIndex(d: Data): Index {
    var re := if (d.se == 0 && d.cf) || (d.de == 0 && !d.cf) then At(d.sa) else Uid(d.se);
    Index(!d.cf, d.de, re, d.si, d.ti, d.bf)
  }

  /** A packet sent from an address, as its receiver sees it. */
  function Arrived(d: Data, source: Address, any: Address): Data { d.(sa := source, da := any) }

  // --------------------------------------------------------------------- Joins

  /** Joiner.prep: fuid is 0 in a vacuous join. A Joiner sends every packet with these data. */
  function JoinerData(nuid: nat, fuid: nat, ha: Address, bf: bool, tid: nat, any: Address): Data {
    Data(nuid, fuid, false, bf, 0, tid, any, ha)
  }

  /** Joinent.prep, and Stalent.prep likewise: the reversed ids of the packet received. */
  function ReplyData(rx: Data, any: Address): Data {
    Data(rx.de, rx.se, true, rx.bf, rx.si, rx.ti, any, rx.sa)
  }

  /** A Joinent's reply reaches the transaction that the Joiner registered under its request's
      TxPacket.index: always in a non-vacuous join, and in a vacuous one exactly if the reply comes
      from the address the request went to. */
  lemma JoinReplyReturns(nuid: nat, fuid: nat, ha: Address, bf: bool, tid: nat,
                         here: Address, there: Address, any: Address)
    requires nuid != 0
    ensures var request := JoinerData(nuid, fuid, ha, bf, tid, any);
            var reply := ReplyData(Arrived(request, here, any), any);
            RxIndex(Arrived(reply, there, any)) == TxIndex(request) <==> fuid != 0 || there == ha
  {
  }

  /** What the Joiner sends later reaches the transaction the Joinent registered under the
      request's RxPacket.index: in a vacuous join exactly if it still comes from the same address.
      And the Joinent finds itself again by its own packet's TxPacket.index. */
  lemma JoinFollowUpArrives(nuid: nat, fuid: nat, ha: Address, bf: bool, tid: nat,
                            here: Address, later: Address, any: Address)
    ensures var sent := JoinerData(nuid, fuid, ha, bf, tid, any);
            var registered := RxIndex(Arrived(sent, here, any));
            && (RxIndex(Arrived(sent, later, any)) == registered <==> fuid != 0 || later == here)
            && (nuid != 0 ==> TxIndex(ReplyData(Arrived(sent, here, any), any)) == registered)
  {
  }

  // ------------------------------------------------------------ All other kinds

  /** A remote as one side knows it. */
  datatype Remote = Remote(nuid: nat, fuid: nat, ha: Address)

  /** What a join leaves: each side's near uid is the other's far uid. */
  predicate Joined(a: Remote, b: Remote) {
    a.nuid == b.fuid != 0 && a.fuid == b.nuid != 0
  }

  /** Transaction.index */
  function OwnIndex(r: Remote, rmt: bool, sid: nat, tid: nat, bf: bool): Index {
    Index(rmt, r.nuid, Uid(r.fuid), sid, tid, bf)
  }

  /** prep of Allower, Aliver and Messenger, and of their correspondents. */
  function PrepData(r: Remote, rmt: bool, sid: nat, tid: nat, bf: bool, any: Address): Data {
    Data(r.nuid, r.fuid, rmt, bf, sid, tid, any, r.ha)
  }

  /** Staler.prep, for a correspondent's packet whose transaction is gone. */
  function StalerData(r: Remote, rx: Data, bf: bool, any: Address): Data {
    Data(r.nuid, rx.se, false, bf, rx.si, rx.ti, any, rx.sa)
  }

  /** Between joined remotes every packet arrives under the other side's own index, whichever side
      sent it and from whatever address; so do the stale nacks of either side. */
  lemma OthersFindEachOther(a: Remote, b: Remote, rmt: bool, sid: nat, tid: nat, bf: bool,
                            source: Address, any: Address)
    requires Joined(a, b)
    ensures var sent := Arrived(PrepData(a, rmt, sid, tid, bf, any), source, any);
            && RxIndex(sent) == OwnIndex(b, !rmt, sid, tid, bf)
            && TxIndex(PrepData(a, rmt, sid, tid, bf, any)) == OwnIndex(a, rmt, sid, tid, bf)
            && (!rmt ==> RxIndex(Arrived(ReplyData(sent, any), source, any)) == OwnIndex(a, false, sid, tid, bf))
            && (rmt ==> RxIndex(Arrived(StalerData(b, sent, bf, any), source, any)) == OwnIndex(a, true, sid, tid, bf))
  {
  }

  /** No reply is taken for another transaction's: the index it arrives under tells all
      transactions of one side apart. */
  lemma NoMisrouting(d1: Data, d2: Data, source: Address, any: Address)
    requires !d1.cf && !d2.cf
    requires RxIndex(Arrived(ReplyData(d1, any), source, any)) == TxIndex(d2)
    ensures d1.si == d2.si && d1.ti == d2.ti && d1.bf == d2.bf && d1.se == d2.se
    ensures d1.de == d2.de || (d1.de == 0 && d2.da == source)
  {
  }

  /** The index property, which reads the remote's ids, would lose a vacuous Joiner: accept has set
      the remote's far uid by the time the transaction is removed, and the entry is filed under an
      address. */
  lemma OwnIndexLosesVacuousJoiner(nuid: nat, fuid: nat, ha: Address, bf: bool, tid: nat, any: Address)
    ensures OwnIndex(Remote(nuid, fuid, ha), false, 0, tid, bf) != TxIndex(JoinerData(nuid, 0, ha, bf, tid, any))
  {
  }
}
