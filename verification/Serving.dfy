/** A Messengent that is fed with packets of one message: it delivers that message or nothing. */
module Serving {
  import opened Basics
  import opened Sessions
  import M = Messaging
  import R = Reassembly
  import T = Traying

  /** How a sender cuts a message into its chunks. */
  ghost predicate Cutting(cut: Bytes -> seq<Bytes>) {
    forall body: Bytes :: cut(body) != [] && Join(cut(body)) == body
  }

  /** A packet of a message cut into these chunks, whatever its flags. */
  predicate Part(p: T.Packet, chunks: seq<Bytes>) {
    p.sn < |chunks| && p.sc == |chunks| && p.ml == T.MessageLength(chunks) && p.segment == chunks[p.sn]
  }

  /** The tray holds some of its segments, and not all. */
  ghost predicate Fits(t: T.Tray, chunks: seq<Bytes>) {
    exists have :: R.Holding(t, chunks, have) && (|chunks| == 1 ==> have == {})
  }

  lemma NewFits(chunks: seq<Bytes>)
    requires chunks != []
    ensures Fits(T.NEW_TRAY, chunks)
  {
    assert R.Holding(T.NEW_TRAY, chunks, {});
  }

  lemma CollectFits(t: T.Tray, chunks: seq<Bytes>, p: T.Packet)
    requires chunks != [] && Fits(t, chunks) && Part(p, chunks)
    ensures var (t', o) := T.Collect(t, p);
            !t.complete && o == T.Parsed && if t'.complete then t'.body == Join(chunks) else Fits(t', chunks)
  {
    var have :| R.Holding(t, chunks, have) && (|chunks| == 1 ==> have == {});
    if |chunks| > 1 {
      assert R.Carries([p], chunks);
      R.OneMore(t, chunks, have, p);
      hide T.Collect, R.Holding, Join;
    } else {
      assert Join(chunks) == chunks[0] + Join(chunks[1..]);
    }
  }

  /** What a step of the message protocol leaves of a transaction of that message. */
  ghost predicate Serves(r: M.Receiver, chunks: seq<Bytes>) {
    && (r.rxMsgs == [] || r.rxMsgs == [Join(chunks)])
    && (r.live.Some? ==> Fits(r.live.value.tray, chunks))
  }

  lemma AcceptServes(r: M.Receiver, m: M.Messengent, p: T.Packet, chunks: seq<Bytes>)
    requires chunks != [] && Serves(r, chunks) && r.rxMsgs == [] && Fits(m.tray, chunks) && Part(p, chunks)
    ensures Serves(M.Accept(r, m, p).0, chunks)
  {
    CollectFits(m.tray, chunks, p);
    hide T.Collect, Fits, Join, M.Requests, T.Missing;
  }

  lemma RespondServes(allowed: bool, r: M.Receiver, u: M.Request, chunks: seq<Bytes>)
    requires chunks != [] && Serves(r, chunks) && r.rxMsgs == [] && (u.Seg? ==> Part(u.packet, chunks))
    ensures Serves(Respond(allowed, r, u).0, chunks)
  {
    NewFits(chunks);
    if u.Seg? {
      if r.live.Some? { AcceptServes(r, r.live.value, u.packet, chunks); }
      AcceptServes(r, M.Messengent(T.NEW_TRAY, 0), u.packet, chunks);
    }
    hide M.Accept, Fits, Join;
  }

  lemma NudgeServes(r: M.Receiver, chunks: seq<Bytes>)
    requires Serves(r, chunks) && r.rxMsgs == []
    ensures Serves(M.Nudge(r).0, chunks)
  {
    if r.live.Some? {
      var have :| R.Holding(r.live.value.tray, chunks, have) && (|chunks| == 1 ==> have == {});
    }
    hide Fits, Join, M.Requests, T.Missing;
  }
}
