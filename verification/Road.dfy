/** Many messages from one stack to another in one session: every Messenger has its own tid, and
    the receiving stack appends all bodies to one rxMsgs queue. */
module Road {
  import opened Basics
  import opened Messaging
  import opened Exchange
  import Lotting

  /** rxMsgs remembers the tid each body came under. */
  datatype Road = Road(exchanges: map<nat, Exchange>, tid: nat, rxMsgs: seq<(nat, Bytes)>)

  datatype Event = Begin(chunks: seq<Bytes>, burst: nat) | At(tid: nat, action: Action)

  const QUIET := Road(map[], 0, [])

  function Tagged(tid: nat, bodies: seq<Bytes>): seq<(nat, Bytes)> {
    seq(|bodies|, i requires 0 <= i < |bodies| => (tid, bodies[i]))
  }

  function Under(rxMsgs: seq<(nat, Bytes)>, tid: nat): seq<Bytes> {
    if rxMsgs == [] then []
    else (if rxMsgs[0].0 == tid then [rxMsgs[0].1] else []) + Under(rxMsgs[1..], tid)
  }

  ghost predicate Sound(w: Road) {
    && (forall t :: t in w.exchanges <==> 1 <= t <= w.tid)
    && (forall t :: t in w.exchanges ==> Inv(w.exchanges[t]))
    && (forall t :: Under(w.rxMsgs, t) == if t in w.exchanges then w.exchanges[t].receiver.rxMsgs else [])
  }

  ghost predicate Possible(w: Road, v: Event) {
    match v
    case Begin(chunks, burst) => chunks != [] && w.tid < Lotting.SID_ROLLOVER
    case At(t, a) => t in w.exchanges && Enabled(w.exchanges[t], a)
  }

  /** What Exchange.Step needs of every transaction. */
  ghost predicate Steppable(w: Road) {
    forall t :: t in w.exchanges ==> w.exchanges[t].sender.Valid()
  }

  /** Only the transaction of a packet's tid reacts to it. */
  function Happen(w: Road, v: Event): (w': Road)
    requires Steppable(w) && Possible(w, v)
    ensures Steppable(w')
  {
    match v
    case Begin(chunks, burst) =>
      var t := Lotting.Next(w.tid);
      w.(exchanges := w.exchanges[t := Start(chunks, burst)], tid := t)
    case At(t, a) =>
      var e, e' := w.exchanges[t], Step(w.exchanges[t], a);
      var n := Min(|e.receiver.rxMsgs|, |e'.receiver.rxMsgs|);
      w.(exchanges := w.exchanges[t := e'], rxMsgs := w.rxMsgs + Tagged(t, e'.receiver.rxMsgs[n..]))
  }

  lemma {:induction false} UnderAppend(a: seq<(nat, Bytes)>, b: seq<(nat, Bytes)>, tid: nat)
    ensures Under(a + b, tid) == Under(a, tid) + Under(b, tid)
  {
    if a == [] {
      assert a + b == b;
    } else {
      assert (a + b)[1..] == a[1..] + b && (a + b)[0] == a[0];
      UnderAppend(a[1..], b, tid);
      var first := if a[0].0 == tid then [a[0].1] else [];
      assert Under(a + b, tid) == first + Under(a[1..] + b, tid);
      assert Under(a, tid) == first + Under(a[1..], tid);
      hide Under;
    }
  }

  lemma {:induction false} UnderTagged(t: nat, bodies: seq<Bytes>, tid: nat)
    ensures Under(Tagged(t, bodies), tid) == if t == tid then bodies else []
  {
    if bodies != [] {
      assert Tagged(t, bodies)[1..] == Tagged(t, bodies[1..]);
      UnderTagged(t, bodies[1..], tid);
    }
  }

  /** Bodies are only ever appended. */
  lemma OnlyAppends(e: Exchange, a: Action)
    requires Inv(e) && Enabled(e, a)
    ensures e.receiver.rxMsgs <= Step(e, a).receiver.rxMsgs
  {
    StepKeepsInv(e, a);
    assert Legal(e, [a]) by { assert [a][1..] == []; }
    DoneStays(e, [a]);
    assert Run(e, [a]) == Run(Step(e, a), []);
  }

  lemma AddedSound(w: Road, e: Exchange)
    requires Sound(w) && Inv(e) && e.receiver.rxMsgs == []
    ensures Sound(w.(exchanges := w.exchanges[w.tid + 1 := e], tid := w.tid + 1))
  {
    hide Inv, Under;
    var t, w' := w.tid + 1, w.(exchanges := w.exchanges[w.tid + 1 := e], tid := w.tid + 1);
    assert t !in w.exchanges && Under(w.rxMsgs, t) == [];
    assert forall u :: u in w'.exchanges <==> u == t || u in w.exchanges;
  }

  lemma SoundSteppable(w: Road)
    requires Sound(w)
    ensures Steppable(w)
  {
    hide Under;
  }

  lemma StartsUndelivered(chunks: seq<Bytes>, burst: nat)
    requires chunks != []
    ensures Inv(Start(chunks, burst)) && Start(chunks, burst).receiver.rxMsgs == []
  {
    StartInv(chunks, burst);
    hide Inv, SendNext;
  }

  lemma BeginKeeps(w: Road, chunks: seq<Bytes>, burst: nat)
    requires Sound(w) && Possible(w, Begin(chunks, burst))
    ensures Steppable(w) && Sound(Happen(w, Begin(chunks, burst)))
  {
    hide Inv, Start, Under, Sound, Steppable;
    SoundSteppable(w);
    StartsUndelivered(chunks, burst);
    AddedSound(w, Start(chunks, burst));
  }

  lemma StepFurther(e: Exchange, a: Action)
    requires Inv(e) && Enabled(e, a)
    ensures var was, now := e.receiver.rxMsgs, Step(e, a).receiver.rxMsgs;
            Inv(Step(e, a)) && was <= now && now == was + now[|was|..]
  {
    hide *;
    OnlyAppends(e, a);
    StepKeepsInv(e, a);
  }

  lemma MovedSound(w: Road, t: nat, e: Exchange, bodies: seq<Bytes>)
    requires Sound(w) && t in w.exchanges && Inv(e) && e.receiver.rxMsgs == w.exchanges[t].receiver.rxMsgs + bodies
    ensures Sound(w.(exchanges := w.exchanges[t := e], rxMsgs := w.rxMsgs + Tagged(t, bodies)))
  {
    hide Inv, Under, Tagged;
    var w' := w.(exchanges := w.exchanges[t := e], rxMsgs := w.rxMsgs + Tagged(t, bodies));
    forall u ensures Under(w'.rxMsgs, u) == if u in w'.exchanges then w'.exchanges[u].receiver.rxMsgs else [] {
      UnderAppend(w.rxMsgs, Tagged(t, bodies), u);
      UnderTagged(t, bodies, u);
    }
  }

  lemma HappenAt(w: Road, t: nat, a: Action)
    requires Steppable(w) && t in w.exchanges && Enabled(w.exchanges[t], a)
    requires w.exchanges[t].receiver.rxMsgs <= Step(w.exchanges[t], a).receiver.rxMsgs
    ensures var e, e' := w.exchanges[t], Step(w.exchanges[t], a);
            Possible(w, At(t, a))
            && Happen(w, At(t, a)) == w.(exchanges := w.exchanges[t := e'],
                                         rxMsgs := w.rxMsgs + Tagged(t, e'.receiver.rxMsgs[|e.receiver.rxMsgs|..]))
  {
    hide Step, Tagged, Enabled;
  }

  lemma AtKeeps(w: Road, t: nat, a: Action)
    requires Sound(w) && Possible(w, At(t, a))
    ensures Steppable(w) && Sound(Happen(w, At(t, a)))
  {
    hide Under, Inv, Enabled;
    SoundSteppable(w);
    assert Enabled(w.exchanges[t], a) && Inv(w.exchanges[t]);
    hide *;
    StepFurther(w.exchanges[t], a);
    HappenAt(w, t, a);
    var e' := Step(w.exchanges[t], a);
    MovedSound(w, t, e', e'.receiver.rxMsgs[|w.exchanges[t].receiver.rxMsgs|..]);
  }

  lemma HappenKeeps(w: Road, v: Event)
    requires Sound(w) && Possible(w, v)
    ensures Steppable(w) && Sound(Happen(w, v))
  {
    match v {
      case Begin(chunks, burst) => BeginKeeps(w, chunks, burst);
      case At(t, a) => AtKeeps(w, t, a);
    }
  }

  /** The events happen one after the other from w, and lead to w'. */
  ghost predicate Unfolds(w: Road, events: seq<Event>, w': Road)
    requires Steppable(w)
    decreases |events|
  {
    if events == [] then w' == w
    else Possible(w, events[0]) && Unfolds(Happen(w, events[0]), events[1..], w')
  }

  lemma {:induction false} UnfoldsSound(w: Road, events: seq<Event>, w': Road)
    requires Sound(w) && Steppable(w) && Unfolds(w, events, w')
    ensures Sound(w')
    decreases |events|
  {
    if events != [] {
      HappenKeeps(w, events[0]);
      UnfoldsSound(Happen(w, events[0]), events[1..], w');
    }
  }

  /** Exactly once, for every message of a session of fewer than 2^32 messages whose packets
      interleave in any way: rxMsgs holds its body at most once, and exactly once after its
      Messenger has ended. */
  lemma EveryMessageOnce(events: seq<Event>, w: Road, tid: nat)
    requires Unfolds(QUIET, events, w) && tid in w.exchanges
    ensures var e := w.exchanges[tid];
            && (Under(w.rxMsgs, tid) == [] || Under(w.rxMsgs, tid) == [e.body])
            && (!e.sender.live ==> Under(w.rxMsgs, tid) == [e.body])
  {
    assert Sound(QUIET);
    UnfoldsSound(QUIET, events, w);
  }
}
