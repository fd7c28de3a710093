/** Crossed joins: raet/road/transacting.py, Joiner and Joinent, when two stacks join each other at
    the same time. */
module Joining {
  import opened Basics

  // --------------------------------------------------------------- The tie-break

  /** A join in process with the remote: one of ours, or one of the remote's, which may be the
      transaction the request belongs to. */
  datatype Join = Ours(vacuous: bool) | Theirs(same: bool)

  datatype Ruling = Duplicate | Refuse | Proceed

  /** The order of Python strings. */
  predicate Before(a: string, b: string) {
    b != "" && (a == "" || if a[0] != b[0] then a[0] < b[0] else Before(a[1..], b[1..]))
  }

  lemma {:induction false} OneBefore(a: string, b: string)
    requires a != b
    ensures Before(a, b) <==> !Before(b, a)
  {
    if a != "" && b != "" && a[0] == b[0] {
      assert a == [a[0]] + a[1..] && b == [b[0]] + b[1..];
      OneBefore(a[1..], b[1..]);
    }
  }

  /** What the joins in process make of a request from the remote of that name, and how many of
      ours are nacked first. */
  function Decide(vacuous: bool, local: string, name: string, joins: seq<Join>): (Ruling, nat) {
    if joins == [] then (Proceed, 0)
    else
      match joins[0]
      case Theirs(mine) => (if mine then Duplicate else Refuse, 0)
      case Ours(v) =>
        if vacuous && !v then (Refuse, 0)
        else if vacuous == v && Before(local, name) then (Refuse, 0)
        else
          var (ruling, nacked) := Decide(vacuous, local, name, joins[1..]);
          (ruling, nacked + 1)
  }

  /** The loop of Joinent.join over remote.joinInProcess(). */
  method TieBreak(vacuous: bool, local: string, name: string, joins: seq<Join>)
    returns (ruling: Ruling, nacked: nat)
    ensures (ruling, nacked) == Decide(vacuous, local, name, joins)
  {
    nacked := 0;
    for j := 0 to |joins|
      invariant nacked == j
      invariant var rest := Decide(vacuous, local, name, joins[j..]);
                Decide(vacuous, local, name, joins) == (rest.0, rest.1 + nacked)
    {
      assert joins[j..][0] == joins[j] && joins[j..][1..] == joins[j + 1..];
      match joins[j] {
        case Theirs(mine) =>
          return if mine then Duplicate else Refuse, nacked;
        case Ours(v) =>
          if vacuous && !v {
            return Refuse, nacked;
          }
          if !vacuous && v {
            nacked := nacked + 1;
          } else {
            if Before(local, name) {
              return Refuse, nacked;
            }
            nacked := nacked + 1;
          }
      }
    }
    return Proceed, nacked;
  }

  /** Which of two crossed joins the loop means to let through: the non-vacuous one, and between
      joins of one kind that of the lesser name. */
  predicate Stronger(v1: bool, name1: string, v2: bool, name2: string) {
    (!v1 && v2) || (v1 == v2 && Before(name1, name2))
  }

  lemma OneStronger(v1: bool, name1: string, v2: bool, name2: string)
    requires name1 != name2
    ensures Stronger(v1, name1, v2, name2) <==> !Stronger(v2, name2, v1, name1)
  {
    OneBefore(name1, name2);
  }

  /** Of two crossed joins, each seen by the stack that the other's request reaches, exactly one is
      refused, the weaker one, and it is given up by its own stack. */
  lemma ExactlyOneYields(v1: bool, name1: string, v2: bool, name2: string)
    requires name1 != name2
    ensures var at1 := Decide(v2, name1, name2, [Ours(v1)]);
            var at2 := Decide(v1, name2, name1, [Ours(v2)]);
            && at1 in {(Refuse, 0), (Proceed, 1)} && at2 in {(Refuse, 0), (Proceed, 1)}
            && (at1 == (Refuse, 0) <==> at2 == (Proceed, 1))
            && (at1 == (Refuse, 0) <==> Stronger(v1, name1, v2, name2))
  {
    OneBefore(name1, name2);
    assert [Ours(v1)][1..] == [] && [Ours(v2)][1..] == [];
  }

  // ------------------------------------------------------------------ Two stacks

  datatype Side = Left | Right

  function Other(x: Side): Side { if x == Left then Right else Left }

  /** A Joiner: live, `pending` once it has answered a response with a pend; or ended. */
  datatype Phase = Live(pending: bool) | Complete | Dead

  /** One stack: its Joiner and whether that is vacuous; its Joinent for the other's join, with
      whether that has sent its response; and whether it has removed the other's remote. */
  datatype End = End(name: string, vacuous: bool, joiner: Phase, joinent: Option<bool>, gone: bool)

  /** Nack stands for the nacks of kind nack and refuse, which a Joiner and a Joinent treat alike. */
  datatype Kind = Request | Pend | Response | Ack | Nack | Reject | Renew

  /** A packet of the join that `owner` initiated, to the owner's Joiner or from it. */
  datatype Packet = Packet(owner: Side, toOwner: bool, kind: Kind)

  /** Packets in the air stay there: they may arrive late, again, or never. */
  datatype World = World(left: End, right: End, air: set<Packet>)
  {
    function At(x: Side): End { if x == Left then left else right }

    function Set(x: Side, e: End, sent: set<Packet>): World {
      if x == Left then this.(left := e, air := air + sent) else this.(right := e, air := air + sent)
    }
  }

  /** What fields, names, keys and road permissions make of a join that the tie-break lets pass:
      accepted, pended, or ended by a nack of kind reject, by removeRemote, which is how the source
      rejects keys it already has, or without a word, for a missing field. */
  datatype Policy = Allow | Hold | Deny | Remove | Drop

  datatype Action =
    | Deliver(p: Packet, policy: Policy)
    | PollJoiner(side: Side, policy: Policy)
    | PollJoinent(side: Side, policy: Policy)
    | JoinerTimesOut(side: Side)
    | JoinentTimesOut(side: Side)

  /** removeRemote nacks every transaction with the remote. */
  function Purge(w: World, x: Side): World {
    var e := w.At(x);
    var mine := if e.joiner.Live? then {Packet(x, false, Nack)} else {};
    var theirs := if e.joinent.Some? then {Packet(Other(x), true, Nack)} else {};
    w.Set(x, e.(joiner := if e.joiner.Live? then Dead else e.joiner, joinent := None, gone := true), mine + theirs)
  }

  /** Joiner.accept */
  function Settle(w: World, x: Side, policy: Policy): World {
    var e := w.At(x);
    match policy
    case Allow => w.Set(x, e.(joiner := Complete), {Packet(x, false, Ack)})
    case Hold => w.Set(x, e.(joiner := Live(true)), {Packet(x, false, Pend)})
    case Deny => w.Set(x, e.(joiner := Dead), {Packet(x, false, Reject)})
    case Remove => Purge(w, x)
    case Drop => w.Set(x, e.(joiner := Dead), {})
  }

  predicate IsNack(kind: Kind) { kind == Nack || kind == Reject || kind == Renew }

  /** A packet for x's own join. When that is over the stack answers with a stale nack, if it still
      has the remote. A Joiner that is renewed ends, and what follows is another join. */
  function JoinerHears(w: World, x: Side, kind: Kind, policy: Policy): World {
    var e := w.At(x);
    if !e.joiner.Live? then
      if IsNack(kind) || e.gone then w else w.Set(x, e, {Packet(x, false, Nack)})
    else
      match kind
      case Response => Settle(w, x, policy)
      case Nack => w.Set(x, e.(joiner := Dead), {})
      case Renew => w.Set(x, e.(joiner := Dead), {})
      case Reject => Purge(w.Set(x, e.(joiner := Dead), {}), x)
      case _ => w
  }

  /** The joins x finds in process when a request of the other stack comes in, vacuous or not. A
      vacuous request is looked up in joinees, which has the other's remote only while a vacuous
      join with it is in process: one that only x's own non-vacuous join is using is missed. */
  function InProcess(e: End, vacuous: bool): seq<Join> {
    (if e.joiner.Live? && (!vacuous || e.vacuous || e.joinent.Some?) then [Ours(e.vacuous)] else [])
    + (if e.joinent.Some? then [Theirs(true)] else [])
  }

  /** Joinent.join past the tie-break. */
  function Answer(w: World, x: Side, policy: Policy): World {
    var e := w.At(x);
    match policy
    case Allow => w.Set(x, e.(joinent := Some(true), gone := false), {Packet(Other(x), true, Response)})
    case Hold => w.Set(x, e.(joinent := Some(false), gone := false), {Packet(Other(x), true, Pend)})
    case Deny => w.Set(x, e, {Packet(Other(x), true, Reject)})
    case Remove => if e.gone then w.Set(x, e, {Packet(Other(x), true, Reject)}) else Purge(w, x)
    case Drop => w
  }

  /** Joinent.join */
  function RequestArrives(w: World, x: Side, policy: Policy): World {
    var e, o := w.At(x), w.At(Other(x));
    if policy == Drop then w.Set(x, e.(joinent := None), {})
    else
      var (ruling, nacked) := Decide(o.vacuous, e.name, o.name, InProcess(e, o.vacuous));
      var w := if nacked > 0 then w.Set(x, e.(joiner := Dead), {Packet(x, false, Nack)}) else w;
      match ruling
      case Duplicate => w
      case Refuse => w.Set(x, w.At(x).(joinent := None), {Packet(Other(x), true, Nack)})
      case Proceed => Answer(w, x, policy)
  }

  /** A packet of the other's join. Without a Joinent only a request means anything; and without
      the remote a non-vacuous join is told to renew, whatever it sent, a vacuous one begins anew. */
  function JoinentHears(w: World, x: Side, kind: Kind, policy: Policy): World {
    var e := w.At(x);
    if e.gone && !w.At(Other(x)).vacuous then
      if IsNack(kind) then w else w.Set(x, e, {Packet(Other(x), true, Renew)})
    else if kind == Request then RequestArrives(w, x, policy)
    else if e.joinent.None? then w
    else
      match kind
      case Ack => w.Set(x, e.(joinent := None), {})
      case Nack => w.Set(x, e.(joinent := None), {})
      case Reject => Purge(w.Set(x, e.(joinent := None), {}), x)
      case _ => w
  }

  function Step(w: World, a: Action): World {
    match a
    case Deliver(p, policy) =>
      if p.toOwner then JoinerHears(w, p.owner, p.kind, policy) else JoinentHears(w, Other(p.owner), p.kind, policy)
    case PollJoiner(x, policy) =>
      var e := w.At(x);
      if e.joiner == Live(false) then w.Set(x, e, {Packet(x, false, Request)})
      else if e.joiner == Live(true) && policy == Allow then Settle(w, x, Allow)
      else if e.joiner == Live(true) && policy == Remove then Purge(w, x)
      else w
    case PollJoinent(x, policy) =>
      var e := w.At(x);
      if e.joinent == Some(true) || (e.joinent == Some(false) && policy == Allow) then
        w.Set(x, e.(joinent := Some(true)), {Packet(Other(x), true, Response)})
      else if e.joinent == Some(false) && policy == Remove then Purge(w, x)
      else w
    case JoinerTimesOut(x) =>
      var e := w.At(x);
      if e.joiner.Live? then w.Set(x, e.(joiner := Dead), {}) else w
    case JoinentTimesOut(x) =>
      var e := w.At(x);
      if e.joinent.Some? then w.Set(x, e.(joinent := None), {Packet(Other(x), true, Nack)}) else w
  }

  predicate Enabled(w: World, a: Action) { a.Deliver? ==> a.p in w.air }

  predicate Legal(w: World, run: seq<Action>)
    decreases |run|
  {
    run == [] || (Enabled(w, run[0]) && Legal(Step(w, run[0]), run[1..]))
  }

  function Run(w: World, run: seq<Action>): World
    decreases |run|
  {
    if run == [] then w else Run(Step(w, run[0]), run[1..])
  }

  /** Both stacks have sent their request. */
  function Start(left: string, lv: bool, right: string, rv: bool): World {
    World(End(left, lv, Live(false), None, false), End(right, rv, Live(false), None, false),
          {Packet(Left, false, Request), Packet(Right, false, Request)})
  }

  // ---------------------------------------------------------------------- Safety

  /** A stack that answers the other's join has given up or finished its own. */
  ghost predicate SafeAt(w: World, x: Side) {
    var e, o := w.At(x), w.At(Other(x));
    && (e.joinent.Some? ==> !e.joiner.Live?)
    && (Packet(Other(x), true, Response) in w.air ==> !e.joiner.Live?)
    && (o.joiner == Live(true) ==> !e.joiner.Live?)
    && (o.joiner == Complete ==> e.joiner == Dead)
  }

  /** For two joins of one kind. */
  ghost predicate Safe(w: World) {
    SafeAt(w, Left) && SafeAt(w, Right) && w.left.name != w.right.name && w.left.vacuous == w.right.vacuous
  }

  /** The tie-break at a stack, for the joins it sees: its own is given up for a stronger one only. */
  lemma DecideAt(e: End, vacuous: bool, name: string)
    ensures var (ruling, nacked) := Decide(vacuous, e.name, name, InProcess(e, vacuous));
            && (nacked > 0 ==> e.joiner.Live? && !Stronger(e.vacuous, e.name, vacuous, name))
            && (e.vacuous == vacuous && e.joiner.Live? && nacked == 0 ==> ruling == Refuse)
            && (e.joinent.None? && nacked > 0 ==> ruling == Proceed && nacked == 1)
            && (ruling == Proceed ==> e.joinent.None?)
            && (!e.joiner.Live? ==> ruling == if e.joinent.Some? then Duplicate else Proceed)
            && (e.joiner.Live? && e.joinent.None? && Stronger(vacuous, name, e.vacuous, e.name) && e.name != name ==>
                  (ruling, nacked) == (Proceed, 1))
  {
    if e.name != name { OneBefore(e.name, name); }
    var joins := InProcess(e, vacuous);
    if joins != [] && joins[0].Ours? && e.joinent.Some? {
      assert joins[1..] == [Theirs(true)];
    } else if joins != [] {
      assert joins[1..] == [];
    }
  }

  lemma PurgeSafe(w: World, x: Side)
    requires Safe(w)
    ensures Safe(Purge(w, x))
  {
  }

  lemma SettleSafe(w: World, x: Side, policy: Policy)
    requires Safe(w) && w.At(x).joiner.Live? && !w.At(Other(x)).joiner.Live?
    ensures Safe(Settle(w, x, policy))
  {
    PurgeSafe(w, x);
    hide Purge;
  }

  lemma AnswerSafe(w: World, x: Side, policy: Policy)
    requires Safe(w) && !w.At(x).joiner.Live?
    ensures Safe(Answer(w, x, policy))
  {
    PurgeSafe(w, x);
    hide Purge;
  }

  lemma RequestSafe(w: World, x: Side, policy: Policy)
    requires Safe(w)
    ensures Safe(RequestArrives(w, x, policy))
  {
    var e, o := w.At(x), w.At(Other(x));
    DecideAt(e, o.vacuous, o.name);
    var (ruling, nacked) := Decide(o.vacuous, e.name, o.name, InProcess(e, o.vacuous));
    hide Decide, InProcess, Answer, Stronger;
    assert Safe(w.Set(x, e.(joinent := None), {}));
    if e.joiner.Live? {
      assert ruling == if nacked > 0 then Proceed else Refuse;
      var given := w.Set(x, e.(joiner := Dead), {Packet(x, false, Nack)});
      assert Safe(given) && Safe(w.Set(x, e.(joinent := None), {Packet(Other(x), true, Nack)}));
      AnswerSafe(given, x, policy);
    } else {
      AnswerSafe(w, x, policy);
    }
  }

  lemma JoinerHearsSafe(w: World, x: Side, kind: Kind, policy: Policy)
    requires Safe(w) && Packet(x, true, kind) in w.air
    ensures Safe(JoinerHears(w, x, kind, policy))
  {
    hide Settle, Purge;
    if w.At(x).joiner.Live? && kind == Response { SettleSafe(w, x, policy); }
    var over := w.Set(x, w.At(x).(joiner := Dead), {});
    assert w.At(x).joiner.Live? ==> Safe(over);
    if w.At(x).joiner.Live? && kind == Reject { PurgeSafe(over, x); }
  }

  lemma JoinentHearsSafe(w: World, x: Side, kind: Kind, policy: Policy)
    requires Safe(w)
    ensures Safe(JoinentHears(w, x, kind, policy))
  {
    hide RequestArrives, Purge;
    if kind == Request { RequestSafe(w, x, policy); }
    var over := w.Set(x, w.At(x).(joinent := None), {});
    assert Safe(over);
    if kind == Reject { PurgeSafe(over, x); }
  }

  lemma StepSafe(w: World, a: Action)
    requires Safe(w) && Enabled(w, a)
    ensures Safe(Step(w, a))
  {
    hide JoinerHears, JoinentHears, Settle, Purge;
    match a
    case Deliver(p, policy) =>
      assert Other(Other(p.owner)) == p.owner;
      if p.toOwner {
        JoinerHearsSafe(w, p.owner, p.kind, policy);
      } else {
        JoinentHearsSafe(w, Other(p.owner), p.kind, policy);
      }
    case PollJoiner(x, policy) =>
      assert Other(Other(x)) == x;
      if w.At(x).joiner == Live(true) {
        SettleSafe(w, x, Allow);
        PurgeSafe(w, x);
      }
    case PollJoinent(x, policy) =>
      assert Other(Other(x)) == x;
      PurgeSafe(w, x);
    case JoinerTimesOut(x) =>
      assert Other(Other(x)) == x;
    case JoinentTimesOut(x) =>
      assert Other(Other(x)) == x;
  }

  lemma {:induction false} RunSafe(w: World, run: seq<Action>)
    requires Safe(w) && Legal(w, run)
    ensures Safe(Run(w, run))
    decreases |run|
  {
    if run != [] {
      StepSafe(w, run[0]);
      RunSafe(Step(w, run[0]), run[1..]);
    }
  }

  predicate BothComplete(w: World) { w.left.joiner == Complete && w.right.joiner == Complete }

  lemma NeverBoth(left: string, right: string, vacuous: bool, run: seq<Action>)
    requires left != right && Legal(Start(left, vacuous, right, vacuous), run)
    ensures !BothComplete(Run(Start(left, vacuous, right, vacuous), run))
  {
    RunSafe(Start(left, vacuous, right, vacuous), run);
  }

  /** The vacuous request of x gets past the other's own join, which it does not meet, and is
      answered; then the other's request finds no join in process. */
  function BothWays(x: Side): seq<Action> {
    [Deliver(Packet(x, false, Request), Allow), Deliver(Packet(x, true, Response), Allow),
     Deliver(Packet(Other(x), false, Request), Allow), Deliver(Packet(Other(x), true, Response), Allow)]
  }

  lemma MixedBoth(left: string, lv: bool, right: string, rv: bool)
    requires lv != rv
    ensures var w, run := Start(left, lv, right, rv), BothWays(if lv then Left else Right);
            Legal(w, run) && BothComplete(Run(w, run))
  {
    var x := if lv then Left else Right;
    var w, run := Start(left, lv, right, rv), BothWays(x);
    var w1 := Step(w, run[0]);
    assert InProcess(w.At(Other(x)), true) == [];
    assert Packet(x, true, Response) in w1.air && w1.At(x) == w.At(x);
    var w2 := Step(w1, run[1]);
    assert w2.At(x).joiner == Complete && w2.At(x).joinent == None;
    var w3 := Step(w2, run[2]);
    assert InProcess(w2.At(x), false) == [];
    assert Packet(Other(x), true, Response) in w3.air && w3.At(Other(x)) == w2.At(Other(x));
    var w4 := Step(w3, run[3]);
    assert BothComplete(w4);
    hide Step, Enabled;
    assert Legal(w4, []) && Run(w4, []) == w4;
    assert run[1..][1..][1..] == [run[3]] && run[1..][1..][1..][1..] == [];
  }

  /** Whatever is lost, duplicated or reordered, whatever the policies decide and whoever times
      out, two crossed joins never both complete: exactly if they are of one kind. */
  lemma NeverBothExactly(left: string, lv: bool, right: string, rv: bool)
    requires left != right
    ensures lv == rv <==>
            forall run :: Legal(Start(left, lv, right, rv), run) ==> !BothComplete(Run(Start(left, lv, right, rv), run))
  {
    if lv == rv {
      forall run | Legal(Start(left, lv, right, rv), run)
        ensures !BothComplete(Run(Start(left, lv, right, rv), run))
      {
        NeverBoth(left, right, lv, run);
      }
    } else {
      MixedBoth(left, lv, right, rv);
    }
  }

  // ------------------------------------------------ The stronger join gets through

  /** Nobody denies and nobody times out. */
  predicate Kindly(a: Action) {
    match a
    case JoinerTimesOut(_) => false
    case JoinentTimesOut(_) => false
    case _ => a.policy == Allow || a.policy == Hold
  }

  predicate Willing(run: seq<Action>) { forall a :: a in run ==> Kindly(a) }

  predicate Strong(w: World, x: Side) {
    var e, o := w.At(x), w.At(Other(x));
    e.name != o.name && Stronger(e.vacuous, e.name, o.vacuous, o.name)
  }

  /** x's Joiner has not ended unheard: while it is live nothing in the air would end it, and the
      other stack answers it only with its own join given up. */
  ghost predicate Unbeaten(w: World, x: Side) {
    && w.At(x).joiner != Dead
    && Packet(x, false, Request) in w.air
    && (w.At(x).joiner.Live? ==> Packet(x, true, Nack) !in w.air)
    && (forall p :: p in w.air ==> p.kind != Reject && p.kind != Renew)
    && !w.left.gone && !w.right.gone
    && (w.At(Other(x)).joinent.Some? ==> !w.At(Other(x)).joiner.Live?)
  }

  ghost predicate Winning(w: World, x: Side) { Strong(w, x) && Unbeaten(w, x) }

  predicate SameEnds(w: World, w': World) {
    && w'.left.name == w.left.name && w'.right.name == w.right.name
    && w'.left.vacuous == w.left.vacuous && w'.right.vacuous == w.right.vacuous
  }

  /** x's own join survives the tie-break on either side. */
  lemma RulingFor(w: World, x: Side, y: Side)
    requires Winning(w, x)
    ensures var e, o := w.At(y), w.At(Other(y));
            var (ruling, nacked) := Decide(o.vacuous, e.name, o.name, InProcess(e, o.vacuous));
            && (y == x ==> nacked == 0)
            && (y != x ==> ruling != Refuse)
            && (y != x && ruling == Proceed && e.joiner.Live? ==> nacked == 1)
            && (!e.joiner.Live? ==> nacked == 0)
  {
    var e, o := w.At(y), w.At(Other(y));
    assert Other(Other(y)) == y;
    OneStronger(e.vacuous, e.name, o.vacuous, o.name);
    DecideAt(e, o.vacuous, o.name);
    hide Decide, InProcess, Before, Stronger;
  }

  /** What a step of stack y may do to its end and send without harm to x's join. */
  lemma Harmless(w: World, x: Side, y: Side, e: End, sent: set<Packet>)
    requires Unbeaten(w, x) && e.name == w.At(y).name && e.vacuous == w.At(y).vacuous && !e.gone
    requires forall p :: p in sent ==> p.kind != Reject && p.kind != Renew
    requires Packet(x, true, Nack) !in sent
    requires y == x ==> e.joiner != Dead && (e.joiner.Live? ==> w.At(x).joiner.Live?)
    requires y != x ==> e.joinent.Some? ==> !e.joiner.Live?
    ensures Unbeaten(w.Set(y, e, sent), x) && SameEnds(w, w.Set(y, e, sent))
  {
  }

  lemma AnswerWinning(w: World, x: Side, y: Side, policy: Policy)
    requires Unbeaten(w, x) && (policy == Allow || policy == Hold)
    requires y == Other(x) ==> !w.At(y).joiner.Live?
    ensures Unbeaten(Answer(w, y, policy), x) && SameEnds(w, Answer(w, y, policy))
  {
    var e := w.At(y).(gone := false);
    if policy == Allow {
      Harmless(w, x, y, e.(joinent := Some(true)), {Packet(Other(y), true, Response)});
    } else {
      Harmless(w, x, y, e.(joinent := Some(false)), {Packet(Other(y), true, Pend)});
    }
    hide Unbeaten, SameEnds;
  }

  lemma SettleWinning(w: World, x: Side, y: Side, policy: Policy)
    requires Unbeaten(w, x) && w.At(y).joiner.Live? && (policy == Allow || policy == Hold)
    ensures Unbeaten(Settle(w, y, policy), x) && SameEnds(w, Settle(w, y, policy))
  {
    var e := w.At(y);
    if policy == Allow {
      Harmless(w, x, y, e.(joiner := Complete), {Packet(y, false, Ack)});
    } else {
      Harmless(w, x, y, e.(joiner := Live(true)), {Packet(y, false, Pend)});
    }
    hide Unbeaten, SameEnds;
  }

  /** The other's request, which the tie-break refuses, lets pass or has seen already. */
  lemma RequestAtWinner(w: World, x: Side, policy: Policy)
    requires Winning(w, x) && (policy == Allow || policy == Hold)
    ensures Unbeaten(RequestArrives(w, x, policy), x) && SameEnds(w, RequestArrives(w, x, policy))
  {
    RulingFor(w, x, x);
    hide Decide, InProcess, Answer, Unbeaten, Strong, Stronger;
    Harmless(w, x, x, w.At(x).(joinent := None), {Packet(Other(x), true, Nack)});
    AnswerWinning(w, x, x, policy);
  }

  /** x's request, for which the other gives its own join up. */
  lemma RequestAtOther(w: World, x: Side, y: Side, policy: Policy)
    requires Winning(w, x) && y == Other(x) && (policy == Allow || policy == Hold)
    ensures Unbeaten(RequestArrives(w, y, policy), x) && SameEnds(w, RequestArrives(w, y, policy))
  {
    RulingFor(w, x, y);
    var e := w.At(y);
    assert e.joiner.Live? ==> e.joinent.None?;
    hide Decide, InProcess, Answer, Unbeaten, Strong, Stronger;
    if e.joiner.Live? {
      Harmless(w, x, y, e.(joiner := Dead), {Packet(y, false, Nack)});
      AnswerWinning(w.Set(y, e.(joiner := Dead), {Packet(y, false, Nack)}), x, y, policy);
    } else {
      AnswerWinning(w, x, y, policy);
    }
  }

  lemma RequestWinning(w: World, x: Side, y: Side, policy: Policy)
    requires Winning(w, x) && (policy == Allow || policy == Hold)
    ensures Unbeaten(RequestArrives(w, y, policy), x) && SameEnds(w, RequestArrives(w, y, policy))
  {
    if y == x {
      RequestAtWinner(w, x, policy);
    } else {
      assert y == Other(x);
      RequestAtOther(w, x, y, policy);
    }
    hide RequestArrives, Unbeaten, Strong, SameEnds;
  }

  lemma JoinerHearsWinning(w: World, x: Side, y: Side, kind: Kind, policy: Policy)
    requires Winning(w, x) && Packet(y, true, kind) in w.air && (policy == Allow || policy == Hold)
    ensures Unbeaten(JoinerHears(w, y, kind, policy), x) && SameEnds(w, JoinerHears(w, y, kind, policy))
  {
    var e := w.At(y);
    if !e.joiner.Live? {
      Harmless(w, x, y, e, {Packet(y, false, Nack)});
    } else {
      SettleWinning(w, x, y, policy);
      if kind == Nack { Harmless(w, x, y, e.(joiner := Dead), {}); }
    }
    hide Purge, Strong, Settle;
  }

  lemma JoinentHearsWinning(w: World, x: Side, y: Side, kind: Kind, policy: Policy)
    requires Winning(w, x) && Packet(Other(y), false, kind) in w.air && (policy == Allow || policy == Hold)
    ensures Unbeaten(JoinentHears(w, y, kind, policy), x) && SameEnds(w, JoinentHears(w, y, kind, policy))
  {
    assert !w.At(y).gone && kind != Reject && kind != Renew;
    if kind == Request {
      RequestWinning(w, x, y, policy);
    } else {
      Harmless(w, x, y, w.At(y).(joinent := None), {});
    }
    hide RequestArrives, Purge, Strong, Unbeaten;
  }

  lemma PollWinning(w: World, x: Side, a: Action)
    requires Winning(w, x) && !a.Deliver? && Kindly(a)
    ensures Unbeaten(Step(w, a), x) && SameEnds(w, Step(w, a))
  {
    var y, e := a.side, w.At(a.side);
    assert Other(Other(y)) == y;
    if a.PollJoiner? {
      Harmless(w, x, y, e, {Packet(y, false, Request)});
      if e.joiner.Live? { SettleWinning(w, x, y, Allow); }
    } else if e.joinent.Some? {
      Harmless(w, x, y, e.(joinent := Some(true)), {Packet(Other(y), true, Response)});
    }
    hide JoinerHears, JoinentHears, Purge, Strong, Settle, Unbeaten;
  }

  lemma StepWinning(w: World, x: Side, a: Action)
    requires Winning(w, x) && Enabled(w, a) && Kindly(a)
    ensures Winning(Step(w, a), x)
  {
    if a.Deliver? {
      assert Other(Other(a.p.owner)) == a.p.owner;
      if a.p.toOwner {
        JoinerHearsWinning(w, x, a.p.owner, a.p.kind, a.policy);
      } else {
        JoinentHearsWinning(w, x, Other(a.p.owner), a.p.kind, a.policy);
      }
    } else {
      PollWinning(w, x, a);
    }
    hide JoinerHears, JoinentHears, Unbeaten, Stronger, Settle, Purge;
  }

  lemma {:induction false} RunWinning(w: World, x: Side, run: seq<Action>)
    requires Winning(w, x) && Legal(w, run) && Willing(run)
    ensures Winning(Run(w, run), x)
    decreases |run|
  {
    if run != [] {
      assert run[0] in run;
      StepWinning(w, x, run[0]);
      RunWinning(Step(w, run[0]), x, run[1..]);
    }
  }

  /** The stronger join is never refused: unless a policy denies it or it times out, its Joiner
      ends in no run but by completing, and the other's Joiner, of the same kind, never completes.
      And from every state of every run three deliveries and polls without a loss complete it. */
  lemma StrongerWins(left: string, lv: bool, right: string, rv: bool, x: Side, run: seq<Action>)
    requires left != right && Legal(Start(left, lv, right, rv), run) && Willing(run)
    requires Strong(Start(left, lv, right, rv), x)
    ensures var w := Run(Start(left, lv, right, rv), run);
            var rest := [Deliver(Packet(x, false, Request), Allow), PollJoinent(Other(x), Allow),
                         Deliver(Packet(x, true, Response), Allow)];
            && w.At(x).joiner != Dead
            && (lv == rv ==> w.At(Other(x)).joiner != Complete)
            && (w.At(x).joiner.Live? ==> Legal(w, rest) && Run(w, rest).At(x).joiner == Complete)
  {
    RunWinning(Start(left, lv, right, rv), x, run);
    if lv == rv { RunSafe(Start(left, lv, right, rv), run); }
    var w := Run(Start(left, lv, right, rv), run);
    if w.At(x).joiner.Live? {
      Finishes(w, x);
    }
  }

  lemma Answers(w: World, x: Side, y: Side)
    requires Winning(w, x) && w.At(x).joiner.Live? && y == Other(x)
    ensures Step(w, Deliver(Packet(x, false, Request), Allow)) == RequestArrives(w, y, Allow)
    ensures var w' := RequestArrives(w, y, Allow); w'.At(y).joinent.Some? && w'.At(x) == w.At(x)
  {
    assert Other(y) == x;
    RulingFor(w, x, y);
    var e, o := w.At(y), w.At(x);
    DecideAt(e, o.vacuous, o.name);
    hide Decide, InProcess, Stronger;
  }

  lemma Finishes(w: World, x: Side)
    requires Winning(w, x) && w.At(x).joiner.Live?
    ensures var rest := [Deliver(Packet(x, false, Request), Allow), PollJoinent(Other(x), Allow),
                         Deliver(Packet(x, true, Response), Allow)];
            Legal(w, rest) && Run(w, rest).At(x).joiner == Complete
  {
    var a1, a2, a3 := Deliver(Packet(x, false, Request), Allow), PollJoinent(Other(x), Allow),
                      Deliver(Packet(x, true, Response), Allow);
    Answers(w, x, Other(x));
    hide Purge, RequestArrives, Strong;
    var w1 := Step(w, a1);
    var w2 := Step(w1, a2);
    assert Other(Other(x)) == x;
    var answered := w1.At(Other(x)).joinent.value;
    assert w1.At(Other(x)).joinent == if answered then Some(true) else Some(false);
    assert Packet(x, true, Response) in w2.air && w2.At(x) == w.At(x);
    var w3 := Step(w2, a3);
    assert w3.At(x).joiner == Complete;
    hide Step;
    assert [a1, a2, a3][1..] == [a2, a3] && [a2, a3][1..] == [a3] && [a3][1..] == [];
    assert Legal(w3, []) && Run(w3, []) == w3;
    assert Legal(w2, [a3]) && Run(w2, [a3]) == w3;
    assert Legal(w1, [a2, a3]) && Run(w1, [a2, a3]) == w3;
  }
  // ------------------------------------------------------------- Nobody is left in the dark

  /** A nack of the owner's join is in the air, to its Joiner or from it. */
  predicate Told(w: World, owner: Side, toOwner: bool) {
    || Packet(owner, toOwner, Nack) in w.air
    || Packet(owner, toOwner, Reject) in w.air
    || Packet(owner, toOwner, Renew) in w.air
  }

  /** From w to w' stack x has told the other side of every transaction it has ended, unless it was
      itself told by a packet, or the transaction timed out or was dropped without a word; and a Joiner
      that completes acks, one that holds its answer back says so. */
  ghost predicate Tells(w: World, w': World, a: Action, x: Side) {
    var (e, e') := (w.At(x), w'.At(x));
    && w.air <= w'.air
    && (e.joiner.Live? && e'.joiner == Complete ==> Packet(x, false, Ack) in w'.air)
    && (e.joiner == Live(false) && e'.joiner == Live(true) ==> Packet(x, false, Pend) in w'.air)
    && (e.joiner.Live? && e'.joiner == Dead ==>
          || Told(w', x, false) || a == JoinerTimesOut(x)
          || (a.Deliver? && a.p.owner == x && a.p.toOwner && (IsNack(a.p.kind) || a.policy == Drop)))
    && (e.joinent.Some? && e'.joinent.None? ==>
          || Told(w', Other(x), true)
          || (a.Deliver? && a.p.owner == Other(x) && !a.p.toOwner
              && (a.p.kind in {Ack, Nack, Reject} || a.policy == Drop)))
  }

  lemma PurgeTells(w: World, y: Side, a: Action, x: Side)
    ensures Tells(w, Purge(w, y), a, x)
  {
  }

  lemma JoinerTells(w: World, y: Side, kind: Kind, policy: Policy, x: Side)
    ensures Tells(w, JoinerHears(w, y, kind, policy), Deliver(Packet(y, true, kind), policy), x)
  {
    PurgeTells(w, y, Deliver(Packet(y, true, kind), policy), x);
    var w1 := w.Set(y, w.At(y).(joiner := Dead), {});
    PurgeTells(w1, y, Deliver(Packet(y, true, kind), policy), x);
    if kind == Reject { PurgeMore(w1, y); }
    hide Purge;
  }

  /** removeRemote never takes a packet out of the air, and leaves the other stack alone. */
  lemma PurgeMore(w: World, y: Side)
    ensures var w' := Purge(w, y);
            && w.air <= w'.air && w'.At(Other(y)) == w.At(Other(y)) && !w'.At(y).joiner.Live? && w'.At(y).joinent.None?
            && (!w.At(y).joiner.Live? ==> w'.At(y).joiner == w.At(y).joiner)
            && (w.At(y).joiner.Live? ==> w'.At(y).joiner == Dead && Told(w', y, false))
            && (w.At(y).joinent.Some? ==> Told(w', Other(y), true))
  {
  }

  lemma JoinentTells(w: World, y: Side, kind: Kind, policy: Policy, x: Side)
    ensures Tells(w, JoinentHears(w, y, kind, policy), Deliver(Packet(Other(y), false, kind), policy), x)
  {
    if kind == Request && !(w.At(y).gone && !w.At(Other(y)).vacuous) {
      RequestTells(w, y, policy, x);
    } else {
      PurgeMore(w.Set(y, w.At(y).(joinent := None), {}), y);
      hide Purge, RequestArrives;
    }
  }

  lemma RequestTells(w: World, y: Side, policy: Policy, x: Side)
    ensures Tells(w, RequestArrives(w, y, policy), Deliver(Packet(Other(y), false, Request), policy), x)
  {
    var (e, o) := (w.At(y), w.At(Other(y)));
    DecideAt(e, o.vacuous, o.name);
    hide Decide, InProcess, Before, Stronger, Purge;
    var (ruling, nacked) := Decide(o.vacuous, e.name, o.name, InProcess(e, o.vacuous));
    var w1 := if nacked > 0 then w.Set(y, e.(joiner := Dead), {Packet(y, false, Nack)}) else w;
    PurgeMore(w1, y);
    AnswerTells(w1, y, policy);
    hide Answer;
  }

  /** An answer gives up nothing but by removing the remote. */
  lemma AnswerTells(w: World, y: Side, policy: Policy)
    ensures var w' := Answer(w, y, policy);
            && w.air <= w'.air && w'.At(Other(y)) == w.At(Other(y))
            && (w'.At(y).joiner == w.At(y).joiner || (w'.At(y).joiner == Dead && Told(w', y, false)))
            && (w'.At(y).joinent.None? ==> w.At(y).joinent.None? || Told(w', Other(y), true))
  {
    PurgeMore(w, y);
    hide Purge;
  }

  /** Every step tells. */
  lemma StepTells(w: World, a: Action, x: Side)
    ensures Tells(w, Step(w, a), a, x)
  {
    match a {
      case Deliver(p, policy) =>
        hide JoinerHears, JoinentHears, Tells;
        if p.toOwner {
          JoinerTells(w, p.owner, p.kind, policy, x);
        } else {
          JoinentTells(w, Other(p.owner), p.kind, policy, x);
        }
      case PollJoiner(y, policy) => PurgeTells(w, y, a, x); hide Purge;
      case PollJoinent(y, policy) => PurgeTells(w, y, a, x); hide Purge;
      case _ =>
    }
  }

  /** Every new request is answered, by a nack of some kind, a pend or a response, but those that are
      dropped or make the stack remove the remote. */
  lemma RequestAnswered(w: World, x: Side, policy: Policy)
    requires w.At(x).joinent.None? && policy != Drop && policy != Remove
    ensures var w' := JoinentHears(w, x, Request, policy);
            || Told(w', Other(x), true) || Packet(Other(x), true, Response) in w'.air
            || Packet(Other(x), true, Pend) in w'.air
  {
    var (e, o) := (w.At(x), w.At(Other(x)));
    var joins := InProcess(e, o.vacuous);
    NoDuplicate(o.vacuous, e.name, o.name, joins);
    hide Decide, Before, InProcess;
  }

  lemma NoDuplicate(vacuous: bool, local: string, name: string, joins: seq<Join>)
    requires |joins| <= 1 && (joins != [] ==> joins[0].Ours?)
    ensures Decide(vacuous, local, name, joins).0 != Duplicate
  {
    if joins != [] { assert joins[1..] == []; }
  }

  /** What a live transaction says again until it is answered: the request, the response; and what was
      held back goes on once the policy allows it. A packet for a join that is over is answered by a
      nack, one for a remote that is gone by a renew. */
  lemma RedoTells(w: World, x: Side, kind: Kind, policy: Policy)
    ensures w.At(x).joiner == Live(false) ==> Packet(x, false, Request) in Step(w, PollJoiner(x, policy)).air
    ensures w.At(x).joinent == Some(true) ==> Packet(Other(x), true, Response) in Step(w, PollJoinent(x, policy)).air
    ensures w.At(x).joiner == Live(true) ==> Step(w, PollJoiner(x, Allow)).At(x).joiner == Complete
    ensures w.At(x).joinent == Some(false) ==>
              var w' := Step(w, PollJoinent(x, Allow));
              w'.At(x).joinent == Some(true) && Packet(Other(x), true, Response) in w'.air
    ensures !w.At(x).joiner.Live? && !w.At(x).gone && !IsNack(kind) ==>
              Packet(x, false, Nack) in Step(w, Deliver(Packet(x, true, kind), policy)).air
    ensures w.At(x).gone && !w.At(Other(x)).vacuous && !IsNack(kind) ==>
              Packet(Other(x), true, Renew) in Step(w, Deliver(Packet(Other(x), false, kind), policy)).air
  {
  }

  /** A nack ends the Joiner it reaches, and a nack or an ack the Joinent; so does a timeout. */
  lemma ToldEnds(w: World, x: Side, kind: Kind, policy: Policy)
    ensures kind in {Nack, Reject, Renew} ==> !Step(w, Deliver(Packet(x, true, kind), policy)).At(x).joiner.Live?
    ensures kind in {Ack, Nack, Reject} && (!w.At(x).gone || w.At(Other(x)).vacuous) ==>
              Step(w, Deliver(Packet(Other(x), false, kind), policy)).At(x).joinent.None?
    ensures !Step(w, JoinerTimesOut(x)).At(x).joiner.Live? && Step(w, JoinentTimesOut(x)).At(x).joinent.None?
  {
  }

  // --------------------------------------------------------------------- Consent

  /** The policy of stack x lets the other's join pass, and its own. */
  predicate Grants(a: Action, x: Side) {
    || (a.Deliver? && a.p == Packet(Other(x), false, Request) && a.policy == Allow)
    || (a.PollJoinent? && a.side == x && a.policy == Allow)
  }

  predicate Accepts(a: Action, x: Side) {
    || (a.Deliver? && a.p == Packet(x, true, Response) && a.policy == Allow)
    || (a.PollJoiner? && a.side == x && a.policy == Allow)
  }

  /** Stack x has answered the other's join with a response. */
  predicate Responded(w: World, x: Side) {
    w.At(x).joinent == Some(true) || Packet(Other(x), true, Response) in w.air
  }

  /** A response has come to the join of x, which is held back or complete. */
  predicate Passed(w: World, x: Side) { w.At(x).joiner == Live(true) || w.At(x).joiner == Complete }

  lemma PurgeConsents(w: World, y: Side, x: Side)
    ensures Responded(Purge(w, y), x) ==> Responded(w, x)
    ensures Passed(Purge(w, y), x) ==> Passed(w, x)
    ensures Purge(w, y).At(x).joiner == Complete <==> w.At(x).joiner == Complete
  {
  }

  lemma StepConsents(w: World, a: Action, x: Side)
    requires Enabled(w, a)
    ensures Responded(Step(w, a), x) ==> Responded(w, x) || Grants(a, x)
    ensures Passed(Step(w, a), x) ==> Passed(w, x) || Packet(x, true, Response) in w.air
    ensures Step(w, a).At(x).joiner == Complete ==> w.At(x).joiner == Complete || Accepts(a, x)
  {
    match a {
      case Deliver(p, policy) =>
        if p.toOwner {
          HearConsents(w, p.owner, p.kind, policy, x);
        } else {
          AnswerConsents(w, Other(p.owner), p.kind, policy, x);
        }
      case PollJoiner(y, policy) => PurgeConsents(w, y, x); hide Purge;
      case PollJoinent(y, policy) => PurgeConsents(w, y, x); hide Purge;
      case _ =>
    }
  }

  lemma HearConsents(w: World, y: Side, kind: Kind, policy: Policy, x: Side)
    requires Packet(y, true, kind) in w.air
    ensures var w' := JoinerHears(w, y, kind, policy);
            && (Responded(w', x) ==> Responded(w, x))
            && (Passed(w', x) ==> Passed(w, x) || Packet(x, true, Response) in w.air)
            && (w'.At(x).joiner == Complete ==>
                  w.At(x).joiner == Complete || Accepts(Deliver(Packet(y, true, kind), policy), x))
  {
    PurgeConsents(w, y, x);
    PurgeConsents(w.Set(y, w.At(y).(joiner := Dead), {}), y, x);
    hide Purge;
  }

  /** What answering the other's join may change. */
  ghost predicate Consents(w: World, w': World, a: Action, x: Side) {
    && (Responded(w', x) ==> Responded(w, x) || Grants(a, x))
    && (Passed(w', x) ==> Passed(w, x))
    && (w'.At(x).joiner == Complete ==> w.At(x).joiner == Complete)
  }

  lemma AnswerConsents(w: World, y: Side, kind: Kind, policy: Policy, x: Side)
    ensures Consents(w, JoinentHears(w, y, kind, policy), Deliver(Packet(Other(y), false, kind), policy), x)
  {
    if kind == Request && !(w.At(y).gone && !w.At(Other(y)).vacuous) {
      hide Consents, RequestArrives;
      RequestConsents(w, y, policy, x);
    } else {
      PurgeConsents(w.Set(y, w.At(y).(joinent := None), {}), y, x);
      hide Purge, RequestArrives;
    }
  }

  lemma PolicyConsents(w: World, y: Side, policy: Policy, x: Side)
    ensures Consents(w, Answer(w, y, policy), Deliver(Packet(Other(y), false, Request), policy), x)
  {
    PurgeConsents(w, y, x);
    hide Purge;
  }

  /** Giving up transactions and nacking consents to nothing. */
  lemma EndingConsents(w: World, y: Side, e: End, sent: set<Packet>, a: Action, x: Side)
    requires e.joiner == w.At(y).joiner || e.joiner == Dead
    requires e.joinent == w.At(y).joinent || e.joinent == None
    requires forall p :: p in sent ==> p.kind == Nack
    ensures Consents(w, w.Set(y, e, sent), a, x)
  {
  }

  /** What a request comes to, once the joins in process have been dealt with. */
  lemma RequestComesTo(w: World, y: Side, policy: Policy) returns (w1: World)
    ensures w1 == w || w1 == w.Set(y, w.At(y).(joiner := Dead), {Packet(y, false, Nack)})
    ensures var w' := RequestArrives(w, y, policy);
            || w' == w.Set(y, w.At(y).(joinent := None), {}) || w' == w1
            || w' == w1.Set(y, w1.At(y).(joinent := None), {Packet(Other(y), true, Nack)})
            || w' == Answer(w1, y, policy)
  {
    var e, o := w.At(y), w.At(Other(y));
    var (ruling, nacked) := Decide(o.vacuous, e.name, o.name, InProcess(e, o.vacuous));
    w1 := if nacked > 0 then w.Set(y, e.(joiner := Dead), {Packet(y, false, Nack)}) else w;
    hide Answer, Decide, InProcess, Before;
  }

  lemma RequestConsents(w: World, y: Side, policy: Policy, x: Side)
    ensures Consents(w, RequestArrives(w, y, policy), Deliver(Packet(Other(y), false, Request), policy), x)
  {
    var e, a := w.At(y), Deliver(Packet(Other(y), false, Request), policy);
    var w1 := RequestComesTo(w, y, policy);
    EndingConsents(w, y, e.(joiner := Dead), {Packet(y, false, Nack)}, a, x);
    EndingConsents(w, y, e.(joinent := None), {}, a, x);
    EndingConsents(w1, y, w1.At(y).(joinent := None), {Packet(Other(y), true, Nack)}, a, x);
    PolicyConsents(w1, y, policy, x);
    hide RequestArrives, Responded, Passed, Answer, Grants;
  }

  /** From w on: what is responded and accepted at the end was so before or is by an action of the run. */
  lemma {:induction false} RunConsents(w: World, run: seq<Action>, x: Side)
    requires Legal(w, run)
    ensures Responded(Run(w, run), x) ==> Responded(w, x) || exists k :: 0 <= k < |run| && Grants(run[k], x)
    ensures Run(w, run).At(x).joiner == Complete ==>
              w.At(x).joiner == Complete || exists k :: 0 <= k < |run| && Accepts(run[k], x)
    ensures Passed(Run(w, run), x) ==> Passed(w, x) || Packet(x, true, Response) in Run(w, run).air
    ensures w.air <= Run(w, run).air
    decreases |run|
  {
    if run != [] {
      var w1 := Step(w, run[0]);
      StepConsents(w, run[0], x);
      StepTells(w, run[0], x);
      assert w.air <= w1.air;
      hide Step, Grants, Accepts, Responded, Passed;
      RunConsents(w1, run[1..], x);
      assert forall k :: 0 <= k < |run| - 1 ==> run[1..][k] == run[k + 1];
    }
  }

  /** No join without consent. In every run a join that completes was let pass by the policy of the stack
      it asked, and by that of its own. */
  lemma Consent(left: string, lv: bool, right: string, rv: bool, run: seq<Action>, x: Side)
    requires Legal(Start(left, lv, right, rv), run)
    requires Run(Start(left, lv, right, rv), run).At(x).joiner == Complete
    ensures exists k :: 0 <= k < |run| && Grants(run[k], Other(x))
    ensures exists k :: 0 <= k < |run| && Accepts(run[k], x)
  {
    var w := Start(left, lv, right, rv);
    RunConsents(w, run, x);
    RunConsents(w, run, Other(x));
    assert Other(Other(x)) == x;
    hide Run, Legal, Grants, Accepts;
  }
}
