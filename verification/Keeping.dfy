/** Acceptance of a role's keys: raet/road/keeping.py, statusRole, over role data kept in memory. */
module Keeping {
  import opened Basics

  datatype Acceptance = Pending | Accepted | Rejected

  datatype AutoMode = Never | Once | Always

  /** The data file of a role; None is the null of a field never set, and of a file not there. */
  datatype RoleData = RoleData(acceptance: Option<Acceptance>, verhex: Option<string>, pubhex: Option<string>)

  const NO_DATA := RoleData(None, None, None)

  type Roles = map<string, RoleData>

  /** loadRemoteRoleData */
  function Load(roles: Roles, role: string): RoleData {
    if role in roles then roles[role] else NO_DATA
  }

  predicate SameKeys(d: RoleData, verhex: string, pubhex: string) {
    d.verhex == Some(verhex) && d.pubhex == Some(pubhex)
  }

  function Status(auto: AutoMode, d: RoleData, verhex: string, pubhex: string): Acceptance {
    match auto
    case Always => Accepted
    case Once =>
      (match d.acceptance
       case None => Accepted
       case Some(Rejected) => Rejected
       case Some(_) => if SameKeys(d, verhex, pubhex) then Accepted else Rejected)
    case Never =>
      (match d.acceptance
       case None => Pending
       case Some(s) => if SameKeys(d, verhex, pubhex) then s else Rejected)
  }

  /** What is persisted for a status: nothing if it is a rejection; empty keys are left out. */
  function Updated(d: RoleData, status: Acceptance, verhex: string, pubhex: string): RoleData {
    if status == Rejected then d
    else RoleData(Some(status), if verhex != "" then Some(verhex) else d.verhex,
                  if pubhex != "" then Some(pubhex) else d.pubhex)
  }

  datatype Ask = Ask(auto: AutoMode, role: string, verhex: string, pubhex: string, dump: bool)

  function Answer(roles: Roles, a: Ask): Acceptance {
    Status(a.auto, Load(roles, a.role), a.verhex, a.pubhex)
  }

  /** The role data after statusRole. */
  function After(roles: Roles, a: Ask): Roles {
    var status := Answer(roles, a);
    if a.dump && status != Rejected
    then roles[a.role := Updated(Load(roles, a.role), status, a.verhex, a.pubhex)] else roles
  }

  class RoadKeep {
    const auto: AutoMode
    var roles: Roles

    constructor (auto: AutoMode)
      ensures this.auto == auto && roles == map[]
    {
      this.auto, roles := auto, map[];
    }

    method StatusRole(role: string, verhex: string, pubhex: string, dump: bool) returns (status: Acceptance)
      modifies this
      ensures var a := Ask(auto, role, verhex, pubhex, dump);
              status == Answer(old(roles), a) && roles == After(old(roles), a)
    {
      var data := Load(roles, role);
      match auto {
        case Always =>
          status := Accepted;
        case Once =>
          if data.acceptance == None {
            status := Accepted;
          } else {
            status := data.acceptance.value;
            if status == Accepted {
              if Some(verhex) != data.verhex || Some(pubhex) != data.pubhex {
                status := Rejected;
              }
            } else if status == Pending {
              if Some(verhex) != data.verhex || Some(pubhex) != data.pubhex {
                status := Rejected;
              } else {
                status := Accepted;
              }
            }
          }
        case Never =>
          if data.acceptance == None {
            status := Pending;
          } else {
            status := data.acceptance.value;
            if status == Accepted || status == Pending {
              if Some(verhex) != data.verhex || Some(pubhex) != data.pubhex {
                status := Rejected;
              }
            }
          }
      }
      if dump {
        var dirty := false;
        if status != Rejected {
          if verhex != "" && Some(verhex) != data.verhex {
            data, dirty := data.(verhex := Some(verhex)), true;
          }
          if pubhex != "" && Some(pubhex) != data.pubhex {
            data, dirty := data.(pubhex := Some(pubhex)), true;
          }
          if Some(status) != data.acceptance {
            data, dirty := data.(acceptance := Some(status)), true;
          }
        }
        if dirty {
          roles := roles[role := data];
        } else if status != Rejected {
          assert role in roles && roles[role := data] == roles;
        }
      }
    }
  }

  // ------------------------------------------------------------------ Key pinning

  function Run(roles: Roles, asks: seq<Ask>): Roles
    decreases |asks|
  {
    if asks == [] then roles else Run(After(roles, asks[0]), asks[1..])
  }

  /** How far a role's acceptance has come. */
  function Rank(a: Option<Acceptance>): nat {
    match a
    case None => 0
    case Some(Pending) => 1
    case Some(Accepted) => 2
    case Some(Rejected) => 3
  }

  /** One call changes the persisted keys of a role with an acceptance exactly if the mode is
      always, the call may write, and a key given differs. */
  lemma PinnedExactly(roles: Roles, a: Ask, role: string)
    requires Load(roles, role).acceptance.Some?
    ensures var (d, d') := (Load(roles, role), Load(After(roles, a), role));
            (d'.verhex != d.verhex || d'.pubhex != d.pubhex) <==>
              && a.role == role && a.auto == Always && a.dump
              && ((a.verhex != "" && d.verhex != Some(a.verhex)) || (a.pubhex != "" && d.pubhex != Some(a.pubhex)))
  {
  }

  /** What no call in the modes never and once undoes. */
  ghost predicate Pinned(d: RoleData, d': RoleData) {
    && (d.acceptance.Some? ==> d'.verhex == d.verhex && d'.pubhex == d.pubhex)
    && Rank(d.acceptance) <= Rank(d'.acceptance)
    && (d'.acceptance == Some(Rejected) ==> d.acceptance == Some(Rejected))
  }

  /** Keys are pinned over every run of calls in the modes never and once: once a role has an
      acceptance its persisted keys never change, and the acceptance only moves from none to
      pending to accepted and is never written as rejected. */
  lemma {:induction false} KeysPinned(roles: Roles, asks: seq<Ask>, role: string)
    requires forall a :: a in asks ==> a.auto != Always
    ensures Pinned(Load(roles, role), Load(Run(roles, asks), role))
    decreases |asks|
  {
    if asks != [] {
      assert asks[0] in asks;
      KeysPinned(After(roles, asks[0]), asks[1..], role);
    }
  }

  /** An accepted answer for two keys means they are the persisted ones, in every mode. */
  lemma AcceptedArePersisted(roles: Roles, a: Ask)
    requires a.dump && a.verhex != "" && a.pubhex != "" && Answer(roles, a) == Accepted
    ensures var d := Load(After(roles, a), a.role);
            SameKeys(d, a.verhex, a.pubhex) && d.acceptance == Some(Accepted)
  {
  }

  /** Trust on first use: when a role's keys were once not rejected and persisted, no other keys
      are accepted for it afterwards, whatever else was asked in between. */
  lemma OnlyFirstKeys(roles: Roles, first: Ask, asks: seq<Ask>, later: Ask)
    requires first.dump && first.verhex != "" && first.pubhex != "" && Answer(roles, first) != Rejected
    requires (forall a :: a in asks ==> a.auto != Always) && later.auto != Always && later.role == first.role
    requires Answer(Run(After(roles, first), asks), later) != Rejected
    ensures later.verhex == first.verhex && later.pubhex == first.pubhex
  {
    KeysPinned(After(roles, first), asks, first.role);
    var d := Load(After(roles, first), first.role);
    assert d.acceptance.Some? && SameKeys(d, first.verhex, first.pubhex);
  }

  /** A role first met without keys is locked: from then on neither mode accepts any keys for it. */
  lemma FirstWithoutKeysLocks(roles: Roles, first: Ask, asks: seq<Ask>, later: Ask)
    requires Load(roles, first.role) == NO_DATA && first.dump && first.auto != Always
    requires first.verhex == "" || first.pubhex == ""
    requires (forall a :: a in asks ==> a.auto != Always) && later.auto != Always && later.role == first.role
    ensures Answer(Run(After(roles, first), asks), later) == Rejected
  {
    KeysPinned(After(roles, first), asks, first.role);
    var d := Load(After(roles, first), first.role);
    assert d.acceptance.Some? && (d.verhex == None || d.pubhex == None);
  }

  // ------------------------------------------------------------ Who may be accepted

  /** In mode never no call makes an accepted role of one that was not, or changes one that was. */
  lemma NeverKeeps(roles: Roles, a: Ask, role: string)
    requires a.auto == Never
    ensures var (d, d') := (Load(roles, role), Load(After(roles, a), role));
            if d.acceptance == Some(Accepted) then d' == d else d'.acceptance != Some(Accepted)
  {
  }

  /** Mode never accepts nothing by itself. After every run of calls in it, an answer is accepted if
      and only if the role had been accepted before all of them, with just these keys. */
  lemma {:induction false} NeverByItself(roles: Roles, asks: seq<Ask>, a: Ask)
    requires a.auto == Never && forall b :: b in asks ==> b.auto == Never
    ensures var d := Load(roles, a.role);
            Answer(Run(roles, asks), a) == Accepted
            <==> d.acceptance == Some(Accepted) && SameKeys(d, a.verhex, a.pubhex)
    decreases |asks|
  {
    if asks != [] {
      assert asks[0] in asks;
      NeverKeeps(roles, asks[0], a.role);
      NeverByItself(After(roles, asks[0]), asks[1..], a);
      hide After, Run, Answer;
    }
  }

  /** What a mode makes of a role met for the first time. */
  function AtFirst(auto: AutoMode): Acceptance {
    if auto == Never then Pending else Accepted
  }

  /** One call in a mode other than always leaves the data of a role met in that mode as it is. */
  lemma MetKeeps(roles: Roles, a: Ask, role: string)
    requires a.auto != Always && Load(roles, role).acceptance == Some(AtFirst(a.auto))
    ensures Load(After(roles, a), role) == Load(roles, role)
  {
  }

  lemma {:induction false} MetStays(roles: Roles, asks: seq<Ask>, auto: AutoMode, role: string)
    requires auto != Always && Load(roles, role).acceptance == Some(AtFirst(auto))
    requires forall b :: b in asks ==> b.auto == auto
    ensures Load(Run(roles, asks), role) == Load(roles, role)
    decreases |asks|
  {
    if asks != [] {
      assert asks[0] in asks;
      MetKeeps(roles, asks[0], role);
      MetStays(After(roles, asks[0]), asks[1..], auto, role);
      hide After, Run;
    }
  }

  /** The keys a role is first met with decide every later answer in the same mode: pending in mode
      never and accepted in mode once for these keys, and rejected for any others. */
  lemma FirstKeysDecide(roles: Roles, first: Ask, asks: seq<Ask>, later: Ask)
    requires Load(roles, first.role).acceptance == None
    requires first.auto != Always && first.dump && first.verhex != "" && first.pubhex != ""
    requires later.auto == first.auto && later.role == first.role && forall b :: b in asks ==> b.auto == first.auto
    ensures Answer(roles, first) == AtFirst(first.auto)
    ensures Answer(Run(After(roles, first), asks), later)
            == if later.verhex == first.verhex && later.pubhex == first.pubhex then AtFirst(first.auto) else Rejected
  {
    MetStays(After(roles, first), asks, first.auto, first.role);
    assert Load(After(roles, first), first.role)
           == RoleData(Some(AtFirst(first.auto)), Some(first.verhex), Some(first.pubhex));
    hide After, Run;
  }

  /** Mode always accepts any keys; if it may write they are then the persisted ones, and the role
      is accepted with them in every mode. */
  lemma AlwaysAccepts(roles: Roles, a: Ask, later: Ask)
    requires a.auto == Always && a.dump && a.verhex != "" && a.pubhex != "" && later.role == a.role
    ensures Answer(roles, a) == Accepted
    ensures Answer(After(roles, a), later) == Accepted
            <==> later.auto == Always || (later.verhex == a.verhex && later.pubhex == a.pubhex)
    ensures Answer(After(roles, a), later) != Pending
  {
  }

  /** A call that makes the role accepted: in mode once, allowed to write, and answered so. */
  predicate Makes(roles: Roles, a: Ask, role: string) {
    a.role == role && a.auto == Once && a.dump && Answer(roles, a) == Accepted
  }

  /** Without mode always a role is accepted after a run if and only if it was before, or some call of
      the run in mode once made it so. */
  lemma {:induction false} AcceptedExactly(roles: Roles, asks: seq<Ask>, role: string)
    requires forall b :: b in asks ==> b.auto != Always
    ensures Load(Run(roles, asks), role).acceptance == Some(Accepted)
            <==> || Load(roles, role).acceptance == Some(Accepted)
                 || exists k :: 0 <= k < |asks| && Makes(Run(roles, asks[..k]), asks[k], role)
    decreases |asks|
  {
    if asks != [] {
      assert asks[0] in asks;
      var roles1 := After(roles, asks[0]);
      assert Load(roles1, role).acceptance == Some(Accepted)
             <==> Load(roles, role).acceptance == Some(Accepted) || Makes(roles, asks[0], role);
      hide After, Makes;
      AcceptedExactly(roles1, asks[1..], role);
      MadeSomewhere(roles, asks, role);
    }
  }

  /** The first call makes it so, or one of the others. */
  lemma MadeSomewhere(roles: Roles, asks: seq<Ask>, role: string)
    requires asks != []
    ensures (exists k :: 0 <= k < |asks| && Makes(Run(roles, asks[..k]), asks[k], role))
            <==> || Makes(roles, asks[0], role)
                 || exists k :: 0 <= k < |asks[1..]|
                                && Makes(Run(After(roles, asks[0]), asks[1..][..k]), asks[1..][k], role)
  {
    var roles1 := After(roles, asks[0]);
    assert asks[..0] == [] && Run(roles, asks[..0]) == roles;
    forall k | 0 <= k < |asks| - 1
      ensures asks[1..][k] == asks[k + 1] && Run(roles1, asks[1..][..k]) == Run(roles, asks[..k + 1])
    {
      assert asks[..k + 1][0] == asks[0] && asks[..k + 1][1..] == asks[1..][..k];
    }
    hide After, Makes, Run;
    if k :| 0 <= k < |asks| - 1 && Makes(Run(roles1, asks[1..][..k]), asks[1..][k], role) {
      assert Makes(Run(roles, asks[..k + 1]), asks[k + 1], role);
    }
    if k :| 0 < k < |asks| && Makes(Run(roles, asks[..k]), asks[k], role) {
      assert Makes(Run(roles1, asks[1..][..k - 1]), asks[1..][k - 1], role);
    }
  }
}
