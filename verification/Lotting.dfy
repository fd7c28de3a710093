/** Session, transaction and unique ids that roll over: raet/lotting.py, and nextTid and nextUid
    of raet/road/estating.py and raet/stacking.py, which count the same way. */
module Lotting {

  const SID_WRAP_MODULO := 0x1_0000_0000
  const SID_WRAP_DELTA := 0x8000_0000
  const SID_ROLLOVER := 0xffff_ffff

  predicate IsId(n: int) { 0 <= n <= SID_ROLLOVER }

  /** The id after n: 0 is special, so rollover goes to 1. */
  function Next(n: nat): (r: nat)
    ensures IsId(n) ==> 1 <= r <= SID_ROLLOVER
  {
    if n + 1 > SID_ROLLOVER then 1 else n + 1
  }

  function After(n: nat, k: nat): (r: nat)
    ensures IsId(n) ==> IsId(r)
    decreases k
  {
    if k == 0 then n else After(Next(n), k - 1)
  }

  /** Lot.validateSid */
  predicate ValidSid(newer: int, older: int) {
    older == 0 || newer == 0 || (newer - older) % SID_WRAP_MODULO < SID_WRAP_DELTA
  }

  /** k steps from s, in closed form: counting modulo 2^32 - 1 over 1..2^32-1. */
  lemma {:induction false} AfterIs(s: nat, k: nat)
    requires 1 <= s <= SID_ROLLOVER
    ensures After(s, k) == (s - 1 + k) % SID_ROLLOVER + 1
    decreases k
  {
    if k > 0 {
      AfterIs(Next(s), k - 1);
      if s == SID_ROLLOVER {
        var m := SID_ROLLOVER;
        assert (s - 1 + k) == (k - 1) + m;
        assert ((k - 1) + m) % m == (k - 1) % m;
      }
    }
  }

  /** Numbers reached within one turn, without the modulo. */
  lemma AfterWithinTurn(s: nat, k: nat)
    requires 1 <= s <= SID_ROLLOVER && k < SID_ROLLOVER
    ensures After(s, k) == if s + k <= SID_ROLLOVER then s + k else s + k - SID_ROLLOVER
  {
    AfterIs(s, k);
  }

  /** The distance the comparison sees: one more than the steps taken if the id rolled over,
      because 0 is skipped. */
  function Distance(s: nat, k: nat): nat {
    k + if s + k > SID_ROLLOVER then 1 else 0
  }

  lemma Wraps(x: int)
    requires -SID_WRAP_MODULO <= x < SID_WRAP_MODULO
    ensures x % SID_WRAP_MODULO == if x < 0 then x + SID_WRAP_MODULO else x
  {
  }

  /** Exactly when a later session id is valid against an earlier one, and the reverse. */
  lemma LaterSidExactly(s: nat, k: nat)
    requires 1 <= s <= SID_ROLLOVER && 1 <= k < SID_ROLLOVER
    ensures ValidSid(After(s, k), s) <==> Distance(s, k) < SID_WRAP_DELTA
    ensures ValidSid(s, After(s, k)) <==> Distance(s, k) > SID_WRAP_DELTA
  {
    AfterWithinTurn(s, k);
    hide After;
    Wraps(After(s, k) - s);
    Wraps(s - After(s, k));
  }

  /** For up to 2^31 - 2 steps the newer id is accepted and the older refused, from anywhere. */
  lemma LaterSidWins(s: nat, k: nat)
    requires 1 <= s <= SID_ROLLOVER && 1 <= k <= SID_WRAP_DELTA - 2
    ensures ValidSid(After(s, k), s) && !ValidSid(s, After(s, k))
  {
    LaterSidExactly(s, k);
  }

  /** The bound is sharp: one step more, across the rollover, and the newer id is refused. */
  lemma LaterSidBoundIsSharp()
    ensures !ValidSid(After(SID_ROLLOVER, SID_WRAP_DELTA - 1), SID_ROLLOVER)
  {
    LaterSidExactly(SID_ROLLOVER, SID_WRAP_DELTA - 1);
  }

  /** Serial number order as section 3.2 of RFC 1982 defines it for 32 bits, with equality. */
  predicate SerialAtLeast(i1: int, i2: int) {
    || i1 == i2
    || (i1 > i2 && i1 - i2 < SID_WRAP_DELTA)
    || (i1 < i2 && i2 - i1 > SID_WRAP_DELTA)
  }

  lemma ComparisonIsSerial(a: int, b: int)
    requires 1 <= a <= SID_ROLLOVER && 1 <= b <= SID_ROLLOVER
    ensures ValidSid(a, b) <==> SerialAtLeast(a, b)
  {
    Wraps(a - b);
  }

  /** Within one turn no id comes twice. */
  lemma AfterInjective(s: nat, j: nat, k: nat)
    requires IsId(s) && 1 <= j < k <= SID_ROLLOVER
    ensures After(s, j) != After(s, k)
  {
    AfterWithinTurn(Next(s), j - 1);
    AfterWithinTurn(Next(s), k - 1);
  }

  class Lot {
    var sid: nat

    constructor (sid: nat)
      ensures this.sid == sid
    {
      this.sid := sid;
    }

    method NextSid() returns (r: nat)
      modifies this
      ensures sid == Next(old(sid)) && r == sid
    {
      sid := sid + 1;
      if sid > SID_ROLLOVER {
        sid := 1;
      }
      return sid;
    }
  }
}
