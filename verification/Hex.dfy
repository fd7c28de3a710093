/** Python's {:x} and {:0wx} formats and int(text, 16) on what they print. */
module Hex {
  import opened Basics

  function Digit(d: nat): char
    requires d < 16
  {
    if d < 10 then '0' + d as char else 'a' + (d - 10) as char
  }

  predicate IsDigit(c: char) { '0' <= c <= '9' || 'a' <= c <= 'f' }

  function DigitValue(c: char): Option<nat> {
    if '0' <= c <= '9' then Some((c - '0') as nat)
    else if 'a' <= c <= 'f' then Some((c - 'a') as nat + 10)
    else if 'A' <= c <= 'F' then Some((c - 'A') as nat + 10)
    else None
  }

  /** n in base 16, zero-padded to at least w digits. */
  function Print(n: nat, w: nat): (s: string)
    requires w >= 1
    ensures |s| >= w
    ensures forall i :: 0 <= i < |s| ==> IsDigit(s[i])
    decreases n, w
  {
    if n < 16 && w <= 1 then [Digit(n)]
    else Print(n / 16, if w > 1 then w - 1 else 1) + [Digit(n % 16)]
  }

  function Parse(s: string): Option<nat> {
    if s == "" then None
    else
      var last := DigitValue(s[|s| - 1]);
      if last.None? then None
      else if |s| == 1 then last
      else
        var front := Parse(s[..|s| - 1]);
        if front.None? then None else Some(front.value * 16 + last.value)
  }

  lemma ParseDigit(front: string, d: nat)
    requires d < 16
    ensures Parse([Digit(d)]) == Some(d)
    ensures front != "" && Parse(front).Some? ==> Parse(front + [Digit(d)]) == Some(Parse(front).value * 16 + d)
  {
    assert DigitValue(Digit(d)) == Some(d);
    assert (front + [Digit(d)])[..|front|] == front;
  }

  lemma {:induction false} ParsePrint(n: nat, w: nat)
    requires w >= 1
    ensures Parse(Print(n, w)) == Some(n)
    decreases n, w
  {
    if n < 16 && w <= 1 {
      ParseDigit("", n);
    } else {
      var fewer := if w > 1 then w - 1 else 1;
      ParsePrint(n / 16, fewer);
      ParseDigit(Print(n / 16, fewer), n % 16);
    }
  }

  function Pow16(k: nat): nat { if k == 0 then 1 else 16 * Pow16(k - 1) }

  /** A number below 16^k needs no more than k digits. */
  lemma {:induction false} PrintLength(n: nat, w: nat, k: nat)
    requires 1 <= w <= k && n < Pow16(k)
    ensures |Print(n, w)| <= k
    decreases n, w
  {
    assert k == 1 ==> n < 16 * Pow16(0);
    if n >= 16 || w > 1 {
      PrintLength(n / 16, if w > 1 then w - 1 else 1, k - 1);
    }
  }

  /** And one from 16^k on needs more than k. */
  lemma {:induction false} PrintAtLeast(n: nat, k: nat)
    requires n >= Pow16(k)
    ensures |Print(n, 1)| > k
    decreases k
  {
    if k > 0 {
      AtLeastOne(k - 1);
      PrintAtLeast(n / 16, k - 1);
    }
  }

  lemma AtLeastOne(k: nat)
    ensures Pow16(k) >= 1
  {
  }

  lemma Powers()
    ensures Pow16(2) == 256 && Pow16(4) == 65536 && Pow16(7) == 0x1000_0000 && Pow16(8) == 0x1_0000_0000
  {
    assert Pow16(2) == 16 * 16 * Pow16(0);
    assert Pow16(4) == 16 * 16 * Pow16(2);
    assert Pow16(7) == 16 * 16 * 16 * Pow16(4);
  }
}
