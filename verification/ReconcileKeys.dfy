/** The idempotency keys `reconcile_capabilities` forms from the revisions it has read. */
module ReconcileKeys {
  const KEY_PREFIX := "capability-reconcile-"

  function Digits(n: nat): (s: string)
    ensures s != [] && forall i :: 0 <= i < |s| ==> s[i] != '-'
  {
    var last := [(n % 10 + '0' as int) as char];
    if n < 10 then last else Digits(n / 10) + last
  }

  /** `str` of an integer. */
  function Decimal(n: int): string {
    if n < 0 then "-" + Digits(-n) else Digits(n)
  }

  function StartKey(revision: int): string {
    "capability-reconcile-start-" + Decimal(revision)
  }

  function FinishKey(registryRevision: int): string {
    "capability-reconcile-complete-" + Decimal(registryRevision)
  }

  /** The number a string of digits is read as. */
  function Value(s: string): int
    decreases |s|
  {
    if s == [] then 0 else 10 * Value(s[..|s| - 1]) + (s[|s| - 1] as int - '0' as int)
  }

  /** A number is written in the digits 0 to 9, without a leading zero, and reads back as itself. */
  lemma {:induction false} DigitsReadBack(n: nat)
    ensures Value(Digits(n)) == n
    ensures forall i :: 0 <= i < |Digits(n)| ==> '0' <= Digits(n)[i] <= '9'
    ensures n > 0 ==> Digits(n)[0] != '0'
  {
    if n >= 10 {
      DigitsReadBack(n / 10);
      assert Digits(n)[..|Digits(n)| - 1] == Digits(n / 10);
    }
  }

  lemma {:induction false} DigitsInjective(a: nat, b: nat)
    requires Digits(a) == Digits(b)
    ensures a == b
    decreases a
  {
    var s, t := Digits(a), Digits(b);
    assert s[|s| - 1] == t[|t| - 1];
    assert a % 10 == b % 10;
    if a >= 10 && b >= 10 {
      assert Digits(a / 10) == s[..|s| - 1] && Digits(b / 10) == t[..|t| - 1];
      DigitsInjective(a / 10, b / 10);
    }
  }

  lemma DecimalInjective(a: int, b: int)
    requires Decimal(a) == Decimal(b)
    ensures a == b
  {
    assert Decimal(a)[0] == Decimal(b)[0];
    if a < 0 {
      assert Decimal(a)[1..] == Digits(-a) && Decimal(b)[1..] == Digits(-b);
      DigitsInjective(-a, -b);
    } else {
      DigitsInjective(a, b);
    }
  }

  lemma StartKeyInjective(a: int, b: int)
    ensures StartKey(a) == StartKey(b) ==> a == b
  {
    if StartKey(a) == StartKey(b) {
      var n := |"capability-reconcile-start-"|;
      assert StartKey(a)[n..] == Decimal(a) && StartKey(b)[n..] == Decimal(b);
      DecimalInjective(a, b);
    }
  }

  lemma FinishKeyInjective(a: int, b: int)
    ensures FinishKey(a) == FinishKey(b) ==> a == b
  {
    if FinishKey(a) == FinishKey(b) {
      var n := |"capability-reconcile-complete-"|;
      assert FinishKey(a)[n..] == Decimal(a) && FinishKey(b)[n..] == Decimal(b);
      DecimalInjective(a, b);
    }
  }

  /** The two families of keys are disjoint, and recognizable. */
  lemma KeysApart(revision: int, registryRevision: int)
    ensures StartKey(revision) != FinishKey(registryRevision)
    ensures KEY_PREFIX <= StartKey(revision) && KEY_PREFIX <= FinishKey(registryRevision)
  {
    assert StartKey(revision)[21] == 's' && FinishKey(registryRevision)[21] == 'c';
  }
}
