/** Integers as decimal text, as strconv and fmt write and read them. */
module Decimals {
  import opened Widths
  import opened Texts
  import opened Outcomes

  predicate IsInt(n: int) { -TWO_63 <= n < TWO_63 }

  predicate AllDigits(t: Text)
  {
    t != [] && forall i | 0 <= i < |t| :: 48 <= t[i] <= 57
  }

  function Number(t: Text): int
  {
    if t == [] then 0 else Number(t[..|t| - 1]) * 10 + (t[|t| - 1] as int - 48)
  }

  /** strconv.Atoi. */
  function Atoi(t: Text): Outcome<int>
  {
    if t == [] then Failed
    else
      var signed := t[0] == 43 || t[0] == 45;
      var digits := if signed then t[1..] else t;
      if !AllDigits(digits) then Failed
      else
        var n := if t[0] == 45 then -Number(digits) else Number(digits);
        if IsInt(n) then Ok(n) else Failed
  }

  function Digits(n: nat): (t: Text)
    ensures AllDigits(t)
  {
    if n < 10 then [(48 + n) as Byte] else Digits(n / 10) + [(48 + n % 10) as Byte]
  }

  /** strconv.Itoa. */
  function Itoa(n: int): Text
  {
    if n < 0 then [45] + Digits(-n) else Digits(n)
  }

  lemma {:induction false} DigitsNumber(n: nat)
    ensures Number(Digits(n)) == n
  {
    if n < 10 {
      assert [(48 + n) as Byte][..0] == [];
    } else {
      DigitsNumber(n / 10);
      var t := Digits(n);
      assert t[..|t| - 1] == Digits(n / 10);
    }
  }

  lemma AtoiDigits(n: nat)
    requires n < TWO_63
    ensures Atoi(Digits(n)) == Ok(n)
  {
    DigitsNumber(n);
    assert 48 <= Digits(n)[0] <= 57;
  }

  lemma AtoiNegative(n: int)
    requires -TWO_63 <= n < 0
    ensures Atoi([45] + Digits(-n)) == Ok(n)
  {
    DigitsNumber(-n);
    var t: Text := [45] + Digits(-n);
    assert t[1..] == Digits(-n) && t[0] == 45;
  }

  /** Every 64-bit integer reads back as it was written. */
  lemma ItoaAtoi(n: int)
    requires IsInt(n)
    ensures Atoi(Itoa(n)) == Ok(n)
  {
    if n < 0 {
      AtoiNegative(n);
    } else {
      AtoiDigits(n);
    }
  }

  // ---------------------------------------------------------------- padded with zeros

  function Zeros(n: nat): (t: Text)
    ensures |t| == n && forall i | 0 <= i < n :: t[i] == 48
  {
    seq(n, _ => 48)
  }

  /** n as the verb %0<width>d writes it. */
  function Padded(n: nat, width: nat): (t: Text)
    ensures AllDigits(t)
  {
    var digits := Digits(n);
    if |digits| >= width then digits else Zeros(width - |digits|) + digits
  }

  lemma {:induction false} ZerosNumber(n: nat, t: Text)
    ensures Number(Zeros(n) + t) == Number(t)
    decreases |t|, n
  {
    var all := Zeros(n) + t;
    if t != [] {
      ZerosNumber(n, t[..|t| - 1]);
      assert all[..|all| - 1] == Zeros(n) + t[..|t| - 1];
    } else if n > 0 {
      ZerosNumber(n - 1, []);
      assert all[..|all| - 1] == Zeros(n - 1) + [];
    }
  }

  /** Padding does not change the number that is read. */
  lemma PaddedAtoi(n: nat, width: nat)
    requires n < TWO_63
    ensures Atoi(Padded(n, width)) == Ok(n)
  {
    var digits, t := Digits(n), Padded(n, width);
    DigitsNumber(n);
    if |digits| < width {
      ZerosNumber(width - |digits|, digits);
    }
    assert 48 <= t[0] <= 57;
  }
}
