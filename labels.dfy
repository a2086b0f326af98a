/** The labels `step_<i>` that a branch gives its children, `<i>` being the
    zero-based position written in decimal (Python's `f'step_{i}'`). */
module Labels {
  import opened Definitions

  const Prefix: string := "step_"

  function Digit(d: nat): char
    requires d < 10
  {
    "0123456789"[d]
  }

  predicate IsDigit(c: char)
  {
    '0' <= c <= '9'
  }

  function DigitValue(c: char): nat
    requires IsDigit(c)
  {
    c as int - '0' as int
  }

  /** Decimal notation of `n`, without leading zeros, as `str(n)` writes it. */
  function Decimal(n: nat): string
  {
    if n < 10 then [Digit(n)] else Decimal(n / 10) + [Digit(n % 10)]
  }

  /** The value of a string of digits. */
  function DigitsValue(s: string): nat
    requires forall i :: 0 <= i < |s| ==> IsDigit(s[i])
  {
    if s == [] then 0 else 10 * DigitsValue(s[..|s| - 1]) + DigitValue(s[|s| - 1])
  }

  /** Reads a canonical decimal numeral (digits only, no leading zero). */
  function ParseDecimal(s: string): Option<nat>
  {
    if s != [] && (forall i :: 0 <= i < |s| ==> IsDigit(s[i])) && (s[0] != '0' || |s| == 1)
    then Some(DigitsValue(s))
    else None
  }

  lemma {:induction false} DecimalShape(n: nat)
    ensures Decimal(n) != []
    ensures forall i :: 0 <= i < |Decimal(n)| ==> IsDigit(Decimal(n)[i])
    ensures Decimal(n)[0] != '0' || n == 0
    ensures |Decimal(n)| == 1 <==> n < 10
  {
    if n >= 10 {
      DecimalShape(n / 10);
    }
  }

  lemma {:induction false} DecimalValue(n: nat)
    ensures forall i :: 0 <= i < |Decimal(n)| ==> IsDigit(Decimal(n)[i])
    ensures DigitsValue(Decimal(n)) == n
  {
    DecimalShape(n);
    if n >= 10 {
      DecimalValue(n / 10);
      var s := Decimal(n);
      assert s[..|s| - 1] == Decimal(n / 10);
    }
  }

  /** Writing a number and reading it back gives the number. */
  lemma {:induction false} DecimalRoundTrip(n: nat)
    ensures ParseDecimal(Decimal(n)) == Some(n)
  {
    DecimalShape(n);
    DecimalValue(n);
  }

  /** Every canonical numeral is the decimal notation of the number it reads as.
      Nothing in the translator reads a label back: this and LabelCanonical
      only describe the label format. */
  lemma {:induction false} ParseDecimalCanonical(s: string)
    requires ParseDecimal(s).Some?
    ensures Decimal(ParseDecimal(s).value) == s
  {
    var n := DigitsValue(s);
    if |s| == 1 {
      assert s[..|s| - 1] == [];
      assert DigitsValue(s[..|s| - 1]) == 0;
      assert n == DigitValue(s[0]);
      assert "0123456789"[n] == s[0];
    } else {
      var init := s[..|s| - 1];
      assert init[0] == s[0];
      assert ParseDecimal(init) == Some(DigitsValue(init));
      ParseDecimalCanonical(init);
      DecimalShape(DigitsValue(init));
      assert DigitsValue(init) != 0;
      assert n / 10 == DigitsValue(init) && n % 10 == DigitValue(s[|s| - 1]);
      assert "0123456789"[n % 10] == s[|s| - 1];
      assert s == init + [s[|s| - 1]];
    }
  }

  /** The label of the child at position `i`. */
  function Label(i: nat): string
  {
    Prefix + Decimal(i)
  }

  /** The position a label names, if it is a well-formed label. */
  function LabelIndex(s: string): Option<nat>
  {
    if |s| >= |Prefix| && s[..|Prefix|] == Prefix then ParseDecimal(s[|Prefix|..]) else None
  }

  /** A label gives back the position it was made from. */
  lemma LabelRoundTrip(i: nat)
    ensures LabelIndex(Label(i)) == Some(i)
  {
    assert Label(i)[|Prefix|..] == Decimal(i);
    DecimalRoundTrip(i);
  }

  /** Every well-formed label is the label of the position it names (a fact
      about the format; the translator never parses labels). */
  lemma LabelCanonical(s: string)
    requires LabelIndex(s).Some?
    ensures Label(LabelIndex(s).value) == s
  {
    ParseDecimalCanonical(s[|Prefix|..]);
    assert s == s[..|Prefix|] + s[|Prefix|..];
  }

  /** Two children of one branch never share a label. */
  lemma LabelsDistinct(i: nat, j: nat)
    requires i != j
    ensures Label(i) != Label(j)
  {
    LabelRoundTrip(i);
    LabelRoundTrip(j);
  }
}
