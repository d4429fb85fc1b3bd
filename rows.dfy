/** One row of the import table as the map builder reads it, and the tolerant
    reading of its swing-state flag. */
module Rows {
  import opened Wrappers
  import opened Text

  /** The `Geopolitical_swing_state` cell: a Python `bool`, or any other value,
      given by its `str()` form (a NaN cell is `Other("nan")`). */
  datatype SwingValue = Flag(b: bool) | Other(text: string)

  /** A row: `CTYNAME`, `Imports ($B)` and `Tariff Rate` (`None` for NaN),
      and the swing-state cell. */
  datatype Row = Row(name: string, imports: Option<real>, tariff: Option<real>, swing: SwingValue)

  /** `is_swing_state`: a bool is taken as it is; anything else is swing
      exactly when its lower-cased string form is "true". */
  function IsSwing(v: SwingValue): bool
  {
    match v
    case Flag(b) => b
    case Other(s) => Lower(s) == "true"
  }

  /** A character is `c`, or its upper-case ASCII form. */
  predicate EitherCase(c: char, lower: char)
  {
    c == lower || c as int == lower as int - 32
  }

  /** Reference reading of the flag: a non-bool value counts as swing exactly
      when its string form is four characters spelling "true" in any mix of
      cases. */
  lemma {:induction false} IsSwingOtherIff(s: string)
    ensures IsSwing(Other(s)) <==>
      |s| == 4 && EitherCase(s[0], 't') && EitherCase(s[1], 'r') && EitherCase(s[2], 'u') && EitherCase(s[3], 'e')
  {
    var l := Lower(s);
    if |s| == 4 {
      if l == "true" {
        assert l[0] == 't' && l[1] == 'r' && l[2] == 'u' && l[3] == 'e';
      }
      if EitherCase(s[0], 't') && EitherCase(s[1], 'r') && EitherCase(s[2], 'u') && EitherCase(s[3], 'e') {
        assert l == [l[0], l[1], l[2], l[3]];
      }
    }
  }

  /** Examples: "TRUE" and "True" are swing; " true", "1" and "nan" are not. */
  lemma IsSwingExamples()
    ensures IsSwing(Other("TRUE")) && IsSwing(Other("True")) && IsSwing(Flag(true))
    ensures !IsSwing(Other(" true")) && !IsSwing(Other("1")) && !IsSwing(Other("nan")) && !IsSwing(Flag(false))
  {
    IsSwingOtherIff("TRUE");
    IsSwingOtherIff("True");
    IsSwingOtherIff(" true");
    IsSwingOtherIff("nan");
  }
}
