/** The one string step of loading the table that the model keeps:
    `re.sub(r'%', '', str(x))` on the tariff cell. Parsing the result as a
    float is not modelled. */
module Loader {
  import opened Seqs

  /** The cell text with every '%' removed, wherever it stands. */
  function StripPercent(s: string): string
  {
    Where(s, c => c != '%')
  }

  /** The result holds no '%', and keeps every other character of the cell,
      in order; removing twice is removing once. */
  lemma StripPercentSpec(s: string, a: string, b: string)
    ensures '%' !in StripPercent(s)
    ensures StripPercent(a + b) == StripPercent(a) + StripPercent(b)
    ensures StripPercent(StripPercent(s)) == StripPercent(s)
    ensures '%' !in s ==> StripPercent(s) == s
  {
    WhereAppend(a, b, c => c != '%');
    WhereSpec(s, c => c != '%');
    NoPercentUnchanged(StripPercent(s));
    if '%' !in s {
      NoPercentUnchanged(s);
    }
  }

  lemma {:induction false} NoPercentUnchanged(s: string)
    requires '%' !in s
    ensures StripPercent(s) == s
  {
    if s != [] {
      assert s[1..] == s[|[s[0]]|..];
      NoPercentUnchanged(s[1..]);
    }
  }

  /** A cell that ends in a single '%' loses exactly that sign. */
  lemma StripTrailingSign(s: string)
    requires '%' !in s
    ensures StripPercent(s + "%") == s
  {
    assert StripPercent("%") == [];
    StripPercentSpec(s, s, "%");
  }

  /** "12.5%" becomes "12.5", and "1%2%" becomes "12": not only a trailing
      sign is removed. */
  lemma StripPercentExamples()
    ensures StripPercent("12.5%") == "12.5"
    ensures StripPercent("1%2%") == "12"
  {
    assert "12.5%" == "12.5" + "%";
    StripTrailingSign("12.5");
    assert "1%2%" == ("1" + "%") + ("2" + "%");
    StripTrailingSign("1");
    StripTrailingSign("2");
    StripPercentSpec("", "1" + "%", "2" + "%");
  }
}
