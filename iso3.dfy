/** The country shading layer's inputs: the hard-coded name-to-ISO3 mapping
    for swing-state countries and the three lists of the choropleth trace. */
module Iso3 {
  import opened Wrappers

  /** The ISO 3166-1 alpha-3 codes of the listed swing countries, as an
      enumeration (the trace receives their three-letter names). */
  datatype Code = VNM | BGD | IND | IDN | SGP | SWE | FRA | DEU | NLD | NOR | KWT | QAT | SAU | ARE | AUS | JPN | KOR | TWN | MEX | BRA | CHL | MAR

  /** An entry of the choropleth's `locations`: China's and the United
      States' own codes, or a listed swing country's code. */
  datatype Location = CHN | USA | Listed(code: Code)

  /** The `if country == ...: iso3 = ...` chain: the 22 names that have a code. */
  function Iso3Of(country: string): Option<Code>
  {
    if country == "Vietnam" then Some(VNM)
    else if country == "Bangladesh" then Some(BGD)
    else if country == "India" then Some(IND)
    else if country == "Indonesia" then Some(IDN)
    else if country == "Singapore" then Some(SGP)
    else if country == "Sweden" then Some(SWE)
    else if country == "France" then Some(FRA)
    else if country == "Germany" then Some(DEU)
    else if country == "Netherlands" then Some(NLD)
    else if country == "Norway" then Some(NOR)
    else if country == "Kuwait" then Some(KWT)
    else if country == "Qatar" then Some(QAT)
    else if country == "Saudi Arabia" then Some(SAU)
    else if country == "United Arab Emirates" then Some(ARE)
    else if country == "Australia" then Some(AUS)
    else if country == "Japan" then Some(JPN)
    else if country == "South Korea" then Some(KOR)
    else if country == "Taiwan" then Some(TWN)
    else if country == "Mexico" then Some(MEX)
    else if country == "Brazil" then Some(BRA)
    else if country == "Chile" then Some(CHL)
    else if country == "Morocco" then Some(MAR)
    else None
  }

  /** China and the United States have their own colours and are skipped. */
  predicate Skipped(country: string)
  {
    country == "China" || country == "United States"
  }

  /** What one swing country adds to the code list: nothing if skipped or
      unlisted, else its code. */
  function CodeFor(country: string): seq<Code>
  {
    if Skipped(country) then []
    else match Iso3Of(country) case Some(c) => [c] case None => []
  }

  /** `swing_country_iso3` for the swing-state names, in their order. */
  function Iso3Codes(names: seq<string>): seq<Code>
  {
    if names == [] then [] else Iso3Codes(names[..|names| - 1]) + CodeFor(names[|names| - 1])
  }

  /** The second loop of the map builder. */
  method SwingIso3(names: seq<string>) returns (codes: seq<Code>)
    ensures codes == Iso3Codes(names)
  {
    codes := [];
    for i := 0 to |names|
      invariant codes == Iso3Codes(names[..i])
    {
      var country := names[i];
      assert names[..i + 1][..i] == names[..i];
      if country == "China" || country == "United States" {
        continue;
      }
      var iso3 := Iso3Of(country);
      if iso3.Some? {
        codes := codes + [iso3.value];
      }
    }
    assert names[..|names|] == names;
  }

  /** The chain read backwards: the one listed country of each code. */
  function CountryOf(code: Code): string
  {
    match code
    case VNM => "Vietnam"
    case BGD => "Bangladesh"
    case IND => "India"
    case IDN => "Indonesia"
    case SGP => "Singapore"
    case SWE => "Sweden"
    case FRA => "France"
    case DEU => "Germany"
    case NLD => "Netherlands"
    case NOR => "Norway"
    case KWT => "Kuwait"
    case QAT => "Qatar"
    case SAU => "Saudi Arabia"
    case ARE => "United Arab Emirates"
    case AUS => "Australia"
    case JPN => "Japan"
    case KOR => "South Korea"
    case TWN => "Taiwan"
    case MEX => "Mexico"
    case BRA => "Brazil"
    case CHL => "Chile"
    case MAR => "Morocco"
  }

  /** Distinct listed countries have distinct codes, and neither China nor the
      United States has one, so the skip only makes explicit what the chain does. */
  lemma Iso3OfInjective(a: string, b: string)
    ensures Iso3Of(a).Some? && Iso3Of(a) == Iso3Of(b) ==> a == b
    ensures Iso3Of("China") == None && Iso3Of("United States") == None
  {
    if Iso3Of(a).Some? && Iso3Of(a) == Iso3Of(b) {
      RoundTrip(a);
      RoundTrip(b);
    }
  }

  /** Reading a code back gives the country it was looked up for. */
  lemma RoundTrip(a: string)
    ensures Iso3Of(a).Some? ==> CountryOf(Iso3Of(a).value) == a
  {
  }

  /** The codes keep the order of the names they come from. */
  lemma {:induction false} Iso3CodesAppend(a: seq<string>, b: seq<string>)
    ensures Iso3Codes(a + b) == Iso3Codes(a) + Iso3Codes(b)
  {
    if b == [] {
      assert a + b == a;
    } else {
      assert (a + b)[..|a + b| - 1] == a + b[..|b| - 1];
      Iso3CodesAppend(a, b[..|b| - 1]);
    }
  }

  /** At most one code per name, and every code is the code of one of the
      names other than China and the United States. */
  lemma {:induction false} Iso3CodesSound(names: seq<string>)
    ensures |Iso3Codes(names)| <= |names|
    ensures forall c :: c in Iso3Codes(names) ==>
      exists k :: 0 <= k < |names| && !Skipped(names[k]) && Iso3Of(names[k]) == Some(c)
  {
    if names != [] {
      var init := names[..|names| - 1];
      var last := names[|names| - 1];
      Iso3CodesSound(init);
      assert Iso3Codes(names) == Iso3Codes(init) + CodeFor(last);
      forall c | c in Iso3Codes(names)
        ensures exists k :: 0 <= k < |names| && !Skipped(names[k]) && Iso3Of(names[k]) == Some(c)
      {
        if c in Iso3Codes(init) {
          var k :| 0 <= k < |init| && !Skipped(init[k]) && Iso3Of(init[k]) == Some(c);
          assert names[k] == init[k];
        } else {
          assert c in CodeFor(last);
        }
      }
    }
  }

  /** Every listed name other than China and the United States contributes
      its code. */
  lemma {:induction false} Iso3CodesComplete(names: seq<string>)
    ensures forall k :: 0 <= k < |names| && !Skipped(names[k]) && Iso3Of(names[k]).Some? ==>
      Iso3Of(names[k]).value in Iso3Codes(names)
  {
    if names != [] {
      var init := names[..|names| - 1];
      var last := names[|names| - 1];
      Iso3CodesComplete(init);
      assert Iso3Codes(names) == Iso3Codes(init) + CodeFor(last);
      forall k | 0 <= k < |names| && !Skipped(names[k]) && Iso3Of(names[k]).Some?
        ensures Iso3Of(names[k]).value in Iso3Codes(names)
      {
        if k < |init| {
          assert names[k] == init[k];
          assert Iso3Of(init[k]).value in Iso3Codes(init);
        } else {
          assert CodeFor(last) == [Iso3Of(names[k]).value];
        }
      }
    }
  }

  /** The choropleth's `locations`: China, the United States, then the codes. */
  function Locations(codes: seq<Code>): seq<Location>
  {
    [CHN, USA] + seq(|codes|, k requires 0 <= k < |codes| => Listed(codes[k]))
  }

  /** The choropleth's `z`: 1 (red) for China, 2 (blue) for the United States,
      3 (purple) for each swing country. */
  function ZValues(codes: seq<Code>): seq<int>
  {
    [1, 2] + seq(|codes|, _ => 3)
  }

  /** The choropleth's `text`: China, the United States, then every swing name. */
  function ShadingText(names: seq<string>): seq<string>
  {
    ["China", "United States"] + names
  }

  /** A name that contributes no code (skipped or unlisted) makes the code
      list shorter than the name list. */
  lemma {:induction false} Iso3CodesShorter(names: seq<string>, k: nat)
    requires k < |names| && CodeFor(names[k]) == []
    ensures |Iso3Codes(names)| < |names|
  {
    var init := names[..|names| - 1];
    Iso3CodesSound(init);
    if k < |init| {
      assert init[k] == names[k];
      Iso3CodesShorter(init, k);
    }
  }

  /** `locations` and `z` have equal length and pair China with 1, the United
      States with 2 and every code with 3; `text` lists every swing name, so
      it is at least as long. */
  lemma ChoroplethLists(names: seq<string>)
    ensures var codes := Iso3Codes(names);
      && |Locations(codes)| == |ZValues(codes)| <= |ShadingText(names)|
      && Locations(codes)[0] == CHN && ZValues(codes)[0] == 1
      && Locations(codes)[1] == USA && ZValues(codes)[1] == 2
      && (forall k :: 2 <= k < |ZValues(codes)| ==> ZValues(codes)[k] == 3 && Locations(codes)[k] == Listed(codes[k - 2]))
  {
    Iso3CodesSound(names);
  }

  /** `text` is longer than `locations` and `z` as soon as one swing name
      contributes no code (China, the United States or an unlisted name). */
  lemma ChoroplethTextLonger(names: seq<string>, k: nat)
    requires k < |names| && CodeFor(names[k]) == []
    ensures |Locations(Iso3Codes(names))| == |ZValues(Iso3Codes(names))| < |ShadingText(names)|
  {
    Iso3CodesShorter(names, k);
  }
}
