/** The country-to-coordinate registry and the rule that resolves a data row's
    country name against it: an exact key lookup, then the first key (in table
    order) that contains the name or is contained in it. */
module Registry {
  import opened Wrappers
  import opened Text

  /** A (latitude, longitude) pair, in the order the table's tuples give them. */
  datatype Coord = Coord(lat: real, lon: real)

  /** An ordered country table. A Python dict iterates its keys in insertion
      order, so the table is a sequence of (key, coordinate) entries. */
  type Table = seq<(string, Coord)>

  /** `name` is a key of the table. */
  ghost predicate IsKey(t: Table, name: string)
  {
    exists i :: 0 <= i < |t| && t[i].0 == name
  }

  /** The index of the first entry at or after `from` whose key is `key`: the
      dict lookup `country_coords[key]` (the table's keys are distinct, so the
      first entry with a key is the only one). */
  function KeyIndex(t: Table, key: string, from: nat): (r: Option<nat>)
    decreases |t| - from
    ensures r.Some? ==> from <= r.value < |t| && t[r.value].0 == key
    ensures r.Some? ==> forall j :: from <= j < r.value ==> t[j].0 != key
    ensures r.None? ==> forall j :: from <= j < |t| ==> t[j].0 != key
  {
    if from >= |t| then None
    else if t[from].0 == key then Some(from)
    else KeyIndex(t, key, from + 1)
  }

  /** The fallback test between a table key and a row's name:
      `country_name in coord_country or coord_country in country_name`. */
  predicate Matches(key: string, name: string)
  {
    IsSubstring(name, key) || IsSubstring(key, name)
  }

  /** The `for coord_country in country_coords.keys()` scan with `break`: the
      index of the first entry at or after `from` whose key matches `name`. */
  function FirstMatch(t: Table, name: string, from: nat): (r: Option<nat>)
    decreases |t| - from
    ensures r.Some? ==> from <= r.value < |t| && Matches(t[r.value].0, name)
    ensures r.Some? ==> forall j :: from <= j < r.value ==> !Matches(t[j].0, name)
    ensures r.None? ==> forall j :: from <= j < |t| ==> !Matches(t[j].0, name)
  {
    if from >= |t| then None
    else if Matches(t[from].0, name) then Some(from)
    else FirstMatch(t, name, from + 1)
  }

  /** The entry a row's country name resolves to, or `None` when the row is
      skipped (`continue`). A key resolves to its own entry; any other name to
      the first entry whose key matches it; a name matching no key to nothing.
      The entry found is always the one a dict lookup of its key returns. */
  function Resolve(t: Table, name: string): (r: Option<nat>)
    ensures r.Some? ==> r.value < |t|
    ensures IsKey(t, name) ==> r.Some? && t[r.value].0 == name
    ensures !IsKey(t, name) && r.Some? ==>
      Matches(t[r.value].0, name) && forall j :: 0 <= j < r.value ==> !Matches(t[j].0, name)
    ensures r.None? <==> !IsKey(t, name) && forall j :: 0 <= j < |t| ==> !Matches(t[j].0, name)
    ensures r.Some? ==> KeyIndex(t, t[r.value].0, 0) == r
  {
    match KeyIndex(t, name, 0)
    case Some(i) => Some(i)
    case None => FirstMatch(t, name, 0)
  }

  /** A coordinate lies on the globe. */
  predicate OnGlobe(c: Coord)
  {
    -90.0 <= c.lat <= 90.0 && -180.0 <= c.lon <= 180.0
  }

  /** Every coordinate of the table lies on the globe. */
  predicate AllOnGlobe(t: Table)
  {
    forall i :: 0 <= i < |t| ==> OnGlobe(t[i].1)
  }

  /** No entry of the table has the key `key`. */
  predicate Lacks(t: Table, key: string)
  {
    forall i :: 0 <= i < |t| ==> t[i].0 != key
  }

  lemma {:induction false} OnGlobeAppend(a: Table, b: Table)
    requires AllOnGlobe(a) && AllOnGlobe(b)
    ensures AllOnGlobe(a + b)
  {
    forall i | 0 <= i < |a + b| ensures OnGlobe((a + b)[i].1) {
      if i >= |a| {
        assert (a + b)[i] == b[i - |a|];
      }
    }
  }

  lemma {:induction false} LacksAppend(a: Table, b: Table, key: string)
    requires Lacks(a, key) && Lacks(b, key)
    ensures Lacks(a + b, key)
  {
    forall i | 0 <= i < |a + b| ensures (a + b)[i].0 != key {
      if i >= |a| {
        assert (a + b)[i] == b[i - |a|];
      }
    }
  }

  /** Facts about the table checked one initial letter at a time. */
  lemma CoordsAFacts()
    ensures AllOnGlobe(CoordsA()) && Lacks(CoordsA(), "United States")
  {
  }

  lemma CoordsBFacts()
    ensures AllOnGlobe(CoordsB()) && Lacks(CoordsB(), "United States")
  {
  }

  lemma CoordsCFacts()
    ensures AllOnGlobe(CoordsC()) && Lacks(CoordsC(), "United States")
  {
  }

  lemma CoordsDFacts()
    ensures AllOnGlobe(CoordsD()) && Lacks(CoordsD(), "United States")
  {
  }

  lemma CoordsEFacts()
    ensures AllOnGlobe(CoordsE()) && Lacks(CoordsE(), "United States")
  {
  }

  lemma CoordsFFacts()
    ensures AllOnGlobe(CoordsF()) && Lacks(CoordsF(), "United States")
  {
  }

  lemma CoordsGFacts()
    ensures AllOnGlobe(CoordsG()) && Lacks(CoordsG(), "United States")
  {
  }

  lemma CoordsHFacts()
    ensures AllOnGlobe(CoordsH()) && Lacks(CoordsH(), "United States")
  {
  }

  lemma CoordsIFacts()
    ensures AllOnGlobe(CoordsI()) && Lacks(CoordsI(), "United States")
  {
  }

  lemma CoordsJFacts()
    ensures AllOnGlobe(CoordsJ()) && Lacks(CoordsJ(), "United States")
  {
  }

  lemma CoordsKFacts()
    ensures AllOnGlobe(CoordsK()) && Lacks(CoordsK(), "United States")
  {
  }

  lemma CoordsLFacts()
    ensures AllOnGlobe(CoordsL()) && Lacks(CoordsL(), "United States")
  {
  }

  lemma CoordsMFacts()
    ensures AllOnGlobe(CoordsM()) && Lacks(CoordsM(), "United States")
  {
  }

  lemma CoordsNFacts()
    ensures AllOnGlobe(CoordsN()) && Lacks(CoordsN(), "United States")
  {
  }

  lemma CoordsOFacts()
    ensures AllOnGlobe(CoordsO()) && Lacks(CoordsO(), "United States")
  {
  }

  lemma CoordsPFacts()
    ensures AllOnGlobe(CoordsP()) && Lacks(CoordsP(), "United States")
  {
  }

  lemma CoordsQFacts()
    ensures AllOnGlobe(CoordsQ()) && Lacks(CoordsQ(), "United States")
  {
  }

  lemma CoordsRFacts()
    ensures AllOnGlobe(CoordsR()) && Lacks(CoordsR(), "United States")
  {
  }

  lemma CoordsSFacts()
    ensures AllOnGlobe(CoordsS()) && Lacks(CoordsS(), "United States")
  {
  }

  lemma CoordsTFacts()
    ensures AllOnGlobe(CoordsT()) && Lacks(CoordsT(), "United States")
  {
  }

  lemma CoordsVFacts()
    ensures AllOnGlobe(CoordsV()) && Lacks(CoordsV(), "United States")
  {
  }

  lemma CoordsWFacts()
    ensures AllOnGlobe(CoordsW()) && Lacks(CoordsW(), "United States")
  {
  }

  lemma CoordsZFacts()
    ensures AllOnGlobe(CoordsZ()) && Lacks(CoordsZ(), "United States")
  {
  }

  lemma CoordsUFacts()
    ensures AllOnGlobe(CoordsU())
    ensures |CoordsU()| == 8 && CoordsU()[5] == ("United States", Coord(37.0902, -95.7129))
    ensures forall j :: 0 <= j < 5 ==> CoordsU()[j].0 != "United States"
  {
  }

  /** The table has 235 entries, every coordinate on the globe. */
  lemma CountryCoordsOnGlobe()
    ensures |CountryCoords()| == 235
    ensures AllOnGlobe(CountryCoords())
  {
    var t := CoordsA();
    CoordsAFacts();
    CoordsBFacts(); OnGlobeAppend(t, CoordsB()); t := t + CoordsB();
    CoordsCFacts(); OnGlobeAppend(t, CoordsC()); t := t + CoordsC();
    CoordsDFacts(); OnGlobeAppend(t, CoordsD()); t := t + CoordsD();
    CoordsEFacts(); OnGlobeAppend(t, CoordsE()); t := t + CoordsE();
    CoordsFFacts(); OnGlobeAppend(t, CoordsF()); t := t + CoordsF();
    CoordsGFacts(); OnGlobeAppend(t, CoordsG()); t := t + CoordsG();
    CoordsHFacts(); OnGlobeAppend(t, CoordsH()); t := t + CoordsH();
    CoordsIFacts(); OnGlobeAppend(t, CoordsI()); t := t + CoordsI();
    CoordsJFacts(); OnGlobeAppend(t, CoordsJ()); t := t + CoordsJ();
    CoordsKFacts(); OnGlobeAppend(t, CoordsK()); t := t + CoordsK();
    CoordsLFacts(); OnGlobeAppend(t, CoordsL()); t := t + CoordsL();
    CoordsMFacts(); OnGlobeAppend(t, CoordsM()); t := t + CoordsM();
    CoordsNFacts(); OnGlobeAppend(t, CoordsN()); t := t + CoordsN();
    CoordsOFacts(); OnGlobeAppend(t, CoordsO()); t := t + CoordsO();
    CoordsPFacts(); OnGlobeAppend(t, CoordsP()); t := t + CoordsP();
    CoordsQFacts(); OnGlobeAppend(t, CoordsQ()); t := t + CoordsQ();
    CoordsRFacts(); OnGlobeAppend(t, CoordsR()); t := t + CoordsR();
    CoordsSFacts(); OnGlobeAppend(t, CoordsS()); t := t + CoordsS();
    CoordsTFacts(); OnGlobeAppend(t, CoordsT()); t := t + CoordsT();
    CoordsUFacts(); OnGlobeAppend(t, CoordsU()); t := t + CoordsU();
    CoordsVFacts(); OnGlobeAppend(t, CoordsV()); t := t + CoordsV();
    CoordsWFacts(); OnGlobeAppend(t, CoordsW()); t := t + CoordsW();
    CoordsZFacts(); OnGlobeAppend(t, CoordsZ()); t := t + CoordsZ();
    assert t == CountryCoords();
  }

  /** No entry from "Afghanistan" to "Tuvalu" (the initials A to T, 219
      entries) has the key "United States". */
  lemma UnitedStatesNotBeforeU()
    ensures var t := CoordsA() + CoordsB() + CoordsC() + CoordsD() + CoordsE() + CoordsF() + CoordsG() +
      CoordsH() + CoordsI() + CoordsJ() + CoordsK() + CoordsL() + CoordsM() + CoordsN() +
      CoordsO() + CoordsP() + CoordsQ() + CoordsR() + CoordsS() + CoordsT();
      |t| == 219 && Lacks(t, "United States")
  {
    var key := "United States";
    var t := CoordsA();
    CoordsAFacts();
    CoordsBFacts(); LacksAppend(t, CoordsB(), key); t := t + CoordsB();
    CoordsCFacts(); LacksAppend(t, CoordsC(), key); t := t + CoordsC();
    CoordsDFacts(); LacksAppend(t, CoordsD(), key); t := t + CoordsD();
    CoordsEFacts(); LacksAppend(t, CoordsE(), key); t := t + CoordsE();
    CoordsFFacts(); LacksAppend(t, CoordsF(), key); t := t + CoordsF();
    CoordsGFacts(); LacksAppend(t, CoordsG(), key); t := t + CoordsG();
    CoordsHFacts(); LacksAppend(t, CoordsH(), key); t := t + CoordsH();
    CoordsIFacts(); LacksAppend(t, CoordsI(), key); t := t + CoordsI();
    CoordsJFacts(); LacksAppend(t, CoordsJ(), key); t := t + CoordsJ();
    CoordsKFacts(); LacksAppend(t, CoordsK(), key); t := t + CoordsK();
    CoordsLFacts(); LacksAppend(t, CoordsL(), key); t := t + CoordsL();
    CoordsMFacts(); LacksAppend(t, CoordsM(), key); t := t + CoordsM();
    CoordsNFacts(); LacksAppend(t, CoordsN(), key); t := t + CoordsN();
    CoordsOFacts(); LacksAppend(t, CoordsO(), key); t := t + CoordsO();
    CoordsPFacts(); LacksAppend(t, CoordsP(), key); t := t + CoordsP();
    CoordsQFacts(); LacksAppend(t, CoordsQ(), key); t := t + CoordsQ();
    CoordsRFacts(); LacksAppend(t, CoordsR(), key); t := t + CoordsR();
    CoordsSFacts(); LacksAppend(t, CoordsS(), key); t := t + CoordsS();
    CoordsTFacts(); LacksAppend(t, CoordsT(), key); t := t + CoordsT();
  }

  /** "United States" is a key, so it resolves to its own entry, with the
      coordinate (37.0902, -95.7129). */
  lemma UnitedStatesResolvesToItself()
    ensures Resolve(CountryCoords(), "United States") == Some(224)
    ensures CountryCoords()[224] == ("United States", Coord(37.0902, -95.7129))
  {
    var key := "United States";
    var t := CoordsA() + CoordsB() + CoordsC() + CoordsD() + CoordsE() + CoordsF() + CoordsG() +
      CoordsH() + CoordsI() + CoordsJ() + CoordsK() + CoordsL() + CoordsM() + CoordsN() +
      CoordsO() + CoordsP() + CoordsQ() + CoordsR() + CoordsS() + CoordsT();
    UnitedStatesNotBeforeU();
    CoordsUFacts();
    var u := CoordsU();
    var all := t + u + CoordsV() + CoordsW() + CoordsZ();
    assert all == CountryCoords();
    assert all[224] == u[5];
    forall j | 0 <= j < 224 ensures all[j].0 != key {
      if j < 219 {
        assert all[j] == t[j];
      } else {
        assert all[j] == u[j - 219];
      }
    }
  }

  /** "Korea, South" and "South Korea" do not contain each other, so the
      fallback scan never takes the key "South Korea" for the name "Korea, South". */
  lemma KoreaSouthDoesNotMatchSouthKorea()
    ensures !Matches("South Korea", "Korea, South")
  {
    var key, name := "South Korea", "Korea, South";
    assert !IsSubstring(name, key);
    assert key[0] != name[0] && key[0] != name[1];
    assert !IsSubstring(key, name[2..]);
    assert !IsSubstring(key, name[1..]);
  }

  /** The table `country_coords`, in its source order; it is split by initial
      letter only so that facts about it can be checked a letter at a time. */
  function CountryCoords(): Table
  {
    CoordsA() + CoordsB() + CoordsC() + CoordsD() + CoordsE() + CoordsF() + CoordsG() +
    CoordsH() + CoordsI() + CoordsJ() + CoordsK() + CoordsL() + CoordsM() + CoordsN() +
    CoordsO() + CoordsP() + CoordsQ() + CoordsR() + CoordsS() + CoordsT() + CoordsU() +
    CoordsV() + CoordsW() + CoordsZ()
  }

  function CoordsA(): Table
  {
    [
      ("Afghanistan", Coord(33.9391, 67.7100)),
      ("Albania", Coord(41.1533, 20.1683)),
      ("Algeria", Coord(28.0339, 1.6596)),
      ("Andorra", Coord(42.5063, 1.5218)),
      ("Angola", Coord(-11.2027, 17.8739)),
      ("Anguilla", Coord(18.2206, -63.0686)),
      ("Antigua and Barbuda", Coord(17.0608, -61.7964)),
      ("Argentina", Coord(-38.4161, -63.6167)),
      ("Armenia", Coord(40.0691, 45.0382)),
      ("Aruba", Coord(12.5211, -69.9683)),
      ("Australia", Coord(-25.2744, 133.7751)),
      ("Austria", Coord(47.5162, 14.5501)),
      ("Azerbaijan", Coord(40.1431, 47.5769))
    ]
  }

  function CoordsB(): Table
  {
    [
      ("Bahamas", Coord(25.0343, -77.3963)),
      ("Bahrain", Coord(26.0667, 50.5577)),
      ("Bangladesh", Coord(23.6850, 90.3563)),
      ("Barbados", Coord(13.1939, -59.5432)),
      ("Belarus", Coord(53.7098, 27.9534)),
      ("Belgium", Coord(50.5039, 4.4699)),
      ("Belize", Coord(17.1899, -88.4976)),
      ("Benin", Coord(9.3077, 2.3158)),
      ("Bermuda", Coord(32.3078, -64.7505)),
      ("Bhutan", Coord(27.5142, 90.4336)),
      ("Bolivia", Coord(-16.2902, -63.5887)),
      ("Bosnia and Herzegovina", Coord(43.9159, 17.6791)),
      ("Botswana", Coord(-22.3285, 24.6849)),
      ("Brazil", Coord(-14.2350, -51.9253)),
      ("British Indian Ocean Terr.", Coord(-7.3346, 72.4242)),
      ("British Virgin Islands", Coord(18.4207, -64.6400)),
      ("Brunei", Coord(4.5353, 114.7277)),
      ("Bulgaria", Coord(42.7339, 25.4858)),
      ("Burkina Faso", Coord(12.2383, -1.5616)),
      ("Burundi", Coord(-3.3731, 29.9189))
    ]
  }

  function CoordsC(): Table
  {
    [
      ("Cabo Verde", Coord(16.5388, -23.0418)),
      ("Cambodia", Coord(12.5657, 104.9910)),
      ("Cameroon", Coord(7.3697, 12.3547)),
      ("Canada", Coord(56.1304, -106.3468)),
      ("Cayman Islands", Coord(19.5134, -80.5669)),
      ("Central African Republic", Coord(6.6111, 20.9394)),
      ("Chad", Coord(15.4542, 18.7322)),
      ("Chile", Coord(-35.6751, -71.5430)),
      ("China", Coord(35.8617, 104.1954)),
      ("Christmas Island", Coord(-10.4475, 105.6904)),
      ("Cocos (Keeling) Islands", Coord(-12.1642, 96.8710)),
      ("Colombia", Coord(4.5709, -74.2973)),
      ("Comoros", Coord(-11.6455, 43.3333)),
      ("Congo (Brazzaville)", Coord(-0.2280, 15.8277)),
      ("Cook Islands", Coord(-21.2367, -159.7777)),
      ("Costa Rica", Coord(9.7489, -83.7534)),
      ("Cote d'Ivoire", Coord(7.5400, -5.5471)),
      ("Croatia", Coord(45.1000, 15.2000)),
      ("Cuba", Coord(21.5218, -77.7812)),
      ("Curacao", Coord(12.1696, -68.9900)),
      ("Cyprus", Coord(35.1264, 33.4299)),
      ("Czech Republic", Coord(49.8175, 15.4730))
    ]
  }

  function CoordsD(): Table
  {
    [
      ("Democratic Republic of Congo", Coord(-4.0383, 21.7587)),
      ("Denmark", Coord(56.2639, 9.5018)),
      ("Djibouti", Coord(11.8251, 42.5903)),
      ("Dominica", Coord(15.4150, -61.3710)),
      ("Dominican Republic", Coord(18.7357, -70.1627))
    ]
  }

  function CoordsE(): Table
  {
    [
      ("East Timor", Coord(-8.8742, 125.7275)),
      ("Ecuador", Coord(-1.8312, -78.1834)),
      ("Egypt", Coord(26.8206, 30.8025)),
      ("El Salvador", Coord(13.7942, -88.8965)),
      ("Equatorial Guinea", Coord(1.6508, 10.2679)),
      ("Eritrea", Coord(15.1794, 39.7823)),
      ("Estonia", Coord(58.5953, 25.0136)),
      ("Eswatini", Coord(-26.5225, 31.4659)),
      ("Ethiopia", Coord(9.1450, 40.4897))
    ]
  }

  function CoordsF(): Table
  {
    [
      ("Falkland Islands", Coord(-51.7963, -59.5236)),
      ("Faroe Islands", Coord(61.8926, -6.9118)),
      ("Fiji", Coord(-17.7134, 178.0650)),
      ("Finland", Coord(61.9241, 25.7482)),
      ("France", Coord(46.2276, 2.2137)),
      ("French Guiana", Coord(3.9339, -53.1258)),
      ("French Polynesia", Coord(-17.6797, -149.4068)),
      ("French Southern and Antarctic", Coord(-49.2804, 69.3486))
    ]
  }

  function CoordsG(): Table
  {
    [
      ("Gabon", Coord(-0.8037, 11.6094)),
      ("Gambia", Coord(13.4432, -15.3101)),
      ("Gaza Strip admin. by Israel", Coord(31.3547, 34.3088)),
      ("Georgia", Coord(42.3154, 43.3569)),
      ("Germany", Coord(51.1657, 10.4515)),
      ("Ghana", Coord(7.9465, -1.0232)),
      ("Gibraltar", Coord(36.1408, -5.3536)),
      ("Greece", Coord(39.0742, 21.8243)),
      ("Greenland", Coord(71.7069, -42.6043)),
      ("Grenada", Coord(12.1165, -61.6790)),
      ("Guadeloupe", Coord(16.2650, -61.5510)),
      ("Guatemala", Coord(15.7835, -90.2308)),
      ("Guinea", Coord(9.9456, -9.6966)),
      ("Guinea-Bissau", Coord(11.8037, -15.1804)),
      ("Guyana", Coord(4.8604, -58.9302))
    ]
  }

  function CoordsH(): Table
  {
    [
      ("Haiti", Coord(18.9712, -72.2852)),
      ("Heard and McDonald Islands", Coord(-53.0818, 73.5042)),
      ("Honduras", Coord(15.2000, -86.2419)),
      ("Hong Kong", Coord(22.3193, 114.1694)),
      ("Hungary", Coord(47.1625, 19.5033))
    ]
  }

  function CoordsI(): Table
  {
    [
      ("Iceland", Coord(64.9631, -19.0208)),
      ("India", Coord(20.5937, 78.9629)),
      ("Indonesia", Coord(-0.7893, 113.9213)),
      ("Iran", Coord(32.4279, 53.6880)),
      ("Iraq", Coord(33.2232, 43.6793)),
      ("Ireland", Coord(53.1424, -7.6921)),
      ("Israel", Coord(31.0461, 34.8516)),
      ("Italy", Coord(41.8719, 12.5674))
    ]
  }

  function CoordsJ(): Table
  {
    [
      ("Jamaica", Coord(18.1096, -77.2975)),
      ("Japan", Coord(36.2048, 138.2529)),
      ("Jordan", Coord(30.5852, 36.2384))
    ]
  }

  function CoordsK(): Table
  {
    [
      ("Kazakhstan", Coord(48.0196, 66.9237)),
      ("Kenya", Coord(-0.0236, 37.9062)),
      ("Kiribati", Coord(1.8708, -157.3630)),
      ("Kosovo", Coord(42.5633, 20.9030)),
      ("Kuwait", Coord(29.3117, 47.4818)),
      ("Kyrgyzstan", Coord(41.2044, 74.7661))
    ]
  }

  function CoordsL(): Table
  {
    [
      ("Laos", Coord(19.8563, 102.4955)),
      ("Latvia", Coord(56.8796, 24.6032)),
      ("Lebanon", Coord(33.8547, 35.8623)),
      ("Lesotho", Coord(-29.6100, 28.2336)),
      ("Liberia", Coord(6.4281, -9.4295)),
      ("Libya", Coord(26.3351, 17.2283)),
      ("Liechtenstein", Coord(47.1660, 9.5554)),
      ("Lithuania", Coord(55.1694, 23.8813)),
      ("Luxembourg", Coord(49.8153, 6.1296))
    ]
  }

  function CoordsM(): Table
  {
    [
      ("Macau", Coord(22.1987, 113.5439)),
      ("Madagascar", Coord(-18.7669, 46.8691)),
      ("Malawi", Coord(-13.2543, 34.3015)),
      ("Malaysia", Coord(4.2105, 101.9758)),
      ("Maldives", Coord(3.2028, 73.2207)),
      ("Mali", Coord(17.5707, -3.9962)),
      ("Malta", Coord(35.9375, 14.3754)),
      ("Marshall Islands", Coord(7.1315, 171.1845)),
      ("Martinique", Coord(14.6415, -61.0242)),
      ("Mauritania", Coord(21.0079, -10.9408)),
      ("Mauritius", Coord(-20.3484, 57.5522)),
      ("Mayotte", Coord(-12.8275, 45.1662)),
      ("Mexico", Coord(23.6345, -102.5528)),
      ("Micronesia", Coord(7.4256, 150.5508)),
      ("Moldova", Coord(47.4116, 28.3699)),
      ("Monaco", Coord(43.7384, 7.4246)),
      ("Mongolia", Coord(46.8625, 103.8467)),
      ("Montenegro", Coord(42.7087, 19.3744)),
      ("Montserrat", Coord(16.7425, -62.1874)),
      ("Morocco", Coord(31.7917, -7.0926)),
      ("Mozambique", Coord(-18.6657, 35.5296)),
      ("Myanmar (Burma)", Coord(21.9162, 95.9560))
    ]
  }

  function CoordsN(): Table
  {
    [
      ("Namibia", Coord(-22.9576, 18.4904)),
      ("Nauru", Coord(-0.5228, 166.9315)),
      ("Nepal", Coord(28.3949, 84.1240)),
      ("Netherlands", Coord(52.1326, 5.2913)),
      ("New Caledonia", Coord(-20.9043, 165.6180)),
      ("New Zealand", Coord(-40.9006, 174.8860)),
      ("Nicaragua", Coord(12.8654, -85.2072)),
      ("Niger", Coord(17.6078, 8.0817)),
      ("Nigeria", Coord(9.0820, 8.6753)),
      ("Niue", Coord(-19.0544, -169.8672)),
      ("Norfolk Island", Coord(-29.0408, 167.9547)),
      ("North Korea", Coord(40.3399, 127.5101)),
      ("North Macedonia", Coord(41.6086, 21.7453)),
      ("Norway", Coord(60.4720, 8.4689))
    ]
  }

  function CoordsO(): Table
  {
    [
      ("Oman", Coord(21.4735, 55.9754))
    ]
  }

  function CoordsP(): Table
  {
    [
      ("Pakistan", Coord(30.3753, 69.3451)),
      ("Palau", Coord(7.5150, 134.5825)),
      ("Panama", Coord(8.5380, -80.7821)),
      ("Papua New Guinea", Coord(-6.3150, 143.9555)),
      ("Paraguay", Coord(-23.4425, -58.4438)),
      ("Peru", Coord(-9.1900, -75.0152)),
      ("Philippines", Coord(12.8797, 121.7740)),
      ("Pitcairn Islands", Coord(-24.3768, -128.3242)),
      ("Poland", Coord(51.9194, 19.1451)),
      ("Portugal", Coord(39.3999, -8.2245))
    ]
  }

  function CoordsQ(): Table
  {
    [
      ("Qatar", Coord(25.3548, 51.1839))
    ]
  }

  function CoordsR(): Table
  {
    [
      ("Republic of Yemen", Coord(15.5527, 48.5164)),
      ("Reunion", Coord(-21.1151, 55.5364)),
      ("Romania", Coord(45.9432, 24.9668)),
      ("Russia", Coord(61.5240, 105.3188)),
      ("Rwanda", Coord(-1.9403, 29.8739))
    ]
  }

  function CoordsS(): Table
  {
    [
      ("Samoa", Coord(-13.7590, -172.1046)),
      ("San Marino", Coord(43.9424, 12.4578)),
      ("Sao Tome and Principe", Coord(0.1864, 6.6131)),
      ("Saudi Arabia", Coord(23.8859, 45.0792)),
      ("Senegal", Coord(14.4974, -14.4524)),
      ("Serbia", Coord(44.0165, 21.0059)),
      ("Seychelles", Coord(-4.6796, 55.4920)),
      ("Sierra Leone", Coord(8.4606, -11.7799)),
      ("Singapore", Coord(1.3521, 103.8198)),
      ("Sint Maarten", Coord(18.0425, -63.0548)),
      ("Slovakia", Coord(48.6690, 19.6990)),
      ("Slovenia", Coord(46.1512, 14.9955)),
      ("Solomon Islands", Coord(-9.6457, 160.1562)),
      ("Somalia", Coord(5.1521, 46.1996)),
      ("South Africa", Coord(-30.5595, 22.9375)),
      ("South Korea", Coord(35.9078, 127.7669)),
      ("South Sudan", Coord(6.8770, 31.3070)),
      ("Spain", Coord(40.4637, -3.7492)),
      ("Sri Lanka", Coord(7.8731, 80.7718)),
      ("St Helena", Coord(-15.9650, -5.7089)),
      ("St Kitts and Nevis", Coord(17.3578, -62.7830)),
      ("St Lucia", Coord(13.9094, -60.9789)),
      ("St Pierre and Miquelon", Coord(46.8852, -56.3159)),
      ("St Vincent and the Grenadines", Coord(13.2528, -61.1971)),
      ("Sudan", Coord(12.8628, 30.2176)),
      ("Suriname", Coord(3.9193, -56.0278)),
      ("Svalbard, Jan Mayen Island", Coord(77.8750, 20.9752)),
      ("Sweden", Coord(60.1282, 18.6435)),
      ("Switzerland", Coord(46.8182, 8.2275)),
      ("Syria", Coord(34.8021, 38.9968))
    ]
  }

  function CoordsT(): Table
  {
    [
      ("Taiwan", Coord(23.6978, 120.9605)),
      ("Tajikistan", Coord(38.8610, 71.2761)),
      ("Tanzania", Coord(-6.3690, 34.8888)),
      ("Thailand", Coord(15.8700, 100.9925)),
      ("Togo", Coord(8.6195, 0.8248)),
      ("Tokelau", Coord(-9.2002, -171.8484)),
      ("Tonga", Coord(-21.1790, -175.1982)),
      ("Trinidad and Tobago", Coord(10.6918, -61.2225)),
      ("Tunisia", Coord(33.8869, 9.5375)),
      ("Turkey", Coord(38.9637, 35.2433)),
      ("Turkmenistan", Coord(38.9697, 59.5563)),
      ("Turks and Caicos Islands", Coord(21.6940, -71.7979)),
      ("Tuvalu", Coord(-7.1095, 177.6493))
    ]
  }

  function CoordsU(): Table
  {
    [
      ("UAE", Coord(23.4241, 53.8478)),
      ("Uganda", Coord(1.3733, 32.2903)),
      ("Ukraine", Coord(48.3794, 31.1656)),
      ("United Arab Emirates", Coord(23.4241, 53.8478)),
      ("United Kingdom", Coord(55.3781, -3.4360)),
      ("United States", Coord(37.0902, -95.7129)),
      ("Uruguay", Coord(-32.5228, -55.7658)),
      ("Uzbekistan", Coord(41.3775, 64.5853))
    ]
  }

  function CoordsV(): Table
  {
    [
      ("Vanuatu", Coord(-15.3767, 166.9592)),
      ("Vatican City", Coord(41.9029, 12.4534)),
      ("Venezuela", Coord(6.4238, -66.5897)),
      ("Vietnam", Coord(14.0583, 108.2772))
    ]
  }

  function CoordsW(): Table
  {
    [
      ("Wallis and Futuna", Coord(-13.7687, -177.1561)),
      ("West Bank admin. by Israel", Coord(31.9522, 35.2332))
    ]
  }

  function CoordsZ(): Table
  {
    [
      ("Zambia", Coord(-13.1339, 27.8493)),
      ("Zimbabwe", Coord(-19.0154, 29.1549))
    ]
  }
}
