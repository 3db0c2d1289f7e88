/** The region classifier: an ISO 3166-1 alpha-2 country code, looked up
    case-insensitively in a fixed table, gives one of three shipping regions,
    each standing for its cost factor. */
module Region {
  import opened GoErrors
  import opened Ascii

  datatype Region = Nordic | WithinEU | OutsideEU

  /** The numeric value of a Region, which is its cost factor. */
  function Factor(r: Region): (f: real)
    ensures 1.0 <= f <= 2.5
  {
    match r
    case Nordic => 1.0
    case WithinEU => 1.5
    case OutsideEU => 2.5
  }

  const ErrUnsupportedCountryCode: Error := Sentinel(RegionUnsupportedCountryCode)

  /** The hard-coded table; Sweden is keyed "sv". */
  const Regions: map<string, Region> := map[
    "sv" := Nordic, "no" := Nordic, "dk" := Nordic, "fi" := Nordic,

    "fr" := WithinEU, "de" := WithinEU, "nl" := WithinEU, "it" := WithinEU,
    "pt" := WithinEU, "at" := WithinEU, "be" := WithinEU, "lv" := WithinEU,
    "bg" := WithinEU, "lt" := WithinEU, "hr" := WithinEU, "lu" := WithinEU,
    "cy" := WithinEU, "mt" := WithinEU, "cz" := WithinEU, "pl" := WithinEU,
    "ee" := WithinEU, "ro" := WithinEU, "sk" := WithinEU, "si" := WithinEU,
    "gr" := WithinEU, "es" := WithinEU, "hu" := WithinEU, "ie" := WithinEU,

    "us" := OutsideEU, "ca" := OutsideEU, "cn" := OutsideEU, "jp" := OutsideEU,
    "th" := OutsideEU, "br" := OutsideEU, "ar" := OutsideEU
  ]

  /** The table's keys per region, in alphabetical order (used to count them). */
  const NordicCodes: seq<string> := ["dk", "fi", "no", "sv"]

  const WithinEUCodes: seq<string> := [
    "at", "be", "bg", "cy", "cz", "de", "ee", "es", "fr", "gr", "hr", "hu",
    "ie", "it", "lt", "lu", "lv", "mt", "nl", "pl", "pt", "ro", "si", "sk"
  ]

  const OutsideEUCodes: seq<string> := ["ar", "br", "ca", "cn", "jp", "th", "us"]

  /** From: the region of a country code, or ErrUnsupportedCountryCode when
      the lower-cased code is not in the table. */
  function From(ccode: string): (r: Result<Region>)
    ensures r.Ok? <==> ToLower(ccode) in Regions
    ensures r.Ok? ==> r.value == Regions[ToLower(ccode)]
    ensures r.Err? ==> r.error == ErrUnsupportedCountryCode
  {
    var key := ToLower(ccode);
    if key !in Regions then Err(ErrUnsupportedCountryCode) else Ok(Regions[key])
  }

  /** The keys the table sends to region r. */
  function CodesOf(r: Region): set<string>
  {
    set k | k in Regions && Regions[k] == r
  }

  /** A two-letter code read as a number, so that codes can be ordered. */
  function Rank(k: string): int
    requires |k| == 2
  {
    k[0] as int * 0x11_0000 + k[1] as int
  }

  predicate StrictlyAscending(s: seq<string>)
  {
    && (forall i :: 0 <= i < |s| ==> |s[i]| == 2)
    && (forall i :: 0 <= i < |s| - 1 ==> Rank(s[i]) < Rank(s[i + 1]))
  }

  lemma {:induction false} AscendingRanks(s: seq<string>, i: nat, j: nat)
    requires StrictlyAscending(s)
    requires i < j < |s|
    ensures Rank(s[i]) < Rank(s[j])
    decreases j - i
  {
    if i + 1 < j {
      AscendingRanks(s, i + 1, j);
    }
  }

  /** A strictly ascending list of codes has no repeated code, so its set of
      codes is as large as the list. */
  lemma {:induction false} AscendingCardinality(s: seq<string>)
    requires StrictlyAscending(s)
    ensures |set k | k in s| == |s|
  {
    if s != [] {
      var init := s[..|s| - 1];
      var last := s[|s| - 1];
      assert StrictlyAscending(init);
      AscendingCardinality(init);
      forall i | 0 <= i < |init| ensures init[i] != last {
        AscendingRanks(s, i, |s| - 1);
      }
      assert (set k | k in s) == (set k | k in init) + {last};
    }
  }

  lemma NordicMapped()
    ensures forall k :: k in NordicCodes ==> k in Regions && Regions[k] == Nordic
  {
  }

  lemma NordicListed()
    ensures CodesOf(Nordic) == set k | k in NordicCodes
  {
    NordicMapped();
  }

  lemma WithinEUChunk0()
    ensures forall k :: k in ["at", "be", "bg", "cy", "cz", "de"] ==> k in Regions && Regions[k] == WithinEU
  {
  }

  lemma WithinEUChunk1()
    ensures forall k :: k in ["ee", "es", "fr", "gr", "hr", "hu"] ==> k in Regions && Regions[k] == WithinEU
  {
  }

  lemma WithinEUChunk2()
    ensures forall k :: k in ["ie", "it", "lt", "lu", "lv", "mt"] ==> k in Regions && Regions[k] == WithinEU
  {
  }

  lemma WithinEUChunk3()
    ensures forall k :: k in ["nl", "pl", "pt", "ro", "si", "sk"] ==> k in Regions && Regions[k] == WithinEU
  {
  }

  lemma WithinEUMapped()
    ensures forall k :: k in WithinEUCodes ==> k in Regions && Regions[k] == WithinEU
  {
    WithinEUChunk0(); WithinEUChunk1(); WithinEUChunk2(); WithinEUChunk3();
  }

  lemma WithinEUListed()
    ensures CodesOf(WithinEU) == set k | k in WithinEUCodes
  {
    WithinEUMapped();
  }

  lemma OutsideEUMapped()
    ensures forall k :: k in OutsideEUCodes ==> k in Regions && Regions[k] == OutsideEU
  {
  }

  lemma OutsideEUListed()
    ensures CodesOf(OutsideEU) == set k | k in OutsideEUCodes
  {
    OutsideEUMapped();
  }

  /** The table holds exactly 4 Nordic, 24 WithinEU and 7 OutsideEU codes. */
  lemma TableCounts()
    ensures |CodesOf(Nordic)| == 4 && |CodesOf(WithinEU)| == 24 && |CodesOf(OutsideEU)| == 7
  {
    NordicListed();
    WithinEUListed();
    OutsideEUListed();
    AscendingCardinality(NordicCodes);
    AscendingCardinality(WithinEUCodes);
    AscendingCardinality(OutsideEUCodes);
  }

  /** The three regions partition the table, so it has 35 keys. */
  lemma TableSize()
    ensures Regions.Keys == CodesOf(Nordic) + CodesOf(WithinEU) + CodesOf(OutsideEU)
    ensures |Regions| == 35
  {
    var n, w, o := CodesOf(Nordic), CodesOf(WithinEU), CodesOf(OutsideEU);
    assert Regions.Keys == n + w + o;
    assert n * w == {} && (n + w) * o == {};
    TableCounts();
    assert |n + w| == 28;
    assert |Regions.Keys| == 35;
  }

  /** The table's keys are exactly the listed codes. */
  lemma KeysListed()
    ensures forall k :: k in Regions <==> k in NordicCodes || k in WithinEUCodes || k in OutsideEUCodes
  {
    TableSize();
    NordicListed();
    WithinEUListed();
    OutsideEUListed();
  }

  /** Every key is two lower-case ASCII letters. */
  lemma KeysAreLowerPairs()
    ensures forall k :: k in Regions ==> |k| == 2 && IsLower(k[0]) && IsLower(k[1])
  {
    forall k | k in Regions ensures |k| == 2 && IsLower(k[0]) && IsLower(k[1]) {
      assert k in Regions.Keys;
    }
  }

  /** From ignores case: a code and its lower-case form classify alike. */
  lemma FromCaseInsensitive(ccode: string)
    ensures From(ccode) == From(ToLower(ccode))
  {
    ToLowerIdempotent(ccode);
  }

  /** Only a two-character code can be classified. */
  lemma FromNeedsTwoCharacters(ccode: string)
    requires From(ccode).Ok?
    ensures |ccode| == 2
  {
    KeysAreLowerPairs();
  }

  /** The classifications the unit tests expect. */
  lemma FromAcceptsExamples()
    ensures From("sv") == Ok(Nordic)
    ensures From("fr") == Ok(WithinEU)
    ensures From("jp") == Ok(OutsideEU)
    ensures From("CA") == Ok(OutsideEU)
  {
    assert ToLower("CA") == "ca";
    assert ToLower("sv") == "sv";
    assert ToLower("fr") == "fr";
    assert ToLower("jp") == "jp";
  }

  /** Codes the unit tests expect to be refused; Sweden's real code "se" is
      refused too, because the table keys Sweden as "sv". */
  lemma FromRejectsExamples()
    ensures From("banana") == Err(ErrUnsupportedCountryCode)
    ensures From("nn") == Err(ErrUnsupportedCountryCode)
    ensures From("se") == Err(ErrUnsupportedCountryCode)
  {
    assert ToLower("nn") == "nn" && "nn" !in Regions;
    assert ToLower("se") == "se" && "se" !in Regions;
    assert |ToLower("banana")| == 6;
    KeysAreLowerPairs();
  }
}
