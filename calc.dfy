/** The shipment cost calculator: a weight band's base rate times the cost
    factor of the region the (case-insensitive) country code belongs to. The
    calculator carries its own copy of the region table. */
module Calc {
  import opened GoErrors
  import opened Ascii
  import Region

  /** The calculator's own region factors (Go's unexported `region` type). */
  const nordic: real := 1.0
  const withinEU: real := 1.5
  const outsideEU: real := 2.5

  /** Go's ShipmentCost struct: the country-code table it reads. */
  datatype Calculator = Calculator(regions: map<string, real>)

  const MinWeight: int := 0
  const MaxWeight: int := 1000

  /** NewShipmentCost: the calculator over the hard-coded table. */
  function NewShipmentCost(): (c: Calculator)
    ensures forall k :: k in c.regions ==> nordic <= c.regions[k] <= outsideEU
  {
    Calculator(map[
      "sv" := nordic, "no" := nordic, "dk" := nordic, "fi" := nordic,

      "fr" := withinEU, "de" := withinEU, "nl" := withinEU, "it" := withinEU,
      "pt" := withinEU, "at" := withinEU, "be" := withinEU, "lv" := withinEU,
      "bg" := withinEU, "lt" := withinEU, "hr" := withinEU, "lu" := withinEU,
      "cy" := withinEU, "mt" := withinEU, "cz" := withinEU, "pl" := withinEU,
      "ee" := withinEU, "ro" := withinEU, "sk" := withinEU, "si" := withinEU,
      "gr" := withinEU, "es" := withinEU, "hu" := withinEU, "ie" := withinEU,

      "us" := outsideEU, "ca" := outsideEU, "cn" := outsideEU, "jp" := outsideEU,
      "th" := outsideEU, "br" := outsideEU, "ar" := outsideEU
    ])
  }

  /** The base rate of the weight band a valid weight falls in: 0-10, 11-25,
      26-50 and 51-1000, each band's upper bound inclusive. */
  function BaseRate(weight: int): (rate: real)
    requires MinWeight <= weight <= MaxWeight
    ensures 100.0 <= rate <= 2000.0
    ensures weight <= 10 <==> rate == 100.0
    ensures weight > 50 <==> rate == 2000.0
  {
    if weight <= 10 then 100.0
    else if weight <= 25 then 300.0
    else if weight <= 50 then 500.0
    else 2000.0
  }

  /** ShipmentCost: the country code is checked first, then the weight range;
      only then is the price computed. */
  function ShipmentCost(c: Calculator, weight: int, ccode: string): (r: Result<real>)
    ensures r.Ok? <==> ToLower(ccode) in c.regions && MinWeight <= weight <= MaxWeight
    ensures ToLower(ccode) !in c.regions ==> r == Err(Fresh("unsupported country code"))
    ensures (ToLower(ccode) in c.regions && !(MinWeight <= weight <= MaxWeight))
              ==> r == Err(Fresh("invalid weight"))
    ensures r.Ok? ==> r.value == BaseRate(weight) * c.regions[ToLower(ccode)]
  {
    var key := ToLower(ccode);
    if key !in c.regions then Err(Fresh("unsupported country code"))
    else if weight < 0 || weight > 1000 then Err(Fresh("invalid weight"))
    else
      var regionFactor := c.regions[key];
      if weight <= 10 then Ok(100.0 * regionFactor)
      else if weight <= 25 then Ok(300.0 * regionFactor)
      else if weight <= 50 then Ok(500.0 * regionFactor)
      else Ok(2000.0 * regionFactor)
  }

  /** The calculator's table is the region classifier's table: same keys, and
      each key's factor is the numeric value of its region. */
  lemma TablesAgree()
    ensures NewShipmentCost().regions.Keys == Region.Regions.Keys
    ensures forall k :: k in Region.Regions ==>
              NewShipmentCost().regions[k] == Region.Factor(Region.Regions[k])
  {
    var table := NewShipmentCost().regions;
    Region.KeysListed();
    Region.NordicMapped();
    Region.WithinEUMapped();
    Region.OutsideEUMapped();
    CalcKeysListed(table);
    NordicAgrees(table);
    WithinEUAgrees(table);
    OutsideEUAgrees(table);
    AgreeByLists(table, Region.Regions);
  }

  /** Through the shared table, the calculator prices with the classifier:
      an unsupported code fails whatever the weight, a supported one with an
      out-of-range weight fails on the weight, and otherwise the cost is the
      band's base rate times the factor of the code's region. */
  lemma CostByRegion(weight: int, ccode: string)
    ensures Region.From(ccode).Err? ==>
              ShipmentCost(NewShipmentCost(), weight, ccode) == Err(Fresh("unsupported country code"))
    ensures (Region.From(ccode).Ok? && !(MinWeight <= weight <= MaxWeight)) ==>
              ShipmentCost(NewShipmentCost(), weight, ccode) == Err(Fresh("invalid weight"))
    ensures (Region.From(ccode).Ok? && MinWeight <= weight <= MaxWeight) ==>
              ShipmentCost(NewShipmentCost(), weight, ccode)
                == Ok(BaseRate(weight) * Region.Factor(Region.From(ccode).value))
  {
    TablesAgree();
  }

  /** Every price lies between 100 (a light Nordic parcel) and 5000 (a heavy
      parcel from outside the EU). */
  lemma CostBounds(weight: int, ccode: string)
    requires ShipmentCost(NewShipmentCost(), weight, ccode).Ok?
    ensures 100.0 <= ShipmentCost(NewShipmentCost(), weight, ccode).value <= 5000.0
  {
    CostByRegion(weight, ccode);
    TablesAgree();
    var r := Region.From(ccode);
    assert r.Ok?;
    var f := Region.Factor(r.value);
    assert 1.0 <= f <= 2.5;
    assert 100.0 <= BaseRate(weight) <= 2000.0;
  }

  /** The base rate never decreases as the weight grows. */
  lemma BaseRateMonotone(w1: int, w2: int)
    requires MinWeight <= w1 <= w2 <= MaxWeight
    ensures BaseRate(w1) <= BaseRate(w2)
  {
  }

  /** The price does not depend on the case of the country code. */
  lemma CostCaseInsensitive(c: Calculator, weight: int, ccode: string)
    ensures ShipmentCost(c, weight, ccode) == ShipmentCost(c, weight, ToLower(ccode))
  {
    ToLowerIdempotent(ccode);
  }

  /** Nordic prices the unit tests expect. */
  lemma NordicExamples()
    ensures ShipmentCost(NewShipmentCost(), 0, "no") == Ok(100.0)
    ensures ShipmentCost(NewShipmentCost(), 11, "sv") == Ok(300.0)
    ensures ShipmentCost(NewShipmentCost(), 26, "dk") == Ok(500.0)
    ensures ShipmentCost(NewShipmentCost(), 51, "fi") == Ok(2000.0)
  {
    assert ToLower("no") == "no" && ToLower("sv") == "sv";
    assert ToLower("dk") == "dk" && ToLower("fi") == "fi";
  }

  /** Within-EU prices the unit tests expect. */
  lemma WithinEUExamples()
    ensures ShipmentCost(NewShipmentCost(), 10, "fr") == Ok(150.0)
    ensures ShipmentCost(NewShipmentCost(), 25, "de") == Ok(450.0)
    ensures ShipmentCost(NewShipmentCost(), 50, "lt") == Ok(750.0)
    ensures ShipmentCost(NewShipmentCost(), 1000, "cz") == Ok(3000.0)
  {
    assert ToLower("fr") == "fr" && ToLower("de") == "de";
    assert ToLower("lt") == "lt" && ToLower("cz") == "cz";
  }

  /** Outside-EU prices the unit tests expect, and the end-to-end case of an
      upper-case "US" at 500 kg. */
  lemma OutsideEUExamples()
    ensures ShipmentCost(NewShipmentCost(), 7, "us") == Ok(250.0)
    ensures ShipmentCost(NewShipmentCost(), 18, "ca") == Ok(750.0)
    ensures ShipmentCost(NewShipmentCost(), 29, "br") == Ok(1250.0)
    ensures ShipmentCost(NewShipmentCost(), 777, "jp") == Ok(5000.0)
    ensures ShipmentCost(NewShipmentCost(), 500, "US") == Ok(5000.0)
  {
    assert ToLower("us") == "us" && ToLower("ca") == "ca";
    assert ToLower("br") == "br" && ToLower("jp") == "jp";
    assert ToLower("US") == "us";
  }

  /** Failures the unit tests expect; with both arguments invalid the country
      code is reported. */
  lemma FailureExamples()
    ensures ShipmentCost(NewShipmentCost(), 42, "nn") == Err(Fresh("unsupported country code"))
    ensures ShipmentCost(NewShipmentCost(), 42, "banana") == Err(Fresh("unsupported country code"))
    ensures ShipmentCost(NewShipmentCost(), -1, "sv") == Err(Fresh("invalid weight"))
    ensures ShipmentCost(NewShipmentCost(), 1001, "sv") == Err(Fresh("invalid weight"))
    ensures ShipmentCost(NewShipmentCost(), 1001, "nn") == Err(Fresh("unsupported country code"))
  {
    TablesAgree();
    Region.FromRejectsExamples();
    assert ToLower("sv") == "sv";
  }

  /** Two tables that list the same codes under corresponding factors agree. */
  lemma AgreeByLists(table: map<string, real>, regions: map<string, Region.Region>)
    requires forall k :: k in regions <==>
               k in Region.NordicCodes || k in Region.WithinEUCodes || k in Region.OutsideEUCodes
    requires forall k :: k in table ==>
               k in Region.NordicCodes || k in Region.WithinEUCodes || k in Region.OutsideEUCodes
    requires forall k :: k in Region.NordicCodes ==> k in regions && regions[k] == Region.Nordic
    requires forall k :: k in Region.WithinEUCodes ==> k in regions && regions[k] == Region.WithinEU
    requires forall k :: k in Region.OutsideEUCodes ==> k in regions && regions[k] == Region.OutsideEU
    requires forall k :: k in Region.NordicCodes ==> k in table && table[k] == nordic
    requires forall k :: k in Region.WithinEUCodes ==> k in table && table[k] == withinEU
    requires forall k :: k in Region.OutsideEUCodes ==> k in table && table[k] == outsideEU
    ensures table.Keys == regions.Keys
    ensures forall k :: k in regions ==> table[k] == Region.Factor(regions[k])
  {
  }

  lemma CalcKeysListed(table: map<string, real>)
    requires table == NewShipmentCost().regions
    ensures forall k :: k in table ==>
              k in Region.NordicCodes || k in Region.WithinEUCodes || k in Region.OutsideEUCodes
  {
  }

  lemma NordicAgrees(table: map<string, real>)
    requires table == NewShipmentCost().regions
    ensures forall k :: k in Region.NordicCodes ==> k in table && table[k] == nordic
  {
  }

  lemma WithinEUAgrees(table: map<string, real>)
    requires table == NewShipmentCost().regions
    ensures forall k :: k in Region.WithinEUCodes ==> k in table && table[k] == withinEU
  {
    WithinEUChunk0(table);
    WithinEUChunk1(table);
    WithinEUChunk2(table);
    WithinEUChunk3(table);
  }

  lemma WithinEUChunk0(table: map<string, real>)
    requires table == NewShipmentCost().regions
    ensures forall k :: k in ["at", "be", "bg", "cy", "cz", "de"] ==> k in table && table[k] == withinEU
  {
  }

  lemma WithinEUChunk1(table: map<string, real>)
    requires table == NewShipmentCost().regions
    ensures forall k :: k in ["ee", "es", "fr", "gr", "hr", "hu"] ==> k in table && table[k] == withinEU
  {
  }

  lemma WithinEUChunk2(table: map<string, real>)
    requires table == NewShipmentCost().regions
    ensures forall k :: k in ["ie", "it", "lt", "lu", "lv", "mt"] ==> k in table && table[k] == withinEU
  {
  }

  lemma WithinEUChunk3(table: map<string, real>)
    requires table == NewShipmentCost().regions
    ensures forall k :: k in ["nl", "pl", "pt", "ro", "si", "sk"] ==> k in table && table[k] == withinEU
  {
  }

  lemma OutsideEUAgrees(table: map<string, real>)
    requires table == NewShipmentCost().regions
    ensures forall k :: k in Region.OutsideEUCodes ==> k in table && table[k] == outsideEU
  {
  }
}
