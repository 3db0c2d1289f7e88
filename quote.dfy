/** The quote package: the records a quote is made of (models.go) and the
    service that prices, stores and retrieves them (quote.go). The database
    is an in-memory quotes table, one row per stored quote; a failure the
    database may report instead of doing its work is a parameter. */
module QuoteData {
  import opened GoErrors
  import Validate
  import Calc

  /** A quote ID: a string type of its own. */
  datatype ID = ID(value: string)

  datatype Customer = Customer(name: string, email: string, address: string, countryCode: string)

  /** What a client supplies to have a quote made: no ID and no cost. */
  datatype NewQuote = NewQuote(to: Customer, from: Customer, weight: int)

  /** A priced, stored quote. */
  datatype Info = Info(id: ID, to: Customer, from: Customer, weight: int, shipmentCost: real)

  /** The request an Info was made from. */
  function Request(info: Info): NewQuote
  {
    NewQuote(info.to, info.from, info.weight)
  }

  /** An Info is a NewQuote together with an ID and a shipment cost. */
  function WithPrice(nq: NewQuote, id: ID, cost: real): (info: Info)
    ensures Request(info) == nq
    ensures info.id == id && info.shipmentCost == cost
  {
    Info(id, nq.to, nq.from, nq.weight, cost)
  }

  /** Nothing of an Info is lost when it is taken apart into its request,
      ID and cost. */
  lemma InfoDecomposes(info: Info)
    ensures WithPrice(Request(info), info.id, info.shipmentCost) == info
  {
  }

  /** queryQuote: one row of the quotes table, its columns in the order the
      insert statement lists them. */
  datatype Row = Row(
    quoteId: ID, packageWeight: int, shipmentCost: real,
    toName: string, toEmail: string, toAddress: string, toCountryCode: string,
    fromName: string, fromEmail: string, fromAddress: string, fromCountryCode: string)

  /** The eleven values Create passes to the insert statement: the ID,
      weight and cost, then each customer's four fields, recipient first. */
  function Flatten(info: Info): Row
  {
    Row(info.id, info.weight, info.shipmentCost,
        info.to.name, info.to.email, info.to.address, info.to.countryCode,
        info.from.name, info.from.email, info.from.address, info.from.countryCode)
  }

  /** toInfo: a row read back as an Info. Flattening the result gives the
      row again, so no column is dropped or misplaced. */
  function ToInfo(row: Row): (info: Info)
    ensures Flatten(info) == row
  {
    Info(row.quoteId,
         Customer(row.toName, row.toEmail, row.toAddress, row.toCountryCode),
         Customer(row.fromName, row.fromEmail, row.fromAddress, row.fromCountryCode),
         row.packageWeight, row.shipmentCost)
  }

  /** Reading back an inserted quote gives the quote that was inserted. */
  lemma FlattenRoundTrip(info: Info)
    ensures ToInfo(Flatten(info)) == info
  {
  }

  const ErrInvalidID: Error := Sentinel(QuoteInvalidID)
  const ErrNotFound: Error := Sentinel(QuoteNotFound)

  /** ID.validate: nil for a well-formed UUID, ErrInvalidID otherwise. */
  function ValidateID(id: ID): (err: Option<Error>)
    ensures err.None? <==> Validate.IsUUID(id.value)
    ensures err.Some? ==> err.value == ErrInvalidID
  {
    if Validate.IsUUID(id.value) then None else Some(ErrInvalidID)
  }

  /** generateID: the text of a fresh random UUID; the 16 random bytes are
      the parameter. Every generated ID passes ValidateID. */
  function GenerateID(entropy: seq<Validate.byte>): (id: ID)
    requires |entropy| == 16
    ensures ValidateID(id).None?
  {
    Validate.GeneratedIDIsValid(entropy);
    ID(Validate.GenerateID(entropy))
  }

  // ---------------------------------------------------------------------------
  // The quotes table

  /** The first row of the table with the given ID, if any. */
  function FindRow(rows: seq<Row>, id: ID): (r: Option<Row>)
    ensures r.None? <==> forall i :: 0 <= i < |rows| ==> rows[i].quoteId != id
    ensures r.Some? ==> r.value in rows && r.value.quoteId == id
  {
    if rows == [] then None
    else if rows[0].quoteId == id then Some(rows[0])
    else FindRow(rows[1..], id)
  }

  /** A row appended under an ID no other row has is the row found for it. */
  lemma FindRowAppended(rows: seq<Row>, row: Row)
    requires forall i :: 0 <= i < |rows| ==> rows[i].quoteId != row.quoteId
    ensures FindRow(rows + [row], row.quoteId) == Some(row)
  {
    assert (rows + [row])[|rows|] == row;
    var r := FindRow(rows + [row], row.quoteId);
    assert r.value in rows + [row];
  }

  /** Rows appended later do not change which row an ID already finds. */
  lemma {:induction false} FindRowKeepsEarlier(rows: seq<Row>, more: seq<Row>, id: ID)
    requires FindRow(rows, id).Some?
    ensures FindRow(rows + more, id) == FindRow(rows, id)
  {
    if rows[0].quoteId != id {
      assert (rows + more)[1..] == rows[1..] + more;
      FindRowKeepsEarlier(rows[1..], more, id);
    }
  }

  /** The database's read of the row with the given ID: the failure it
      reports, sql.ErrNoRows when no row matches, or the first matching row. */
  function Get(rows: seq<Row>, id: ID, fault: Option<Error>): (r: Result<Row>)
    ensures fault.Some? ==> r == Err(fault.value)
    ensures fault.None? ==> (r.Ok? <==> FindRow(rows, id).Some?)
    ensures r.Ok? ==> r.value in rows && r.value.quoteId == id
    ensures fault.None? && r.Err? ==> r.error == Sentinel(SqlNoRows)
  {
    if fault.Some? then Err(fault.value)
    else match FindRow(rows, id)
      case None => Err(Sentinel(SqlNoRows))
      case Some(row) => Ok(row)
  }

  /** %q of a string that needs no escaping. */
  function Quoted(s: string): (q: string)
    ensures |q| == |s| + 2
    ensures q[0] == '"' && q[|q| - 1] == '"'
    ensures q[1..|q| - 1] == s
  {
    "\"" + s + "\""
  }

  /** What QueryByID returns: ErrInvalidID for a malformed ID whatever the
      table holds, ErrNotFound when the read reports no row, the read's
      failure wrapped with the ID otherwise, and else the row as an Info. */
  function Fetch(rows: seq<Row>, id: ID, fault: Option<Error>): (r: Result<Info>)
    ensures !Validate.IsUUID(id.value) ==> r == Err(ErrInvalidID)
    ensures r.Ok? <==> Validate.IsUUID(id.value) && Get(rows, id, fault).Ok?
    ensures r.Ok? ==> r.value.id == id && Flatten(r.value) in rows
  {
    if ValidateID(id).Some? then Err(ErrInvalidID)
    else match Get(rows, id, fault)
      case Err(e) =>
        if e == Sentinel(SqlNoRows) then Err(ErrNotFound)
        else Err(Wrapped("selecting quote " + Quoted(id.value), e))
      case Ok(row) => Ok(ToInfo(row))
  }

  /** QueryByID reports ErrNotFound exactly when a well-formed ID has no row,
      or the read itself reports sql.ErrNoRows. (The database's own failures
      never wrap the quote package's ErrNotFound.) */
  lemma FetchNotFoundIff(rows: seq<Row>, id: ID, fault: Option<Error>)
    requires fault.Some? ==> !Is(fault.value, QuoteNotFound)
    ensures (Fetch(rows, id, fault).Err? && Is(Fetch(rows, id, fault).error, QuoteNotFound))
        <==> && Validate.IsUUID(id.value)
             && (|| fault == Some(Sentinel(SqlNoRows))
                 || (fault.None? && forall i :: 0 <= i < |rows| ==> rows[i].quoteId != id))
    ensures (Fetch(rows, id, fault).Err? && Is(Fetch(rows, id, fault).error, QuoteNotFound))
        ==> Fetch(rows, id, fault) == Err(ErrNotFound)
  {
  }

  /** Any other failure of the read comes back wrapped with the ID, so it is
      neither ErrNotFound nor ErrInvalidID, and errors.Is still sees the
      failure through the wrapping. */
  lemma FetchOtherFailure(rows: seq<Row>, id: ID, e: Error)
    requires Validate.IsUUID(id.value)
    requires e != Sentinel(SqlNoRows)
    ensures Fetch(rows, id, Some(e)) == Err(Wrapped("selecting quote " + Quoted(id.value), e))
    ensures Fetch(rows, id, Some(e)).error != ErrNotFound
    ensures Fetch(rows, id, Some(e)).error != ErrInvalidID
    ensures forall k :: Is(Fetch(rows, id, Some(e)).error, k) <==> Is(e, k)
  {
  }

  /** Once a quote with a fresh, well-formed ID is inserted, QueryByID on
      that ID returns exactly that quote. */
  lemma FetchAfterInsert(rows: seq<Row>, info: Info)
    requires Validate.IsUUID(info.id.value)
    requires forall i :: 0 <= i < |rows| ==> rows[i].quoteId != info.id
    ensures Fetch(rows + [Flatten(info)], info.id, None) == Ok(info)
  {
    FindRowAppended(rows, Flatten(info));
  }

  /** Inserting a row does not change what QueryByID returns for a quote
      that was already there. */
  lemma FetchKeepsEarlier(rows: seq<Row>, row: Row, id: ID)
    requires Fetch(rows, id, None).Ok?
    ensures Fetch(rows + [row], id, None) == Fetch(rows, id, None)
  {
    FindRowKeepsEarlier(rows, [row], id);
  }

  /** Every row with a well-formed ID can be fetched by it. */
  lemma EveryRowRetrievable(rows: seq<Row>, i: nat)
    requires i < |rows| && Validate.IsUUID(rows[i].quoteId.value)
    ensures Fetch(rows, rows[i].quoteId, None).Ok?
    ensures Fetch(rows, rows[i].quoteId, None).value.id == rows[i].quoteId
  {
  }

  /** What Query returns on success: one Info per row, in row order. */
  function AllInfos(rows: seq<Row>): (infos: seq<Info>)
    ensures |infos| == |rows|
    ensures forall i :: 0 <= i < |rows| ==> Flatten(infos[i]) == rows[i]
  {
    if rows == [] then []
    else AllInfos(rows[..|rows| - 1]) + [ToInfo(rows[|rows| - 1])]
  }

  /** After an insert the listing is one longer and ends with the new quote;
      the quotes listed before are listed as before. */
  lemma AllInfosAfterInsert(rows: seq<Row>, info: Info)
    ensures AllInfos(rows + [Flatten(info)]) == AllInfos(rows) + [info]
  {
    assert (rows + [Flatten(info)])[..|rows|] == rows;
  }

  /** A row Create could have written: a well-formed ID, and the cost the
      calculator gives for the row's weight and sender's country code. */
  predicate Priced(c: Calc.Calculator, row: Row)
  {
    && Validate.IsUUID(row.quoteId.value)
    && Calc.ShipmentCost(c, row.packageWeight, row.fromCountryCode) == Ok(row.shipmentCost)
  }

  predicate AllPriced(c: Calc.Calculator, rows: seq<Row>)
  {
    forall i :: 0 <= i < |rows| ==> Priced(c, rows[i])
  }

  /** In a table of rows priced by the standard calculator, every listed
      quote weighs 0 to 1000 and costs 100 to 5000, and can be fetched. */
  lemma ListedQuotesInRange(rows: seq<Row>)
    requires AllPriced(Calc.NewShipmentCost(), rows)
    ensures forall q :: q in AllInfos(rows) ==>
              && Calc.MinWeight <= q.weight <= Calc.MaxWeight
              && 100.0 <= q.shipmentCost <= 5000.0
              && Fetch(rows, q.id, None).Ok?
  {
    var infos := AllInfos(rows);
    forall q | q in infos
      ensures Calc.MinWeight <= q.weight <= Calc.MaxWeight
      ensures 100.0 <= q.shipmentCost <= 5000.0
      ensures Fetch(rows, q.id, None).Ok?
    {
      var i :| 0 <= i < |infos| && infos[i] == q;
      assert Flatten(q) == rows[i];
      Calc.CostBounds(q.weight, q.from.countryCode);
      EveryRowRetrievable(rows, i);
    }
  }

  // ---------------------------------------------------------------------------
  // The service

  /** Quote: the quote service over its table and shipment cost calculator. */
  class Quote {
    /** The quotes table, in insertion order. */
    var rows: seq<Row>
    const calculator: Calc.Calculator

    /** Every row was written by Create with this calculator. */
    predicate Valid()
      reads this
    {
      AllPriced(calculator, rows)
    }

    /** New: the service over a table and a calculator. */
    constructor (table: seq<Row>, c: Calc.Calculator)
      ensures rows == table && calculator == c
    {
      rows := table;
      calculator := c;
    }

    /** Create prices the new quote from the sender's country code, gives it
        a fresh ID and inserts it. A pricing failure and an insert failure
        come back wrapped and leave the table as it was; on success exactly
        the new quote's row is appended. */
    method Create(nq: NewQuote, entropy: seq<Validate.byte>, insertFault: Option<Error>) returns (r: Result<Info>)
      requires |entropy| == 16
      modifies this
      ensures Calc.ShipmentCost(calculator, nq.weight, nq.from.countryCode).Err? ==>
                && r == Err(Wrapped("calculating shipment cost",
                                    Calc.ShipmentCost(calculator, nq.weight, nq.from.countryCode).error))
                && rows == old(rows)
      ensures Calc.ShipmentCost(calculator, nq.weight, nq.from.countryCode).Ok? && insertFault.Some? ==>
                && r == Err(Wrapped("inserting quote", insertFault.value))
                && rows == old(rows)
      ensures Calc.ShipmentCost(calculator, nq.weight, nq.from.countryCode).Ok? && insertFault.None? ==>
                && r == Ok(WithPrice(nq, GenerateID(entropy),
                                     Calc.ShipmentCost(calculator, nq.weight, nq.from.countryCode).value))
                && rows == old(rows) + [Flatten(r.value)]
      ensures old(Valid()) ==> Valid()
    {
      var cost := Calc.ShipmentCost(calculator, nq.weight, nq.from.countryCode);
      if cost.Err? {
        return Err(Wrapped("calculating shipment cost", cost.error));
      }
      var info := Info(GenerateID(entropy), nq.to, nq.from, nq.weight, cost.value);
      if insertFault.Some? {
        return Err(Wrapped("inserting quote", insertFault.value));
      }
      rows := rows + [Flatten(info)];
      return Ok(info);
    }

    /** Query lists every quote in the table, in row order; a failed read
        comes back wrapped. */
    method Query(fault: Option<Error>) returns (r: Result<seq<Info>>)
      ensures fault.Some? ==> r == Err(Wrapped("selecting quotes", fault.value))
      ensures fault.None? ==> r == Ok(AllInfos(rows))
      ensures fault.None? && Valid() && calculator == Calc.NewShipmentCost() ==>
                forall q :: q in r.value ==>
                  && Calc.MinWeight <= q.weight <= Calc.MaxWeight
                  && 100.0 <= q.shipmentCost <= 5000.0
                  && Fetch(rows, q.id, None).Ok?
    {
      if fault.Some? {
        return Err(Wrapped("selecting quotes", fault.value));
      }
      var quotes: seq<Info> := [];
      for n := 0 to |rows|
        invariant quotes == AllInfos(rows[..n])
      {
        assert rows[..n + 1][..n] == rows[..n];
        quotes := quotes + [ToInfo(rows[n])];
      }
      assert rows[..|rows|] == rows;
      if Valid() && calculator == Calc.NewShipmentCost() {
        ListedQuotesInRange(rows);
      }
      return Ok(quotes);
    }

    /** QueryByID checks the ID's form before reading the table, then tells a
        missing quote apart from other read failures. */
    method QueryByID(id: ID, fault: Option<Error>) returns (r: Result<Info>)
      ensures r == Fetch(rows, id, fault)
    {
      if ValidateID(id).Some? {
        return Err(ErrInvalidID);
      }
      var row := Get(rows, id, fault);
      if row.Err? {
        if row.error == Sentinel(SqlNoRows) {
          return Err(ErrNotFound);
        }
        return Err(Wrapped("selecting quote " + Quoted(id.value), row.error));
      }
      return Ok(ToInfo(row.value));
    }
  }

  /** End to end: a quote the service has just created is returned by
      QueryByID, and is the last one Query lists. */
  method CreateThenRead(service: Quote, nq: NewQuote, entropy: seq<Validate.byte>)
    returns (created: Result<Info>, fetched: Result<Info>, listed: Result<seq<Info>>)
    requires |entropy| == 16
    requires forall i :: 0 <= i < |service.rows| ==> service.rows[i].quoteId != GenerateID(entropy)
    modifies service
    ensures created.Ok? <==> Calc.ShipmentCost(service.calculator, nq.weight, nq.from.countryCode).Ok?
    ensures created.Ok? ==> fetched == created
    ensures created.Ok? ==> listed.Ok? && listed.value == AllInfos(old(service.rows)) + [created.value]
  {
    created := service.Create(nq, entropy, None);
    fetched := service.QueryByID(GenerateID(entropy), None);
    listed := service.Query(None);
    if created.Ok? {
      FetchAfterInsert(old(service.rows), created.value);
      AllInfosAfterInsert(old(service.rows), created.value);
    }
  }
}
