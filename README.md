# Quote service — a Dafny model

This project models the pricing and storage core of a small Go HTTP service
that quotes parcel shipments. A client posts a sender, a recipient and a
weight. The service prices the parcel from the sender's country code and
stores the quote under a fresh UUID. Clients can list the stored quotes or
fetch one by its ID.

The model has one module per source file, plus two support modules:

- `GoErrors` (`go_errors.dfy`) models Go's error values as the service uses
  them:
  - package-level sentinels, compared by identity;
  - fresh `errors.New` values;
  - `%w` wrapping;
  - `errors.Is`, `errors.As` and `err.Error()`.

  A Go `(value, error)` pair is a `Result`.
- `Ascii` (`ascii.dfy`) holds the POSIX character classes of Go's regular
  expressions and `strings.ToLower`, both on ASCII.
- `Region` (`region.dfy`, for `region.go`) is the 35-entry country-code table
  and `From`. It proves the region counts (4 / 24 / 7), the table's key
  shape, case-insensitivity and the test cases.
- `Calc` (`calc.dfy`, for `cost.go`) is the calculator's own copy of the
  table and `ShipmentCost`. It proves:
  - the two tables agree;
  - country-before-weight error order;
  - cost = base rate × region factor;
  - the 100–5000 bounds;
  - monotone base rates;
  - case-insensitivity;
  - the test cases.
- `Validate` (`validate.dfy`, for `validate.go`) holds:
  - the `personname` regular expression as a matcher, proved equal to a
    plain characterisation;
  - the JSON tag-name function;
  - UUID generation and `CheckID`, with every generated ID valid and
    the rendering of a UUID's 16 bytes as text injective;
  - `Check`'s loop, which turns violations into `FieldErrors` in order.
- `QuoteData` (`quote.dfy`, for `models.go` and `quote.go`) holds:
  - the record types;
  - the flattening of a quote into the eleven insert columns and back;
  - specification functions for reading the table (`Fetch` for
    `QueryByID`, `AllInfos` for `Query`);
  - the `Quote` service class, whose `rows` field is the quotes table.

  Its methods `Create`, `Query` and `QueryByID` are proved against those
  functions. Lemmas give the create-then-fetch round trip and the
  not-found / invalid-ID / other-failure cases.
- `Handler` (`handler.dfy`, for `handler.go`, handler `quote.go` and
  `healthcheck.go`) holds:
  - the JSON envelope `respond` builds;
  - each handler's choice of status and payload;
  - end-to-end lemmas from the table to the HTTP status.

Calls into code outside the model become parameters:

- The 16 random bytes behind a new UUID are a parameter of `GenerateID`
  and `Create`.
- A database failure is a parameter of the store operations.
  - `None` means the database does its work on the in-memory table.
  - `Some(e)` means it reports `e`.
  - `sql.ErrNoRows` is the sentinel `SqlNoRows`.

Costs are `real`. Every reachable cost is a multiple of 50, so float64
computes them exactly.

The source files come from different revisions. Where the tests disagree
with the code, the model follows the code:
- the tests expect a 400 for a malformed ID, but the code returns a 500;
- the tests expect a 201 for POST, but the code returns a 501;
- the tests refer to `ErrInvalidCountryCode` and `New(db)`, which the code
  does not have.

## Model

| member | source | states |
|---|---|---|
| Ascii.LowerChar | internal/business/region/region.go:27 | an upper-case letter becomes its lower-case letter (code + 32); every other character is unchanged; no upper-case letter remains |
| Ascii.ToLower | internal/business/region/region.go:27 | strings.ToLower keeps the length and lower-cases character by character |
| Ascii.ToLowerIdempotent | internal/business/region/region.go:27 | lower-casing twice is lower-casing once |
| GoErrors.AsFieldErrors | cmd/quote-api/handler/handler.go:40-41 | errors.As finds the first FieldErrors on the wrap chain; an error that is ErrNotFound carries none |
| GoErrors.Is | cmd/quote-api/handler/quote.go:30 | errors.Is against a sentinel: true iff the %w chain ends in that sentinel (no contract of its own; used by FetchNotFoundIff and HandleGetQuote) |
| GoErrors.SentinelText | internal/business/data/quote/quote.go:14-17 | the errors.New texts of the sentinels (also region.go:11, validate.go:59 and sql.ErrNoRows): each is non-empty, and only the two ErrInvalidID values share a text |
| GoErrors.Message | cmd/quote-api/handler/handler.go:44 | err.Error(): a sentinel's or fresh error's text, a wrapped error's context, ": " and the inner text (no contract of its own; FieldErrors text left out) |
| Region.Factor | internal/business/region/region.go:14-23 | each region's value is its cost factor, 1, 1.5 or 2.5 |
| Region.From | internal/business/region/region.go:26-32 | succeeds iff the lower-cased code is a key, giving that key's region; otherwise exactly ErrUnsupportedCountryCode |
| Region.TableCounts | internal/business/region/region.go:40-78 | the table holds 4 Nordic, 24 WithinEU and 7 OutsideEU codes |
| Region.TableSize | internal/business/region/region.go:40-78 | the three regions partition the table, which has 35 keys |
| Region.KeysListed | internal/business/region/region.go:40-78 | the keys are exactly the listed Nordic, WithinEU and OutsideEU codes |
| Region.KeysAreLowerPairs | internal/business/region/region.go:40-78 | every key is two lower-case ASCII letters |
| Region.FromCaseInsensitive | internal/business/region/region.go:27 | From(c) == From(lower(c)) |
| Region.FromNeedsTwoCharacters | internal/business/region/region.go:26-32 | only a two-character code can classify |
| Region.FromAcceptsExamples | internal/business/region/region_test.go:18-21 | sv is Nordic, fr WithinEU, jp and CA OutsideEU |
| Region.FromRejectsExamples | internal/business/region/region_test.go:41-42 | banana and nn are refused with ErrUnsupportedCountryCode, and so is Sweden's real code se |
| Calc.ShipmentCost | internal/business/calc/cost.go:69-88 | succeeds iff the lower-cased code is a key and 0 <= weight <= 1000; an unknown code fails on the code whatever the weight; a known code with a bad weight fails on the weight; a success is base rate × the code's factor |
| Calc.NewShipmentCost | internal/business/calc/cost.go:14-58 | every factor in the table lies between nordic and outsideEU; TablesAgree pins the keys and values to the classifier's table |
| Calc.BaseRate | internal/business/calc/cost.go:77-87 | the base rate lies in 100..2000; it is 100 exactly for 0..10 kg and 2000 exactly above 50 kg |
| Calc.TablesAgree | internal/business/calc/cost.go:18-56 | the calculator's table has the classifier's keys, each mapped to its region's factor |
| Calc.CostByRegion | internal/business/calc/cost.go:69-88 | through the classifier: unsupported code, invalid weight, or base rate × Factor(From(code)) |
| Calc.CostBounds | internal/business/calc/cost.go:77-87 | every price lies in 100..5000 |
| Calc.BaseRateMonotone | internal/business/calc/cost.go:78-87 | a heavier parcel never has a lower base rate |
| Calc.CostCaseInsensitive | internal/business/calc/cost.go:70 | ShipmentCost(w, c) == ShipmentCost(w, lower(c)) |
| Calc.NordicExamples | internal/business/calc/cost_test.go:20-23 | the Nordic prices the tests expect |
| Calc.WithinEUExamples | internal/business/calc/cost_test.go:25-28 | the within-EU prices the tests expect |
| Calc.OutsideEUExamples | internal/business/calc/cost_test.go:30-33 | the outside-EU prices the tests expect, and "US" at 500 gives 5000 |
| Calc.FailureExamples | internal/business/calc/cost_test.go:52-72 | nn and banana fail on the code, -1 and 1001 on the weight, and 1001 with nn on the code |
| Validate.MatchRepeatIff | internal/business/validate/validate.go:25 | (a\|b\|c){0,n} matches exactly the strings of at most n characters from the classes |
| Validate.MatchesPersonName | internal/business/validate/validate.go:25 | personNameRegex.MatchString: one [[:upper:]] then ([[:alpha:]]\|[[:punct:]]\|[[:space:]]){0,29} over the whole text (a predicate; PersonNameIff characterises it) |
| Validate.PersonNameIff | internal/business/validate/validate.go:25 | personname accepts exactly 1..30 characters, an upper-case first one, then letters, punctuation or white space |
| Validate.PersonNameAccepts | internal/business/validate/validate_test.go:23-27 | John, "John doe", John-doe, A and any capitalised 30-letter name are accepted |
| Validate.PersonNameRejects | internal/business/validate/validate_test.go:44-47 | john, John1, "" and any 31-character name are rejected |
| Validate.FirstField | internal/business/validate/validate.go:49 | SplitN(s, sep, 2)[0] is a separator-free prefix ending at the first separator |
| Validate.FirstFieldWhole | internal/business/validate/validate.go:49 | with no separator the first field is the whole text |
| Validate.FirstFieldStops | internal/business/validate/validate.go:49 | the first field stops at the first separator |
| Validate.TagName | internal/business/validate/validate.go:48-54 | the wire name has no comma and is the tag's prefix up to a comma or the end |
| Validate.TagNameEmptyIff | internal/business/validate/validate.go:49-52 | the name is "" exactly for an empty tag, a tag starting with a comma, the tag "-", or a tag starting with "-," |
| Validate.TagNamePlain | internal/business/validate/validate.go:48-54 | a tag without options names the field by the whole tag |
| Validate.TagNameIgnoresOptions | internal/business/validate/validate.go:49 | options after the first comma do not change the name |
| Validate.TagNameSkipExamples | internal/business/validate/validate.go:50-51 | "-" and "-," give no name |
| Validate.CheckID | internal/business/validate/validate.go:67-72 | nil iff the text is a UUID, otherwise exactly ErrInvalidID |
| Validate.CheckIDRejectsBadFormat | internal/business/validate/validate.go:67-72 | "badFormat" is refused with ErrInvalidID |
| Validate.Hex | internal/business/validate/validate.go:63 | n bytes give 2n hexadecimal digits |
| Validate.GeneratedIDIsValid | internal/business/validate/validate.go:62-72 | every generated ID passes CheckID |
| Validate.GenerateID | internal/business/validate/validate.go:62-64 | uuid.New().String(): 36 characters with hyphens at 8, 13, 18 and 23; GeneratedIDIsValid and GenerateIDInjective give validity and injectivity |
| Validate.GenerateIDInjective | internal/business/validate/validate.go:62-64 | different 16-byte UUID values render to different text |
| Validate.Check | internal/business/validate/validate.go:75-103 | nil when nothing is violated, another error passed through unchanged, otherwise FieldErrors with one entry per violation in order |
| QuoteData.WithPrice | internal/business/data/quote/models.go:7-20 | an Info is the NewQuote's fields plus an ID and a cost |
| QuoteData.Flatten | internal/business/data/quote/quote.go:58 | the insert's eleven arguments in column order (no contract of its own; ToInfo and FlattenRoundTrip prove it and toInfo inverse to each other) |
| QuoteData.InfoDecomposes | internal/business/data/quote/models.go:7-13 | nothing of an Info is lost when it is split into its request, ID and cost |
| QuoteData.ToInfo | internal/business/data/quote/quote.go:126-144 | toInfo is the inverse of the insert's column list |
| QuoteData.FlattenRoundTrip | internal/business/data/quote/quote.go:58 | reading back an inserted row gives the inserted quote |
| QuoteData.ValidateID | internal/business/data/quote/quote.go:146-151 | nil iff the ID is a UUID, otherwise exactly quote.ErrInvalidID |
| QuoteData.GenerateID | internal/business/data/quote/quote.go:153-155 | a generated ID passes ValidateID |
| QuoteData.FindRow | internal/business/data/quote/quote.go:93-99 | the first row with the ID, or none exactly when no row has it |
| QuoteData.FindRowAppended | internal/business/data/quote/quote.go:93-99 | a row appended under an unused ID is the one found for it |
| QuoteData.FindRowKeepsEarlier | internal/business/data/quote/quote.go:93-99 | later rows do not change which row an ID finds |
| QuoteData.Get | internal/business/data/quote/quote.go:102 | the read reports the failure, sql.ErrNoRows when no row matches, or a matching row |
| QuoteData.Quoted | internal/business/data/quote/quote.go:106 | %q of text needing no escaping: the text between two double quotes, nothing added or lost |
| QuoteData.Fetch | internal/business/data/quote/quote.go:88-110 | a malformed ID is ErrInvalidID whatever the table holds; success iff a well-formed ID has a row, returning a quote with that ID read from the table |
| QuoteData.FetchNotFoundIff | internal/business/data/quote/quote.go:102-105 | the error is ErrNotFound exactly when a well-formed ID has no row or the read reports sql.ErrNoRows |
| QuoteData.FetchOtherFailure | internal/business/data/quote/quote.go:106 | other read failures come back wrapped with the ID, neither ErrNotFound nor ErrInvalidID, still visible to errors.Is |
| QuoteData.FetchAfterInsert | internal/business/data/quote/quote.go:101-109 | after inserting a quote under a fresh valid ID, fetching it returns that quote |
| QuoteData.FetchKeepsEarlier | internal/business/data/quote/quote.go:58-62 | an insert does not change what an existing ID fetches |
| QuoteData.EveryRowRetrievable | internal/business/data/quote/quote.go:88-110 | every row with a well-formed ID can be fetched by it |
| QuoteData.AllInfos | internal/business/data/quote/quote.go:79-84 | one quote per row, in row order, each flattening to its row |
| QuoteData.AllInfosAfterInsert | internal/business/data/quote/quote_test.go:49-54 | after an insert the listing is one longer and ends with the new quote |
| QuoteData.ListedQuotesInRange | internal/business/data/quote/quote.go:39-50 | in a table Create wrote, every listed quote weighs 0..1000, costs 100..5000 and can be fetched |
| QuoteData.Quote.constructor | internal/business/data/quote/quote.go:27-32 | New holds the given table and calculator |
| QuoteData.Quote.Create | internal/business/data/quote/quote.go:35-63 | a pricing or insert failure is wrapped and leaves the table unchanged; success returns the request priced under the generated ID and appends exactly its row; tables Create wrote stay that way |
| QuoteData.Quote.Query | internal/business/data/quote/quote.go:66-85 | a failed read is wrapped; otherwise the listing is AllInfos of the table; on a table Create wrote with the standard calculator every listed quote weighs 0..1000, costs 100..5000 and can be fetched |
| QuoteData.Quote.QueryByID | internal/business/data/quote/quote.go:88-110 | returns Fetch of the table |
| QuoteData.CreateThenRead | internal/business/data/quote/quote_test.go:41-47 | a quote just created is returned by QueryByID and listed last by Query |
| Handler.ErrorEntry | cmd/quote-api/handler/handler.go:40-45 | the "error" entry is the FieldErrors on the chain if any, else the error's text |
| Handler.Respond | cmd/quote-api/handler/handler.go:37-58 | code equals the written status; an error gives success false, an error entry and no data; anything else gives success true, no error, and data iff non-nil |
| Handler.FieldErrorsReported | cmd/quote-api/handler/handler.go:40-42 | a wrapped FieldErrors is reported as its list of field errors |
| Handler.HandleGetQuote | cmd/quote-api/handler/quote.go:23-39 | 400 iff the error is ErrNotFound, with its text; 500 with "internal server error" for any other error; 200 carrying the quote otherwise |
| Handler.HandleListQuotes | cmd/quote-api/handler/quote.go:41-54 | 500 with "internal server error" on error, 200 with all quotes otherwise |
| Handler.HandleAddQuote | cmd/quote-api/handler/quote.go:56-60 | always 501 with "Not Implemented", and success true |
| Handler.StatusText | cmd/quote-api/handler/quote.go:58 | http.StatusText: Go's text for the four statuses the handlers use ("Not Implemented" for 501), and "" outside 100..511 |
| Handler.HandleHealthCheck | cmd/quote-api/handler/healthcheck.go:7 | 200, success true, neither data nor error |
| Handler.GetMalformedID | cmd/quote-api/handler/quote.go:33-35 | GET of a malformed ID is a 500, not a 400 |
| Handler.GetMissingQuote | cmd/quote-api/handler/quote.go:30-32 | GET of a well-formed unknown ID is a 400 saying "not found" |
| Handler.GetAfterInsert | cmd/quote-api/handler/quote.go:37 | GET of a just-inserted quote is a 200 carrying it |

## Left out

- UUID parsing is the canonical 36-character form only. google/uuid also
  accepts braced, `urn:uuid:` and 32-digit forms; these are not modelled.
- Version and variant bits of a generated UUID are not modelled. The 16
  random bytes are a parameter, so a generated ID is unique only as far as
  the bytes are.
- Unicode in strings.ToLower is not modelled (e.g. the Kelvin sign
  lowers to k); only ASCII letters are lower-cased.
- The go-playground validator, its translations and its reflection are
  replaced by the StructCheck outcome Check receives. Only the personname
  rule and the tag-name function are modelled.
- JSON encoding is not modelled: `FieldErrors.Error`, `decode`, and the
  encoder write in `respond`. The envelope is a datatype.
- SQL, sqlx and contexts are replaced by the in-memory table.
  - The table is assumed to hold no key constraint: an insert with an
    existing ID would add a second row, and QueryByID returns the first
    match. The round-trip lemmas therefore require the new ID to be unused.
  - FetchNotFoundIff: assumes the database's own failures never wrap the
    quote package's ErrNotFound.
- The zero value Go returns beside an error is not carried: a `Result` is
  either the value or the error.
- QuoteData.Quoted: `%q` is modelled only for text that needs no escaping.
  It is only applied to well-formed IDs, which need none.
- The ShipmentCostCalculator interface that `Quote` holds is not part of
  this model; the service holds the calculator datatype itself.
- HTTP routing (routes.go, the `way` router) is not modelled, nor headers
  or logging. routes.go registers only the health check and the list
  handler; the model covers every handler regardless.
- The handler's Quote interface passes IDs as strings; the model passes
  QuoteData.ID.
- Check: the validator never reports an empty violation list, so
  `Invalid([])`, which would give an empty FieldErrors, does not occur in
  the service.
- The quote-admin CLI, the schema migration, the seed data and the test
  helpers are not modelled.
- float64 rounding is not modelled: all reachable costs are exact.
- QuoteData.AllInfosAfterInsert: assumes the table lists rows in insertion
  order. `SELECT * FROM quotes` has no ORDER BY, so the database promises
  no order; the lemma's "ends with the new quote" holds for the model's
  table only.
- QuoteData.CreateThenRead: "listed last" rests on the same
  insertion-order assumption; without it the promise is only that the
  listing is one longer and contains the created quote.
- QuoteData.Quote.Query: lists the rows in table order, which the model
  takes to be insertion order; the database's own order is unspecified.
