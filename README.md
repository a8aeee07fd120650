# spendrule invoice validation, modelled in Dafny

SpendRule checks supplier invoices against stored contracts. This project
models three parts of it:

- **The validation engine** (`ValidationEngine`, `validation_engine.dfy`).
  It runs seven checks over one invoice and one stored contract, in a fixed
  order: price, quantity, date, location, item matching, duplicates and
  volume-discount compliance. It concatenates their exceptions and builds a
  summary with a payment recommendation. Each check that walks the invoice
  lines is a `method` with a loop, as in the source. Each such method is
  proved equal to a specification function (`Gather` for the four per-line
  checks, `Duplicates` for the duplicate check). Lemmas then state what those
  functions raise, for which lines, and with which values.
- **The upload store** (`UploadStore`, `upload_store.dfy`). These are three
  ordered collections kept in browser storage: uploaded exceptions, uploaded
  documents and stored contracts. The model is a class `Store` with three
  `seq` fields and an `onServer` flag. On the server there is no window, so
  every read yields the empty list and every write is dropped.
- **The validation route** (`ValidateInvoiceRoute`,
  `validate_invoice_route.dfy`). This is the POST handler's guard chain
  (wrong file type, missing contract id, unknown contract id). It then runs
  the engine on a fixed simulated invoice and converts each engine exception
  into a stored exception record. Finally it picks the message and the
  `exceptionId`.

`Text` (`text.dfy`) holds the string primitives the source relies on:
ASCII lower-casing, `includes` as a contiguous-substring predicate, and the
decimal rendering of a natural number used in identifiers such as `qty-3`.
`Wrappers` holds `Option`.

Values are modelled as follows:

- Money, prices and ratios are `real`.
- Quantities are `int`.
- Dates arrive already parsed as `Date`: either a day number or `Unparsed`,
  the invalid date that every comparison answers with false.
- An absent `discount` is `0.0` and an absent `location` is `""`. The source
  treats a missing field and these values alike in every test it makes.

The price check compares the whole line's overcharge,
`(unitPrice - rate) * quantity`, with 5% (and 20%, for the severity) of ONE
unit's contract rate. It does not compare with 5% of the line's contract
value. The model keeps this test as written. As a result a line priced 4%
over its rate is flagged at every quantity of 2 or more (0.04 x q exceeds
0.05 exactly when q > 1.25), and the simulated
invoice's three lines are all reported as critical (`SimulatedPriceExceptions`).

## Model

| member | source | states |
|---|---|---|
| ValidationEngine.ValidateInvoiceAgainstContract | lib/validation-engine.ts:34-82 | The exception list is the price, quantity, date, location, item-match, duplicate and compliance exceptions concatenated in that order, and the result equals `Validate` |
| ValidationEngine.Validate | lib/validation-engine.ts:68-81 | `passed` iff no exceptions; 7 checks in total, failed = number of exceptions, failed + passed = 7; payment never negative; invoice amount = sum of line totals; with no exceptions the payment is max(0, invoice amount) |
| ValidationEngine.Summarize | lib/validation-engine.ts:68-80 | Payment is 0 or invoice amount minus total variance, and at least both 0 and that difference; counts as in `Validate` |
| ValidationEngine.PaymentWithinInvoice | lib/validation-engine.ts:68-79 | With non-negative line totals, 0 <= recommended payment <= invoice amount |
| ValidationEngine.VariancesNonNegative | lib/validation-engine.ts:93-107 | With non-negative line totals, every exception of the seven checks has a non-negative variance |
| ValidationEngine.ChecksKeepTheirKinds | lib/validation-engine.ts:38-66 | Filtering the combined list by exception type gives back exactly each check's own list, in order; no check suppresses another |
| ValidationEngine.ExtractPricingRulesFromContract | lib/validation-engine.ts:268-276 | The text is ignored; four rules with positive rates |
| ValidationEngine.ExtractItemsFromContract | lib/validation-engine.ts:278-281 | The text is ignored; five catalogue names |
| ValidationEngine.ValidatePricing | lib/validation-engine.ts:84-115 | The price exceptions equal `Gather` of the price check over the stub rules |
| ValidationEngine.CheckPricesAgainst | lib/validation-engine.ts:88-112 | The nested line/rule loops produce exactly `Gather` of the price check, line by line and rule by rule |
| ValidationEngine.PushLinePrices | lib/validation-engine.ts:89-111 | The inner loop over the rules appends to the running list exactly that line's price exceptions, one per flagged rule, in rule order |
| ValidationEngine.PriceCheckExact | lib/validation-engine.ts:88-110 | An exception is raised iff it is the one for some line and applicable rule whose overcharge exceeds 5% of one unit's rate |
| ValidationEngine.PriceCheckRaises | lib/validation-engine.ts:93-100 | Each such pair's exception is raised; it is critical iff the overcharge exceeds 20% of one unit's rate |
| ValidationEngine.PriceCheckFacts | lib/validation-engine.ts:97-108 | Every price exception has a positive variance, payment = contract value, severity critical or high |
| ValidationEngine.NoPriceVarianceWithinRates | lib/validation-engine.ts:93-95 | Lines with non-negative quantities priced at or below every applicable rate raise no price exception |
| ValidationEngine.ValidateQuantities | lib/validation-engine.ts:117-139 | The loop produces exactly `Gather` of the quantity check |
| ValidationEngine.QuantityCheckExact | lib/validation-engine.ts:120-134 | A line is flagged iff quantity > 2000 (the 5000 test adds nothing); high iff > 10000, else medium; zero variance, payment = line total; the check's variances sum to 0 |
| ValidationEngine.ValidateDates | lib/validation-engine.ts:141-163 | At most one exception, raised iff the invoice date is before the start or after the end (both ends inside, unparsed dates never flagged); all value fields 0 |
| ValidationEngine.ValidateLocations | lib/validation-engine.ts:165-186 | The loop produces exactly `Gather` of the location check |
| ValidationEngine.LocationCoveredIff | lib/validation-engine.ts:169 | A location is covered iff some contract location, lower-cased, contains it lower-cased |
| ValidationEngine.LocationCheckExact | lib/validation-engine.ts:168-183 | A located line is flagged iff no contract location contains its location; with no contract locations every located line is flagged; medium, variance = line total, 100%, payment 0 |
| ValidationEngine.MatchConfidence | lib/validation-engine.ts:283-291 | Confidence is 0.9 or 0.3, and 0.9 iff some catalogue name and the description contain one another, ignoring case |
| ValidationEngine.CalculateItemMatchConfidence | lib/validation-engine.ts:283-291 | The search loop with early return yields `MatchConfidence` |
| ValidationEngine.ValidateItemMatching | lib/validation-engine.ts:188-211 | The loop produces exactly `Gather` of the item-match check over the stub catalogue |
| ValidationEngine.ItemMatchCheckExact | lib/validation-engine.ts:192-208 | A line is flagged iff no catalogue name is related to its description; medium, variance = line total, 100%, payment 0 |
| ValidationEngine.EmptyDescriptionMatches | lib/validation-engine.ts:286 | A line with an empty description is never flagged as unmatched |
| ValidationEngine.DetectDuplicates | lib/validation-engine.ts:213-238 | The loop with its `seen` map produces exactly `Duplicates` |
| ValidationEngine.DuplicatePerLine | lib/validation-engine.ts:217-234 | Line i is reported iff an earlier line has the same (description, unit price) key, so a key's first line never is |
| ValidationEngine.DuplicateCount | lib/validation-engine.ts:213-238 | The number of duplicate exceptions is the number of lines minus the number of distinct keys |
| ValidationEngine.RepeatsOfKey | lib/validation-engine.ts:217-234 | Of the lines carrying a key, the ones whose exception `Duplicates` reports number k - 1 when the key is on k > 0 lines, and 0 when it is on none |
| ValidationEngine.DuplicateFacts | lib/validation-engine.ts:220-231 | Every duplicate exception is high, variance = line total, 100%, payment 0 |
| ValidationEngine.ValidateContractCompliance | lib/validation-engine.ts:240-265 | At most one exception, raised iff total quantity > 1000, no line has a positive discount, and the lower-cased contract text contains "volume discount"; all value fields 0 |
| ValidationEngine.NoDiscountIff | lib/validation-engine.ts:247 | `some` finds no discount iff every line's discount is at most 0 |
| UploadStore.Store.constructor | lib/use-upload-store.ts:61-77 | All three keys absent: every collection reads as empty |
| UploadStore.Store.GetUploadedExceptions | lib/use-upload-store.ts:61-65 | On the server the result is empty, otherwise the stored list |
| UploadStore.Store.GetUploadedDocuments | lib/use-upload-store.ts:67-71 | On the server the result is empty, otherwise the stored list |
| UploadStore.Store.GetStoredContracts | lib/use-upload-store.ts:73-77 | On the server the result is empty, otherwise the stored list |
| UploadStore.Store.SaveUploadedExceptions | lib/use-upload-store.ts:79-83 | The list becomes the argument (a later get returns it); on the server nothing changes; the other keys are untouched |
| UploadStore.Store.SaveUploadedDocuments | lib/use-upload-store.ts:85-89 | As above, for documents |
| UploadStore.Store.SaveStoredContracts | lib/use-upload-store.ts:91-95 | As above, for contracts |
| UploadStore.Store.AddToUploadedExceptions | lib/use-upload-store.ts:97-101 | The list becomes old ++ batch, in order; an empty batch changes nothing; the other keys are untouched |
| UploadStore.Store.AddUploadedDocument | lib/use-upload-store.ts:103-107 | The list becomes old ++ [document]; the other keys are untouched |
| UploadStore.Store.AddStoredContract | lib/use-upload-store.ts:109-113 | The list becomes old ++ [contract]; the other keys are untouched |
| UploadStore.Store.ClearUploadedExceptions | lib/use-upload-store.ts:115-119 | The list becomes empty (off the server); the other keys are untouched |
| UploadStore.Store.ClearUploadedDocuments | lib/use-upload-store.ts:121-125 | As above, for documents |
| UploadStore.Store.ClearStoredContracts | lib/use-upload-store.ts:127-131 | As above, for contracts |
| UploadStore.Store.DeleteStoredContract | lib/use-upload-store.ts:133-137 | The list becomes the filter that drops every contract with the id; none with that id remains; the other keys are untouched |
| UploadStore.WithoutId | lib/use-upload-store.ts:135 | Every survivor is an input contract with another id |
| UploadStore.WithoutIdKeepsOthers | lib/use-upload-store.ts:135 | Every contract with another id survives as many times as it occurred |
| UploadStore.WithoutIdConcat | lib/use-upload-store.ts:135 | Filtering distributes over concatenation, so survivors keep their relative order |
| UploadStore.WithoutIdAbsent | lib/use-upload-store.ts:133-137 | Deleting an id no contract carries changes nothing |
| UploadStore.WithoutIdIdempotent | lib/use-upload-store.ts:133-137 | Deleting twice equals deleting once |
| UploadStore.AddThenDelete | lib/use-upload-store.ts:109-113 | Deleting the id of a contract just added removes it (and any namesakes) and leaves the rest as before |
| ValidateInvoiceRoute.Post | app/api/validate-invoice/route.ts:4-37 | Wrong file type gives 400 before any lookup; an empty contract id gives 400; 404 iff the id passes and no stored contract has it, and the 404 response is exactly "Contract not found"; success iff some stored contract has it, and the response is then the run against the first stored contract with that id |
| ValidateInvoiceRoute.HandlePost | app/api/validate-invoice/route.ts:17-22 | The handler answers `Post` over the store's contracts; on the server every request that passes the first two guards gets 404 |
| ValidateInvoiceRoute.FindContract | app/api/validate-invoice/route.ts:18 | None iff no contract has the id; otherwise the first contract with that id |
| ValidateInvoiceRoute.Respond | app/api/validate-invoice/route.ts:84-121 | Always a success; the exceptions are the conversion of the engine's list; the engine summary is returned unchanged; the message reports the count; `exceptionId` is the first converted id, or `validation-<now>` when there are none |
| ValidateInvoiceRoute.RunInvoiceValidation | app/api/validate-invoice/route.ts:44-121 | The engine run on the simulated invoice always answers with a success; its summary reports an invoice amount of 168600, 7 checks, as many failed checks as converted exceptions, and a non-negative payment |
| ValidateInvoiceRoute.SimulatedInvoice | app/api/validate-invoice/route.ts:49-79 | The invoice carries the request's vendor and today's date; its line totals sum to 168600 |
| ValidateInvoiceRoute.ConvertException | app/api/validate-invoice/route.ts:84-111 | varianceAmount = variance, expectedValue = contractValue, actualValue = invoiceValue, exceptionType and severity are the engine's tags, id is `generated-<now>-<idx>` |
| ValidateInvoiceRoute.ConvertAll | app/api/validate-invoice/route.ts:84-111 | Same length and order as the engine's list; entry i is the conversion of exception i |
| ValidateInvoiceRoute.ConvertedIdsDistinct | app/api/validate-invoice/route.ts:85 | Converted exceptions have pairwise distinct ids |
| ValidateInvoiceRoute.TagsInjective | app/api/validate-invoice/route.ts:88-109 | The type and severity tags identify the engine's type and severity, so conversion loses neither |
| ValidateInvoiceRoute.ConvertedVarianceTotal | app/api/validate-invoice/route.ts:88 | The converted records' variance amounts sum to the engine's total variance |
| ValidateInvoiceRoute.Message | app/api/validate-invoice/route.ts:119-120 | The message is the "validated successfully" text iff there are no exceptions, and it begins with "Found " otherwise |
| ValidateInvoiceRoute.MessageCount | app/api/validate-invoice/route.ts:119-120 | For n > 0 the message is "Found ", the decimal digits of n, then " validation exceptions", and the digits read back as n |
| ValidateInvoiceRoute.SuccessMessage | app/api/validate-invoice/route.ts:26-34 | When both guards pass and a stored contract has the id, the response is a success; its message is the "validated successfully" text iff there are no exceptions; the summary's failed count is the number of converted exceptions |
| ValidateInvoiceRoute.ProofsReferToDocuments | app/api/validate-invoice/route.ts:91-106 | On success every converted record's contract proof names the first stored contract with the id, and its invoice proof names the uploaded file and the document id |
| ValidateInvoiceRoute.SimulatedPriceExceptions | app/api/validate-invoice/route.ts:53-78 | Against the stub rules the price check raises exactly three critical exceptions, with variances 5000 (Implants), 6000 (Pharma) and 100 (Linens) |
| ValidateInvoiceRoute.SimulatedPriceList | app/api/validate-invoice/route.ts:53-78 | The price check's list for the simulated invoice is exactly one exception per line, each against the rule of the same name |
| ValidateInvoiceRoute.SimulatedQuantityExceptions | app/api/validate-invoice/route.ts:53-78 | Only Linens (5000 units) raises a quantity exception, of medium severity; Pharma at 2000 units is not flagged |

## Left out

- Exception titles and descriptions, and the proofs' `extractedText` templates, are display text built with `toFixed` and template literals. They are not modelled, so the route's `description` copy is not modelled either.
- Lower-casing covers the ASCII letters only. Unicode case mapping is not modelled.
- Date parsing (`new Date(text)`) is not modelled. Dates arrive parsed, and an invalid date is `Unparsed`.
- IEEE floating point (rounding, NaN from non-numeric fields, Infinity from a zero rate) is not modelled: money is `real`.
- ValidationEngine.PriceCheckExact: the generic price lemmas and `CheckPricesAgainst` assume positive rates. The only rule catalogue the source has (the extraction stub) meets this.
- The duplicate key is modelled as the pair (description, unit price). The source's text key `${description}-${unitPrice}` can make two different pairs collide (for example a description ending in "-" beside a negative price); that is not modelled.
- JSON encoding in localStorage, and a corrupt blob that makes `JSON.parse` throw, are not modelled. Each key holds the list it encodes, and an absent key reads as empty.
- The POST handler's `catch` (500 "Validation failed") and `runInvoiceValidation`'s `catch` (400 "Validation engine error") cannot be reached with typed, well-formed records, so they are not modelled. Neither are a non-string `fileType` and a `contractId` that is a truthy non-string.
- `Date.now()` and `Math.random()` are inputs: one clock reading (`Env.now`) serves every identifier, and the document id, invoice number and today's date are given.
- `request.json()` and `Response.json` plumbing, and concurrent access to storage, are not modelled.
- The stored contract's `pricingRules` are carried but never read, as in the source.
