/**
 * The invoice-versus-contract validation engine. Seven checks run in a
 * fixed order over one invoice and one stored contract; their exceptions are
 * concatenated and summarised into a payment recommendation.
 *
 * Each per-line check is specified by a function over the invoice lines
 * (`Gather`), and the method that fills the check's list line by line is
 * proved to produce exactly that list. Money and ratios are `real`; dates are
 * already parsed (`UploadStore.Date`).
 */
module ValidationEngine {
  import opened Text
  import opened UploadStore

  datatype ExceptionType =
    | PriceVariance
    | QuantityMismatch
    | DateViolation
    | LocationViolation
    | Duplicate
    | ContractCompliance

  datatype Severity = Critical | High | Medium | Low

  /** The string tag an exception type carries once it leaves the engine. */
  function TypeName(t: ExceptionType): string {
    match t
    case PriceVariance => "price_variance"
    case QuantityMismatch => "quantity_mismatch"
    case DateViolation => "date_violation"
    case LocationViolation => "location_violation"
    case Duplicate => "duplicate"
    case ContractCompliance => "contract_compliance"
  }

  function SeverityName(s: Severity): string {
    match s
    case Critical => "critical"
    case High => "high"
    case Medium => "medium"
    case Low => "low"
  }

  /** One discrepancy found by a check (its display title and description are not modelled). */
  datatype ValidationException = ValidationException(
    id: string,
    kind: ExceptionType,
    severity: Severity,
    contractValue: real,
    invoiceValue: real,
    variance: real,
    variancePercent: real,
    recommendedPayment: real)

  datatype Summary = Summary(
    totalChecks: int,
    failedChecks: int,
    passedChecks: int,
    recommendedPayment: real,
    invoiceAmount: real)

  datatype ValidationResult = ValidationResult(
    passed: bool,
    exceptions: seq<ValidationException>,
    summary: Summary)

  /**
   * An invoice line. An absent discount is 0.0 and an absent location is "",
   * which every check treats exactly as a missing field.
   */
  datatype InvoiceItem = InvoiceItem(
    sku: string,
    description: string,
    quantity: int,
    unitPrice: real,
    totalAmount: real,
    discount: real,
    location: string)

  datatype Invoice = Invoice(
    items: seq<InvoiceItem>,
    vendor: string,
    invoiceDate: Date,
    invoiceNumber: string)

  /** A pricing rule as the extraction step yields it. */
  datatype PricingRule = PricingRule(itemName: string, unitPrice: real)

  predicate PositiveRates(rules: seq<PricingRule>) {
    forall k :: 0 <= k < |rules| ==> rules[k].unitPrice > 0.0
  }

  // ---------------------------------------------------------------------
  // Extraction stubs: the contract text is ignored and fixed catalogues
  // are returned.

  function ExtractPricingRulesFromContract(text: string): (rules: seq<PricingRule>)
    ensures |rules| == 4 && PositiveRates(rules)
  {
    [ PricingRule("Implants", 250.0),
      PricingRule("Pharma", 15.0),
      PricingRule("Linens", 0.5),
      PricingRule("Services", 100.0) ]
  }

  function ExtractItemsFromContract(text: string): (names: seq<string>)
    ensures |names| == 5
  {
    ["Implants", "Pharma", "Linens", "Services", "Medical Supplies"]
  }

  // ---------------------------------------------------------------------
  // Line-level conditions and the exceptions they raise.

  /** The rule's item name occurs in the line's description, ignoring case. */
  predicate RuleApplies(item: InvoiceItem, rule: PricingRule) {
    Includes(Lower(item.description), Lower(rule.itemName))
  }

  /** The price variance of a line: the per-unit overcharge times the quantity. */
  function LineVariance(item: InvoiceItem, rule: PricingRule): real {
    (item.unitPrice - rule.unitPrice) * item.quantity as real
  }

  /** The line variance is compared with 5% of ONE unit's contract rate. */
  predicate PriceFlagged(item: InvoiceItem, rule: PricingRule) {
    RuleApplies(item, rule) && LineVariance(item, rule) > rule.unitPrice * 0.05
  }

  function PriceException(item: InvoiceItem, idx: nat, rule: PricingRule): ValidationException
    requires rule.unitPrice > 0.0
  {
    var variance := LineVariance(item, rule);
    ValidationException(
      "price-var-" + NatToString(idx), PriceVariance,
      if variance > rule.unitPrice * 0.2 then Critical else High,
      rule.unitPrice * item.quantity as real, item.totalAmount, variance,
      (item.unitPrice / rule.unitPrice - 1.0) * 100.0,
      rule.unitPrice * item.quantity as real)
  }

  /** As written the test reads `quantity > 5000 || quantity > 2000`. */
  predicate QuantityFlagged(item: InvoiceItem) {
    item.quantity > 5000 || item.quantity > 2000
  }

  function QuantityException(item: InvoiceItem, idx: nat): ValidationException {
    ValidationException(
      "qty-" + NatToString(idx), QuantityMismatch,
      if item.quantity > 10000 then High else Medium,
      item.totalAmount, item.totalAmount, 0.0, 0.0, item.totalAmount)
  }

  /** `locations.some(loc => loc.toLowerCase().includes(location.toLowerCase()))` */
  predicate LocationCovered(locations: seq<string>, location: string) {
    |locations| > 0 &&
    (Includes(Lower(locations[0]), Lower(location)) || LocationCovered(locations[1..], location))
  }

  predicate LocationFlagged(item: InvoiceItem, locations: seq<string>) {
    item.location != "" && !LocationCovered(locations, item.location)
  }

  function LocationException(item: InvoiceItem, idx: nat): ValidationException {
    ValidationException(
      "loc-" + NatToString(idx), LocationViolation, Medium,
      0.0, item.totalAmount, item.totalAmount, 100.0, 0.0)
  }

  /** A description and a catalogue name match when either contains the other, ignoring case. */
  predicate Related(description: string, name: string) {
    Includes(Lower(description), Lower(name)) || Includes(Lower(name), Lower(description))
  }

  /** The confidence that a description names a catalogue item: 0.9 on a match, else 0.3. */
  function MatchConfidence(description: string, catalogue: seq<string>): (c: real)
    ensures c == 0.9 || c == 0.3
    ensures c == 0.9 <==> exists j :: 0 <= j < |catalogue| && Related(description, catalogue[j])
  {
    if |catalogue| == 0 then 0.3
    else if Related(description, catalogue[0]) then 0.9
    else
      var rest := MatchConfidence(description, catalogue[1..]);
      assert forall j :: 1 <= j < |catalogue| ==> catalogue[j] == catalogue[1..][j - 1];
      rest
  }

  function ItemMatchException(item: InvoiceItem, idx: nat): ValidationException {
    ValidationException(
      "item-match-" + NatToString(idx), ContractCompliance, Medium,
      0.0, item.totalAmount, item.totalAmount, 100.0, 0.0)
  }

  // ---------------------------------------------------------------------
  // The four checks that look at each line on its own.

  datatype LineCheck =
    | PriceCheck(rules: seq<PricingRule>)
    | QuantityCheck
    | LocationCheck(locations: seq<string>)
    | ItemMatchCheck(catalogue: seq<string>)
  {
    predicate WellFormed() {
      PriceCheck? ==> PositiveRates(rules)
    }
  }

  /** The price exceptions of one line against the first |rules| rules, in rule order. */
  function LinePriceExceptions(item: InvoiceItem, idx: nat, rules: seq<PricingRule>): seq<ValidationException>
    requires PositiveRates(rules)
  {
    if |rules| == 0 then []
    else
      var last := rules[|rules| - 1];
      LinePriceExceptions(item, idx, rules[..|rules| - 1])
      + (if PriceFlagged(item, last) then [PriceException(item, idx, last)] else [])
  }

  /** The condition under which a quantity, location or item-match check raises its exception. */
  predicate Flags(check: LineCheck, item: InvoiceItem)
    requires !check.PriceCheck?
  {
    match check
    case QuantityCheck => QuantityFlagged(item)
    case LocationCheck(locations) => LocationFlagged(item, locations)
    case ItemMatchCheck(catalogue) => MatchConfidence(item.description, catalogue) < 0.5
  }

  /** The prefix of the identifiers such a check gives its exceptions. */
  function IdTag(check: LineCheck): string
    requires !check.PriceCheck?
  {
    match check
    case QuantityCheck => "qty-"
    case LocationCheck(_) => "loc-"
    case ItemMatchCheck(_) => "item-match-"
  }

  function Raised(check: LineCheck, item: InvoiceItem, idx: nat): (e: ValidationException)
    requires !check.PriceCheck?
    ensures e.id == IdTag(check) + NatToString(idx)
  {
    match check
    case QuantityCheck => QuantityException(item, idx)
    case LocationCheck(_) => LocationException(item, idx)
    case ItemMatchCheck(_) => ItemMatchException(item, idx)
  }

  /** What one check raises for the line at position idx. */
  function LineExceptions(check: LineCheck, item: InvoiceItem, idx: nat): seq<ValidationException>
    requires check.WellFormed()
  {
    if check.PriceCheck? then LinePriceExceptions(item, idx, check.rules)
    else if Flags(check, item) then [Raised(check, item, idx)]
    else []
  }

  /** A check's exceptions over all lines, line by line in invoice order. */
  function Gather(check: LineCheck, items: seq<InvoiceItem>): seq<ValidationException>
    requires check.WellFormed()
  {
    if |items| == 0 then []
    else Gather(check, items[..|items| - 1]) + LineExceptions(check, items[|items| - 1], |items| - 1)
  }

  lemma GatherStep(check: LineCheck, items: seq<InvoiceItem>, i: nat)
    requires check.WellFormed() && i < |items|
    ensures Gather(check, items[..i + 1]) == Gather(check, items[..i]) + LineExceptions(check, items[i], i)
  {
    assert items[..i + 1][..i] == items[..i];
  }

  lemma LinePriceStep(item: InvoiceItem, idx: nat, rules: seq<PricingRule>, k: nat)
    requires PositiveRates(rules) && k < |rules|
    ensures LinePriceExceptions(item, idx, rules[..k + 1])
         == LinePriceExceptions(item, idx, rules[..k])
            + (if PriceFlagged(item, rules[k]) then [PriceException(item, idx, rules[k])] else [])
  {
    assert rules[..k + 1][..k] == rules[..k];
  }

  // ---------------------------------------------------------------------
  // Duplicate detection: a line whose (description, unit price) pair was
  // already seen earlier on the invoice.

  datatype DuplicateKey = DuplicateKey(description: string, unitPrice: real)

  function KeyOf(item: InvoiceItem): DuplicateKey {
    DuplicateKey(item.description, item.unitPrice)
  }

  /** The keys of all lines. */
  function KeysOf(items: seq<InvoiceItem>): set<DuplicateKey> {
    if |items| == 0 then {} else KeysOf(items[..|items| - 1]) + {KeyOf(items[|items| - 1])}
  }

  function DuplicateException(item: InvoiceItem, idx: nat): ValidationException {
    ValidationException(
      "dup-" + NatToString(idx), Duplicate, High,
      0.0, item.totalAmount, item.totalAmount, 100.0, 0.0)
  }

  function Duplicates(items: seq<InvoiceItem>): seq<ValidationException> {
    if |items| == 0 then []
    else
      var n := |items| - 1;
      Duplicates(items[..n])
      + (if KeyOf(items[n]) in KeysOf(items[..n]) then [DuplicateException(items[n], n)] else [])
  }

  // ---------------------------------------------------------------------
  // The two whole-invoice checks.

  /** `a < b` on dates; false whenever either date is invalid. */
  predicate Before(a: Date, b: Date) {
    a.Day? && b.Day? && a.ordinal < b.ordinal
  }

  function ValidateDates(invoiceDate: Date, contract: StoredContract): (r: seq<ValidationException>)
    ensures |r| <= 1
    ensures |r| == 1 <==> Before(invoiceDate, contract.startDate) || Before(contract.endDate, invoiceDate)
    ensures forall e :: e in r ==> e.kind == DateViolation && e.severity == High && e.variance == 0.0
                                   && e.contractValue == 0.0 && e.invoiceValue == 0.0 && e.recommendedPayment == 0.0
  {
    if Before(invoiceDate, contract.startDate) || Before(contract.endDate, invoiceDate) then
      [ValidationException("date-violation", DateViolation, High, 0.0, 0.0, 0.0, 0.0, 0.0)]
    else []
  }

  /** `items.reduce((sum, item) => sum + item.quantity, 0)` */
  function TotalQuantity(items: seq<InvoiceItem>): int {
    if |items| == 0 then 0 else TotalQuantity(items[..|items| - 1]) + items[|items| - 1].quantity
  }

  /** `items.some(item => item.discount && item.discount > 0)` */
  predicate HasDiscount(items: seq<InvoiceItem>) {
    |items| > 0 && (items[0].discount > 0.0 || HasDiscount(items[1..]))
  }

  function ValidateContractCompliance(items: seq<InvoiceItem>, contract: StoredContract): (r: seq<ValidationException>)
    ensures |r| <= 1
    ensures |r| == 1 <==> TotalQuantity(items) > 1000 && (forall i :: 0 <= i < |items| ==> items[i].discount <= 0.0)
                          && Includes(Lower(contract.extractedText), "volume discount")
    ensures forall e :: e in r ==> e.kind == ContractCompliance && e.severity == Medium && e.variance == 0.0
                                   && e.contractValue == 0.0 && e.invoiceValue == 0.0 && e.recommendedPayment == 0.0
  {
    NoDiscountIff(items);
    if TotalQuantity(items) > 1000
       && !HasDiscount(items) && Includes(Lower(contract.extractedText), "volume discount") then
      [ValidationException("discount-compliance", ContractCompliance, Medium, 0.0, 0.0, 0.0, 0.0, 0.0)]
    else []
  }

  lemma {:induction false} NoDiscountIff(items: seq<InvoiceItem>)
    ensures !HasDiscount(items) <==> forall i :: 0 <= i < |items| ==> items[i].discount <= 0.0
  {
    if |items| > 0 {
      NoDiscountIff(items[1..]);
      assert forall i :: 1 <= i < |items| ==> items[i] == items[1..][i - 1];
    }
  }

  // ---------------------------------------------------------------------
  // Totals and the summary.

  /** `items.reduce((sum, item) => sum + item.totalAmount, 0)` */
  function SumTotals(items: seq<InvoiceItem>): real {
    if |items| == 0 then 0.0 else SumTotals(items[..|items| - 1]) + items[|items| - 1].totalAmount
  }

  /** `exceptions.reduce((sum, e) => sum + e.variance, 0)` */
  function SumVariance(exceptions: seq<ValidationException>): real {
    if |exceptions| == 0 then 0.0
    else SumVariance(exceptions[..|exceptions| - 1]) + exceptions[|exceptions| - 1].variance
  }

  function Max(a: real, b: real): real {
    if a >= b then a else b
  }

  /** The summary built from the lines and the exceptions of all seven checks. */
  function Summarize(items: seq<InvoiceItem>, exceptions: seq<ValidationException>): (s: Summary)
    ensures s.totalChecks == 7 && s.failedChecks == |exceptions|
    ensures s.failedChecks + s.passedChecks == s.totalChecks
    ensures s.recommendedPayment >= 0.0
    ensures s.recommendedPayment >= s.invoiceAmount - SumVariance(exceptions)
    ensures s.recommendedPayment == 0.0 || s.recommendedPayment == s.invoiceAmount - SumVariance(exceptions)
    ensures s.invoiceAmount == SumTotals(items)
  {
    var total := SumTotals(items);
    Summary(7, |exceptions|, 7 - |exceptions|, Max(0.0, total - SumVariance(exceptions)), total)
  }

  /** The exceptions of the seven checks in the order they run, given what extraction yields. */
  function ChecksInOrder(invoice: Invoice, contract: StoredContract, rules: seq<PricingRule>, catalogue: seq<string>)
    : seq<ValidationException>
    requires PositiveRates(rules)
  {
    var items := invoice.items;
    Gather(PriceCheck(rules), items)
    + Gather(QuantityCheck, items)
    + ValidateDates(invoice.invoiceDate, contract)
    + Gather(LocationCheck(contract.locations), items)
    + Gather(ItemMatchCheck(catalogue), items)
    + Duplicates(items)
    + ValidateContractCompliance(items, contract)
  }

  function AllExceptions(invoice: Invoice, contract: StoredContract): seq<ValidationException> {
    ChecksInOrder(invoice, contract,
      ExtractPricingRulesFromContract(contract.extractedText), ExtractItemsFromContract(contract.extractedText))
  }

  function Validate(invoice: Invoice, contract: StoredContract): (r: ValidationResult)
    ensures r.passed <==> r.exceptions == []
    ensures r.summary.totalChecks == 7 && r.summary.failedChecks == |r.exceptions|
    ensures r.summary.failedChecks + r.summary.passedChecks == 7
    ensures r.summary.recommendedPayment >= 0.0
    ensures r.summary.invoiceAmount == SumTotals(invoice.items)
    ensures r.passed ==> r.summary.recommendedPayment == Max(0.0, r.summary.invoiceAmount)
  {
    var exceptions := AllExceptions(invoice, contract);
    ValidationResult(|exceptions| == 0, exceptions, Summarize(invoice.items, exceptions))
  }

  // ---------------------------------------------------------------------
  // The checks as loops: each fills its own list.

  method ValidatePricing(items: seq<InvoiceItem>, contract: StoredContract) returns (exceptions: seq<ValidationException>)
    ensures exceptions == Gather(PriceCheck(ExtractPricingRulesFromContract(contract.extractedText)), items)
  {
    var pricingRules := ExtractPricingRulesFromContract(contract.extractedText);
    exceptions := CheckPricesAgainst(items, pricingRules);
  }

  /** The nested loops of the price check, over whatever rules extraction produced. */
  method CheckPricesAgainst(items: seq<InvoiceItem>, pricingRules: seq<PricingRule>) returns (exceptions: seq<ValidationException>)
    requires PositiveRates(pricingRules)
    ensures exceptions == Gather(PriceCheck(pricingRules), items)
  {
    exceptions := [];
    var idx := 0;
    while idx < |items|
      invariant 0 <= idx <= |items|
      invariant exceptions == Gather(PriceCheck(pricingRules), items[..idx])
    {
      exceptions := PushLinePrices(exceptions, items[idx], idx, pricingRules);
      GatherStep(PriceCheck(pricingRules), items, idx);
      idx := idx + 1;
    }
    assert items[..idx] == items;
  }

  /** The inner loop: one line against every rule, pushing onto the running list. */
  method PushLinePrices(done: seq<ValidationException>, item: InvoiceItem, idx: nat, pricingRules: seq<PricingRule>)
    returns (exceptions: seq<ValidationException>)
    requires PositiveRates(pricingRules)
    ensures exceptions == done + LinePriceExceptions(item, idx, pricingRules)
  {
    exceptions := done;
    var k := 0;
    while k < |pricingRules|
      invariant 0 <= k <= |pricingRules|
      invariant exceptions == done + LinePriceExceptions(item, idx, pricingRules[..k])
    {
      var rule := pricingRules[k];
      LinePriceStep(item, idx, pricingRules, k);
      if Includes(Lower(item.description), Lower(rule.itemName)) {
        var variance := (item.unitPrice - rule.unitPrice) * item.quantity as real;
        if variance > rule.unitPrice * 0.05 {
          exceptions := exceptions + [PriceException(item, idx, rule)];
        }
      }
      k := k + 1;
    }
    assert pricingRules[..k] == pricingRules;
  }

  method ValidateQuantities(items: seq<InvoiceItem>, contract: StoredContract) returns (exceptions: seq<ValidationException>)
    ensures exceptions == Gather(QuantityCheck, items)
  {
    exceptions := [];
    var idx := 0;
    while idx < |items|
      invariant 0 <= idx <= |items|
      invariant exceptions == Gather(QuantityCheck, items[..idx])
    {
      var item := items[idx];
      if item.quantity > 5000 || item.quantity > 2000 {
        exceptions := exceptions + [QuantityException(item, idx)];
      }
      GatherStep(QuantityCheck, items, idx);
      idx := idx + 1;
    }
    assert items[..idx] == items;
  }

  method ValidateLocations(items: seq<InvoiceItem>, contract: StoredContract) returns (exceptions: seq<ValidationException>)
    ensures exceptions == Gather(LocationCheck(contract.locations), items)
  {
    exceptions := [];
    var idx := 0;
    while idx < |items|
      invariant 0 <= idx <= |items|
      invariant exceptions == Gather(LocationCheck(contract.locations), items[..idx])
    {
      var item := items[idx];
      if item.location != "" && !LocationCovered(contract.locations, item.location) {
        exceptions := exceptions + [LocationException(item, idx)];
      }
      GatherStep(LocationCheck(contract.locations), items, idx);
      idx := idx + 1;
    }
    assert items[..idx] == items;
  }

  /** The search loop: the first catalogue name related to the description decides. */
  method CalculateItemMatchConfidence(item: string, contractItems: seq<string>) returns (confidence: real)
    ensures confidence == MatchConfidence(item, contractItems)
  {
    var lower := Lower(item);
    var k := 0;
    while k < |contractItems|
      invariant 0 <= k <= |contractItems|
      invariant forall j :: 0 <= j < k ==> !Related(item, contractItems[j])
    {
      var name := Lower(contractItems[k]);
      if Includes(lower, name) || Includes(name, lower) {
        return 0.9;
      }
      k := k + 1;
    }
    return 0.3;
  }

  method ValidateItemMatching(items: seq<InvoiceItem>, contract: StoredContract) returns (exceptions: seq<ValidationException>)
    ensures exceptions == Gather(ItemMatchCheck(ExtractItemsFromContract(contract.extractedText)), items)
  {
    var contractItems := ExtractItemsFromContract(contract.extractedText);
    exceptions := [];
    var idx := 0;
    while idx < |items|
      invariant 0 <= idx <= |items|
      invariant exceptions == Gather(ItemMatchCheck(contractItems), items[..idx])
    {
      var item := items[idx];
      var confidence := CalculateItemMatchConfidence(item.description, contractItems);
      if confidence < 0.5 {
        exceptions := exceptions + [ItemMatchException(item, idx)];
      }
      GatherStep(ItemMatchCheck(contractItems), items, idx);
      idx := idx + 1;
    }
    assert items[..idx] == items;
  }

  /** `seen` maps each key met so far to the position of its first line. */
  method DetectDuplicates(items: seq<InvoiceItem>) returns (exceptions: seq<ValidationException>)
    ensures exceptions == Duplicates(items)
  {
    exceptions := [];
    var seen: map<DuplicateKey, nat> := map[];
    var idx := 0;
    while idx < |items|
      invariant 0 <= idx <= |items|
      invariant seen.Keys == KeysOf(items[..idx])
      invariant forall key :: key in seen ==> seen[key] < idx && KeyOf(items[seen[key]]) == key
      invariant exceptions == Duplicates(items[..idx])
    {
      var item := items[idx];
      var key := KeyOf(item);
      assert items[..idx + 1][..idx] == items[..idx];
      if key in seen {
        exceptions := exceptions + [DuplicateException(item, idx)];
      } else {
        seen := seen[key := idx];
      }
      idx := idx + 1;
    }
    assert items[..idx] == items;
  }

  /** Runs the seven checks in order and summarises their exceptions. */
  method ValidateInvoiceAgainstContract(invoice: Invoice, contract: StoredContract) returns (r: ValidationResult)
    ensures r.exceptions
         == Gather(PriceCheck(ExtractPricingRulesFromContract(contract.extractedText)), invoice.items)
            + Gather(QuantityCheck, invoice.items)
            + ValidateDates(invoice.invoiceDate, contract)
            + Gather(LocationCheck(contract.locations), invoice.items)
            + Gather(ItemMatchCheck(ExtractItemsFromContract(contract.extractedText)), invoice.items)
            + Duplicates(invoice.items)
            + ValidateContractCompliance(invoice.items, contract)
    ensures r == Validate(invoice, contract)
  {
    var exceptions: seq<ValidationException> := [];
    var priceVariances := ValidatePricing(invoice.items, contract);
    exceptions := exceptions + priceVariances;
    assert exceptions == priceVariances;
    var quantityIssues := ValidateQuantities(invoice.items, contract);
    exceptions := exceptions + quantityIssues;
    var dateIssues := ValidateDates(invoice.invoiceDate, contract);
    exceptions := exceptions + dateIssues;
    var locationIssues := ValidateLocations(invoice.items, contract);
    exceptions := exceptions + locationIssues;
    var itemMatchIssues := ValidateItemMatching(invoice.items, contract);
    exceptions := exceptions + itemMatchIssues;
    var duplicateIssues := DetectDuplicates(invoice.items);
    exceptions := exceptions + duplicateIssues;
    var complianceIssues := ValidateContractCompliance(invoice.items, contract);
    exceptions := exceptions + complianceIssues;

    assert exceptions == AllExceptions(invoice, contract);
    var totalInvoiceAmount := SumTotals(invoice.items);
    var recommendedPayment := totalInvoiceAmount - SumVariance(exceptions);
    r := ValidationResult(
      |exceptions| == 0, exceptions,
      Summary(7, |exceptions|, 7 - |exceptions|, Max(0.0, recommendedPayment), totalInvoiceAmount));
  }

  // ---------------------------------------------------------------------
  // Which lines raise which exceptions.

  /** Line i's own exceptions under the check include e. */
  ghost predicate RaisedAt(check: LineCheck, items: seq<InvoiceItem>, i: int, e: ValidationException)
    requires check.WellFormed()
  {
    0 <= i < |items| && e in LineExceptions(check, items[i], i)
  }

  lemma RaisedAtPrefix(check: LineCheck, items: seq<InvoiceItem>, n: nat, i: int, e: ValidationException)
    requires check.WellFormed() && n <= |items| && i < n
    ensures RaisedAt(check, items[..n], i, e) <==> RaisedAt(check, items, i, e)
  {
    if 0 <= i {
      assert items[..n][i] == items[i];
    }
  }

  lemma {:induction false} GatherMember(check: LineCheck, items: seq<InvoiceItem>, e: ValidationException)
    requires check.WellFormed()
    ensures e in Gather(check, items) <==> exists i :: RaisedAt(check, items, i, e)
  {
    if e in Gather(check, items) {
      var i := GatherSource(check, items, e);
    }
    forall i | RaisedAt(check, items, i, e) ensures e in Gather(check, items) {
      GatherIncludes(check, items, i, e);
    }
  }

  /** An exception of the check's list comes from some line. */
  lemma {:induction false} GatherSource(check: LineCheck, items: seq<InvoiceItem>, e: ValidationException) returns (i: int)
    requires check.WellFormed() && e in Gather(check, items)
    ensures RaisedAt(check, items, i, e)
  {
    var n := |items| - 1;
    assert Gather(check, items) == Gather(check, items[..n]) + LineExceptions(check, items[n], n);
    if e in Gather(check, items[..n]) {
      i := GatherSource(check, items[..n], e);
      RaisedAtPrefix(check, items, n, i, e);
    } else {
      i := n;
    }
  }

  /** Every line's exceptions reach the check's list. */
  lemma {:induction false} GatherIncludes(check: LineCheck, items: seq<InvoiceItem>, i: int, e: ValidationException)
    requires check.WellFormed() && RaisedAt(check, items, i, e)
    ensures e in Gather(check, items)
  {
    var n := |items| - 1;
    var rest := Gather(check, items[..n]);
    var last := LineExceptions(check, items[n], n);
    assert Gather(check, items) == rest + last;
    if i < n {
      RaisedAtPrefix(check, items, n, i, e);
      GatherIncludes(check, items[..n], i, e);
      assert e in rest;
    } else {
      assert e in last;
    }
  }

  /** For a single-exception check, line i's exception is raised exactly when the line is flagged. */
  lemma SingleLineRaised(check: LineCheck, items: seq<InvoiceItem>, i: nat)
    requires check.WellFormed() && !check.PriceCheck? && i < |items|
    ensures Raised(check, items[i], i) in Gather(check, items) <==> Flags(check, items[i])
  {
    var e := Raised(check, items[i], i);
    if e in Gather(check, items) {
      var j := GatherSource(check, items, e);
      assert e == Raised(check, items[j], j);
      TaggedNumberInjective(IdTag(check), i, j);
    } else if Flags(check, items[i]) {
      GatherIncludes(check, items, i, e);
    }
  }

  /** A single-exception check raises nothing but the exceptions of its flagged lines. */
  lemma SingleLineOnly(check: LineCheck, items: seq<InvoiceItem>, e: ValidationException)
    requires check.WellFormed() && !check.PriceCheck?
    ensures e in Gather(check, items) ==> exists i :: 0 <= i < |items| && Flags(check, items[i]) && e == Raised(check, items[i], i)
  {
    GatherMember(check, items, e);
  }

  lemma {:induction false} LinePriceMember(item: InvoiceItem, idx: nat, rules: seq<PricingRule>, e: ValidationException)
    requires PositiveRates(rules)
    ensures e in LinePriceExceptions(item, idx, rules)
        <==> exists k :: 0 <= k < |rules| && PriceFlagged(item, rules[k]) && e == PriceException(item, idx, rules[k])
  {
    if |rules| > 0 {
      var n := |rules| - 1;
      LinePriceMember(item, idx, rules[..n], e);
      assert forall k :: 0 <= k < n ==> rules[..n][k] == rules[k];
    }
  }

  /** The price check raises one exception per (line, applicable rule) pair over the threshold, and nothing else. */
  lemma PriceCheckExact(items: seq<InvoiceItem>, rules: seq<PricingRule>, e: ValidationException)
    requires PositiveRates(rules)
    ensures e in Gather(PriceCheck(rules), items)
        <==> exists i, k :: 0 <= i < |items| && 0 <= k < |rules|
                           && PriceFlagged(items[i], rules[k]) && e == PriceException(items[i], i, rules[k])
  {
    var check := PriceCheck(rules);
    if e in Gather(check, items) {
      var i := GatherSource(check, items, e);
      LinePriceMember(items[i], i, rules, e);
      var k :| 0 <= k < |rules| && PriceFlagged(items[i], rules[k]) && e == PriceException(items[i], i, rules[k]);
    }
    forall i, k | 0 <= i < |items| && 0 <= k < |rules|
                  && PriceFlagged(items[i], rules[k]) && e == PriceException(items[i], i, rules[k])
      ensures e in Gather(check, items)
    {
      LinePriceMember(items[i], i, rules, e);
      GatherIncludes(check, items, i, e);
    }
  }

  /** Every (line, applicable rule) pair over the threshold raises its exception; critical iff over 20% of one unit's rate. */
  lemma PriceCheckRaises(items: seq<InvoiceItem>, rules: seq<PricingRule>, i: nat, k: nat)
    requires PositiveRates(rules) && i < |items| && k < |rules| && PriceFlagged(items[i], rules[k])
    ensures PriceException(items[i], i, rules[k]) in Gather(PriceCheck(rules), items)
    ensures PriceException(items[i], i, rules[k]).severity == Critical
            <==> LineVariance(items[i], rules[k]) > rules[k].unitPrice * 0.2
  {
    var e := PriceException(items[i], i, rules[k]);
    LinePriceMember(items[i], i, rules, e);
    GatherIncludes(PriceCheck(rules), items, i, e);
  }

  /** What a raised price exception says: a positive variance, and the contract-rate amount as payment. */
  lemma PriceCheckFacts(items: seq<InvoiceItem>, rules: seq<PricingRule>)
    requires PositiveRates(rules)
    ensures forall e :: e in Gather(PriceCheck(rules), items) ==>
              e.kind == PriceVariance && e.variance > 0.0 && e.recommendedPayment == e.contractValue
              && (e.severity == Critical || e.severity == High)
  {
    forall e | e in Gather(PriceCheck(rules), items)
      ensures e.kind == PriceVariance && e.variance > 0.0 && e.recommendedPayment == e.contractValue
              && (e.severity == Critical || e.severity == High)
    {
      PriceCheckExact(items, rules, e);
      var i, k :| 0 <= i < |items| && 0 <= k < |rules|
                  && PriceFlagged(items[i], rules[k]) && e == PriceException(items[i], i, rules[k]);
      assert rules[k].unitPrice > 0.0;
      assert e.variance == LineVariance(items[i], rules[k]) > rules[k].unitPrice * 0.05;
    }
  }

  lemma {:induction false} LineWithinRates(item: InvoiceItem, idx: nat, rules: seq<PricingRule>)
    requires PositiveRates(rules) && item.quantity >= 0
    requires forall k :: 0 <= k < |rules| && RuleApplies(item, rules[k]) ==> item.unitPrice <= rules[k].unitPrice
    ensures LinePriceExceptions(item, idx, rules) == []
  {
    if |rules| > 0 {
      var n := |rules| - 1;
      assert !PriceFlagged(item, rules[n]) by {
        if RuleApplies(item, rules[n]) {
          assert LineVariance(item, rules[n]) <= 0.0 by {
            assert item.unitPrice - rules[n].unitPrice <= 0.0;
          }
        }
      }
      LineWithinRates(item, idx, rules[..n]);
    }
  }

  /** Lines priced at or below every rule that applies to them raise no price exception. */
  lemma {:induction false} NoPriceVarianceWithinRates(items: seq<InvoiceItem>, rules: seq<PricingRule>)
    requires PositiveRates(rules)
    requires forall i :: 0 <= i < |items| ==> items[i].quantity >= 0
    requires forall i, k :: 0 <= i < |items| && 0 <= k < |rules| && RuleApplies(items[i], rules[k]) ==>
               items[i].unitPrice <= rules[k].unitPrice
    ensures Gather(PriceCheck(rules), items) == []
  {
    if |items| > 0 {
      var n := |items| - 1;
      LineWithinRates(items[n], n, rules);
      NoPriceVarianceWithinRates(items[..n], rules);
    }
  }

  /** A line raises a quantity exception iff its quantity exceeds 2000; the 5000 bound adds nothing. */
  lemma QuantityCheckExact(items: seq<InvoiceItem>)
    ensures forall i :: 0 <= i < |items| ==>
              (QuantityException(items[i], i) in Gather(QuantityCheck, items) <==> items[i].quantity > 2000)
              && (QuantityException(items[i], i).severity == High <==> items[i].quantity > 10000)
    ensures forall e :: e in Gather(QuantityCheck, items) ==>
              e.kind == QuantityMismatch && e.variance == 0.0 && e.variancePercent == 0.0
              && e.recommendedPayment == e.invoiceValue && (e.severity == High || e.severity == Medium)
    ensures SumVariance(Gather(QuantityCheck, items)) == 0.0
  {
    forall i | 0 <= i < |items| {
      SingleLineRaised(QuantityCheck, items, i);
    }
    forall e | e in Gather(QuantityCheck, items)
      ensures e.kind == QuantityMismatch && e.variance == 0.0
    {
      SingleLineOnly(QuantityCheck, items, e);
    }
    ZeroVarianceSum(Gather(QuantityCheck, items));
  }

  lemma {:induction false} LocationCoveredIff(locations: seq<string>, location: string)
    ensures LocationCovered(locations, location)
        <==> exists j :: 0 <= j < |locations| && Includes(Lower(locations[j]), Lower(location))
  {
    if |locations| > 0 {
      LocationCoveredIff(locations[1..], location);
      assert forall j :: 1 <= j < |locations| ==> locations[j] == locations[1..][j - 1];
    }
  }

  /**
   * A located line raises a location exception iff no contract location,
   * lower-cased, contains its location; with no contract locations every
   * located line is flagged.
   */
  lemma LocationCheckExact(items: seq<InvoiceItem>, locations: seq<string>)
    ensures forall i :: 0 <= i < |items| ==>
              (LocationException(items[i], i) in Gather(LocationCheck(locations), items)
               <==> items[i].location != ""
                    && forall j :: 0 <= j < |locations| ==> !Includes(Lower(locations[j]), Lower(items[i].location)))
    ensures |locations| == 0 ==> forall i :: 0 <= i < |items| ==>
              (LocationException(items[i], i) in Gather(LocationCheck(locations), items) <==> items[i].location != "")
    ensures forall e :: e in Gather(LocationCheck(locations), items) ==>
              e.kind == LocationViolation && e.severity == Medium && e.variance == e.invoiceValue
              && e.variancePercent == 100.0 && e.recommendedPayment == 0.0
  {
    forall i | 0 <= i < |items|
      ensures LocationException(items[i], i) in Gather(LocationCheck(locations), items)
              <==> items[i].location != ""
                   && forall j :: 0 <= j < |locations| ==> !Includes(Lower(locations[j]), Lower(items[i].location))
    {
      SingleLineRaised(LocationCheck(locations), items, i);
      LocationCoveredIff(locations, items[i].location);
    }
    forall e | e in Gather(LocationCheck(locations), items)
      ensures e.kind == LocationViolation
    {
      SingleLineOnly(LocationCheck(locations), items, e);
    }
  }

  /** A line raises an item-match exception iff no catalogue name and its description contain one another. */
  lemma ItemMatchCheckExact(items: seq<InvoiceItem>, catalogue: seq<string>)
    ensures forall i :: 0 <= i < |items| ==>
              (ItemMatchException(items[i], i) in Gather(ItemMatchCheck(catalogue), items)
               <==> forall j :: 0 <= j < |catalogue| ==> !Related(items[i].description, catalogue[j]))
    ensures forall e :: e in Gather(ItemMatchCheck(catalogue), items) ==>
              e.kind == ContractCompliance && e.severity == Medium && e.variance == e.invoiceValue
              && e.variancePercent == 100.0 && e.recommendedPayment == 0.0
  {
    forall i | 0 <= i < |items| {
      ItemMatchLine(items, catalogue, i);
    }
    forall e | e in Gather(ItemMatchCheck(catalogue), items)
      ensures e.kind == ContractCompliance && e.severity == Medium && e.variance == e.invoiceValue
              && e.variancePercent == 100.0 && e.recommendedPayment == 0.0
    {
      SingleLineOnly(ItemMatchCheck(catalogue), items, e);
    }
  }

  lemma ItemMatchLine(items: seq<InvoiceItem>, catalogue: seq<string>, i: nat)
    requires i < |items|
    ensures ItemMatchException(items[i], i) in Gather(ItemMatchCheck(catalogue), items)
            <==> forall j :: 0 <= j < |catalogue| ==> !Related(items[i].description, catalogue[j])
  {
    SingleLineRaised(ItemMatchCheck(catalogue), items, i);
    var c := MatchConfidence(items[i].description, catalogue);
    assert Flags(ItemMatchCheck(catalogue), items[i]) <==> c < 0.5;
  }

  /** An empty description is contained in every catalogue name, so it is never reported as unmatched. */
  lemma EmptyDescriptionMatches(items: seq<InvoiceItem>, text: string, i: nat)
    requires i < |items| && items[i].description == ""
    ensures ItemMatchException(items[i], i) !in Gather(ItemMatchCheck(ExtractItemsFromContract(text)), items)
  {
    var catalogue := ExtractItemsFromContract(text);
    ItemMatchCheckExact(items, catalogue);
    IncludesTrivial(Lower(catalogue[0]));
    assert Lower(items[i].description) == "";
    assert Related(items[i].description, catalogue[0]);
  }

  // ---------------------------------------------------------------------
  // Duplicates.

  lemma {:induction false} KeysOfIff(items: seq<InvoiceItem>, key: DuplicateKey)
    ensures key in KeysOf(items) <==> exists j :: 0 <= j < |items| && KeyOf(items[j]) == key
  {
    if |items| > 0 {
      var n := |items| - 1;
      KeysOfIff(items[..n], key);
      assert forall j :: 0 <= j < n ==> items[..n][j] == items[j];
    }
  }

  /** Line i is a repeat of an earlier key and e is the exception it raises. */
  ghost predicate DuplicateAt(items: seq<InvoiceItem>, i: int, e: ValidationException) {
    0 <= i < |items| && KeyOf(items[i]) in KeysOf(items[..i]) && e == DuplicateException(items[i], i)
  }

  lemma DuplicateAtPrefix(items: seq<InvoiceItem>, n: nat, i: int, e: ValidationException)
    requires n <= |items| && i < n
    ensures DuplicateAt(items[..n], i, e) <==> DuplicateAt(items, i, e)
  {
    if 0 <= i {
      assert items[..n][i] == items[i];
      assert items[..n][..i] == items[..i];
    }
  }

  lemma {:induction false} DuplicateMember(items: seq<InvoiceItem>, e: ValidationException)
    ensures e in Duplicates(items) <==> exists i :: DuplicateAt(items, i, e)
  {
    if |items| > 0 {
      var n := |items| - 1;
      DuplicateMember(items[..n], e);
      if e in Duplicates(items[..n]) {
        var i :| DuplicateAt(items[..n], i, e);
        DuplicateAtPrefix(items, n, i, e);
      } else if e in Duplicates(items) {
        assert DuplicateAt(items, n, e);
      }
      forall i | DuplicateAt(items, i, e) ensures e in Duplicates(items) {
        if i < n {
          DuplicateAtPrefix(items, n, i, e);
        }
      }
    }
  }

  /**
   * Line i is reported as a duplicate iff an earlier line has the same
   * (description, unit price) key; in particular the first line with a key
   * never is.
   */
  lemma DuplicatePerLine(items: seq<InvoiceItem>, i: nat)
    requires i < |items|
    ensures DuplicateException(items[i], i) in Duplicates(items)
        <==> exists j :: 0 <= j < i && KeyOf(items[j]) == KeyOf(items[i])
  {
    var e := DuplicateException(items[i], i);
    DuplicateMember(items, e);
    KeysOfIff(items[..i], KeyOf(items[i]));
    assert forall j :: 0 <= j < i ==> items[..i][j] == items[j];
    if e in Duplicates(items) {
      var m :| DuplicateAt(items, m, e);
      TaggedNumberInjective("dup-", i, m);
    }
    assert DuplicateAt(items, i, e) <==> KeyOf(items[i]) in KeysOf(items[..i]);
  }

  /** Every line beyond the first of each key is reported once: |lines| - |distinct keys| exceptions. */
  lemma {:induction false} DuplicateCount(items: seq<InvoiceItem>)
    ensures |Duplicates(items)| == |items| - |KeysOf(items)|
  {
    if |items| > 0 {
      var n := |items| - 1;
      DuplicateCount(items[..n]);
      var key := KeyOf(items[n]);
      assert KeysOf(items) == KeysOf(items[..n]) + {key};
      if key in KeysOf(items[..n]) {
        assert Duplicates(items) == Duplicates(items[..n]) + [DuplicateException(items[n], n)];
        assert KeysOf(items) == KeysOf(items[..n]);
      } else {
        assert |KeysOf(items[..n]) + {key}| == |KeysOf(items[..n])| + 1;
      }
    }
  }

  /** How many lines carry the key. */
  function Occurrences(items: seq<InvoiceItem>, key: DuplicateKey): nat {
    if |items| == 0 then 0
    else Occurrences(items[..|items| - 1], key) + (if KeyOf(items[|items| - 1]) == key then 1 else 0)
  }

  /** The positions of the lines carrying the key that `Duplicates` reports. */
  ghost function ReportedLines(items: seq<InvoiceItem>, key: DuplicateKey): set<int> {
    set i | 0 <= i < |items| && KeyOf(items[i]) == key && DuplicateException(items[i], i) in Duplicates(items)
  }

  /** Appending a line adds its position iff it carries the key and the key was already seen. */
  lemma ReportedLinesStep(items: seq<InvoiceItem>, key: DuplicateKey)
    requires |items| > 0
    ensures var n := |items| - 1;
            ReportedLines(items, key)
            == ReportedLines(items[..n], key) + (if KeyOf(items[n]) == key && key in KeysOf(items[..n]) then {n} else {})
  {
    var n := |items| - 1;
    assert forall j :: 0 <= j < n ==> items[..n][j] == items[j];
    forall i | 0 <= i < n
      ensures DuplicateException(items[i], i) in Duplicates(items)
          <==> DuplicateException(items[..n][i], i) in Duplicates(items[..n])
    {
      DuplicatePerLine(items, i);
      DuplicatePerLine(items[..n], i);
    }
    DuplicatePerLine(items, n);
    KeysOfIff(items[..n], KeyOf(items[n]));
  }

  lemma {:induction false} OccursIffKey(items: seq<InvoiceItem>, key: DuplicateKey)
    ensures key in KeysOf(items) <==> Occurrences(items, key) > 0
  {
    if |items| > 0 {
      OccursIffKey(items[..|items| - 1], key);
    }
  }

  /** A key carried by k > 0 lines is reported by the duplicate check on k - 1 of them: every line but its first. */
  lemma {:induction false} RepeatsOfKey(items: seq<InvoiceItem>, key: DuplicateKey)
    ensures |ReportedLines(items, key)| == if Occurrences(items, key) == 0 then 0 else Occurrences(items, key) - 1
  {
    if |items| == 0 {
      assert ReportedLines(items, key) == {};
    } else {
      var n := |items| - 1;
      RepeatsOfKey(items[..n], key);
      OccursIffKey(items[..n], key);
      ReportedLinesStep(items, key);
      assert n !in ReportedLines(items[..n], key);
    }
  }

  lemma {:induction false} DuplicateFacts(items: seq<InvoiceItem>)
    ensures forall e :: e in Duplicates(items) ==>
              e.kind == Duplicate && e.severity == High && e.variance == e.invoiceValue
              && e.variancePercent == 100.0 && e.recommendedPayment == 0.0
  {
    if |items| > 0 {
      DuplicateFacts(items[..|items| - 1]);
    }
  }

  // ---------------------------------------------------------------------
  // Kinds: no check suppresses or relabels another's exceptions.

  function OfKind(exceptions: seq<ValidationException>, kind: ExceptionType): seq<ValidationException> {
    if |exceptions| == 0 then []
    else
      var last := exceptions[|exceptions| - 1];
      OfKind(exceptions[..|exceptions| - 1], kind) + (if last.kind == kind then [last] else [])
  }

  lemma {:induction false} OfKindConcat(a: seq<ValidationException>, b: seq<ValidationException>, kind: ExceptionType)
    ensures OfKind(a + b, kind) == OfKind(a, kind) + OfKind(b, kind)
    decreases |b|
  {
    if |b| == 0 {
      assert a + b == a;
    } else {
      var n := |b| - 1;
      assert (a + b)[..|a + b| - 1] == a + b[..n];
      OfKindConcat(a, b[..n], kind);
    }
  }

  lemma {:induction false} OfKindUniform(exceptions: seq<ValidationException>, k: ExceptionType)
    requires forall e :: e in exceptions ==> e.kind == k
    ensures forall kind :: OfKind(exceptions, kind) == if k == kind then exceptions else []
  {
    if |exceptions| > 0 {
      var n := |exceptions| - 1;
      assert exceptions[..n] + [exceptions[n]] == exceptions;
      OfKindUniform(exceptions[..n], k);
    }
  }

  predicate AllOfKind(exceptions: seq<ValidationException>, kind: ExceptionType) {
    forall e :: e in exceptions ==> e.kind == kind
  }

  lemma OfKindSplit(p: seq<ValidationException>, q: seq<ValidationException>, d: seq<ValidationException>,
                    l: seq<ValidationException>, m: seq<ValidationException>, u: seq<ValidationException>,
                    c: seq<ValidationException>, kind: ExceptionType)
    ensures OfKind(p + q + d + l + m + u + c, kind)
         == OfKind(p, kind) + OfKind(q, kind) + OfKind(d, kind) + OfKind(l, kind)
            + OfKind(m, kind) + OfKind(u, kind) + OfKind(c, kind)
  {
    OfKindConcat(p, q, kind);
    OfKindConcat(p + q, d, kind);
    OfKindConcat(p + q + d, l, kind);
    OfKindConcat(p + q + d + l, m, kind);
    OfKindConcat(p + q + d + l + m, u, kind);
    OfKindConcat(p + q + d + l + m + u, c, kind);
  }

  lemma {:induction false} GatherKind(check: LineCheck, items: seq<InvoiceItem>)
    requires check.WellFormed()
    ensures AllOfKind(Gather(check, items),
                      match check
                      case PriceCheck(_) => PriceVariance
                      case QuantityCheck => QuantityMismatch
                      case LocationCheck(_) => LocationViolation
                      case ItemMatchCheck(_) => ContractCompliance)
  {
    if check.PriceCheck? {
      PriceCheckFacts(items, check.rules);
    } else {
      forall e | e in Gather(check, items)
        ensures e.kind == match check
                          case QuantityCheck => QuantityMismatch
                          case LocationCheck(_) => LocationViolation
                          case ItemMatchCheck(_) => ContractCompliance
      {
        SingleLineOnly(check, items, e);
      }
    }
  }

  /** Filtering seven uniformly-typed parts keeps exactly the parts of the wanted type. */
  lemma OfKindPick(p: seq<ValidationException>, q: seq<ValidationException>, d: seq<ValidationException>,
                   l: seq<ValidationException>, m: seq<ValidationException>, u: seq<ValidationException>,
                   c: seq<ValidationException>, kind: ExceptionType)
    requires AllOfKind(p, PriceVariance) && AllOfKind(q, QuantityMismatch) && AllOfKind(d, DateViolation)
    requires AllOfKind(l, LocationViolation) && AllOfKind(m, ContractCompliance)
    requires AllOfKind(u, Duplicate) && AllOfKind(c, ContractCompliance)
    ensures OfKind(p + q + d + l + m + u + c, kind)
         == (if kind == PriceVariance then p else []) + (if kind == QuantityMismatch then q else [])
            + (if kind == DateViolation then d else []) + (if kind == LocationViolation then l else [])
            + (if kind == ContractCompliance then m else []) + (if kind == Duplicate then u else [])
            + (if kind == ContractCompliance then c else [])
  {
    OfKindUniform(p, PriceVariance);
    OfKindUniform(q, QuantityMismatch);
    OfKindUniform(d, DateViolation);
    OfKindUniform(l, LocationViolation);
    OfKindUniform(m, ContractCompliance);
    OfKindUniform(u, Duplicate);
    OfKindUniform(c, ContractCompliance);
    OfKindSplit(p, q, d, l, m, u, c, kind);
  }

  /** Seven uniformly-typed parts, concatenated and then filtered by type, fall apart again. */
  lemma OfKindParts(p: seq<ValidationException>, q: seq<ValidationException>, d: seq<ValidationException>,
                    l: seq<ValidationException>, m: seq<ValidationException>, u: seq<ValidationException>,
                    c: seq<ValidationException>)
    requires AllOfKind(p, PriceVariance) && AllOfKind(q, QuantityMismatch) && AllOfKind(d, DateViolation)
    requires AllOfKind(l, LocationViolation) && AllOfKind(m, ContractCompliance)
    requires AllOfKind(u, Duplicate) && AllOfKind(c, ContractCompliance)
    ensures var all := p + q + d + l + m + u + c;
            && OfKind(all, PriceVariance) == p
            && OfKind(all, QuantityMismatch) == q
            && OfKind(all, DateViolation) == d
            && OfKind(all, LocationViolation) == l
            && OfKind(all, Duplicate) == u
            && OfKind(all, ContractCompliance) == m + c
  {
    OfKindPick(p, q, d, l, m, u, c, PriceVariance);
    assert p + [] + [] + [] + [] + [] + [] == p;
    OfKindPick(p, q, d, l, m, u, c, QuantityMismatch);
    assert [] + q + [] + [] + [] + [] + [] == q;
    OfKindPick(p, q, d, l, m, u, c, DateViolation);
    assert [] + [] + d + [] + [] + [] + [] == d;
    OfKindPick(p, q, d, l, m, u, c, LocationViolation);
    assert [] + [] + [] + l + [] + [] + [] == l;
    OfKindPick(p, q, d, l, m, u, c, Duplicate);
    assert [] + [] + [] + [] + [] + u + [] == u;
    OfKindPick(p, q, d, l, m, u, c, ContractCompliance);
    assert [] + [] + [] + [] + m + [] + c == m + c;
  }

  /**
   * Filtering the result by type gives back each check's own output:
   * every check's exceptions reach the result, in check order.
   */
  lemma ChecksKeepTheirKinds(invoice: Invoice, contract: StoredContract, rules: seq<PricingRule>, catalogue: seq<string>)
    requires PositiveRates(rules)
    ensures var all := ChecksInOrder(invoice, contract, rules, catalogue);
            var items := invoice.items;
            && OfKind(all, PriceVariance) == Gather(PriceCheck(rules), items)
            && OfKind(all, QuantityMismatch) == Gather(QuantityCheck, items)
            && OfKind(all, DateViolation) == ValidateDates(invoice.invoiceDate, contract)
            && OfKind(all, LocationViolation) == Gather(LocationCheck(contract.locations), items)
            && OfKind(all, Duplicate) == Duplicates(items)
            && OfKind(all, ContractCompliance)
               == Gather(ItemMatchCheck(catalogue), items) + ValidateContractCompliance(items, contract)
  {
    var items := invoice.items;
    GatherKind(PriceCheck(rules), items);
    GatherKind(QuantityCheck, items);
    GatherKind(LocationCheck(contract.locations), items);
    GatherKind(ItemMatchCheck(catalogue), items);
    DuplicateFacts(items);
    OfKindParts(Gather(PriceCheck(rules), items), Gather(QuantityCheck, items),
                ValidateDates(invoice.invoiceDate, contract), Gather(LocationCheck(contract.locations), items),
                Gather(ItemMatchCheck(catalogue), items), Duplicates(items),
                ValidateContractCompliance(items, contract));
  }

  // ---------------------------------------------------------------------
  // The payment recommendation.

  lemma {:induction false} SumVarianceConcat(a: seq<ValidationException>, b: seq<ValidationException>)
    ensures SumVariance(a + b) == SumVariance(a) + SumVariance(b)
    decreases |b|
  {
    if |b| == 0 {
      assert a + b == a;
    } else {
      var n := |b| - 1;
      assert (a + b)[..|a + b| - 1] == a + b[..n];
      SumVarianceConcat(a, b[..n]);
    }
  }

  lemma {:induction false} ZeroVarianceSum(exceptions: seq<ValidationException>)
    requires forall e :: e in exceptions ==> e.variance == 0.0
    ensures SumVariance(exceptions) == 0.0
  {
    if |exceptions| > 0 {
      ZeroVarianceSum(exceptions[..|exceptions| - 1]);
    }
  }

  lemma {:induction false} SumVarianceNonNegative(exceptions: seq<ValidationException>)
    requires forall e :: e in exceptions ==> e.variance >= 0.0
    ensures SumVariance(exceptions) >= 0.0
  {
    if |exceptions| > 0 {
      SumVarianceNonNegative(exceptions[..|exceptions| - 1]);
    }
  }

  lemma {:induction false} SumTotalsNonNegative(items: seq<InvoiceItem>)
    requires forall i :: 0 <= i < |items| ==> items[i].totalAmount >= 0.0
    ensures SumTotals(items) >= 0.0
  {
    if |items| > 0 {
      SumTotalsNonNegative(items[..|items| - 1]);
    }
  }

  /** With non-negative line totals every exception's variance is non-negative. */
  lemma VariancesNonNegative(invoice: Invoice, contract: StoredContract, rules: seq<PricingRule>, catalogue: seq<string>)
    requires PositiveRates(rules)
    requires forall i :: 0 <= i < |invoice.items| ==> invoice.items[i].totalAmount >= 0.0
    ensures forall e :: e in ChecksInOrder(invoice, contract, rules, catalogue) ==> e.variance >= 0.0
  {
    var items := invoice.items;
    PriceCheckFacts(items, rules);
    QuantityCheckExact(items);
    forall e | e in Gather(LocationCheck(contract.locations), items) ensures e.variance >= 0.0 {
      SingleLineOnly(LocationCheck(contract.locations), items, e);
    }
    forall e | e in Gather(ItemMatchCheck(catalogue), items) ensures e.variance >= 0.0 {
      SingleLineOnly(ItemMatchCheck(catalogue), items, e);
    }
    forall e | e in Duplicates(items) ensures e.variance >= 0.0 {
      DuplicateMember(items, e);
    }
  }

  /** With non-negative line totals the recommended payment never exceeds the invoice amount. */
  lemma PaymentWithinInvoice(invoice: Invoice, contract: StoredContract)
    requires forall i :: 0 <= i < |invoice.items| ==> invoice.items[i].totalAmount >= 0.0
    ensures 0.0 <= Validate(invoice, contract).summary.recommendedPayment <= Validate(invoice, contract).summary.invoiceAmount
  {
    VariancesNonNegative(invoice, contract,
      ExtractPricingRulesFromContract(contract.extractedText), ExtractItemsFromContract(contract.extractedText));
    SumVarianceNonNegative(AllExceptions(invoice, contract));
    SumTotalsNonNegative(invoice.items);
  }
}
