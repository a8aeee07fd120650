/**
 * The decision logic of the invoice-validation endpoint: a chain of request
 * guards, a lookup of the selected contract, one run of the validation
 * engine over a fixed simulated invoice, and the field-by-field conversion
 * of the engine's exceptions into stored exception records.
 *
 * The wall clock and the random generator become an `Env` parameter: one
 * clock reading `now` (used for every identifier), today's date, the random
 * invoice number and the random document id.
 */
module ValidateInvoiceRoute {
  import opened Wrappers
  import opened Text
  import opened UploadStore
  import opened ValidationEngine

  /** The request body's fields; a missing, null or empty `contractId` is "". */
  datatype Request = Request(
    fileName: string,
    fileType: string,
    vendor: string,
    contractId: string,
    contractName: string,
    uploadedAt: string)

  datatype Env = Env(now: nat, today: Date, invoiceNumber: string, documentId: string)

  datatype Response =
    | Failure(status: nat, error: string)
    | Success(
        exceptionId: string,
        message: string,
        exceptions: seq<UploadedException>,
        documentId: string,
        validationSummary: Summary)

  /** `contracts.find(c => c.id === id)`: the first contract carrying the id. */
  function FindContract(contracts: seq<StoredContract>, id: string): (r: Option<StoredContract>)
    ensures r.None? <==> forall c :: c in contracts ==> c.id != id
    ensures r.Some? ==> exists i :: 0 <= i < |contracts| && contracts[i] == r.value && r.value.id == id
                                    && forall j :: 0 <= j < i ==> contracts[j].id != id
  {
    if |contracts| == 0 then None
    else if contracts[0].id == id then Some(contracts[0])
    else
      var r := FindContract(contracts[1..], id);
      assert forall j :: 1 <= j < |contracts| ==> contracts[j] == contracts[1..][j - 1];
      r
  }

  // ---------------------------------------------------------------------
  // The simulated invoice.

  function SimulatedItems(): seq<InvoiceItem> {
    [ InvoiceItem("SKU-001", "Implants", 500, 260.0, 130000.0, 0.0, "Primary Location"),
      InvoiceItem("SKU-002", "Pharma", 2000, 18.0, 36000.0, 0.0, "Primary Location"),
      InvoiceItem("SKU-003", "Linens", 5000, 0.52, 2600.0, 0.0, "Primary Location") ]
  }

  function SimulatedInvoice(vendor: string, env: Env): (invoice: Invoice)
    ensures invoice.vendor == vendor && invoice.invoiceDate == env.today
    ensures SumTotals(invoice.items) == 168600.0
  {
    var items := SimulatedItems();
    assert items[..3] == items && items[..3][..2] == items[..2];
    assert items[..2][..1] == items[..1] && items[..1][..0] == [];
    assert SumTotals(items[..1]) == 130000.0;
    assert SumTotals(items[..2]) == 166000.0;
    Invoice(items, vendor, env.today, env.invoiceNumber)
  }

  // ---------------------------------------------------------------------
  // Conversion into stored exception records.

  /** The id of the converted exception at position idx. */
  function ConvertedId(now: nat, idx: nat): string {
    "generated-" + NatToString(now) + "-" + NatToString(idx)
  }

  function ConvertException(e: ValidationException, idx: nat, req: Request, contract: StoredContract, env: Env)
    : (u: UploadedException)
    ensures u.id == ConvertedId(env.now, idx)
    ensures u.varianceAmount == e.variance && u.expectedValue == e.contractValue && u.actualValue == e.invoiceValue
    ensures u.exceptionType == TypeName(e.kind) && u.severity == SeverityName(e.severity)
  {
    UploadedException(
      ConvertedId(env.now, idx), env.invoiceNumber, req.vendor, e.variance, SeverityName(e.severity), req.uploadedAt,
      Some(DocumentProof("contract-ref-" + NatToString(idx), contract.name, ContractDocument, 1, contract.uploadedAt)),
      Some(DocumentProof(env.documentId, req.fileName, InvoiceDocument, 1, req.uploadedAt)),
      e.contractValue, e.invoiceValue, TypeName(e.kind))
  }

  /** `exceptions.map((exc, idx) => ...)`: same length, same order. */
  function ConvertAll(exceptions: seq<ValidationException>, req: Request, contract: StoredContract, env: Env)
    : (r: seq<UploadedException>)
    ensures |r| == |exceptions|
    ensures forall i :: 0 <= i < |r| ==> r[i] == ConvertException(exceptions[i], i, req, contract, env)
  {
    seq(|exceptions|, i requires 0 <= i < |exceptions| => ConvertException(exceptions[i], i, req, contract, env))
  }

  /** The message that reports n exceptions. */
  function Message(n: nat): (m: string)
    ensures m == "Invoice validated successfully" <==> n == 0
    ensures n > 0 ==> |m| > 6 && m[..6] == "Found "
  {
    if n > 0 then
      var m := "Found " + NatToString(n) + " validation exceptions";
      assert m[0] == 'F' != "Invoice validated successfully"[0];
      assert m[..6] == "Found ";
      m
    else "Invoice validated successfully"
  }

  /** The success response built from one engine result. */
  function Respond(req: Request, contract: StoredContract, env: Env, result: ValidationResult): (r: Response)
    ensures r.Success? && r.documentId == env.documentId && r.validationSummary == result.summary
    ensures r.exceptions == ConvertAll(result.exceptions, req, contract, env)
    ensures r.message == Message(|result.exceptions|)
    ensures r.exceptions != [] ==> r.exceptionId == r.exceptions[0].id
    ensures r.exceptions == [] ==> r.exceptionId == "validation-" + NatToString(env.now)
  {
    var exceptions := ConvertAll(result.exceptions, req, contract, env);
    Success(
      if |exceptions| > 0 then exceptions[0].id else "validation-" + NatToString(env.now),
      Message(|exceptions|), exceptions, env.documentId, result.summary)
  }

  /** `runInvoiceValidation` on its success path: the engine runs on the simulated invoice. */
  function RunInvoiceValidation(req: Request, contract: StoredContract, env: Env): (r: Response)
    ensures r.Success? && r.documentId == env.documentId
    ensures r.validationSummary.invoiceAmount == 168600.0 && r.validationSummary.totalChecks == 7
    ensures r.validationSummary.failedChecks == |r.exceptions|
    ensures r.validationSummary.recommendedPayment >= 0.0
  {
    Respond(req, contract, env, Validate(SimulatedInvoice(req.vendor, env), contract))
  }

  /** The POST handler, given the contracts the store holds. */
  function Post(req: Request, contracts: seq<StoredContract>, env: Env): (r: Response)
    ensures req.fileType != "invoice" ==> r == Failure(400, "Only invoices can be validated")
    ensures req.fileType == "invoice" && req.contractId == "" ==> r == Failure(400, "Contract ID is required")
    ensures r.Failure? && r.status == 404 ==> r == Failure(404, "Contract not found")
    ensures r.Failure? && r.status == 404 <==>
              req.fileType == "invoice" && req.contractId != ""
              && forall c :: c in contracts ==> c.id != req.contractId
    ensures r.Success? <==>
              req.fileType == "invoice" && req.contractId != ""
              && exists c :: c in contracts && c.id == req.contractId
    ensures r.Success? ==> FindContract(contracts, req.contractId).Some?
                           && r == RunInvoiceValidation(req, FindContract(contracts, req.contractId).value, env)
  {
    if req.fileType != "invoice" then Failure(400, "Only invoices can be validated")
    else if req.contractId == "" then Failure(400, "Contract ID is required")
    else
      match FindContract(contracts, req.contractId)
      case None => Failure(404, "Contract not found")
      case Some(contract) => RunInvoiceValidation(req, contract, env)
  }

  /** The handler as deployed: it reads the contract list from the store first. */
  method HandlePost(store: Store, req: Request, env: Env) returns (r: Response)
    ensures r == Post(req, if store.onServer then [] else store.storedContracts, env)
    ensures store.onServer && req.fileType == "invoice" && req.contractId != ""
            ==> r == Failure(404, "Contract not found")
  {
    var contracts := store.GetStoredContracts();
    r := Post(req, contracts, env);
  }

  // ---------------------------------------------------------------------
  // Properties of the conversion and the response.

  /** Converted exceptions carry pairwise distinct ids. */
  lemma ConvertedIdsDistinct(exceptions: seq<ValidationException>, req: Request, contract: StoredContract, env: Env,
                             i: nat, j: nat)
    requires i < j < |exceptions|
    ensures ConvertAll(exceptions, req, contract, env)[i].id != ConvertAll(exceptions, req, contract, env)[j].id
  {
    var prefix := "generated-" + NatToString(env.now) + "-";
    if ConvertedId(env.now, i) == ConvertedId(env.now, j) {
      TaggedNumberInjective(prefix, i, j);
    }
  }

  /** The type and severity tags lose nothing: each names exactly one engine value. */
  lemma TagsInjective(a: ExceptionType, b: ExceptionType, s: Severity, t: Severity)
    ensures TypeName(a) == TypeName(b) ==> a == b
    ensures SeverityName(s) == SeverityName(t) ==> s == t
  {
    if TypeName(a) == TypeName(b) {
      assert TypeName(a)[..3] == TypeName(b)[..3];
      assert TypeName(a)[|TypeName(a)| - 1] == TypeName(b)[|TypeName(b)| - 1];
    }
    if SeverityName(s) == SeverityName(t) {
      assert SeverityName(s)[0] == SeverityName(t)[0];
    }
  }

  /** `varianceAmount` summed over the stored records. */
  function SumVarianceAmount(exceptions: seq<UploadedException>): real {
    if |exceptions| == 0 then 0.0
    else SumVarianceAmount(exceptions[..|exceptions| - 1]) + exceptions[|exceptions| - 1].varianceAmount
  }

  /** Conversion preserves the total variance the engine reported. */
  lemma {:induction false} ConvertedVarianceTotal(exceptions: seq<ValidationException>, req: Request,
                                                  contract: StoredContract, env: Env)
    ensures SumVarianceAmount(ConvertAll(exceptions, req, contract, env)) == SumVariance(exceptions)
  {
    if |exceptions| > 0 {
      var n := |exceptions| - 1;
      var all := ConvertAll(exceptions, req, contract, env);
      assert all[..n] == ConvertAll(exceptions[..n], req, contract, env);
      ConvertedVarianceTotal(exceptions[..n], req, contract, env);
    }
  }

  /** The count in the message reads back as the number of exceptions. */
  lemma MessageCount(n: nat)
    requires n > 0
    ensures var m := Message(n);
            && |m| == 6 + |NatToString(n)| + 22
            && m[..6] == "Found " && IsDigits(m[6..|m| - 22]) && DigitsValue(m[6..|m| - 22]) == n
  {
    var m := Message(n);
    assert m[6..|m| - 22] == NatToString(n);
    DigitsValueOfNatToString(n);
  }

  /** The success text is sent exactly when the engine found nothing. */
  lemma SuccessMessage(req: Request, contracts: seq<StoredContract>, env: Env)
    requires req.fileType == "invoice" && req.contractId != ""
    requires exists c :: c in contracts && c.id == req.contractId
    ensures var r := Post(req, contracts, env);
            && r.Success?
            && (r.message == "Invoice validated successfully" <==> r.exceptions == [])
            && r.validationSummary.failedChecks == |r.exceptions|
            && r.validationSummary.failedChecks + r.validationSummary.passedChecks == 7
  {
    var r := Post(req, contracts, env);
    if r.exceptions != [] {
      assert r.message[0] == 'F';
    }
  }

  /** Every converted record points back to the selected contract and to the uploaded file. */
  lemma ProofsReferToDocuments(req: Request, contracts: seq<StoredContract>, env: Env)
    requires req.fileType == "invoice" && req.contractId != ""
    requires exists c :: c in contracts && c.id == req.contractId
    ensures var r := Post(req, contracts, env);
            var c := FindContract(contracts, req.contractId);
            && r.Success? && c.Some? && c.value in contracts && c.value.id == req.contractId
            && forall i :: 0 <= i < |r.exceptions| ==>
                 && r.exceptions[i].contractProof.Some?
                 && r.exceptions[i].contractProof.value.documentType == ContractDocument
                 && r.exceptions[i].contractProof.value.documentName == c.value.name
                 && r.exceptions[i].invoiceProof.Some?
                 && r.exceptions[i].invoiceProof.value.documentType == InvoiceDocument
                 && r.exceptions[i].invoiceProof.value.documentId == env.documentId
                 && r.exceptions[i].invoiceProof.value.documentName == req.fileName
  {
  }

  // ---------------------------------------------------------------------
  // What the engine finds in the simulated invoice.

  lemma LowerImplants() ensures Lower("Implants") == "implants" {}
  lemma LowerPharma() ensures Lower("Pharma") == "pharma" {}
  lemma LowerLinens() ensures Lower("Linens") == "linens" {}
  lemma LowerServices() ensures Lower("Services") == "services" {}

  /** A line that only rule k applies to, and that exceeds it, raises exactly rule k's exception. */
  lemma {:induction false} OnlyRuleK(item: InvoiceItem, idx: nat, rules: seq<PricingRule>, k: nat)
    requires PositiveRates(rules) && k < |rules|
    requires PriceFlagged(item, rules[k])
    requires forall j :: 0 <= j < |rules| && j != k ==> !RuleApplies(item, rules[j])
    ensures LinePriceExceptions(item, idx, rules) == [PriceException(item, idx, rules[k])]
  {
    var n := |rules| - 1;
    assert forall j :: 0 <= j < n ==> rules[..n][j] == rules[j];
    if k < n {
      OnlyRuleK(item, idx, rules[..n], k);
    } else {
      NoneApplies(item, idx, rules[..n]);
    }
  }

  lemma {:induction false} NoneApplies(item: InvoiceItem, idx: nat, rules: seq<PricingRule>)
    requires PositiveRates(rules)
    requires forall j :: 0 <= j < |rules| ==> !RuleApplies(item, rules[j])
    ensures LinePriceExceptions(item, idx, rules) == []
  {
    if |rules| > 0 {
      var n := |rules| - 1;
      assert forall j :: 0 <= j < n ==> rules[..n][j] == rules[j];
      NoneApplies(item, idx, rules[..n]);
    }
  }

  /**
   * A line whose lower-cased description is exactly the lower-cased name of
   * rule k, contains no other rule's name, and exceeds rule k's threshold.
   */
  lemma OwnRuleOnly(item: InvoiceItem, idx: nat, rules: seq<PricingRule>, k: nat, own: string)
    requires PositiveRates(rules) && k < |rules|
    requires Lower(item.description) == own && Lower(rules[k].itemName) == own
    requires LineVariance(item, rules[k]) > rules[k].unitPrice * 0.05
    requires forall j :: 0 <= j < |rules| && j != k ==> !Includes(own, Lower(rules[j].itemName))
    ensures LinePriceExceptions(item, idx, rules) == [PriceException(item, idx, rules[k])]
  {
    IncludesTrivial(own);
    OnlyRuleK(item, idx, rules, k);
  }

  /** Lower-cased catalogue names that do not contain one another. */
  lemma ImplantsLacksPharma() ensures !Includes("implants", "pharma") { AbsentCharExcludes("implants", "pharma", 1); }
  lemma ImplantsLacksLinens() ensures !Includes("implants", "linens") { AbsentCharExcludes("implants", "linens", 3); }
  lemma ImplantsLacksServices() ensures !Includes("implants", "services") { AbsentCharExcludes("implants", "services", 2); }
  lemma PharmaLacksImplants() ensures !Includes("pharma", "implants") { AbsentCharExcludes("pharma", "implants", 0); }
  lemma PharmaLacksLinens() ensures !Includes("pharma", "linens") { AbsentCharExcludes("pharma", "linens", 0); }
  lemma PharmaLacksServices() ensures !Includes("pharma", "services") { AbsentCharExcludes("pharma", "services", 0); }
  lemma LinensLacksImplants() ensures !Includes("linens", "implants") { AbsentCharExcludes("linens", "implants", 1); }
  lemma LinensLacksPharma() ensures !Includes("linens", "pharma") { AbsentCharExcludes("linens", "pharma", 0); }
  lemma LinensLacksServices() ensures !Includes("linens", "services") { AbsentCharExcludes("linens", "services", 2); }

  lemma ImplantsExcludes(text: string)
    ensures var rules := ExtractPricingRulesFromContract(text);
            forall j :: 0 <= j < |rules| && j != 0 ==> !Includes("implants", Lower(rules[j].itemName))
  {
    LowerPharma();
    LowerLinens();
    LowerServices();
    ImplantsLacksPharma();
    ImplantsLacksLinens();
    ImplantsLacksServices();
  }

  lemma ImplantsLine(text: string)
    ensures var rules := ExtractPricingRulesFromContract(text);
            LinePriceExceptions(SimulatedItems()[0], 0, rules) == [PriceException(SimulatedItems()[0], 0, rules[0])]
  {
    LowerImplants();
    ImplantsExcludes(text);
    OwnRuleOnly(SimulatedItems()[0], 0, ExtractPricingRulesFromContract(text), 0, "implants");
  }

  lemma PharmaExcludes(text: string)
    ensures var rules := ExtractPricingRulesFromContract(text);
            forall j :: 0 <= j < |rules| && j != 1 ==> !Includes("pharma", Lower(rules[j].itemName))
  {
    LowerImplants();
    LowerLinens();
    LowerServices();
    PharmaLacksImplants();
    PharmaLacksLinens();
    PharmaLacksServices();
  }

  lemma PharmaLine(text: string)
    ensures var rules := ExtractPricingRulesFromContract(text);
            LinePriceExceptions(SimulatedItems()[1], 1, rules) == [PriceException(SimulatedItems()[1], 1, rules[1])]
  {
    LowerPharma();
    PharmaExcludes(text);
    OwnRuleOnly(SimulatedItems()[1], 1, ExtractPricingRulesFromContract(text), 1, "pharma");
  }

  lemma LinensExcludes(text: string)
    ensures var rules := ExtractPricingRulesFromContract(text);
            forall j :: 0 <= j < |rules| && j != 2 ==> !Includes("linens", Lower(rules[j].itemName))
  {
    LowerImplants();
    LowerPharma();
    LowerServices();
    LinensLacksImplants();
    LinensLacksPharma();
    LinensLacksServices();
  }

  lemma LinensLine(text: string)
    ensures var rules := ExtractPricingRulesFromContract(text);
            LinePriceExceptions(SimulatedItems()[2], 2, rules) == [PriceException(SimulatedItems()[2], 2, rules[2])]
  {
    LowerLinens();
    LinensExcludes(text);
    OwnRuleOnly(SimulatedItems()[2], 2, ExtractPricingRulesFromContract(text), 2, "linens");
  }

  /**
   * Against the stub catalogue the price check raises three critical
   * exceptions: 5000 on Implants, 6000 on Pharma and 100 on Linens.
   */
  lemma SimulatedPriceExceptions(text: string)
    ensures var p := Gather(PriceCheck(ExtractPricingRulesFromContract(text)), SimulatedItems());
            && |p| == 3
            && p[0].variance == 5000.0 && p[1].variance == 6000.0 && p[2].variance == 100.0
            && p[0].severity == Critical && p[1].severity == Critical && p[2].severity == Critical
            && p[0].recommendedPayment == 125000.0 && p[1].recommendedPayment == 30000.0
            && p[2].recommendedPayment == 2500.0
  {
    SimulatedPriceList(text);
  }

  /** The price check's list for the simulated invoice, one exception per line against its own rule. */
  lemma SimulatedPriceList(text: string)
    ensures var items := SimulatedItems();
            var rules := ExtractPricingRulesFromContract(text);
            Gather(PriceCheck(rules), items)
            == [PriceException(items[0], 0, rules[0]), PriceException(items[1], 1, rules[1]),
                PriceException(items[2], 2, rules[2])]
  {
    var items := SimulatedItems();
    var rules := ExtractPricingRulesFromContract(text);
    GatherOfThree(PriceCheck(rules), items);
    ImplantsLine(text);
    PharmaLine(text);
    LinensLine(text);
  }

  /** A check over three lines is the three lines' exceptions in order. */
  lemma GatherOfThree(check: LineCheck, items: seq<InvoiceItem>)
    requires check.WellFormed() && |items| == 3
    ensures Gather(check, items)
         == LineExceptions(check, items[0], 0) + LineExceptions(check, items[1], 1) + LineExceptions(check, items[2], 2)
  {
    assert items[..0] == [];
    GatherStep(check, items, 0);
    GatherStep(check, items, 1);
    GatherStep(check, items, 2);
    assert items[..3] == items;
  }

  /** Only Linens, at 5000 units, exceeds the quantity threshold; Pharma at exactly 2000 does not. */
  lemma SimulatedQuantityExceptions()
    ensures var q := Gather(QuantityCheck, SimulatedItems());
            && q == [QuantityException(SimulatedItems()[2], 2)]
            && q[0].severity == Medium && q[0].variance == 0.0
            && !QuantityFlagged(SimulatedItems()[1])
  {
    GatherOfThree(QuantityCheck, SimulatedItems());
  }
}
