/**
 * The browser-side persistence shim: three ordered collections (uploaded
 * exceptions, uploaded documents, stored contracts), each kept under its own
 * key. The JSON blob behind each key is abstracted to the sequence it
 * encodes; an absent key and an empty list read back alike, so both are the
 * empty sequence here. When the code runs on the server there is no window
 * and no storage: every read yields the empty list and every write is
 * dropped.
 */
module UploadStore {
  import opened Wrappers

  /**
   * A calendar date as `new Date(text)` reads it: a day number, or the
   * invalid date (NaN) that every comparison answers with false.
   */
  datatype Date = Day(ordinal: int) | Unparsed

  datatype DocumentKind = ContractDocument | InvoiceDocument

  /** A reference from an exception to the document that backs it. */
  datatype DocumentProof = DocumentProof(
    documentId: string,
    documentName: string,
    documentType: DocumentKind,
    pageNumber: int,
    uploadedAt: string)

  /** An exception record as it is stored, after conversion from the engine's form. */
  datatype UploadedException = UploadedException(
    id: string,
    invoiceNumber: string,
    vendorName: string,
    varianceAmount: real,
    severity: string,
    uploadedAt: string,
    contractProof: Option<DocumentProof>,
    invoiceProof: Option<DocumentProof>,
    expectedValue: real,
    actualValue: real,
    exceptionType: string)

  datatype UploadedDocument = UploadedDocument(
    id: string,
    name: string,
    kind: DocumentKind,
    vendor: string,
    uploadedAt: string,
    extractedText: string)

  /** A pricing rule as stored with a contract; the validation engine never reads these. */
  datatype StoredPricingRule = StoredPricingRule(itemName: string, unitPrice: real, unit: string)

  datatype StoredContract = StoredContract(
    id: string,
    name: string,
    vendor: string,
    contractNumber: string,
    startDate: Date,
    endDate: Date,
    extractedText: string,
    uploadedAt: string,
    locations: seq<string>,
    pricingRules: seq<StoredPricingRule>)

  /** The `filter` that keeps every contract whose id differs from `id`, in order. */
  function WithoutId(contracts: seq<StoredContract>, id: string): (r: seq<StoredContract>)
    ensures forall c :: c in r ==> c in contracts && c.id != id
  {
    if contracts == [] then []
    else (if contracts[0].id != id then [contracts[0]] else []) + WithoutId(contracts[1..], id)
  }

  /** Filtering distributes over concatenation: the survivors keep their relative order. */
  lemma {:induction false} WithoutIdConcat(a: seq<StoredContract>, b: seq<StoredContract>, id: string)
    ensures WithoutId(a + b, id) == WithoutId(a, id) + WithoutId(b, id)
  {
    if a == [] {
      assert a + b == b;
    } else {
      assert (a + b)[0] == a[0] && (a + b)[1..] == a[1..] + b;
      WithoutIdConcat(a[1..], b, id);
    }
  }

  /** Every contract with another id survives as often as it occurred. */
  lemma {:induction false} WithoutIdKeepsOthers(contracts: seq<StoredContract>, id: string, c: StoredContract)
    requires c.id != id
    ensures multiset(WithoutId(contracts, id))[c] == multiset(contracts)[c]
  {
    if contracts != [] {
      assert contracts == [contracts[0]] + contracts[1..];
      WithoutIdKeepsOthers(contracts[1..], id, c);
    }
  }

  /** Deleting an id that no contract carries changes nothing. */
  lemma {:induction false} WithoutIdAbsent(contracts: seq<StoredContract>, id: string)
    requires forall c :: c in contracts ==> c.id != id
    ensures WithoutId(contracts, id) == contracts
  {
    if contracts != [] {
      WithoutIdAbsent(contracts[1..], id);
    }
  }

  /** Deleting twice is deleting once. */
  lemma WithoutIdIdempotent(contracts: seq<StoredContract>, id: string)
    ensures WithoutId(WithoutId(contracts, id), id) == WithoutId(contracts, id)
  {
    WithoutIdAbsent(WithoutId(contracts, id), id);
  }

  /** Deleting the id of a contract just added removes it together with any earlier namesakes. */
  lemma AddThenDelete(contracts: seq<StoredContract>, c: StoredContract)
    ensures WithoutId(contracts + [c], c.id) == WithoutId(contracts, c.id)
  {
    WithoutIdConcat(contracts, [c], c.id);
    assert WithoutId([c], c.id) == [];
  }

  class Store {
    /** `typeof window === "undefined"`: running on the server, without localStorage. */
    const onServer: bool
    var uploadedExceptions: seq<UploadedException>
    var uploadedDocuments: seq<UploadedDocument>
    var storedContracts: seq<StoredContract>

    /** A store whose three keys are all absent. */
    constructor (onServer: bool)
      ensures this.onServer == onServer
      ensures uploadedExceptions == [] && uploadedDocuments == [] && storedContracts == []
    {
      this.onServer := onServer;
      uploadedExceptions, uploadedDocuments, storedContracts := [], [], [];
    }

    method GetUploadedExceptions() returns (r: seq<UploadedException>)
      ensures onServer ==> r == []
      ensures !onServer ==> r == uploadedExceptions
    {
      r := if onServer then [] else uploadedExceptions;
    }

    method GetUploadedDocuments() returns (r: seq<UploadedDocument>)
      ensures onServer ==> r == []
      ensures !onServer ==> r == uploadedDocuments
    {
      r := if onServer then [] else uploadedDocuments;
    }

    method GetStoredContracts() returns (r: seq<StoredContract>)
      ensures onServer ==> r == []
      ensures !onServer ==> r == storedContracts
    {
      r := if onServer then [] else storedContracts;
    }

    method SaveUploadedExceptions(exceptions: seq<UploadedException>)
      modifies this
      ensures uploadedExceptions == if onServer then old(uploadedExceptions) else exceptions
      ensures uploadedDocuments == old(uploadedDocuments) && storedContracts == old(storedContracts)
    {
      if !onServer {
        uploadedExceptions := exceptions;
      }
    }

    method SaveUploadedDocuments(documents: seq<UploadedDocument>)
      modifies this
      ensures uploadedDocuments == if onServer then old(uploadedDocuments) else documents
      ensures uploadedExceptions == old(uploadedExceptions) && storedContracts == old(storedContracts)
    {
      if !onServer {
        uploadedDocuments := documents;
      }
    }

    method SaveStoredContracts(contracts: seq<StoredContract>)
      modifies this
      ensures storedContracts == if onServer then old(storedContracts) else contracts
      ensures uploadedExceptions == old(uploadedExceptions) && uploadedDocuments == old(uploadedDocuments)
    {
      if !onServer {
        storedContracts := contracts;
      }
    }

    /** Read, append the batch, write back. */
    method AddToUploadedExceptions(newExceptions: seq<UploadedException>)
      modifies this
      ensures uploadedExceptions == if onServer then old(uploadedExceptions) else old(uploadedExceptions) + newExceptions
      ensures newExceptions == [] ==> uploadedExceptions == old(uploadedExceptions)
      ensures uploadedDocuments == old(uploadedDocuments) && storedContracts == old(storedContracts)
    {
      var current := GetUploadedExceptions();
      SaveUploadedExceptions(current + newExceptions);
      assert old(uploadedExceptions) + [] == old(uploadedExceptions);
    }

    method AddUploadedDocument(document: UploadedDocument)
      modifies this
      ensures uploadedDocuments == if onServer then old(uploadedDocuments) else old(uploadedDocuments) + [document]
      ensures uploadedExceptions == old(uploadedExceptions) && storedContracts == old(storedContracts)
    {
      var current := GetUploadedDocuments();
      SaveUploadedDocuments(current + [document]);
    }

    method AddStoredContract(contract: StoredContract)
      modifies this
      ensures storedContracts == if onServer then old(storedContracts) else old(storedContracts) + [contract]
      ensures uploadedExceptions == old(uploadedExceptions) && uploadedDocuments == old(uploadedDocuments)
    {
      var current := GetStoredContracts();
      SaveStoredContracts(current + [contract]);
    }

    /** Removing a key: the getter reads the empty list afterwards. */
    method ClearUploadedExceptions()
      modifies this
      ensures uploadedExceptions == if onServer then old(uploadedExceptions) else []
      ensures uploadedDocuments == old(uploadedDocuments) && storedContracts == old(storedContracts)
    {
      if !onServer {
        uploadedExceptions := [];
      }
    }

    method ClearUploadedDocuments()
      modifies this
      ensures uploadedDocuments == if onServer then old(uploadedDocuments) else []
      ensures uploadedExceptions == old(uploadedExceptions) && storedContracts == old(storedContracts)
    {
      if !onServer {
        uploadedDocuments := [];
      }
    }

    method ClearStoredContracts()
      modifies this
      ensures storedContracts == if onServer then old(storedContracts) else []
      ensures uploadedExceptions == old(uploadedExceptions) && uploadedDocuments == old(uploadedDocuments)
    {
      if !onServer {
        storedContracts := [];
      }
    }

    /** Read, drop every contract with this id, write back. */
    method DeleteStoredContract(id: string)
      modifies this
      ensures storedContracts == if onServer then old(storedContracts) else WithoutId(old(storedContracts), id)
      ensures forall c :: c in storedContracts ==> (c.id != id || onServer)
      ensures uploadedExceptions == old(uploadedExceptions) && uploadedDocuments == old(uploadedDocuments)
    {
      var current := GetStoredContracts();
      SaveStoredContracts(WithoutId(current, id));
    }
  }
}
