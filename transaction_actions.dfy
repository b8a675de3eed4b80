/**
 * The server actions on stored transfer records: creating a record with its
 * default fields, and listing the records of one bank as the records it sent
 * followed by the records it received.
 */
module TransactionActions {
  import opened Wrappers
  import opened Seqs

  /** A field value of a stored document; `Undefined` is a key present with no value. */
  datatype Value = Str(s: string) | Undefined

  type Document = map<string, Value>

  const DefaultChannel := "online"
  const DefaultCategory := "Transfer"

  /**
   * `{ channel: 'online', category: 'Transfer', ...transaction }`: the two
   * defaults, overridden by every field the caller supplies (even one whose
   * value is undefined).
   */
  function WithDefaults(transaction: Document): (data: Document)
    ensures data.Keys == transaction.Keys + {"channel", "category"}
    ensures forall k :: k in transaction ==> data[k] == transaction[k]
    ensures "channel" !in transaction ==> data["channel"] == Str(DefaultChannel)
    ensures "category" !in transaction ==> data["category"] == Str(DefaultCategory)
  {
    map["channel" := Str(DefaultChannel), "category" := Str(DefaultCategory)] + transaction
  }

  /**
   * `createTransaction`: stores the record with its defaults. A database error
   * is logged and gives `None` (the action returns undefined) rather than an exception.
   */
  function CreateTransaction(transaction: Document, createDocument: Document -> Result<Document, string>): (r: Option<Document>)
    ensures r.Some? <==> createDocument(WithDefaults(transaction)).Success?
    ensures r.Some? ==> r.value == createDocument(WithDefaults(transaction)).value
  {
    match createDocument(WithDefaults(transaction))
    case Failure(_) => None
    case Success(doc) => Some(doc)
  }

  /** A page of query results: the reported total and the documents. */
  datatype DocumentList = DocumentList(total: nat, documents: seq<Document>)

  /** `Query.equal(attribute, value)` */
  datatype Query = Equal(attribute: string, value: string)

  function SenderQuery(bankId: string): Query { Equal("senderBankId", bankId) }
  function ReceiverQuery(bankId: string): Query { Equal("receiverBankId", bankId) }

  /**
   * `getTransactionsByBankId`: the records the bank sent followed by those it
   * received, with the two totals added; `None` when either query fails.
   */
  function GetTransactionsByBankId(bankId: string, listDocuments: Query -> Result<DocumentList, string>): (r: Option<DocumentList>)
    ensures r.Some? <==> listDocuments(SenderQuery(bankId)).Success? && listDocuments(ReceiverQuery(bankId)).Success?
    ensures r.Some? ==>
      var sent := listDocuments(SenderQuery(bankId)).value;
      var received := listDocuments(ReceiverQuery(bankId)).value;
      && r.value.total == sent.total + received.total
      && |r.value.documents| == |sent.documents| + |received.documents|
      && r.value.documents[..|sent.documents|] == sent.documents
      && r.value.documents[|sent.documents|..] == received.documents
  {
    match listDocuments(SenderQuery(bankId))
    case Failure(_) => None
    case Success(sent) =>
      match listDocuments(ReceiverQuery(bankId))
      case Failure(_) => None
      case Success(received) =>
        Some(DocumentList(sent.total + received.total, sent.documents + received.documents))
  }

  // A reference reading of the database: a collection answers an equality
  // query with its first page of matching documents, in order, and the count
  // of all the documents that match. The queries above set no limit, so the
  // page has the database's default size.

  /** The number of documents a query without a limit receives. */
  const DefaultPageSize := 25

  predicate Matches(q: Query, doc: Document) {
    q.attribute in doc && doc[q.attribute] == Str(q.value)
  }

  function Selects(q: Query): Document -> bool {
    doc => Matches(q, doc)
  }

  /** The answer to one query: the first page of the matches, and the count of them all. */
  function FirstPage(collection: seq<Document>, q: Query): (page: DocumentList)
    ensures page.total == CountIf(Selects(q), collection) == |Filter(Selects(q), collection)|
    ensures |page.documents| == if page.total <= DefaultPageSize then page.total else DefaultPageSize
    ensures page.documents == Filter(Selects(q), collection)[..|page.documents|]
  {
    var found := Filter(Selects(q), collection);
    FilterLength(Selects(q), collection);
    DocumentList(|found|, if |found| <= DefaultPageSize then found else found[..DefaultPageSize])
  }

  /** A prefix holds no more of any document than the whole. */
  lemma PrefixCount(s: seq<Document>, k: nat, doc: Document)
    requires k <= |s|
    ensures multiset(s[..k])[doc] <= multiset(s)[doc]
  {
    assert s == s[..k] + s[k..];
    assert multiset(s) == multiset(s[..k]) + multiset(s[k..]);
  }

  /**
   * Over a collection, the merged listing reports every document the bank
   * sent or received, but holds only the first page of each: its total is the
   * number of matches, which may exceed the documents it lists. A document
   * appears no more often than it was sent plus received; when neither side
   * has more than a page of matches, the listing is complete, and a document
   * that is both (a transfer between two accounts of the same bank) is listed
   * twice and counted twice.
   */
  lemma MergeOverCollection(collection: seq<Document>, bankId: string, listDocuments: Query -> Result<DocumentList, string>, doc: Document)
    requires forall q :: listDocuments(q) == Success(FirstPage(collection, q))
    ensures var r := GetTransactionsByBankId(bankId, listDocuments);
      && r.Some?
      && r.value.total == CountIf(Selects(SenderQuery(bankId)), collection) + CountIf(Selects(ReceiverQuery(bankId)), collection)
      && |r.value.documents| <= r.value.total
      && ((CountIf(Selects(SenderQuery(bankId)), collection) > DefaultPageSize
           || CountIf(Selects(ReceiverQuery(bankId)), collection) > DefaultPageSize)
          ==> |r.value.documents| < r.value.total)
      && |r.value.documents| <= 2 * DefaultPageSize
      && multiset(r.value.documents)[doc] <=
           (if Matches(SenderQuery(bankId), doc) then multiset(collection)[doc] else 0)
         + (if Matches(ReceiverQuery(bankId), doc) then multiset(collection)[doc] else 0)
    ensures var r := GetTransactionsByBankId(bankId, listDocuments);
      CountIf(Selects(SenderQuery(bankId)), collection) <= DefaultPageSize
      && CountIf(Selects(ReceiverQuery(bankId)), collection) <= DefaultPageSize ==>
        && r.value.total == |r.value.documents|
        && multiset(r.value.documents)[doc] ==
             (if Matches(SenderQuery(bankId), doc) then multiset(collection)[doc] else 0)
           + (if Matches(ReceiverQuery(bankId), doc) then multiset(collection)[doc] else 0)
  {
    var sentAll := Filter(Selects(SenderQuery(bankId)), collection);
    var receivedAll := Filter(Selects(ReceiverQuery(bankId)), collection);
    var sent := FirstPage(collection, SenderQuery(bankId));
    var received := FirstPage(collection, ReceiverQuery(bankId));
    FilterLength(Selects(SenderQuery(bankId)), collection);
    FilterLength(Selects(ReceiverQuery(bankId)), collection);
    FilterCount(Selects(SenderQuery(bankId)), collection, doc);
    FilterCount(Selects(ReceiverQuery(bankId)), collection, doc);
    PrefixCount(sentAll, |sent.documents|, doc);
    PrefixCount(receivedAll, |received.documents|, doc);
    assert listDocuments(SenderQuery(bankId)) == Success(sent);
    assert listDocuments(ReceiverQuery(bankId)) == Success(received);
    assert multiset(sent.documents + received.documents) == multiset(sent.documents) + multiset(received.documents);
    if sent.total <= DefaultPageSize && received.total <= DefaultPageSize {
      assert sent.documents == sentAll;
      assert received.documents == receivedAll;
    }
  }
}
