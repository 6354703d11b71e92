/** The decision logic of the store adapter (vault.go) once every HTTP
    exchange is reduced to its outcome: which key a request carries, which
    query each operation sends, and how the answer is classified. */
module Vault {
  import opened Domain

  /** The two API keys: apiKey may write, apiROKey may only read. */
  datatype Credential = ReadWrite | ReadOnly

  /** One field comparison `field EQ value` of a query template. The value is
      spliced into the template verbatim. */
  datatype FieldQuery = FieldQuery(field: string, value: string)

  /** A value that reads as itself once spliced between the quotes of a
      JSON template: no quote, no backslash, no control character. Any other
      value is read by the collection as JSON text (`\u0041` as `A`) or makes
      the query body malformed. */
  predicate JsonPlain(s: string) {
    forall i :: 0 <= i < |s| ==> s[i] != '"' && s[i] != '\\' && s[i] as int >= 0x20
  }

  /** A paged search: the accountNumberRequest and accountTypeRequest
      templates. */
  datatype SearchQuery = SearchQuery(page: int, perPage: int, filter: FieldQuery)

  /** What a request carries as its body. */
  datatype Body =
    | NoBody
    | SchemaBody                      // the createCollection template
    | DocumentBody(account: Account)  // one encoded record
    | CountBody(count: FieldQuery)    // the countRequest template
    | SearchBody(search: SearchQuery)

  datatype Request = Request(verb: string, endpoint: string, credential: Credential, body: Body)

  const CollectionEndpoint: string := ""
  const DocumentEndpoint: string := "/document"
  const CountEndpoint: string := "/documents/count"
  const SearchEndpoint: string := "/documents/search"

  const NumberField: string := "number"
  const TypeField: string := "type"

  /** Page sizes of the two search templates. */
  const NumberPerPage: int := 1
  const TypePerPage: int := 100

  const StatusOK: int := 200
  const StatusNotFound: int := 404

  /** A revision of a stored document as the search answer lists it; its
      revision and transaction ids are not read by the gateway. */
  datatype Revision = Revision(document: Account)

  /** The decoded body of an answer. Any body that does not decode into the
      shape the caller expects is `Blank` as far as that caller is concerned. */
  datatype Payload = Blank | CountPayload(count: int) | SearchPayload(revisions: seq<Revision>)

  /** The outcome of one exchange: the client failed, or a status and body. */
  datatype Exchange = TransportError(reason: string) | Response(status: int, payload: Payload)

  /** The errors the adapter methods return. */
  datatype Error = Transport(reason: string) | CollectionNotFound | BadStatus(status: int) | DecodeError

  // ---------------------------------------------------------------- requests

  /** Only PUT requests carry the write key. */
  function CredentialFor(verb: string): (c: Credential)
    ensures c == ReadWrite <==> verb == MethodPut
  {
    if verb == MethodPut then ReadWrite else ReadOnly
  }

  /** vaultRequest: the method and endpoint as given, the key chosen by the
      method. */
  function MakeRequest(verb: string, endpoint: string, body: Body): (r: Request)
    ensures r.verb == verb && r.endpoint == endpoint && r.body == body
    ensures r.credential == ReadWrite <==> verb == MethodPut
  {
    Request(verb, endpoint, CredentialFor(verb), body)
  }

  /** collectionExists probes the collection with a read-only GET. */
  function CollectionExistsRequest(): (r: Request)
    ensures r.verb == MethodGet && r.endpoint == CollectionEndpoint && r.body == NoBody
    ensures r.credential == ReadOnly
  {
    MakeRequest(MethodGet, CollectionEndpoint, NoBody)
  }

  /** collectionCreate sends the schema with a PUT, so with the write key. */
  function CollectionCreateRequest(): (r: Request)
    ensures r.verb == MethodPut && r.endpoint == CollectionEndpoint && r.body == SchemaBody
    ensures r.credential == ReadWrite
  {
    MakeRequest(MethodPut, CollectionEndpoint, SchemaBody)
  }

  /** accountExists counts the documents whose number equals `number`. */
  function AccountExistsRequest(number: string): (r: Request)
    ensures r.verb == MethodPost && r.endpoint == CountEndpoint
    ensures r.body == CountBody(FieldQuery(NumberField, number))
    ensures r.credential == ReadOnly
  {
    MakeRequest(MethodPost, CountEndpoint, CountBody(FieldQuery(NumberField, number)))
  }

  /** accountAdd stores the encoded record with a PUT, so with the write key. */
  function AccountAddRequest(account: Account): (r: Request)
    ensures r.verb == MethodPut && r.endpoint == DocumentEndpoint
    ensures r.body == DocumentBody(account)
    ensures r.credential == ReadWrite
  {
    MakeRequest(MethodPut, DocumentEndpoint, DocumentBody(account))
  }

  /** The search template accountGet fills in: a type query of up to 100
      records exactly when the request string is one of the two account
      types, otherwise a number query of one record. */
  function AccountGetQuery(request: string): (q: SearchQuery)
    ensures q.page == 1 && q.filter.value == request
    ensures request == TypeSending || request == TypeReceiving ==>
              q.filter.field == TypeField && q.perPage == TypePerPage
    ensures request != TypeSending && request != TypeReceiving ==>
              q.filter.field == NumberField && q.perPage == NumberPerPage
  {
    if request == TypeSending || request == TypeReceiving then
      SearchQuery(1, TypePerPage, FieldQuery(TypeField, request))
    else
      SearchQuery(1, NumberPerPage, FieldQuery(NumberField, request))
  }

  /** accountGet posts its search with the read-only key. */
  function AccountGetRequest(request: string): (r: Request)
    ensures r.verb == MethodPost && r.endpoint == SearchEndpoint
    ensures r.body == SearchBody(AccountGetQuery(request))
    ensures r.credential == ReadOnly
  {
    MakeRequest(MethodPost, SearchEndpoint, SearchBody(AccountGetQuery(request)))
  }

  /** Least privilege: of the five requests the adapter builds, exactly the
      two that write (creating the collection, adding a record) carry the
      write key. */
  lemma WriteKeyOnlyForWrites(number: string, account: Account, request: string)
    ensures CollectionCreateRequest().credential == ReadWrite
    ensures AccountAddRequest(account).credential == ReadWrite
    ensures CollectionExistsRequest().credential == ReadOnly
    ensures AccountExistsRequest(number).credential == ReadOnly
    ensures AccountGetRequest(request).credential == ReadOnly
  {
  }

  // ---------------------------------------------------------- classification

  /** collectionExists: 200 means present, 404 is the distinguished
      not-found error, any other status is "absent" without an error, and a
      transport error is passed through. */
  function CollectionExistsResult(ex: Exchange): (r: (bool, Option<Error>))
    ensures ex.TransportError? ==> r == (false, Some(Transport(ex.reason)))
    ensures ex.Response? && ex.status == StatusOK ==> r == (true, None)
    ensures ex.Response? && ex.status == StatusNotFound ==> r == (false, Some(CollectionNotFound))
    ensures ex.Response? && ex.status != StatusOK && ex.status != StatusNotFound ==> r == (false, None)
    ensures r.0 ==> r.1 == None
  {
    match ex
    case TransportError(reason) => (false, Some(Transport(reason)))
    case Response(status, _) =>
      if status == StatusOK then (true, None)
      else if status == StatusNotFound then (false, Some(CollectionNotFound))
      else (false, None)
  }

  /** collectionCreate and accountAdd: success exactly on a 200 answer. */
  function WriteResult(ex: Exchange): (err: Option<Error>)
    ensures err == None <==> ex.Response? && ex.status == StatusOK
    ensures ex.TransportError? ==> err == Some(Transport(ex.reason))
    ensures ex.Response? && ex.status != StatusOK ==> err == Some(BadStatus(ex.status))
  {
    match ex
    case TransportError(reason) => Some(Transport(reason))
    case Response(status, _) => if status != StatusOK then Some(BadStatus(status)) else None
  }

  /** accountExists: an error unless a 200 answer carries a count; then the
      number exists exactly when the count is positive. */
  function AccountExistsResult(ex: Exchange): (r: (bool, Option<Error>))
    ensures r.1 == None <==> ex.Response? && ex.status == StatusOK && ex.payload.CountPayload?
    ensures r.1 == None ==> (r.0 <==> ex.payload.count > 0)
    ensures r.1 != None ==> !r.0
    ensures ex.TransportError? ==> r.1 == Some(Transport(ex.reason))
    ensures ex.Response? && ex.status != StatusOK ==> r.1 == Some(BadStatus(ex.status))
  {
    match ex
    case TransportError(reason) => (false, Some(Transport(reason)))
    case Response(status, payload) =>
      if status != StatusOK then (false, Some(BadStatus(status)))
      else if !payload.CountPayload? then (false, Some(DecodeError))
      else (payload.count > 0, None)
  }

  /** The documents embedded in a revision list, in revision order. */
  function Documents(revisions: seq<Revision>): (docs: seq<Account>)
    ensures |docs| == |revisions|
    ensures forall i :: 0 <= i < |revisions| ==> docs[i] == revisions[i].document
  {
    if |revisions| == 0 then []
    else Documents(revisions[..|revisions| - 1]) + [revisions[|revisions| - 1].document]
  }

  /** accountGet after the request: an error and no accounts unless a 200
      answer carries a search result; then one account per revision, in
      order. */
  function SearchOutcome(ex: Exchange): (r: (seq<Account>, Option<Error>))
    ensures r.1 == None <==> ex.Response? && ex.status == StatusOK && ex.payload.SearchPayload?
    ensures r.1 != None ==> r.0 == []
    ensures r.1 == None ==> |r.0| == |ex.payload.revisions|
    ensures r.1 == None ==> forall i :: 0 <= i < |r.0| ==> r.0[i] == ex.payload.revisions[i].document
    ensures ex.TransportError? ==> r.1 == Some(Transport(ex.reason))
    ensures ex.Response? && ex.status != StatusOK ==> r.1 == Some(BadStatus(ex.status))
  {
    match ex
    case TransportError(reason) => ([], Some(Transport(reason)))
    case Response(status, payload) =>
      if status != StatusOK then ([], Some(BadStatus(status)))
      else if !payload.SearchPayload? then ([], Some(DecodeError))
      else if |payload.revisions| == 0 then ([], None)
      else (Documents(payload.revisions), None)
  }

  /** The classification and projection loop of accountGet. */
  method SearchResult(ex: Exchange) returns (accounts: seq<Account>, err: Option<Error>)
    ensures (accounts, err) == SearchOutcome(ex)
  {
    accounts := [];
    if ex.TransportError? {
      return [], Some(Transport(ex.reason));
    }
    if ex.status != StatusOK {
      return [], Some(BadStatus(ex.status));
    }
    if !ex.payload.SearchPayload? {
      return [], Some(DecodeError);
    }
    var revisions := ex.payload.revisions;
    if |revisions| == 0 {
      return [], None;
    }
    for i := 0 to |revisions|
      invariant accounts == Documents(revisions[..i])
    {
      assert revisions[..i + 1][..i] == revisions[..i];
      accounts := accounts + [revisions[i].document];
    }
    assert revisions[..|revisions|] == revisions;
    err := None;
  }
}
