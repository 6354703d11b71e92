/** The environment of the gateway: the remote document collection and the
    network in between. None of this is gateway code; it states what the
    gateway may assume of the store so that the handlers' effects can be
    stated. The collection keeps its records in insertion order, enforces
    the unique index on "number" that the gateway's schema declares, and
    answers searches with the first `perPage` matches. */
module Remote {
  import opened Domain
  import opened Vault

  /** Any status except 200. */
  type FailureStatus = s: int | s != StatusOK witness 500

  /** What the network does to one exchange: deliver it; fail on the client
      side before the request reaches the collection (`Down`); deliver it but
      lose the answer, so the collection acts on the request while the client
      sees a transport error such as its timeout (`Lost`); or come back with
      a failure status without reaching the collection (a proxy, an expired
      key, an overloaded store). */
  datatype Network =
    | Healthy
    | Down(reason: string)
    | Lost(reason: string)
    | Refused(status: FailureStatus)

  const StatusBadRequest: int := 400
  const StatusForbidden: int := 403
  const StatusConflict: int := 409

  /** The string fields a field comparison can name. */
  function FieldValue(account: Account, field: string): Option<string>
  {
    if field == NumberField then Some(account.number)
    else if field == TypeField then Some(account.accountType)
    else if field == "name" then Some(account.name)
    else if field == "iban" then Some(account.iban)
    else if field == "address" then Some(account.address)
    else None
  }

  predicate Matches(account: Account, q: FieldQuery)
  {
    FieldValue(account, q.field) == Some(q.value)
  }

  /** The records matching a comparison, in insertion order. */
  function Select(docs: seq<Account>, q: FieldQuery): (r: seq<Account>)
    ensures |r| <= |docs|
    ensures forall a :: a in r ==> a in docs && Matches(a, q)
    ensures forall a :: a in docs && Matches(a, q) ==> a in r
  {
    if |docs| == 0 then []
    else
      var rest := Select(docs[..|docs| - 1], q);
      var last := docs[|docs| - 1];
      assert forall a :: a in docs ==> a in docs[..|docs| - 1] || a == last;
      if Matches(last, q) then rest + [last] else rest
  }

  /** The first page of a search result. */
  function FirstPage(matches: seq<Account>, perPage: int): (r: seq<Account>)
    ensures 0 <= perPage ==> |r| == if perPage < |matches| then perPage else |matches|
    ensures r <= matches
  {
    if 0 <= perPage < |matches| then matches[..perPage] else matches
  }

  function Revisions(docs: seq<Account>): (r: seq<Revision>)
    ensures Documents(r) == docs
  {
    seq(|docs|, i requires 0 <= i < |docs| => Revision(docs[i]))
  }

  predicate HasNumber(docs: seq<Account>, number: string)
  {
    exists i :: 0 <= i < |docs| && docs[i].number == number
  }

  /** The unique index on "number". */
  predicate UniqueNumbers(docs: seq<Account>)
  {
    forall i, j :: 0 <= i < j < |docs| ==> docs[i].number != docs[j].number
  }

  /** The collection as the gateway sees it: whether it exists, and its
      records. */
  datatype State = State(present: bool, docs: seq<Account>)

  /** How the collection answers a request that reaches it. A count or
      search compares the field with the query value as given; the query
      templates splice that value between quotes unescaped, so this is the
      collection's behaviour exactly for `JsonPlain` values. */
  function Handle(st: State, req: Request): (r: (Exchange, State))
    ensures r.0.Response?
    ensures UniqueNumbers(st.docs) ==> UniqueNumbers(r.1.docs)
    ensures r.1.docs == st.docs ||
            (req.body.DocumentBody? && r.0.status == StatusOK &&
             !HasNumber(st.docs, req.body.account.number) &&
             r.1.docs == st.docs + [req.body.account])
    ensures req.verb == MethodPut && req.endpoint == DocumentEndpoint && req.body.DocumentBody?
            && r.0.status == StatusOK
            ==> r.1.docs == st.docs + [req.body.account]
    ensures r.0.status == StatusOK ==> r.1.present
    ensures st.present ==> r.1.present
    ensures req.verb != MethodPut ==> r.1 == st
  {
    if req.verb == MethodPut && req.credential != ReadWrite then
      (Response(StatusForbidden, Blank), st)
    else if req.verb == MethodGet && req.endpoint == CollectionEndpoint then
      (Response(if st.present then StatusOK else StatusNotFound, Blank), st)
    else if req.verb == MethodPut && req.endpoint == CollectionEndpoint && req.body == SchemaBody then
      if st.present then (Response(StatusConflict, Blank), st)
      else (Response(StatusOK, Blank), State(true, st.docs))
    else if !st.present then
      (Response(StatusNotFound, Blank), st)
    else if req.verb == MethodPut && req.endpoint == DocumentEndpoint && req.body.DocumentBody? then
      var a := req.body.account;
      if HasNumber(st.docs, a.number) then (Response(StatusConflict, Blank), st)
      else (Response(StatusOK, Blank), State(true, st.docs + [a]))
    else if req.verb == MethodPost && req.endpoint == CountEndpoint && req.body.CountBody? then
      (Response(StatusOK, CountPayload(|Select(st.docs, req.body.count)|)), st)
    else if req.verb == MethodPost && req.endpoint == SearchEndpoint && req.body.SearchBody? then
      var q := req.body.search;
      (Response(StatusOK, SearchPayload(Revisions(FirstPage(Select(st.docs, q.filter), q.perPage)))), st)
    else
      (Response(StatusBadRequest, Blank), st)
  }

  /** One exchange over the network: only a healthy or a lost exchange
      reaches the collection, so only then can its state change, and only a
      healthy one can bring back a 200. */
  function Deliver(st: State, req: Request, net: Network): (r: (Exchange, State))
    ensures net.Healthy? ==> r == Handle(st, req)
    ensures net.Down? ==> r.0.TransportError? && r.1 == st
    ensures net.Lost? ==> r.0.TransportError? && r.1 == Handle(st, req).1
    ensures net.Refused? ==> r.0.Response? && r.0.status != StatusOK && r.1 == st
  {
    match net
    case Healthy => Handle(st, req)
    case Down(reason) => (TransportError(reason), st)
    case Lost(reason) => (TransportError(reason), Handle(st, req).1)
    case Refused(status) => (Response(status, Blank), st)
  }

  /** Every exchange keeps the unique index and can only append the record
      it carries, under a fresh number; it appends only when the insert was
      answered 200 or its answer was lost. A 200 answer means the collection
      exists afterwards. */
  lemma DeliverKeepsStore(st: State, req: Request, net: Network)
    ensures UniqueNumbers(st.docs) ==> UniqueNumbers(Deliver(st, req, net).1.docs)
    ensures var (ex, after) := Deliver(st, req, net);
            after.docs == st.docs ||
            (req.body.DocumentBody? && (ex == Response(StatusOK, Blank) || net.Lost?) &&
             !HasNumber(st.docs, req.body.account.number) &&
             after.docs == st.docs + [req.body.account])
    ensures var (ex, after) := Deliver(st, req, net);
            ex.Response? && ex.status == StatusOK ==> after.present
  {
  }

  /** The count on "number" is positive exactly when a record has that number. */
  lemma CountMeansHasNumber(docs: seq<Account>, number: string)
    ensures |Select(docs, FieldQuery(NumberField, number))| > 0 <==> HasNumber(docs, number)
  {
    var r := Select(docs, FieldQuery(NumberField, number));
    if HasNumber(docs, number) {
      var i :| 0 <= i < |docs| && docs[i].number == number;
      assert docs[i] in r;
    }
  }

  /** Selecting after an append selects the appended record last, if it
      matches. */
  lemma SelectAppend(docs: seq<Account>, a: Account, q: FieldQuery)
    ensures Select(docs + [a], q) == Select(docs, q) + (if Matches(a, q) then [a] else [])
  {
    assert (docs + [a])[..|docs|] == docs;
  }

  /** No record matches a number no record has. */
  lemma SelectAbsentNumber(docs: seq<Account>, number: string)
    requires !HasNumber(docs, number)
    ensures Select(docs, FieldQuery(NumberField, number)) == []
  {
    CountMeansHasNumber(docs, number);
  }

  /** The remote collection. */
  class Store {
    var present: bool
    var docs: seq<Account>
    /** Every request that the gateway sent, in order. */
    ghost var log: seq<Request>

    function Snapshot(): State
      reads this
    {
      State(present, docs)
    }

    ghost predicate Valid()
      reads this
    {
      UniqueNumbers(docs)
    }

    constructor (present: bool, docs: seq<Account>)
      requires UniqueNumbers(docs)
      ensures Valid()
      ensures this.present == present && this.docs == docs && log == []
    {
      this.present := present;
      this.docs := docs;
      log := [];
    }

    /** Receive one request over `net` and answer it. */
    method Serve(req: Request, net: Network) returns (ex: Exchange)
      requires Valid()
      modifies this
      ensures Valid()
      ensures (ex, Snapshot()) == Deliver(old(Snapshot()), req, net)
      ensures log == old(log) + [req]
    {
      var after;
      ex, after := Deliver(Snapshot(), req, net).0, Deliver(Snapshot(), req, net).1;
      DeliverKeepsStore(Snapshot(), req, net);
      present, docs := after.present, after.docs;
      log := log + [req];
    }
  }
}
