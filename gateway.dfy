/** The gateway itself (main.go and the I/O half of vault.go): the account
    manager, its adapter methods that talk to the collection, the two API
    handlers and the startup sequence. Every network exchange goes through
    the `Store` the manager holds; what the network does to each exchange is
    a parameter. */
module Gateway {
  import opened Domain
  import opened Iban
  import opened Validators
  import opened Vault
  import opened Remote

  /** The body of a retrieval request. */
  datatype ApiQuery = ApiQuery(number: string, accountType: string)

  const StatusMethodNotAllowed: int := 405
  const StatusInternalServerError: int := 500

  /** The precondition of the IBAN check on a decoded record. */
  predicate IbanCheckable(payload: Option<Account>)
  {
    payload.Some? ==> IbanDefined(payload.value.iban)
  }

  /** The add handler decodes and checks a body only for a POST. */
  predicate AddCheckable(verb: string, payload: Option<Account>)
  {
    verb == MethodPost ==> IbanCheckable(payload)
  }

  /** The validator chain of the add handler, with no amount limits. Since
      the number, name, address and amount validators accept everything, a
      record is valid exactly when its IBAN passes and its type is known. */
  function AccountValid(a: Account): (ok: bool)
    requires IbanDefined(a.iban)
    ensures ok <==> IbanValid(a.iban) && (a.accountType == TypeSending || a.accountType == TypeReceiving)
  {
    IbanValid(a.iban) && ValidateNumber(a.number) && ValidateName(a.name) &&
    ValidateAddress(a.address) && ValidateAmount(a.amount, []) &&
    ValidateAccountType(a.accountType)
  }

  // ---------------------------------------------------------- specifications

  /** What one call of the add handler does: its status, the collection
      afterwards and the requests it sent. */
  datatype AddRun = AddRun(status: int, after: State, sent: seq<Request>)

  /** The add handler as a composition of the adapter's classification
      functions and the store's answers. */
  function AddSpec(st: State, verb: string, payload: Option<Account>,
                   existsNet: Network, addNet: Network): AddRun
    requires AddCheckable(verb, payload)
  {
    if verb != MethodPost then AddRun(StatusMethodNotAllowed, st, [])
    else if payload.None? then AddRun(StatusBadRequest, st, [])
    else if !AccountValid(payload.value) then AddRun(StatusBadRequest, st, [])
    else
      var a := payload.value;
      var probe := AccountExistsRequest(a.number);
      var (ex1, st1) := Deliver(st, probe, existsNet);
      var (found, err1) := AccountExistsResult(ex1);
      if err1.Some? then AddRun(StatusInternalServerError, st1, [probe])
      else if found then AddRun(StatusConflict, st1, [probe])
      else
        var put := AccountAddRequest(a);
        var (ex2, st2) := Deliver(st1, put, addNet);
        if WriteResult(ex2).Some? then AddRun(StatusInternalServerError, st2, [probe, put])
        else AddRun(StatusOK, st2, [probe, put])
  }

  /** What one call of the retrieval handler does: its status, the accounts
      it answers with and the requests it sent. */
  datatype GetRun = GetRun(status: int, accounts: seq<Account>, sent: seq<Request>)

  /** The string handed to accountGet: a non-empty number wins over the
      type; with both empty there is none. */
  function SearchKey(q: ApiQuery): Option<string>
  {
    if q.number != "" then Some(q.number)
    else if q.accountType != "" then Some(q.accountType)
    else None
  }

  function GetSpec(st: State, verb: string, query: Option<ApiQuery>, net: Network): GetRun
  {
    if verb != MethodPost then GetRun(StatusMethodNotAllowed, [], [])
    else if query.None? then GetRun(StatusBadRequest, [], [])
    else if SearchKey(query.value).None? then GetRun(StatusBadRequest, [], [])
    else
      var req := AccountGetRequest(SearchKey(query.value).value);
      var (accounts, err) := SearchOutcome(Deliver(st, req, net).0);
      if err.Some? then GetRun(StatusInternalServerError, [], [req])
      else if |accounts| == 0 then GetRun(StatusNotFound, [], [req])
      else GetRun(StatusOK, accounts, [req])
  }

  /** What the startup sequence does: whether a manager comes out, the
      collection afterwards and the requests sent. */
  datatype StartRun = StartRun(ready: bool, after: State, sent: seq<Request>)

  function StartupSpec(st: State, probeNet: Network, createNet: Network): StartRun
  {
    var probe := CollectionExistsRequest();
    var (ex1, st1) := Deliver(st, probe, probeNet);
    var (ok, err) := CollectionExistsResult(ex1);
    if err.Some? then
      if err.value == CollectionNotFound then
        var create := CollectionCreateRequest();
        var (ex2, st2) := Deliver(st1, create, createNet);
        StartRun(WriteResult(ex2).None?, st2, [probe, create])
      else StartRun(false, st1, [probe])
    else StartRun(ok, st1, [probe])
  }

  // ------------------------------------------------------------ the manager

  class AccountManager {
    const addr: string
    /** The client timeout; the network parameters stand for its effect. */
    const timeout: int
    const vault: Store

    constructor (addr: string, timeout: int, vault: Store)
      ensures this.addr == addr && this.timeout == timeout && this.vault == vault
    {
      this.addr := addr;
      this.timeout := timeout;
      this.vault := vault;
    }

    /** Sends one request, with the key its method calls for. */
    method VaultRequest(verb: string, endpoint: string, body: Body, net: Network) returns (ex: Exchange)
      requires vault.Valid()
      modifies vault
      ensures vault.Valid()
      ensures (ex, vault.Snapshot()) == Deliver(old(vault.Snapshot()), MakeRequest(verb, endpoint, body), net)
      ensures vault.log == old(vault.log) + [MakeRequest(verb, endpoint, body)]
    {
      var req := MakeRequest(verb, endpoint, body);
      ex := vault.Serve(req, net);
    }

    method CollectionExists(net: Network) returns (ok: bool, err: Option<Error>)
      requires vault.Valid()
      modifies vault
      ensures vault.Valid()
      ensures var (ex, st) := Deliver(old(vault.Snapshot()), CollectionExistsRequest(), net);
              (ok, err) == CollectionExistsResult(ex) && vault.Snapshot() == st
      ensures vault.log == old(vault.log) + [CollectionExistsRequest()]
    {
      var ex := VaultRequest(MethodGet, CollectionEndpoint, NoBody, net);
      if ex.TransportError? {
        return false, Some(Transport(ex.reason));
      }
      if ex.status == StatusOK {
        return true, None;
      } else if ex.status == StatusNotFound {
        return false, Some(CollectionNotFound);
      }
      return false, None;
    }

    method CollectionCreate(net: Network) returns (err: Option<Error>)
      requires vault.Valid()
      modifies vault
      ensures vault.Valid()
      ensures var (ex, st) := Deliver(old(vault.Snapshot()), CollectionCreateRequest(), net);
              err == WriteResult(ex) && vault.Snapshot() == st
      ensures vault.log == old(vault.log) + [CollectionCreateRequest()]
    {
      var ex := VaultRequest(MethodPut, CollectionEndpoint, SchemaBody, net);
      if ex.TransportError? {
        return Some(Transport(ex.reason));
      }
      if ex.status != StatusOK {
        return Some(BadStatus(ex.status));
      }
      return None;
    }

    method AccountExists(number: string, net: Network) returns (found: bool, err: Option<Error>)
      requires vault.Valid()
      modifies vault
      ensures vault.Valid()
      ensures var (ex, st) := Deliver(old(vault.Snapshot()), AccountExistsRequest(number), net);
              (found, err) == AccountExistsResult(ex) && vault.Snapshot() == st
      ensures vault.log == old(vault.log) + [AccountExistsRequest(number)]
    {
      var ex := VaultRequest(MethodPost, CountEndpoint, CountBody(FieldQuery(NumberField, number)), net);
      if ex.TransportError? {
        return false, Some(Transport(ex.reason));
      }
      if ex.status != StatusOK {
        return false, Some(BadStatus(ex.status));
      }
      if !ex.payload.CountPayload? {
        return false, Some(DecodeError);
      }
      return ex.payload.count > 0, None;
    }

    method AccountAdd(account: Account, net: Network) returns (err: Option<Error>)
      requires vault.Valid()
      modifies vault
      ensures vault.Valid()
      ensures var (ex, st) := Deliver(old(vault.Snapshot()), AccountAddRequest(account), net);
              err == WriteResult(ex) && vault.Snapshot() == st
      ensures vault.log == old(vault.log) + [AccountAddRequest(account)]
    {
      var ex := VaultRequest(MethodPut, DocumentEndpoint, DocumentBody(account), net);
      if ex.TransportError? {
        return Some(Transport(ex.reason));
      }
      if ex.status != StatusOK {
        return Some(BadStatus(ex.status));
      }
      return None;
    }

    method AccountGet(request: string, net: Network) returns (accounts: seq<Account>, err: Option<Error>)
      requires vault.Valid()
      modifies vault
      ensures vault.Valid()
      ensures var (ex, st) := Deliver(old(vault.Snapshot()), AccountGetRequest(request), net);
              (accounts, err) == SearchOutcome(ex) && vault.Snapshot() == st
      ensures vault.log == old(vault.log) + [AccountGetRequest(request)]
    {
      var ex := VaultRequest(MethodPost, SearchEndpoint, SearchBody(AccountGetQuery(request)), net);
      accounts, err := SearchResult(ex);
    }

    /** The add handler: method check, decoding, validation, existence
        check, insertion. */
    method HandlerAdd(verb: string, payload: Option<Account>, existsNet: Network, addNet: Network)
      returns (status: int)
      requires AddCheckable(verb, payload)
      requires vault.Valid()
      modifies vault
      ensures vault.Valid()
      ensures var run := AddSpec(old(vault.Snapshot()), verb, payload, existsNet, addNet);
              status == run.status && vault.Snapshot() == run.after &&
              vault.log == old(vault.log) + run.sent
    {
      if verb != MethodPost {
        return StatusMethodNotAllowed;
      }
      assert IbanCheckable(payload);
      if payload.None? {
        return StatusBadRequest;
      }
      var account := payload.value;
      var ibanOk := ValidateIban(account.iban);
      if !ibanOk || !ValidateNumber(account.number) || !ValidateName(account.name) ||
         !ValidateAddress(account.address) || !ValidateAmount(account.amount, []) ||
         !ValidateAccountType(account.accountType)
      {
        return StatusBadRequest;
      }
      var found, err := AccountExists(account.number, existsNet);
      if err.Some? {
        return StatusInternalServerError;
      }
      if found {
        return StatusConflict;
      }
      err := AccountAdd(account, addNet);
      if err.Some? {
        return StatusInternalServerError;
      }
      return StatusOK;
    }

    /** The retrieval handler; on 200 `accounts` is what the answer body
        encodes, otherwise it is empty. */
    method HandlerGet(verb: string, query: Option<ApiQuery>, net: Network)
      returns (status: int, accounts: seq<Account>)
      requires vault.Valid()
      modifies vault
      ensures vault.Valid()
      ensures var run := GetSpec(old(vault.Snapshot()), verb, query, net);
              status == run.status && accounts == run.accounts &&
              vault.log == old(vault.log) + run.sent
      ensures vault.Snapshot() == old(vault.Snapshot())
    {
      accounts := [];
      if verb != MethodPost {
        return StatusMethodNotAllowed, [];
      }
      if query.None? {
        return StatusBadRequest, [];
      }
      var q := query.value;
      var err;
      if q.number != "" {
        accounts, err := AccountGet(q.number, net);
      } else if q.accountType != "" {
        accounts, err := AccountGet(q.accountType, net);
      } else {
        return StatusBadRequest, [];
      }
      if err.Some? {
        return StatusInternalServerError, [];
      }
      if |accounts| == 0 {
        return StatusNotFound, [];
      }
      status := StatusOK;
    }

    /** The startup sequence: probe the collection, create it when the probe
        says it is not found, and give up on any other failure. */
    static method NewAccountManager(addr: string, timeout: int, vault: Store,
                                    probeNet: Network, createNet: Network)
      returns (am: AccountManager?)
      requires vault.Valid()
      modifies vault
      ensures vault.Valid()
      ensures var run := StartupSpec(old(vault.Snapshot()), probeNet, createNet);
              (am != null <==> run.ready) && vault.Snapshot() == run.after &&
              vault.log == old(vault.log) + run.sent
      ensures am != null ==> fresh(am) && am.addr == addr && am.timeout == timeout && am.vault == vault
    {
      am := new AccountManager(addr, timeout, vault);
      var ok, err := am.CollectionExists(probeNet);
      if err.Some? {
        if err.value == CollectionNotFound {
          var createErr := am.CollectionCreate(createNet);
          if createErr.Some? {
            return null;
          }
        } else {
          return null;
        }
      } else if !ok {
        return null;
      }
    }
  }

  // ------------------------------------------------------------- properties

  /** A request with the wrong method, an undecodable body or an invalid
      record is answered without any exchange with the collection. */
  lemma AddRejectsBeforeStoreAccess(st: State, verb: string, payload: Option<Account>,
                                    existsNet: Network, addNet: Network)
    requires AddCheckable(verb, payload)
    ensures verb != MethodPost ==>
              AddSpec(st, verb, payload, existsNet, addNet) == AddRun(StatusMethodNotAllowed, st, [])
    ensures verb == MethodPost && (payload.None? || !AccountValid(payload.value)) ==>
              AddSpec(st, verb, payload, existsNet, addNet) == AddRun(StatusBadRequest, st, [])
    ensures AddSpec(st, verb, payload, existsNet, addNet).sent != [] ==>
              verb == MethodPost && payload.Some? && AccountValid(payload.value)
  {
  }

  /** The collection changes only once the insert was sent, and then by
      appending exactly the submitted record, which is valid and whose number
      was not taken. That happens with a 200 answer, or with a 500 when the
      insert's answer was lost; a 200 always means it happened. The unique
      index survives every call. */
  lemma AddOnlySuccessStores(st: State, verb: string, payload: Option<Account>,
                             existsNet: Network, addNet: Network)
    requires AddCheckable(verb, payload)
    requires UniqueNumbers(st.docs)
    ensures var run := AddSpec(st, verb, payload, existsNet, addNet);
            run.status == StatusOK <==> run.after.docs != st.docs && !addNet.Lost?
    ensures var run := AddSpec(st, verb, payload, existsNet, addNet);
            run.after.docs != st.docs ==>
              (run.status == StatusOK || run.status == StatusInternalServerError) &&
              payload.Some? && AccountValid(payload.value) &&
              !HasNumber(st.docs, payload.value.number) &&
              run.after == State(true, st.docs + [payload.value]) &&
              run.sent == [AccountExistsRequest(payload.value.number), AccountAddRequest(payload.value)]
    ensures UniqueNumbers(AddSpec(st, verb, payload, existsNet, addNet).after.docs)
  {
    var run := AddSpec(st, verb, payload, existsNet, addNet);
    if verb == MethodPost && payload.Some? && AccountValid(payload.value) {
      var a := payload.value;
      var probe := AccountExistsRequest(a.number);
      var (ex1, st1) := Deliver(st, probe, existsNet);
      assert st1 == st;
      var (found, err1) := AccountExistsResult(ex1);
      if err1.None? && !found {
        var put := AccountAddRequest(a);
        DeliverKeepsStore(st1, put, addNet);
        var (ex2, st2) := Deliver(st1, put, addNet);
        if st2.docs != st.docs {
          assert |st2.docs| == |st.docs| + 1;
        }
        if WriteResult(ex2).None? {
          assert existsNet.Healthy?;
          CountMeansHasNumber(st.docs, a.number);
          assert st2.docs == st.docs + [a];
          assert |st2.docs| != |st.docs|;
        }
      }
    }
  }

  /** An existing number is answered with 409 after the count alone: the
      insert is never sent and the collection is unchanged. */
  lemma DuplicateConflicts(st: State, a: Account, addNet: Network)
    requires IbanDefined(a.iban) && AccountValid(a) && JsonPlain(a.number)
    requires st.present && HasNumber(st.docs, a.number)
    ensures AddSpec(st, MethodPost, Some(a), Healthy, addNet) ==
            AddRun(StatusConflict, st, [AccountExistsRequest(a.number)])
  {
    CountMeansHasNumber(st.docs, a.number);
  }

  /** With a healthy network, a valid record with a fresh number is stored. */
  lemma FreshAccountStored(st: State, a: Account)
    requires IbanDefined(a.iban) && AccountValid(a) && JsonPlain(a.number)
    requires st.present && !HasNumber(st.docs, a.number)
    ensures AddSpec(st, MethodPost, Some(a), Healthy, Healthy) ==
            AddRun(StatusOK, State(true, st.docs + [a]),
                   [AccountExistsRequest(a.number), AccountAddRequest(a)])
  {
    CountMeansHasNumber(st.docs, a.number);
  }

  /** In a sequential run, once a record was added, any later add of a
      record with the same number is a 409 that changes nothing. */
  lemma SequentialAddsConflict(st: State, a: Account, b: Account,
                               n1: Network, n2: Network, n3: Network)
    requires IbanDefined(a.iban) && IbanDefined(b.iban) && AccountValid(b)
    requires UniqueNumbers(st.docs) && b.number == a.number && JsonPlain(a.number)
    requires AddSpec(st, MethodPost, Some(a), n1, n2).status == StatusOK
    ensures var after := AddSpec(st, MethodPost, Some(a), n1, n2).after;
            AddSpec(after, MethodPost, Some(b), Healthy, n3) ==
            AddRun(StatusConflict, after, [AccountExistsRequest(b.number)])
  {
    AddOnlySuccessStores(st, MethodPost, Some(a), n1, n2);
    var after := AddSpec(st, MethodPost, Some(a), n1, n2).after;
    assert after.docs[|st.docs|] == a;
    DuplicateConflicts(after, b, n3);
  }

  /** Every failure after validation is answered 500. When the count
      fails (no answer, a failure status, a missing collection), only the
      count was sent and nothing changed; when the insert fails, both
      requests were sent. */
  lemma AddErrorsAre500(st: State, a: Account, existsNet: Network, addNet: Network)
    requires IbanDefined(a.iban) && AccountValid(a)
    ensures !existsNet.Healthy? || !st.present ==>
              AddSpec(st, MethodPost, Some(a), existsNet, addNet) ==
              AddRun(StatusInternalServerError, st, [AccountExistsRequest(a.number)])
    ensures JsonPlain(a.number) && existsNet.Healthy? && st.present &&
            !HasNumber(st.docs, a.number) && !addNet.Healthy?
            ==>
              var run := AddSpec(st, MethodPost, Some(a), existsNet, addNet);
              run.status == StatusInternalServerError &&
              run.sent == [AccountExistsRequest(a.number), AccountAddRequest(a)]
  {
    CountMeansHasNumber(st.docs, a.number);
  }

  /** A retrieval whose search fails (no answer, a failure status, a
      missing collection) is answered 500 with no accounts. */
  lemma GetErrorsAre500(st: State, q: ApiQuery, net: Network)
    requires SearchKey(q).Some?
    ensures !net.Healthy? || !st.present ==>
              GetSpec(st, MethodPost, Some(q), net) ==
              GetRun(StatusInternalServerError, [], [AccountGetRequest(SearchKey(q).value)])
  {
  }

  /** A search that selects nothing is answered 404, neither 200 nor 500. */
  lemma EmptySearchIs404(st: State, q: ApiQuery)
    requires st.present && SearchKey(q).Some? && JsonPlain(SearchKey(q).value)
    requires Select(st.docs, AccountGetQuery(SearchKey(q).value).filter) == []
    ensures GetSpec(st, MethodPost, Some(q), Healthy) ==
            GetRun(StatusNotFound, [], [AccountGetRequest(SearchKey(q).value)])
  {
    var req := AccountGetRequest(SearchKey(q).value);
    assert MethodPost != MethodPut && MethodPost != MethodGet;
    assert CountEndpoint != SearchEndpoint;
    var ex := Response(StatusOK, SearchPayload(Revisions([])));
    assert Deliver(st, req, Healthy) == (ex, st);
  }

  /** A number no record holds is answered 404. */
  lemma AbsentNumberIs404(st: State, number: string, accountType: string)
    requires st.present && !HasNumber(st.docs, number) && JsonPlain(number)
    requires number != "" && number != TypeSending && number != TypeReceiving
    ensures GetSpec(st, MethodPost, Some(ApiQuery(number, accountType)), Healthy) ==
            GetRun(StatusNotFound, [], [AccountGetRequest(number)])
  {
    SelectAbsentNumber(st.docs, number);
    EmptySearchIs404(st, ApiQuery(number, accountType));
  }

  /** The number wins over the type, and with both empty the request is
      rejected without any exchange. */
  lemma GetKeyPrecedence(st: State, q: ApiQuery, net: Network)
    ensures q.number != "" ==>
              GetSpec(st, MethodPost, Some(q), net).sent == [AccountGetRequest(q.number)]
    ensures q.number == "" && q.accountType != "" ==>
              GetSpec(st, MethodPost, Some(q), net).sent == [AccountGetRequest(q.accountType)]
    ensures q.number == "" && q.accountType == "" ==>
              GetSpec(st, MethodPost, Some(q), net) == GetRun(StatusBadRequest, [], [])
  {
  }

  /** The query mode is decided by the string alone: a number that reads
      "sending" is searched as a type, and an unknown type is searched as a
      number. */
  lemma GetModeByLiteral(st: State, q: ApiQuery, net: Network)
    ensures q.number == TypeSending ==>
              GetSpec(st, MethodPost, Some(q), net).sent[0].body.search.filter == FieldQuery(TypeField, TypeSending)
    ensures q.number == "" && q.accountType != "" &&
            q.accountType != TypeSending && q.accountType != TypeReceiving ==>
              GetSpec(st, MethodPost, Some(q), net).sent[0].body.search ==
              SearchQuery(1, NumberPerPage, FieldQuery(NumberField, q.accountType))
  {
  }

  /** A 200 answer carries at least one account; every account it carries
      is a stored record matching the search; any other answer carries
      none. */
  lemma GetAnswersStoredMatches(st: State, verb: string, query: Option<ApiQuery>, net: Network)
    requires query.Some? && SearchKey(query.value).Some? ==> JsonPlain(SearchKey(query.value).value)
    ensures var run := GetSpec(st, verb, query, net);
            run.status == StatusOK <==> |run.accounts| > 0
    ensures var run := GetSpec(st, verb, query, net);
            run.status == StatusOK ==>
              var key := SearchKey(query.value).value;
              forall a :: a in run.accounts ==>
                a in st.docs && Matches(a, AccountGetQuery(key).filter)
  {
    var run := GetSpec(st, verb, query, net);
    if run.status == StatusOK {
      var key := SearchKey(query.value).value;
      var req := AccountGetRequest(key);
      var q := AccountGetQuery(key);
      assert net.Healthy?;
      var page := FirstPage(Select(st.docs, q.filter), q.perPage);
      assert Deliver(st, req, net).0 == Response(StatusOK, SearchPayload(Revisions(page)));
      assert run.accounts == page;
      forall a | a in run.accounts
        ensures a in st.docs && Matches(a, q.filter)
      {
        var i :| 0 <= i < |page| && page[i] == a;
        assert a in Select(st.docs, q.filter);
      }
    }
  }

  /** Retrieving by a number held by exactly one record answers with that
      record. */
  lemma GetByNumberSingle(st: State, number: string, a: Account)
    requires st.present && Select(st.docs, FieldQuery(NumberField, number)) == [a]
    requires number != "" && number != TypeSending && number != TypeReceiving
    requires JsonPlain(number)
    ensures GetSpec(st, MethodPost, Some(ApiQuery(number, "")), Healthy) ==
            GetRun(StatusOK, [a], [AccountGetRequest(number)])
  {
    var req := AccountGetRequest(number);
    assert req.body.search == SearchQuery(1, NumberPerPage, FieldQuery(NumberField, number));
    assert MethodPost != MethodPut && MethodPost != MethodGet;
    assert CountEndpoint != SearchEndpoint;
    assert FirstPage([a], NumberPerPage) == [a];
    var ex := Response(StatusOK, SearchPayload(Revisions([a])));
    assert Deliver(st, req, Healthy) == (ex, st);
    assert SearchOutcome(ex) == ([a], None);
  }

  /** After a successful add, retrieving by that number over a healthy
      network answers with exactly that record (unless the number reads
      like an account type, which switches to a type search). */
  lemma AddThenGetByNumber(st: State, a: Account, n1: Network, n2: Network)
    requires IbanDefined(a.iban) && UniqueNumbers(st.docs)
    requires a.number != "" && a.number != TypeSending && a.number != TypeReceiving
    requires JsonPlain(a.number)
    requires AddSpec(st, MethodPost, Some(a), n1, n2).status == StatusOK
    ensures var after := AddSpec(st, MethodPost, Some(a), n1, n2).after;
            GetSpec(after, MethodPost, Some(ApiQuery(a.number, "")), Healthy) ==
            GetRun(StatusOK, [a], [AccountGetRequest(a.number)])
  {
    AddOnlySuccessStores(st, MethodPost, Some(a), n1, n2);
    var after := AddSpec(st, MethodPost, Some(a), n1, n2).after;
    var f := FieldQuery(NumberField, a.number);
    SelectAppend(st.docs, a, f);
    SelectAbsentNumber(st.docs, a.number);
    assert Select(after.docs, f) == [a];
    GetByNumberSingle(after, a.number, a);
  }

  /** Retrieving by an account type over a healthy network answers with the
      first 100 stored records of that type, in insertion order. */
  lemma GetByTypeAnswer(st: State, t: string)
    requires st.present && (t == TypeSending || t == TypeReceiving)
    requires |Select(st.docs, FieldQuery(TypeField, t))| > 0
    ensures GetSpec(st, MethodPost, Some(ApiQuery("", t)), Healthy) ==
            GetRun(StatusOK, FirstPage(Select(st.docs, FieldQuery(TypeField, t)), TypePerPage),
                   [AccountGetRequest(t)])
  {
    var req := AccountGetRequest(t);
    assert req.body.search == SearchQuery(1, TypePerPage, FieldQuery(TypeField, t));
    assert MethodPost != MethodPut && MethodPost != MethodGet;
    assert CountEndpoint != SearchEndpoint;
    var page := FirstPage(Select(st.docs, FieldQuery(TypeField, t)), TypePerPage);
    var ex := Response(StatusOK, SearchPayload(Revisions(page)));
    assert Deliver(st, req, Healthy) == (ex, st);
    assert SearchOutcome(ex) == (page, None);
  }

  /** After a successful add, retrieving by the record's type over a healthy
      network lists it, as long as fewer than 100 records of that type were
      stored before (the type query reads one page of 100). */
  lemma AddThenGetByType(st: State, a: Account, n1: Network, n2: Network)
    requires IbanDefined(a.iban) && UniqueNumbers(st.docs)
    requires AddSpec(st, MethodPost, Some(a), n1, n2).status == StatusOK
    requires |Select(st.docs, FieldQuery(TypeField, a.accountType))| < TypePerPage
    ensures var after := AddSpec(st, MethodPost, Some(a), n1, n2).after;
            var run := GetSpec(after, MethodPost, Some(ApiQuery("", a.accountType)), Healthy);
            run.status == StatusOK && a in run.accounts
  {
    AddOnlySuccessStores(st, MethodPost, Some(a), n1, n2);
    var after := AddSpec(st, MethodPost, Some(a), n1, n2).after;
    var f := FieldQuery(TypeField, a.accountType);
    SelectAppend(st.docs, a, f);
    assert Select(after.docs, f) == Select(st.docs, f) + [a];
    GetByTypeAnswer(after, a.accountType);
    assert FirstPage(Select(after.docs, f), TypePerPage) == Select(after.docs, f);
  }

  /** A manager comes out only if the collection exists afterwards; the
      records are never touched by startup. */
  lemma StartupReadyMeansPresent(st: State, probeNet: Network, createNet: Network)
    ensures var run := StartupSpec(st, probeNet, createNet);
            run.ready ==> run.after.present
    ensures StartupSpec(st, probeNet, createNet).after.docs == st.docs
  {
    var probe := CollectionExistsRequest();
    DeliverKeepsStore(st, probe, probeNet);
    var (ex1, st1) := Deliver(st, probe, probeNet);
    var create := CollectionCreateRequest();
    DeliverKeepsStore(st1, create, createNet);
  }

  /** The startup outcomes: a manager exactly when the probe answers 200,
      or answers 404 and the creation answers 200. */
  lemma StartupOutcomes(st: State, probeNet: Network, createNet: Network)
    ensures var run := StartupSpec(st, probeNet, createNet);
            var probe := Deliver(st, CollectionExistsRequest(), probeNet);
            var create := Deliver(probe.1, CollectionCreateRequest(), createNet);
            run.ready <==>
              (probe.0.Response? && probe.0.status == StatusOK) ||
              (probe.0.Response? && probe.0.status == StatusNotFound &&
               create.0.Response? && create.0.status == StatusOK)
  {
  }

  /** Over a healthy network startup always succeeds, creating the
      collection when it is missing. */
  lemma StartupHealthy(st: State)
    ensures StartupSpec(st, Healthy, Healthy).ready
    ensures StartupSpec(st, Healthy, Healthy).after == State(true, st.docs)
    ensures StartupSpec(st, Healthy, Healthy).sent ==
            if st.present then [CollectionExistsRequest()]
            else [CollectionExistsRequest(), CollectionCreateRequest()]
  {
  }
}
