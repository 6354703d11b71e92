# Account gateway over immudb Vault — a Dafny model

The gateway is a small HTTP service. It stores account records (number,
name, IBAN, address, amount, type "sending" or "receiving") in one
document collection of immudb Vault. It answers two API calls, `/api/add`
and `/api/get`, and provisions the collection at startup.

This project models the gateway's core and proves properties of it:

- **`domain.dfy`**: the `Account` record, the two account types and the
  HTTP method names.
- **`iban.dfy`**: `validateIBAN`, `isAlpha` and `mod97` (misc.go).
  - The IBAN check runs in this order: the raw length gate, space
    stripping and upper-casing, the country-letter test, the rotation by
    four, letter expansion, and the digit-by-digit MOD 97-10 accumulator.
  - The two loops of the source are methods (`ValidateIban`, `Mod97`). Each
    is proved equal to a recursive specification function. The properties
    are proved about those functions.
- **`validators.dfy`**: the field validators of misc.go.
- **`vault.dfy`**: the store adapter's decision logic (vault.go), with every
  HTTP exchange reduced to its outcome.
  - Which key each request carries.
  - Which query each operation sends.
  - How statuses and bodies are classified.
  - The projection loop of `accountGet`.
- **`remote.dfy`**: the environment, which is not gateway code.
  - The remote collection is a class `Store`: whether the collection exists,
    its records in insertion order, and a ghost log of every request
    received.
  - Each exchange also takes a `Network` outcome: the request is delivered;
    the client fails before it reaches the collection; it reaches the
    collection but the answer is lost (the client sees a transport error,
    such as its timeout); or a non-200 status comes back without reaching
    the collection.
- **`splice.dfy`**: how the collection reads a value that the count and
  search templates splice between quotes unescaped, and the corrected
  splice that encodes it first (see Findings).
- **`gateway.dfy`**: the `AccountManager` class (main.go and the I/O half of
  vault.go).
  - The adapter methods that talk to the `Store`.
  - `HandlerAdd`, `HandlerGet` and the startup `NewAccountManager`.
  - Each of these is proved equal to a specification function (`AddSpec`,
    `GetSpec`, `StartupSpec`). The specification functions compose the
    adapter's classification with the store's answers. The gateway's
    promises are lemmas about them:
    - validation happens before any store access;
    - a record is stored only by an insert that was sent, and a 200 means it
      was stored;
    - every store failure is answered 500, and an empty result 404;
    - a duplicate number yields 409;
    - add-then-get round trips;
    - the outcomes of startup.

Two facts about the code shape the model:

- `validateIBAN` checks the length of the raw input, then strips spaces and
  slices `iban[:2]` and `iban[4:]` without checking the length again. An
  input of 15–34 bytes that is mostly spaces makes it panic, so the model
  requires `IbanDefined` of the IBAN it checks.
- `handlerAdd` answers every failed insert with 500, including an insert
  that the collection rejects under its unique index on "number"
  (main.go:150-154). Only the count before the insert leads to 409.

## Model

| member | source | states |
|---|---|---|
| `Iban.Rotate4` | misc.go:28-29 | `iban[4:] + iban[:4]` keeps the length and the multiset of characters; character i comes from position i+4, and the last four are the first four |
| `Iban.DecimalText` | misc.go:35 | `%d` of a natural number is a non-empty digit string denoting that number; one digit below 10, two digits from 10 to 99 |
| `Iban.Mod97Spec` | misc.go:52-58 | the accumulator is always in [0, 96] |
| `Iban.Mod97` | misc.go:52-58 | the index loop computes the accumulator of the whole string, with byte wrap-around of `iban[i] - '0'`; the result is in [0, 96] |
| `Iban.Mod97OfDigits` | misc.go:52-58 | on a string of decimal digits, mod97 equals the number the string denotes, modulo 97 |
| `Iban.IbanValid` | misc.go:13-44 | true only if the raw byte length is within 15..34 (checked before normalising) and the first two normalised characters are in A-Z |
| `Iban.ValidateIban` | misc.go:13-44 | the step-by-step check, with the loop that grows `ibanWithDigits`, returns exactly the verdict `IbanValid` |
| `Iban.IbanValidIsMod97Check` | misc.go:13-58 | when the normalised form holds only A-Z and 0-9, the verdict is: country letters pass and the number denoted by the rearranged, expanded IBAN is 1 modulo 97 |
| `Iban.ReferenceIbanValid` | misc.go:12-13 | `DE89370400440532013000`, the reference value in the doc comment, passes |
| `Iban.StripSpacesRemovesSpaces` | misc.go:20 | removing spaces leaves no space, adds no character and never lengthens |
| `Iban.NormalizeShape` | misc.go:20-21 | a normalised string has no space and no lower-case letter, is no longer than the input and stays 7-bit |
| `Iban.NormalizeIdempotent` | misc.go:20-21 | normalising twice is normalising once |
| `Iban.NormalizeIgnoresSpace` | misc.go:20 | inserting a space anywhere does not change the normalised form |
| `Iban.NormalizeIgnoresCase` | misc.go:21 | inputs that agree up to letter case normalise alike |
| `Iban.SameVerdictAsCompactForm` | misc.go:14-26 | a lower-case or spaced input whose raw length passes gets the same verdict as its compact upper-case form, when that form passes the length gate too |
| `Iban.StripSpacesOfSpaceless` | misc.go:20 | a string without spaces is left as it is |
| `Iban.StripSpacesConcat` | misc.go:20 | space removal distributes over concatenation |
| `Iban.ToUpperConcat` | misc.go:21 | upper-casing distributes over concatenation |
| `Iban.ExpandLetter` | misc.go:34-35 | a capital letter c becomes two digits denoting c - 'A' + 10 |
| `Iban.ExpandAlnum` | misc.go:31-40 | for input of A-Z and 0-9 the expansion is all digits and its length is the input length plus the number of letters |
| `Iban.ExpandConcat` | misc.go:32-40 | the expansion of a concatenation is the concatenation of the expansions |
| `Iban.ExpandDigits` | misc.go:37-38 | digits are copied unchanged |
| `Iban.CountryLetters` | misc.go:46-49 | `isAlpha` on the first two characters passes exactly when both are capital letters A-Z (so never on a digit or a lower-case letter); the empty string never passes |
| `Iban.RotateUpperAlnum` | misc.go:29 | the rotation keeps an A-Z/0-9 string within that alphabet |
| `Validators.ValidateNumber` | misc.go:61-63 | every account number passes |
| `Validators.ValidateName` | misc.go:65-67 | every name passes |
| `Validators.ValidateAddress` | misc.go:69-71 | every address passes |
| `Validators.ValidateAmount` | misc.go:73-84 | no limit: true; one limit: amount >= l0; two limits: l0 <= amount <= l1; three or more: true |
| `Validators.ValidateAccountType` | misc.go:86-88 | true exactly for "sending" and "receiving" |
| `Vault.CredentialFor` | vault.go:126-130 | the write key exactly for PUT, the read-only key otherwise |
| `Vault.MakeRequest` | vault.go:119-130 | the request keeps method and endpoint, and carries the write key exactly when the method is PUT |
| `Vault.CollectionExistsRequest` | vault.go:197 | the probe is a GET on the collection with the read-only key |
| `Vault.CollectionCreateRequest` | vault.go:213 | creation is a PUT of the schema with the write key |
| `Vault.AccountExistsRequest` | vault.go:226-228 | the count query compares field "number" EQ the given number and carries the read-only key |
| `Vault.AccountAddRequest` | vault.go:149 | the insert is a PUT of the record to `/document` with the write key |
| `Vault.AccountGetQuery` | vault.go:164-168 | a "type" query with perPage 100 exactly when the string is "sending" or "receiving", otherwise a "number" query with perPage 1; page 1; the string is the compared value verbatim |
| `Vault.AccountGetRequest` | vault.go:162-170 | the search is a POST to `/documents/search` with the read-only key |
| `Vault.WriteKeyOnlyForWrites` | vault.go:126-130 | of the five requests, exactly the collection creation and the insert carry the write key |
| `Vault.CollectionExistsResult` | vault.go:196-210 | 200 gives (true, no error); 404 gives (false, CollectionNotFound); other statuses give (false, no error); a transport error is passed through |
| `Vault.WriteResult` | vault.go:212-223 | collection creation and insertion succeed exactly on 200; any other status or a transport error is an error |
| `Vault.AccountExistsResult` | vault.go:229-242 | an error unless a 200 answer decodes to a count; then "exists" exactly when the count is positive |
| `Vault.Documents` | vault.go:189-193 | one account per revision, its embedded document, in revision order |
| `Vault.SearchOutcome` | vault.go:170-193 | error and no accounts on a transport error, a non-200 status or an undecodable body; otherwise one account per revision in order, and an empty list (no error) for no revisions |
| `Vault.SearchResult` | vault.go:176-193 | the projection loop returns exactly `SearchOutcome` |
| `Remote.Select` | vault.go:17-24 | an EQ comparison selects exactly the stored records that match (membership both ways) and never more than are stored; the insertion order is stated by `Remote.SelectAppend` |
| `Remote.FirstPage` | vault.go:30-31 | a page of size n is the first min(n, total) matches |
| `Remote.Handle` | vault.go:63-89 | the collection keeps the unique index on "number"; only an accepted insert changes the records, by appending the new record under an unused number; a 200 answer means the collection exists; non-PUT requests change nothing |
| `Remote.Deliver` | vault.go:132-139 | a delivered request gets the collection's answer; a lost one changes the collection as a delivered one would but yields a transport error; a client failure or refused exchange leaves the collection unchanged and never yields 200 |
| `Remote.DeliverKeepsStore` | vault.go:63-89 | every exchange keeps the unique index and changes the records at most by appending the record it carries, under an unused number, and only when answered 200 or when the answer was lost; a 200 answer means the collection exists |
| `Remote.CountMeansHasNumber` | vault.go:225-242 | the count on "number" is positive exactly when a stored record has that number |
| `Remote.SelectAppend` | vault.go:17-24 | after an append, the selection gains the appended record last, if it matches |
| `Remote.SelectAbsentNumber` | vault.go:17-24 | no record matches a number no record has |
| `Remote.Store.Serve` | vault.go:135 | the collection's new state and answer are those of `Deliver`; the request is logged |
| `Gateway.AccountValid` | main.go:124-129 | the validator chain (no amount limits) passes exactly when the IBAN passes and the type is "sending" or "receiving" |
| `Gateway.AccountManager.constructor` | main.go:52-55 | the manager keeps its address, timeout and store |
| `Gateway.AccountManager.VaultRequest` | vault.go:119-140 | one exchange of the request built with the method's key; the store changes as `Deliver` says |
| `Gateway.AccountManager.CollectionExists` | vault.go:196-210 | returns `CollectionExistsResult` of the probe's outcome |
| `Gateway.AccountManager.CollectionCreate` | vault.go:212-223 | returns `WriteResult` of the schema PUT's outcome |
| `Gateway.AccountManager.AccountExists` | vault.go:225-243 | returns `AccountExistsResult` of the count's outcome |
| `Gateway.AccountManager.AccountAdd` | vault.go:142-159 | returns `WriteResult` of the insert's outcome |
| `Gateway.AccountManager.AccountGet` | vault.go:161-194 | returns `SearchOutcome` of the search's outcome |
| `Gateway.AccountManager.HandlerAdd` | main.go:105-157 | the status, the collection afterwards and the requests sent are those of `AddSpec` |
| `Gateway.AccountManager.HandlerGet` | main.go:159-210 | the status, the accounts answered and the requests sent are those of `GetSpec`; the collection is unchanged |
| `Gateway.AccountManager.NewAccountManager` | main.go:51-91 | a manager comes out exactly when `StartupSpec` says ready; the collection and the requests sent are those of `StartupSpec` |
| `Gateway.AddRejectsBeforeStoreAccess` | main.go:107-134 | a non-POST gives 405, an undecodable body or an invalid record gives 400, and in these cases no request reaches the collection and nothing changes |
| `Gateway.AddOnlySuccessStores` | main.go:136-156 | the records change only after the count and the insert were both sent, and then by appending the submitted record (valid, with an unused number); status 200 exactly when they change and the insert's answer was not lost; a lost answer gives 500 with the record stored; the unique index holds afterwards |
| `Gateway.DuplicateConflicts` | main.go:137-148 | an existing plain number gives 409 after the count alone; the insert is never sent and nothing changes |
| `Gateway.FreshAccountStored` | main.go:137-156 | over a healthy network a valid record with an unused plain number gives 200 and is appended |
| `Gateway.SequentialAddsConflict` | main.go:137-156 | after a successful add, a later add of any valid record with the same plain number gives 409 and changes nothing |
| `Gateway.AddErrorsAre500` | main.go:136-154 | a count that fails (no answer, a failure status, a missing collection) gives 500 with only the count sent and nothing changed; a failed insert of a fresh plain number gives 500 after both requests |
| `Gateway.GetErrorsAre500` | main.go:191-195 | a search that fails (no answer, a failure status, a missing collection) gives 500 with no accounts |
| `Gateway.EmptySearchIs404` | main.go:197-201 | a search with a plain key that selects nothing gives 404 with no accounts |
| `Gateway.AbsentNumberIs404` | main.go:179-201 | retrieving a plain number that no record holds gives 404, neither 200 nor 500 |
| `Gateway.GetKeyPrecedence` | main.go:179-189 | a non-empty number wins over the type; with both empty the answer is 400 with no request sent |
| `Gateway.GetModeByLiteral` | main.go:179-183 | the search mode depends on the string alone: a number "sending" is searched as a type, and an unknown type as a number |
| `Gateway.GetAnswersStoredMatches` | main.go:191-209 | 200 exactly when at least one account is answered; for a plain key every account answered is a stored record matching the search |
| `Gateway.GetByNumberSingle` | main.go:179-209 | a plain number held by exactly one record is answered with that record |
| `Gateway.AddThenGetByNumber` | main.go:105-210 | after a successful add, retrieving by its plain number answers with exactly that record |
| `Gateway.GetByTypeAnswer` | main.go:182-209 | retrieving by a type answers with the first 100 stored records of that type |
| `Gateway.AddThenGetByType` | main.go:105-210 | after a successful add, retrieving by its type lists it, while fewer than 100 records of that type were stored before |
| `Gateway.StartupReadyMeansPresent` | main.go:69-90 | a manager comes out only if the collection exists afterwards; startup never touches the records |
| `Gateway.StartupOutcomes` | main.go:69-90 | a manager exactly when the probe answers 200, or answers 404 and the creation answers 200; any other probe error, a (false, nil) probe or a failed creation gives none |
| `Gateway.StartupHealthy` | main.go:69-90 | over a healthy network startup succeeds, creating the collection only when it is missing |
| `Splice.PlainReadsItself` | vault.go:22 | a value without quote, backslash or control character is read from between the template's quotes as itself |
| `Splice.PlainCountAgrees` | vault.go:225-228 | for such a number the count as written compares "number" with the number itself |
| `Splice.CountAsWrittenMisreads` | vault.go:225-228 | with a record numbered `xA` stored, the count as written for the unused number `x\u0041` is 1 |
| `Splice.QuoteBreaksCount` | vault.go:225-228 | a number starting with a quote is not read as one string; the count as written is `None`, which stands for a malformed body or one comparing another value, without saying which |
| `Splice.QuoteRoundTrip` | vault.go:225-228 | a value encoded as a JSON string is read back exactly |
| `Splice.CountCorrected` | vault.go:225-242 | with the number encoded, the count compares "number" with the number itself and is positive exactly when a record holds it |
| `Splice.HandleCountsCorrected` | vault.go:225-242 | the collection model answers the existence count with the corrected count, for every number |
| `Splice.PlainSpliceAgrees` | vault.go:225-228 | on plain numbers the count as written and the corrected count agree |

## Left out

- HTTP server plumbing is not modelled: `ServeMux`, `http.Server`, `Start`, `main`, `handlerFrontend` with its embedded page, and every `log` call. These are I/O or user interface.
- Reading the environment (`getEnvironment`, main.go:217-243) is not modelled. The two keys are the two `Credential` values, and the store URL is implicit in the `Store` object.
- Real network calls and client timeouts are inputs: each exchange takes a `Network` outcome (delivered, failed before reaching the collection, delivered with its answer lost, or a non-200 status). A 200 answer from the collection always decodes to the shape the caller expects, so the decode-error paths of `accountExists` (vault.go:239-241) and `accountGet` (vault.go:181-183) are modelled in `Vault.AccountExistsResult` and `Vault.SearchOutcome` but no handler lemma reaches them.
- JSON decoding and encoding are abstract.
  - A decoded request body is `Some(record)` or `None`, which covers unknown fields and malformed input.
  - An answer body is a `Payload`; anything that does not decode to the expected shape is `Blank`.
- The encoding failure of the 200 answer in `handlerGet` (main.go:204-208) is not modelled: a non-empty result is answered with 200.
- The query templates are represented as (field, value, page, perPage). The collection model compares the value as given. The code splices it between quotes unescaped (vault.go:165, 167, 227), so that is what the collection reads only for a plain value: no `"`, no `\`, no control character (`Vault.JsonPlain`). `Splice` models the reading of the count's spliced text (see Findings); the search's splice reads the same way and is covered only through the `JsonPlain` requirements below.
- `Gateway.DuplicateConflicts`: stated only for a plain number; for another number the count reads the JSON-decoded text (vault.go:227), so the answer can differ.
- `Gateway.FreshAccountStored`: stated only for a plain number, for the same reason; with `xA` stored, adding `x\u0041` gives 409.
- `Gateway.SequentialAddsConflict`: stated only for a plain number; a repeated `x\u0041` is counted as `xA`, so the insert reaches the unique index and the answer is 500.
- `Gateway.AddErrorsAre500`: its failed-insert half is stated only for a plain number, for the same reason; its failed-count half holds for every number.
- `Gateway.GetAnswersStoredMatches`: the "matching records" half is stated only for a plain search key; the search reads the JSON-decoded key (vault.go:165, 167).
- `Gateway.GetByNumberSingle`: stated only for a plain number, for the same reason.
- `Gateway.AddThenGetByNumber`: stated only for a plain number, for the same reason.
- `Gateway.EmptySearchIs404`: stated only for a plain key, for the same reason.
- `Gateway.AbsentNumberIs404`: stated only for a plain number, for the same reason.
- `Splice.ReadString` treats a `\u` escape of a UTF-16 surrogate as malformed: surrogate pairs are not decoded.
- `Amount` is a `real`: only comparisons are made on it.
- Unicode is not modelled. IBANs are restricted to 7-bit characters, where one character is one byte and upper-casing is ASCII.
- Inputs on which `validateIBAN` panics are excluded by the precondition `IbanDefined`. `HandlerAdd` requires it of the IBAN of a decoded POST body.
- Concurrency is not modelled. Calls are sequential, so the race between the count and the insert is not covered.
- Go ≥ 1.22 per-iteration loop variables are assumed at vault.go:189-191, so each projected account is a distinct value.
- Revision ids, transaction ids, `searchId` and the page fields of the search answer are not read by the gateway and are not modelled.
- The collection's behaviour is an assumption, stated in `Remote.Handle`.
  - Status codes: 403 for a PUT with the read-only key, 409 for an existing collection or a duplicate number, 404 while the collection is absent, 400 for anything else. The gateway treats every non-200 alike, so only "200 or not" matters.
  - A search returns the first `perPage` matches in insertion order.
- Detection of every single-character substitution by the MOD 97-10 check is not proved.
- `Iban.IbanValid`: its own contract states only the length gate and the country-letter test. The checksum half of the verdict is stated by `Iban.IbanValidIsMod97Check` and `Iban.ReferenceIbanValid`.

## Findings

| source | as written | input that shows it | evidently intended | confidence | as-written member | corrected member |
|---|---|---|---|---|---|---|
| vault.go:225-228 | `accountExists` splices the number into `"value": "%s"` unescaped, so the collection counts records whose number equals the JSON-decoded text | a record numbered `xA` is stored and a record numbered `x\u0041` (seven characters) is added: the count is 1 and `handlerAdd` answers 409 for an unused number; a number holding `"` is not read as one string: the body is malformed or compares another value (`", "value": "xA` makes the count compare `xA`) | encode the number as a JSON string before splicing, so the count compares the number itself | not executed; high | `Splice.CountAsWritten`, shown by `Splice.CountAsWrittenMisreads` | `Splice.CountCorrected` |
