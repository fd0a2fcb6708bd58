# TingoAI payment gateway — a verified model of its payment core

This project models the payment domain of the TingoAI payment gateway in Dafny, and proves properties of that model. The gateway is an ASP.NET service that sits in front of the GlobalPay processor. The model covers:

- **The `Transaction` entity** (`TransactionEntity`, `TransactionObject`):
  - validated construction, in the order the constructor checks its arguments;
  - `ValidateCurrency`;
  - the two mutators `SetCheckoutDetails` and `UpdatePaymentStatus`.

  `Transaction` is a class. The properties only the constructor writes are `const`; the others are fields the two mutators assign. Each method is specified by a value-level function over `TransactionRecord`, the value one row of the Transactions table holds.
- **The repository** (`TransactionRepository`):
  - the three point lookups;
  - the ordered, filtered and paged queries;
  - the aggregates.

  `TransactionStore` is a class holding the table as a sequence of rows. Its invariant is what the database enforces: the primary key, the unique merchant-reference index and the column lengths. Every text column is PostgreSQL `character varying(n)`, so a longer text is accepted when everything past the n-th character is spaces, and is then stored cut to n characters (`AsStored`). Any other overlong text makes the write fail. The entity in memory keeps the text as it was given.
- **The GlobalPay client** (`GlobalPayClient`):
  - the normalisation of the payment-link answer: the manual field-by-field parse, the merge with the strict deserialisation, and every failure shape;
  - the two transaction queries.

  JSON is a small datatype. The HTTP reply, `JsonDocument.Parse` and the strict deserialiser are inputs.
- **Payment orchestration** (`PaymentService`):
  - `InitiatePaymentAsync`;
  - `VerifyTransactionAsync`, with its resolution order, status mapping and reconciliation;
  - the `ProcessWebhookAsync` stub.

  Each is an imperative method over the store, proved against a function that describes one whole initiation or verification.
- **The read side** (`TransactionService`, `Dtos`):
  - `MapToDto`, single lookups and pages;
  - the summary report, whose loop over the currencies fills two dictionaries;
  - the paged query with its optional summary.
- **The Basic authentication filter** (`BasicAuthFilter`): the decision over the `Authorization` header and the configuration, and the challenge. It builds on:
  - `Utf8`: `Encoding.UTF8.GetBytes`;
  - `Base64`: `Convert.ToBase64String`, the encoding of section 4 of RFC 4648, modelled in full with its decoder;
  - the "Basic" scheme of section 2 of RFC 7617.
- **Shared modules:**
  - `Strings`: ASCII case mapping, the .NET white-space set, `Trim`, ordinal `Contains`, and hexadecimal and decimal digits;
  - `Sequences`: the LINQ operators the queries use;
  - `Wrappers`: `Option` and `Result`.

The environment enters as parameters: the clock readings, `Guid.NewGuid`, `Guid.TryParse`, `DateTime.TryParse`, the processor, and a database fault that no constraint explains.

Where the documented design and the code disagree, the model follows the code:

- **Status is not monotonic.** `UpdatePaymentStatus` overwrites any status with any other (`SuccessfulCanReturnToPending`).
- **Checkout details are not written once only.** A second `SetCheckoutDetails` simply wins (`CheckoutDetailsOverwritten`).
- **Empty customer strings are accepted.** Only null ones are rejected (`EmptyCustomerFieldsAccepted`).
- **The webhook does nothing.** `ProcessWebhookAsync` is a stub.
- **A missing processor reference is stored as `""`, not null.** Verifying the empty reference can therefore find such a row.
- **A failed update hides the transaction.** When `UpdateAsync` throws during verification, for example because the processor's channel text has a character other than a space past its 50-character column, the catch-all makes `VerifyTransactionAsync` return null although the row exists (`OverlongChannelHidesTransaction`).

## Model

| member | source | states |
|---|---|---|
| TransactionEntity.ValidateCurrency | src/TingoAI.PaymentGateway.Domain/Entities/Transaction.cs:75-83 | a currency is accepted iff it is given and its upper-case form is one of NGN, USD, EUR, GBP; the upper-case form is returned; any other input gives the currency ArgumentException |
| TransactionEntity.UpperCaseCodesAreFixed | src/TingoAI.PaymentGateway.Domain/Entities/Transaction.cs:77-82 | upper-casing leaves each of the four codes unchanged |
| TransactionEntity.CurrencyAcceptedIgnoringCase | src/TingoAI.PaymentGateway.Domain/Entities/Transaction.cs:75-83 | a currency is accepted iff it equals one of the four codes ignoring case |
| TransactionEntity.LowerCaseUsdIsStoredUpperCase | src/TingoAI.PaymentGateway.Domain/Entities/Transaction.cs:41 | "usd" is accepted and kept as "USD" |
| TransactionEntity.Construct | src/TingoAI.PaymentGateway.Domain/Entities/Transaction.cs:28-50 | construction succeeds iff the merchant reference and the four customer fields are non-null, the amount is positive and the currency is valid. The first failing check decides the error, in the order null merchant reference, amount, currency, then null first name, last name, email and phone. A new transaction keeps its arguments, the upper-cased currency and both clock readings. It is Pending, with every checkout and reconciliation property null |
| TransactionEntity.EmptyCustomerFieldsAccepted | src/TingoAI.PaymentGateway.Domain/Entities/Transaction.cs:42-45 | empty first name, last name, email and phone are accepted |
| TransactionEntity.WithCheckoutDetails | src/TingoAI.PaymentGateway.Domain/Entities/Transaction.cs:52-58 | sets the checkout URL, access code and processor reference to the arguments and UpdatedAt to the clock; identity, status and reconciliation data are unchanged; validity is preserved |
| TransactionEntity.CheckoutDetailsOverwritten | src/TingoAI.PaymentGateway.Domain/Entities/Transaction.cs:52-58 | a second SetCheckoutDetails overwrites the first: the later call alone decides the result |
| TransactionEntity.WithPaymentStatus | src/TingoAI.PaymentGateway.Domain/Entities/Transaction.cs:60-73 | overwrites status, response code, response message, payment date and channel with exactly the arguments (nulls included) and UpdatedAt with the clock; identity, checkout details and processor reference are unchanged; validity is preserved |
| TransactionEntity.PaymentStatusUpdateIdempotent | src/TingoAI.PaymentGateway.Domain/Entities/Transaction.cs:67-72 | repeating the same status update equals doing it once at the later time |
| TransactionEntity.SuccessfulCanReturnToPending | src/TingoAI.PaymentGateway.Domain/Entities/Transaction.cs:67 | no transition is forbidden: a Successful transaction can be set back to Pending |
| TransactionObject.Transaction.Materialise | src/TingoAI.PaymentGateway.Domain/Entities/Transaction.cs:5-26 | an object whose properties are exactly those of a stored row |
| TransactionObject.Transaction.Create | src/TingoAI.PaymentGateway.Domain/Entities/Transaction.cs:28-50 | the public constructor builds a fresh object whose value is what Construct gives, or throws the error Construct names |
| TransactionObject.Transaction.SetCheckoutDetails | src/TingoAI.PaymentGateway.Domain/Entities/Transaction.cs:52-58 | with non-null arguments the new state is WithCheckoutDetails of the old one. A null argument throws after the earlier properties have already been written: a null access code leaves the new checkout URL stored, and a null reference leaves the URL and access code stored |
| TransactionObject.Transaction.UpdatePaymentStatus | src/TingoAI.PaymentGateway.Domain/Entities/Transaction.cs:60-73 | the new state is WithPaymentStatus of the old one |
| TransactionRepository.NewestFirst | src/TingoAI.PaymentGateway.Infrastructure/Repositories/TransactionRepository.cs:42 | the rows sorted by descending CreatedAt, a permutation of the input |
| TransactionRepository.GetById | src/TingoAI.PaymentGateway.Infrastructure/Repositories/TransactionRepository.cs:17-22 | a stored row with that Id, or none iff no row has it |
| TransactionRepository.GetByMerchantReference | src/TingoAI.PaymentGateway.Infrastructure/Repositories/TransactionRepository.cs:24-29 | a stored row with exactly that merchant reference, or none iff no row has it |
| TransactionRepository.GetByGlobalPayReference | src/TingoAI.PaymentGateway.Infrastructure/Repositories/TransactionRepository.cs:31-36 | a stored row whose processor reference is exactly the argument, or none iff no row has it; a null reference matches nothing |
| TransactionRepository.GetAll | src/TingoAI.PaymentGateway.Infrastructure/Repositories/TransactionRepository.cs:38-46 | the page of the newest-first table that starts after (page−1)·pageSize rows: element i is the row at that offset plus i, and there are min(pageSize, rows left) of them (none past the end); sorted newest first; the first page of a table that fits on it holds every row |
| TransactionRepository.GetByDateRange | src/TingoAI.PaymentGateway.Infrastructure/Repositories/TransactionRepository.cs:48-55 | exactly the rows created in the closed interval [start, end], each as often as stored, newest first |
| TransactionRepository.GetByCurrency | src/TingoAI.PaymentGateway.Infrastructure/Repositories/TransactionRepository.cs:57-64 | exactly the rows in that currency, each as often as stored, newest first |
| TransactionRepository.Query | src/TingoAI.PaymentGateway.Infrastructure/Repositories/TransactionRepository.cs:66-90 | the total is the number of rows matching the filters, counted before paging. The items are that page of the matches, newest first, so there are at most pageSize of them and no more than the total. Dates filter only with both bounds; the name filters only when not blank |
| TransactionRepository.NarrowingIsOneFilter | src/TingoAI.PaymentGateway.Infrastructure/Repositories/TransactionRepository.cs:68-79 | the query narrowed step by step selects exactly the rows the combined predicate selects |
| TransactionRepository.GetTotalCount | src/TingoAI.PaymentGateway.Infrastructure/Repositories/TransactionRepository.cs:104-107 | the count is the number of rows in the table, with no filter |
| TransactionService.TotalCountAgreesWithRepository | src/TingoAI.PaymentGateway.Infrastructure/Repositories/TransactionRepository.cs:104-107 | the repository's row count equals the total of the undated summary, for every table that `Take(int.MaxValue)` reads whole |
| TransactionRepository.GetTotalAmountByCurrency | src/TingoAI.PaymentGateway.Infrastructure/Repositories/TransactionRepository.cs:109-114 | the sum over the Successful rows in the currency: non-negative for valid rows, 0 when there are none |
| TransactionRepository.GetSuccessfulCount | src/TingoAI.PaymentGateway.Infrastructure/Repositories/TransactionRepository.cs:116-120 | between 0 and the row count; 0 iff no row is Successful, and the row count iff every row is |
| TransactionService.SuccessfulCountAgreesWithRepository | src/TingoAI.PaymentGateway.Infrastructure/Repositories/TransactionRepository.cs:116-120 | the repository's successful count is exactly the number of Successful rows that the summary reports |
| TransactionRepository.ReplaceById | src/TingoAI.PaymentGateway.Infrastructure/Repositories/TransactionRepository.cs:98-102 | each row with the record's Id becomes the record; every other row is kept in place |
| TransactionRepository.Column | src/TingoAI.PaymentGateway.Infrastructure/Migrations/20251127140328_InitialCreate.cs:19-34 | the stored value of a text is a prefix of it no longer than the column; a text that fits is stored unchanged, and what is dropped of a fitting text is spaces only |
| TransactionRepository.FitsColumnDropsOnlySpaces | src/TingoAI.PaymentGateway.Infrastructure/Migrations/20251127140328_InitialCreate.cs:19-34 | a text is accepted by its `character varying(n)` column exactly when it is its stored value followed by spaces |
| TransactionRepository.AsStored | src/TingoAI.PaymentGateway.Infrastructure/Persistence/ApplicationDbContext.cs:22-85 | the stored row has every text within its column length, keeps the Id, amount, status and dates, and equals the record when every text is already within its length |
| TransactionRepository.TransactionStore.constructor | src/TingoAI.PaymentGateway.Infrastructure/Persistence/ApplicationDbContext.cs:22-85 | an empty table satisfying the key, index and length invariant |
| TransactionRepository.TransactionStore.Add | src/TingoAI.PaymentGateway.Infrastructure/Repositories/TransactionRepository.cs:92-96 | the insert commits iff no fault occurs, every text fits its column, and the stored row breaks no key or unique index; it then appends the stored row (texts cut to their columns), otherwise the table is unchanged; the invariant holds either way |
| TransactionRepository.TransactionStore.Update | src/TingoAI.PaymentGateway.Infrastructure/Repositories/TransactionRepository.cs:98-102 | the update commits iff no fault occurs, the Id exists, every text fits its column and the stored row breaks no unique index; it then replaces the row with that Id by the stored row, otherwise the table is unchanged; the invariant holds either way |
| TransactionRepository.InsertKeepsOtherRows | src/TingoAI.PaymentGateway.Infrastructure/Persistence/ApplicationDbContext.cs:84-85 | after an insert the invariant still holds, the stored merchant reference finds the stored row, and every earlier row is still found by its Id |
| TransactionRepository.AppendKeepsInvariant | src/TingoAI.PaymentGateway.Infrastructure/Persistence/ApplicationDbContext.cs:22-85 | appending a row within the column lengths whose Id and merchant reference are new keeps unique Ids, unique merchant references and lengths |
| TransactionRepository.ReplaceKeepsInvariant | src/TingoAI.PaymentGateway.Infrastructure/Persistence/ApplicationDbContext.cs:22-85 | an update that may commit keeps unique Ids, unique merchant references and column lengths |
| TransactionRepository.UpdateReplacesOnlyItsRow | src/TingoAI.PaymentGateway.Infrastructure/Repositories/TransactionRepository.cs:98-102 | after an update the Id finds the stored form of the new record and every row with another Id is still stored |
| TransactionRepository.UniqueIdLookup | src/TingoAI.PaymentGateway.Infrastructure/Repositories/TransactionRepository.cs:17-22 | with unique Ids the lookup by Id finds the one row that has it |
| TransactionRepository.UniqueMerchantReferenceLookup | src/TingoAI.PaymentGateway.Infrastructure/Persistence/ApplicationDbContext.cs:84-85 | with the unique index the lookup by merchant reference finds the one row that has it |
| GlobalPayClient.GetString | src/TingoAI.PaymentGateway.Infrastructure/ExternalServices/GlobalPayClient.cs:72 | reading a string property succeeds iff the value is a string or null: a string gives its text, null gives null |
| GlobalPayClient.GetBoolean | src/TingoAI.PaymentGateway.Infrastructure/ExternalServices/GlobalPayClient.cs:79 | reading the flag succeeds iff the value is a JSON boolean |
| GlobalPayClient.FailedData | src/TingoAI.PaymentGateway.Infrastructure/ExternalServices/GlobalPayClient.cs:122-137 | an unsuccessful Data carrying only the error text |
| GlobalPayClient.FirstString | src/TingoAI.PaymentGateway.Infrastructure/ExternalServices/GlobalPayClient.cs:72-93 | a field read from an ordered list of candidates: a found text comes from some candidate, and the field stays null iff every candidate is absent or null |
| GlobalPayClient.FirstTrue | src/TingoAI.PaymentGateway.Infrastructure/ExternalServices/GlobalPayClient.cs:79-91 | the flag is true only if some candidate is `true`, and false iff every candidate is absent or `false` |
| GlobalPayClient.ReadString | src/TingoAI.PaymentGateway.Infrastructure/ExternalServices/GlobalPayClient.cs:84-93 | one conditional read: a field already set is kept, otherwise the property is read |
| GlobalPayClient.ReadFlag | src/TingoAI.PaymentGateway.Infrastructure/ExternalServices/GlobalPayClient.cs:79-91 | the flag is read only while it is still false |
| GlobalPayClient.ReadData | src/TingoAI.PaymentGateway.Infrastructure/ExternalServices/GlobalPayClient.cs:65-81 | the reads inside `data` compute the data stage of the parse, `ref` only when `transactionReference` left the field null |
| GlobalPayClient.ReadRoot | src/TingoAI.PaymentGateway.Infrastructure/ExternalServices/GlobalPayClient.cs:83-93 | the root reads compute the root stage: only the fields still null, or the flag still false, are read |
| GlobalPayClient.ManualParse | src/TingoAI.PaymentGateway.Infrastructure/ExternalServices/GlobalPayClient.cs:61-93 | the field-by-field parse computes the declarative candidate-list parse: each field from its first usable candidate, `data` before the root; any wrongly typed read, or a non-object root, fails the parse |
| GlobalPayClient.StagesAgree | src/TingoAI.PaymentGateway.Infrastructure/ExternalServices/GlobalPayClient.cs:65-93 | the data stage followed by the root stage equals the declarative parse |
| GlobalPayClient.ManualParseAgrees | src/TingoAI.PaymentGateway.Infrastructure/ExternalServices/GlobalPayClient.cs:72-93 | each field's candidate list is the chain of conditional reads the client performs |
| GlobalPayClient.Merge | src/TingoAI.PaymentGateway.Infrastructure/ExternalServices/GlobalPayClient.cs:96-105 | each text field keeps the strict value when non-null, else takes the manual value; the flag is the OR of both; Error is the strict one |
| GlobalPayClient.GeneratePaymentLink | src/TingoAI.PaymentGateway.Infrastructure/ExternalServices/GlobalPayClient.cs:20-139 | always a Data object. A transport failure gives its message as the error. A non-success status gives "Status: code reason; Body: body". A body that does not parse gives the fixed parse error. Otherwise the result is the manual parse, merged with the strict result when there is one |
| GlobalPayClient.DataPreferredOverRoot | src/TingoAI.PaymentGateway.Infrastructure/ExternalServices/GlobalPayClient.cs:68-81 | a text inside `data` wins over the same property at the root |
| GlobalPayClient.RootFallback | src/TingoAI.PaymentGateway.Infrastructure/ExternalServices/GlobalPayClient.cs:83-93 | a field absent or null in `data` (or with no `data` object) is taken from the root |
| GlobalPayClient.ReferencePreference | src/TingoAI.PaymentGateway.Infrastructure/ExternalServices/GlobalPayClient.cs:75-90 | the reference candidates, in order: data.transactionReference, data.ref, root transactionReference, root ref |
| GlobalPayClient.SuccessFlagIsDisjunction | src/TingoAI.PaymentGateway.Infrastructure/ExternalServices/GlobalPayClient.cs:79-91 | when the parse succeeds, its flag is true iff `data` or the root says `true` |
| GlobalPayClient.NonBooleanFlagFails | src/TingoAI.PaymentGateway.Infrastructure/ExternalServices/GlobalPayClient.cs:91-114 | a non-boolean root flag, read because `data` did not say `true`, fails the whole parse |
| GlobalPayClient.ManualParseHasNoError | src/TingoAI.PaymentGateway.Infrastructure/ExternalServices/GlobalPayClient.cs:65-109 | the manual parse never sets Error |
| GlobalPayClient.NonObjectRootFails | src/TingoAI.PaymentGateway.Infrastructure/ExternalServices/GlobalPayClient.cs:68-114 | a root that is not an object cannot be parsed |
| GlobalPayClient.NonSuccessStatusReported | src/TingoAI.PaymentGateway.Infrastructure/ExternalServices/GlobalPayClient.cs:36-43 | a non-success status yields an unsuccessful Data with the status error text and no checkout URL |
| GlobalPayClient.ParseFailureOverridesStrict | src/TingoAI.PaymentGateway.Infrastructure/ExternalServices/GlobalPayClient.cs:111-125 | when the manual parse fails, the fixed parse error is returned even if the strict deserialisation succeeded |
| GlobalPayClient.WithoutStrictResultManualWins | src/TingoAI.PaymentGateway.Infrastructure/ExternalServices/GlobalPayClient.cs:108-109 | without strict Data the answer is the manual parse, whose Error is null |
| GlobalPayClient.MergeKeepsStrictFields | src/TingoAI.PaymentGateway.Infrastructure/ExternalServices/GlobalPayClient.cs:96-105 | the merge keeps every non-null strict field, fills the null ones from the manual parse, ORs the flags and keeps the strict Error |
| GlobalPayClient.QueryOutcome | src/TingoAI.PaymentGateway.Infrastructure/ExternalServices/GlobalPayClient.cs:141-160 | Data is present iff the reply has a success status and its body decodes to Data; a transport failure or a non-success status gives null Data |
| GlobalPayClient.QueryTransactionByReference | src/TingoAI.PaymentGateway.Infrastructure/ExternalServices/GlobalPayClient.cs:141-160 | the outcome of a GET of `query-single-transaction/{reference}` |
| GlobalPayClient.QueryTransactionByMerchantReference | src/TingoAI.PaymentGateway.Infrastructure/ExternalServices/GlobalPayClient.cs:162-181 | the outcome of a GET of `query-single-transaction-by-merchant-reference/{reference}` |
| GlobalPayClient.QueryPathsDistinct | src/TingoAI.PaymentGateway.Infrastructure/ExternalServices/GlobalPayClient.cs:141-181 | the two relative path strings the queries build always differ, and each determines its reference (the URI they resolve to is not modelled, see below) |
| Dtos.MapToDto | src/TingoAI.PaymentGateway.Application/Services/PaymentService.cs:159-180 | the view carries the transaction's Id, merchant reference, amount, currency and the status's name |
| Dtos.StatusNameInjective | src/TingoAI.PaymentGateway.Domain/Entities/PaymentStatus.cs:3-9 | distinct statuses have distinct names |
| Dtos.SameDtoSameVisibleState | src/TingoAI.PaymentGateway.Application/Services/TransactionService.cs:73-94 | two records with the same view agree on identity, status, checkout URL, processor reference, payment date, channel and UpdatedAt |
| Dtos.DtoHidesInternalFields | src/TingoAI.PaymentGateway.Application/DTOs/TransactionDto.cs:3-21 | the access code, response code and response message never reach the view |
| PaymentService.MerchantReferenceFor | src/TingoAI.PaymentGateway.Application/Services/PaymentService.cs:26 | 38 characters: "TINGO-" followed by 32 lower-case hexadecimal digits |
| PaymentService.MerchantReferenceInjective | src/TingoAI.PaymentGateway.Application/Services/PaymentService.cs:26 | distinct GUIDs give distinct merchant references |
| PaymentService.LinkRequestFor | src/TingoAI.PaymentGateway.Application/Services/PaymentService.cs:40-53 | the processor request carries the amount, the generated reference, the currency as given, and "" for a null address |
| PaymentService.InitiatePayment | src/TingoAI.PaymentGateway.Application/Services/PaymentService.cs:21-100 | the response is the one the initiation outcome describes. The store receives exactly one insert when the processor accepts and none otherwise. The stored form of the row is committed only if the insert can be; the table invariant holds |
| PaymentService.RequestReferenceIgnored | src/TingoAI.PaymentGateway.Application/Services/PaymentService.cs:26-27 | a merchant reference supplied in the request changes nothing; a successful response returns the generated one |
| PaymentService.ConstructionFailureStopsEarly | src/TingoAI.PaymentGateway.Application/Services/PaymentService.cs:29-98 | when construction throws, the processor is not called and nothing is stored; the response is unsuccessful with "Error initiating payment: " and the exception message |
| PaymentService.NonPositiveAmountRejected | src/TingoAI.PaymentGateway.Domain/Entities/Transaction.cs:40 | a non-positive amount is rejected with the amount error, never clamped |
| PaymentService.InitiationSucceedsIff | src/TingoAI.PaymentGateway.Application/Services/PaymentService.cs:57-83 | success iff construction succeeds and the processor's Data is successful with a non-empty checkout URL; a record is stored iff the response is a success |
| PaymentService.AcceptedInitiation | src/TingoAI.PaymentGateway.Application/Services/PaymentService.cs:57-83 | on success the stored record is valid and Pending, with the generated reference and Id and the processor's checkout URL; a missing access code or reference becomes "". The response carries the URL, the access code, the Id and the success message |
| PaymentService.RejectedInitiation | src/TingoAI.PaymentGateway.Application/Services/PaymentService.cs:86-90 | a rejected request stores nothing and reports the processor's Error, else "Failed to generate payment link" |
| PaymentService.CurrencySentAsGiven | src/TingoAI.PaymentGateway.Application/Services/PaymentService.cs:48 | the processor receives the currency as given while the record stores it upper-cased |
| PaymentService.ClientFailureReported | src/TingoAI.PaymentGateway.Infrastructure/ExternalServices/GlobalPayClient.cs:127-138 | with the GlobalPay client as processor, a transport failure is reported with its message |
| PaymentService.MissingProcessorReferenceStoredEmpty | src/TingoAI.PaymentGateway.Application/Services/PaymentService.cs:62 | an accepted answer without a reference stores "" (not null) under a non-empty merchant reference |
| PaymentService.Resolve | src/TingoAI.PaymentGateway.Application/Services/PaymentService.cs:106-117 | a stored row, found by Id when the reference is a GUID of a row, else by merchant reference, else by processor reference; none iff all three miss |
| PaymentService.ResolveByIdFirst | src/TingoAI.PaymentGateway.Application/Services/PaymentService.cs:108-111 | a reference that is the Id of a row resolves to that row |
| PaymentService.ResolveByMerchantReferenceNext | src/TingoAI.PaymentGateway.Application/Services/PaymentService.cs:113-117 | otherwise the row with that merchant reference is found before any processor-reference match |
| PaymentService.EmptyReferenceMatchesMissingProcessorReference | src/TingoAI.PaymentGateway.Application/Services/PaymentService.cs:115-116 | verifying "" finds a row whose processor reference was stored as "" |
| PaymentService.MapStatus | src/TingoAI.PaymentGateway.Application/Services/PaymentService.cs:127-132 | Successful iff the lower-cased text is "successful", Failed iff it is "failed", otherwise (null included) Pending; never Cancelled |
| PaymentService.MapStatusOfNames | src/TingoAI.PaymentGateway.Application/Services/PaymentService.cs:127-132 | each status's name maps back to that status, except Cancelled, which becomes Pending |
| PaymentService.Reconciled | src/TingoAI.PaymentGateway.Application/Services/PaymentService.cs:134-140 | the reconciled row has the mapped status, the payment date as `DateTime.TryParse` reads it (null when absent), the processor's code, message and channel, and the clock as UpdatedAt; identity and checkout details are unchanged |
| PaymentService.UnparseableDateBecomesNull | src/TingoAI.PaymentGateway.Application/Services/PaymentService.cs:138 | a missing or unparseable payment date is stored as null |
| PaymentService.VerifyTransaction | src/TingoAI.PaymentGateway.Application/Services/PaymentService.cs:102-151 | the result and the queried reference are those of the verification outcome. Exactly one update is issued when a row and processor Data exist, and none otherwise. The row is replaced by its stored form only if the update can commit; the table invariant holds |
| PaymentService.QueriedReference | src/TingoAI.PaymentGateway.Application/Services/PaymentService.cs:120-121 | the processor is asked about the local merchant reference when a row was found, else about the raw input |
| PaymentService.UpdateOnlyWithRowAndData | src/TingoAI.PaymentGateway.Application/Services/PaymentService.cs:123-143 | an update is attempted iff both a local row and processor Data exist |
| PaymentService.VerifyResult | src/TingoAI.PaymentGateway.Application/Services/PaymentService.cs:145-150 | the result is null iff nothing was found or the update failed; otherwise it shows the reconciled row, or the stored row when there was no Data |
| PaymentService.OverlongChannelHidesTransaction | src/TingoAI.PaymentGateway.Application/Services/PaymentService.cs:139-150 | a processor channel with a character other than a space past its 50-character column makes the update fail and the result null although the row exists |
| PaymentService.ProcessWebhook | src/TingoAI.PaymentGateway.Application/Services/PaymentService.cs:153-157 | the webhook changes neither the table nor the write log |
| TransactionService.ToDtos | src/TingoAI.PaymentGateway.Application/Services/TransactionService.cs:26 | one view per transaction, in order |
| TransactionService.GetTransactionById | src/TingoAI.PaymentGateway.Application/Services/TransactionService.cs:17-21 | null iff no row has the Id, else the view of a stored row with that Id |
| TransactionService.GetAllTransactions | src/TingoAI.PaymentGateway.Application/Services/TransactionService.cs:23-27 | exactly the views of the repository's page: as many as it has, element i the view of the newest-first row at offset (page−1)·pageSize + i |
| TransactionService.SuccessRate | src/TingoAI.PaymentGateway.Application/Services/TransactionService.cs:67 | a percentage between 0 and 100; 0 iff nothing succeeded, 100 iff there are transactions and all succeeded |
| TransactionService.TallyOneMore | src/TingoAI.PaymentGateway.Application/Services/TransactionService.cs:52-59 | visiting one more currency adds exactly its entry to each dictionary |
| TransactionService.TallyByCurrency | src/TingoAI.PaymentGateway.Application/Services/TransactionService.cs:48-59 | the loop over the currencies fills the amount dictionary with the Successful totals and the count dictionary with the per-currency counts |
| TransactionService.GetTransactionSummary | src/TingoAI.PaymentGateway.Application/Services/TransactionService.cs:29-71 | the summary of the date range when both bounds are given, else of the first page of int.MaxValue rows |
| TransactionService.StatusesPartition | src/TingoAI.PaymentGateway.Domain/Entities/PaymentStatus.cs:3-9 | the four status counts add up to the number of transactions |
| TransactionService.SummaryCounts | src/TingoAI.PaymentGateway.Application/Services/TransactionService.cs:43-46 | successful + failed + pending is the total minus the Cancelled ones, hence at most the total |
| TransactionService.SuccessRateIsPercentage | src/TingoAI.PaymentGateway.Application/Services/TransactionService.cs:67 | the reported rate lies in [0, 100], is 0 iff nothing succeeded and 100 iff everything did |
| TransactionService.SummaryKeys | src/TingoAI.PaymentGateway.Application/Services/TransactionService.cs:48-59 | both dictionaries have exactly the keys NGN, USD, EUR and GBP |
| TransactionService.AmountAgreesWithRepository | src/TingoAI.PaymentGateway.Application/Services/TransactionService.cs:54-57 | each reported amount equals the repository's per-currency total of Successful rows |
| TransactionService.CurrenciesPartition | src/TingoAI.PaymentGateway.Domain/Entities/Transaction.cs:41 | for rows the constructor allowed, the four per-currency counts add up to the number of rows |
| TransactionService.CurrencyCountsAddUp | src/TingoAI.PaymentGateway.Application/Services/TransactionService.cs:58-63 | for valid rows the reported per-currency counts add up to the reported total |
| TransactionService.CountsIgnoreOrder | src/TingoAI.PaymentGateway.Application/Services/TransactionService.cs:44-46 | a count by predicate does not depend on the order of the rows |
| TransactionService.AmountIgnoresOrder | src/TingoAI.PaymentGateway.Application/Services/TransactionService.cs:54-57 | a per-currency amount does not depend on the order of the rows |
| TransactionService.TalliesIgnoreOrder | src/TingoAI.PaymentGateway.Application/Services/TransactionService.cs:52-59 | neither dictionary depends on the order of the rows |
| TransactionService.SummaryIgnoresOrder | src/TingoAI.PaymentGateway.Application/Services/TransactionService.cs:42-70 | the summary does not depend on the order of the rows |
| TransactionService.SummaryCoverage | src/TingoAI.PaymentGateway.Application/Services/TransactionService.cs:33-40 | with both bounds the summary covers exactly the rows created in the range; otherwise it covers the whole table, when the table has at most int.MaxValue rows |
| TransactionService.QueryTransactions | src/TingoAI.PaymentGateway.Application/Services/TransactionService.cs:96-116 | the items are the views of the repository's page and the total is its count; page and pageSize are echoed; a summary over the date range is attached iff it was asked for |
| TransactionService.SummaryCoversQuery | src/TingoAI.PaymentGateway.Application/Services/TransactionService.cs:98-106 | a requested summary counts at least as many transactions as the query matched, because the name filter does not narrow it |
| Utf8.Encode | src/TingoAI.PaymentGateway.API/Filters/BasicAuthFilter.cs:46 | an encoding of n characters has between n and 4·n bytes |
| Utf8.DecodeEncodeChar | src/TingoAI.PaymentGateway.API/Filters/BasicAuthFilter.cs:46 | the first character of an encoding is read back from its lead byte and length |
| Utf8.EncodeInjective | src/TingoAI.PaymentGateway.API/Filters/BasicAuthFilter.cs:46 | different strings have different encodings |
| Utf8.AsciiIsOneBytePerChar | src/TingoAI.PaymentGateway.API/Filters/BasicAuthFilter.cs:46 | ASCII text is encoded one byte per character, each byte its code |
| Base64.SextetRoundTrip | src/TingoAI.PaymentGateway.API/Filters/BasicAuthFilter.cs:46 | each of the 64 values has an alphabet character that decodes back to it |
| Base64.Encode | src/TingoAI.PaymentGateway.API/Filters/BasicAuthFilter.cs:46 | 4·⌈n/3⌉ characters, each from the alphabet or '=' |
| Base64.DecodeGroup | src/TingoAI.PaymentGateway.API/Filters/BasicAuthFilter.cs:46 | a full group of four characters decodes to its three octets, whatever follows |
| Base64.DecodeEncode | src/TingoAI.PaymentGateway.API/Filters/BasicAuthFilter.cs:46 | decoding an encoding gives back the octets |
| Base64.EncodeInjective | src/TingoAI.PaymentGateway.API/Filters/BasicAuthFilter.cs:46 | different octet sequences have different encodings |
| Base64.RfcTestVectors | src/TingoAI.PaymentGateway.API/Filters/BasicAuthFilter.cs:46 | the test vectors of section 10 of RFC 4648 up to "foo": "", "Zg==", "Zm8=", "Zm9v" |
| BasicAuthFilter.ActionContext.constructor | src/TingoAI.PaymentGateway.API/Filters/BasicAuthFilter.cs:20-23 | a request context with the given response headers and no result |
| BasicAuthFilter.Challenge | src/TingoAI.PaymentGateway.API/Filters/BasicAuthFilter.cs:62-66 | sets `WWW-Authenticate: Basic realm="TingoAI"` (replacing any earlier value) and the 401 result, and changes no other header |
| BasicAuthFilter.OnActionExecution | src/TingoAI.PaymentGateway.API/Filters/BasicAuthFilter.cs:20-60 | next is called iff the request is authorised, and then the context is untouched; otherwise it is challenged |
| BasicAuthFilter.MissingHeaderRefused | src/TingoAI.PaymentGateway.API/Filters/BasicAuthFilter.cs:25-36 | a request without an Authorization value is refused |
| BasicAuthFilter.EmptyExpectedTokenRefusesAll | src/TingoAI.PaymentGateway.API/Filters/BasicAuthFilter.cs:53-57 | with a null or empty expected token every request is refused, even one presenting an empty token |
| BasicAuthFilter.OtherSchemeRefused | src/TingoAI.PaymentGateway.API/Filters/BasicAuthFilter.cs:32 | a header not starting with "Basic " in any case is refused |
| BasicAuthFilter.CredentialTokenShape | src/TingoAI.PaymentGateway.API/Filters/BasicAuthFilter.cs:44-47 | the token built from a username and a password has at least four characters, each from the Base64 alphabet or '=' |
| BasicAuthFilter.CredentialHeaderAccepted | src/TingoAI.PaymentGateway.API/Filters/BasicAuthFilter.cs:31-59 | "Basic " in any case followed by the credential token is let through |
| BasicAuthFilter.CredentialTokenDeterminesCredentials | src/TingoAI.PaymentGateway.API/Filters/BasicAuthFilter.cs:46-53 | equal credential tokens come only from equal "user:pass" texts |
| BasicAuthFilter.PaddedConfiguredTokenUnreachable | src/TingoAI.PaymentGateway.API/Filters/BasicAuthFilter.cs:38-53 | a configured token with white space at either end can never be presented, since the presented token is trimmed |
| BasicAuthFilter.TokenUsedWithoutCredentials | src/TingoAI.PaymentGateway.API/Filters/BasicAuthFilter.cs:44-51 | without a non-empty username and a password the configured token is the one expected |
| Sequences.FilterMultiset | src/TingoAI.PaymentGateway.Infrastructure/Repositories/TransactionRepository.cs:52 | `Where` keeps every copy of a selected element and no copy of any other |
| Sequences.FilterFilter | src/TingoAI.PaymentGateway.Infrastructure/Repositories/TransactionRepository.cs:70-79 | two successive `Where` clauses select what their conjunction selects |
| Sequences.SumPermutation | src/TingoAI.PaymentGateway.Application/Services/TransactionService.cs:55-57 | a `Sum` does not depend on the order of its terms |
| Sequences.SortDesc | src/TingoAI.PaymentGateway.Infrastructure/Repositories/TransactionRepository.cs:84 | `OrderByDescending` yields a sorted permutation |
| Sequences.Page | src/TingoAI.PaymentGateway.Infrastructure/Repositories/TransactionRepository.cs:85-86 | `Skip((page-1)*pageSize).Take(pageSize)`: at most pageSize elements, each the element at its offset after the skipped ones; empty past the end |
| Sequences.EveryElementOnItsPage | src/TingoAI.PaymentGateway.Infrastructure/Repositories/TransactionRepository.cs:43-44 | the element at position i is on page i / pageSize + 1, at offset i mod pageSize |
| Strings.Trim | src/TingoAI.PaymentGateway.Infrastructure/Repositories/TransactionRepository.cs:77 | the trimmed text is empty iff the input is all white space, and otherwise starts and ends with a non-white-space character |
| Strings.TrimIsSlice | src/TingoAI.PaymentGateway.API/Filters/BasicAuthFilter.cs:38 | `Trim` keeps a slice of the input and removes only white space |
| Strings.HexRoundTrip | src/TingoAI.PaymentGateway.Application/Services/PaymentService.cs:26 | fixed-width hexadecimal formatting of a number that fits loses nothing |

## Left out

- Async/await, cancellation tokens, logging, and concurrent calls. The code has no locking to verify; each call is modelled as one atomic sequence.
- The HTTP transport, `JsonDocument.Parse`, `JsonSerializer.Deserialize` and `ReadFromJsonAsync`. They are parameters: each gives a parsed value or fails.
- `Guid.NewGuid`, `DateTime.UtcNow`, `Guid.TryParse` and `DateTime.TryParse`. They are parameters. A GUID is the 128-bit number its "N" format spells out, and a `DateTime` is a tick count.
- Culture-sensitive `ToUpper`/`ToLower`. They are modelled as the ASCII case mapping.
- `decimal` arithmetic (rounding, the 28-digit range, overflow in `Sum`). Amounts, sums and the success rate are reals.
- JSON objects with duplicate property names. An object is a map, so `TryGetProperty`'s choice among duplicates is not modelled.
- Strings holding lone UTF-16 surrogates. Dafny characters are Unicode scalar values, so `Encoding.UTF8`'s replacement of lone surrogates is not modelled.
- The order among rows with equal `CreatedAt`. The database orders them as it pleases, while the model keeps table order. `FirstOrDefault` without an ordering likewise picks "some" matching row, and the model picks the first in table order.
- Database read failures. The lookups and queries always answer.
- `request.MerchantTransactionReference = merchantRef`. This write back to the caller's request object is not modelled, because nothing in the core reads it afterwards. Only the reference used is.
- `TransactionRepository.Query`: requires `page >= 1` and `pageSize >= 1`. The controller normalises only `pageSize <= 0` to 10 (src/TingoAI.PaymentGateway.API/Controllers/TransactionController.cs:52). A non-positive page and the 32-bit `int` overflow of `(page - 1) * pageSize` are therefore not modelled.
- `TransactionRepository.GetAll`: requires `page >= 1` and `pageSize >= 1`, for the same reason.
- `TransactionService.QueryTransactions`: requires `page >= 1` and `pageSize >= 1`, for the same reason.
- `TransactionService.GetAllTransactions`: requires `page >= 1` and `pageSize >= 1`, for the same reason.
- `TransactionService.SummaryCoverage`: states whole-table coverage only for tables of at most `int.MaxValue` rows. The summary reads one page of `int.MaxValue` rows, so a larger table is summarised in part. The model computes exactly that page.
- The `data` object of a payment-link answer when it is not an object. It is ignored, exactly as the client ignores it. The parsed value of the strict deserialiser's own `Data` is taken as given.
- `WebhookDecryptionService`, Redis caching, rate limiting, the controllers, `Program.cs` and the middleware. These are framework wiring and library calls outside the payment core. `ProcessWebhookAsync`, the only core entry point near them, is a stub and is modelled as one.
- The entity's private parameterless constructor used by Entity Framework. It is modelled as `Materialise`, which rebuilds an entity from a stored row.
- `GlobalPayClient.QueryPathsDistinct`: describes only the relative path strings. The reference is interpolated without escaping (GlobalPayClient.cs:145 and :166), and `HttpClient` resolves the path against its base address. That URI resolution is not modelled, so a reference containing `../` may reach the other endpoint although the two strings differ.
- The response headers of `BasicAuthFilter.ActionContext` are a case-sensitive map. ASP.NET's header dictionary ignores case, so an existing `www-authenticate` entry in another casing would be replaced by .NET. `BasicAuthFilter.Challenge` keeps it beside the new one.
- `TransactionRepository.FitsSchema` models the varchar columns but not the `numeric(18,2)` type of Amount (src/TingoAI.PaymentGateway.Infrastructure/Persistence/ApplicationDbContext.cs:31-33). The database rounds a stored amount to cents and rejects amounts of 10^16 or more. The model stores the amount unrounded and commits any amount, so a record it calls valid can differ from the stored row in this way.
- Processor calls that throw. The payment-link call and the verify query are total functions, each giving a parsed answer or none, so the catch blocks around them (src/TingoAI.PaymentGateway.Application/Services/PaymentService.cs:92-98 and :146-150) are reached only through construction or the store. This matches `GlobalPayClient`, whose calls catch every exception themselves (src/TingoAI.PaymentGateway.Infrastructure/ExternalServices/GlobalPayClient.cs:127-138, :156-158 and :177-179).
