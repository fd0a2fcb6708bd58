/** Payment orchestration: starting a payment (merchant reference, entity
    construction, payment-link request, persistence) and verifying one
    (local resolution, processor query, reconciliation). The clock readings,
    the GUIDs, `Guid.TryParse`, `DateTime.TryParse` and the processor are
    parameters. */
module PaymentService {
  import opened Wrappers
  import opened Strings
  import opened TransactionEntity
  import opened TransactionObject
  import opened TransactionRepository
  import opened GlobalPayClient
  import opened Dtos

  /** `PaymentRequest`; a null string is None. */
  datatype PaymentRequest = PaymentRequest(
    amount: real,
    currency: Option<string>,
    customerFirstName: Option<string>,
    customerLastName: Option<string>,
    customerEmail: Option<string>,
    customerPhone: Option<string>,
    customerAddress: Option<string>,
    merchantTransactionReference: Option<string>)

  datatype PaymentResponse = PaymentResponse(
    success: bool,
    message: string,
    checkoutUrl: Option<string>,
    transactionReference: Option<string>,
    accessCode: Option<string>,
    transactionId: Option<Guid>)

  function FailureResponse(message: string): PaymentResponse {
    PaymentResponse(false, message, None, None, None, None)
  }

  const LinkGenerated := "Payment link generated successfully"
  const LinkFailed := "Failed to generate payment link"

  // ---- InitiatePaymentAsync ----

  /** `$"TINGO-{Guid.NewGuid():N}"`. */
  function MerchantReferenceFor(g: Guid): (r: string)
    ensures |r| == 38 && r[..6] == "TINGO-"
    ensures forall i :: 6 <= i < 38 ==> IsHexChar(r[i])
  {
    "TINGO-" + HexDigits(g, 32)
  }

  /** Distinct GUIDs give distinct merchant references. */
  lemma MerchantReferenceInjective(g: Guid, h: Guid)
    requires MerchantReferenceFor(g) == MerchantReferenceFor(h)
    ensures g == h
  {
    assert MerchantReferenceFor(g)[6..] == HexDigits(g, 32);
    assert MerchantReferenceFor(h)[6..] == HexDigits(h, 32);
    Pow16Of32();
    HexDigitsInjective(g, h, 32);
  }

  /** The two GUIDs and three clock readings one initiation consumes, and
      whether the database rejects the insert for reasons of its own. */
  datatype InitiationEnv = InitiationEnv(
    referenceGuid: Guid, transactionId: Guid, createdAt: DateTime, updatedAt: DateTime,
    checkoutAt: DateTime, addFails: bool)

  /** The request sent to the processor: the caller's raw currency and
      customer fields, and an empty address for a null one. */
  function LinkRequestFor(request: PaymentRequest, merchantRef: string): (r: PaymentLinkRequest)
    requires request.currency.Some? && request.customerFirstName.Some? && request.customerLastName.Some?
    requires request.customerEmail.Some? && request.customerPhone.Some?
    ensures r.merchantTransactionReference == merchantRef && r.amount == request.amount
    ensures r.currency == request.currency.value && r.address == request.customerAddress.GetOr("")
  {
    PaymentLinkRequest(request.amount, merchantRef, request.customerLastName.value, request.customerFirstName.value,
                       request.currency.value, request.customerPhone.value, request.customerAddress.GetOr(""),
                       request.customerEmail.value)
  }

  /** The processor accepted the request: Data, IsSuccessful, and a checkout URL that is not empty. */
  predicate Accepted(data: Option<GlobalPayData>) {
    data.Some? && data.value.isSuccessful && !IsNullOrEmpty(data.value.checkoutUrl)
  }

  function ConstructFor(request: PaymentRequest, env: InitiationEnv): Result<TransactionRecord, ArgumentError> {
    Construct(env.transactionId, Some(MerchantReferenceFor(env.referenceGuid)), request.amount, request.currency,
              request.customerFirstName, request.customerLastName, request.customerEmail, request.customerPhone,
              request.customerAddress, env.createdAt, env.updatedAt)
  }

  /** One initiation: the response, the request sent to the processor (if
      any), and the record handed to `AddAsync` (if any). */
  datatype Initiation = Initiation(response: PaymentResponse, sent: Option<PaymentLinkRequest>, toStore: Option<TransactionRecord>)

  function InitiationOutcome(request: PaymentRequest, env: InitiationEnv,
                             gateway: PaymentLinkRequest -> Option<GlobalPayData>): Initiation {
    var merchantRef := MerchantReferenceFor(env.referenceGuid);
    match ConstructFor(request, env)
    case Failure(e) => Initiation(FailureResponse("Error initiating payment: " + Message(e)), None, None)
    case Success(t) =>
      var sent := LinkRequestFor(request, merchantRef);
      var data := gateway(sent);
      if Accepted(data) then
        var d := data.value;
        var stored := WithCheckoutDetails(t, d.checkoutUrl.value, d.accessCode.GetOr(""), d.reference.GetOr(""), env.checkoutAt);
        Initiation(PaymentResponse(true, LinkGenerated, d.checkoutUrl, Some(merchantRef), d.accessCode, Some(t.id)),
                   Some(sent), Some(stored))
      else
        Initiation(FailureResponse(if data.Some? && data.value.error.Some? then data.value.error.value else LinkFailed),
                   Some(sent), None)
  }

  /** `InitiatePaymentAsync`. The record is offered to the store once, on
      acceptance only, and the response does not depend on whether the
      store committed it. */
  method InitiatePayment(store: TransactionStore, request: PaymentRequest, env: InitiationEnv,
                         gateway: PaymentLinkRequest -> Option<GlobalPayData>) returns (response: PaymentResponse)
    requires store.Valid()
    modifies store
    ensures store.Valid()
    ensures response == InitiationOutcome(request, env, gateway).response
    ensures var stored := InitiationOutcome(request, env, gateway).toStore;
            && store.writes == old(store.writes) + (if stored.Some? then [Added(stored.value)] else [])
            && store.rows == if stored.Some? && !env.addFails && CanInsert(old(store.rows), stored.value)
                             then old(store.rows) + [AsStored(stored.value)] else old(store.rows)
  {
    var merchantRef := MerchantReferenceFor(env.referenceGuid);
    var created := Transaction.Create(env.transactionId, Some(merchantRef), request.amount, request.currency,
                                      request.customerFirstName, request.customerLastName, request.customerEmail,
                                      request.customerPhone, request.customerAddress, env.createdAt, env.updatedAt);
    if created.Failure? {
      return FailureResponse("Error initiating payment: " + Message(created.error));
    }
    var transaction := created.value;
    var sent := LinkRequestFor(request, merchantRef);
    var data := gateway(sent);
    if data.Some? && data.value.isSuccessful && !IsNullOrEmpty(data.value.checkoutUrl) {
      var d := data.value;
      var _ := transaction.SetCheckoutDetails(d.checkoutUrl, Some(d.accessCode.GetOr("")), Some(d.reference.GetOr("")), env.checkoutAt);
      var _ := store.Add(transaction.Record(), env.addFails);
      return PaymentResponse(true, LinkGenerated, d.checkoutUrl, Some(merchantRef), d.accessCode, Some(transaction.id));
    }
    var message := if data.Some? && data.value.error.Some? then data.value.error.value else LinkFailed;
    return FailureResponse(message);
  }

  /** The merchant reference in a request is ignored: a fresh one is always used. */
  lemma RequestReferenceIgnored(request: PaymentRequest, env: InitiationEnv,
                                gateway: PaymentLinkRequest -> Option<GlobalPayData>, supplied: Option<string>)
    ensures InitiationOutcome(request.(merchantTransactionReference := supplied), env, gateway)
            == InitiationOutcome(request, env, gateway)
    ensures var o := InitiationOutcome(request, env, gateway);
            o.response.success ==> o.response.transactionReference == Some(MerchantReferenceFor(env.referenceGuid))
  {
  }

  /** When the entity cannot be built, the processor is not called, nothing
      is stored, and the exception message is reported. */
  lemma ConstructionFailureStopsEarly(request: PaymentRequest, env: InitiationEnv,
                                      gateway: PaymentLinkRequest -> Option<GlobalPayData>)
    requires ConstructFor(request, env).Failure?
    ensures var o := InitiationOutcome(request, env, gateway);
            && o.sent.None? && o.toStore.None? && !o.response.success
            && o.response.message == "Error initiating payment: " + Message(ConstructFor(request, env).error)
  {
  }

  /** A non-positive amount is one such failure; it is never clamped. */
  lemma NonPositiveAmountRejected(request: PaymentRequest, env: InitiationEnv,
                                  gateway: PaymentLinkRequest -> Option<GlobalPayData>)
    requires request.amount <= 0.0
    ensures InitiationOutcome(request, env, gateway).response
            == FailureResponse("Error initiating payment: " + Message(AmountError))
  {
    assert ConstructFor(request, env) == Failure(AmountError);
  }

  /** Initiation succeeds exactly when the entity is valid and the processor accepts. */
  lemma InitiationSucceedsIff(request: PaymentRequest, env: InitiationEnv,
                              gateway: PaymentLinkRequest -> Option<GlobalPayData>)
    ensures var o := InitiationOutcome(request, env, gateway);
            o.response.success
            <==> (ConstructFor(request, env).Success?
                  && Accepted(gateway(LinkRequestFor(request, MerchantReferenceFor(env.referenceGuid)))))
    ensures var o := InitiationOutcome(request, env, gateway);
            o.toStore.Some? <==> o.response.success
  {
  }

  /** On acceptance the stored record is the new Pending transaction with the
      processor's checkout details, a missing access code or reference
      becoming "", and the response carries what the caller needs. */
  lemma AcceptedInitiation(request: PaymentRequest, env: InitiationEnv,
                           gateway: PaymentLinkRequest -> Option<GlobalPayData>)
    requires InitiationOutcome(request, env, gateway).response.success
    ensures var o := InitiationOutcome(request, env, gateway);
            var d := gateway(o.sent.value).value;
            var t := o.toStore.value;
            && ValidRecord(t) && t.status == Pending
            && t.merchantReference == MerchantReferenceFor(env.referenceGuid) && t.id == env.transactionId
            && t.checkoutUrl == d.checkoutUrl && t.accessCode == Some(d.accessCode.GetOr(""))
            && t.globalPayReference == Some(d.reference.GetOr(""))
            && o.response.checkoutUrl == d.checkoutUrl && o.response.accessCode == d.accessCode
            && o.response.transactionId == Some(env.transactionId) && o.response.message == LinkGenerated
  {
  }

  /** A rejected request stores nothing and reports the processor's error, if any. */
  lemma RejectedInitiation(request: PaymentRequest, env: InitiationEnv,
                           gateway: PaymentLinkRequest -> Option<GlobalPayData>)
    requires ConstructFor(request, env).Success?
    requires !Accepted(gateway(LinkRequestFor(request, MerchantReferenceFor(env.referenceGuid))))
    ensures var o := InitiationOutcome(request, env, gateway);
            var data := gateway(o.sent.value);
            && o.toStore.None? && !o.response.success
            && o.response.message == (if data.Some? && data.value.error.Some? then data.value.error.value else LinkFailed)
  {
  }

  /** The currency is stored upper-cased but sent to the processor as given. */
  lemma CurrencySentAsGiven(request: PaymentRequest, env: InitiationEnv,
                            gateway: PaymentLinkRequest -> Option<GlobalPayData>)
    requires InitiationOutcome(request, env, gateway).response.success
    ensures var o := InitiationOutcome(request, env, gateway);
            o.sent.value.currency == request.currency.value && o.toStore.value.currency == ToUpper(request.currency.value)
  {
  }

  /** With the GlobalPay client as processor there is always Data; a failed
      call therefore reports the client's error text. */
  lemma ClientFailureReported(request: PaymentRequest, env: InitiationEnv,
                              gateway: PaymentLinkRequest -> Option<GlobalPayData>, reply: HttpReply,
                              parse: string -> Option<JVal>, deserialize: string -> Option<GlobalPayData>)
    requires ConstructFor(request, env).Success? && reply.TransportFailure?
    requires gateway(LinkRequestFor(request, MerchantReferenceFor(env.referenceGuid)))
             == Some(PaymentLinkOutcome(reply, parse, deserialize))
    ensures InitiationOutcome(request, env, gateway).response == FailureResponse(reply.message)
  {
  }

  // ---- VerifyTransactionAsync ----

  /** `Guid.TryParse`, the processor's merchant-reference query,
      `DateTime.TryParse`, the clock, and whether the database rejects the
      update for reasons of its own. */
  datatype VerifyEnv = VerifyEnv(
    parseGuid: string -> Option<Guid>,
    query: string -> Option<TransactionData>,
    parseDate: string -> Option<DateTime>,
    now: DateTime,
    updateFails: bool)

  /** The local transaction a reference denotes: by Id when it parses as a
      GUID and such a row exists, else by merchant reference, else by
      processor reference. */
  function Resolve(rows: seq<TransactionRecord>, reference: string, parseGuid: string -> Option<Guid>): (r: Option<TransactionRecord>)
    ensures r.Some? ==> r.value in rows
    ensures r.None? <==>
      && (parseGuid(reference).None? || GetById(rows, parseGuid(reference).value).None?)
      && GetByMerchantReference(rows, reference).None? && GetByGlobalPayReference(rows, reference).None?
  {
    var byId := if parseGuid(reference).Some? then GetById(rows, parseGuid(reference).value) else None;
    if byId.Some? then byId
    else GetByMerchantReference(rows, reference).Or(GetByGlobalPayReference(rows, reference))
  }

  /** The processor's status text, lower-cased (ASCII), as a status. */
  function MapStatus(status: Option<string>): (s: PaymentStatus)
    ensures s != Cancelled
    ensures s == Successful <==> status.Some? && ToLower(status.value) == "successful"
    ensures s == Failed <==> status.Some? && ToLower(status.value) == "failed"
  {
    if status.None? then Pending
    else
      var lower := ToLower(status.value);
      if lower == "successful" then Successful else if lower == "failed" then Failed else Pending
  }

  /** A status name maps back to its status, except that Cancelled becomes Pending. */
  lemma MapStatusOfNames(s: PaymentStatus)
    ensures MapStatus(Some(StatusName(s))) == if s == Cancelled then Pending else s
  {
    assert ToLower("Successful") == "successful";
    assert ToLower("Failed") == "failed";
  }

  /** `DateTime.TryParse` of the processor's payment date: a missing date
      never parses, and a present one is read by `parseDate`. */
  function ParsePaymentDate(date: Option<string>, parseDate: string -> Option<DateTime>): (r: Option<DateTime>)
    ensures date.None? ==> r.None?
    ensures date.Some? ==> r == parseDate(date.value)
  {
    if date.None? then None else parseDate(date.value)
  }

  /** The transaction after reconciliation with the processor's data. */
  function Reconciled(t: TransactionRecord, data: TransactionData, parseDate: string -> Option<DateTime>,
                      now: DateTime): (r: TransactionRecord)
    ensures r.status == MapStatus(data.paymentStatus) && r.paymentDate == ParsePaymentDate(data.paymentDate, parseDate)
    ensures r.responseCode == data.responseCode && r.responseMessage == data.successMessage
    ensures r.paymentChannel == data.transactionChannel && r.updatedAt == now
    ensures IdentityOf(r) == IdentityOf(t) && r.checkoutUrl == t.checkoutUrl && r.accessCode == t.accessCode
  {
    WithPaymentStatus(t, MapStatus(data.paymentStatus), data.responseCode, data.successMessage,
                      ParsePaymentDate(data.paymentDate, parseDate), data.transactionChannel, now)
  }

  /** One verification: the reference sent to the processor, the record
      handed to `UpdateAsync` (if any), and the result. */
  datatype Verification = Verification(queried: string, toUpdate: Option<TransactionRecord>, result: Option<TransactionDto>)

  function VerifyOutcome(rows: seq<TransactionRecord>, reference: string, env: VerifyEnv): Verification {
    var t := Resolve(rows, reference, env.parseGuid);
    var queried := if t.Some? then t.value.merchantReference else reference;
    var data := env.query(queried);
    if t.None? then Verification(queried, None, None)
    else if data.None? then Verification(queried, None, Some(MapToDto(t.value)))
    else
      var u := Reconciled(t.value, data.value, env.parseDate, env.now);
      var committed := !env.updateFails && CanUpdate(rows, u);
      Verification(queried, Some(u), if committed then Some(MapToDto(u)) else None)
  }

  /** `VerifyTransactionAsync`. An `UpdateAsync` that throws makes the
      whole call return null. */
  method VerifyTransaction(store: TransactionStore, reference: string, env: VerifyEnv)
    returns (result: Option<TransactionDto>, ghost queried: string)
    requires store.Valid()
    modifies store
    ensures store.Valid()
    ensures var v := VerifyOutcome(old(store.rows), reference, env);
            && result == v.result && queried == v.queried
            && store.writes == old(store.writes) + (if v.toUpdate.Some? then [Updated(v.toUpdate.value)] else [])
            && store.rows == if v.toUpdate.Some? && !env.updateFails && CanUpdate(old(store.rows), v.toUpdate.value)
                             then ReplaceById(old(store.rows), AsStored(v.toUpdate.value)) else old(store.rows)
  {
    var found := Resolve(store.rows, reference, env.parseGuid);
    var asked := if found.Some? then found.value.merchantReference else reference;
    queried := asked;
    var data := env.query(asked);
    if data.Some? && found.Some? {
      var tx := new Transaction.Materialise(found.value);
      var status := MapStatus(data.value.paymentStatus);
      tx.UpdatePaymentStatus(status, data.value.responseCode, data.value.successMessage,
                             ParsePaymentDate(data.value.paymentDate, env.parseDate), data.value.transactionChannel, env.now);
      var ok := store.Update(tx.Record(), env.updateFails);
      if !ok {
        return None, queried;
      }
      return Some(MapToDto(tx.Record())), queried;
    }
    result := if found.Some? then Some(MapToDto(found.value)) else None;
  }

  /** A reference that parses as the Id of a row resolves to that row first. */
  lemma ResolveByIdFirst(rows: seq<TransactionRecord>, reference: string, parseGuid: string -> Option<Guid>)
    requires UniqueIds(rows) && parseGuid(reference).Some?
    requires exists t :: t in rows && t.id == parseGuid(reference).value
    ensures Resolve(rows, reference, parseGuid).Some?
    ensures Resolve(rows, reference, parseGuid).value.id == parseGuid(reference).value
  {
  }

  /** Otherwise the merchant reference is tried before the processor reference. */
  lemma ResolveByMerchantReferenceNext(rows: seq<TransactionRecord>, reference: string, parseGuid: string -> Option<Guid>, t: TransactionRecord)
    requires UniqueMerchantReferences(rows) && t in rows && t.merchantReference == reference
    requires parseGuid(reference).None? || GetById(rows, parseGuid(reference).value).None?
    ensures Resolve(rows, reference, parseGuid) == Some(t)
  {
    UniqueMerchantReferenceLookup(rows, t);
  }

  /** Because a missing processor reference is stored as "", verifying the
      empty reference finds such a row (when no merchant reference is empty). */
  lemma EmptyReferenceMatchesMissingProcessorReference(rows: seq<TransactionRecord>, parseGuid: string -> Option<Guid>, t: TransactionRecord)
    requires parseGuid("").None?
    requires forall u :: u in rows ==> u.merchantReference != ""
    requires t in rows && t.globalPayReference == Some("")
    ensures Resolve(rows, "", parseGuid).Some? && Resolve(rows, "", parseGuid).value.globalPayReference == Some("")
  {
  }

  /** An accepted initiation without a processor reference stores "" for it,
      under a merchant reference that is never empty. */
  lemma MissingProcessorReferenceStoredEmpty(request: PaymentRequest, env: InitiationEnv,
                                             gateway: PaymentLinkRequest -> Option<GlobalPayData>)
    requires InitiationOutcome(request, env, gateway).response.success
    requires gateway(InitiationOutcome(request, env, gateway).sent.value).value.reference.None?
    ensures var t := InitiationOutcome(request, env, gateway).toStore.value;
            t.globalPayReference == Some("") && t.merchantReference != ""
  {
  }

  /** The processor is asked about the local merchant reference when a row
      was found, and about the raw input otherwise. */
  lemma QueriedReference(rows: seq<TransactionRecord>, reference: string, env: VerifyEnv)
    ensures var t := Resolve(rows, reference, env.parseGuid);
            VerifyOutcome(rows, reference, env).queried == if t.Some? then t.value.merchantReference else reference
  {
  }

  /** An update is attempted exactly when both a local row and processor Data exist. */
  lemma UpdateOnlyWithRowAndData(rows: seq<TransactionRecord>, reference: string, env: VerifyEnv)
    ensures var v := VerifyOutcome(rows, reference, env);
            v.toUpdate.Some? <==> Resolve(rows, reference, env.parseGuid).Some? && env.query(v.queried).Some?
  {
  }

  /** The result is null when nothing was found locally or the update failed;
      otherwise it shows the reconciled transaction (or the stored one when
      the processor had no Data). */
  lemma VerifyResult(rows: seq<TransactionRecord>, reference: string, env: VerifyEnv)
    requires TableInvariant(rows)
    ensures var v := VerifyOutcome(rows, reference, env);
            var t := Resolve(rows, reference, env.parseGuid);
            && (v.result.None? <==> t.None? || (v.toUpdate.Some? && !(!env.updateFails && CanUpdate(rows, v.toUpdate.value))))
            && (v.toUpdate.Some? && v.result.Some? ==> v.result.value == MapToDto(v.toUpdate.value))
            && (t.Some? && v.toUpdate.None? ==> v.result == Some(MapToDto(t.value)))
  {
  }

  /** A missing or unparseable payment date is stored as null. */
  lemma UnparseableDateBecomesNull(t: TransactionRecord, data: TransactionData,
                                   parseDate: string -> Option<DateTime>, now: DateTime)
    requires data.paymentDate.None? || parseDate(data.paymentDate.value).None?
    ensures Reconciled(t, data, parseDate, now).paymentDate.None?
  {
  }

  /** A processor channel text that does not fit its column (a character
      other than a space past the 50th) makes the update fail, and the
      verification then answers null although the row exists. */
  lemma OverlongChannelHidesTransaction(rows: seq<TransactionRecord>, reference: string, env: VerifyEnv)
    requires Resolve(rows, reference, env.parseGuid).Some?
    requires var v := VerifyOutcome(rows, reference, env);
             && env.query(v.queried).Some? && env.query(v.queried).value.transactionChannel.Some?
             && var c := env.query(v.queried).value.transactionChannel.value;
                exists i :: 50 <= i < |c| && c[i] != ' '
    ensures VerifyOutcome(rows, reference, env).result.None?
  {
  }

  // ---- ProcessWebhookAsync ----

  /** `ProcessWebhookAsync` is a stub: it changes nothing. */
  method ProcessWebhook(store: TransactionStore, encryptedData: string)
    ensures store.rows == old(store.rows) && store.writes == old(store.writes)
  {
  }
}
