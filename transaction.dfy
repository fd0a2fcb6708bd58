/** The Transaction entity and its PaymentStatus enumeration: validated
    construction, the two named mutators, and the value (`TransactionRecord`)
    that one row of the Transactions table holds. */
module TransactionEntity {
  import opened Wrappers
  import opened Strings

  /** A `System.Guid`, as the 128-bit number its "N" format spells out in
      32 hexadecimal digits. */
  type Guid = g: nat | g < GuidBound

  /** 2^128. */
  const GuidBound: nat := 0x1_0000_0000_0000_0000_0000_0000_0000_0000

  /** A `DateTime`, as a count of ticks. */
  type DateTime = int

  datatype PaymentStatus = Pending | Successful | Failed | Cancelled

  /** `PaymentStatus.ToString()`: the member's name. */
  function StatusName(s: PaymentStatus): string {
    match s
    case Pending => "Pending"
    case Successful => "Successful"
    case Failed => "Failed"
    case Cancelled => "Cancelled"
  }

  const ValidCurrencies: seq<string> := ["NGN", "USD", "EUR", "GBP"]

  /** The two exceptions the constructor and `SetCheckoutDetails` throw. */
  datatype ArgumentError =
    | ArgumentNull(paramName: string)
    | InvalidArgument(text: string, paramName: string)

  /** `Exception.Message` of those exceptions: .NET appends the parameter name. */
  function Message(e: ArgumentError): string {
    match e
    case ArgumentNull(p) => "Value cannot be null. (Parameter '" + p + "')"
    case InvalidArgument(t, p) => t + " (Parameter '" + p + "')"
  }

  const AmountError := InvalidArgument("Amount must be greater than zero", "amount")
  const CurrencyError := InvalidArgument("Currency must be one of: NGN, USD, EUR, GBP", "currency")

  predicate EqualsIgnoreCase(a: string, b: string) {
    ToUpper(a) == ToUpper(b)
  }

  /** `ValidateCurrency`: a currency is accepted exactly when its upper-case
      form is one of the four codes (the blank test is subsumed by that), and
      the upper-case form is what is kept. */
  function ValidateCurrency(currency: Option<string>): (r: Result<string, ArgumentError>)
    ensures r.Success? <==> currency.Some? && ToUpper(currency.value) in ValidCurrencies
    ensures r.Success? ==> r.value in ValidCurrencies && EqualsIgnoreCase(r.value, currency.value)
    ensures r.Failure? ==> r.error == CurrencyError
  {
    if IsNullOrWhiteSpace(currency) then
      assert currency.Some? ==> ToUpper(currency.value) !in ValidCurrencies by {
        if currency.Some? && |currency.value| > 0 {
          assert ToUpper(currency.value)[0] == ToUpperChar(currency.value[0]);
        }
      }
      Failure(CurrencyError)
    else if ToUpper(currency.value) !in ValidCurrencies then
      Failure(CurrencyError)
    else
      Success(ToUpper(currency.value))
  }

  lemma UpperCaseCodesAreFixed()
    ensures forall k :: k in ValidCurrencies ==> ToUpper(k) == k
  {
    assert ToUpper("NGN") == "NGN";
    assert ToUpper("USD") == "USD";
    assert ToUpper("EUR") == "EUR";
    assert ToUpper("GBP") == "GBP";
  }

  /** A currency is accepted exactly when it equals one of the four codes
      ignoring case. */
  lemma CurrencyAcceptedIgnoringCase(c: string)
    ensures ValidateCurrency(Some(c)).Success? <==> exists k :: k in ValidCurrencies && EqualsIgnoreCase(c, k)
  {
    UpperCaseCodesAreFixed();
    if ValidateCurrency(Some(c)).Success? {
      var k := ToUpper(c);
      assert k in ValidCurrencies && EqualsIgnoreCase(c, k);
    }
  }

  lemma LowerCaseUsdIsStoredUpperCase()
    ensures ValidateCurrency(Some("usd")) == Success("USD")
  {
    assert ToUpper("usd") == "USD";
  }

  /** The value of one Transactions row: every property of the entity. */
  datatype TransactionRecord = TransactionRecord(
    id: Guid,
    merchantReference: string,
    globalPayReference: Option<string>,
    amount: real,
    currency: string,
    firstName: string,
    lastName: string,
    email: string,
    phone: string,
    address: Option<string>,
    status: PaymentStatus,
    checkoutUrl: Option<string>,
    accessCode: Option<string>,
    paymentDate: Option<DateTime>,
    paymentChannel: Option<string>,
    responseCode: Option<string>,
    responseMessage: Option<string>,
    createdAt: DateTime,
    updatedAt: DateTime)

  /** What every transaction the constructor lets through satisfies. */
  predicate ValidRecord(r: TransactionRecord) {
    r.amount > 0.0 && r.currency in ValidCurrencies
  }

  /** The properties only the constructor writes. */
  datatype Identity = Identity(
    id: Guid, merchantReference: string, amount: real, currency: string,
    firstName: string, lastName: string, email: string, phone: string,
    address: Option<string>, createdAt: DateTime)

  function IdentityOf(r: TransactionRecord): Identity {
    Identity(r.id, r.merchantReference, r.amount, r.currency, r.firstName, r.lastName,
             r.email, r.phone, r.address, r.createdAt)
  }

  /** The public constructor, as a value: the first check that fails (in the
      order the constructor makes them) throws; otherwise the new, Pending
      transaction. `createdAt` and `updatedAt` are the two clock readings. */
  function Construct(
    id: Guid, merchantReference: Option<string>, amount: real, currency: Option<string>,
    firstName: Option<string>, lastName: Option<string>, email: Option<string>, phone: Option<string>,
    address: Option<string>, createdAt: DateTime, updatedAt: DateTime): (r: Result<TransactionRecord, ArgumentError>)
    ensures r.Success? <==>
      && merchantReference.Some? && amount > 0.0 && currency.Some? && ToUpper(currency.value) in ValidCurrencies
      && firstName.Some? && lastName.Some? && email.Some? && phone.Some?
    ensures r.Success? ==> ValidRecord(r.value)
    ensures r.Success? ==>
      && IdentityOf(r.value) == Identity(id, merchantReference.value, amount, ToUpper(currency.value),
                                        firstName.value, lastName.value, email.value, phone.value, address, createdAt)
      && r.value.status == Pending && r.value.updatedAt == updatedAt
      && r.value.globalPayReference == None && r.value.checkoutUrl == None && r.value.accessCode == None
      && r.value.paymentDate == None && r.value.paymentChannel == None
      && r.value.responseCode == None && r.value.responseMessage == None
    ensures merchantReference.None? ==> r == Failure(ArgumentNull("merchantTransactionReference"))
    ensures merchantReference.Some? && amount <= 0.0 ==> r == Failure(AmountError)
    ensures merchantReference.Some? && amount > 0.0 && ValidateCurrency(currency).Failure? ==> r == Failure(CurrencyError)
    ensures merchantReference.Some? && amount > 0.0 && ValidateCurrency(currency).Success? ==>
      && (firstName.None? ==> r == Failure(ArgumentNull("customerFirstName")))
      && (firstName.Some? && lastName.None? ==> r == Failure(ArgumentNull("customerLastName")))
      && (firstName.Some? && lastName.Some? && email.None? ==> r == Failure(ArgumentNull("customerEmail")))
      && (firstName.Some? && lastName.Some? && email.Some? && phone.None? ==> r == Failure(ArgumentNull("customerPhone")))
  {
    if merchantReference.None? then Failure(ArgumentNull("merchantTransactionReference"))
    else if amount <= 0.0 then Failure(AmountError)
    else match ValidateCurrency(currency)
      case Failure(e) => Failure(e)
      case Success(code) =>
        if firstName.None? then Failure(ArgumentNull("customerFirstName"))
        else if lastName.None? then Failure(ArgumentNull("customerLastName"))
        else if email.None? then Failure(ArgumentNull("customerEmail"))
        else if phone.None? then Failure(ArgumentNull("customerPhone"))
        else Success(TransactionRecord(
          id, merchantReference.value, None, amount, code,
          firstName.value, lastName.value, email.value, phone.value, address,
          Pending, None, None, None, None, None, None, createdAt, updatedAt))
  }

  /** Empty customer strings are not rejected: only null ones are. */
  lemma EmptyCustomerFieldsAccepted(id: Guid, mref: string, amount: real, createdAt: DateTime, updatedAt: DateTime)
    requires amount > 0.0
    ensures Construct(id, Some(mref), amount, Some("NGN"), Some(""), Some(""), Some(""), Some(""), None, createdAt, updatedAt).Success?
  {
    assert ToUpper("NGN") == "NGN";
  }

  /** `SetCheckoutDetails` with non-null arguments, as a value. */
  function WithCheckoutDetails(r: TransactionRecord, checkoutUrl: string, accessCode: string,
                               globalPayReference: string, now: DateTime): (r': TransactionRecord)
    ensures r'.checkoutUrl == Some(checkoutUrl) && r'.accessCode == Some(accessCode)
    ensures r'.globalPayReference == Some(globalPayReference) && r'.updatedAt == now
    ensures IdentityOf(r') == IdentityOf(r) && r'.status == r.status
    ensures r'.responseCode == r.responseCode && r'.responseMessage == r.responseMessage
    ensures r'.paymentDate == r.paymentDate && r'.paymentChannel == r.paymentChannel
    ensures ValidRecord(r) ==> ValidRecord(r')
  {
    r.(checkoutUrl := Some(checkoutUrl), accessCode := Some(accessCode),
       globalPayReference := Some(globalPayReference), updatedAt := now)
  }

  /** Nothing stops a second `SetCheckoutDetails`: the later one wins. */
  lemma CheckoutDetailsOverwritten(r: TransactionRecord, u1: string, a1: string, g1: string, t1: DateTime,
                                   u2: string, a2: string, g2: string, t2: DateTime)
    ensures WithCheckoutDetails(WithCheckoutDetails(r, u1, a1, g1, t1), u2, a2, g2, t2)
         == WithCheckoutDetails(r, u2, a2, g2, t2)
  {
  }

  /** `UpdatePaymentStatus`, as a value: a last-write-wins overwrite of the
      status and of the four reconciliation properties. */
  function WithPaymentStatus(r: TransactionRecord, status: PaymentStatus, responseCode: Option<string>,
                             responseMessage: Option<string>, paymentDate: Option<DateTime>,
                             paymentChannel: Option<string>, now: DateTime): (r': TransactionRecord)
    ensures r'.status == status && r'.responseCode == responseCode && r'.responseMessage == responseMessage
    ensures r'.paymentDate == paymentDate && r'.paymentChannel == paymentChannel && r'.updatedAt == now
    ensures IdentityOf(r') == IdentityOf(r)
    ensures r'.checkoutUrl == r.checkoutUrl && r'.accessCode == r.accessCode
    ensures r'.globalPayReference == r.globalPayReference
    ensures ValidRecord(r) ==> ValidRecord(r')
  {
    r.(status := status, responseCode := responseCode, responseMessage := responseMessage,
       paymentDate := paymentDate, paymentChannel := paymentChannel, updatedAt := now)
  }

  /** Applying the same status update twice is applying it once (at the later time). */
  lemma PaymentStatusUpdateIdempotent(r: TransactionRecord, s: PaymentStatus, code: Option<string>,
                                      msg: Option<string>, date: Option<DateTime>, channel: Option<string>,
                                      t1: DateTime, t2: DateTime)
    ensures WithPaymentStatus(WithPaymentStatus(r, s, code, msg, date, channel, t1), s, code, msg, date, channel, t2)
         == WithPaymentStatus(r, s, code, msg, date, channel, t2)
  {
  }

  /** No transition is forbidden: a Successful transaction can be put back to Pending. */
  lemma SuccessfulCanReturnToPending(r: TransactionRecord, now: DateTime)
    requires r.status == Successful
    ensures WithPaymentStatus(r, Pending, None, None, None, None, now).status == Pending
  {
  }
}

/** The entity as an object: its fields, and the constructor and the two
    mutators that write them. Each method is specified by the value-level
    definition in `TransactionEntity`. */
module TransactionObject {
  import opened Wrappers
  import opened TransactionEntity

  /** The entity. Its properties have private setters: apart from the
      constructors, only `SetCheckoutDetails` and `UpdatePaymentStatus` write
      them, so the ones neither mutator touches are `const` here. */
  class Transaction {
    const id: Guid
    const merchantReference: string
    var globalPayReference: Option<string>
    const amount: real
    const currency: string
    const firstName: string
    const lastName: string
    const email: string
    const phone: string
    const address: Option<string>
    var status: PaymentStatus
    var checkoutUrl: Option<string>
    var accessCode: Option<string>
    var paymentDate: Option<DateTime>
    var paymentChannel: Option<string>
    var responseCode: Option<string>
    var responseMessage: Option<string>
    const createdAt: DateTime
    var updatedAt: DateTime

    /** The entity's current value. */
    function Record(): TransactionRecord
      reads this
    {
      TransactionRecord(id, merchantReference, globalPayReference, amount, currency, firstName, lastName,
                        email, phone, address, status, checkoutUrl, accessCode, paymentDate, paymentChannel,
                        responseCode, responseMessage, createdAt, updatedAt)
    }

    /** A detached copy of a stored row, as an `AsNoTracking` query materialises it. */
    constructor Materialise(r: TransactionRecord)
      ensures Record() == r
    {
      id, merchantReference, globalPayReference, amount, currency := r.id, r.merchantReference, r.globalPayReference, r.amount, r.currency;
      firstName, lastName, email, phone, address := r.firstName, r.lastName, r.email, r.phone, r.address;
      status, checkoutUrl, accessCode, paymentDate, paymentChannel := r.status, r.checkoutUrl, r.accessCode, r.paymentDate, r.paymentChannel;
      responseCode, responseMessage, createdAt, updatedAt := r.responseCode, r.responseMessage, r.createdAt, r.updatedAt;
    }

    /** The public constructor: the arguments are checked in the order the
        properties are assigned, and the first invalid one throws. */
    static method Create(
      id: Guid, merchantReference: Option<string>, amount: real, currency: Option<string>,
      firstName: Option<string>, lastName: Option<string>, email: Option<string>, phone: Option<string>,
      address: Option<string>, createdAt: DateTime, updatedAt: DateTime) returns (r: Result<Transaction, ArgumentError>)
      ensures r.Failure? ==>
        Construct(id, merchantReference, amount, currency, firstName, lastName, email, phone, address, createdAt, updatedAt)
        == Failure(r.error)
      ensures r.Success? ==> fresh(r.value)
      ensures r.Success? ==>
        Construct(id, merchantReference, amount, currency, firstName, lastName, email, phone, address, createdAt, updatedAt)
        == Success(r.value.Record())
    {
      if merchantReference.None? { return Failure(ArgumentNull("merchantTransactionReference")); }
      if amount <= 0.0 { return Failure(AmountError); }
      var code := ValidateCurrency(currency);
      if code.Failure? { return Failure(code.error); }
      if firstName.None? { return Failure(ArgumentNull("customerFirstName")); }
      if lastName.None? { return Failure(ArgumentNull("customerLastName")); }
      if email.None? { return Failure(ArgumentNull("customerEmail")); }
      if phone.None? { return Failure(ArgumentNull("customerPhone")); }
      var t := new Transaction.Materialise(TransactionRecord(
        id, merchantReference.value, None, amount, code.value,
        firstName.value, lastName.value, email.value, phone.value, address,
        Pending, None, None, None, None, None, None, createdAt, updatedAt));
      r := Success(t);
    }

    /** `SetCheckoutDetails`: each argument is checked just before it is
        stored, so a null access code or reference throws after the checkout
        URL (and the access code) have already been written. */
    method SetCheckoutDetails(checkoutUrl: Option<string>, accessCode: Option<string>,
                              globalPayReference: Option<string>, now: DateTime) returns (error: Option<ArgumentError>)
      modifies this
      ensures checkoutUrl.None? ==>
        error == Some(ArgumentNull("checkoutUrl")) && Record() == old(Record())
      ensures checkoutUrl.Some? && accessCode.None? ==>
        error == Some(ArgumentNull("accessCode")) && Record() == old(Record()).(checkoutUrl := checkoutUrl)
      ensures checkoutUrl.Some? && accessCode.Some? && globalPayReference.None? ==>
        error == Some(ArgumentNull("globalPayReference")) &&
        Record() == old(Record()).(checkoutUrl := checkoutUrl, accessCode := accessCode)
      ensures checkoutUrl.Some? && accessCode.Some? && globalPayReference.Some? ==>
        error == None &&
        Record() == WithCheckoutDetails(old(Record()), checkoutUrl.value, accessCode.value, globalPayReference.value, now)
    {
      if checkoutUrl.None? { return Some(ArgumentNull("checkoutUrl")); }
      this.checkoutUrl := checkoutUrl;
      if accessCode.None? { return Some(ArgumentNull("accessCode")); }
      this.accessCode := accessCode;
      if globalPayReference.None? { return Some(ArgumentNull("globalPayReference")); }
      this.globalPayReference := globalPayReference;
      updatedAt := now;
      error := None;
    }

    /** `UpdatePaymentStatus`: overwrites status and reconciliation data with
        exactly the arguments, nulls included, whatever the current status. */
    method UpdatePaymentStatus(status: PaymentStatus, responseCode: Option<string>, responseMessage: Option<string>,
                               paymentDate: Option<DateTime>, paymentChannel: Option<string>, now: DateTime)
      modifies this
      ensures Record() == WithPaymentStatus(old(Record()), status, responseCode, responseMessage, paymentDate, paymentChannel, now)
    {
      this.status, this.responseCode, this.responseMessage := status, responseCode, responseMessage;
      this.paymentDate, this.paymentChannel, updatedAt := paymentDate, paymentChannel, now;
    }
  }
}
