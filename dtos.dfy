/** The transaction view returned to API callers, shared by both services. */
module Dtos {
  import opened Wrappers
  import opened TransactionEntity

  /** `TransactionDto`: the stored transaction without its access code and
      processor response fields, and with the status as its name. */
  datatype TransactionDto = TransactionDto(
    id: Guid,
    merchantTransactionReference: string,
    globalPayTransactionReference: Option<string>,
    amount: real,
    currency: string,
    customerFirstName: string,
    customerLastName: string,
    customerEmail: string,
    customerPhone: string,
    customerAddress: Option<string>,
    paymentStatus: string,
    checkoutUrl: Option<string>,
    paymentDate: Option<DateTime>,
    paymentChannel: Option<string>,
    createdAt: DateTime,
    updatedAt: DateTime)

  /** `MapToDto`, identical in `PaymentService` and `TransactionService`. */
  function MapToDto(t: TransactionRecord): (d: TransactionDto)
    ensures d.id == t.id && d.merchantTransactionReference == t.merchantReference
    ensures d.paymentStatus == StatusName(t.status)
    ensures d.amount == t.amount && d.currency == t.currency
  {
    TransactionDto(t.id, t.merchantReference, t.globalPayReference, t.amount, t.currency, t.firstName,
                   t.lastName, t.email, t.phone, t.address, StatusName(t.status), t.checkoutUrl,
                   t.paymentDate, t.paymentChannel, t.createdAt, t.updatedAt)
  }

  /** The status names are distinct, so a DTO's status text names one status. */
  lemma StatusNameInjective(a: PaymentStatus, b: PaymentStatus)
    ensures StatusName(a) == StatusName(b) ==> a == b
  {
  }

  /** Two records with the same view agree on everything the view shows... */
  lemma SameDtoSameVisibleState(s: TransactionRecord, t: TransactionRecord)
    requires MapToDto(s) == MapToDto(t)
    ensures IdentityOf(s) == IdentityOf(t) && s.status == t.status
    ensures s.checkoutUrl == t.checkoutUrl && s.globalPayReference == t.globalPayReference
    ensures s.paymentDate == t.paymentDate && s.paymentChannel == t.paymentChannel && s.updatedAt == t.updatedAt
  {
    StatusNameInjective(s.status, t.status);
  }

  /** ...and the access code and processor response texts are never shown. */
  lemma DtoHidesInternalFields(t: TransactionRecord, accessCode: Option<string>, code: Option<string>, message: Option<string>)
    ensures MapToDto(t.(accessCode := accessCode, responseCode := code, responseMessage := message)) == MapToDto(t)
  {
  }
}
