/** The client of the GlobalPay processor: normalising the answer to a
    payment-link request, and the two transaction queries. The network, the
    JSON text parser and the strict (typed) deserialiser are parameters; what
    is modelled is what the client does with their results. */
module GlobalPayClient {
  import opened Wrappers
  import opened Strings

  // ---- Parsed JSON ----

  /** A parsed JSON value, as far as the client distinguishes values. */
  datatype JVal = JObj(fields: map<string, JVal>) | JStr(s: string) | JBool(b: bool) | JNull | JOther

  /** `JsonElement.GetString()`: a string, null for JSON null, and an
      InvalidOperationException for any other kind of value. */
  function GetString(v: JVal): (r: Result<Option<string>, JsonError>)
    ensures r.Success? <==> v.JStr? || v.JNull?
    ensures r.Success? ==> (r.value.Some? <==> v.JStr?) && (v.JStr? ==> r.value == Some(v.s))
  {
    match v
    case JStr(s) => Success(Some(s))
    case JNull => Success(None)
    case _ => Failure(InvalidOperation)
  }

  /** `JsonElement.GetBoolean()`: only `true` and `false` are booleans. */
  function GetBoolean(v: JVal): (r: Result<bool, JsonError>)
    ensures r.Success? <==> v.JBool?
    ensures r.Success? ==> r.value == v.b
  {
    if v.JBool? then Success(v.b) else Failure(InvalidOperation)
  }

  datatype JsonError = InvalidOperation

  // ---- Processor payloads ----

  /** `GlobalPayData`: the normalised answer to a payment-link request. */
  datatype GlobalPayData = GlobalPayData(
    checkoutUrl: Option<string>,
    reference: Option<string>,
    accessCode: Option<string>,
    responseCode: Option<string>,
    successMessage: Option<string>,
    isSuccessful: bool,
    error: Option<string>)

  /** `new GlobalPayData()`: every reference null, not successful. */
  const NoData := GlobalPayData(None, None, None, None, None, false, None)

  /** An unsuccessful result carrying only an error text. */
  function FailedData(error: string): (d: GlobalPayData)
    ensures !d.isSuccessful && d.error == Some(error)
    ensures d.checkoutUrl.None? && d.reference.None? && d.accessCode.None?
  {
    NoData.(error := Some(error))
  }

  const UnparsableBody := "Unable to parse GlobalPay response body."

  /** `GlobalPayPaymentRequest` with its `Customer`. */
  datatype PaymentLinkRequest = PaymentLinkRequest(
    amount: real,
    merchantTransactionReference: string,
    lastName: string,
    firstName: string,
    currency: string,
    phoneNumber: string,
    address: string,
    emailAddress: string)

  /** `GlobalPayTransactionData`: the answer to a transaction query. */
  datatype TransactionData = TransactionData(
    txnref: Option<string>,
    merchantId: Option<string>,
    channel: Option<string>,
    amount: real,
    paymentDate: Option<string>,
    paymentStatus: Option<string>,
    merchantTxnref: Option<string>,
    inAmount: real,
    inCurrency: Option<string>,
    transactionChannel: Option<string>,
    successMessage: Option<string>,
    responseCode: Option<string>,
    isSuccessful: bool)

  // ---- The manual parse, declaratively ----

  /** The value of property `name` of `obj`, when `obj` is an object that has it. */
  function Property(obj: Option<map<string, JVal>>, name: string): Option<JVal> {
    if obj.Some? && name in obj.value then Some(obj.value[name]) else None
  }

  /** The `data` member, when it is an object; otherwise the client ignores it. */
  function DataObject(root: map<string, JVal>): Option<map<string, JVal>> {
    if "data" in root && root["data"].JObj? then Some(root["data"].fields) else None
  }

  /** Where a text field is looked for, in order of preference: inside `data`, then at the root. */
  function Candidates(root: map<string, JVal>, names: seq<string>): (r: seq<Option<JVal>>)
    ensures |r| == 2 * |names|
  {
    var data := DataObject(root);
    seq(|names|, i requires 0 <= i < |names| => Property(data, names[i]))
      + seq(|names|, i requires 0 <= i < |names| => Property(Some(root), names[i]))
  }

  /** A field set from the first candidate that supplies a string. Each
      candidate is read only while the field is still null: an absent
      property or a JSON null lets the next one be read, and reading a
      value that is neither string nor null throws. */
  function FirstString(cands: seq<Option<JVal>>): (r: Result<Option<string>, JsonError>)
    ensures r.Success? && r.value.Some? ==> exists i :: 0 <= i < |cands| && cands[i] == Some(JStr(r.value.value))
    ensures r == Success(None) <==> forall i :: 0 <= i < |cands| ==> cands[i] == None || cands[i] == Some(JNull)
  {
    if cands == [] then Success(None)
    else if cands[0].None? || cands[0].value.JNull? then
      var r := FirstString(cands[1..]);
      assert forall i :: 1 <= i < |cands| ==> cands[i] == cands[1..][i - 1];
      r
    else GetString(cands[0].value)
  }

  /** The success flag: each candidate is read only while the flag is still
      false, and reading a value that is not a boolean (null included) throws. */
  function FirstTrue(cands: seq<Option<JVal>>): (r: Result<bool, JsonError>)
    ensures r == Success(true) ==> exists i :: 0 <= i < |cands| && cands[i] == Some(JBool(true))
    ensures r == Success(false) <==> forall i :: 0 <= i < |cands| ==> cands[i] == None || cands[i] == Some(JBool(false))
  {
    if cands == [] then Success(false)
    else if cands[0].None? || cands[0] == Some(JBool(false)) then
      var r := FirstTrue(cands[1..]);
      assert forall i :: 1 <= i < |cands| ==> cands[i] == cands[1..][i - 1];
      r
    else GetBoolean(cands[0].value)
  }

  /** What the explicit parse of the body yields: None when it throws (the
      root is not an object, or a property read meets the wrong kind of
      value), else every field from its first usable candidate. The manual
      parse never sets `Error`. */
  function ManualParseSpec(root: JVal): Option<GlobalPayData> {
    if !root.JObj? then None
    else
      var o := root.fields;
      var checkoutUrl := FirstString(Candidates(o, ["checkoutUrl"]));
      var accessCode := FirstString(Candidates(o, ["accessCode"]));
      var reference := FirstString(Candidates(o, ["transactionReference", "ref"]));
      var isSuccessful := FirstTrue(Candidates(o, ["isSuccessful"]));
      var responseCode := FirstString(Candidates(o, ["responseCode"]));
      var successMessage := FirstString(Candidates(o, ["successMessage"]));
      if checkoutUrl.Failure? || accessCode.Failure? || reference.Failure? || isSuccessful.Failure?
         || responseCode.Failure? || successMessage.Failure?
      then None
      else Some(GlobalPayData(checkoutUrl.value, reference.value, accessCode.value, responseCode.value,
                              successMessage.value, isSuccessful.value, None))
  }

  // ---- The manual parse, as the client performs it ----

  /** Read one optional text member into a field that is still null. */
  method ReadString(obj: Option<map<string, JVal>>, name: string, current: Option<string>) returns (r: Result<Option<string>, JsonError>)
    ensures r == OrNext(Success(current), Property(obj, name))
  {
    if current.Some? || Property(obj, name).None? {
      return Success(current);
    }
    r := GetString(Property(obj, name).value);
  }

  /** The first stage of `gpData`: the reads inside `data` (lines 72-79). */
  function DataStage(data: Option<map<string, JVal>>): Result<GlobalPayData, JsonError> {
    var checkoutUrl := FirstString([Property(data, "checkoutUrl")]);
    var accessCode := FirstString([Property(data, "accessCode")]);
    var reference := OrNext(FirstString([Property(data, "transactionReference")]), Property(data, "ref"));
    var responseCode := FirstString([Property(data, "responseCode")]);
    var successMessage := FirstString([Property(data, "successMessage")]);
    var isSuccessful := FirstTrue([Property(data, "isSuccessful")]);
    if checkoutUrl.Failure? || accessCode.Failure? || reference.Failure? || responseCode.Failure?
       || successMessage.Failure? || isSuccessful.Failure?
    then Failure(InvalidOperation)
    else Success(GlobalPayData(checkoutUrl.value, reference.value, accessCode.value, responseCode.value,
                               successMessage.value, isSuccessful.value, None))
  }

  /** The second stage: root properties for the fields still null or false. */
  function RootStage(o: map<string, JVal>, gp: GlobalPayData): Result<GlobalPayData, JsonError> {
    var checkoutUrl := OrNext(Success(gp.checkoutUrl), Property(Some(o), "checkoutUrl"));
    var accessCode := OrNext(Success(gp.accessCode), Property(Some(o), "accessCode"));
    var reference := OrNext(OrNext(Success(gp.reference), Property(Some(o), "transactionReference")), Property(Some(o), "ref"));
    var isSuccessful := if gp.isSuccessful then Success(true) else FirstTrue([Property(Some(o), "isSuccessful")]);
    var responseCode := OrNext(Success(gp.responseCode), Property(Some(o), "responseCode"));
    var successMessage := OrNext(Success(gp.successMessage), Property(Some(o), "successMessage"));
    if checkoutUrl.Failure? || accessCode.Failure? || reference.Failure? || responseCode.Failure?
       || successMessage.Failure? || isSuccessful.Failure?
    then Failure(InvalidOperation)
    else Success(gp.(checkoutUrl := checkoutUrl.value, accessCode := accessCode.value, reference := reference.value,
                     isSuccessful := isSuccessful.value, responseCode := responseCode.value,
                     successMessage := successMessage.value))
  }

  method ReadFlag(obj: Option<map<string, JVal>>, current: bool) returns (r: Result<bool, JsonError>)
    ensures r == if current then Success(true) else FirstTrue([Property(obj, "isSuccessful")])
  {
    if current || Property(obj, "isSuccessful").None? {
      assert [Property(obj, "isSuccessful")][1..] == [];
      return Success(current);
    }
    r := GetBoolean(Property(obj, "isSuccessful").value);
    assert [Property(obj, "isSuccessful")][1..] == [];
  }

  /** Lines 65-81: a fresh `gpData`, filled from the `data` object. */
  method ReadData(data: Option<map<string, JVal>>) returns (r: Result<GlobalPayData, JsonError>)
    ensures r == DataStage(data)
  {
    var gp := NoData;
    var s;
    s := ReadString(data, "checkoutUrl", None);
    if s.Failure? { return Failure(InvalidOperation); }
    gp := gp.(checkoutUrl := s.value);
    s := ReadString(data, "accessCode", None);
    if s.Failure? { return Failure(InvalidOperation); }
    gp := gp.(accessCode := s.value);
    s := ReadString(data, "transactionReference", None);
    if s.Failure? { return Failure(InvalidOperation); }
    gp := gp.(reference := s.value);
    s := ReadString(data, "ref", gp.reference);
    if s.Failure? { return Failure(InvalidOperation); }
    gp := gp.(reference := s.value);
    s := ReadString(data, "responseCode", None);
    if s.Failure? { return Failure(InvalidOperation); }
    gp := gp.(responseCode := s.value);
    s := ReadString(data, "successMessage", None);
    if s.Failure? { return Failure(InvalidOperation); }
    gp := gp.(successMessage := s.value);
    var b := ReadFlag(data, false);
    if b.Failure? { return Failure(InvalidOperation); }
    gp := gp.(isSuccessful := b.value);
    return Success(gp);
  }

  /** Lines 84-93: the root-level fallbacks. */
  method ReadRoot(o: map<string, JVal>, gp0: GlobalPayData) returns (r: Result<GlobalPayData, JsonError>)
    ensures r == RootStage(o, gp0)
  {
    var gp := gp0;
    var s;
    s := ReadString(Some(o), "checkoutUrl", gp.checkoutUrl);
    if s.Failure? { return Failure(InvalidOperation); }
    gp := gp.(checkoutUrl := s.value);
    s := ReadString(Some(o), "accessCode", gp.accessCode);
    if s.Failure? { return Failure(InvalidOperation); }
    gp := gp.(accessCode := s.value);
    s := ReadString(Some(o), "transactionReference", gp.reference);
    if s.Failure? { return Failure(InvalidOperation); }
    gp := gp.(reference := s.value);
    s := ReadString(Some(o), "ref", gp.reference);
    if s.Failure? { return Failure(InvalidOperation); }
    gp := gp.(reference := s.value);
    var b := ReadFlag(Some(o), gp.isSuccessful);
    if b.Failure? { return Failure(InvalidOperation); }
    gp := gp.(isSuccessful := b.value);
    s := ReadString(Some(o), "responseCode", gp.responseCode);
    if s.Failure? { return Failure(InvalidOperation); }
    gp := gp.(responseCode := s.value);
    s := ReadString(Some(o), "successMessage", gp.successMessage);
    if s.Failure? { return Failure(InvalidOperation); }
    gp := gp.(successMessage := s.value);
    return Success(gp);
  }

  /** `gpData` built field by field: first from `data` (when it is an
      object), then from the root for the fields still null or false. A
      read that throws ends the parse. */
  method ManualParse(root: JVal) returns (r: Option<GlobalPayData>)
    ensures r == ManualParseSpec(root)
  {
    if !root.JObj? {
      return None;
    }
    var o := root.fields;
    StagesAgree(o);
    var first := ReadData(DataObject(o));
    if first.Failure? {
      return None;
    }
    var second := ReadRoot(o, first.value);
    if second.Failure? {
      return None;
    }
    return Some(second.value);
  }

  /** The two stages together compute the candidate-list specification. */
  lemma StagesAgree(o: map<string, JVal>)
    ensures var first := DataStage(DataObject(o));
            ManualParseSpec(JObj(o))
              == if first.Failure? || RootStage(o, first.value).Failure? then None
                 else Some(RootStage(o, first.value).value)
  {
    ManualParseAgrees(o);
    var first := DataStage(DataObject(o));
    if first.Success? {
      StagesAgreeOnSuccess(o);
    }
  }

  lemma StagesAgreeOnSuccess(o: map<string, JVal>)
    requires DataStage(DataObject(o)).Success?
    ensures var second := RootStage(o, DataStage(DataObject(o)).value);
            && (second.Success? ==> ManualParseSpec(JObj(o)) == Some(second.value))
            && (second.Failure? ==> ManualParseSpec(JObj(o)).None?)
  {
    ManualParseAgrees(o);
  }

  /** Each field of the specification is the chain of reads the client performs. */
  lemma ManualParseAgrees(o: map<string, JVal>)
    ensures var data := DataObject(o);
      && FirstString(Candidates(o, ["checkoutUrl"])) == OrNext(FirstString([Property(data, "checkoutUrl")]), Property(Some(o), "checkoutUrl"))
      && FirstString(Candidates(o, ["accessCode"])) == OrNext(FirstString([Property(data, "accessCode")]), Property(Some(o), "accessCode"))
      && FirstString(Candidates(o, ["responseCode"])) == OrNext(FirstString([Property(data, "responseCode")]), Property(Some(o), "responseCode"))
      && FirstString(Candidates(o, ["successMessage"])) == OrNext(FirstString([Property(data, "successMessage")]), Property(Some(o), "successMessage"))
      && FirstString(Candidates(o, ["transactionReference", "ref"]))
         == OrNext(OrNext(OrNext(FirstString([Property(data, "transactionReference")]), Property(data, "ref")),
                          Property(Some(o), "transactionReference")), Property(Some(o), "ref"))
      && FirstTrue(Candidates(o, ["isSuccessful"]))
         == (var a := FirstTrue([Property(data, "isSuccessful")]);
             if a.Failure? || a.value then a else FirstTrue([Property(Some(o), "isSuccessful")]))
  {
    var data := DataObject(o);
    CandidatesOfOne(o, "checkoutUrl");
    FirstStringOfTwo(Property(data, "checkoutUrl"), Property(Some(o), "checkoutUrl"));
    CandidatesOfOne(o, "accessCode");
    FirstStringOfTwo(Property(data, "accessCode"), Property(Some(o), "accessCode"));
    CandidatesOfOne(o, "responseCode");
    FirstStringOfTwo(Property(data, "responseCode"), Property(Some(o), "responseCode"));
    CandidatesOfOne(o, "successMessage");
    FirstStringOfTwo(Property(data, "successMessage"), Property(Some(o), "successMessage"));
    CandidatesOfTwo(o, "transactionReference", "ref");
    FirstStringOfFour(Property(data, "transactionReference"), Property(data, "ref"),
                      Property(Some(o), "transactionReference"), Property(Some(o), "ref"));
    CandidatesOfOne(o, "isSuccessful");
    FirstTrueOfTwo(Property(data, "isSuccessful"), Property(Some(o), "isSuccessful"));
  }

  /** Reading `y` only when the reads so far left the field null. */
  function OrNext(sofar: Result<Option<string>, JsonError>, y: Option<JVal>): Result<Option<string>, JsonError> {
    if sofar.Failure? || sofar.value.Some? then sofar else FirstString([y])
  }

  lemma CandidatesOfOne(o: map<string, JVal>, a: string)
    ensures Candidates(o, [a]) == [Property(DataObject(o), a), Property(Some(o), a)]
  {
  }

  lemma CandidatesOfTwo(o: map<string, JVal>, a: string, b: string)
    ensures Candidates(o, [a, b]) == [Property(DataObject(o), a), Property(DataObject(o), b), Property(Some(o), a), Property(Some(o), b)]
  {
  }

  lemma FirstStringOfTwo(x: Option<JVal>, y: Option<JVal>)
    ensures FirstString([x, y]) == OrNext(FirstString([x]), y)
  {
    assert [x, y][1..] == [y];
    assert [x][1..] == [];
  }

  lemma FirstStringOfThree(x: Option<JVal>, y: Option<JVal>, z: Option<JVal>)
    ensures FirstString([x, y, z]) == OrNext(OrNext(FirstString([x]), y), z)
  {
    assert [x, y, z][1..] == [y, z];
    assert [x][1..] == [];
    FirstStringOfTwo(y, z);
    FirstStringOfTwo(x, y);
  }

  lemma FirstStringOfFour(x: Option<JVal>, y: Option<JVal>, z: Option<JVal>, w: Option<JVal>)
    ensures FirstString([x, y, z, w]) == OrNext(OrNext(OrNext(FirstString([x]), y), z), w)
  {
    assert [x, y, z, w][1..] == [y, z, w];
    assert [x][1..] == [];
    FirstStringOfThree(y, z, w);
    FirstStringOfThree(x, y, z);
  }

  lemma FirstTrueOfTwo(x: Option<JVal>, y: Option<JVal>)
    ensures FirstTrue([x, y]) == (var a := FirstTrue([x]); if a.Failure? || a.value then a else FirstTrue([y]))
  {
    assert [x, y][1..] == [y];
    assert [x][1..] == [];
    assert [y][1..] == [];
  }

  // ---- Merging with the strict deserialisation ----

  /** `merged`: the strictly deserialised data with each null text field
      filled from the manual parse, the flags or-ed, and the strict Error. */
  method Merge(strict: GlobalPayData, manual: GlobalPayData) returns (merged: GlobalPayData)
    ensures merged.checkoutUrl == (if strict.checkoutUrl.Some? then strict.checkoutUrl else manual.checkoutUrl)
    ensures merged.accessCode == (if strict.accessCode.Some? then strict.accessCode else manual.accessCode)
    ensures merged.reference == (if strict.reference.Some? then strict.reference else manual.reference)
    ensures merged.responseCode == (if strict.responseCode.Some? then strict.responseCode else manual.responseCode)
    ensures merged.successMessage == (if strict.successMessage.Some? then strict.successMessage else manual.successMessage)
    ensures merged.isSuccessful == (strict.isSuccessful || manual.isSuccessful)
    ensures merged.error == strict.error
  {
    merged := strict;
    if merged.checkoutUrl.None? { merged := merged.(checkoutUrl := manual.checkoutUrl); }
    if merged.accessCode.None? { merged := merged.(accessCode := manual.accessCode); }
    if merged.reference.None? { merged := merged.(reference := manual.reference); }
    merged := merged.(isSuccessful := merged.isSuccessful || manual.isSuccessful);
    if merged.responseCode.None? { merged := merged.(responseCode := manual.responseCode); }
    if merged.successMessage.None? { merged := merged.(successMessage := manual.successMessage); }
  }

  function MergeSpec(strict: GlobalPayData, manual: GlobalPayData): GlobalPayData {
    GlobalPayData(strict.checkoutUrl.Or(manual.checkoutUrl), strict.reference.Or(manual.reference),
                  strict.accessCode.Or(manual.accessCode), strict.responseCode.Or(manual.responseCode),
                  strict.successMessage.Or(manual.successMessage), strict.isSuccessful || manual.isSuccessful,
                  strict.error)
  }

  // ---- GeneratePaymentLinkAsync ----

  /** What the POST to `generate-payment-link` produced. */
  datatype HttpReply =
    | TransportFailure(message: string)
    | HttpResponse(isSuccessStatus: bool, statusCode: int, reasonPhrase: Option<string>, body: string)

  /** The error text for a non-success status (a null reason phrase prints as nothing). */
  function StatusError(statusCode: int, reasonPhrase: Option<string>, body: string): string {
    "Status: " + IntToString(statusCode) + " " + reasonPhrase.GetOr("") + "; Body: " + body
  }

  /** The normalised answer for a reply. `parse` is `JsonDocument.Parse`
      (None when the body is not JSON) and `deserialize` is the strict,
      case-insensitive deserialiser (None when it throws or yields no Data). */
  function PaymentLinkOutcome(reply: HttpReply, parse: string -> Option<JVal>,
                              deserialize: string -> Option<GlobalPayData>): GlobalPayData {
    match reply
    case TransportFailure(message) => FailedData(message)
    case HttpResponse(ok, code, reason, body) =>
      if !ok then FailedData(StatusError(code, reason, body))
      else
        var manual := if parse(body).Some? then ManualParseSpec(parse(body).value) else None;
        if manual.None? then FailedData(UnparsableBody)
        else if deserialize(body).Some? then MergeSpec(deserialize(body).value, manual.value)
        else manual.value
  }

  /** `GeneratePaymentLinkAsync`: always a Data object, never an exception. */
  method GeneratePaymentLink(reply: HttpReply, parse: string -> Option<JVal>,
                             deserialize: string -> Option<GlobalPayData>) returns (data: GlobalPayData)
    ensures data == PaymentLinkOutcome(reply, parse, deserialize)
  {
    if reply.TransportFailure? {
      return FailedData(reply.message);
    }
    if !reply.isSuccessStatus {
      return FailedData(StatusError(reply.statusCode, reply.reasonPhrase, reply.body));
    }
    var strict := deserialize(reply.body);
    var doc := parse(reply.body);
    if doc.None? {
      return FailedData(UnparsableBody);
    }
    var gp := ManualParse(doc.value);
    if gp.None? {
      return FailedData(UnparsableBody);
    }
    if strict.Some? {
      data := Merge(strict.value, gp.value);
      return;
    }
    return gp.value;
  }

  // ---- Properties of the normalisation ----

  /** A value inside `data` wins over the same property at the root. */
  lemma DataPreferredOverRoot(root: map<string, JVal>, name: string, inData: string)
    requires "data" in root && root["data"].JObj? && name in root["data"].fields
    requires root["data"].fields[name] == JStr(inData)
    ensures FirstString(Candidates(root, [name])) == Success(Some(inData))
  {
    assert Candidates(root, [name])[0] == Some(JStr(inData));
  }

  /** A field absent (or null) inside `data` is taken from the root. */
  lemma RootFallback(root: map<string, JVal>, name: string, atRoot: string)
    requires DataObject(root).None? || name !in DataObject(root).value || DataObject(root).value[name] == JNull
    requires name in root && root[name] == JStr(atRoot)
    ensures FirstString(Candidates(root, [name])) == Success(Some(atRoot))
  {
    var c := Candidates(root, [name]);
    assert c[0] == None || c[0] == Some(JNull);
    assert c[1] == Some(JStr(atRoot));
    assert c[1..][1..] == [];
  }

  /** The reference comes from `data.transactionReference`, else `data.ref`,
      else the root's `transactionReference`, else the root's `ref`. */
  lemma ReferencePreference(root: map<string, JVal>)
    ensures Candidates(root, ["transactionReference", "ref"])
            == [Property(DataObject(root), "transactionReference"), Property(DataObject(root), "ref"),
                Property(Some(root), "transactionReference"), Property(Some(root), "ref")]
  {
  }

  /** The manual flag is true exactly when `data` or the root says `true`
      and the parse succeeds; when both are absent it is false. */
  lemma SuccessFlagIsDisjunction(root: map<string, JVal>)
    requires ManualParseSpec(JObj(root)).Some?
    ensures ManualParseSpec(JObj(root)).value.isSuccessful
            <==> (Property(DataObject(root), "isSuccessful") == Some(JBool(true))
                  || Property(Some(root), "isSuccessful") == Some(JBool(true)))
  {
    CandidatesOfOne(root, "isSuccessful");
    FirstTrueOfTwo(Property(DataObject(root), "isSuccessful"), Property(Some(root), "isSuccessful"));
  }

  /** A wrongly typed success flag at the root, when `data` does not already
      say `true`, makes the whole parse fail. */
  lemma NonBooleanFlagFails(root: map<string, JVal>)
    requires Property(DataObject(root), "isSuccessful") != Some(JBool(true))
    requires "isSuccessful" in root && !root["isSuccessful"].JBool?
    ensures ManualParseSpec(JObj(root)).None?
  {
    CandidatesOfOne(root, "isSuccessful");
    FirstTrueOfTwo(Property(DataObject(root), "isSuccessful"), Property(Some(root), "isSuccessful"));
  }

  /** The manual parse never carries an error text. */
  lemma ManualParseHasNoError(root: JVal)
    requires ManualParseSpec(root).Some?
    ensures ManualParseSpec(root).value.error.None?
  {
  }

  /** A root that is not an object cannot be parsed by hand. */
  lemma NonObjectRootFails(root: JVal)
    requires !root.JObj?
    ensures ManualParseSpec(root).None?
  {
  }

  /** A non-success status is reported with its code, reason and body. */
  lemma NonSuccessStatusReported(code: int, reason: Option<string>, body: string, parse: string -> Option<JVal>,
                                 deserialize: string -> Option<GlobalPayData>)
    ensures var d := PaymentLinkOutcome(HttpResponse(false, code, reason, body), parse, deserialize);
            !d.isSuccessful && d.error == Some(StatusError(code, reason, body)) && d.checkoutUrl.None?
  {
  }

  /** When the manual parse fails, the strict result is discarded. */
  lemma ParseFailureOverridesStrict(code: int, reason: Option<string>, body: string, parse: string -> Option<JVal>,
                                    deserialize: string -> Option<GlobalPayData>)
    requires parse(body).None? || ManualParseSpec(parse(body).value).None?
    ensures PaymentLinkOutcome(HttpResponse(true, code, reason, body), parse, deserialize) == FailedData(UnparsableBody)
  {
  }

  /** Without a strict result the answer is the manual parse, error-free. */
  lemma WithoutStrictResultManualWins(code: int, reason: Option<string>, body: string, parse: string -> Option<JVal>,
                                      deserialize: string -> Option<GlobalPayData>)
    requires parse(body).Some? && ManualParseSpec(parse(body).value).Some? && deserialize(body).None?
    ensures var d := PaymentLinkOutcome(HttpResponse(true, code, reason, body), parse, deserialize);
            d == ManualParseSpec(parse(body).value).value && d.error.None?
  {
  }

  /** The merge keeps every non-null strict field and fills the others. */
  lemma MergeKeepsStrictFields(strict: GlobalPayData, manual: GlobalPayData)
    ensures var m := MergeSpec(strict, manual);
            && (strict.checkoutUrl.Some? ==> m.checkoutUrl == strict.checkoutUrl)
            && (strict.checkoutUrl.None? ==> m.checkoutUrl == manual.checkoutUrl)
            && (strict.reference.Some? ==> m.reference == strict.reference)
            && (strict.reference.None? ==> m.reference == manual.reference)
            && (m.isSuccessful <==> strict.isSuccessful || manual.isSuccessful)
            && m.error == strict.error
  {
  }

  // ---- The transaction queries ----

  /** What a GET produced: a transport failure, or a status and a body. */
  datatype QueryReply = QueryTransportFailure | QueryResponse(isSuccessStatus: bool, body: string)

  function ReferencePath(reference: string): string {
    "query-single-transaction/" + reference
  }

  function MerchantReferencePath(merchantReference: string): string {
    "query-single-transaction-by-merchant-reference/" + merchantReference
  }

  /** The Data of a query's answer: null on a transport failure, a
      non-success status, or a body that does not decode to a Data object
      (`decode` is `ReadFromJsonAsync` followed by `.Data`). */
  function QueryOutcome(reply: QueryReply, decode: string -> Option<TransactionData>): (r: Option<TransactionData>)
    ensures r.Some? <==> reply.QueryResponse? && reply.isSuccessStatus && decode(reply.body).Some?
    ensures r.Some? ==> r == decode(reply.body)
  {
    if reply.QueryResponse? && reply.isSuccessStatus then decode(reply.body) else None
  }

  /** `QueryTransactionByReferenceAsync`. */
  function QueryTransactionByReference(reference: string, get: string -> QueryReply,
                                       decode: string -> Option<TransactionData>): (r: Option<TransactionData>)
    ensures r == QueryOutcome(get(ReferencePath(reference)), decode)
  {
    QueryOutcome(get("query-single-transaction/" + reference), decode)
  }

  /** `QueryTransactionByMerchantReferenceAsync`. */
  function QueryTransactionByMerchantReference(merchantReference: string, get: string -> QueryReply,
                                               decode: string -> Option<TransactionData>): (r: Option<TransactionData>)
    ensures r == QueryOutcome(get(MerchantReferencePath(merchantReference)), decode)
  {
    QueryOutcome(get("query-single-transaction-by-merchant-reference/" + merchantReference), decode)
  }

  /** The two queries never ask for the same path, and each path names its reference. */
  lemma QueryPathsDistinct(a: string, b: string)
    ensures ReferencePath(a) != MerchantReferencePath(b)
    ensures ReferencePath(a) == ReferencePath(b) ==> a == b
    ensures MerchantReferencePath(a) == MerchantReferencePath(b) ==> a == b
  {
    assert ReferencePath(a)[24] == '/';
    assert MerchantReferencePath(b)[24] == '-';
    if ReferencePath(a) == ReferencePath(b) {
      assert a == ReferencePath(a)[25..] && b == ReferencePath(b)[25..];
    }
    if MerchantReferencePath(a) == MerchantReferencePath(b) {
      assert a == MerchantReferencePath(a)[47..] && b == MerchantReferencePath(b)[47..];
    }
  }
}
