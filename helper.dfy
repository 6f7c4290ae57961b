/** `shakeout_helper`: the Shake-Out API client, the webhook signature check
    and the payment-details record. */
module ShakeoutHelper {
  import opened Base
  import opened Php
  import opened Decimal
  import opened Records

  const ApiEndpoint: string := "https://dash.shake-out.com/api/public/vendor/invoice"
  const ContentTypeHeader: string := "Content-Type: application/json"
  const AuthorizationPrefix: string := "Authorization: apikey "
  const TimeoutSeconds: nat := 30

  // ---------------------------------------------------------------------
  // The invoice request

  datatype Customer = Customer(firstName: string, lastName: string, email: string,
                               phone: string, address: string)

  datatype RedirectionUrls = RedirectionUrls(successUrl: Value, failUrl: Value, pendingUrl: Value)

  datatype InvoiceItem = InvoiceItem(name: string, price: real, quantity: int)

  /** The array pay.php hands to `create_invoice`, which sends it as JSON. */
  datatype InvoiceData = InvoiceData(
    amount: real,
    currency: string,
    dueDate: string,
    customer: Customer,
    redirectionUrls: RedirectionUrls,
    invoiceItems: seq<InvoiceItem>)

  /** The HTTP request `create_invoice` configures on its curl object. */
  datatype HttpRequest = HttpRequest(verb: string, url: string, headers: seq<string>,
                                     body: InvoiceData, timeout: nat)

  /** The key of the first `Authorization: apikey` header. */
  function ApiKeyOf(headers: seq<string>): Option<string>
  {
    if headers == [] then None
    else if |AuthorizationPrefix| <= |headers[0]| &&
            headers[0][..|AuthorizationPrefix|] == AuthorizationPrefix
    then Some(headers[0][|AuthorizationPrefix|..])
    else ApiKeyOf(headers[1..])
  }

  /** A JSON POST of `data` to the fixed endpoint, authenticated by `apikey`. */
  function InvoiceRequest(apikey: string, data: InvoiceData): (r: HttpRequest)
    ensures r.verb == "POST" && r.url == ApiEndpoint && r.timeout == TimeoutSeconds
    ensures r.body == data
    ensures ContentTypeHeader in r.headers
    ensures ApiKeyOf(r.headers) == Some(apikey)
  {
    var auth := AuthorizationPrefix + apikey;
    assert auth[..|AuthorizationPrefix|] == AuthorizationPrefix;
    assert ContentTypeHeader[..|AuthorizationPrefix|] != AuthorizationPrefix by {
      assert ContentTypeHeader[0] != AuthorizationPrefix[0];
    }
    HttpRequest("POST", ApiEndpoint, [ContentTypeHeader, auth], data, TimeoutSeconds)
  }

  // ---------------------------------------------------------------------
  // The API's answer

  /** What the transfer produced: the HTTP status (0 when the transfer
      itself failed), the raw body (any text), and the body as decoded
      (None when `json_last_error()` reports an error). */
  datatype HttpReply = HttpReply(code: int, body: string, decoded: Option<Value>)

  const HttpErrorPrefix: string := "HTTP Error: "

  /** The debug text of the `apierror` exception. */
  function ApiErrorDetail(code: int, body: string): string
  {
    HttpErrorPrefix + IntToString(code) + " - " + body
  }

  /** `create_invoice` after the transfer: anything but status 200 raises
      `apierror`, a body that is not JSON raises `invalidjsonresponse`, and
      otherwise the decoded body is returned as it is. */
  function CreateInvoiceResult(reply: HttpReply): (r: Result<Value, Thrown>)
    ensures r.Ok? <==> reply.code == 200 && reply.decoded.Some?
    ensures r.Ok? ==> r.value == reply.decoded.value
    ensures reply.code != 200 ==> r == Err(Thrown("apierror", ApiErrorDetail(reply.code, reply.body)))
    ensures reply.code == 200 && reply.decoded.None? ==> r == Err(Thrown("invalidjsonresponse", ""))
  {
    if reply.code != 200 then Err(Thrown("apierror", ApiErrorDetail(reply.code, reply.body)))
    else match reply.decoded
      case None => Err(Thrown("invalidjsonresponse", ""))
      case Some(v) => Ok(v)
  }

  /** Reads the status and body back out of an `apierror` debug text. */
  function ParseApiErrorDetail(s: string): Option<(int, string)>
  {
    if |s| < |HttpErrorPrefix| || s[..|HttpErrorPrefix|] != HttpErrorPrefix then None
    else
      var rest := s[|HttpErrorPrefix|..];
      var k := FirstIndexOf(rest, ' ');
      var number, tail := rest[..k], rest[k..];
      if !IsIntText(number) || |tail| < 3 || tail[..3] != " - " then None
      else Some((ParseInt(number), tail[3..]))
  }

  /** The `apierror` text loses neither the status nor the body. */
  lemma ApiErrorDetailRoundTrip(code: int, body: string)
    ensures ParseApiErrorDetail(ApiErrorDetail(code, body)) == Some((code, body))
  {
    var s := ApiErrorDetail(code, body);
    var n := IntToString(code);
    assert s[..|HttpErrorPrefix|] == HttpErrorPrefix;
    var rest := s[|HttpErrorPrefix|..];
    assert rest == n + " - " + body;
    FirstIndexOfAt(rest, ' ', |n|);
    assert rest[..|n|] == n;
    assert rest[|n|..] == " - " + body;
    IntToStringRoundTrip(code);
  }

  // ---------------------------------------------------------------------
  // The webhook signature

  /** How a check of a webhook's signature ends. `hash_equals` refuses a
      signature that is not a string with a TypeError. */
  datatype SignatureCheck = Checked(valid: bool) | SignatureTypeError

  /** The digest input: four fields of `data['data']`, then the secret key,
      each in its string form, concatenated without separators. */
  function SignedText(data: Value, secretkey: Value): (s: string)
    ensures |ToStr(secretkey)| <= |s| && s[|s| - |ToStr(secretkey)|..] == ToStr(secretkey)
    ensures |ToStr(Field(data, "data", "invoice_id"))| <= |s| &&
            s[..|ToStr(Field(data, "data", "invoice_id"))|] == ToStr(Field(data, "data", "invoice_id"))
  {
    var id := ToStr(Field(data, "data", "invoice_id"));
    var head := id + ToStr(Field(data, "data", "amount")) +
                ToStr(Field(data, "data", "invoice_status")) +
                ToStr(Field(data, "data", "updated_at"));
    var key := ToStr(secretkey);
    assert head[..|id|] == id;
    assert (head + key)[..|id|] == head[..|id|];
    assert (head + key)[|head|..] == key;
    head + key
  }

  /** `verify_signature($data, $signature, $secretkey)`; `sha256` is the hex
      SHA-256 digest, left uninterpreted. */
  function VerifySignature(data: Value, signature: Value, secretkey: Value,
                           sha256: string -> string): (r: SignatureCheck)
    ensures r.SignatureTypeError? <==> !signature.Str?
    ensures r == Checked(true) <==> signature == Str(sha256(SignedText(data, secretkey)))
  {
    if signature.Str? then Checked(sha256(SignedText(data, secretkey)) == signature.s)
    else SignatureTypeError
  }

  /** Only the four signed fields and the secret key matter: payloads that
      agree on them are judged alike, whatever else they contain. */
  lemma SignatureDependsOnlyOnSignedFields(d1: Value, d2: Value, signature: Value,
                                           secretkey: Value, sha256: string -> string)
    requires Field(d1, "data", "invoice_id") == Field(d2, "data", "invoice_id")
    requires Field(d1, "data", "amount") == Field(d2, "data", "amount")
    requires Field(d1, "data", "invoice_status") == Field(d2, "data", "invoice_status")
    requires Field(d1, "data", "updated_at") == Field(d2, "data", "updated_at")
    ensures VerifySignature(d1, signature, secretkey, sha256) ==
            VerifySignature(d2, signature, secretkey, sha256)
  {
  }

  /** An empty or missing secret key does not switch the check off: the
      signature must still be the digest of the four fields alone. */
  lemma EmptySecretStillChecked(data: Value, signature: string, secretkey: Value,
                                sha256: string -> string)
    requires secretkey == Null || secretkey == Str("")
    ensures VerifySignature(data, Str(signature), secretkey, sha256) ==
            Checked(signature == sha256(
              ToStr(Field(data, "data", "invoice_id")) + ToStr(Field(data, "data", "amount")) +
              ToStr(Field(data, "data", "invoice_status")) + ToStr(Field(data, "data", "updated_at"))))
  {
    var four := ToStr(Field(data, "data", "invoice_id")) + ToStr(Field(data, "data", "amount")) +
                ToStr(Field(data, "data", "invoice_status")) + ToStr(Field(data, "data", "updated_at"));
    assert SignedText(data, secretkey) == four + "";
    assert four + "" == four;
  }

  // ---------------------------------------------------------------------
  // Payment details

  datatype PaymentDetails = PaymentDetails(
    amount: real,
    currency: string,
    description: string,
    user: Option<User>,
    component: string,
    paymentArea: string,
    itemId: int)

  /** `get_payment_details`: `rounding` is the host's `get_rounded_cost`,
      `users` the host's user table. */
  function GetPaymentDetails(c: Context, userId: int, payable: Payable, surcharge: real,
                             rounding: (real, string, real) -> real,
                             users: map<int, User>): (d: PaymentDetails)
    ensures d.component == c.component && d.paymentArea == c.paymentArea && d.itemId == c.itemId
    ensures d.amount == rounding(payable.amount, payable.currency, surcharge)
    ensures d.currency == payable.currency && d.description == payable.description
    ensures d.user.Some? <==> userId in users
    ensures d.user.Some? ==> d.user.value == users[userId]
  {
    PaymentDetails(rounding(payable.amount, payable.currency, surcharge), payable.currency,
                   payable.description, if userId in users then Some(users[userId]) else None,
                   c.component, c.paymentArea, c.itemId)
  }
}
