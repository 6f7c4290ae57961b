# Shake-Out payment gateway for Moodle: a verified model of the payment lifecycle

This project models the core of the `paygw_shakeout` Moodle payment gateway
plugin, which sells Moodle items through invoices issued by the Shake-Out
payment service. It proves properties of that model in Dafny. The model covers:

- **Payment initiation** (`pay.php`). The script builds an invoice of one
  line item for the rounded cost, due tomorrow. It posts the invoice to the
  Shake-Out API (`shakeout_helper::create_invoice`). If the answer's status
  is `success`, it saves a Moodle payment. It then calls `get_id()` on the
  integer id that `save_payment` returns. That PHP Error ends the script
  before the gateway row is inserted and before the redirect (see
  "## Findings"). The evidently intended flow saves the payment, inserts
  the gateway row and redirects to the invoice page; it is modelled as
  well. Every other outcome ends in a `paymentfailed` exception.
- **Webhook reconciliation** (`callback.php`). The endpoint runs a fixed
  chain of guards: the JSON must decode to something truthy, a gateway row
  must have the payload's invoice id, that row's payment must exist, and
  the signature must check out (`shakeout_helper::verify_signature`). When
  the status is exactly `paid`, it sets the payment's success flag, marks
  the gateway row paid and timestamps it, and calls the host's order
  delivery.
- **The helper** (`classes/shakeout_helper.php`). This covers the request
  it sends, how it reads the HTTP reply, the signature, and
  `get_payment_details`.
- **The gateway** (`classes/gateway.php`). This covers the supported
  currencies and the configuration-form check.
- **The privacy provider** (`classes/privacy/provider.php`). This covers
  the metadata declarations and the export and deletion of one payment's
  gateway rows.

Files and modules:

- `base.dfy` (`Base`): `Option`, `Result` and `Thrown`. A `Thrown` is an
  exception's error code plus its debug text.
- `decimal.dfy` (`Decimal`): decimal text of integers, zero padding and
  parsing. This is only what PHP's string conversion and `format('Y-m-d')`
  need.
- `php.dfy` (`Php`): the PHP values `json_decode($s, true)` yields.
  - Truthiness, as in `!$x`, `?:` and `empty`.
  - `isset` and `??`.
  - Array reads, where a missing key reads as null.
  - String conversion, as in `.`.
  - The values a `foreach` visits.
- `records.dfy` (`Records`): the rows of the `payments` and
  `paygw_shakeout` tables, the delivery log, and the table operations as
  functions on a `Db` value.
- `ledger.dfy` (`Ledger`): the database object whose fields are those
  tables. Each of its methods is one host database call, and each is
  specified by the matching `Records` function.
- `dates.dfy` (`Dates`): the `Y-m-d` due date and its parse.
- `helper.dfy` (`ShakeoutHelper`), `callback.dfy` (`Callback`),
  `pay.dfy` (`Pay`), `gateway.dfy` (`Gateway`) and `privacy.dfy`
  (`Privacy`): the source files of the same names.
- `callback_facts.dfy` (`CallbackFacts`) and `pay_facts.dfy` (`PayFacts`):
  the properties of the two scripts.

Each script is modelled twice:

1. As a function from the state before the request and the request's
   inputs to the state after and the response: `Callback.Reconcile` and
   `Pay.Initiate`. `Pay.InitiateIntended` is the corrected pay.php.
2. As a method that performs the same steps in order against a
   `Ledger.Ledger`: `Callback.HandleWebhook` and `Pay.ProcessPayment`.
   Each method's postcondition says that its new state and its answer are
   exactly what the function gives.

The lemmas are stated about the functions.

These inputs are parameters of the model:

- the host's `get_gateway_configuration`, `get_rounded_cost` and user
  table;
- the decoded request body;
- the HTTP reply;
- `time()` and the date of `new DateTime('tomorrow')`;
- `hash('sha256', ...)`, which is uninterpreted;
- `transform::datetime`.

A `Fault` value (`PayFault` in pay.php) names the host call, if any, that
throws in a given request.

### Notable behaviour of the code

- **Status vocabulary.** The webhook acts only on an `invoice_status` that
  is exactly `'paid'` (`callback.php:77`). `completed` and `success` are
  treated like any other status: answered 200 and nothing written.
- **No idempotency guard.** A verified `paid` notification is applied
  every time it arrives, and delivery is called every time
  (`CallbackFacts.ReplayDeliversTwice`).
- **Delivery failure is a 500.** An exception from `deliver_order` is
  caught by the script's one `catch (Exception)`, which answers 500. The
  two updates before it stay in the database
  (`CallbackFacts.DeliveryFailureKeepsUpdates`).
- **The status starts unset.** The gateway row is inserted without a
  status (`pay.php:86-92`). The model assumes the column then reads as
  NULL. The column's default in `db/install.xml` is not part of this
  model.
- **No extra request settings.** The request carries no webhook URL, no
  sandbox switch and no connect timeout. Only `CURLOPT_TIMEOUT => 30` is
  set (`classes/shakeout_helper.php:54-60`).
- **Any status but exactly 200 is an error.** The debug text is
  `HTTP Error: <code> - <body>`.
- **The final exception drops the provider's text.** pay.php throws the
  inner `paymentfailed` exception, with the provider's error text as its
  debug information, inside its own `try`. The outer `catch (Exception)`
  therefore catches it and throws a new `paymentfailed` exception whose
  debug information is the caught exception's *message*, not the error
  text (`pay.php:105-108`). `Pay.PayResult.PaymentFailed(caught)` records
  the caught exception. So on every failing path the script finally
  throws `paymentfailed` carrying `caught`'s message. This holds in
  Moodle's normal mode. Under developer debugging, or under PHPUnit,
  `moodle_exception` appends its debug information to its message. In that
  mode the provider's text does reach the outer exception's debug
  information.

## Model

| member | source | states |
|---|---|---|
| Php.Truthy | callback.php:35 | No contract of its own. PHP truthiness, as in `!$data`, `?:` and `empty`. It is characterised by `Php.FalsyValues`. |
| Php.FalsyValues | classes/gateway.php:82-87 | The falsy values are exactly null, false, 0, `""`, `"0"` and the empty array. |
| Php.ToStr | classes/shakeout_helper.php:88-94 | PHP's string conversion. A string is kept. An integer's text parses back to the integer. The result is empty exactly for null, false and `""`. |
| Php.LookupFinds | callback.php:45 | An array read yields a stored value or null. It is null when no entry has the key. In an array with unique keys it is that key's value. |
| Php.Elements | pay.php:99 | `foreach` visits the array's values in order, and visits nothing when the value is not an array. |
| Records.Column | pay.php:86-92 | A bound value reads back as NULL exactly when it was null. A string is stored as itself, and a boolean as `1` or `0`. |
| Records.FirstWhere | callback.php:45 | `get_record` returns the first matching row. It returns nothing exactly when no row matches. |
| Records.RemoveByPayment | classes/privacy/provider.php:92 | The rows left are exactly the rows whose payment id differs from the one deleted. |
| Records.InsertPaymentRow | pay.php:74-83 | `save_payment` adds exactly one payment, under the next payment id, with the given fields and success 0. Every other payment, the gateway rows and the delivery log are unchanged. The payment counter grows by one. |
| Records.InsertRecordRow | pay.php:86-92 | `insert_record` appends exactly one gateway row after the existing ones, under the next row id. Its status and timemodified are unset. Payments and the delivery log are unchanged. The row counter grows by one. |
| Records.UpdateRecordRow | callback.php:83-85 | Every row with the updated row's id is replaced by it. Every other row is unchanged. The table keeps its length. |
| Records.FirstWhereAgrees | callback.php:45 | The row a lookup finds depends only on where the condition holds. |
| Ledger.Ledger.GetRecordByInvoice | callback.php:45 | Returns nothing exactly when no row has the invoice id, and otherwise the first row that has it. |
| Ledger.Ledger.GetPayment | callback.php:53 | Returns nothing exactly when no payment has the id, and otherwise that payment. |
| Ledger.Ledger.UpdatePayment | callback.php:79-80 | The new state is the old one with the payment row replaced. |
| Ledger.Ledger.UpdateRecord | callback.php:83-85 | The new state is the old one with the gateway row replaced. |
| Ledger.Ledger.SavePayment | pay.php:74-83 | Inserts the payment under the next id, with success 0, and returns that id. |
| Ledger.Ledger.InsertRecord | pay.php:86-92 | Appends the gateway row under the next id, with status and timemodified unset. |
| Ledger.Ledger.DeliverOrder | callback.php:88-94 | Appends the delivery to the log. Nothing else changes. |
| Ledger.Ledger.DeleteRecords | classes/privacy/provider.php:92 | Removes the payment's gateway rows. Nothing else changes. |
| Dates.FormatYmdRoundTrip | pay.php:45-49 | The `Y-m-d` text of a valid date parses back to that date. |
| Decimal.IntToStringRoundTrip | classes/shakeout_helper.php:66-67 | PHP's decimal text of an integer parses back to the integer. |
| ShakeoutHelper.InvoiceRequest | classes/shakeout_helper.php:46-62 | The request is a POST to the fixed endpoint with a 30-second timeout. It carries the JSON content-type header and the `Authorization: apikey <key>` header for the given key. Its body is the invoice data. |
| ShakeoutHelper.CreateInvoiceResult | classes/shakeout_helper.php:62-76 | The decoded body is returned exactly when the status is 200 and the body is JSON. Any other status raises `apierror` with status and body. A non-JSON body raises `invalidjsonresponse`. |
| ShakeoutHelper.ApiErrorDetailRoundTrip | classes/shakeout_helper.php:66-67 | The `apierror` debug text determines the HTTP status and the body. |
| ShakeoutHelper.SignedText | classes/shakeout_helper.php:88-94 | The digest input starts with the invoice id's text and ends with the secret's text. |
| ShakeoutHelper.VerifySignature | classes/shakeout_helper.php:87-97 | A TypeError happens exactly when the signature is not a string. The check passes exactly when the signature is the SHA-256 of invoice id, amount, status, `updated_at` and the secret, concatenated. |
| ShakeoutHelper.SignatureDependsOnlyOnSignedFields | classes/shakeout_helper.php:88-94 | Payloads that agree on the four signed fields get the same verdict. |
| ShakeoutHelper.EmptySecretStillChecked | classes/shakeout_helper.php:88-96 | A missing or empty secret does not disable the check. The signature must still equal the digest of the four fields. |
| ShakeoutHelper.GetPaymentDetails | classes/shakeout_helper.php:108-127 | The result copies component, area and item id. Its amount is the rounded cost with surcharge. Its currency and description are the payable's. Its user is the looked-up user, or none when there is no such user. |
| Callback.Reconcile | callback.php:32-104 | No contract of its own. The script as a function of the state and the inputs. It is specified by the `CallbackFacts` lemmas below. |
| Callback.PaidWrites | callback.php:79-94 | The paid branch answers only 200 or 500. It answers 200 exactly when none of the payment update, the row update and the delivery throws. |
| Callback.HandleWebhook | callback.php:32-104 | Running the endpoint against the database leaves exactly the state, and gives exactly the answer, that `Reconcile` defines. |
| CallbackFacts.VerifiedPaidReachesWrites | callback.php:41-95 | A payload past every guard with status `paid` leads to exactly the paid writes on the selected row and its payment. |
| CallbackFacts.InvalidJsonRejected | callback.php:32-39 | A falsy decode, such as invalid JSON, `[]`, `0` or `""`, is answered 400 "Invalid JSON" with nothing written. |
| CallbackFacts.UnknownInvoiceRejected | callback.php:45-51 | No row with the invoice id gives 404 "Payment not found" with nothing written. |
| CallbackFacts.MissingPaymentRejected | callback.php:53-59 | A row whose payment is missing gives 404 "Payment record not found" with nothing written. |
| CallbackFacts.BadSignatureRejected | callback.php:70-74 | A string signature that does not match gives 400 "Invalid signature" with nothing written. |
| CallbackFacts.NonStringSignatureIsFatal | callback.php:70 | A signature that is not a string kills the request with nothing written. |
| CallbackFacts.OtherStatusAcknowledged | callback.php:77-98 | A verified payload with any status other than exactly `paid` gets 200 "OK" with nothing written. |
| CallbackFacts.RejectionsWriteNothing | callback.php:35-74 | Every answer other than 200 or 500 leaves the database unchanged. |
| CallbackFacts.WritesOnlyWhenVerifiedPaid | callback.php:70-95 | The database changes only for a verified payload with status `paid`. |
| CallbackFacts.UpdateOnlyTarget | callback.php:83-85 | With unique row ids, updating a row changes that position only. |
| CallbackFacts.PaidWritesLog | callback.php:79-94 | For each place a fault can occur in the paid branch, states exactly what the delivery log becomes. |
| CallbackFacts.PaidWritesWellFormed | callback.php:79-94 | The paid branch keeps ids consistent. |
| CallbackFacts.PaidApplied | callback.php:77-98 | A verified `paid` payload produces four things and changes nothing else: the payment's success set to 1, the selected row marked `paid` at `now`, one delivery with that payment's item, payment id and user, and the answer 200 "OK". |
| CallbackFacts.DeliveryFailureKeepsUpdates | callback.php:88-104 | A throwing delivery gives 500 but leaves both updates, and the attempted delivery, in place. |
| CallbackFacts.RecordWriteFailureKeepsPaymentUpdate | callback.php:79-85 | A throwing gateway-row update gives 500 and keeps the payment's success update. |
| CallbackFacts.DeliveryExactlyWhenPaid | callback.php:77-95 | The delivery log only grows, and by at most one. It grows exactly when a `paid` payload is verified and no host call before delivery throws. |
| CallbackFacts.FailureBeforeCheckWritesNothing | callback.php:45-67 | A host failure in any of the three reads writes nothing and never answers 200. Once the script reaches the read that throws, the answer is exactly 500 "Server error": the invoice lookup after a truthy decode, the payment lookup once a row is found, and the configuration load once its payment exists. |
| CallbackFacts.ReplayDeliversTwice | callback.php:77-95 | The same verified `paid` payload sent twice gets 200 both times and delivers the same purchase twice. No repeat guard exists. |
| CallbackFacts.ReconcilePreservesWellFormed | callback.php:41-104 | Every request keeps the ids of payments and gateway rows consistent. |
| Pay.OrSiteRoot | pay.php:58-60 | A falsy redirect URL is replaced by the site root. Any other URL is kept. |
| Pay.OrEmpty | pay.php:54-55 | An unset phone or address becomes the empty string. |
| Pay.BuildInvoiceData | pay.php:44-67 | The invoice has the cost and the payable's currency and one line item: the description, at the cost, quantity 1. Its due date parses back to tomorrow. It carries the user's name, email, phone and address, and the three redirect URLs with the site-root fallback. |
| Pay.ErrorText | pay.php:99-101 | No contract of its own. The text of one `errors` entry. It is specified by `PayFacts.OneLinePerError`. |
| Pay.ErrorLines | pay.php:99-101 | No contract of its own. The text the error loop builds. It is specified by `PayFacts.ErrorLinesAppend` and `PayFacts.OneLinePerError`. |
| Pay.JoinErrors | pay.php:97-101 | The loop's text is the concatenated error lines of the `errors` entries, in order. |
| Pay.FailureDetail | pay.php:97-104 | Takes `errors` if it is set, otherwise `message` if that is set, otherwise the generic "Unknown error occurred". |
| Pay.Initiate | pay.php:39-109 | No contract of its own. pay.php as written, as a function of the state and the inputs. It is specified by the `PayFacts` lemmas about it below. |
| Pay.InitiateIntended | pay.php:39-109 | No contract of its own. pay.php with the gateway row keyed by the saved id. It is specified by the `PayFacts.Intended…` lemmas below. |
| Pay.ProcessPayment | pay.php:39-109 | Running the script against the database leaves exactly the state, sends exactly the request and ends exactly as `Initiate` defines. On an accepted invoice it saves the payment and stops with the uncaught Error. |
| PayFacts.ErrorLinesAppend | pay.php:99-101 | The text of joined error lists is the concatenation of the lists' texts. |
| PayFacts.OneLinePerError | pay.php:99-101 | When no entry's text contains a newline, the text has exactly one line per entry. |
| PayFacts.InitiateWrites | pay.php:69-109 | As written, the database changes exactly by the saved payment, and only when the invoice was accepted and the save did not throw. The script ends in the uncaught Error exactly then. |
| PayFacts.AcceptedInvoiceEndsFatal | pay.php:72-87 | An accepted invoice whose save does not throw saves exactly one payment. It has the next id, the account, the purchase context, the user, the cost, the currency, gateway `shakeout` and success 0. No gateway row and no delivery are added. The result is the uncaught Error, with no redirect. |
| PayFacts.NeverRedirects | pay.php:86-95 | As written, pay.php never redirects and never adds a gateway row. |
| PayFacts.AcceptedReplyShowsError | pay.php:72-95 | For the reply 200 `{"status":"success"}` with no fault, the script as written ends in the Error, while the intended one redirects. |
| PayFacts.NoWritesUnlessAccepted | pay.php:72-92 | The database changes only if the API answered 200 with status `success` and saving the payment did not throw. |
| PayFacts.HttpErrorFails | classes/shakeout_helper.php:65-68 | A status other than 200 writes nothing and fails with `apierror` carrying the status and body. |
| PayFacts.RefusalFails | pay.php:96-108 | A provider refusal writes nothing. The exception caught is `paymentfailed` with the joined provider text, so the result is the same `paymentfailed` for every refusal. |
| PayFacts.SentIsInvoiceRequest | pay.php:39-70 | On every path the request sent is the one built from the configuration's key and the invoice data. |
| PayFacts.SentInvoice | pay.php:42-70 | The request is a POST to the endpoint under the configured key. Its single item costs the invoice's amount, which is the rounded cost, and its due date reads back as tomorrow. |
| PayFacts.DetailsAgreeWithInvoice | classes/shakeout_helper.php:111-119 | `get_payment_details` reports the amount and currency that pay.php invoices. |
| PayFacts.InitiatePreservesWellFormed | pay.php:74-87 | pay.php as written keeps ids consistent. |
| PayFacts.IntendedAgreesBeforeSave | pay.php:69-83 | The correction sends the same request. Unless the invoice was accepted and saved, it gives the same state and result as the code as written. |
| PayFacts.IntendedWrites | pay.php:69-109 | In the intended script, the database after pay.php is one of three things: unchanged; with the new payment only, when inserting the gateway row throws; or with the payment and its gateway row, on success. The script redirects, to the answer's URL, exactly on success. |
| PayFacts.IntendedAcceptedInvoiceRecorded | pay.php:72-95 | In the intended script, an accepted invoice with no fault saves exactly one payment, with the fields listed for `AcceptedInvoiceEndsFatal`. It adds exactly one gateway row, which points at that payment and holds the invoice id, reference and URL, created at `now`. The script then redirects to that row's URL. |
| PayFacts.IntendedRedirectExactlyOnSuccess | pay.php:69-109 | The intended script redirects exactly when the invoice was accepted and both writes went through. |
| PayFacts.IntendedInsertFailureKeepsPayment | pay.php:74-92 | In the intended script, if inserting the gateway row throws, the saved payment stays, no gateway row is added and the result is the database error. |
| PayFacts.WritesWellFormed | pay.php:74-92 | The intended writes keep ids consistent. On success, the lookup by the new payment id finds the new row. |
| PayFacts.IntendedPreservesWellFormed | pay.php:74-92 | The intended script keeps ids consistent. After a redirect, the lookup by the new payment id finds the new gateway row. |
| Gateway.SupportedCurrencies | classes/gateway.php:37-41 | The list is exactly EGP, USD, EUR and GBP, in that order: four distinct codes. |
| Gateway.ValidateGatewayForm | classes/gateway.php:81-88 | The form counts as empty in PHP's sense when a key is missing, null, `""` or `"0"`. Each of `apikey` and `secretkey` that is empty gets the "cannot be enabled" message. A non-empty one keeps its earlier entry, or its absence. Every other key is unchanged. With both keys non-empty the errors are unchanged. |
| Gateway.TextKeysAccepted | classes/gateway.php:82-87 | A text key counts as empty exactly when it is `""` or `"0"`. |
| Gateway.MissingKeyFlagged | classes/gateway.php:82-87 | A form without the key counts as empty there. |
| Privacy.TableFields | classes/privacy/provider.php:41-49 | Declares 7 gateway-table fields, each with its `privacy:metadata:paygw_shakeout:<field>` string. |
| Privacy.ExternalFields | classes/privacy/provider.php:51-57 | Declares 5 fields sent to the API, each with its `privacy:metadata:shakeout_api:<field>` string. |
| Privacy.GetMetadata | classes/privacy/provider.php:40-60 | Adds the table declaration, then the external-location declaration, and returns the same collection. |
| Privacy.Export | classes/privacy/provider.php:68-83 | Returns null exactly when no gateway row has the payment id. Otherwise it exports the first such row's invoice id, reference and status unchanged, and its creation time transformed. The modification time is null exactly when the stored one is unset or 0, and transformed otherwise. |
| Privacy.ExportPaymentData | classes/privacy/provider.php:68-83 | Changes nothing and returns what `Export` defines for the current rows. |
| Privacy.DeletePaymentData | classes/privacy/provider.php:90-93 | The new state is the old one with that payment's gateway rows removed. |
| Privacy.RemoveIdempotent | classes/privacy/provider.php:92 | Deleting twice leaves the same table as deleting once. |
| Privacy.ExportAfterDeleteIsNull | classes/privacy/provider.php:71-74 | After a deletion, nothing is exported for that payment. |
| Privacy.DeleteKeepsOtherExports | classes/privacy/provider.php:92 | Deleting one payment's rows leaves every other payment's export as it was. |
| Privacy.RemoveKeepsIdsIncreasing | classes/privacy/provider.php:92 | The rows that remain keep their order. |
| Privacy.DeletePreservesWellFormed | classes/privacy/provider.php:92 | Deletion keeps the database consistent. |

## Left out

- Network I/O: the curl transfer is an input `HttpReply` (status, body and decoded body). A failed transfer is a reply of any status other than 200.
- Reading `php://input` and `json_decode`: the webhook's input is the decoded value. Text that is not JSON is null.
- JSON objects with duplicate keys: the model has no rules for them, and a lookup finds the first entry.
- Floating-point values in JSON: not modelled. Amounts in the invoice are `real`, and `get_rounded_cost` is a parameter.
- Reading a string offset (`$str['key']`) on a decoded value that is a string: the model reads it as null. PHP raises a warning or an error instead.
- SHA-256: an uninterpreted function parameter.
- PHP versions before 8: the model takes PHP 8 semantics, where `hash_equals` throws a TypeError for a signature that is not a string (`CallbackFacts.NonStringSignatureIsFatal`, `Callback.Response.Fatal`). Under PHP 7 it warns and returns false, and callback.php would answer 400 "Invalid signature".
- `hash_equals`' constant-time comparison: a timing property outside the model.
- What Moodle does with an uncaught PHP Error: the model stops at `Callback.Response.Fatal`.
- `error_log` in callback.php: logging, which has no effect on state or response.
- The curl object's configuration: Moodle's `curl::setopt` throws a `coding_exception` for an option key that is not a string. `post()` with its default parameters also resets `CURLOPT_POSTFIELDS`. The model assumes the curl object accepts the configuration in `classes/shakeout_helper.php:54-60` and sends the encoded body.
- `helper::save_payment`'s return type: host code. The model takes the integer id that it returns. That is why `get_id()` on it is an Error (see "## Findings").
- Developer-debugging mode: in that mode `moodle_exception` appends its debug information to its message. The model takes Moodle's normal mode.
- `redirect()`, `moodle_exception` rendering and language-string lookup: the results name the URL and the exception's error code and debug text instead.
- `require_login`, `required_param` cleaning and the parameter types: host behaviour. The model takes the cleaned parameters.
- The host's payment, configuration and user APIs: parameters of the model.
- The payments table schema: the model treats `success` as a column of the payment, as the code does. Whether the host table has that column is not modelled.
- Moodle's consistency of `get_record` when several rows match: the model takes the first row in insertion order.
- Concurrency between two requests: each request is modelled as one atomic step with explicit failure points. The race between two webhooks for the same invoice is not modelled.
- Database transactions: none are used, so partial writes are modelled, not rolled back.
- `add_configuration_to_gateway_form`, `settings.php`, the admin setting page, the JavaScript modal, `demo_payment.php` and `db/upgrade.php`: form rendering, administration screens and installation, outside the payment lifecycle.
- Privacy.Export: `transform::datetime` is a parameter, so the exported times are the parameter's values for the stored timestamps.

## Findings

| source | as written | input that shows it | evidently intended | confidence | as-written member | corrected member |
|---|---|---|---|---|---|---|
| pay.php:74-87 | `save_payment` returns the new payment's integer id. The next statement calls `$paymentrecord->get_id()` on it. That is an Error, which `catch (Exception)` does not catch, so the script dies after saving the payment. No gateway row is added and there is no redirect. | API reply 200 with body `{"status":"success"}` and no host fault | Use the returned id as `paymentid`, insert the gateway row and redirect to the invoice URL | not executed | Pay.Initiate, PayFacts.AcceptedInvoiceEndsFatal, PayFacts.AcceptedReplyShowsError | Pay.InitiateIntended, PayFacts.IntendedAcceptedInvoiceRecorded, PayFacts.IntendedRedirectExactlyOnSuccess |
