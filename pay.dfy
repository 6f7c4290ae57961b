/** Payment initiation (pay.php): build the invoice, ask Shake-Out for it,
    and on success record the payment and its gateway row. */
module Pay {
  import opened Base
  import opened Php
  import opened Records
  import opened ShakeoutHelper
  import opened Dates
  import Ledger

  /** The four request parameters of pay.php. */
  datatype PayRequest = PayRequest(component: string, paymentArea: string, itemId: int,
                                   description: string)

  /** How the script ends: a redirect to the provider's page; the
      `paymentfailed` exception thrown from the outer catch, whose debug
      information is the message of the exception `caught` there; or
      `Fatal`, a PHP Error that `catch (Exception)` does not catch. */
  datatype PayResult = Redirected(url: Value) | PaymentFailed(caught: Thrown) | Fatal

  /** Which host write, if any, throws. */
  datatype PayFault = NoPayFault | SaveThrows | InsertThrows

  /** The final state, the request that was sent, and the script's end. */
  datatype PayOutcome = PayOutcome(db: Db, sent: HttpRequest, result: PayResult)

  /** `get_string('unknownerror', 'paygw_shakeout')`. */
  const UnknownError: string := "Unknown error occurred"

  /** The exception a failing database write raises. */
  const DbWriteError: Thrown := Thrown("dmlwriteexception", "")

  const GatewayName: string := "shakeout"

  function ContextOf(req: PayRequest): Context
  {
    Context(req.component, req.paymentArea, req.itemId)
  }

  /** `$v ?: $CFG->wwwroot`. */
  function OrSiteRoot(v: Value, wwwroot: string): (r: Value)
    ensures Truthy(v) ==> r == v
    ensures !Truthy(v) ==> r == Str(wwwroot)
  {
    if Truthy(v) then v else Str(wwwroot)
  }

  /** `isset($v) ? $v : ''` for an optional user field. */
  function OrEmpty(v: Option<string>): (s: string)
    ensures v.Some? ==> s == v.value
    ensures v.None? ==> s == ""
  {
    if v.Some? then v.value else ""
  }

  /** `$invoicedata`: one line item for the whole cost, due `tomorrow`. */
  function BuildInvoiceData(req: PayRequest, cost: real, currency: string, tomorrow: Date,
                            user: User, config: GatewayConfig, wwwroot: string): (d: InvoiceData)
    ensures d.amount == cost && d.currency == currency
    ensures |d.invoiceItems| == 1
    ensures d.invoiceItems[0] == InvoiceItem(req.description, d.amount, 1)
    ensures ValidDate(tomorrow) ==> ParseYmd(d.dueDate) == Some(tomorrow)
    ensures d.customer.firstName == user.firstName && d.customer.lastName == user.lastName
    ensures d.customer.email == user.email
    ensures d.customer.phone == OrEmpty(user.phone1) && d.customer.address == OrEmpty(user.address)
    ensures d.redirectionUrls == RedirectionUrls(OrSiteRoot(config.successurl, wwwroot),
                                                 OrSiteRoot(config.failureurl, wwwroot),
                                                 OrSiteRoot(config.pendingurl, wwwroot))
  {
    var due := FormatYmd(tomorrow);
    assert ValidDate(tomorrow) ==> ParseYmd(due) == Some(tomorrow) by {
      if ValidDate(tomorrow) { FormatYmdRoundTrip(tomorrow); }
    }
    InvoiceData(
      cost,
      currency,
      due,
      Customer(user.firstName, user.lastName, user.email, OrEmpty(user.phone1), OrEmpty(user.address)),
      RedirectionUrls(OrSiteRoot(config.successurl, wwwroot),
                      OrSiteRoot(config.failureurl, wwwroot),
                      OrSiteRoot(config.pendingurl, wwwroot)),
      [InvoiceItem(req.description, cost, 1)])
  }

  // ---------------------------------------------------------------------
  // The error text of a refused invoice

  /** One entry of `errors`: its first element if it is an array. */
  function ErrorText(e: Value): string
  {
    ToStr(if e.Arr? then Index(e, "0") else e)
  }

  /** Each entry's text followed by a newline, in order. */
  function ErrorLines(es: seq<Value>): string
  {
    if es == [] then "" else ErrorLines(es[..|es| - 1]) + ErrorText(es[|es| - 1]) + "\n"
  }

  /** The `foreach` over `$response['errors']`. */
  method JoinErrors(errors: Value) returns (text: string)
    ensures text == ErrorLines(Elements(errors))
  {
    var es := Elements(errors);
    text := "";
    var i := 0;
    while i < |es|
      invariant 0 <= i <= |es|
      invariant text == ErrorLines(es[..i])
    {
      assert es[..i + 1][..i] == es[..i];
      text := text + ErrorText(es[i]) + "\n";
      i := i + 1;
    }
    assert es[..|es|] == es;
  }

  /** The provider's reason for refusing: the `errors` lines if `errors` is
      set, else `message` if set, else the generic text. */
  function FailureDetail(response: Value): (s: string)
    ensures IsSet(Index(response, "errors")) ==> s == ErrorLines(Elements(Index(response, "errors")))
    ensures !IsSet(Index(response, "errors")) && IsSet(Index(response, "message")) ==>
            s == ToStr(Index(response, "message"))
    ensures !IsSet(Index(response, "errors")) && !IsSet(Index(response, "message")) ==>
            s == UnknownError
  {
    if IsSet(Index(response, "errors")) then ErrorLines(Elements(Index(response, "errors")))
    else if IsSet(Index(response, "message")) then ToStr(Index(response, "message"))
    else UnknownError
  }

  predicate Accepted(response: Value)
  {
    Index(response, "status") == Str("success")
  }

  // ---------------------------------------------------------------------
  // The script

  /** The request pay.php sends, built from its inputs. */
  function SentRequest(req: PayRequest, config: GatewayConfig, payable: Payable, cost: real,
                       tomorrow: Date, user: User, wwwroot: string): HttpRequest
  {
    InvoiceRequest(ToStr(config.apikey),
                   BuildInvoiceData(req, cost, payable.currency, tomorrow, user, config, wwwroot))
  }

  /** The script's end when the provider refused the invoice. */
  function Refused(response: Value): PayResult
  {
    PaymentFailed(Thrown("paymentfailed", FailureDetail(response)))
  }

  /** pay.php as written. `rounding` is the host's `get_rounded_cost`,
      `reply` what the API answered, `now` the value of `time()` and
      `tomorrow` the date of `new DateTime('tomorrow')`. The host's
      `save_payment` returns the new payment's id as an int, so the call
      `$paymentrecord->get_id()` that follows it raises an Error: the saved
      payment stays, no gateway row is inserted and there is no redirect.
      `now` and an `InsertThrows` fault therefore play no part. */
  function Initiate(db: Db, req: PayRequest, config: GatewayConfig, payable: Payable,
                    surcharge: real, rounding: (real, string, real) -> real, user: User,
                    wwwroot: string, tomorrow: Date, now: int, reply: HttpReply,
                    fault: PayFault): PayOutcome
  {
    var cost := rounding(payable.amount, payable.currency, surcharge);
    var sent := SentRequest(req, config, payable, cost, tomorrow, user, wwwroot);
    match CreateInvoiceResult(reply)
    case Err(e) => PayOutcome(db, sent, PaymentFailed(e))
    case Ok(response) =>
      if Accepted(response) then
        if fault == SaveThrows then PayOutcome(db, sent, PaymentFailed(DbWriteError))
        else
          var db1 := InsertPaymentRow(db, payable.accountId, ContextOf(req), user.id, cost,
                                      payable.currency, GatewayName);
          PayOutcome(db1, sent, Fatal)
      else PayOutcome(db, sent, Refused(response))
  }

  /** pay.php as evidently intended: the id `save_payment` returns is the
      gateway row's `paymentid`, the row is inserted and the user is
      redirected. Everywhere before the save it is `Initiate`. */
  function InitiateIntended(db: Db, req: PayRequest, config: GatewayConfig, payable: Payable,
                            surcharge: real, rounding: (real, string, real) -> real, user: User,
                            wwwroot: string, tomorrow: Date, now: int, reply: HttpReply,
                            fault: PayFault): PayOutcome
  {
    var cost := rounding(payable.amount, payable.currency, surcharge);
    var sent := SentRequest(req, config, payable, cost, tomorrow, user, wwwroot);
    match CreateInvoiceResult(reply)
    case Err(e) => PayOutcome(db, sent, PaymentFailed(e))
    case Ok(response) =>
      if Accepted(response) then
        if fault == SaveThrows then PayOutcome(db, sent, PaymentFailed(DbWriteError))
        else
          var db1 := InsertPaymentRow(db, payable.accountId, ContextOf(req), user.id, cost,
                                      payable.currency, GatewayName);
          if fault == InsertThrows then PayOutcome(db1, sent, PaymentFailed(DbWriteError))
          else
            var db2 := InsertRecordRow(db1, db.nextPaymentId,
                                       Column(Field(response, "data", "invoice_id")),
                                       Column(Field(response, "data", "invoice_ref")),
                                       Column(Field(response, "data", "url")), now);
            PayOutcome(db2, sent, Redirected(Field(response, "data", "url")))
      else PayOutcome(db, sent, Refused(response))
  }

  /** pay.php as written, step by step against the database. */
  method ProcessPayment(ledger: Ledger.Ledger, req: PayRequest, config: GatewayConfig,
                        payable: Payable, surcharge: real, rounding: (real, string, real) -> real,
                        user: User, wwwroot: string, tomorrow: Date, now: int, reply: HttpReply,
                        fault: PayFault)
    returns (sent: HttpRequest, result: PayResult)
    modifies ledger
    ensures PayOutcome(ledger.State(), sent, result) ==
            Initiate(old(ledger.State()), req, config, payable, surcharge, rounding, user,
                     wwwroot, tomorrow, now, reply, fault)
  {
    var cost := rounding(payable.amount, payable.currency, surcharge);
    var data := BuildInvoiceData(req, cost, payable.currency, tomorrow, user, config, wwwroot);
    sent := InvoiceRequest(ToStr(config.apikey), data);
    var answer := CreateInvoiceResult(reply);
    if answer.Err? {
      return sent, PaymentFailed(answer.error);
    }
    var response := answer.value;
    if Index(response, "status") == Str("success") {
      if fault == SaveThrows {
        return sent, PaymentFailed(DbWriteError);
      }
      var paymentId := ledger.SavePayment(payable.accountId, ContextOf(req), user.id, cost,
                                          payable.currency, GatewayName);
      // `$paymentrecord->get_id()` on the int `paymentId`: an Error that
      // the script's `catch (Exception)` lets through.
      result := Fatal;
    } else {
      var errors: string;
      if IsSet(Index(response, "errors")) {
        errors := JoinErrors(Index(response, "errors"));
      } else if IsSet(Index(response, "message")) {
        errors := ToStr(Index(response, "message"));
      } else {
        errors := UnknownError;
      }
      result := PaymentFailed(Thrown("paymentfailed", errors));
    }
  }
}
