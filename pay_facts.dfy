/** What payment initiation guarantees, proved about `Pay.Initiate`. */
module PayFacts {
  import opened Base
  import opened Php
  import opened Records
  import opened ShakeoutHelper
  import opened Dates
  import opened Pay

  // ---------------------------------------------------------------------
  // The error lines

  lemma {:induction false} ErrorLinesAppend(a: seq<Value>, b: seq<Value>)
    ensures ErrorLines(a + b) == ErrorLines(a) + ErrorLines(b)
    decreases |b|
  {
    if b == [] {
      assert a + b == a;
    } else {
      var b' := b[..|b| - 1];
      assert (a + b)[..|a + b| - 1] == a + b';
      ErrorLinesAppend(a, b');
    }
  }

  function CountNewlines(s: string): nat
  {
    if s == [] then 0 else (if s[0] == '\n' then 1 else 0) + CountNewlines(s[1..])
  }

  lemma {:induction false} CountNewlinesAppend(s: string, t: string)
    ensures CountNewlines(s + t) == CountNewlines(s) + CountNewlines(t)
    decreases |s|
  {
    if s == [] {
      assert s + t == t;
    } else {
      assert (s + t)[1..] == s[1..] + t;
      CountNewlinesAppend(s[1..], t);
    }
  }

  /** When no entry's text holds a newline, the joined text has exactly one
      line per entry. */
  lemma {:induction false} OneLinePerError(es: seq<Value>)
    requires forall k :: 0 <= k < |es| ==> CountNewlines(ErrorText(es[k])) == 0
    ensures CountNewlines(ErrorLines(es)) == |es|
    decreases |es|
  {
    if es != [] {
      var init := es[..|es| - 1];
      OneLinePerError(init);
      CountNewlinesAppend(ErrorLines(init), ErrorText(es[|es| - 1]));
      CountNewlinesAppend(ErrorLines(init) + ErrorText(es[|es| - 1]), "\n");
    }
  }

  // ---------------------------------------------------------------------
  // pay.php as written

  /** An accepted invoice whose cost or status fields are never examined
      further: the reply that shows the script's Error. */
  predicate AcceptedReply(reply: HttpReply)
  {
    reply.code == 200 && reply.decoded.Some? && Accepted(reply.decoded.value)
  }

  /** The payment pay.php saves for an accepted invoice. */
  function SavedPayment(db: Db, req: PayRequest, payable: Payable, cost: real, userId: int): Payment
  {
    Payment(db.nextPaymentId, payable.accountId, req.component, req.paymentArea, req.itemId,
            userId, cost, payable.currency, "shakeout", 0)
  }

  /** The database after pay.php as written: the payment is saved exactly
      when the invoice was accepted and the save did not throw, and no
      gateway row is ever added; the script ends in the uncaught Error
      exactly then. */
  lemma {:induction false} InitiateWrites(db: Db, req: PayRequest, config: GatewayConfig,
      payable: Payable, surcharge: real, rounding: (real, string, real) -> real, user: User,
      wwwroot: string, tomorrow: Date, now: int, reply: HttpReply, fault: PayFault)
    ensures var o := Initiate(db, req, config, payable, surcharge, rounding, user, wwwroot, tomorrow, now, reply, fault);
      var cost := rounding(payable.amount, payable.currency, surcharge);
      && o.db == (if AcceptedReply(reply) && fault != SaveThrows
                  then InsertPaymentRow(db, payable.accountId, Pay.ContextOf(req), user.id, cost,
                                        payable.currency, GatewayName)
                  else db)
      && (o.result == Fatal <==> AcceptedReply(reply) && fault != SaveThrows)
  {
  }

  /** An accepted invoice saves exactly one payment (the next payment id,
      the cost, the payable's currency, gateway 'shakeout', success 0), then
      stops on `get_id()` of the returned int: no gateway row, no delivery,
      no redirect. */
  lemma {:induction false} AcceptedInvoiceEndsFatal(db: Db, req: PayRequest, config: GatewayConfig,
      payable: Payable, surcharge: real, rounding: (real, string, real) -> real, user: User,
      wwwroot: string, tomorrow: Date, now: int, reply: HttpReply, fault: PayFault)
    requires AcceptedReply(reply) && fault != SaveThrows
    ensures var o := Initiate(db, req, config, payable, surcharge, rounding, user, wwwroot, tomorrow, now, reply, fault);
      var id := db.nextPaymentId;
      var cost := rounding(payable.amount, payable.currency, surcharge);
      && o.db.payments == db.payments[id := SavedPayment(db, req, payable, cost, user.id)]
      && o.db.records == db.records
      && o.db.deliveries == db.deliveries
      && o.db.nextPaymentId == id + 1 && o.db.nextRecordId == db.nextRecordId
      && o.result == Fatal
  {
    InitiateWrites(db, req, config, payable, surcharge, rounding, user, wwwroot, tomorrow, now, reply, fault);
  }

  /** As written, pay.php never redirects and never adds a gateway row. */
  lemma {:induction false} NeverRedirects(db: Db, req: PayRequest, config: GatewayConfig,
      payable: Payable, surcharge: real, rounding: (real, string, real) -> real, user: User,
      wwwroot: string, tomorrow: Date, now: int, reply: HttpReply, fault: PayFault)
    ensures var o := Initiate(db, req, config, payable, surcharge, rounding, user, wwwroot, tomorrow, now, reply, fault);
      !o.result.Redirected? && o.db.records == db.records && o.db.nextRecordId == db.nextRecordId
  {
    InitiateWrites(db, req, config, payable, surcharge, rounding, user, wwwroot, tomorrow, now, reply, fault);
  }

  /** A concrete reply on which the code and its evident intent part: the
      API accepts the invoice, the script as written dies, the intended one
      redirects. */
  lemma {:induction false} AcceptedReplyShowsError(db: Db, req: PayRequest, config: GatewayConfig,
      payable: Payable, surcharge: real, rounding: (real, string, real) -> real, user: User,
      wwwroot: string, tomorrow: Date, now: int)
    ensures var reply := HttpReply(200, "{\"status\":\"success\"}", Some(Arr([("status", Str("success"))])));
      && Initiate(db, req, config, payable, surcharge, rounding, user, wwwroot, tomorrow, now, reply, NoPayFault).result == Fatal
      && InitiateIntended(db, req, config, payable, surcharge, rounding, user, wwwroot, tomorrow, now, reply, NoPayFault).result == Redirected(Null)
  {
    var reply := HttpReply(200, "{\"status\":\"success\"}", Some(Arr([("status", Str("success"))])));
    assert Accepted(reply.decoded.value);
    assert Field(reply.decoded.value, "data", "url") == Null;
    AcceptedInvoiceEndsFatal(db, req, config, payable, surcharge, rounding, user, wwwroot, tomorrow, now, reply, NoPayFault);
  }

  /** Nothing is written unless the API answered 200 with status 'success'. */
  lemma {:induction false} NoWritesUnlessAccepted(db: Db, req: PayRequest, config: GatewayConfig,
      payable: Payable, surcharge: real, rounding: (real, string, real) -> real, user: User,
      wwwroot: string, tomorrow: Date, now: int, reply: HttpReply, fault: PayFault)
    ensures var o := Initiate(db, req, config, payable, surcharge, rounding, user, wwwroot, tomorrow, now, reply, fault);
      o.db != db ==> AcceptedReply(reply) && fault != SaveThrows
  {
  }

  /** A status other than 200 fails with `apierror` carrying status and body. */
  lemma {:induction false} HttpErrorFails(db: Db, req: PayRequest, config: GatewayConfig,
      payable: Payable, surcharge: real, rounding: (real, string, real) -> real, user: User,
      wwwroot: string, tomorrow: Date, now: int, reply: HttpReply, fault: PayFault)
    requires reply.code != 200
    ensures var o := Initiate(db, req, config, payable, surcharge, rounding, user, wwwroot, tomorrow, now, reply, fault);
      o.db == db && o.result == PaymentFailed(Thrown("apierror", ApiErrorDetail(reply.code, reply.body)))
  {
  }

  /** A provider refusal fails, writes nothing, and the text built from
      `errors`/`message` goes only into the caught exception: the exception
      the script finally throws is the same for every refusal. */
  lemma {:induction false} RefusalFails(db: Db, req: PayRequest, config: GatewayConfig,
      payable: Payable, surcharge: real, rounding: (real, string, real) -> real, user: User,
      wwwroot: string, tomorrow: Date, now: int, reply: HttpReply, fault: PayFault)
    requires reply.code == 200 && reply.decoded.Some? && !Accepted(reply.decoded.value)
    ensures var o := Initiate(db, req, config, payable, surcharge, rounding, user, wwwroot, tomorrow, now, reply, fault);
      && o.db == db
      && o.result == PaymentFailed(Thrown("paymentfailed", FailureDetail(reply.decoded.value)))
      && o.result.caught.errorcode == "paymentfailed"
  {
  }

  /** Whatever the answer, the request sent is the one built from the inputs. */
  lemma {:induction false} SentIsInvoiceRequest(db: Db, req: PayRequest, config: GatewayConfig,
      payable: Payable, surcharge: real, rounding: (real, string, real) -> real, user: User,
      wwwroot: string, tomorrow: Date, now: int, reply: HttpReply, fault: PayFault)
    ensures Initiate(db, req, config, payable, surcharge, rounding, user, wwwroot, tomorrow, now, reply, fault).sent ==
            InvoiceRequest(ToStr(config.apikey),
                           BuildInvoiceData(req, rounding(payable.amount, payable.currency, surcharge),
                                            payable.currency, tomorrow, user, config, wwwroot))
  {
  }

  /** The request sent is a POST of the invoice to the fixed endpoint under
      the configured key, whose single item costs what the invoice does and
      whose due date reads back as `tomorrow`. */
  lemma {:induction false} SentInvoice(db: Db, req: PayRequest, config: GatewayConfig,
      payable: Payable, surcharge: real, rounding: (real, string, real) -> real, user: User,
      wwwroot: string, tomorrow: Date, now: int, reply: HttpReply, fault: PayFault)
    requires ValidDate(tomorrow)
    ensures var o := Initiate(db, req, config, payable, surcharge, rounding, user, wwwroot, tomorrow, now, reply, fault);
      && o.sent.verb == "POST" && o.sent.url == ApiEndpoint
      && ApiKeyOf(o.sent.headers) == Some(ToStr(config.apikey))
      && o.sent.body.amount == rounding(payable.amount, payable.currency, surcharge)
      && o.sent.body.invoiceItems == [InvoiceItem(req.description, o.sent.body.amount, 1)]
      && ParseYmd(o.sent.body.dueDate) == Some(tomorrow)
  {
    SentIsInvoiceRequest(db, req, config, payable, surcharge, rounding, user, wwwroot, tomorrow, now, reply, fault);
  }

  /** `get_payment_details` reports the amount and currency pay.php invoices. */
  lemma {:induction false} DetailsAgreeWithInvoice(db: Db, req: PayRequest, config: GatewayConfig,
      payable: Payable, surcharge: real, rounding: (real, string, real) -> real, user: User,
      wwwroot: string, tomorrow: Date, now: int, reply: HttpReply, fault: PayFault,
      users: map<int, User>)
    ensures var o := Initiate(db, req, config, payable, surcharge, rounding, user, wwwroot, tomorrow, now, reply, fault);
      var d := GetPaymentDetails(Pay.ContextOf(req), user.id, payable, surcharge, rounding, users);
      d.amount == o.sent.body.amount && d.currency == o.sent.body.currency
  {
    SentIsInvoiceRequest(db, req, config, payable, surcharge, rounding, user, wwwroot, tomorrow, now, reply, fault);
  }

  lemma InsertPaymentRowWellFormed(db: Db, accountId: int, c: Context, userId: int,
                                   amount: real, currency: string, gateway: string)
    requires WellFormed(db)
    ensures WellFormed(InsertPaymentRow(db, accountId, c, userId, amount, currency, gateway))
  {
  }

  /** Appending a gateway row keeps ids consistent; when no earlier row has
      its payment id, it is the row a lookup by that id finds. */
  lemma InsertRecordRowWellFormed(db: Db, paymentId: int, invoiceId: Option<string>,
                                  invoiceRef: Option<string>, invoiceUrl: Option<string>,
                                  timeCreated: int)
    requires WellFormed(db) && paymentId < db.nextPaymentId
    ensures var d := InsertRecordRow(db, paymentId, invoiceId, invoiceRef, invoiceUrl, timeCreated);
      && WellFormed(d)
      && ((forall i :: 0 <= i < |db.records| ==> db.records[i].paymentId != paymentId) ==>
            FindByPayment(d.records, paymentId) == Some(|db.records|))
  {
    var d := InsertRecordRow(db, paymentId, invoiceId, invoiceRef, invoiceUrl, timeCreated);
    assert forall i :: 0 <= i < |db.records| ==> d.records[i] == db.records[i];
    assert d.records[|db.records|].paymentId == paymentId;
  }

  /** pay.php as written keeps ids consistent. */
  lemma {:induction false} InitiatePreservesWellFormed(db: Db, req: PayRequest, config: GatewayConfig,
      payable: Payable, surcharge: real, rounding: (real, string, real) -> real, user: User,
      wwwroot: string, tomorrow: Date, now: int, reply: HttpReply, fault: PayFault)
    requires WellFormed(db)
    ensures WellFormed(Initiate(db, req, config, payable, surcharge, rounding, user, wwwroot, tomorrow, now, reply, fault).db)
  {
    InitiateWrites(db, req, config, payable, surcharge, rounding, user, wwwroot, tomorrow, now, reply, fault);
    InsertPaymentRowWellFormed(db, payable.accountId, Pay.ContextOf(req), user.id,
                               rounding(payable.amount, payable.currency, surcharge),
                               payable.currency, GatewayName);
  }

  // ---------------------------------------------------------------------
  // pay.php as intended

  /** The correction changes nothing before the payment is saved: the same
      request is sent and, unless the invoice was accepted and saved, the
      same state and end result. */
  lemma {:induction false} IntendedAgreesBeforeSave(db: Db, req: PayRequest, config: GatewayConfig,
      payable: Payable, surcharge: real, rounding: (real, string, real) -> real, user: User,
      wwwroot: string, tomorrow: Date, now: int, reply: HttpReply, fault: PayFault)
    ensures var o := Initiate(db, req, config, payable, surcharge, rounding, user, wwwroot, tomorrow, now, reply, fault);
      var c := InitiateIntended(db, req, config, payable, surcharge, rounding, user, wwwroot, tomorrow, now, reply, fault);
      && c.sent == o.sent
      && (!(AcceptedReply(reply) && fault != SaveThrows) ==> c == o)
  {
  }

  /** The database effect of the intended pay.php: nothing, the payment, or
      the payment and then its gateway row. */
  function Writes(db: Db, req: PayRequest, payable: Payable, cost: real, userId: int,
                  reply: HttpReply, now: int, fault: PayFault): Db
  {
    if !AcceptedReply(reply) || fault == SaveThrows then db
    else
      var response := reply.decoded.value;
      var db1 := InsertPaymentRow(db, payable.accountId, Pay.ContextOf(req), userId, cost,
                                  payable.currency, GatewayName);
      if fault == InsertThrows then db1
      else InsertRecordRow(db1, db.nextPaymentId,
                           Column(Field(response, "data", "invoice_id")),
                           Column(Field(response, "data", "invoice_ref")),
                           Column(Field(response, "data", "url")), now)
  }

  lemma {:induction false} IntendedWrites(db: Db, req: PayRequest, config: GatewayConfig,
      payable: Payable, surcharge: real, rounding: (real, string, real) -> real, user: User,
      wwwroot: string, tomorrow: Date, now: int, reply: HttpReply, fault: PayFault)
    ensures var o := InitiateIntended(db, req, config, payable, surcharge, rounding, user, wwwroot, tomorrow, now, reply, fault);
      && o.db == Writes(db, req, payable, rounding(payable.amount, payable.currency, surcharge),
                        user.id, reply, now, fault)
      && (o.result.Redirected? <==> AcceptedReply(reply) && fault == NoPayFault)
      && (o.result.Redirected? ==> o.result == Redirected(Field(reply.decoded.value, "data", "url")))
  {
    var o := InitiateIntended(db, req, config, payable, surcharge, rounding, user, wwwroot, tomorrow, now, reply, fault);
    if AcceptedReply(reply) && fault != SaveThrows {
      var response := reply.decoded.value;
      var db1 := InsertPaymentRow(db, payable.accountId, Pay.ContextOf(req), user.id,
                                  rounding(payable.amount, payable.currency, surcharge),
                                  payable.currency, GatewayName);
      assert CreateInvoiceResult(reply) == Ok(response);
      if fault == InsertThrows {
        assert o.db == db1;
      } else {
        assert o.db == InsertRecordRow(db1, db.nextPaymentId,
                                       Column(Field(response, "data", "invoice_id")),
                                       Column(Field(response, "data", "invoice_ref")),
                                       Column(Field(response, "data", "url")), now);
      }
    } else {
      assert o.db == db;
    }
  }

  /** An accepted invoice with no host failure saves one payment (the next
      payment id, the cost, the payable's currency, gateway 'shakeout') and
      then one gateway row pointing at it with the invoice id, reference and
      url of the answer, and redirects to that same url. */
  lemma {:induction false} IntendedAcceptedInvoiceRecorded(db: Db, req: PayRequest, config: GatewayConfig,
      payable: Payable, surcharge: real, rounding: (real, string, real) -> real, user: User,
      wwwroot: string, tomorrow: Date, now: int, reply: HttpReply)
    requires AcceptedReply(reply)
    ensures var o := InitiateIntended(db, req, config, payable, surcharge, rounding, user, wwwroot, tomorrow, now, reply, NoPayFault);
      var response := reply.decoded.value;
      var id := db.nextPaymentId;
      var cost := rounding(payable.amount, payable.currency, surcharge);
      && o.db.payments == db.payments[id := SavedPayment(db, req, payable, cost, user.id)]
      && o.db.records == db.records + [GatewayRecord(db.nextRecordId, id,
                                        Column(Field(response, "data", "invoice_id")),
                                        Column(Field(response, "data", "invoice_ref")),
                                        Column(Field(response, "data", "url")), None, now, None)]
      && o.db.deliveries == db.deliveries
      && o.result == Redirected(Field(response, "data", "url"))
      && o.db.records[|db.records|].invoiceUrl == Column(o.result.url)
  {
    IntendedWrites(db, req, config, payable, surcharge, rounding, user, wwwroot, tomorrow, now, reply, NoPayFault);
  }

  /** The intended script redirects exactly when the invoice was accepted
      and both writes went through; every other path ends in an exception. */
  lemma {:induction false} IntendedRedirectExactlyOnSuccess(db: Db, req: PayRequest, config: GatewayConfig,
      payable: Payable, surcharge: real, rounding: (real, string, real) -> real, user: User,
      wwwroot: string, tomorrow: Date, now: int, reply: HttpReply, fault: PayFault)
    ensures var o := InitiateIntended(db, req, config, payable, surcharge, rounding, user, wwwroot, tomorrow, now, reply, fault);
      o.result.Redirected? <==> AcceptedReply(reply) && fault == NoPayFault
  {
    IntendedWrites(db, req, config, payable, surcharge, rounding, user, wwwroot, tomorrow, now, reply, fault);
  }

  /** A failure inserting the gateway row leaves the payment already saved,
      adds no row and fails with the database error. */
  lemma {:induction false} IntendedInsertFailureKeepsPayment(db: Db, req: PayRequest, config: GatewayConfig,
      payable: Payable, surcharge: real, rounding: (real, string, real) -> real, user: User,
      wwwroot: string, tomorrow: Date, now: int, reply: HttpReply)
    requires AcceptedReply(reply)
    ensures var o := InitiateIntended(db, req, config, payable, surcharge, rounding, user, wwwroot, tomorrow, now, reply, InsertThrows);
      var id := db.nextPaymentId;
      var cost := rounding(payable.amount, payable.currency, surcharge);
      && o.db.records == db.records
      && o.db.payments == db.payments[id := SavedPayment(db, req, payable, cost, user.id)]
      && o.result == PaymentFailed(DbWriteError)
  {
    IntendedWrites(db, req, config, payable, surcharge, rounding, user, wwwroot, tomorrow, now, reply, InsertThrows);
  }

  lemma {:induction false} WritesWellFormed(db: Db, req: PayRequest, payable: Payable, cost: real,
                                            userId: int, reply: HttpReply, now: int, fault: PayFault)
    requires WellFormed(db)
    ensures var d := Writes(db, req, payable, cost, userId, reply, now, fault);
      && WellFormed(d)
      && (AcceptedReply(reply) && fault == NoPayFault ==>
            FindByPayment(d.records, db.nextPaymentId) == Some(|db.records|))
  {
    var db1 := InsertPaymentRow(db, payable.accountId, Pay.ContextOf(req), userId, cost,
                                payable.currency, GatewayName);
    var d := Writes(db, req, payable, cost, userId, reply, now, fault);
    if !AcceptedReply(reply) || fault == SaveThrows {
      assert d == db;
    } else {
      InsertPaymentRowWellFormed(db, payable.accountId, Pay.ContextOf(req), userId, cost,
                                 payable.currency, GatewayName);
      if fault == InsertThrows {
        assert d == db1;
      } else {
        var response := reply.decoded.value;
        var invoiceId := Column(Field(response, "data", "invoice_id"));
        var invoiceRef := Column(Field(response, "data", "invoice_ref"));
        var invoiceUrl := Column(Field(response, "data", "url"));
        assert d == InsertRecordRow(db1, db.nextPaymentId, invoiceId, invoiceRef, invoiceUrl, now);
        assert db1.records == db.records;
        InsertRecordRowWellFormed(db1, db.nextPaymentId, invoiceId, invoiceRef, invoiceUrl, now);
      }
    }
  }

  /** The intended script keeps ids consistent, and the new gateway row is
      the one a lookup by the new payment's id finds. */
  lemma {:induction false} IntendedPreservesWellFormed(db: Db, req: PayRequest, config: GatewayConfig,
      payable: Payable, surcharge: real, rounding: (real, string, real) -> real, user: User,
      wwwroot: string, tomorrow: Date, now: int, reply: HttpReply, fault: PayFault)
    requires WellFormed(db)
    ensures var o := InitiateIntended(db, req, config, payable, surcharge, rounding, user, wwwroot, tomorrow, now, reply, fault);
      && WellFormed(o.db)
      && (o.result.Redirected? ==> FindByPayment(o.db.records, db.nextPaymentId) == Some(|db.records|))
  {
    IntendedWrites(db, req, config, payable, surcharge, rounding, user, wwwroot, tomorrow, now, reply, fault);
    WritesWellFormed(db, req, payable, rounding(payable.amount, payable.currency, surcharge),
                     user.id, reply, now, fault);
  }
}
