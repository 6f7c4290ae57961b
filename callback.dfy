/** The webhook endpoint (callback.php): an ordered chain of guards over the
    decoded payload and the two tables, then the 'paid' transition. */
module Callback {
  import opened Base
  import opened Php
  import opened Records
  import opened ShakeoutHelper
  import Ledger

  /** The host calls inside the try block that can throw. */
  datatype Step = FindRecord | FindPayment | LoadConfig | WritePayment | WriteRecord | Deliver

  /** Which host call, if any, throws during this request. */
  datatype Fault = NoFault | ThrowsAt(step: Step)

  /** The HTTP answer: a status code and plain-text body, or `Fatal` when a
      PHP Error (not an Exception) escapes the script. */
  datatype Response = Http(code: int, body: string) | Fatal

  datatype Outcome = Outcome(db: Db, response: Response)

  const ServerError: Response := Http(500, "Server error")

  /** The stored invoice id the payload's `data.invoice_id` selects. */
  function InvoiceKey(payload: Value): Option<string>
  {
    Column(Field(payload, "data", "invoice_id"))
  }

  /** The signature verdict for `payload` against payment `p`'s gateway. */
  function CheckFor(payload: Value, p: Payment, configOf: Context -> GatewayConfig,
                    sha256: string -> string): SignatureCheck
  {
    VerifySignature(payload, Index(payload, "signature"), configOf(ContextOf(p)).secretkey, sha256)
  }

  predicate IsPaid(payload: Value)
  {
    Field(payload, "data", "invoice_status") == Str("paid")
  }

  /** The payload is JSON, selects a gateway record whose payment exists,
      and its signature matches: the point after every guard. */
  predicate Verified(db: Db, payload: Value, configOf: Context -> GatewayConfig,
                     sha256: string -> string)
  {
    && Truthy(payload)
    && FindByInvoice(db.records, InvoiceKey(payload)).Some?
    && db.records[FindByInvoice(db.records, InvoiceKey(payload)).value].paymentId in db.payments
    && CheckFor(payload, db.payments[db.records[FindByInvoice(db.records, InvoiceKey(payload)).value].paymentId],
                configOf, sha256) == Checked(true)
  }

  /** The state after the 'paid' branch's writes, each applied only if the
      host calls before it did not throw. */
  function PaidWrites(db: Db, r: GatewayRecord, p: Payment, now: int, fault: Fault): (o: Outcome)
    ensures o.response == Http(200, "OK") || o.response == ServerError
    ensures o.response == Http(200, "OK") <==> !fault.ThrowsAt? || fault.step !in {WritePayment, WriteRecord, Deliver}
  {
    if fault == ThrowsAt(WritePayment) then Outcome(db, ServerError)
    else
      var db1 := UpdatePaymentRow(db, p.(success := 1));
      if fault == ThrowsAt(WriteRecord) then Outcome(db1, ServerError)
      else
        var db2 := UpdateRecordRow(db1, r.(status := Some("paid"), timeModified := Some(now)));
        var db3 := AppendDelivery(db2, Delivery(p.component, p.paymentArea, p.itemId, p.id, p.userId));
        if fault == ThrowsAt(Deliver) then Outcome(db3, ServerError)
        else Outcome(db3, Http(200, "OK"))
  }

  /** The whole request: `payload` is what `json_decode` returned (null for
      text that is not JSON), `configOf` the host's gateway configuration,
      `now` the value of `time()`. */
  function Reconcile(db: Db, payload: Value, configOf: Context -> GatewayConfig,
                     sha256: string -> string, now: int, fault: Fault): Outcome
  {
    if !Truthy(payload) then Outcome(db, Http(400, "Invalid JSON"))
    else if fault == ThrowsAt(FindRecord) then Outcome(db, ServerError)
    else match FindByInvoice(db.records, InvoiceKey(payload))
      case None => Outcome(db, Http(404, "Payment not found"))
      case Some(i) =>
        var r := db.records[i];
        if fault == ThrowsAt(FindPayment) then Outcome(db, ServerError)
        else if r.paymentId !in db.payments then Outcome(db, Http(404, "Payment record not found"))
        else
          var p := db.payments[r.paymentId];
          if fault == ThrowsAt(LoadConfig) then Outcome(db, ServerError)
          else match CheckFor(payload, p, configOf, sha256)
            case SignatureTypeError => Outcome(db, Fatal)
            case Checked(false) => Outcome(db, Http(400, "Invalid signature"))
            case Checked(true) =>
              if IsPaid(payload) then PaidWrites(db, r, p, now, fault)
              else Outcome(db, Http(200, "OK"))
  }

  /** callback.php, step by step against the database. */
  method HandleWebhook(ledger: Ledger.Ledger, payload: Value, configOf: Context -> GatewayConfig,
                       sha256: string -> string, now: int, fault: Fault)
    returns (response: Response)
    modifies ledger
    ensures Outcome(ledger.State(), response) ==
            Reconcile(old(ledger.State()), payload, configOf, sha256, now, fault)
  {
    if !Truthy(payload) {
      return Http(400, "Invalid JSON");
    }
    if fault == ThrowsAt(FindRecord) {
      return ServerError;
    }
    var found := ledger.GetRecordByInvoice(InvoiceKey(payload));
    if found.None? {
      return Http(404, "Payment not found");
    }
    var record := found.value;
    if fault == ThrowsAt(FindPayment) {
      return ServerError;
    }
    var payment := ledger.GetPayment(record.paymentId);
    if payment.None? {
      return Http(404, "Payment record not found");
    }
    var p := payment.value;
    if fault == ThrowsAt(LoadConfig) {
      return ServerError;
    }
    var config := configOf(ContextOf(p));
    var check := VerifySignature(payload, Index(payload, "signature"), config.secretkey, sha256);
    if check.SignatureTypeError? {
      return Fatal;
    }
    if !check.valid {
      return Http(400, "Invalid signature");
    }
    if Field(payload, "data", "invoice_status") == Str("paid") {
      if fault == ThrowsAt(WritePayment) {
        return ServerError;
      }
      ledger.UpdatePayment(p.(success := 1));
      if fault == ThrowsAt(WriteRecord) {
        return ServerError;
      }
      ledger.UpdateRecord(record.(status := Some("paid"), timeModified := Some(now)));
      ledger.DeliverOrder(Delivery(p.component, p.paymentArea, p.itemId, p.id, p.userId));
      if fault == ThrowsAt(Deliver) {
        return ServerError;
      }
    }
    response := Http(200, "OK");
  }
}
