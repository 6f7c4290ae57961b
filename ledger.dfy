/** The database as the plugin's scripts use it: one object whose fields are
    the tables, with the host operations the scripts call. */
module Ledger {
  import opened Base
  import opened Records

  class Ledger {
    var payments: map<int, Payment>
    var records: seq<GatewayRecord>
    var deliveries: seq<Delivery>
    var nextPaymentId: int
    var nextRecordId: int

    /** The current contents of the database as a value. */
    function State(): Db
      reads this
    {
      Db(payments, records, deliveries, nextPaymentId, nextRecordId)
    }

    /** An empty database; ids start at 1. */
    constructor ()
      ensures State() == Db(map[], [], [], 1, 1)
      ensures WellFormed(State())
    {
      payments, records, deliveries := map[], [], [];
      nextPaymentId, nextRecordId := 1, 1;
    }

    /** `get_record('paygw_shakeout', ['invoice_id' => key])`: false (None)
        or the first matching row. */
    method GetRecordByInvoice(key: Option<string>) returns (r: Option<GatewayRecord>)
      ensures r.None? <==> forall j :: 0 <= j < |records| ==> records[j].invoiceId != key
      ensures r.Some? ==> FindByInvoice(records, key).Some? &&
                          r.value == records[FindByInvoice(records, key).value]
    {
      var found := FindByInvoice(records, key);
      r := if found.Some? then Some(records[found.value]) else None;
    }

    /** `get_record('payments', ['id' => id])`. */
    method GetPayment(id: int) returns (p: Option<Payment>)
      ensures p.None? <==> id !in payments
      ensures p.Some? ==> p.value == payments[id]
    {
      p := if id in payments then Some(payments[id]) else None;
    }

    method UpdatePayment(p: Payment)
      modifies this
      ensures State() == UpdatePaymentRow(old(State()), p)
    {
      if p.id in payments {
        payments := payments[p.id := p];
      }
    }

    method UpdateRecord(r: GatewayRecord)
      modifies this
      ensures State() == UpdateRecordRow(old(State()), r)
    {
      records := UpdateRecordRow(State(), r).records;
    }

    /** `helper::save_payment(...)`; answers the new row's id. */
    method SavePayment(accountId: int, c: Context, userId: int, amount: real,
                       currency: string, gateway: string) returns (id: int)
      modifies this
      ensures id == old(nextPaymentId)
      ensures State() == InsertPaymentRow(old(State()), accountId, c, userId, amount, currency, gateway)
    {
      id := nextPaymentId;
      payments := payments[id := Payment(id, accountId, c.component, c.paymentArea, c.itemId,
                                         userId, amount, currency, gateway, 0)];
      nextPaymentId := nextPaymentId + 1;
    }

    method InsertRecord(paymentId: int, invoiceId: Option<string>, invoiceRef: Option<string>,
                        invoiceUrl: Option<string>, timeCreated: int)
      modifies this
      ensures State() == InsertRecordRow(old(State()), paymentId, invoiceId, invoiceRef,
                                         invoiceUrl, timeCreated)
    {
      records := records + [GatewayRecord(nextRecordId, paymentId, invoiceId, invoiceRef,
                                          invoiceUrl, None, timeCreated, None)];
      nextRecordId := nextRecordId + 1;
    }

    method DeliverOrder(d: Delivery)
      modifies this
      ensures State() == AppendDelivery(old(State()), d)
    {
      deliveries := deliveries + [d];
    }

    method DeleteRecords(paymentId: int)
      modifies this
      ensures State() == DeleteRecordRows(old(State()), paymentId)
    {
      records := RemoveByPayment(records, paymentId);
    }
  }
}
