/** The data the plugin reads and writes: rows of the host's `payments`
    table, rows of the plugin's own `paygw_shakeout` table, the calls made to
    the host's order delivery, and the host-supplied inputs (gateway
    configuration, payable item, current user). */
module Records {
  import opened Base
  import opened Php

  /** A row of the host's `payments` table as the plugin sees it. */
  datatype Payment = Payment(
    id: int,
    accountId: int,
    component: string,
    paymentArea: string,
    itemId: int,
    userId: int,
    amount: real,
    currency: string,
    gateway: string,
    success: int)

  /** A row of `paygw_shakeout`. Text columns hold None for SQL NULL; a
      column the insert leaves out (status, timemodified) is None. */
  datatype GatewayRecord = GatewayRecord(
    id: int,
    paymentId: int,
    invoiceId: Option<string>,
    invoiceRef: Option<string>,
    invoiceUrl: Option<string>,
    status: Option<string>,
    timeCreated: int,
    timeModified: Option<int>)

  /** One call of `helper::deliver_order`. */
  datatype Delivery = Delivery(
    component: string,
    paymentArea: string,
    itemId: int,
    paymentId: int,
    userId: int)

  /** The purchase a payment is for. */
  datatype Context = Context(component: string, paymentArea: string, itemId: int)

  /** `helper::get_gateway_configuration(...)` cast to an object: each
      property as PHP reads it (null when the setting is absent). */
  datatype GatewayConfig = GatewayConfig(
    apikey: Value,
    secretkey: Value,
    successurl: Value,
    failureurl: Value,
    pendingurl: Value)

  /** What `helper::get_payable` answers about the purchased item. */
  datatype Payable = Payable(accountId: int, amount: real, currency: string, description: string)

  /** The user fields the plugin reads; `phone1` and `address` are None when
      not set (`isset` is false). */
  datatype User = User(
    id: int,
    firstName: string,
    lastName: string,
    email: string,
    phone1: Option<string>,
    address: Option<string>)

  /** The whole persistent state: both tables, the delivery log and the next
      ids the database will assign. */
  datatype Db = Db(
    payments: map<int, Payment>,
    records: seq<GatewayRecord>,
    deliveries: seq<Delivery>,
    nextPaymentId: int,
    nextRecordId: int)

  function ContextOf(p: Payment): Context
  {
    Context(p.component, p.paymentArea, p.itemId)
  }

  /** Ids identify rows, and every id handed out is below the next one. */
  ghost predicate WellFormed(db: Db)
  {
    && (forall id :: id in db.payments ==> db.payments[id].id == id && id < db.nextPaymentId)
    && (forall i :: 0 <= i < |db.records| ==>
          db.records[i].id < db.nextRecordId && db.records[i].paymentId < db.nextPaymentId)
    && (forall i, j :: 0 <= i < j < |db.records| ==> db.records[i].id < db.records[j].id)
  }

  /** How a PHP value bound as a query parameter or stored in a column
      reads back: null stays NULL, a boolean is bound as 1 or 0, anything
      else as its string form. */
  function Column(v: Value): (c: Option<string>)
    ensures c.None? <==> v == Null
    ensures v.Str? ==> c == Some(v.s)
    ensures v.Bool? ==> c == Some(if v.b then "1" else "0")
  {
    if v.Null? then None
    else if v.Bool? then Some(if v.b then "1" else "0")
    else Some(ToStr(v))
  }

  /** Position of the first row satisfying `p` (the row `get_record` returns). */
  function FirstWhere(rs: seq<GatewayRecord>, p: GatewayRecord -> bool): (r: Option<nat>)
    ensures r.Some? ==> r.value < |rs| && p(rs[r.value])
    ensures r.Some? ==> forall j :: 0 <= j < r.value ==> !p(rs[j])
    ensures r.None? <==> forall j :: 0 <= j < |rs| ==> !p(rs[j])
  {
    if rs == [] then None
    else if p(rs[0]) then Some(0)
    else match FirstWhere(rs[1..], p)
      case None => None
      case Some(k) => Some(k + 1)
  }

  /** `get_record('paygw_shakeout', ['invoice_id' => key])`. */
  function FindByInvoice(rs: seq<GatewayRecord>, key: Option<string>): Option<nat>
  {
    FirstWhere(rs, (r: GatewayRecord) => r.invoiceId == key)
  }

  /** `get_record('paygw_shakeout', ['paymentid' => paymentId])`. */
  function FindByPayment(rs: seq<GatewayRecord>, paymentId: int): Option<nat>
  {
    FirstWhere(rs, (r: GatewayRecord) => r.paymentId == paymentId)
  }

  /** Two tables on which a row condition holds at the same positions give
      the same first match. */
  lemma {:induction false} FirstWhereAgrees(rs: seq<GatewayRecord>, ts: seq<GatewayRecord>, p: GatewayRecord -> bool)
    requires |rs| == |ts|
    requires forall j :: 0 <= j < |rs| ==> p(rs[j]) == p(ts[j])
    ensures FirstWhere(rs, p) == FirstWhere(ts, p)
  {
    if rs != [] && !p(rs[0]) {
      FirstWhereAgrees(rs[1..], ts[1..], p);
    }
  }

  /** `delete_records('paygw_shakeout', ['paymentid' => paymentId])`: the
      rows of other payments, in their order. */
  function RemoveByPayment(rs: seq<GatewayRecord>, paymentId: int): (r: seq<GatewayRecord>)
    ensures |r| <= |rs|
    ensures forall x :: x in r <==> x in rs && x.paymentId != paymentId
  {
    if rs == [] then []
    else if rs[0].paymentId == paymentId then RemoveByPayment(rs[1..], paymentId)
    else [rs[0]] + RemoveByPayment(rs[1..], paymentId)
  }

  /** `update_record('payments', p)`: the row with `p`'s id is replaced;
      an id with no row changes nothing. */
  function UpdatePaymentRow(db: Db, p: Payment): Db
  {
    if p.id in db.payments then db.(payments := db.payments[p.id := p]) else db
  }

  /** `update_record('paygw_shakeout', r)`: every row with `r`'s id is
      replaced. */
  function UpdateRecordRow(db: Db, r: GatewayRecord): (d: Db)
    ensures |d.records| == |db.records|
    ensures forall j :: 0 <= j < |d.records| ==>
      d.records[j] == if db.records[j].id == r.id then r else db.records[j]
  {
    db.(records := seq(|db.records|, j requires 0 <= j < |db.records| =>
                         if db.records[j].id == r.id then r else db.records[j]))
  }

  /** `helper::save_payment(...)`: a new payment row under the next id. */
  function InsertPaymentRow(db: Db, accountId: int, c: Context, userId: int,
                            amount: real, currency: string, gateway: string): (r: Db)
    ensures r.payments.Keys == db.payments.Keys + {db.nextPaymentId}
    ensures r.payments[db.nextPaymentId] == Payment(db.nextPaymentId, accountId, c.component,
              c.paymentArea, c.itemId, userId, amount, currency, gateway, 0)
    ensures forall id :: id in db.payments && id != db.nextPaymentId ==> r.payments[id] == db.payments[id]
    ensures r.records == db.records && r.deliveries == db.deliveries
    ensures r.nextPaymentId == db.nextPaymentId + 1 && r.nextRecordId == db.nextRecordId
  {
    var p := Payment(db.nextPaymentId, accountId, c.component, c.paymentArea, c.itemId,
                     userId, amount, currency, gateway, 0);
    db.(payments := db.payments[db.nextPaymentId := p], nextPaymentId := db.nextPaymentId + 1)
  }

  /** `insert_record('paygw_shakeout', ...)`: a new row under the next id,
      appended after the existing ones; status and timemodified are not
      given. */
  function InsertRecordRow(db: Db, paymentId: int, invoiceId: Option<string>,
                           invoiceRef: Option<string>, invoiceUrl: Option<string>,
                           timeCreated: int): (r: Db)
    ensures |r.records| == |db.records| + 1 && r.records[..|db.records|] == db.records
    ensures r.records[|db.records|] == GatewayRecord(db.nextRecordId, paymentId, invoiceId,
              invoiceRef, invoiceUrl, None, timeCreated, None)
    ensures r.payments == db.payments && r.deliveries == db.deliveries
    ensures r.nextRecordId == db.nextRecordId + 1 && r.nextPaymentId == db.nextPaymentId
  {
    var r := GatewayRecord(db.nextRecordId, paymentId, invoiceId, invoiceRef, invoiceUrl,
                           None, timeCreated, None);
    db.(records := db.records + [r], nextRecordId := db.nextRecordId + 1)
  }

  /** `helper::deliver_order(...)`, recorded in the delivery log. */
  function AppendDelivery(db: Db, d: Delivery): Db
  {
    db.(deliveries := db.deliveries + [d])
  }

  /** `delete_records('paygw_shakeout', ['paymentid' => paymentId])`. */
  function DeleteRecordRows(db: Db, paymentId: int): Db
  {
    db.(records := RemoveByPayment(db.records, paymentId))
  }
}
