/** What the webhook endpoint guarantees, proved about `Callback.Reconcile`. */
module CallbackFacts {
  import opened Base
  import opened Php
  import opened Records
  import opened ShakeoutHelper
  import opened Callback

  /** A fault in one of the three reads before the signature check. */
  predicate FailsBeforeCheck(fault: Fault)
  {
    fault == ThrowsAt(FindRecord) || fault == ThrowsAt(FindPayment) || fault == ThrowsAt(LoadConfig)
  }

  /** A fault before the delivery call is made. */
  predicate FailsBeforeDelivery(fault: Fault)
  {
    FailsBeforeCheck(fault) || fault == ThrowsAt(WritePayment) || fault == ThrowsAt(WriteRecord)
  }

  /** Position of the record a verified payload selects. */
  function Target(db: Db, payload: Value, configOf: Context -> GatewayConfig,
                  sha256: string -> string): (i: nat)
    requires Verified(db, payload, configOf, sha256)
    ensures i < |db.records| && db.records[i].paymentId in db.payments
  {
    FindByInvoice(db.records, InvoiceKey(payload)).value
  }

  /** Past every guard on a 'paid' notification, the request is the writes. */
  lemma {:induction false} VerifiedPaidReachesWrites(db: Db, payload: Value, configOf: Context -> GatewayConfig,
                                                     sha256: string -> string, now: int, fault: Fault)
    requires Verified(db, payload, configOf, sha256) && IsPaid(payload) && !FailsBeforeCheck(fault)
    ensures var r := db.records[Target(db, payload, configOf, sha256)];
      Reconcile(db, payload, configOf, sha256, now, fault) ==
      PaidWrites(db, r, db.payments[r.paymentId], now, fault)
  {
  }

  // ---------------------------------------------------------------------
  // The guards, in order, each answering without touching the tables

  lemma {:induction false} InvalidJsonRejected(db: Db, payload: Value, configOf: Context -> GatewayConfig,
                            sha256: string -> string, now: int, fault: Fault)
    requires !Truthy(payload)
    ensures Reconcile(db, payload, configOf, sha256, now, fault) == Outcome(db, Http(400, "Invalid JSON"))
  {
  }

  lemma {:induction false} UnknownInvoiceRejected(db: Db, payload: Value, configOf: Context -> GatewayConfig,
                               sha256: string -> string, now: int, fault: Fault)
    requires Truthy(payload) && fault != ThrowsAt(FindRecord)
    requires forall j :: 0 <= j < |db.records| ==> db.records[j].invoiceId != InvoiceKey(payload)
    ensures Reconcile(db, payload, configOf, sha256, now, fault) == Outcome(db, Http(404, "Payment not found"))
  {
  }

  lemma {:induction false} MissingPaymentRejected(db: Db, payload: Value, configOf: Context -> GatewayConfig,
                               sha256: string -> string, now: int, fault: Fault, i: nat)
    requires Truthy(payload) && fault != ThrowsAt(FindRecord) && fault != ThrowsAt(FindPayment)
    requires FindByInvoice(db.records, InvoiceKey(payload)) == Some(i)
    requires db.records[i].paymentId !in db.payments
    ensures Reconcile(db, payload, configOf, sha256, now, fault) ==
            Outcome(db, Http(404, "Payment record not found"))
  {
  }

  /** A mismatching signature is refused before any write or delivery; the
      secret key is never consulted for whether to check. */
  lemma {:induction false} BadSignatureRejected(db: Db, payload: Value, configOf: Context -> GatewayConfig,
                             sha256: string -> string, now: int, fault: Fault, i: nat)
    requires Truthy(payload) && !FailsBeforeCheck(fault)
    requires FindByInvoice(db.records, InvoiceKey(payload)) == Some(i)
    requires db.records[i].paymentId in db.payments
    requires CheckFor(payload, db.payments[db.records[i].paymentId], configOf, sha256) == Checked(false)
    ensures Reconcile(db, payload, configOf, sha256, now, fault) ==
            Outcome(db, Http(400, "Invalid signature"))
  {
  }

  /** A signature field that is not a string makes `hash_equals` raise a
      TypeError, which the script's `catch (Exception)` does not catch: the
      request dies before any write, whatever the rest of the payload says. */
  lemma {:induction false} NonStringSignatureIsFatal(db: Db, payload: Value, configOf: Context -> GatewayConfig,
                                                     sha256: string -> string, now: int, fault: Fault, i: nat)
    requires Truthy(payload) && !FailsBeforeCheck(fault)
    requires FindByInvoice(db.records, InvoiceKey(payload)) == Some(i)
    requires db.records[i].paymentId in db.payments
    requires !Index(payload, "signature").Str?
    ensures Reconcile(db, payload, configOf, sha256, now, fault) == Outcome(db, Fatal)
  {
  }

  /** A verified notification with any status but exactly 'paid' is
      acknowledged and changes nothing. */
  lemma {:induction false} OtherStatusAcknowledged(db: Db, payload: Value, configOf: Context -> GatewayConfig,
                                sha256: string -> string, now: int, fault: Fault)
    requires Verified(db, payload, configOf, sha256) && !IsPaid(payload) && !FailsBeforeCheck(fault)
    ensures Reconcile(db, payload, configOf, sha256, now, fault) == Outcome(db, Http(200, "OK"))
  {
  }

  /** Any answer but 200 or 500 leaves the database as it was. */
  lemma {:induction false} RejectionsWriteNothing(db: Db, payload: Value, configOf: Context -> GatewayConfig,
                               sha256: string -> string, now: int, fault: Fault)
    ensures var o := Reconcile(db, payload, configOf, sha256, now, fault);
      o.response != Http(200, "OK") && o.response != ServerError ==> o.db == db
  {
    var o := Reconcile(db, payload, configOf, sha256, now, fault);
    if Truthy(payload) && fault != ThrowsAt(FindRecord) && FindByInvoice(db.records, InvoiceKey(payload)).Some? {
      var r := db.records[FindByInvoice(db.records, InvoiceKey(payload)).value];
      if fault != ThrowsAt(FindPayment) && r.paymentId in db.payments && fault != ThrowsAt(LoadConfig) {
        var p := db.payments[r.paymentId];
        if CheckFor(payload, p, configOf, sha256) == Checked(true) && IsPaid(payload) {
          assert o == PaidWrites(db, r, p, now, fault);
        }
      }
    }
  }

  /** The database changes only after every guard has passed on a 'paid'
      notification. */
  lemma {:induction false} WritesOnlyWhenVerifiedPaid(db: Db, payload: Value, configOf: Context -> GatewayConfig,
                                   sha256: string -> string, now: int, fault: Fault)
    ensures Reconcile(db, payload, configOf, sha256, now, fault).db != db ==>
            Verified(db, payload, configOf, sha256) && IsPaid(payload)
  {
  }

  // ---------------------------------------------------------------------
  // The 'paid' transition

  lemma {:induction false} UpdateOnlyTarget(db: Db, i: nat, r: GatewayRecord)
    requires WellFormed(db) && i < |db.records| && r.id == db.records[i].id
    ensures var d := UpdateRecordRow(db, r);
      && d.records == db.records[i := r]
      && d.payments == db.payments && d.deliveries == db.deliveries
      && d.nextPaymentId == db.nextPaymentId && d.nextRecordId == db.nextRecordId
  {
    var d := UpdateRecordRow(db, r);
    forall j | 0 <= j < |db.records|
      ensures d.records[j] == db.records[i := r][j]
    {
      if j < i {
        assert db.records[j].id < db.records[i].id;
      } else if j > i {
        assert db.records[i].id < db.records[j].id;
      }
    }
  }

  /** The delivery log after the writes, for each place a fault can hit. */
  lemma {:induction false} PaidWritesLog(db: Db, r: GatewayRecord, p: Payment, now: int, fault: Fault)
    ensures var o := PaidWrites(db, r, p, now, fault);
      if fault == ThrowsAt(WritePayment) || fault == ThrowsAt(WriteRecord)
      then o.db.deliveries == db.deliveries
      else o.db.deliveries == db.deliveries + [Delivery(p.component, p.paymentArea, p.itemId, p.id, p.userId)]
  {
    var db1 := UpdatePaymentRow(db, p.(success := 1));
    var db2 := UpdateRecordRow(db1, r.(status := Some("paid"), timeModified := Some(now)));
    assert db1.deliveries == db.deliveries && db2.deliveries == db.deliveries;
  }

  /** The writes keep ids consistent when `r` is the row at `i` and `p` its
      payment. */
  lemma {:induction false} PaidWritesWellFormed(db: Db, i: nat, p: Payment, now: int, fault: Fault)
    requires WellFormed(db) && i < |db.records|
    requires db.records[i].paymentId in db.payments && p == db.payments[db.records[i].paymentId]
    ensures WellFormed(PaidWrites(db, db.records[i], p, now, fault).db)
  {
    var r := db.records[i];
    var db1 := UpdatePaymentRow(db, p.(success := 1));
    assert WellFormed(db1);
    var db2 := UpdateRecordRow(db1, r.(status := Some("paid"), timeModified := Some(now)));
    UpdateOnlyTarget(db1, i, r.(status := Some("paid"), timeModified := Some(now)));
    assert WellFormed(db2);
  }

  /** A verified 'paid' notification sets the payment's success flag, marks
      the selected record paid at `now`, calls delivery once with that
      payment's purchase, and changes nothing else. */
  lemma {:induction false} PaidApplied(db: Db, payload: Value, configOf: Context -> GatewayConfig,
                    sha256: string -> string, now: int)
    requires WellFormed(db)
    requires Verified(db, payload, configOf, sha256) && IsPaid(payload)
    ensures var i := Target(db, payload, configOf, sha256);
      var r := db.records[i];
      var p := db.payments[r.paymentId];
      var o := Reconcile(db, payload, configOf, sha256, now, NoFault);
      && o.response == Http(200, "OK")
      && o.db.payments == db.payments[r.paymentId := p.(success := 1)]
      && o.db.records == db.records[i := r.(status := Some("paid"), timeModified := Some(now))]
      && o.db.deliveries == db.deliveries + [Delivery(p.component, p.paymentArea, p.itemId, r.paymentId, p.userId)]
      && o.db.nextPaymentId == db.nextPaymentId && o.db.nextRecordId == db.nextRecordId
  {
    var i := Target(db, payload, configOf, sha256);
    var r := db.records[i];
    var p := db.payments[r.paymentId];
    VerifiedPaidReachesWrites(db, payload, configOf, sha256, now, NoFault);
    var db1 := UpdatePaymentRow(db, p.(success := 1));
    var r1 := r.(status := Some("paid"), timeModified := Some(now));
    var db2 := UpdateRecordRow(db1, r1);
    var db3 := AppendDelivery(db2, Delivery(p.component, p.paymentArea, p.itemId, p.id, p.userId));
    assert PaidWrites(db, r, p, now, NoFault) == Outcome(db3, Http(200, "OK"));
    assert db1.payments == db.payments[r.paymentId := p.(success := 1)];
    assert WellFormed(db1);
    UpdateOnlyTarget(db1, i, r1);
  }

  /** A host failure inside delivery answers 500 but keeps both updates
      (and the attempted delivery). */
  lemma {:induction false} DeliveryFailureKeepsUpdates(db: Db, payload: Value, configOf: Context -> GatewayConfig,
                                    sha256: string -> string, now: int)
    requires Verified(db, payload, configOf, sha256) && IsPaid(payload)
    ensures var o := Reconcile(db, payload, configOf, sha256, now, ThrowsAt(Deliver));
      o.response == ServerError && o.db == Reconcile(db, payload, configOf, sha256, now, NoFault).db
  {
    var r := db.records[Target(db, payload, configOf, sha256)];
    var p := db.payments[r.paymentId];
    VerifiedPaidReachesWrites(db, payload, configOf, sha256, now, ThrowsAt(Deliver));
    VerifiedPaidReachesWrites(db, payload, configOf, sha256, now, NoFault);
    assert PaidWrites(db, r, p, now, ThrowsAt(Deliver)).db == PaidWrites(db, r, p, now, NoFault).db;
  }

  /** A failure writing the gateway record answers 500 and keeps the
      payment's success flag already written. */
  lemma {:induction false} RecordWriteFailureKeepsPaymentUpdate(db: Db, payload: Value, configOf: Context -> GatewayConfig,
                                             sha256: string -> string, now: int)
    requires Verified(db, payload, configOf, sha256) && IsPaid(payload)
    ensures var i := Target(db, payload, configOf, sha256);
      var p := db.payments[db.records[i].paymentId];
      var o := Reconcile(db, payload, configOf, sha256, now, ThrowsAt(WriteRecord));
      o == Outcome(UpdatePaymentRow(db, p.(success := 1)), ServerError)
  {
    VerifiedPaidReachesWrites(db, payload, configOf, sha256, now, ThrowsAt(WriteRecord));
  }

  /** Delivery is called exactly when a verified 'paid' notification gets
      past both writes; the log is only ever extended. */
  lemma {:induction false} DeliveryExactlyWhenPaid(db: Db, payload: Value, configOf: Context -> GatewayConfig,
                                sha256: string -> string, now: int, fault: Fault)
    ensures var o := Reconcile(db, payload, configOf, sha256, now, fault);
      && |db.deliveries| <= |o.db.deliveries| <= |db.deliveries| + 1
      && o.db.deliveries[..|db.deliveries|] == db.deliveries
      && (|o.db.deliveries| == |db.deliveries| + 1 <==>
            Verified(db, payload, configOf, sha256) && IsPaid(payload) && !FailsBeforeDelivery(fault))
  {
    var o := Reconcile(db, payload, configOf, sha256, now, fault);
    if !(Verified(db, payload, configOf, sha256) && IsPaid(payload)) {
      WritesOnlyWhenVerifiedPaid(db, payload, configOf, sha256, now, fault);
    } else if FailsBeforeCheck(fault) {
      FailureBeforeCheckWritesNothing(db, payload, configOf, sha256, now, fault);
    } else {
      var r := db.records[Target(db, payload, configOf, sha256)];
      var p := db.payments[r.paymentId];
      VerifiedPaidReachesWrites(db, payload, configOf, sha256, now, fault);
      PaidWritesLog(db, r, p, now, fault);
      var d := Delivery(p.component, p.paymentArea, p.itemId, p.id, p.userId);
      assert (db.deliveries + [d])[..|db.deliveries|] == db.deliveries;
    }
  }

  /** A host failure while reading (record, payment, configuration) writes
      nothing and never answers 200; once the script reaches the read that
      throws, the answer is exactly 500 "Server error". */
  lemma {:induction false} FailureBeforeCheckWritesNothing(db: Db, payload: Value,
      configOf: Context -> GatewayConfig, sha256: string -> string, now: int, fault: Fault)
    requires FailsBeforeCheck(fault)
    ensures var o := Reconcile(db, payload, configOf, sha256, now, fault);
      var found := FindByInvoice(db.records, InvoiceKey(payload));
      && o.db == db
      && (Truthy(payload) ==> o.response != Http(200, "OK"))
      && (Truthy(payload) && fault == ThrowsAt(FindRecord) ==> o.response == ServerError)
      && (Truthy(payload) && fault == ThrowsAt(FindPayment) && found.Some? ==>
            o.response == ServerError)
      && (Truthy(payload) && fault == ThrowsAt(LoadConfig) && found.Some? &&
          db.records[found.value].paymentId in db.payments ==>
            o.response == ServerError)
  {
  }

  /** There is no repeat guard: the same verified 'paid' notification,
      received twice, is applied twice and delivers twice. */
  lemma {:induction false} ReplayDeliversTwice(db: Db, payload: Value, configOf: Context -> GatewayConfig,
                                               sha256: string -> string, now: int)
    requires WellFormed(db)
    requires Verified(db, payload, configOf, sha256) && IsPaid(payload)
    ensures var o1 := Reconcile(db, payload, configOf, sha256, now, NoFault);
      var o2 := Reconcile(o1.db, payload, configOf, sha256, now, NoFault);
      var d := o1.db.deliveries[|db.deliveries|];
      && o2.response == Http(200, "OK")
      && |o1.db.deliveries| == |db.deliveries| + 1
      && o2.db.deliveries == db.deliveries + [d, d]
      && o2.db.payments == o1.db.payments && o2.db.records == o1.db.records
  {
    var i := Target(db, payload, configOf, sha256);
    var r := db.records[i];
    var p := db.payments[r.paymentId];
    PaidApplied(db, payload, configOf, sha256, now);
    var o1 := Reconcile(db, payload, configOf, sha256, now, NoFault);
    var key := InvoiceKey(payload);
    FirstWhereAgrees(db.records, o1.db.records, (x: GatewayRecord) => x.invoiceId == key);
    assert FindByInvoice(o1.db.records, key) == Some(i);
    var p1 := o1.db.payments[r.paymentId];
    assert p1 == p.(success := 1);
    assert ContextOf(p1) == ContextOf(p);
    assert Verified(o1.db, payload, configOf, sha256);
    ReconcilePreservesWellFormed(db, payload, configOf, sha256, now, NoFault);
    PaidApplied(o1.db, payload, configOf, sha256, now);
    assert o1.db.records[i] == r.(status := Some("paid"), timeModified := Some(now));
    assert o1.db.records[i := o1.db.records[i]] == o1.db.records;
    assert o1.db.payments[r.paymentId := p1.(success := 1)] == o1.db.payments;
  }

  /** The webhook keeps ids consistent. */
  lemma {:induction false} ReconcilePreservesWellFormed(db: Db, payload: Value, configOf: Context -> GatewayConfig,
                                     sha256: string -> string, now: int, fault: Fault)
    requires WellFormed(db)
    ensures WellFormed(Reconcile(db, payload, configOf, sha256, now, fault).db)
  {
    if Verified(db, payload, configOf, sha256) && IsPaid(payload) && !FailsBeforeCheck(fault) {
      var i := Target(db, payload, configOf, sha256);
      var r := db.records[i];
      var p := db.payments[r.paymentId];
      VerifiedPaidReachesWrites(db, payload, configOf, sha256, now, fault);
      PaidWritesWellFormed(db, i, p, now, fault);
    } else if FailsBeforeCheck(fault) {
      FailureBeforeCheckWritesNothing(db, payload, configOf, sha256, now, fault);
    } else {
      WritesOnlyWhenVerifiedPaid(db, payload, configOf, sha256, now, fault);
    }
  }
}
