/** The privacy provider: what the plugin declares it stores and sends,
    and the export and deletion of one payment's gateway rows. */
module Privacy {
  import opened Base
  import opened Records
  import Ledger

  /** One declaration in a privacy metadata collection. */
  datatype MetadataItem =
    | DatabaseTable(name: string, fields: seq<(string, string)>, summary: string)
    | ExternalLocation(name: string, fields: seq<(string, string)>, summary: string)

  /** The host's metadata collection, which providers add declarations to. */
  class MetadataCollection {
    var items: seq<MetadataItem>

    constructor ()
      ensures items == []
    {
      items := [];
    }

    method AddDatabaseTable(name: string, fields: seq<(string, string)>, summary: string)
      modifies this
      ensures items == old(items) + [DatabaseTable(name, fields, summary)]
    {
      items := items + [DatabaseTable(name, fields, summary)];
    }

    method AddExternalLocationLink(name: string, fields: seq<(string, string)>, summary: string)
      modifies this
      ensures items == old(items) + [ExternalLocation(name, fields, summary)]
    {
      items := items + [ExternalLocation(name, fields, summary)];
    }
  }

  /** Each field paired with its language string, the field's name after `prefix`. */
  function Described(prefix: string, names: seq<string>): (r: seq<(string, string)>)
    ensures |r| == |names|
    ensures forall i :: 0 <= i < |r| ==> r[i] == (names[i], prefix + names[i])
  {
    if names == [] then [] else [(names[0], prefix + names[0])] + Described(prefix, names[1..])
  }

  /** The columns of the gateway table the plugin declares. */
  const TableColumns: seq<string> :=
    ["paymentid", "invoice_id", "invoice_ref", "invoice_url", "status", "timecreated", "timemodified"]

  /** The customer details the plugin declares it sends to the Shake-Out API. */
  const ExternalColumns: seq<string> := ["firstname", "lastname", "email", "phone", "address"]

  function TableFields(): (r: seq<(string, string)>)
    ensures |r| == 7
    ensures forall i :: 0 <= i < |r| ==>
      r[i] == (TableColumns[i], "privacy:metadata:paygw_shakeout:" + TableColumns[i])
  {
    Described("privacy:metadata:paygw_shakeout:", TableColumns)
  }

  function ExternalFields(): (r: seq<(string, string)>)
    ensures |r| == 5
    ensures forall i :: 0 <= i < |r| ==>
      r[i] == (ExternalColumns[i], "privacy:metadata:shakeout_api:" + ExternalColumns[i])
  {
    Described("privacy:metadata:shakeout_api:", ExternalColumns)
  }

  /** get_metadata: declares the gateway table and the external API, in
      that order, and returns the same collection. */
  method GetMetadata(collection: MetadataCollection) returns (r: MetadataCollection)
    modifies collection
    ensures r == collection
    ensures collection.items ==
      old(collection.items) +
      [DatabaseTable("paygw_shakeout", TableFields(), "privacy:metadata:paygw_shakeout"),
       ExternalLocation("shakeout_api", ExternalFields(), "privacy:metadata:shakeout_api")]
  {
    collection.AddDatabaseTable("paygw_shakeout", TableFields(), "privacy:metadata:paygw_shakeout");
    collection.AddExternalLocationLink("shakeout_api", ExternalFields(), "privacy:metadata:shakeout_api");
    r := collection;
  }

  /** The object export_payment_data returns. Times are passed through the
      host's `transform::datetime`. */
  datatype ExportRow = ExportRow(invoiceId: Option<string>, invoiceRef: Option<string>,
                                 status: Option<string>, timeCreated: string,
                                 timeModified: Option<string>)

  /** A stored `timemodified` converts to true: present and not 0. */
  predicate TimeSet(t: Option<int>)
  {
    t.Some? && t.value != 0
  }

  /** export_payment_data over the gateway table: null when no row has the
      payment id, otherwise the first such row's invoice fields and times. */
  function Export(records: seq<GatewayRecord>, paymentId: int, datetime: int -> string): (e: Option<ExportRow>)
    ensures e.None? <==> forall j :: 0 <= j < |records| ==> records[j].paymentId != paymentId
    ensures e.Some? ==>
      var i := FindByPayment(records, paymentId).value;
      && records[i].paymentId == paymentId
      && e.value.invoiceId == records[i].invoiceId
      && e.value.invoiceRef == records[i].invoiceRef
      && e.value.status == records[i].status
      && e.value.timeCreated == datetime(records[i].timeCreated)
      && (e.value.timeModified.None? <==> !TimeSet(records[i].timeModified))
      && (TimeSet(records[i].timeModified) ==>
            e.value.timeModified == Some(datetime(records[i].timeModified.value)))
  {
    match FindByPayment(records, paymentId)
    case None => None
    case Some(i) =>
      var r := records[i];
      Some(ExportRow(r.invoiceId, r.invoiceRef, r.status, datetime(r.timeCreated),
                     if TimeSet(r.timeModified) then Some(datetime(r.timeModified.value)) else None))
  }

  /** export_payment_data against the database; it changes nothing. */
  method ExportPaymentData(ledger: Ledger.Ledger, paymentId: int, datetime: int -> string)
    returns (e: Option<ExportRow>)
    ensures e == Export(ledger.records, paymentId, datetime)
  {
    var found := FindByPayment(ledger.records, paymentId);
    if found.None? {
      return None;
    }
    var r := ledger.records[found.value];
    var modified := if TimeSet(r.timeModified) then Some(datetime(r.timeModified.value)) else None;
    e := Some(ExportRow(r.invoiceId, r.invoiceRef, r.status, datetime(r.timeCreated), modified));
  }

  /** delete_payment_data. */
  method DeletePaymentData(ledger: Ledger.Ledger, paymentId: int)
    modifies ledger
    ensures ledger.State() == DeleteRecordRows(old(ledger.State()), paymentId)
  {
    ledger.DeleteRecords(paymentId);
  }

  // ---------------------------------------------------------------------
  // Properties of deletion

  /** Deleting twice is deleting once. */
  lemma {:induction false} RemoveIdempotent(rs: seq<GatewayRecord>, paymentId: int)
    ensures RemoveByPayment(RemoveByPayment(rs, paymentId), paymentId) == RemoveByPayment(rs, paymentId)
  {
    if rs != [] {
      RemoveIdempotent(rs[1..], paymentId);
      if rs[0].paymentId != paymentId {
        var t := RemoveByPayment(rs[1..], paymentId);
        assert ([rs[0]] + t)[1..] == t;
      }
    }
  }

  /** After the deletion there is nothing left to export for that payment. */
  lemma {:induction false} ExportAfterDeleteIsNull(rs: seq<GatewayRecord>, paymentId: int, datetime: int -> string)
    ensures Export(RemoveByPayment(rs, paymentId), paymentId, datetime).None?
  {
    var r := RemoveByPayment(rs, paymentId);
    forall j | 0 <= j < |r|
      ensures r[j].paymentId != paymentId
    {
      assert r[j] in r;
    }
  }

  /** Deleting one payment's rows leaves every other payment's export as it was. */
  lemma {:induction false} DeleteKeepsOtherExports(rs: seq<GatewayRecord>, paymentId: int, other: int,
                                                   datetime: int -> string)
    requires other != paymentId
    ensures Export(RemoveByPayment(rs, paymentId), other, datetime) == Export(rs, other, datetime)
  {
    if rs != [] {
      DeleteKeepsOtherExports(rs[1..], paymentId, other, datetime);
      var t := RemoveByPayment(rs[1..], paymentId);
      if rs[0].paymentId == paymentId {
        assert RemoveByPayment(rs, paymentId) == t;
        ExportSkipsHead(rs, other, datetime);
      } else {
        var r := [rs[0]] + t;
        assert RemoveByPayment(rs, paymentId) == r;
        assert r[1..] == t;
        if rs[0].paymentId != other {
          ExportSkipsHead(rs, other, datetime);
          ExportSkipsHead(r, other, datetime);
        }
      }
    }
  }

  /** A first row of another payment does not change what is exported. */
  lemma ExportSkipsHead(rs: seq<GatewayRecord>, paymentId: int, datetime: int -> string)
    requires rs != [] && rs[0].paymentId != paymentId
    ensures Export(rs, paymentId, datetime) == Export(rs[1..], paymentId, datetime)
  {
    match FindByPayment(rs[1..], paymentId)
    case None =>
    case Some(k) =>
      assert FindByPayment(rs, paymentId) == Some(k + 1);
      assert rs[k + 1] == rs[1..][k];
  }

  predicate IdsIncreasing(rs: seq<GatewayRecord>)
  {
    forall i, j :: 0 <= i < j < |rs| ==> rs[i].id < rs[j].id
  }

  /** The remaining rows keep their relative order: increasing ids stay increasing. */
  lemma {:induction false} RemoveKeepsIdsIncreasing(rs: seq<GatewayRecord>, paymentId: int)
    requires IdsIncreasing(rs)
    ensures IdsIncreasing(RemoveByPayment(rs, paymentId))
  {
    if rs != [] {
      RemoveKeepsIdsIncreasing(rs[1..], paymentId);
      if rs[0].paymentId != paymentId {
        var t := RemoveByPayment(rs[1..], paymentId);
        HeadBelowTail(rs);
        RemoveKeepsBound(rs[1..], paymentId, rs[0].id);
        ConsIncreasing(rs[0], t);
      }
    }
  }

  lemma HeadBelowTail(rs: seq<GatewayRecord>)
    requires rs != [] && IdsIncreasing(rs)
    ensures forall x :: x in rs[1..] ==> rs[0].id < x.id
  {
    forall x | x in rs[1..]
      ensures rs[0].id < x.id
    {
      var k :| 0 <= k < |rs[1..]| && rs[1..][k] == x;
      assert rs[k + 1] == x;
    }
  }

  lemma RemoveKeepsBound(rs: seq<GatewayRecord>, paymentId: int, bound: int)
    requires forall x :: x in rs ==> bound < x.id
    ensures forall x :: x in RemoveByPayment(rs, paymentId) ==> bound < x.id
  {
  }

  lemma ConsIncreasing(x: GatewayRecord, t: seq<GatewayRecord>)
    requires IdsIncreasing(t)
    requires forall y :: y in t ==> x.id < y.id
    ensures IdsIncreasing([x] + t)
  {
    var r := [x] + t;
    forall i, j | 0 <= i < j < |r|
      ensures r[i].id < r[j].id
    {
      assert r[j] == t[j - 1];
      if i > 0 {
        assert r[i] == t[i - 1];
      } else {
        assert t[j - 1] in t;
      }
    }
  }

  /** Deletion keeps the database consistent. */
  lemma {:induction false} DeletePreservesWellFormed(db: Db, paymentId: int)
    requires WellFormed(db)
    ensures WellFormed(DeleteRecordRows(db, paymentId))
  {
    RemoveKeepsIdsIncreasing(db.records, paymentId);
    var r := RemoveByPayment(db.records, paymentId);
    forall i | 0 <= i < |r|
      ensures r[i].id < db.nextRecordId && r[i].paymentId < db.nextPaymentId
    {
      assert r[i] in r;
    }
  }
}
