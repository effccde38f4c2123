/** The link between the two handlers: the scans a first redemption logs
    are the scans the entitlement listing later selects by customer id. */
module Journey {
  import opened Js
  import opened Sequences
  import R = Redemption
  import E = Entitlements

  /** `select('qr_code_id').eq('customer_id', c)` on the scan ledger, in
      ledger order. */
  function CustomerScans(ledger: seq<R.ScanRecord>, c: string): (rows: seq<E.ScanRow>)
    ensures forall rec :: rec in ledger && rec.customerId == Some(c) ==> E.ScanRow(rec.qrCodeId) in rows
    ensures forall row :: row in rows ==>
      exists rec :: rec in ledger && rec.customerId == Some(c) && row == E.ScanRow(rec.qrCodeId)
  {
    var mine := Filter((rec: R.ScanRecord) => rec.customerId == Some(c), ledger);
    var rows := seq(|mine|, i requires 0 <= i < |mine| => E.ScanRow(mine[i].qrCodeId));
    assert forall i :: 0 <= i < |mine| ==> rows[i] == E.ScanRow(mine[i].qrCodeId);
    assert forall i :: 0 <= i < |mine| ==> mine[i] in ledger && mine[i].customerId == Some(c);
    rows
  }

  /** A customer who makes the first scan of a code, with the ledger insert
      working, afterwards finds that code's id among the listing's `qrIds`
      (when the id is truthy), under the same trimmed customer id. */
  lemma RedeemedCodeListed(t: R.Tables, req: R.ScanRequest, faults: R.Faults, now: R.Timestamp, c: string)
    requires R.CodeOf(req) != [] && !faults.lookupFails && !faults.insertFails
    requires R.CodeOf(req) in t.registry && !R.Scanned(t.registry[R.CodeOf(req)])
    requires R.CustomerField(req.customerId) == Some(c)
    requires Truthy(t.registry[R.CodeOf(req)].id)
    ensures t.registry[R.CodeOf(req)].id in E.QrIds(CustomerScans(R.Handle(t, req, faults, now).1.ledger, c))
  {
  }
}
