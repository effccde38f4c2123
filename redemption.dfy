/** The single-use QR redemption handler (api/qr.js): a scan request is
    checked against the code registry, a first scan is written to the scan
    ledger and marks its row used, and the bearer is sent to the account
    page; a code already scanned is blocked. */
module Redemption {
  import opened Js
  import opened Text

  /** The one destination of every successful redemption. */
  const AccountUrl: string := "https://www.devs-store.it/pages/account"

  /** An ISO timestamp as `Date.prototype.toISOString` produces it; never empty. */
  type Timestamp = s: string | s != [] witness "1970-01-01T00:00:00.000Z"

  /** A row of the `qr_codes` table with the columns the handler reads or
      writes (`qrRow`); the registry keys rows by their `code`. */
  datatype QrRow = QrRow(
    id: Value,
    firstScannedAt: Option<string>,
    status: string)

  /** The handler's one-time-use test: `first_scanned_at` is truthy. */
  predicate Scanned(row: QrRow) {
    Present(row.firstScannedAt)
  }

  /** A row of the `qr_scans` ledger. */
  datatype ScanRecord = ScanRecord(
    qrCodeId: Value,
    customerId: Option<string>,
    customerEmail: Option<string>,
    ipAddress: Option<string>,
    userAgent: Option<string>,
    extra: Option<string>)

  /** What the handler reads from the incoming request: the query
      parameters `code`, `customerId`, `customerEmail`, the headers
      `x-forwarded-for` and `user-agent`, and the socket's remote address. */
  datatype ScanRequest = ScanRequest(
    code: Option<string>,
    customerId: Option<string>,
    customerEmail: Option<string>,
    forwardedFor: Option<string>,
    remoteAddress: Option<string>,
    userAgent: Option<string>)

  /** The outcome of each store call: whether the row lookup, the ledger
      insert and the row update report an error. A failed write changes
      nothing. */
  datatype Faults = Faults(lookupFails: bool, insertFails: bool, updateFails: bool)

  /** The responses the handler sends. */
  datatype Response = MissingCode | UnknownCode | AlreadyUsed | Redirect(location: string) {
    /** The HTTP status of the response: 302 for the redirect, a 4xx client
        error for each refusal. */
    function Status(): (s: int)
      ensures this.Redirect? <==> s == 302
      ensures !this.Redirect? <==> 400 <= s < 500
    {
      match this
      case MissingCode => 400
      case UnknownCode => 404
      case AlreadyUsed => 410
      case Redirect(_) => 302
    }
  }

  /** The two tables the handler touches. */
  datatype Tables = Tables(registry: map<string, QrRow>, ledger: seq<ScanRecord>)

  /** `(req.query.code || '').trim()`. */
  function CodeOf(req: ScanRequest): (code: string)
    ensures code == [] <==> AllSpace(req.code.GetOr(""))
  {
    TrimEmptyIff(req.code.GetOr(""));
    Trim(req.code.GetOr(""))
  }

  /** `(field || '').trim() || null`: a customer field is its trimmed value,
      or null when nothing but trim characters was sent. */
  function CustomerField(field: Option<string>): (r: Option<string>)
    ensures r == None <==> AllSpace(field.GetOr(""))
    ensures r.Some? ==> r.value == Trim(field.GetOr("")) && r.value != []
  {
    TrimEmptyIff(field.GetOr(""));
    var t := Trim(field.GetOr(""));
    if t == [] then None else Some(t)
  }

  /** The client address: the part of `x-forwarded-for` before its first
      comma when that part is non-empty, else the socket's remote address
      when non-empty, else null. */
  function ClientIp(forwardedFor: Option<string>, remoteAddress: Option<string>): (ip: Option<string>)
    ensures ip.Some? ==> ip.value != []
    ensures var head := SplitHead(forwardedFor.GetOr(""), ',');
      && (head != [] ==> ip == Some(head))
      && (head == [] ==> ip == OrNull(remoteAddress))
  {
    Or(Some(SplitHead(forwardedFor.GetOr(""), ',')), OrNull(remoteAddress))
  }

  /** The ledger record a first scan of `row` writes: the row's id, the
      trimmed-or-null customer fields, the client address, the user agent or
      null, and a null `extra`. */
  function ScanOf(row: QrRow, req: ScanRequest): ScanRecord {
    ScanRecord(
      row.id,
      CustomerField(req.customerId),
      CustomerField(req.customerEmail),
      ClientIp(req.forwardedFor, req.remoteAddress),
      OrNull(req.userAgent),
      None)
  }

  /** `update({first_scanned_at: now, status: 'used'}).eq('id', id)`:
      every row with that id is marked used at `now`; no other row changes. */
  function MarkUsed(registry: map<string, QrRow>, id: Value, now: Timestamp): (r: map<string, QrRow>)
    ensures r.Keys == registry.Keys
    ensures forall k :: k in registry && registry[k].id == id ==>
      r[k] == registry[k].(firstScannedAt := Some(now), status := "used")
    ensures forall k :: k in registry && registry[k].id != id ==> r[k] == registry[k]
  {
    map k | k in registry ::
      if registry[k].id == id then registry[k].(firstScannedAt := Some(now), status := "used")
      else registry[k]
  }

  /** One run of the handler on the tables `t`: the response sent and the
      tables afterwards. This is the specification the class `Store`
      implements step by step. Only a first scan of a registered code
      redirects, always to the account page, and every other request leaves
      both tables as they were. */
  function Handle(t: Tables, req: ScanRequest, faults: Faults, now: Timestamp): (r: (Response, Tables))
    ensures r.0.Redirect? <==>
      CodeOf(req) != [] && !faults.lookupFails && CodeOf(req) in t.registry && !Scanned(t.registry[CodeOf(req)])
    ensures r.0.Redirect? ==> r.0.location == AccountUrl
    ensures !r.0.Redirect? ==> r.1 == t
  {
    var code := CodeOf(req);
    if code == [] then (MissingCode, t)
    else if faults.lookupFails || code !in t.registry then (UnknownCode, t)
    else
      var row := t.registry[code];
      if Scanned(row) then (AlreadyUsed, t)
      else
        var ledger := if faults.insertFails then t.ledger else t.ledger + [ScanOf(row, req)];
        var registry := if faults.updateFails then t.registry else MarkUsed(t.registry, row.id, now);
        (Redirect(AccountUrl), Tables(registry, ledger))
  }

  /** The registry and ledger that the handler reads and writes. */
  class Store {
    var registry: map<string, QrRow>
    var ledger: seq<ScanRecord>

    constructor (registry: map<string, QrRow>, ledger: seq<ScanRecord>)
      ensures this.registry == registry && this.ledger == ledger
    {
      this.registry := registry;
      this.ledger := ledger;
    }

    /** The handler: validate the code, look up its row, block a row already
        scanned, otherwise log the scan, mark the row used and redirect. */
    method Redeem(req: ScanRequest, faults: Faults, now: Timestamp) returns (resp: Response)
      modifies this
      ensures (resp, Tables(registry, ledger)) == Handle(Tables(old(registry), old(ledger)), req, faults, now)
    {
      var code := CodeOf(req);
      if code == [] {
        return MissingCode;
      }

      if faults.lookupFails || code !in registry {
        return UnknownCode;
      }
      var row := registry[code];
      if Scanned(row) {
        return AlreadyUsed;
      }

      var record := ScanOf(row, req);
      if !faults.insertFails {
        ledger := ledger + [record];
      }
      if !faults.updateFails {
        registry := MarkUsed(registry, row.id, now);
      }
      return Redirect(AccountUrl);
    }
  }

  /** True when no two rows of the registry share an id. */
  predicate UniqueIds(registry: map<string, QrRow>) {
    forall k, k' :: k in registry && k' in registry && k != k' ==> registry[k].id != registry[k'].id
  }

  /** Each row is marked used exactly when it carries a scan time. */
  predicate Consistent(registry: map<string, QrRow>) {
    forall k :: k in registry ==> (Scanned(registry[k]) <==> registry[k].status == "used")
  }

  /** A code that is blank after trimming gets 400, and the tables are
      neither consulted nor changed: the response is the same whatever they
      hold. */
  lemma BlankCodeRejected(t: Tables, t': Tables, req: ScanRequest, faults: Faults, now: Timestamp)
    requires AllSpace(req.code.GetOr(""))
    ensures Handle(t, req, faults, now) == (MissingCode, t)
    ensures Handle(t, req, faults, now).0 == Handle(t', req, faults, now).0
  {
  }

  /** A code with no registry row, or a failed lookup, gets 404 and
      changes nothing. */
  lemma UnknownCodeRejected(t: Tables, req: ScanRequest, faults: Faults, now: Timestamp)
    requires CodeOf(req) != []
    requires faults.lookupFails || CodeOf(req) !in t.registry
    ensures Handle(t, req, faults, now) == (UnknownCode, t)
  {
  }

  /** A code whose row already carries a scan time gets 410; no scan is
      logged and no row changes. */
  lemma UsedCodeBlocked(t: Tables, req: ScanRequest, faults: Faults, now: Timestamp)
    requires CodeOf(req) != [] && !faults.lookupFails && CodeOf(req) in t.registry
    requires Scanned(t.registry[CodeOf(req)])
    ensures Handle(t, req, faults, now) == (AlreadyUsed, t)
  {
  }

  /** A first scan logs exactly one record, for that row and with the
      request's trimmed customer fields, address and user agent, unless the
      insert fails; the earlier ledger is kept as it was. */
  lemma FirstScanLogged(t: Tables, req: ScanRequest, faults: Faults, now: Timestamp)
    requires CodeOf(req) != [] && !faults.lookupFails && CodeOf(req) in t.registry
    requires !Scanned(t.registry[CodeOf(req)])
    ensures var ledger := Handle(t, req, faults, now).1.ledger;
      && (faults.insertFails ==> ledger == t.ledger)
      && (!faults.insertFails ==> ledger == t.ledger + [ScanOf(t.registry[CodeOf(req)], req)])
  {
  }

  /** A first scan marks the rows with the scanned row's id used at `now`
      (unless the update fails) and leaves every other row as it was. */
  lemma FirstScanMarksRow(t: Tables, req: ScanRequest, faults: Faults, now: Timestamp)
    requires CodeOf(req) != [] && !faults.lookupFails && CodeOf(req) in t.registry
    requires !Scanned(t.registry[CodeOf(req)])
    ensures var registry := Handle(t, req, faults, now).1.registry;
      var id := t.registry[CodeOf(req)].id;
      && registry.Keys == t.registry.Keys
      && (faults.updateFails ==> registry == t.registry)
      && (!faults.updateFails ==>
            && registry[CodeOf(req)] == t.registry[CodeOf(req)].(firstScannedAt := Some(now), status := "used")
            && forall k :: k in t.registry && t.registry[k].id != id ==> registry[k] == t.registry[k])
  {
  }

  /** With unique ids only the scanned code's own row changes. */
  lemma FirstScanChangesOnlyItsRow(t: Tables, req: ScanRequest, faults: Faults, now: Timestamp)
    requires UniqueIds(t.registry)
    ensures var registry := Handle(t, req, faults, now).1.registry;
      registry.Keys == t.registry.Keys
      && forall k :: k in t.registry && k != CodeOf(req) ==> registry[k] == t.registry[k]
  {
  }

  /** A first scan redirects to the account page whatever the insert and
      update report: the response depends only on the lookup. */
  lemma OutcomeIgnoresWriteErrors(t: Tables, req: ScanRequest, f: Faults, f': Faults, now: Timestamp, now': Timestamp)
    requires f.lookupFails == f'.lookupFails
    ensures Handle(t, req, f, now).0 == Handle(t, req, f', now').0
    ensures CodeOf(req) != [] && !f.lookupFails && CodeOf(req) in t.registry && !Scanned(t.registry[CodeOf(req)])
      ==> Handle(t, req, f, now).0 == Redirect(AccountUrl)
  {
  }

  /** The ledger only grows, by at most one record per request. */
  lemma LedgerAppendOnly(t: Tables, req: ScanRequest, faults: Faults, now: Timestamp)
    ensures var ledger := Handle(t, req, faults, now).1.ledger;
      |t.ledger| <= |ledger| <= |t.ledger| + 1 && ledger[..|t.ledger|] == t.ledger
  {
  }

  /** Redeeming a fresh code twice with working writes gives the redirect,
      then 410 with nothing changed by the second request. */
  lemma SecondScanBlocked(t: Tables, req: ScanRequest, req': ScanRequest, faults': Faults, now: Timestamp, now': Timestamp)
    requires CodeOf(req) != [] && CodeOf(req) in t.registry && !Scanned(t.registry[CodeOf(req)])
    requires CodeOf(req') == CodeOf(req) && !faults'.lookupFails
    ensures var (r1, t1) := Handle(t, req, Faults(false, false, false), now);
      r1 == Redirect(AccountUrl) && Handle(t1, req', faults', now') == (AlreadyUsed, t1)
  {
  }

  /** A handler run keeps every row's status in step with its scan time,
      keeps the set of codes, and keeps ids unique. */
  lemma HandlePreservesInvariants(t: Tables, req: ScanRequest, faults: Faults, now: Timestamp)
    requires Consistent(t.registry) && UniqueIds(t.registry)
    ensures var registry := Handle(t, req, faults, now).1.registry;
      Consistent(registry) && UniqueIds(registry) && registry.Keys == t.registry.Keys
  {
  }

  /** With unique ids a scan time, once set, never changes: a row scanned
      before a run is unchanged by it. */
  lemma ScanTimeSetOnce(t: Tables, req: ScanRequest, faults: Faults, now: Timestamp, k: string)
    requires UniqueIds(t.registry) && k in t.registry && Scanned(t.registry[k])
    ensures Handle(t, req, faults, now).1.registry[k] == t.registry[k]
  {
  }

  /** Two scans of a fresh code through the store, with working writes:
      the first redirects and logs one record, the second is blocked and
      logs nothing. */
  method RedeemTwice(store: Store, req: ScanRequest, now: Timestamp, now': Timestamp)
    returns (first: Response, second: Response)
    requires CodeOf(req) != [] && CodeOf(req) in store.registry && !Scanned(store.registry[CodeOf(req)])
    modifies store
    ensures first == Redirect(AccountUrl) && second == AlreadyUsed
    ensures store.ledger == old(store.ledger) + [ScanOf(old(store.registry)[CodeOf(req)], req)]
    ensures CodeOf(req) in store.registry && store.registry[CodeOf(req)].firstScannedAt == Some(now)
  {
    var none := Faults(false, false, false);
    ghost var t := Tables(store.registry, store.ledger);
    first := store.Redeem(req, none, now);
    SecondScanBlocked(t, req, req, none, now, now');
    second := store.Redeem(req, none, now');
  }
}
