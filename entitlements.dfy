/** The entitlement listing handler (api/unlocks.js): from the scans a
    customer made, collect the distinct codes, from those codes the distinct
    Shopify products, fetch the products and project each to a summary. */
module Entitlements {
  import opened Js
  import opened Text
  import opened Sequences

  /** The prefix of the storefront URL built from a product handle. */
  const ProductsUrl: string := "https://www.devs-store.it/products/"

  /** A row of `qr_scans` as selected (`qr_code_id` only). */
  datatype ScanRow = ScanRow(qrCodeId: Value)

  /** A row of `qr_codes` as selected (`shopify_product_id` only). */
  datatype CodeRow = CodeRow(shopifyProductId: Value)

  /** What a store select returns: an error, or data that may be `null`. */
  datatype Select<T> = SelectError | Rows(data: Option<seq<T>>)

  /** A product image object; its `src` may be missing. */
  datatype Image = Image(src: Option<string>)

  /** A product as the Shopify Admin API returns it, cut down to the fields
      the handler reads. */
  datatype Product = Product(
    id: Value,
    handle: Option<string>,
    title: Option<string>,
    image: Option<Image>,
    images: Option<seq<Option<Image>>>,
    onlineStoreUrl: Option<string>)

  /** The `products` field of the JSON body: an array, whose entries may
      be `null` or `undefined` (None), or anything else. */
  datatype ProductsField = ProductArray(items: seq<Option<Product>>) | NotAnArray

  /** The JSON body once parsed: `null`, on which reading `products`
      throws, or any other value, whose `products` field is looked at. */
  datatype Json = NullBody | Parsed(products: ProductsField)

  /** How the Shopify request ends: `fetch` throws; the response is not ok,
      and reading its text for the log may itself throw; parsing the JSON
      body throws; or the body is parsed. */
  datatype Upstream = FetchThrows | NotOk(status: int, textThrows: bool) | BodyThrows | Body(json: Json)

  /** The summary the handler returns for a product. */
  datatype Summary = Summary(
    id: Value,
    handle: Option<string>,
    title: Option<string>,
    image: Option<string>,
    onlineStoreUrl: Option<string>)

  /** The Shopify environment variables the handler requires. */
  datatype Config = Config(shopifyDomain: Option<string>, shopifyToken: Option<string>)

  /** The store and the Shopify API, as the answers they give to each query. */
  datatype Backend = Backend(
    scansOf: string -> Select<ScanRow>,
    codesOf: seq<Value> -> Select<CodeRow>,
    productsOf: seq<Value> -> Upstream)

  /** A query the handler makes, in the order it makes them. */
  datatype Call = SelectScans(customerId: string) | SelectCodes(ids: seq<Value>) | FetchProducts(ids: seq<Value>)

  /** The errors the handler reports. */
  datatype Error = MissingCustomerId | NotConfigured | ScansFailed | CodesFailed | ShopifyFailed | Unexpected {
    /** The `error` field of the JSON body; never empty. */
    function Message(): (m: string)
      ensures m != []
    {
      match this
      case MissingCustomerId => "Missing customerId"
      case NotConfigured => "Shopify not configured"
      case ScansFailed => "Failed to fetch scans"
      case CodesFailed => "Failed to fetch codes"
      case ShopifyFailed => "Failed to fetch products from Shopify"
      case Unexpected => "Unexpected error"
    }
  }

  /** A JSON response: a listing, or an error. */
  datatype Response = Listing(items: seq<Summary>) | Failure(error: Error) {
    /** The HTTP status: 200 for a listing, 400 for a missing customer id,
        500 for every other error. */
    function Status(): int {
      match this
      case Listing(_) => 200
      case Failure(MissingCustomerId) => 400
      case Failure(_) => 500
    }
  }

  /** The response and the queries made to produce it. */
  datatype Reply = Reply(response: Response, calls: seq<Call>)

  /** `[...new Set(vs.filter(Boolean))]`. */
  function DistinctTruthy(vs: seq<Value>): (r: seq<Value>) {
    Dedup(Filter(Truthy, vs))
  }

  /** The ids `DistinctTruthy` gives are without repeats, are exactly the
      truthy values of the input, and come in order of first occurrence. */
  lemma DistinctTruthySpec(vs: seq<Value>)
    ensures NoDuplicates(DistinctTruthy(vs))
    ensures forall v :: v in DistinctTruthy(vs) <==> v in vs && Truthy(v)
    ensures forall i, j :: 0 <= i < j < |DistinctTruthy(vs)| ==>
      FirstIndex(vs, DistinctTruthy(vs)[i]) < FirstIndex(vs, DistinctTruthy(vs)[j])
  {
    var f := Filter(Truthy, vs);
    var r := Dedup(f);
    DedupOrder(f);
    forall i, j | 0 <= i < j < |r| ensures FirstIndex(vs, r[i]) < FirstIndex(vs, r[j]) {
      assert r[i] in f && r[j] in f;
      FilterOrder(Truthy, vs, r[i], r[j]);
    }
  }

  /** `qrIds`: the distinct truthy `qr_code_id`s of the scans. */
  function QrIds(scans: seq<ScanRow>): (ids: seq<Value>)
    ensures ids == DistinctTruthy(seq(|scans|, i requires 0 <= i < |scans| => scans[i].qrCodeId))
    ensures NoDuplicates(ids)
    ensures forall v :: v in ids <==> Truthy(v) && ScanRow(v) in scans
  {
    var vs := seq(|scans|, i requires 0 <= i < |scans| => scans[i].qrCodeId);
    DistinctTruthySpec(vs);
    assert forall i :: 0 <= i < |scans| ==> scans[i] == ScanRow(vs[i]);
    DistinctTruthy(vs)
  }

  /** `productIds`: the distinct truthy `shopify_product_id`s of the codes. */
  function ProductIds(codes: seq<CodeRow>): (ids: seq<Value>)
    ensures ids == DistinctTruthy(seq(|codes|, i requires 0 <= i < |codes| => codes[i].shopifyProductId))
    ensures NoDuplicates(ids)
    ensures forall v :: v in ids <==> Truthy(v) && CodeRow(v) in codes
  {
    var vs := seq(|codes|, i requires 0 <= i < |codes| => codes[i].shopifyProductId);
    DistinctTruthySpec(vs);
    assert forall i :: 0 <= i < |codes| ==> codes[i] == CodeRow(vs[i]);
    DistinctTruthy(vs)
  }

  /** `p.image?.src || (p.images && p.images[0]?.src) || null`. */
  function ImageOf(p: Product): (r: Option<string>)
    ensures p.image.Some? && Present(p.image.value.src) ==> r == p.image.value.src
    ensures !(p.image.Some? && Present(p.image.value.src))
      && p.images.Some? && |p.images.value| > 0 && p.images.value[0].Some? && Present(p.images.value[0].value.src)
      ==> r == p.images.value[0].value.src
    ensures !(p.image.Some? && Present(p.image.value.src))
      && !(p.images.Some? && |p.images.value| > 0 && p.images.value[0].Some? && Present(p.images.value[0].value.src))
      ==> r == None
  {
    var main := if p.image.Some? then p.image.value.src else None;
    var first := if p.images.Some? && |p.images.value| > 0 && p.images.value[0].Some?
                 then p.images.value[0].value.src else None;
    OrNull(Or(main, first))
  }

  /** `p.online_store_url || (p.handle ? ProductsUrl + p.handle : null)`. */
  function StoreUrlOf(p: Product): (r: Option<string>)
    ensures Present(p.onlineStoreUrl) ==> r == p.onlineStoreUrl
    ensures !Present(p.onlineStoreUrl) && Present(p.handle) ==> r == Some(ProductsUrl + p.handle.value)
    ensures !Present(p.onlineStoreUrl) && !Present(p.handle) ==> r == None
  {
    Or(p.onlineStoreUrl, if Present(p.handle) then Some(ProductsUrl + p.handle.value) else None)
  }

  /** The summary of one product: id, handle and title as given, and the
      two URLs by their fallback chains. */
  function Project(p: Product): (s: Summary)
    ensures s.id == p.id && s.handle == p.handle && s.title == p.title
    ensures s.image == ImageOf(p) && s.onlineStoreUrl == StoreUrlOf(p)
    ensures s.image.Some? ==> s.image.value != []
  {
    Summary(p.id, p.handle, p.title, ImageOf(p), StoreUrlOf(p))
  }

  /** `products.map(...)`. */
  function ProjectAll(products: seq<Product>): (r: seq<Summary>)
    ensures |r| == |products|
    ensures forall i :: 0 <= i < |products| ==> r[i] == Project(products[i])
  {
    seq(|products|, i requires 0 <= i < |products| => Project(products[i]))
  }

  /** `Array.isArray(data.products) ? data.products : []`. */
  function ProductsOf(field: ProductsField): seq<Option<Product>> {
    match field
    case ProductArray(items) => items
    case NotAnArray => []
  }

  /** The entries of `products` as objects, or None when one of them is
      `null` or `undefined`, on which reading `p.id` in the projection
      throws. */
  function Objects(entries: seq<Option<Product>>): (r: Option<seq<Product>>)
    ensures r.Some? <==> None !in entries
    ensures r.Some? ==> |r.value| == |entries|
    ensures r.Some? ==> forall i :: 0 <= i < |entries| ==> entries[i] == Some(r.value[i])
  {
    if None in entries then None
    else
      var products := seq(|entries|, i requires 0 <= i < |entries| => entries[i].value);
      assert forall i :: 0 <= i < |entries| ==> entries[i] in entries && entries[i] == Some(products[i]);
      Some(products)
  }

  /** The handler, from the `customerId` query parameter onwards (the
      OPTIONS preflight and the CORS headers are not modelled). No query is made unless the customer id is
      not blank and Shopify is configured, and at most three are made. */
  function ListUnlocks(customerParam: Option<string>, config: Config, backend: Backend): (r: Reply)
    ensures r.calls == [] <==> !Ready(customerParam, config)
    ensures |r.calls| <= 3
  {
    TrimEmptyIff(customerParam.GetOr(""));
    var customerId := Trim(customerParam.GetOr(""));
    if customerId == [] then Reply(Failure(MissingCustomerId), [])
    else if !Present(config.shopifyDomain) || !Present(config.shopifyToken) then
      Reply(Failure(NotConfigured), [])
    else
      AfterScans([SelectScans(customerId)], backend.scansOf(customerId), backend)
  }

  /** From the scans query onwards: the queries made so far stay at the
      head of the list and at most two follow; a non-empty listing comes
      only after both; the only errors are those of the three queries. */
  function AfterScans(calls: seq<Call>, scans: Select<ScanRow>, backend: Backend): (r: Reply)
    ensures |calls| <= |r.calls| <= |calls| + 2 && r.calls[..|calls|] == calls
    ensures r.response.Listing? && r.response.items != [] ==> |r.calls| == |calls| + 2
    ensures r.response.Failure? ==> r.response.error in {ScansFailed, CodesFailed, ShopifyFailed, Unexpected}
  {
    match scans
    case SelectError => Reply(Failure(ScansFailed), calls)
    case Rows(data) =>
      var qrIds := QrIds(data.GetOr([]));
      if qrIds == [] then Reply(Listing([]), calls)
      else
        var calls' := calls + [SelectCodes(qrIds)];
        AfterCodes(calls', backend.codesOf(qrIds), backend)
  }

  /** From the codes query onwards: the queries made so far stay at the
      head of the list and at most the Shopify request follows; a non-empty
      listing comes only after it. */
  function AfterCodes(calls: seq<Call>, codes: Select<CodeRow>, backend: Backend): (r: Reply)
    ensures |calls| <= |r.calls| <= |calls| + 1 && r.calls[..|calls|] == calls
    ensures r.response.Listing? && r.response.items != [] ==> |r.calls| == |calls| + 1
    ensures r.response.Failure? ==> r.response.error in {CodesFailed, ShopifyFailed, Unexpected}
  {
    match codes
    case SelectError => Reply(Failure(CodesFailed), calls)
    case Rows(data) =>
      var productIds := ProductIds(data.GetOr([]));
      if productIds == [] then Reply(Listing([]), calls)
      else
        var calls' := calls + [FetchProducts(productIds)];
        AfterFetch(calls', backend.productsOf(productIds))
  }

  /** From the Shopify request onwards; a thrown error ends in the
      handler's `catch`. No further query is made, and every error is the
      Shopify failure or the unexpected one. */
  function AfterFetch(calls: seq<Call>, upstream: Upstream): (r: Reply)
    ensures r.calls == calls
    ensures r.response.Failure? ==> r.response.error in {ShopifyFailed, Unexpected}
  {
    match upstream
    case FetchThrows => Reply(Failure(Unexpected), calls)
    case NotOk(_, textThrows) =>
      if textThrows then Reply(Failure(Unexpected), calls) else Reply(Failure(ShopifyFailed), calls)
    case BodyThrows => Reply(Failure(Unexpected), calls)
    case Body(NullBody) => Reply(Failure(Unexpected), calls)
    case Body(Parsed(field)) =>
      match Objects(ProductsOf(field))
      case None => Reply(Failure(Unexpected), calls)
      case Some(products) => Reply(Listing(ProjectAll(products)), calls)
  }

  /** A customer id that is blank after trimming gets 400 before any
      query is made. */
  lemma BlankCustomerRejected(customerParam: Option<string>, config: Config, backend: Backend)
    requires AllSpace(customerParam.GetOr(""))
    ensures ListUnlocks(customerParam, config, backend) == Reply(Failure(MissingCustomerId), [])
  {
  }

  /** Without a Shopify domain or token the handler answers 500 before any
      query is made. */
  lemma MissingConfigRejected(customerParam: Option<string>, config: Config, backend: Backend)
    requires !AllSpace(customerParam.GetOr(""))
    requires !Present(config.shopifyDomain) || !Present(config.shopifyToken)
    ensures ListUnlocks(customerParam, config, backend) == Reply(Failure(NotConfigured), [])
  {
  }

  /** The six error messages differ from one another. */
  lemma MessagesDistinct(e: Error, e': Error)
    requires e != e'
    ensures e.Message() != e'.Message()
  {
  }

  /** The customer id is not blank and Shopify is configured, so the
      handler goes on to query the store. */
  predicate Ready(customerParam: Option<string>, config: Config) {
    !AllSpace(customerParam.GetOr("")) && Present(config.shopifyDomain) && Present(config.shopifyToken)
  }

  /** The first query selects the scans of the trimmed customer id. If it
      fails the reply is 500 `Failed to fetch scans`; if the scans hold no
      truthy `qr_code_id` the reply is the empty listing; in both cases no
      other query is made. */
  lemma ScansStage(customerParam: Option<string>, config: Config, backend: Backend)
    requires Ready(customerParam, config)
    ensures var c := Trim(customerParam.GetOr(""));
      var reply := ListUnlocks(customerParam, config, backend);
      var scans := backend.scansOf(c);
      && 1 <= |reply.calls| && reply.calls[0] == SelectScans(c)
      && (scans.SelectError? ==> reply == Reply(Failure(ScansFailed), [SelectScans(c)]))
      && (scans.Rows? && QrIds(scans.data.GetOr([])) == [] ==> reply == Reply(Listing([]), [SelectScans(c)]))
  {
  }

  /** When the scans give code ids, the second query selects the codes of
      exactly `qrIds`. If it fails the reply is 500 `Failed to fetch
      codes`; if the codes hold no truthy `shopify_product_id` the reply is
      the empty listing; in both cases Shopify is not called. */
  lemma CodesStage(customerParam: Option<string>, config: Config, backend: Backend)
    requires Ready(customerParam, config)
    requires var scans := backend.scansOf(Trim(customerParam.GetOr("")));
      scans.Rows? && QrIds(scans.data.GetOr([])) != []
    ensures var c := Trim(customerParam.GetOr(""));
      var reply := ListUnlocks(customerParam, config, backend);
      var qrIds := QrIds(backend.scansOf(c).data.GetOr([]));
      var codes := backend.codesOf(qrIds);
      && 2 <= |reply.calls| && reply.calls[..2] == [SelectScans(c), SelectCodes(qrIds)]
      && (codes.SelectError? ==> reply == Reply(Failure(CodesFailed), [SelectScans(c), SelectCodes(qrIds)]))
      && (codes.Rows? && ProductIds(codes.data.GetOr([])) == [] ==>
            reply == Reply(Listing([]), [SelectScans(c), SelectCodes(qrIds)]))
  {
  }

  /** When the codes give product ids, Shopify is asked for exactly
      `productIds`. A non-ok answer gives 500 `Failed to fetch products from
      Shopify`, unless reading its text throws; a thrown error, including
      reading `products` of a `null` body and reading `p.id` of a `null`
      entry, gives 500 `Unexpected error`; otherwise a parsed body gives
      the projection of every product it lists, in its order (none when
      its `products` field is not an array). */
  lemma FetchStage(customerParam: Option<string>, config: Config, backend: Backend)
    requires Ready(customerParam, config)
    requires var scans := backend.scansOf(Trim(customerParam.GetOr("")));
      && scans.Rows? && QrIds(scans.data.GetOr([])) != []
      && var codes := backend.codesOf(QrIds(scans.data.GetOr([])));
         codes.Rows? && ProductIds(codes.data.GetOr([])) != []
    ensures var c := Trim(customerParam.GetOr(""));
      var reply := ListUnlocks(customerParam, config, backend);
      var qrIds := QrIds(backend.scansOf(c).data.GetOr([]));
      var productIds := ProductIds(backend.codesOf(qrIds).data.GetOr([]));
      var upstream := backend.productsOf(productIds);
      && reply.calls == [SelectScans(c), SelectCodes(qrIds), FetchProducts(productIds)]
      && (upstream.NotOk? && !upstream.textThrows ==> reply.response == Failure(ShopifyFailed))
      && (upstream.NotOk? && upstream.textThrows ==> reply.response == Failure(Unexpected))
      && (upstream.FetchThrows? || upstream.BodyThrows? || upstream == Body(NullBody) ==>
            reply.response == Failure(Unexpected))
      && (upstream.Body? && upstream.json.Parsed? && None in ProductsOf(upstream.json.products) ==>
            reply.response == Failure(Unexpected))
      && (upstream.Body? && upstream.json.Parsed? && None !in ProductsOf(upstream.json.products) ==>
            reply.response == Listing(ProjectAll(Objects(ProductsOf(upstream.json.products)).value)))
      && (upstream == Body(Parsed(NotAnArray)) ==> reply.response == Listing([]))
  {
  }

  /** What the status of a reply tells about its cause: 400 exactly when
      the customer id is blank; `Shopify not configured` exactly when the
      customer id is given and the domain or token is missing; and a
      non-empty listing comes only after all three queries. */
  lemma ReplyStatus(customerParam: Option<string>, config: Config, backend: Backend)
    ensures var r := ListUnlocks(customerParam, config, backend);
      && (r.response.Status() == 400 <==> AllSpace(customerParam.GetOr("")))
      && (r.response == Failure(NotConfigured) <==>
            !AllSpace(customerParam.GetOr("")) && !(Present(config.shopifyDomain) && Present(config.shopifyToken)))
      && (r.response.Listing? && r.response.items != [] ==> |r.calls| == 3)
  {
  }
}
