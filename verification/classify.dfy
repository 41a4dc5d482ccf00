/** How each task of the delivery-API user decides what it reports to Locust:
    a pure decision from the response's status code and decoded body to a
    success or a named failure. */
module Classify {
  import opened Wrappers
  import opened Json
  import opened Numerals

  /** Why a response was recorded as a failure. */
  datatype Reason = StatusCode(code: nat) | ParseFailed | InvalidFormat

  /** What a task reports through `response.success()` / `response.failure(...)`. */
  datatype Outcome = Success | Failure(reason: Reason)

  const StatusPrefix := "Status code: "

  /** The text passed to `response.failure`. */
  function Message(r: Reason): (m: string)
    ensures StatusPrefix <= m <==> r.StatusCode?
  {
    match r
    case StatusCode(c) => StatusPrefix + Decimal(c)
    case ParseFailed =>
      assert StatusPrefix[0] != "Failed to parse response"[0];
      "Failed to parse response"
    case InvalidFormat =>
      assert StatusPrefix[0] != "Invalid response format"[0];
      "Invalid response format"
  }

  /** Distinct failure reasons are reported under distinct messages, so a
      failure message names its cause (and, for a status, the exact code). */
  lemma MessageInjective(a: Reason, b: Reason)
    requires Message(a) == Message(b)
    ensures a == b
  {
    if a.StatusCode? && b.StatusCode? {
      assert Message(a)[|StatusPrefix|..] == Decimal(a.code);
      assert Message(b)[|StatusPrefix|..] == Decimal(b.code);
      DecimalInjective(a.code, b.code);
    } else if a.StatusCode? || b.StatusCode? {
      assert false;
    }
  }

  /** The shape a listing endpoint must return: an object whose "data" key is
      bound to a list. */
  predicate HasDataList(doc: Value) {
    doc.Obj? && "data" in doc.fields && doc.fields["data"].Arr?
  }

  /** The list under "data" of a well-shaped listing document. */
  function DataItems(doc: Value): seq<Value>
    requires HasDataList(doc)
  {
    doc.fields["data"].items
  }

  /** The documents on which `"data" in data and isinstance(data["data"], list)`
      raises: `in` on a number, bool or None, and `data["data"]` on a list or
      str for which `in` was true. */
  predicate ShapeCheckRaises(doc: Value) {
    doc.Num? || doc.Bool? || doc.Null?
    || (doc.Arr? && Str("data") in doc.items)
    || (doc.Str? && HasSubstring(doc.text, "data"))
  }

  /** The `try` block of a listing task on a decoded document; an exception
      inside it lands in the bare `except`, which reports a parse failure. */
  function ListingShape(doc: Value): (o: Outcome)
    ensures o == Success <==> HasDataList(doc)
    ensures o == Failure(ParseFailed) <==> ShapeCheckRaises(doc)
    ensures o != Success ==> o == Failure(ParseFailed) || o == Failure(InvalidFormat)
  {
    match Contains(doc, "data")
    case None => Failure(ParseFailed)
    case Some(found) =>
      if !found then Failure(InvalidFormat)
      else match doc
        case Obj(f) => if f["data"].Arr? then Success else Failure(InvalidFormat)
        case _ => Failure(ParseFailed)
  }

  /** `browse_categories` and `view_best_sellers` (and the report of
      `browse_products` before it reads the first product). */
  function ListingOutcome(status: nat, body: Body): (o: Outcome)
    ensures o == Success <==> status == 200 && body.Parsed? && HasDataList(body.doc)
    ensures status != 200 ==> o == Failure(StatusCode(status))
    ensures status == 200 && body.ParseError? ==> o == Failure(ParseFailed)
    ensures status == 200 && body.Parsed? && !HasDataList(body.doc) ==>
      o == Failure(if ShapeCheckRaises(body.doc) then ParseFailed else InvalidFormat)
  {
    if status == 200 then
      match body
      case ParseError => Failure(ParseFailed)
      case Parsed(doc) => ListingShape(doc)
    else
      Failure(StatusCode(status))
  }

  /** `browse_products`: what it reports, and the id it caches in
      `product_id` (None when it leaves `product_id` alone). After
      `response.success()` the task evaluates `products[0].get("id")`, which
      raises unless the first product is an object; the bare `except` then
      calls `response.failure`, and Locust reports the later call. A product
      without "id" caches None. */
  function ProductsOutcome(status: nat, body: Body): (r: (Outcome, Option<Value>))
    ensures ListingOutcome(status, body) != Success ==> r == (ListingOutcome(status, body), None)
    ensures r.0 == Success <==>
      ListingOutcome(status, body) == Success
      && (DataItems(body.doc) == [] || DataItems(body.doc)[0].Obj?)
    ensures r.1.Some? <==> r.0 == Success && DataItems(body.doc) != []
    ensures r.1.Some? ==> r.1.value == Get(DataItems(body.doc)[0].fields, "id")
    ensures r.0.Failure? ==> r.0 == ListingOutcome(status, body) || r.0 == Failure(ParseFailed)
  {
    var listing := ListingOutcome(status, body);
    if listing != Success then (listing, None)
    else
      var products := body.doc.fields["data"].items;
      if |products| == 0 then (Success, None)
      else match products[0]
        case Obj(f) => (Success, Some(Get(f, "id")))
        case _ => (Failure(ParseFailed), None)
  }

  /** The documents `search_products` accepts: `"data" in data or
      isinstance(data, list)` evaluated without raising. */
  predicate SearchAccepts(doc: Value) {
    doc.Arr?
    || (doc.Obj? && "data" in doc.fields)
    || (doc.Str? && HasSubstring(doc.text, "data"))
  }

  /** `search_products`. */
  function SearchOutcome(status: nat, body: Body): (o: Outcome)
    ensures o == Success <==> status == 200 && body.Parsed? && SearchAccepts(body.doc)
    ensures status != 200 ==> o == Failure(StatusCode(status))
    ensures status == 200 && body.Parsed? && !SearchAccepts(body.doc) ==>
      o == Failure(if body.doc.Obj? || body.doc.Str? then InvalidFormat else ParseFailed)
    ensures status == 200 && body.ParseError? ==> o == Failure(ParseFailed)
  {
    if status == 200 then
      match body
      case ParseError => Failure(ParseFailed)
      case Parsed(doc) =>
        match Contains(doc, "data")
        case None => Failure(ParseFailed)
        case Some(found) => if found || doc.Arr? then Success else Failure(InvalidFormat)
    else
      Failure(StatusCode(status))
  }

  /** `view_orders` once a request is made: any decodable body will do. */
  function OrdersOutcome(status: nat, body: Body): (o: Outcome)
    ensures o == Success <==> status == 200 && body.Parsed?
    ensures o.Failure? ==> o.reason == (if status == 200 then ParseFailed else StatusCode(status))
  {
    if status == 200 then
      match body
      case ParseError => Failure(ParseFailed)
      case Parsed(_) => Success
    else
      Failure(StatusCode(status))
  }

  /** `view_product_detail`, `view_cart`, `view_addresses` and
      `track_delivery`: a missing resource is an acceptable answer. */
  function NotFoundTolerant(status: nat): (o: Outcome)
    ensures o == Success <==> status == 200 || status == 404
    ensures o != Success ==> o == Failure(StatusCode(status))
  {
    if status == 200 then Success
    else if status == 404 then Success
    else Failure(StatusCode(status))
  }

  /** `signup`: created, or already registered. */
  function SignUpOutcome(status: nat): (o: Outcome)
    ensures o == Success <==> status == 200 || status == 201 || status == 409
    ensures o != Success ==> o == Failure(StatusCode(status))
  {
    if status == 200 || status == 201 then Success
    else if status == 409 then Success
    else Failure(StatusCode(status))
  }

  /** The weighted tasks of the user. */
  datatype Task =
    | Categories | Products | ProductDetail | Search | BestSellers
    | Cart | Orders | Addresses | SignUp | Tracking

  /** The status codes each task's allow-list admits. */
  function AcceptedStatuses(t: Task): set<nat> {
    match t
    case SignUp => {200, 201, 409}
    case ProductDetail | Cart | Addresses | Tracking => {200, 404}
    case _ => {200}
  }

  /** The tasks that, besides the status, look at the decoded body. */
  predicate ChecksBody(t: Task) {
    t.Categories? || t.Products? || t.Search? || t.BestSellers? || t.Orders?
  }

  /** The report of task `t` for a response. A status outside the task's
      allow-list is always a "Status code: <n>" failure; an admitted status is
      never one; tasks that ignore the body succeed exactly on their
      allow-list, and tasks that read it fail on an undecodable body. */
  function TaskOutcome(t: Task, status: nat, body: Body): (o: Outcome)
    ensures status !in AcceptedStatuses(t) ==> o == Failure(StatusCode(status))
    ensures status in AcceptedStatuses(t) && o.Failure? ==> !o.reason.StatusCode?
    ensures !ChecksBody(t) ==> (o == Success <==> status in AcceptedStatuses(t))
    ensures ChecksBody(t) && body.ParseError? ==> o == Failure(if status == 200 then ParseFailed else StatusCode(status))
  {
    match t
    case Categories | BestSellers => ListingOutcome(status, body)
    case Products => ProductsOutcome(status, body).0
    case Search => SearchOutcome(status, body)
    case Orders => OrdersOutcome(status, body)
    case ProductDetail | Cart | Addresses | Tracking => NotFoundTolerant(status)
    case SignUp => SignUpOutcome(status)
  }
}
