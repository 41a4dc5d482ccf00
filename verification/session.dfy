/** The per-user session of the delivery-API load test: the token obtained
    at start-up, the product id cached from a listing, and the client's
    default headers, with the tasks that read or write them. */
module Session {
  import opened Wrappers
  import opened Json
  import opened Numerals
  import opened Classify

  /** A default header of the user's HTTP client. `Bearer(t)` stands for the
      text "Bearer " followed by Python's `str(t)`. */
  datatype Header = Text(text: string) | Bearer(token: Value)

  const Authorization := "Authorization"

  /** The object `data.get("data", {})` looks in for the nested token: the
      "data" entry, or an empty object when there is none. */
  function Envelope(fields: map<string, Value>): Value {
    if "data" in fields then fields["data"] else Obj(map[])
  }

  /** `data.get("data", {}).get("token") or data.get("token")` on a decoded
      login response. None stands for the exception the lookup raises when
      the document, or its "data" entry, is not an object; the caller
      swallows it. Otherwise the nested token wins when it is truthy, and the
      top-level "token" (None if absent) is taken in its place. */
  function LookupToken(doc: Value): (t: Option<Value>)
    ensures t.Some? <==> doc.Obj? && Envelope(doc.fields).Obj?
    ensures t.Some? && Truthy(Get(Envelope(doc.fields).fields, "token")) ==>
      t.value == Get(Envelope(doc.fields).fields, "token")
    ensures t.Some? && !Truthy(Get(Envelope(doc.fields).fields, "token")) ==>
      t.value == Get(doc.fields, "token")
  {
    match doc
    case Obj(f) =>
      (match Envelope(f)
       case Obj(g) =>
         var nested := Get(g, "token");
         Some(if Truthy(nested) then nested else Get(f, "token"))
       case _ => None)
    case _ => None
  }

  /** The lookup yields a usable token exactly when one of the two places
      holds a truthy value, and what it yields is one of them. */
  lemma LookupTokenTruthy(doc: Value)
    requires LookupToken(doc).Some?
    ensures Truthy(LookupToken(doc).value) <==>
      Truthy(Get(Envelope(doc.fields).fields, "token")) || Truthy(Get(doc.fields, "token"))
    ensures Truthy(LookupToken(doc).value) ==>
      LookupToken(doc).value in {Get(Envelope(doc.fields).fields, "token"), Get(doc.fields, "token")}
  {
  }

  /** Sample login responses: a nested token, a top-level token, no token
      at all, a falsy nested token, and a null "data" entry (which raises). */
  lemma LookupTokenExamples()
    ensures LookupToken(Obj(map["data" := Obj(map["token" := Str("abc")])])) == Some(Str("abc"))
    ensures LookupToken(Obj(map["token" := Str("xyz")])) == Some(Str("xyz"))
    ensures LookupToken(Obj(map[])) == Some(Null)
    ensures LookupToken(Obj(map["data" := Obj(map["token" := Str("")]), "token" := Str("xyz")])) == Some(Str("xyz"))
    ensures LookupToken(Obj(map["data" := Null, "token" := Str("xyz")])) == None
  {

  }

  /** `view_product_detail`'s stand-in id when no product id is cached:
      `f"product_{k}"`. */
  function FallbackProductId(k: nat): (id: Value)
    ensures id.Str? && "product_" <= id.text && Truthy(id)
  {
    Str("product_" + Decimal(k))
  }

  /** Different draws of `randint` give different stand-in ids. */
  lemma FallbackProductIdInjective(j: nat, k: nat)
    requires FallbackProductId(j) == FallbackProductId(k)
    ensures j == k
  {
    assert FallbackProductId(j).text[8..] == Decimal(j);
    assert FallbackProductId(k).text[8..] == Decimal(k);
    DecimalInjective(j, k);
  }

  /** One simulated user (`DeliveryAPIUser`). Python's `None` is `Null`;
      `product_id` is read through `getattr(..., None)`, so an unset
      attribute is `Null` too. */
  class DeliveryAPIUser {
    var token: Value
    var productId: Value
    var headers: map<string, Header>

    /** A fresh user: no token (the class attribute), no cached product, and
        the client's own default headers. */
    constructor (clientHeaders: map<string, Header>)
      ensures token == Null && productId == Null && headers == clientHeaders
    {
      token := Null;
      productId := Null;
      headers := clientHeaders;
    }

    /** `authenticate`, given the login response. Only a 200 or 201 with a
        decodable body whose token lookup does not raise changes anything;
        then the looked-up value becomes the token, falsy or not, and the
        Authorization header is set only for a truthy one. */
    method Authenticate(status: nat, body: Body)
      modifies this`token, this`headers
      ensures status !in {200, 201} || body.ParseError? || LookupToken(body.doc).None? ==>
        token == old(token) && headers == old(headers)
      ensures status in {200, 201} && body.Parsed? && LookupToken(body.doc).Some? ==>
        token == LookupToken(body.doc).value
        && headers == if Truthy(token) then old(headers)[Authorization := Bearer(token)] else old(headers)
    {
      if status in {200, 201} {
        match body
        case ParseError =>
        case Parsed(doc) =>
          var t := LookupToken(doc);
          if t.Some? {
            token := t.value;
            if Truthy(token) {
              headers := headers[Authorization := Bearer(token)];
            }
          }
      }
    }

    /** `on_start`: a user authenticates when its draw of `random.random()`
        falls below 0.3, and otherwise starts unauthenticated. */
    method OnStart(roll: real, status: nat, body: Body)
      requires 0.0 <= roll < 1.0
      modifies this`token, this`headers
      ensures roll >= 0.3 ==> token == old(token) && headers == old(headers)
      ensures roll < 0.3 && status in {200, 201} && body.Parsed? && LookupToken(body.doc).Some? ==>
        token == LookupToken(body.doc).value
        && headers == if Truthy(token) then old(headers)[Authorization := Bearer(token)] else old(headers)
      ensures roll < 0.3 && (status !in {200, 201} || body.ParseError? || LookupToken(body.doc).None?) ==>
        token == old(token) && headers == old(headers)
    {
      if roll < 0.3 {
        Authenticate(status, body);
      }
    }

    /** `browse_products`: reports as `ProductsOutcome` and caches the first
        product's id; the cache is left alone on any failure and on an empty
        list. */
    method BrowseProducts(status: nat, body: Body) returns (o: Outcome)
      modifies this`productId
      ensures o == TaskOutcome(Products, status, body)
      ensures productId == ProductsOutcome(status, body).1.GetOr(old(productId))
      ensures productId != old(productId) ==> o == Success && body.Parsed? && HasDataList(body.doc)
    {
      var r := ProductsOutcome(status, body);
      o := r.0;
      if r.1.Some? {
        productId := r.1.value;
      }
    }

    /** `view_product_detail`: the id it requests (the cached one when
        truthy, else the stand-in for the draw `k` of `randint(1, 100)`) and
        what it reports. */
    method ViewProductDetail(k: nat, status: nat) returns (id: Value, o: Outcome)
      requires 1 <= k <= 100
      ensures Truthy(id)
      ensures Truthy(productId) ==> id == productId
      ensures !Truthy(productId) ==> id == FallbackProductId(k)
      ensures o == Success <==> status in AcceptedStatuses(ProductDetail)
      ensures o != Success ==> o == Failure(StatusCode(status))
    {
      id := if Truthy(productId) then productId else FallbackProductId(k);
      o := NotFoundTolerant(status);
    }

    /** `view_cart`: None when no request is made because the user holds no
        truthy token. */
    method ViewCart(status: nat) returns (o: Option<Outcome>)
      ensures o.None? <==> !Truthy(token)
      ensures o.Some? ==> (o.value == Success <==> status in AcceptedStatuses(Cart))
      ensures o.Some? && o.value != Success ==> o.value == Failure(StatusCode(status))
    {
      if !Truthy(token) {
        return None;
      }
      o := Some(NotFoundTolerant(status));
    }

    /** `view_orders`: None when no request is made because the user holds
        no truthy token. */
    method ViewOrders(status: nat, body: Body) returns (o: Option<Outcome>)
      ensures o.None? <==> !Truthy(token)
      ensures o.Some? ==> (o.value == Success <==> status == 200 && body.Parsed?)
      ensures o.Some? && o.value != Success ==>
        o.value == Failure(if status == 200 then ParseFailed else StatusCode(status))
    {
      if !Truthy(token) {
        return None;
      }
      o := Some(OrdersOutcome(status, body));
    }

    /** `view_addresses`: None when no request is made because the user
        holds no truthy token. */
    method ViewAddresses(status: nat) returns (o: Option<Outcome>)
      ensures o.None? <==> !Truthy(token)
      ensures o.Some? ==> (o.value == Success <==> status in AcceptedStatuses(Addresses))
      ensures o.Some? && o.value != Success ==> o.value == Failure(StatusCode(status))
    {
      if !Truthy(token) {
        return None;
      }
      o := Some(NotFoundTolerant(status));
    }
  }
}
