/**
 * The guard-checking executor `_execute_intent`, the API methods and what
 * each of them does to `current_seller`, `current_product` and the
 * conversation history.
 */
module Executor {
  import opened Wrappers
  import opened Json
  import opened Http
  import opened Intents

  /** A `datetime`, kept as the text `isoformat()` gives for it. */
  type Timestamp = string

  /** One history record. */
  datatype ConversationEntry = ConversationEntry(operation: string, details: map<string, Json>, timestamp: Timestamp)

  /** `ConversationEntry.to_dict`. */
  function ToDict(e: ConversationEntry): Json {
    JObject(map["operation" := JString(e.operation), "details" := JObject(e.details), "timestamp" := JString(e.timestamp)])
  }

  /** How a session load rebuilds an entry from its dict; `None` where the load would raise. */
  function FromDict(j: Json): Option<ConversationEntry> {
    match (Index(j, "operation"), Index(j, "details"), Index(j, "timestamp"))
    case (Ok(JString(op)), Ok(JObject(details)), Ok(JString(stamp))) => Some(ConversationEntry(op, details, stamp))
    case _ => None
  }

  /** The session file gives back every entry it was given. */
  lemma {:induction false} EntryRoundTrip(e: ConversationEntry)
    ensures FromDict(ToDict(e)) == Some(e)
  {
    var j := ToDict(e);
    assert Index(j, "operation") == Ok(JString(e.operation));
    assert Index(j, "details") == Ok(JObject(e.details));
    assert Index(j, "timestamp") == Ok(JString(e.timestamp));
  }

  /** One HTTP request to the product service, with the values it carries. */
  datatype ApiCall =
    | PostSeller(name: string, email: string)                                            // POST /api/sellers
    | FetchSeller(sellerId: Json)                                                         // GET /api/sellers/{id}
    | PostProduct(sellerId: Json, name: string, description: string, price: real, stock: nat) // POST /api/sellers/{id}/products
    | PatchStock(sellerId: Json, productId: Json, newStock: nat)                         // PATCH .../products/{pid}/stock
    | FetchLowStock(sellerId: Json)                                                        // GET .../products/low-stock
    | FetchHealth                                                                          // GET /actuator/health

  /**
   * What escapes an API method or `_execute_intent`:
   * - `Mcp`: an `MCPError`, from `_handle_response` or from a guard;
   * - `Lookup`: the `KeyError`/`TypeError` of reading an `id`;
   * - `Transport`: the `requests` exception that `requests.get/post/patch`
   *   raises before any response, which no `except MCPError` clause catches;
   * - `NoAttribute`: the `AttributeError` of `.get` on a decoded body that is
   *   not a dict;
   * - `NoLength`: the `TypeError` of `len()` on a decoded number, boolean or null.
   */
  datatype Raised =
    | Mcp(mcp: MCPError)
    | Lookup(lookup: IndexError)
    | Transport(reason: string)
    | NoAttribute(attribute: string)
    | NoLength

  /** The description `_execute_intent` gives every product it adds. */
  const Description: string := "Product added via natural language query"

  /**
   * `_execute_intent(intent, params)` up to the request: the one call it
   * sends, or what it raises before sending anything.
   */
  function ExecutePlan(intent: Intent, params: Params, seller: Json, product: Json): (r: Result<ApiCall, Raised>)
    ensures r.Err? ==> r.error.Mcp? || r.error.Lookup?
    ensures r.Err? && r.error.Lookup? ==> intent in {AddProduct, UpdateStock} && Truthy(seller)
    ensures r.Ok? ==> intent != Unknown
    ensures r.Ok? ==> (intent == CreateSeller <==> r.value.PostSeller?) && (intent == AddProduct <==> r.value.PostProduct?)
                      && (intent == UpdateStock <==> r.value.PatchStock?) && (intent == SelectSeller <==> r.value.FetchSeller?)
  {
    match intent
    case CreateSeller =>
      if !Given(params.name) || !Given(params.email) then Err(Mcp(Complaint("Please provide both name and email for the seller")))
      else Ok(PostSeller(params.name.value, params.email.value))
    case AddProduct =>
      if !Truthy(seller) then Err(Mcp(Complaint("Please select a seller first")))
      else if !Given(params.name) || params.price.None? || params.stock.None? then
        Err(Mcp(Complaint("Please provide name, price, and stock for the product")))
      else
        (match Index(seller, "id")
         case Err(e) => Err(Lookup(e))
         case Ok(sellerId) => Ok(PostProduct(sellerId, params.name.value, Description, params.price.value, params.stock.value)))
    case UpdateStock =>
      if !Truthy(seller) then Err(Mcp(Complaint("Please select a seller first")))
      else if !Truthy(product) && !Given(params.productName) then Err(Mcp(Complaint("Please select a product first")))
      else if params.newStock.None? then Err(Mcp(Complaint("Please provide the new stock quantity")))
      else if !Truthy(product) then Err(Mcp(Complaint("Please select the product first")))
      else
        (match (Index(seller, "id"), Index(product, "id"))
         case (Err(e), _) => Err(Lookup(e))
         case (Ok(_), Err(e)) => Err(Lookup(e))
         case (Ok(sellerId), Ok(productId)) => Ok(PatchStock(sellerId, productId, params.newStock.value)))
    case SelectSeller =>
      if !Given(params.sellerId) then Err(Mcp(Complaint("Please provide a seller ID")))
      else Ok(FetchSeller(JString(params.sellerId.value)))
    case Unknown =>
      Err(Mcp(Complaint("I couldn't understand that request. Please try again with more details.")))
  }

  /** The client state the API methods read and write. */
  datatype Context = Context(currentSeller: Json, currentProduct: Json, history: seq<ConversationEntry>)

  /** The `operation` each call records. */
  function Operation(call: ApiCall): string {
    match call
    case PostSeller(_, _) => "create_seller"
    case FetchSeller(_) => "get_seller"
    case PostProduct(_, _, _, _, _) => "add_product"
    case PatchStock(_, _, _) => "update_stock"
    case FetchLowStock(_) => "get_low_stock"
    case FetchHealth => "health_check"
  }

  /** The JSON request body a call sends, where it sends one. */
  function RequestBody(call: ApiCall): Json {
    match call
    case PostSeller(name, email) => JObject(map["name" := JString(name), "email" := JString(email)])
    case PostProduct(_, name, description, price, stock) =>
      JObject(map["name" := JString(name), "description" := JString(description), "price" := JNumber(price), "stock" := JNumber(stock as real)])
    case PatchStock(_, _, newStock) => JObject(map["stock" := JNumber(newStock as real)])
    case _ => JNull
  }

  /** The key under which each call records the response body. */
  function BodyKey(call: ApiCall): string {
    if call.FetchHealth? then "status" else "response"
  }

  /** The `details` each call records next to the response body. */
  function Details(call: ApiCall, body: Json): (d: map<string, Json>)
    ensures BodyKey(call) in d && d[BodyKey(call)] == body
    ensures call.FetchHealth? ==> d.Keys == {"status"}
  {
    match call
    case PostSeller(_, _) => map["request" := RequestBody(call), "response" := body]
    case FetchSeller(sellerId) => map["seller_id" := sellerId, "response" := body]
    case PostProduct(sellerId, _, _, _, _) => map["seller_id" := sellerId, "request" := RequestBody(call), "response" := body]
    case PatchStock(sellerId, productId, newStock) =>
      map["seller_id" := sellerId, "product_id" := productId, "new_stock" := JNumber(newStock as real), "response" := body]
    case FetchLowStock(sellerId) => map["seller_id" := sellerId, "response" := body]
    case FetchHealth => map["status" := body]
  }

  predicate SelectsSeller(call: ApiCall) { call.PostSeller? || call.FetchSeller? }
  predicate SelectsProduct(call: ApiCall) { call.PostProduct? || call.PatchStock? }

  /**
   * The logging line after the update, where it can raise: `get_seller` logs
   * `seller_data.get('name')`, which has no `.get` unless the body is a
   * dict, and `get_low_stock_products` logs `len(products_data)`, which a
   * number, a boolean or null does not have.
   */
  function LogFailure(call: ApiCall, body: Json): (f: Option<Raised>)
    ensures f.Some? <==> (call.FetchSeller? && !body.JObject?) ||
                         (call.FetchLowStock? && (body.JNull? || body.JBool? || body.JNumber?))
    ensures f.Some? && call.FetchSeller? ==> f.value == NoAttribute("get")
    ensures f.Some? && call.FetchLowStock? ==> f.value == NoLength
  {
    match call
    case FetchSeller(_) => if body.JObject? then None else Some(NoAttribute("get"))
    case FetchLowStock(_) =>
      (match body
       case JNull => Some(NoLength)
       case JBool(_) => Some(NoLength)
       case JNumber(_) => Some(NoLength)
       case _ => None)
    case _ => None
  }

  /** The body `_handle_response` returns for `outcome`, if it returns at all. */
  function Accepted(outcome: Outcome): Option<Json> {
    match outcome
    case Unreachable(_) => None
    case Delivered(resp) =>
      (match HandleResponse(resp)
       case Ok(body) => Some(body)
       case Err(_) => None)
  }

  /** The outcome of one API method: its result and the context afterwards. */
  datatype Performed = Performed(result: Result<Json, Raised>, after: Context)

  /**
   * An API method: send `call`; a transport exception or an `MCPError` from
   * `_handle_response` escapes with the context untouched; otherwise remember
   * the returned entity, record the call, and then log, which can still raise.
   */
  function Perform(ctx: Context, call: ApiCall, outcome: Outcome, now: Timestamp): (p: Performed)
    ensures outcome.Unreachable? ==> p == Performed(Err(Transport(outcome.reason)), ctx)
    ensures outcome.Delivered? && HandleResponse(outcome.response).Err? ==>
              p == Performed(Err(Mcp(HandleResponse(outcome.response).error)), ctx)
    ensures p.result.Ok? <==> Accepted(outcome).Some? && LogFailure(call, Accepted(outcome).value).None?
    ensures p.result.Ok? ==> p.result.value == Accepted(outcome).value
    ensures Accepted(outcome).Some? && p.result.Err? ==> p.result == Err(LogFailure(call, Accepted(outcome).value).value)
    ensures Accepted(outcome).Some? ==>
              p.after.history == ctx.history + [ConversationEntry(Operation(call), Details(call, Accepted(outcome).value), now)]
    ensures p.after.currentSeller == if Accepted(outcome).Some? && SelectsSeller(call) then Accepted(outcome).value else ctx.currentSeller
    ensures p.after.currentProduct == if Accepted(outcome).Some? && SelectsProduct(call) then Accepted(outcome).value else ctx.currentProduct
  {
    match outcome
    case Unreachable(reason) => Performed(Err(Transport(reason)), ctx)
    case Delivered(resp) =>
      (match HandleResponse(resp)
       case Err(e) => Performed(Err(Mcp(e)), ctx)
       case Ok(body) =>
         var entry := ConversationEntry(Operation(call), Details(call, body), now);
         var after := Context(
           if SelectsSeller(call) then body else ctx.currentSeller,
           if SelectsProduct(call) then body else ctx.currentProduct,
           ctx.history + [entry]);
         Performed(match LogFailure(call, body) case Some(f) => Err(f) case None => Ok(body), after))
  }

  /** The whole of `_execute_intent`: its result, the context afterwards and the requests it sent. */
  datatype Executed = Executed(result: Result<Json, Raised>, after: Context, sent: seq<ApiCall>)

  function Execute(ctx: Context, intent: Intent, params: Params, outcome: Outcome, now: Timestamp): (x: Executed)
    ensures |x.sent| <= 1
    ensures x.sent == [] <==> ExecutePlan(intent, params, ctx.currentSeller, ctx.currentProduct).Err?
    ensures x.sent == [] ==> x.after == ctx && x.result.Err?
    ensures x.sent != [] ==> Performed(x.result, x.after) == Perform(ctx, x.sent[0], outcome, now)
  {
    match ExecutePlan(intent, params, ctx.currentSeller, ctx.currentProduct)
    case Err(e) => Executed(Err(e), ctx, [])
    case Ok(call) =>
      var p := Perform(ctx, call, outcome, now);
      Executed(p.result, p.after, [call])
  }

  // ----- Properties -----

  /** History only grows, one entry per successful request, never more. */
  lemma HistoryAppendOnly(ctx: Context, call: ApiCall, outcome: Outcome, now: Timestamp)
    ensures var h := Perform(ctx, call, outcome, now).after.history;
            && |ctx.history| <= |h| <= |ctx.history| + 1
            && h[..|ctx.history|] == ctx.history
            && (|h| == |ctx.history| + 1 <==> Accepted(outcome).Some?)
  {
    var p := Perform(ctx, call, outcome, now);
    if Accepted(outcome).Some? {
      assert (ctx.history + [ConversationEntry(Operation(call), Details(call, Accepted(outcome).value), now)])[..|ctx.history|] == ctx.history;
    }
  }

  /**
   * A request that never gets a response raises the transport's own
   * exception, not an `MCPError`, and changes neither the selection nor the
   * history.
   */
  lemma TransportFailureEscapes(ctx: Context, call: ApiCall, reason: string, now: Timestamp)
    ensures var p := Perform(ctx, call, Unreachable(reason), now);
            && p.result.Err? && !p.result.error.Mcp? && p.result.error == Transport(reason)
            && p.after == ctx
  {
  }

  /**
   * `get_seller` and `get_low_stock_products` update the context and the
   * history before the logging line that can raise: a successful response
   * with a body of the wrong kind is recorded and yet raises.
   */
  lemma LogRaisesAfterUpdate(ctx: Context, sellerId: Json, status: int, errorText: string, body: Json, now: Timestamp)
    requires !RaisesForStatus(status)
    ensures var p := Perform(ctx, FetchSeller(sellerId), Delivered(Response(status, errorText, Parsed(body))), now);
            && (!body.JObject? ==> p.result == Err(NoAttribute("get")))
            && (body.JObject? ==> p.result == Ok(body))
            && p.after.currentSeller == body
            && |p.after.history| == |ctx.history| + 1
    ensures var p := Perform(ctx, FetchLowStock(sellerId), Delivered(Response(status, errorText, Parsed(body))), now);
            && (p.result == Err(NoLength) <==> body.JNull? || body.JBool? || body.JNumber?)
            && p.after.currentSeller == ctx.currentSeller
            && |p.after.history| == |ctx.history| + 1
  {
  }

  /**
   * The guards, with both directions: a create-seller request goes out
   * exactly when name and email are both given, a select-seller request
   * exactly when a seller id is given, and an unknown intent never sends.
   */
  lemma SellerGuards(params: Params, seller: Json, product: Json)
    ensures ExecutePlan(CreateSeller, params, seller, product).Ok? <==> Given(params.name) && Given(params.email)
    ensures ExecutePlan(CreateSeller, params, seller, product).Ok? ==>
              ExecutePlan(CreateSeller, params, seller, product).value == PostSeller(params.name.value, params.email.value)
    ensures ExecutePlan(SelectSeller, params, seller, product).Ok? <==> Given(params.sellerId)
    ensures ExecutePlan(Unknown, params, seller, product).Err?
  {
  }

  /**
   * An add-product request goes out exactly when a seller is selected whose
   * record has an `id`, and a name, a price and a stock are all given; it
   * carries that id and those values.
   */
  lemma AddProductGuards(params: Params, seller: Json, product: Json)
    ensures var r := ExecutePlan(AddProduct, params, seller, product);
            && (r.Ok? <==> Truthy(seller) && Given(params.name) && params.price.Some? && params.stock.Some? && Index(seller, "id").Ok?)
            && (r.Ok? ==> r.value == PostProduct(Index(seller, "id").value, params.name.value, Description, params.price.value, params.stock.value))
            && (r.Err? && r.error.Lookup? ==> Truthy(seller) && Index(seller, "id").Err?)
  {
  }

  /**
   * An update-stock request needs a selected product: a product name alone,
   * with nothing selected, is refused whatever else is given.
   */
  lemma UpdateStockNeedsSelection(params: Params, seller: Json, product: Json)
    ensures var r := ExecutePlan(UpdateStock, params, seller, product);
            && (r.Ok? <==> Truthy(seller) && Truthy(product) && params.newStock.Some? && Index(seller, "id").Ok? && Index(product, "id").Ok?)
            && (!Truthy(product) ==> r.Err? && r.error.Mcp?)
            && (r.Ok? ==> r.value == PatchStock(Index(seller, "id").value, Index(product, "id").value, params.newStock.value))
  {
  }

  /**
   * The validator and the executor agree on create-seller and add-product:
   * what the validator calls complete passes every guard (it can still fail
   * on a seller record without an `id`).  On update-stock they disagree: the
   * validator accepts a product name without a selected product, which the
   * executor then refuses.
   */
  lemma ValidatorAndExecutor(intent: Intent, params: Params, seller: Json, product: Json)
    requires AskForMissingDetails(intent, params, seller, product) == Ok(Complete(intent, params))
    ensures intent == CreateSeller ==> ExecutePlan(intent, params, seller, product).Ok?
    ensures intent == AddProduct ==> ExecutePlan(intent, params, seller, product).Ok? || ExecutePlan(intent, params, seller, product).error.Lookup?
    ensures intent == UpdateStock && !Truthy(product) ==>
              ExecutePlan(intent, params, seller, product) == Err(Mcp(Complaint("Please select the product first")))
  {
    ValidatorAsksFirstUnmet(intent, params, seller, product);
    FirstUnmetMeaning(Requirements(intent), params, seller, product);
    if intent == CreateSeller {
      assert Satisfied(Requirements(intent)[0], params, seller, product) && Satisfied(Requirements(intent)[1], params, seller, product);
    } else if intent == AddProduct {
      var reqs := Requirements(intent);
      assert Satisfied(reqs[0], params, seller, product) && Satisfied(reqs[1], params, seller, product);
      assert Satisfied(reqs[2], params, seller, product) && Satisfied(reqs[3], params, seller, product);
    } else if intent == UpdateStock {
      var reqs := Requirements(intent);
      assert Satisfied(reqs[0], params, seller, product) && Satisfied(reqs[1], params, seller, product);
      assert Satisfied(reqs[2], params, seller, product);
    }
  }
}
