/**
 * `MCPClient`: the object that holds the conversation, the selected seller
 * and product and the history, and whose methods update them in place.
 * Each API method sends one request, whose outcome is a parameter; `sent`
 * records the requests so far, oldest first.
 */
module Client {
  import opened Wrappers
  import opened Json
  import opened Http
  import opened Intents
  import opened Conversation
  import opened Executor

  /** What a session file holds once decoded, with absent keys at their defaults. */
  datatype Session = Session(history: seq<ConversationEntry>, currentSeller: Json, currentProduct: Json, context: map<string, Json>)

  /**
   * What `process_natural_language` returns: a reply text, or the outcome of
   * the `create_seller` call on the seller email turn ("Seller created
   * successfully! ID: {id}" or "Error creating seller: {error}").
   */
  datatype Reply = Said(text: string) | SellerCreated(id: Json) | SellerNotCreated(error: Raised)

  /**
   * The reply to the create-seller call's result.  `except Exception` catches
   * whatever the call raised, and also a failure to read the new seller's `id`.
   */
  function SellerReply(r: Result<Json, Raised>): (reply: Reply)
    ensures reply.SellerCreated? <==> r.Ok? && Index(r.value, "id").Ok?
    ensures reply.SellerCreated? ==> reply.id == r.value.fields["id"]
    ensures r.Err? ==> reply == SellerNotCreated(r.error)
  {
    match r
    case Err(e) => SellerNotCreated(e)
    case Ok(seller) =>
      match Index(seller, "id")
      case Ok(id) => SellerCreated(id)
      case Err(e) => SellerNotCreated(Lookup(e))
  }

  class MCPClient {
    var history: seq<ConversationEntry>
    var currentSeller: Json
    var currentProduct: Json
    var context: map<string, Json>
    var pending: Option<PendingOperation>
    var conversation: State
    var sent: seq<ApiCall>

    /** The part of the client the API methods read and write. */
    function Ctx(): Context
      reads this
    {
      Context(currentSeller, currentProduct, history)
    }

    /** A new client, with the saved session when one could be read in full. */
    constructor (saved: Option<Session>)
      ensures saved.None? ==> history == [] && currentSeller == JNull && currentProduct == JNull && context == map[]
      ensures saved.Some? ==> history == saved.value.history && currentSeller == saved.value.currentSeller
                              && currentProduct == saved.value.currentProduct && context == saved.value.context
      ensures pending == None && conversation == Idle && sent == []
    {
      history := [];
      currentSeller := JNull;
      currentProduct := JNull;
      context := map[];
      pending := None;
      conversation := Idle;
      sent := [];
      if saved.Some? {
        history := saved.value.history;
        currentSeller := saved.value.currentSeller;
        currentProduct := saved.value.currentProduct;
        context := saved.value.context;
      }
    }

    /** `_add_to_history`: append one entry stamped `now`. */
    method AddToHistory(operation: string, details: map<string, Json>, now: Timestamp) returns (entry: ConversationEntry)
      modifies this
      ensures entry == ConversationEntry(operation, details, now)
      ensures history == old(history) + [entry]
      ensures currentSeller == old(currentSeller) && currentProduct == old(currentProduct)
      ensures context == old(context) && pending == old(pending) && conversation == old(conversation) && sent == old(sent)
    {
      entry := ConversationEntry(operation, details, now);
      history := history + [entry];
    }

    /**
     * The body the API methods share: send `call`; once `_handle_response`
     * has returned, remember and record it, then log.
     */
    method Send(call: ApiCall, outcome: Outcome, now: Timestamp) returns (r: Result<Json, Raised>)
      modifies this
      ensures sent == old(sent) + [call]
      ensures Performed(r, Ctx()) == Perform(old(Ctx()), call, outcome, now)
      ensures context == old(context) && pending == old(pending) && conversation == old(conversation)
    {
      sent := sent + [call];
      match outcome
      case Unreachable(reason) =>
        r := Err(Transport(reason));
      case Delivered(response) =>
        match HandleResponse(response)
        case Err(e) =>
          r := Err(Mcp(e));
        case Ok(body) =>
          if SelectsSeller(call) {
            currentSeller := body;
          }
          if SelectsProduct(call) {
            currentProduct := body;
          }
          var _ := AddToHistory(Operation(call), Details(call, body), now);
          match LogFailure(call, body)
          case Some(f) =>
            r := Err(f);
          case None =>
            r := Ok(body);
    }

    /** `get_health`: the body is recorded under "status"; the selection is kept. */
    method GetHealth(outcome: Outcome, now: Timestamp) returns (r: Result<Json, Raised>)
      modifies this
      ensures sent == old(sent) + [FetchHealth]
      ensures Performed(r, Ctx()) == Perform(old(Ctx()), FetchHealth, outcome, now)
      ensures context == old(context) && pending == old(pending) && conversation == old(conversation)
    {
      r := Send(FetchHealth, outcome, now);
    }

    method CreateSeller(name: string, email: string, outcome: Outcome, now: Timestamp) returns (r: Result<Json, Raised>)
      modifies this
      ensures sent == old(sent) + [PostSeller(name, email)]
      ensures Performed(r, Ctx()) == Perform(old(Ctx()), PostSeller(name, email), outcome, now)
      ensures context == old(context) && pending == old(pending) && conversation == old(conversation)
    {
      r := Send(PostSeller(name, email), outcome, now);
    }

    method GetSeller(sellerId: Json, outcome: Outcome, now: Timestamp) returns (r: Result<Json, Raised>)
      modifies this
      ensures sent == old(sent) + [FetchSeller(sellerId)]
      ensures Performed(r, Ctx()) == Perform(old(Ctx()), FetchSeller(sellerId), outcome, now)
      ensures context == old(context) && pending == old(pending) && conversation == old(conversation)
    {
      r := Send(FetchSeller(sellerId), outcome, now);
    }

    method AddProduct(sellerId: Json, name: string, description: string, price: real, stock: nat, outcome: Outcome, now: Timestamp)
      returns (r: Result<Json, Raised>)
      modifies this
      ensures sent == old(sent) + [PostProduct(sellerId, name, description, price, stock)]
      ensures Performed(r, Ctx()) == Perform(old(Ctx()), PostProduct(sellerId, name, description, price, stock), outcome, now)
      ensures context == old(context) && pending == old(pending) && conversation == old(conversation)
    {
      r := Send(PostProduct(sellerId, name, description, price, stock), outcome, now);
    }

    method UpdateProductStock(sellerId: Json, productId: Json, newStock: nat, outcome: Outcome, now: Timestamp)
      returns (r: Result<Json, Raised>)
      modifies this
      ensures sent == old(sent) + [PatchStock(sellerId, productId, newStock)]
      ensures Performed(r, Ctx()) == Perform(old(Ctx()), PatchStock(sellerId, productId, newStock), outcome, now)
      ensures context == old(context) && pending == old(pending) && conversation == old(conversation)
    {
      r := Send(PatchStock(sellerId, productId, newStock), outcome, now);
    }

    method GetLowStockProducts(sellerId: Json, outcome: Outcome, now: Timestamp) returns (r: Result<Json, Raised>)
      modifies this
      ensures sent == old(sent) + [FetchLowStock(sellerId)]
      ensures Performed(r, Ctx()) == Perform(old(Ctx()), FetchLowStock(sellerId), outcome, now)
      ensures context == old(context) && pending == old(pending) && conversation == old(conversation)
    {
      r := Send(FetchLowStock(sellerId), outcome, now);
    }

    /** `_natural_language_query`: the pending operation is the only state it touches. */
    method NaturalLanguageQuery(query: string) returns (r: Extracted)
      modifies this`pending
      ensures Extraction(r, pending) == Extract(old(pending), query)
    {
      var x := Extract(pending, query);
      pending := x.pending;
      r := x.result;
    }

    /** `_execute_intent`: the guards, then at most one request through the API methods. */
    method ExecuteIntent(intent: Intent, params: Params, outcome: Outcome, now: Timestamp) returns (r: Result<Json, Raised>)
      modifies this
      ensures |old(sent)| <= |sent| && sent[..|old(sent)|] == old(sent)
      ensures Executed(r, Ctx(), sent[|old(sent)|..]) == Execute(old(Ctx()), intent, params, outcome, now)
      ensures context == old(context) && pending == old(pending) && conversation == old(conversation)
    {
      match ExecutePlan(intent, params, currentSeller, currentProduct)
      case Err(e) =>
        r := Err(e);
        assert sent[|old(sent)|..] == [];
      case Ok(call) =>
        r := Send(call, outcome, now);
        assert sent[|old(sent)|..] == [call];
    }

    /** `process_natural_language`: one conversation turn, with at most one request. */
    method ProcessNaturalLanguage(text: string, outcome: Outcome, now: Timestamp) returns (reply: Reply)
      modifies this
      ensures context == old(context) && pending == old(pending)
      ensures Turn(old(conversation), text).Say? ==>
                && reply == Said(Turn(old(conversation), text).message)
                && conversation == Turn(old(conversation), text).next
                && sent == old(sent) && Ctx() == old(Ctx())
      ensures Turn(old(conversation), text).CreateSellerThenIdle? ==>
                var call := PostSeller(Turn(old(conversation), text).name, Turn(old(conversation), text).email);
                var p := Perform(old(Ctx()), call, outcome, now);
                && conversation == Idle
                && sent == old(sent) + [call]
                && Ctx() == p.after
                && reply == SellerReply(p.result)
    {
      var step := Turn(conversation, text);
      match step
      case Say(next, message) =>
        conversation := next;
        reply := Said(message);
      case CreateSellerThenIdle(name, email) =>
        var r := CreateSeller(name, email, outcome, now);
        conversation := Idle;
        reply := SellerReply(r);
    }
  }
}
