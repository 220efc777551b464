/**
 * The pending-operation side of the dialogue engine: the keyword and pattern
 * intent extractor `_natural_language_query` and the slot validator
 * `_ask_for_missing_details`.
 */
module Intents {
  import opened Wrappers
  import opened Text
  import opened Patterns
  import opened Numbers
  import opened Json

  datatype Intent = CreateSeller | AddProduct | UpdateStock | SelectSeller | Unknown

  /** The values `waiting_for` takes: the slot a question asks for. */
  datatype Slot = NameSlot | EmailSlot | PriceSlot | StockSlot | ProductNameSlot | NewStockSlot | SellerIdSlot

  /**
   * The `params` dict.  Every key any intent uses is a field; a key an intent
   * never sets is `None`, which is what every reader of a missing key sees
   * through `.get` or through the intent's own keys.
   */
  datatype Params = Params(
    name: Option<string>,
    email: Option<string>,
    price: Option<real>,
    stock: Option<nat>,
    productName: Option<string>,
    newStock: Option<nat>,
    sellerId: Option<string>)

  const NoParams: Params := Params(None, None, None, None, None, None, None)

  /** A string slot Python treats as true: set and not empty. */
  predicate Given(o: Option<string>) { o.Some? && o.value != "" }

  /**
   * The `question` of a pending operation.  `NewStockFor(v)` is
   * "What is the new stock quantity for {v}?" with `v` as `str()` renders it.
   */
  datatype Question = Asking(text: string) | NewStockFor(subject: Json)

  datatype PendingOperation = PendingOperation(intent: Intent, params: Params, waitingFor: Option<Slot>, question: Question)

  /** What `_natural_language_query` returns: a fresh `{intent, params}` dict or the pending operation itself. */
  datatype Extracted = Fresh(intent: Intent, params: Params) | Resumed(op: PendingOperation)

  /** The returned value together with `pending_operation` after the call. */
  datatype Extraction = Extraction(result: Extracted, pending: Option<PendingOperation>)

  // The patterns of the extractor, over the lowercased and stripped query.
  const NameIs: Pattern := Lead(["name", "is"], false, Clause)     // name\s+is\s+([^,\.]+)
  const EmailIs: Pattern := Lead(["email", "is"], false, Clause)   // email\s+is\s+([^,\.]+)
  const PriceIs: Pattern := Lead(["price", "is"], false, Numeral)  // price\s+is\s+(\d+\.?\d*)
  const StockIs: Pattern := Lead(["stock", "is"], false, Digits)   // stock\s+is\s+(\d+)
  const ProductWord: Pattern := Lead(["product"], false, Clause)   // product\s+([^,\.]+)
  const ToCount: Pattern := Lead(["to"], false, Digits)            // to\s+(\d+)
  const AnyNumeral: Pattern := Lead([], false, Numeral)             // (\d+\.?\d*)
  const AnyDigits: Pattern := Lead([], false, Digits)               // (\d+)

  /** `int(m.group(1)) if m else None`. */
  function CountOf(p: Pattern, q: string): Option<nat> {
    match Group(p, q)
    case None => None
    case Some(t) => Some(DigitsValue(t))
  }

  /** `float(m.group(1)) if m else None`. */
  function PriceOf(p: Pattern, q: string): Option<real> {
    match Group(p, q)
    case None => None
    case Some(t) => Some(NumeralValue(t))
  }

  predicate SellerKeyword(q: string) { Contains(q, "create seller") || Contains(q, "add seller") }
  predicate ProductKeyword(q: string) { Contains(q, "add product") || Contains(q, "create product") }
  predicate StockKeyword(q: string) { Contains(q, "update stock") || Contains(q, "change stock") }
  predicate AnyKeyword(q: string) { SellerKeyword(q) || ProductKeyword(q) || StockKeyword(q) }

  /** `_natural_language_query(query)` with `pending_operation` equal to `pending` beforehand. */
  function Extract(pending: Option<PendingOperation>, query: string): (r: Extraction)
    ensures r.result.Fresh? ==> r.pending == pending
    ensures r.result.Resumed? ==> pending.Some? && r.pending == Some(r.result.op)
  {
    Classify(pending, Normalize(query))
  }

  /** `Extract` on the normal form `q` of the query. */
  function Classify(pending: Option<PendingOperation>, q: string): (r: Extraction)
    ensures r.result.Fresh? ==> r.pending == pending
    ensures r.result.Resumed? ==> pending.Some? && r.pending == Some(r.result.op)
  {
    if SellerKeyword(q) then Extraction(Fresh(CreateSeller, SellerParams(q)), pending)
    else if ProductKeyword(q) then Extraction(Fresh(AddProduct, ProductParams(q)), pending)
    else if StockKeyword(q) then Extraction(Fresh(UpdateStock, StockParams(q)), pending)
    else FromPending(pending, q)
  }

  /** The slots of a create-seller query. */
  function SellerParams(q: string): Params {
    NoParams.(name := Group(NameIs, q), email := Group(EmailIs, q))
  }

  /** The slots of an add-product query. */
  function ProductParams(q: string): Params {
    NoParams.(name := Group(NameIs, q), price := PriceOf(PriceIs, q), stock := CountOf(StockIs, q))
  }

  /** The slots of an update-stock query. */
  function StockParams(q: string): Params {
    NoParams.(productName := Group(ProductWord, q), newStock := CountOf(ToCount, q))
  }

  /** A query with no keyword: resume the pending operation if the answer fits, else the unknown intent. */
  function FromPending(pending: Option<PendingOperation>, q: string): Extraction {
    match pending.Some? && Resume(pending.value, q).Some?
    case true => var op := Resume(pending.value, q).value; Extraction(Resumed(op), Some(op))
    case false => Extraction(Fresh(Unknown, NoParams), pending)
  }

  /** The pending operation with its `waiting_for` slot filled from `q`, or `None` when the answer does not fit. */
  function Resume(op: PendingOperation, q: string): (r: Option<PendingOperation>)
    ensures r.Some? ==> op.waitingFor in {Some(PriceSlot), Some(StockSlot), Some(EmailSlot)}
    ensures r.Some? ==> r.value.intent == op.intent && r.value.question == op.question
    ensures r.Some? ==> r.value.waitingFor == if op.waitingFor == Some(PriceSlot) then Some(StockSlot) else None
  {
    match op.waitingFor
    case Some(PriceSlot) =>
      if Group(AnyNumeral, q).None? then None
      else Some(op.(params := op.params.(price := PriceOf(AnyNumeral, q)), waitingFor := Some(StockSlot)))
    case Some(StockSlot) =>
      if Group(AnyDigits, q).None? then None
      else Some(op.(params := op.params.(stock := CountOf(AnyDigits, q)), waitingFor := None))
    case Some(EmailSlot) =>
      if Group(Email, q).None? then None
      else Some(op.(params := op.params.(email := Group(Email, q)), waitingFor := None))
    case _ => None
  }

  /** What `_ask_for_missing_details` returns: `(True, question)` or `(False, {intent, params})`. */
  datatype Ask = Missing(op: PendingOperation) | Complete(intent: Intent, params: Params)

  /**
   * `_ask_for_missing_details(intent, params)` with `current_seller` and
   * `current_product` as given.  The only exception it can raise is from
   * `current_product["name"]`, read to name the product in the new-stock question.
   */
  function AskForMissingDetails(intent: Intent, params: Params, seller: Json, product: Json): (r: Result<Ask, IndexError>)
    ensures r.Err? ==> intent == UpdateStock
    ensures r.Ok? && r.value.Complete? ==> r.value == Complete(intent, params)
    ensures r.Ok? && r.value.Missing? ==> r.value.op.waitingFor.Some? && intent in {CreateSeller, AddProduct, UpdateStock}
    ensures intent in {SelectSeller, Unknown} ==> r == Ok(Complete(intent, params))
  {
    match intent
    case CreateSeller =>
      if !Given(params.name) then Ok(Missing(PendingOperation(intent, params, Some(NameSlot), Asking("What is the seller's name?"))))
      else if !Given(params.email) then Ok(Missing(PendingOperation(intent, params, Some(EmailSlot), Asking("What is the seller's email address?"))))
      else Ok(Complete(intent, params))
    case AddProduct =>
      if !Truthy(seller) then
        Ok(Missing(PendingOperation(SelectSeller, NoParams, Some(SellerIdSlot),
          Asking("Which seller would you like to add a product for? Please provide the seller ID."))))
      else if !Given(params.name) then Ok(Missing(PendingOperation(intent, params, Some(NameSlot), Asking("What is the name of the product?"))))
      else if params.price.None? then
        Ok(Missing(PendingOperation(intent, params, Some(PriceSlot), Asking("What is the price for " + params.name.value + "?"))))
      else if params.stock.None? then
        Ok(Missing(PendingOperation(intent, params, Some(StockSlot), Asking("How many units of " + params.name.value + " are in stock?"))))
      else Ok(Complete(intent, params))
    case UpdateStock =>
      if !Truthy(seller) then
        Ok(Missing(PendingOperation(SelectSeller, NoParams, Some(SellerIdSlot),
          Asking("Which seller's product would you like to update? Please provide the seller ID."))))
      else if !Truthy(product) && !Given(params.productName) then
        Ok(Missing(PendingOperation(intent, params, Some(ProductNameSlot),
          Asking("Which product would you like to update? Please provide the product name."))))
      else if params.newStock.None? then
        if Given(params.productName) then
          Ok(Missing(PendingOperation(intent, params, Some(NewStockSlot), NewStockFor(JString(params.productName.value)))))
        else
          (match Index(product, "name")
           case Err(e) => Err(e)
           case Ok(v) => Ok(Missing(PendingOperation(intent, params, Some(NewStockSlot), NewStockFor(v)))))
      else Ok(Complete(intent, params))
    case _ => Ok(Complete(intent, params))
  }

  // ----- An independent statement of what each intent needs -----

  /** The requirements of each intent, in the order they are asked for. */
  function Requirements(intent: Intent): seq<Slot> {
    match intent
    case CreateSeller => [NameSlot, EmailSlot]
    case AddProduct => [SellerIdSlot, NameSlot, PriceSlot, StockSlot]
    case UpdateStock => [SellerIdSlot, ProductNameSlot, NewStockSlot]
    case _ => []
  }

  /** Whether a requirement is already met; the seller comes from the context, the product from either. */
  predicate Satisfied(slot: Slot, params: Params, seller: Json, product: Json) {
    match slot
    case NameSlot => Given(params.name)
    case EmailSlot => Given(params.email)
    case PriceSlot => params.price.Some?
    case StockSlot => params.stock.Some?
    case SellerIdSlot => Truthy(seller)
    case ProductNameSlot => Truthy(product) || Given(params.productName)
    case NewStockSlot => params.newStock.Some?
  }

  /** The first requirement in `slots` that is not met. */
  function FirstUnmet(slots: seq<Slot>, params: Params, seller: Json, product: Json): Option<Slot>
  {
    if slots == [] then None
    else if !Satisfied(slots[0], params, seller, product) then Some(slots[0])
    else FirstUnmet(slots[1..], params, seller, product)
  }

  /** `FirstUnmet` finds nothing exactly when all are met, and otherwise an unmet slot with every earlier one met. */
  lemma {:induction false} FirstUnmetMeaning(slots: seq<Slot>, params: Params, seller: Json, product: Json)
    ensures var r := FirstUnmet(slots, params, seller, product);
            && (r.None? <==> forall i :: 0 <= i < |slots| ==> Satisfied(slots[i], params, seller, product))
            && (r.Some? ==> exists i :: 0 <= i < |slots| && slots[i] == r.value && !Satisfied(slots[i], params, seller, product)
                              && forall j :: 0 <= j < i ==> Satisfied(slots[j], params, seller, product))
  {
    if slots != [] && Satisfied(slots[0], params, seller, product) {
      var rest := slots[1..];
      FirstUnmetMeaning(rest, params, seller, product);
      assert forall i :: 1 <= i < |slots| ==> slots[i] == rest[i - 1];
      var r := FirstUnmet(rest, params, seller, product);
      if r.Some? {
        var i :| 0 <= i < |rest| && rest[i] == r.value && !Satisfied(rest[i], params, seller, product)
                 && forall j :: 0 <= j < i ==> Satisfied(rest[j], params, seller, product);
        assert slots[i + 1] == r.value && forall j :: 0 <= j < i + 1 ==> Satisfied(slots[j], params, seller, product);
      }
    }
  }

  /**
   * The validator asks for exactly the first unmet requirement, and reports
   * completion exactly when every requirement is met.  A missing seller turns
   * the operation into a `select_seller` with empty params, whatever else is
   * missing; any other question keeps the intent and the params as they were.
   */
  lemma ValidatorAsksFirstUnmet(intent: Intent, params: Params, seller: Json, product: Json)
    ensures AsksFirstUnmet(intent, params, seller, product)
  {
    match intent
    case AddProduct => AddProductOrder(params, seller, product);
    case UpdateStock => UpdateStockOrder(params, seller, product);
    case CreateSeller => CreateSellerOrder(params, seller, product);
    case _ =>
  }

  /** The four clauses of `ValidatorAsksFirstUnmet`. */
  predicate AsksFirstUnmet(intent: Intent, params: Params, seller: Json, product: Json) {
    var u := FirstUnmet(Requirements(intent), params, seller, product);
    var r := AskForMissingDetails(intent, params, seller, product);
    && (u.None? <==> r == Ok(Complete(intent, params)))
    && (r.Ok? && r.value.Missing? ==> r.value.op.waitingFor == u)
    && (u == Some(SellerIdSlot) ==> r.Ok? && r.value.op.intent == SelectSeller && r.value.op.params == NoParams)
    && (r.Ok? && r.value.Missing? && u != Some(SellerIdSlot) ==> r.value.op.intent == intent && r.value.op.params == params)
  }

  lemma CreateSellerOrder(params: Params, seller: Json, product: Json)
    ensures AsksFirstUnmet(CreateSeller, params, seller, product)
  {
    assert Requirements(CreateSeller) == [NameSlot] + ([EmailSlot] + []);
    Unfold(NameSlot, [EmailSlot], params, seller, product);
    Unfold(EmailSlot, [], params, seller, product);
  }

  lemma AddProductOrder(params: Params, seller: Json, product: Json)
    ensures AsksFirstUnmet(AddProduct, params, seller, product)
  {
    AddProductUnmet(params, seller, product);
    var r := AskForMissingDetails(AddProduct, params, seller, product);
    if !Truthy(seller) {
      assert r.value.op.waitingFor == Some(SellerIdSlot);
    } else if !Given(params.name) {
      assert r.value.op.waitingFor == Some(NameSlot);
    } else if params.price.None? {
      assert r.value.op.waitingFor == Some(PriceSlot);
    } else if params.stock.None? {
      assert r.value.op.waitingFor == Some(StockSlot);
    } else {
      assert r == Ok(Complete(AddProduct, params));
    }
  }

  /** The first unmet add-product requirement, case by case. */
  lemma AddProductUnmet(params: Params, seller: Json, product: Json)
    ensures FirstUnmet(Requirements(AddProduct), params, seller, product)
         == if !Truthy(seller) then Some(SellerIdSlot)
            else if !Given(params.name) then Some(NameSlot)
            else if params.price.None? then Some(PriceSlot)
            else if params.stock.None? then Some(StockSlot)
            else None
  {
    assert Requirements(AddProduct) == [SellerIdSlot] + ([NameSlot] + ([PriceSlot] + ([StockSlot] + [])));
    Unfold(SellerIdSlot, [NameSlot, PriceSlot, StockSlot], params, seller, product);
    Unfold(NameSlot, [PriceSlot, StockSlot], params, seller, product);
    Unfold(PriceSlot, [StockSlot], params, seller, product);
    Unfold(StockSlot, [], params, seller, product);
  }

  lemma UpdateStockOrder(params: Params, seller: Json, product: Json)
    ensures AsksFirstUnmet(UpdateStock, params, seller, product)
  {
    UpdateStockUnmet(params, seller, product);
    UpdateStockAsks(params, seller, product);
  }

  /** The first unmet update-stock requirement, case by case. */
  lemma UpdateStockUnmet(params: Params, seller: Json, product: Json)
    ensures FirstUnmet(Requirements(UpdateStock), params, seller, product)
         == if !Truthy(seller) then Some(SellerIdSlot)
            else if !Truthy(product) && !Given(params.productName) then Some(ProductNameSlot)
            else if params.newStock.None? then Some(NewStockSlot)
            else None
  {
    assert Requirements(UpdateStock) == [SellerIdSlot] + ([ProductNameSlot] + ([NewStockSlot] + []));
    Unfold(SellerIdSlot, [ProductNameSlot, NewStockSlot], params, seller, product);
    Unfold(ProductNameSlot, [NewStockSlot], params, seller, product);
    Unfold(NewStockSlot, [], params, seller, product);
  }

  /** The validator's update-stock answer, case by case. */
  lemma UpdateStockAsks(params: Params, seller: Json, product: Json)
    ensures var r := AskForMissingDetails(UpdateStock, params, seller, product);
            if !Truthy(seller) then
              r.Ok? && r.value.Missing? && r.value.op.intent == SelectSeller && r.value.op.params == NoParams
              && r.value.op.waitingFor == Some(SellerIdSlot)
            else if !Truthy(product) && !Given(params.productName) then
              r.Ok? && r.value.Missing? && r.value.op.intent == UpdateStock && r.value.op.params == params
              && r.value.op.waitingFor == Some(ProductNameSlot)
            else if params.newStock.None? then
              r.Ok? ==> r.value.Missing? && r.value.op.intent == UpdateStock && r.value.op.params == params
                        && r.value.op.waitingFor == Some(NewStockSlot)
            else
              r == Ok(Complete(UpdateStock, params))
  {
    var r := AskForMissingDetails(UpdateStock, params, seller, product);
    if !Truthy(seller) {
    } else if !Truthy(product) && !Given(params.productName) {
    } else if params.newStock.None? {
      if !Given(params.productName) {
        match Index(product, "name")
        case Err(e) => assert r == Err(e);
        case Ok(v) => assert r == Ok(Missing(PendingOperation(UpdateStock, params, Some(NewStockSlot), NewStockFor(v))));
      }
    } else {
      assert r == Ok(Complete(UpdateStock, params));
    }
  }

  /** One step of `FirstUnmet`. */
  lemma Unfold(slot: Slot, rest: seq<Slot>, params: Params, seller: Json, product: Json)
    ensures FirstUnmet([slot] + rest, params, seller, product)
         == if Satisfied(slot, params, seller, product) then FirstUnmet(rest, params, seller, product) else Some(slot)
  {
    assert ([slot] + rest)[1..] == rest;
  }

  /**
   * The validator raises only while naming the product for the new-stock
   * question from a `current_product` that has no "name" entry (or is not a
   * dict); a given `product_name` is used instead when there is one.
   */
  lemma ValidatorRaisesOnlyNamingTheProduct(intent: Intent, params: Params, seller: Json, product: Json)
    ensures AskForMissingDetails(intent, params, seller, product).Err? <==>
              && intent == UpdateStock && Truthy(seller) && Truthy(product) && params.newStock.None?
              && !Given(params.productName) && Index(product, "name").Err?
    ensures intent == UpdateStock && Truthy(seller) && params.newStock.None? && Given(params.productName) ==>
              AskForMissingDetails(intent, params, seller, product)
                == Ok(Missing(PendingOperation(intent, params, Some(NewStockSlot), NewStockFor(JString(params.productName.value)))))
  {
  }

  // ----- Properties of the extractor -----

  /**
   * Keyword precedence: create-seller before add-product before update-stock,
   * and the pending operation is consulted only when no keyword occurs.  A
   * keyword query never touches the pending operation.
   */
  lemma KeywordPrecedence(pending: Option<PendingOperation>, query: string)
    ensures var q := Normalize(query);
            var r := Extract(pending, query);
            && (SellerKeyword(q) ==> r.result.Fresh? && r.result.intent == CreateSeller)
            && (!SellerKeyword(q) && ProductKeyword(q) ==> r.result.Fresh? && r.result.intent == AddProduct)
            && (!SellerKeyword(q) && !ProductKeyword(q) && StockKeyword(q) ==> r.result.Fresh? && r.result.intent == UpdateStock)
            && (AnyKeyword(q) ==> r.pending == pending)
            && (r.result.Resumed? ==> !AnyKeyword(q) && pending.Some?)
            && (!AnyKeyword(q) && pending.None? ==> r == Extraction(Fresh(Unknown, NoParams), None))
  {
  }

  /** Case and surrounding space do not matter: a query reads like its lowercased, stripped form. */
  lemma ExtractIgnoresCaseAndSpace(pending: Option<PendingOperation>, query: string)
    ensures Extract(pending, Normalize(query)) == Extract(pending, query)
  {
    NormalizeIdempotent(query);
    SameNormalForm(pending, Normalize(query), query);
  }

  /** `Extract` looks at a query only through its normal form. */
  lemma SameNormalForm(pending: Option<PendingOperation>, a: string, b: string)
    requires Normalize(a) == Normalize(b)
    ensures Extract(pending, a) == Extract(pending, b)
  {
  }

  /**
   * The pending branch.  A price or stock answer resumes exactly when the
   * query holds a digit, an email answer exactly when it holds an address;
   * resuming fills only the awaited slot and advances `waiting_for` (price to
   * stock, stock and email to none).  Every other case yields the unknown
   * intent with empty params and leaves the pending operation as it was.
   */
  lemma PendingBranch(op: PendingOperation, query: string)
    requires !AnyKeyword(Normalize(query))
    ensures var q := Normalize(query);
            var r := Extract(Some(op), query);
            && (op.waitingFor == Some(PriceSlot) ==> (r.result.Resumed? <==> HasDigit(q)))
            && (op.waitingFor == Some(StockSlot) ==> (r.result.Resumed? <==> HasDigit(q)))
            && (op.waitingFor == Some(EmailSlot) ==> (r.result.Resumed? <==> Group(Email, q).Some?))
            && (op.waitingFor !in {Some(PriceSlot), Some(StockSlot), Some(EmailSlot)} ==> r.result.Fresh?)
            && (r.result.Fresh? ==> r == Extraction(Fresh(Unknown, NoParams), Some(op)))
            && (r.result.Resumed? ==> r.pending == Some(r.result.op))
            && (r.result.Resumed? && op.waitingFor == Some(PriceSlot) ==>
                  PriceOf(AnyNumeral, q).Some? &&
                  r.result.op == op.(params := op.params.(price := PriceOf(AnyNumeral, q)), waitingFor := Some(StockSlot)))
            && (r.result.Resumed? && op.waitingFor == Some(StockSlot) ==>
                  CountOf(AnyDigits, q).Some? &&
                  r.result.op == op.(params := op.params.(stock := CountOf(AnyDigits, q)), waitingFor := None))
            && (r.result.Resumed? && op.waitingFor == Some(EmailSlot) ==>
                  Group(Email, q).Some? &&
                  r.result.op == op.(params := op.params.(email := Group(Email, q)), waitingFor := None))
  {
    var q := Normalize(query);
    assert Extract(Some(op), query) == FromPending(Some(op), q);
    ResumeAnswers(op, q);
  }

  /** `Resume` in terms of what the answer holds. */
  lemma ResumeAnswers(op: PendingOperation, q: string)
    ensures var r := Resume(op, q);
            && (op.waitingFor == Some(PriceSlot) ==> (r.Some? <==> HasDigit(q)))
            && (op.waitingFor == Some(StockSlot) ==> (r.Some? <==> HasDigit(q)))
            && (op.waitingFor == Some(EmailSlot) ==> (r.Some? <==> Group(Email, q).Some?))
            && (op.waitingFor !in {Some(PriceSlot), Some(StockSlot), Some(EmailSlot)} ==> r.None?)
            && (r.Some? && op.waitingFor == Some(PriceSlot) ==>
                  PriceOf(AnyNumeral, q).Some? &&
                  r.value == op.(params := op.params.(price := PriceOf(AnyNumeral, q)), waitingFor := Some(StockSlot)))
            && (r.Some? && op.waitingFor == Some(StockSlot) ==>
                  CountOf(AnyDigits, q).Some? &&
                  r.value == op.(params := op.params.(stock := CountOf(AnyDigits, q)), waitingFor := None))
            && (r.Some? && op.waitingFor == Some(EmailSlot) ==>
                  Group(Email, q).Some? &&
                  r.value == op.(params := op.params.(email := Group(Email, q)), waitingFor := None))
  {
    match op.waitingFor
    case Some(PriceSlot) => NumberAnswer(AnyNumeral, q);
    case Some(StockSlot) => NumberAnswer(AnyDigits, q);
    case _ =>
  }

  /**
   * The value a resumed price or stock answer stores is that of the number
   * starting at the query's first digit `j`: the longest `\d+\.?\d*`, or
   * the longest `\d+`, read there.
   */
  lemma ResumedNumberIsFirst(op: PendingOperation, q: string, j: nat)
    requires j < |q| && IsDigit(q[j]) && All(q, 0, j, NotDigit)
    ensures op.waitingFor == Some(PriceSlot) ==>
              Resume(op, q) == Some(op.(params := op.params.(price := Some(NumeralValue(q[j..CaptureEnd(Numeral, q, j)]))),
                                        waitingFor := Some(StockSlot)))
    ensures op.waitingFor == Some(StockSlot) ==>
              Resume(op, q) == Some(op.(params := op.params.(stock := Some(DigitsValue(q[j..CaptureEnd(Digits, q, j)]))),
                                        waitingFor := None))
  {
    if op.waitingFor == Some(PriceSlot) {
      FirstNumberGroup(Numeral, q, j);
      ResumedPriceIs(op, q, q[j..CaptureEnd(Numeral, q, j)]);
    } else if op.waitingFor == Some(StockSlot) {
      FirstNumberGroup(Digits, q, j);
      ResumedStockIs(op, q, q[j..CaptureEnd(Digits, q, j)]);
    }
  }

  lemma ResumedPriceIs(op: PendingOperation, q: string, t: string)
    requires op.waitingFor == Some(PriceSlot) && Group(AnyNumeral, q) == Some(t)
    ensures Resume(op, q) == Some(op.(params := op.params.(price := Some(NumeralValue(t))), waitingFor := Some(StockSlot)))
  {
    assert PriceOf(AnyNumeral, q) == Some(NumeralValue(t));
  }

  lemma ResumedStockIs(op: PendingOperation, q: string, t: string)
    requires op.waitingFor == Some(StockSlot) && Group(AnyDigits, q) == Some(t)
    ensures Resume(op, q) == Some(op.(params := op.params.(stock := Some(DigitsValue(t))), waitingFor := None))
  {
    assert CountOf(AnyDigits, q) == Some(DigitsValue(t));
  }

  /** The text slots of `params` are lowercase. */
  predicate LowerSlots(p: Params) {
    && (p.name.Some? ==> IsLower(p.name.value))
    && (p.email.Some? ==> IsLower(p.email.value))
    && (p.productName.Some? ==> IsLower(p.productName.value))
  }

  /** `t` has no ',' and no '.'. */
  predicate Unpunctuated(t: string) { forall i :: 0 <= i < |t| ==> NotStop(t[i]) }

  /** A clause group holds no ',' or '.'. */
  lemma ClauseGroup(p: Pattern, s: string)
    requires p.Lead? && p.cap == Clause && Group(p, s).Some?
    ensures Unpunctuated(Group(p, s).value)
  {
    GroupShape(p, s);
  }

  /**
   * Names, emails and product names come out of the extractor lowercase, and
   * those the keyword patterns capture stop short of the first ',' or '.'
   * ("email is john.doe@x.com" yields "john").  Resuming only adds lowercase
   * text to a pending operation.
   */
  lemma CapturesAreLowercase(pending: Option<PendingOperation>, query: string)
    ensures var r := Extract(pending, query);
            && (r.result.Fresh? ==> ClauseSlots(r.result.params))
            && (r.result.Resumed? && LowerSlots(pending.value.params) ==> LowerSlots(r.result.op.params))
  {
    var q := Normalize(query);
    NormalizeShape(query);
    if SellerKeyword(q) {
      assert Extract(pending, query) == Extraction(Fresh(CreateSeller, SellerParams(q)), pending);
      SellerParamsShape(q);
    } else if ProductKeyword(q) {
      assert Extract(pending, query) == Extraction(Fresh(AddProduct, ProductParams(q)), pending);
      ProductParamsShape(q);
    } else if StockKeyword(q) {
      assert Extract(pending, query) == Extraction(Fresh(UpdateStock, StockParams(q)), pending);
      StockParamsShape(q);
    } else {
      assert Extract(pending, query) == FromPending(pending, q);
      if pending.Some? && Resume(pending.value, q).Some? && LowerSlots(pending.value.params) {
        ResumeKeepsLowercase(pending.value, q);
      }
    }
  }

  /** Text slots that are lowercase and stop short of punctuation. */
  predicate ClauseSlots(p: Params) {
    && LowerSlots(p)
    && (p.name.Some? ==> Unpunctuated(p.name.value))
    && (p.email.Some? ==> Unpunctuated(p.email.value))
    && (p.productName.Some? ==> Unpunctuated(p.productName.value))
  }

  lemma SellerParamsShape(q: string)
    requires IsLower(q)
    ensures ClauseSlots(SellerParams(q))
  {
    if Group(NameIs, q).Some? { GroupIsLower(NameIs, q); ClauseGroup(NameIs, q); }
    if Group(EmailIs, q).Some? { GroupIsLower(EmailIs, q); ClauseGroup(EmailIs, q); }
  }

  lemma ProductParamsShape(q: string)
    requires IsLower(q)
    ensures ClauseSlots(ProductParams(q))
  {
    if Group(NameIs, q).Some? { GroupIsLower(NameIs, q); ClauseGroup(NameIs, q); }
  }

  lemma StockParamsShape(q: string)
    requires IsLower(q)
    ensures ClauseSlots(StockParams(q))
  {
    if Group(ProductWord, q).Some? { GroupIsLower(ProductWord, q); ClauseGroup(ProductWord, q); }
  }

  lemma ResumeKeepsLowercase(op: PendingOperation, q: string)
    requires IsLower(q) && LowerSlots(op.params) && Resume(op, q).Some?
    ensures LowerSlots(Resume(op, q).value.params)
  {
    if op.waitingFor == Some(EmailSlot) { GroupIsLower(Email, q); }
  }
}
