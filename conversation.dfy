/**
 * The conversation-state side of the dialogue engine:
 * `process_natural_language` and `_handle_conversation_continuation`, a
 * small state machine that collects one slot per turn.
 */
module Conversation {
  import opened Wrappers
  import opened Text
  import opened Patterns
  import opened Numbers

  datatype Action = NewSeller | NewProduct

  /** `collected_info`: a slot is `None` while it is not a key of the dict. */
  datatype Collected = Collected(name: Option<string>, email: Option<string>, price: Option<real>, stock: Option<nat>)

  const NothingCollected: Collected := Collected(None, None, None, None)

  /** `conversation_state`: `Idle` is the empty dict, `InProgress` has `in_progress` set. */
  datatype State = Idle | InProgress(action: Action, collected: Collected)

  /**
   * What one turn does: answer and move to a state, or, on the second
   * create-seller answer, call `create_seller` and then go idle whatever
   * the call gives (the reply then depends on that call).
   */
  datatype Step = Say(next: State, message: string) | CreateSellerThenIdle(name: string, email: string)

  // The patterns of the continuation; each prefix is optional.
  const TheNameIs: Pattern := Lead(["the", "name", "is"], true, Line)      // (?:the\s+name\s+is\s+)?(.+)
  const TheEmailIs: Pattern := Lead(["the", "email", "is"], true, Line)    // (?:the\s+email\s+is\s+)?(.+)
  const ThePriceIs: Pattern := Lead(["the", "price", "is"], true, Numeral) // (?:the\s+price\s+is\s+)?(\d+\.?\d*)
  const TheStockIs: Pattern := Lead(["the", "stock", "is"], true, Digits)  // (?:the\s+stock\s+is\s+)?(\d+)

  const HelpMessage: string := "I can help you create a seller or add a product. What would you like to do?"
  const StartOver: string := "I'm not sure how to process that. Let's start over."
  const BadPrice: string := "Please provide a valid price (e.g., 49.99)"
  const BadStock: string := "Please provide a valid stock quantity (whole number)"
  const ProductDone: string := "Product added successfully! (Note: Seller ID needed in real implementation)"

  /** `m.group(1) if m else text`. */
  function AnswerText(p: Pattern, t: string): string {
    match Group(p, t)
    case None => t
    case Some(g) => g
  }

  /** `process_natural_language(text)` in state `state`. */
  function Turn(state: State, text: string): (step: Step)
    ensures state.Idle? ==> step.Say?
    ensures step.CreateSellerThenIdle? ==> state.InProgress? && state.action == NewSeller
  {
    var t := Normalize(text);
    match state
    case InProgress(action, collected) => Continue(action, collected, t)
    case Idle => Start(t)
  }

  /** The first turn of a conversation, on the lowercased, stripped text `t`. */
  function Start(t: string): (step: Step)
    ensures step.Say? && (step.next.Idle? || step.next.collected == NothingCollected)
  {
    if Contains(t, "create") && Contains(t, "seller") then
      Say(InProgress(NewSeller, NothingCollected), "I'll help you create a seller. What's the seller's name?")
    else if Contains(t, "add") && Contains(t, "product") then
      Say(InProgress(NewProduct, NothingCollected), "I'll help you add a product. What's the product name?")
    else Say(Idle, HelpMessage)
  }

  /** `_handle_conversation_continuation(t)` for the lowercased, stripped text `t`. */
  function Continue(action: Action, c: Collected, t: string): (step: Step)
    ensures step.CreateSellerThenIdle? ==> action == NewSeller && c.name.Some? && c.email.None? && step.name == c.name.value
    ensures step.Say? && step.next.InProgress? ==> step.next.action == action
    ensures action == NewProduct ==> step.Say?
  {
    match action
    case NewSeller =>
      if c.name.None? then
        Say(InProgress(action, c.(name := Some(AnswerText(TheNameIs, t)))), "Great! What's the seller's email address?")
      else if c.email.None? then CreateSellerThenIdle(c.name.value, AnswerText(TheEmailIs, t))
      else Say(InProgress(action, c), StartOver)
    case NewProduct =>
      if c.name.None? then
        Say(InProgress(action, c.(name := Some(AnswerText(TheNameIs, t)))), "What's the product price?")
      else if c.price.None? then
        (match Group(ThePriceIs, t)
         case Some(g) => Say(InProgress(action, c.(price := Some(NumeralValue(g)))), "How many units are in stock?")
         case None => Say(InProgress(action, c), BadPrice))
      else if c.stock.None? then
        (match Group(TheStockIs, t)
         case Some(_) => Say(Idle, ProductDone)
         case None => Say(InProgress(action, c), BadStock))
      else Say(InProgress(action, c), StartOver)
  }

  // ----- Properties -----

  /**
   * Dispatch: a conversation in progress always continues; otherwise
   * "create" with "seller" starts a seller, checked before "add" with
   * "product"; any other text gets the help text and changes nothing.
   */
  lemma TurnDispatch(state: State, text: string)
    ensures var t := Normalize(text);
            && (state.InProgress? ==> Turn(state, text) == Continue(state.action, state.collected, t))
            && (state.Idle? && Contains(t, "create") && Contains(t, "seller") ==>
                  Turn(state, text).Say? && Turn(state, text).next == InProgress(NewSeller, NothingCollected))
            && (state.Idle? && !(Contains(t, "create") && Contains(t, "seller")) && Contains(t, "add") && Contains(t, "product") ==>
                  Turn(state, text).Say? && Turn(state, text).next == InProgress(NewProduct, NothingCollected))
            && (state.Idle? && !(Contains(t, "create") && Contains(t, "seller")) && !(Contains(t, "add") && Contains(t, "product")) ==>
                  Turn(state, text) == Say(Idle, HelpMessage))
  {
  }

  /**
   * Creating a seller takes exactly three turns: the request, the name, the
   * email.  The second turn stores the name (the text after an optional
   * "the name is" prefix, else the whole text) and stays in progress; the
   * third turn makes the one `create_seller` call, with that name and the
   * email taken the same way.
   */
  lemma SellerDialogue(request: string, nameAnswer: string, emailAnswer: string)
    requires Contains(Normalize(request), "create") && Contains(Normalize(request), "seller")
    ensures var s1 := Turn(Idle, request).next;
            var name := AnswerText(TheNameIs, Normalize(nameAnswer));
            && s1 == InProgress(NewSeller, NothingCollected)
            && Turn(s1, nameAnswer) == Say(InProgress(NewSeller, NothingCollected.(name := Some(name))), "Great! What's the seller's email address?")
            && Turn(Turn(s1, nameAnswer).next, emailAnswer) == CreateSellerThenIdle(name, AnswerText(TheEmailIs, Normalize(emailAnswer)))
  {
  }

  /** The product slots are filled in order: a later slot is set only when every earlier one is. */
  predicate InOrder(c: Collected) {
    && c.email.None?
    && (c.price.Some? ==> c.name.Some?)
    && (c.stock.Some? ==> c.price.Some?)
  }

  /** How many slots of `c` are set. */
  function Filled(c: Collected): nat {
    (if c.name.Some? then 1 else 0) + (if c.email.Some? then 1 else 0) +
    (if c.price.Some? then 1 else 0) + (if c.stock.Some? then 1 else 0)
  }

  /**
   * An add-product turn fills at most one slot, always the first missing
   * one, never overwrites a slot already set, and keeps the slots in order.
   */
  lemma ProductSlotsInOrder(c: Collected, text: string)
    requires InOrder(c)
    ensures var step := Turn(InProgress(NewProduct, c), text);
            && step.Say?
            && (step.next.InProgress? ==>
                  var c' := step.next.collected;
                  && step.next.action == NewProduct && InOrder(c')
                  && (c.name.Some? ==> c'.name == c.name)
                  && (c.price.Some? ==> c'.price == c.price)
                  && Filled(c) <= Filled(c') <= Filled(c) + 1)
  {
    assert Turn(InProgress(NewProduct, c), text) == Continue(NewProduct, c, Normalize(text));
  }

  /**
   * A price answer moves on exactly when it holds a digit; the price is then
   * the first digit run with its optional fraction, with or without the
   * "the price is" prefix.  Otherwise the turn re-prompts and nothing changes.
   */
  lemma PriceAnswer(c: Collected, text: string)
    requires c.name.Some? && c.price.None?
    ensures var t := Normalize(text);
            var step := Turn(InProgress(NewProduct, c), text);
            && (!HasDigit(t) <==> step == Say(InProgress(NewProduct, c), BadPrice))
            && (HasDigit(t) ==> Group(Lead([], false, Numeral), t).Some? && step == Say(InProgress(NewProduct, c.(price := Some(NumeralValue(Group(Lead([], false, Numeral), t).value)))),
                                           "How many units are in stock?"))
  {
    var t := Normalize(text);
    assert Turn(InProgress(NewProduct, c), text) == Continue(NewProduct, c, t);
    PriceContinue(c, t);
  }

  lemma PriceContinue(c: Collected, t: string)
    requires c.name.Some? && c.price.None?
    ensures var step := Continue(NewProduct, c, t);
            && (!HasDigit(t) <==> step == Say(InProgress(NewProduct, c), BadPrice))
            && (HasDigit(t) ==> Group(Lead([], false, Numeral), t).Some? && step == Say(InProgress(NewProduct, c.(price := Some(NumeralValue(Group(Lead([], false, Numeral), t).value)))),
                                           "How many units are in stock?"))
  {
    NumberAnswer(ThePriceIs, t);
    OptionalLeadIgnored(["the", "price", "is"], Numeral, t);
    assert Group(ThePriceIs, t) == Group(Lead([], false, Numeral), t);
  }

  /**
   * A stock answer ends the conversation exactly when it holds a digit, and
   * even then makes no API call; otherwise it re-prompts and nothing changes.
   */
  lemma StockAnswer(c: Collected, text: string)
    requires c.name.Some? && c.price.Some? && c.stock.None?
    ensures var step := Turn(InProgress(NewProduct, c), text);
            && step.Say?
            && (HasDigit(Normalize(text)) <==> step == Say(Idle, ProductDone))
            && (!HasDigit(Normalize(text)) <==> step == Say(InProgress(NewProduct, c), BadStock))
  {
    assert Turn(InProgress(NewProduct, c), text) == Continue(NewProduct, c, Normalize(text));
    NumberAnswer(TheStockIs, Normalize(text));
  }

  /** An API call happens on one turn only: the email answer of a seller conversation. */
  lemma OnlyTheEmailTurnCalls(state: State, text: string)
    requires Turn(state, text).CreateSellerThenIdle?
    ensures state.InProgress? && state.action == NewSeller
    ensures state.collected.name.Some? && state.collected.email.None?
    ensures Turn(state, text).name == state.collected.name.value
  {
  }

  /** Every text slot collected so far is lowercase. */
  predicate LowerCollected(state: State) {
    state.InProgress? ==>
      && (state.collected.name.Some? ==> IsLower(state.collected.name.value))
      && (state.collected.email.Some? ==> IsLower(state.collected.email.value))
  }

  /** What an answer stores is lowercase, since the text was lowercased first. */
  lemma AnswerIsLower(p: Pattern, text: string)
    ensures IsLower(AnswerText(p, Normalize(text)))
  {
    var t := Normalize(text);
    NormalizeShape(text);
    if Group(p, t).Some? { GroupIsLower(p, t); }
  }

  /**
   * Names and emails reach the seller lowercase: every turn keeps the
   * collected text lowercase, and the create-seller call sends lowercase text.
   */
  lemma StoredTextIsLowercase(state: State, text: string)
    requires LowerCollected(state)
    ensures Turn(state, text).Say? ==> LowerCollected(Turn(state, text).next)
    ensures Turn(state, text).CreateSellerThenIdle? ==> IsLower(Turn(state, text).name) && IsLower(Turn(state, text).email)
  {
    AnswerIsLower(TheNameIs, text);
    AnswerIsLower(TheEmailIs, text);
    if state.InProgress? {
      ContinueKeepsLowercase(state.action, state.collected, Normalize(text));
    } else {
      assert Turn(state, text) == Start(Normalize(text));
    }
  }

  lemma ContinueKeepsLowercase(a: Action, c: Collected, t: string)
    requires LowerCollected(InProgress(a, c))
    requires IsLower(AnswerText(TheNameIs, t)) && IsLower(AnswerText(TheEmailIs, t))
    ensures Continue(a, c, t).Say? ==> LowerCollected(Continue(a, c, t).next)
    ensures Continue(a, c, t).CreateSellerThenIdle? ==> IsLower(Continue(a, c, t).name) && IsLower(Continue(a, c, t).email)
  {
  }
}
