# Seller and product assistant: dialogue engine and table services

This project models two parts of a small seller/product inventory system in
Dafny and proves properties about them.

* **The rule-based dialogue engine of the Python client** (`mcp_client.py`):
  * the conversation-state machine of `process_natural_language`, which
    collects name then email for a new seller, and name, price, stock for a
    new product;
  * the keyword-and-pattern intent extractor `_natural_language_query`,
    including its pending-slot branch;
  * the slot validator `_ask_for_missing_details`;
  * the guard-checking executor `_execute_intent`;
  * the API methods' context and history effects;
  * the status-to-error mapping `_handle_response`.
* **The server's table logic** (`SellerService.java`, `ProductService.java`)
  over two DynamoDB tables, modelled as maps:
  * sellers are keyed by `id`;
  * products are keyed by the pair (`id`, `sellerId`).

## Modules

| file | module | what it holds |
|---|---|---|
| `wrappers.dfy` | `Wrappers` | `Option`, `Result` |
| `json.dfy` | `Json` | decoded JSON values, Python truthiness, `value[key]` with its `KeyError`/`TypeError` |
| `text.dfy` | `Text` | `str.lower()` (ASCII), `str.strip()` (Python's whitespace set), substring search |
| `patterns.dfy` | `Patterns` | the fixed regular expressions of the client as explicit matchers (see below) |
| `numbers.dfy` | `Numbers` | `int()` of a digit run, and `float()` of `\d+\.?\d*` as an exact rational |
| `http.dfy` | `Http` | an HTTP outcome, `MCPError`, `_handle_response` |
| `intents.dfy` | `Intents` | the extractor, the pending-slot branch and the validator |
| `executor.dfy` | `Executor` | history entries, the executor's guards, the API calls' effect on the context |
| `conversation.dfy` | `Conversation` | the conversation-state machine |
| `client.dfy` | `Client` | `class MCPClient`: the mutable client whose methods are tied to the functions above |
| `sellers.dfy` | `Sellers` | `class SellerService` over the seller map |
| `products.dfy` | `Products` | `class ProductService` over the product map, guarded by a `SellerService` |

### Patterns

The regexes live in `Patterns`:

* A pattern is a lead-in (words separated by `\s+`, optionally wrapped in
  `(?: ... )?`) followed by one capture group:
  * `[^,\.]+` is `Clause`;
  * `.+` is `Line`;
  * `\d+` is `Digits`;
  * `\d+\.?\d*` is `Numeral`.
* There is one more pattern: the e-mail regex.
* `Search` implements `re.search`. It tries every start position from the
  left. At each one, greedy quantifiers backtrack in the order Python's engine
  uses:
  * the lead-in is matched first;
  * an optional lead-in that cannot be completed is skipped;
  * a digit or dot run under `\s+` gives characters back one at a time.
* The e-mail domain `[a-zA-Z0-9.-]+\.[a-zA-Z]{2,}` backtracks to the last dot
  that is followed by two letters.

### The remote API

The remote API is an oracle:

* each API method takes the `Outcome` of its request as a parameter: a
  transport failure, or a status code with an error text and a body that
  either parsed as JSON or did not;
* the client records every request in a `sent` log, so "exactly one call" and
  "no call" can be stated.

Other inputs:

* Timestamps (`datetime.now()`, `Instant.now()`) are parameters.
* Fresh ids (`UUID.randomUUID()`) are parameters.
* A saved session is given to the client's constructor as an `Option<Session>`.

### Where the model follows the code rather than its description

* `raise_for_status` raises only for 400 <= status < 600. A 1xx or 3xx status
  with a JSON body is therefore returned as data, not raised as an
  "API Error".
* A request that gets no response at all (a refused connection, a timeout)
  raises in `requests` before `_handle_response` runs. That exception is not
  an `MCPError`: it escapes from every API method and from `_execute_intent`
  with the selection and the history untouched (`Executor.Raised.Transport`).
* A response body that is not JSON is a `RequestException` in current
  `requests`, so `_handle_response` turns it into "Connection Error: ..."
  with no status code. The "Invalid response format" clause is unreachable.
* `get_seller` and `get_low_stock_products` log after they have stored the
  selection and the history entry. The log line itself raises when the body
  is not a dict (`seller_data.get`) or has no length (`len(products_data)`),
  so such a call both records its response and raises
  (`Executor.LogRaisesAfterUpdate`).
* For an error status, the `message` entry is used only when the body is a
  JSON object. For any other JSON value, `.get` fails inside the bare
  `except`, and "API Error: ..." is kept.
* `_execute_intent` on `update_stock` fails with "Please select the product
  first" whenever there is no current product, even when a product name was
  given. `_ask_for_missing_details` accepts such a request as complete.
  `Executor.ValidatorAndExecutor` states this disagreement.

## Model

| member | source | states |
|---|---|---|
| `Json.Index` | mcp_client.py:363 | `value[key]` yields the entry exactly when the value is a dict holding the key; otherwise it is a `KeyError` for a dict and a `TypeError` for any other value |
| `Json.GetOr` | mcp_client.py:109 | `dict.get(key, default)` yields the entry when present and the default otherwise |
| `Text.LowerChar` | mcp_client.py:120 | an upper-case ASCII letter moves down by 32, every other character is kept, and no upper-case letter remains |
| `Text.Lower` | mcp_client.py:120 | lowercasing keeps the length and maps each character on its own |
| `Text.TrimStart` | mcp_client.py:120 | the result is a suffix; everything dropped is whitespace and the result does not start with whitespace |
| `Text.TrimEnd` | mcp_client.py:120 | the result is a prefix; everything dropped is whitespace and the result does not end with whitespace |
| `Text.Strip` | mcp_client.py:120 | the stripped text is no longer than the input and neither starts nor ends with whitespace |
| `Text.Normalize` | mcp_client.py:120 | the normal form is no longer than the query and neither starts nor ends with whitespace |
| `Text.Contains` | mcp_client.py:123 | the substring test `w in s` holds exactly when `w` occurs at some position of `s` |
| `Text.ShiftHasAt` | mcp_client.py:123 | an occurrence in the tail of a string is an occurrence one position later in the whole string |
| `Text.NormalizeShape` | mcp_client.py:120 | a normalized query has no upper-case letter and no leading or trailing whitespace |
| `Text.SliceIsLower` | mcp_client.py:124 | any slice of a lowercase string is lowercase |
| `Text.NormalizeIdempotent` | mcp_client.py:264 | lowercasing and stripping twice is the same as once |
| `Text.LowerOfLower` | mcp_client.py:264 | lowercasing a lowercase string leaves it unchanged |
| `Text.StripOfStripped` | mcp_client.py:264 | stripping a string without outer whitespace leaves it unchanged |
| `Patterns.Span` | mcp_client.py:124 | a greedy run of a character class ends at the first character outside it, or at the end |
| `Patterns.CaptureEnd` | mcp_client.py:124 | the greedy end of a capture holds a capture of the right shape; a clause stops only at ',' or '.' or the end; a digit run stops only at a non-digit or the end |
| `Patterns.CaptureAt` | mcp_client.py:164 | a capture found at `j` starts at `j` and is not empty |
| `Patterns.Backtrack` | mcp_client.py:323 | backtracking into the lead-in's last `\s+` yields a capture that starts after the lead-in's start and is the capture at its own start |
| `Patterns.WordsAt` | mcp_client.py:124 | a matched lead-in ends within the text |
| `Patterns.LeadAt` | mcp_client.py:124 | a lead-in match is a non-empty capture that starts at or after the attempt position |
| `Patterns.LastDot` | mcp_client.py:180 | the greedy domain backtracks to the last dot followed by two letters: the dot found is one, no later dot in range is one, and there is none when nothing is found |
| `Patterns.EmailAt` | mcp_client.py:180 | an e-mail match found at `i` starts at `i` and is not empty |
| `Patterns.MatchAt` | mcp_client.py:124 | a match attempted at `i` lies within the text; for a lead-in pattern it is the capture at its start |
| `Patterns.FirstFrom` | mcp_client.py:124 | the leftmost-attempt loop finds nothing exactly when no position matches, and otherwise returns the match at the first matching position |
| `Patterns.Search` | mcp_client.py:124 | a search result is a non-empty span of the text |
| `Patterns.SearchMeaning` | mcp_client.py:124 | `re.search` fails exactly when no start position matches, and otherwise gives the match of the leftmost matching position |
| `Patterns.SpanCovers` | mcp_client.py:124 | a greedy run reaches at least as far as any run of the class |
| `Patterns.SearchCapture` | mcp_client.py:124 | a lead-in search's match is the greedy capture at its start |
| `Patterns.GroupShape` | mcp_client.py:124 | `group(1)` has the shape of its capture kind |
| `Patterns.ClauseStopsAtPunctuation` | mcp_client.py:124-125 | a name or email capture contains no ',' and no '.', and is followed by one or by the end of the query |
| `Patterns.ClauseCapture` | mcp_client.py:136 | a `[^,\.]+` capture runs up to the first ',' or '.' or the end |
| `Patterns.CaptureAtDigit` | mcp_client.py:172 | a digit at `j` starts a digit capture there, and the bare pattern matches at `j` |
| `Patterns.NumberAnswer` | mcp_client.py:164-175 | a digit-run search succeeds only on a text holding a digit; with an optional or absent lead-in it succeeds on every such text |
| `Patterns.GroupIsLower` | mcp_client.py:120-125 | a group taken from a lowercase text is lowercase |
| `Patterns.EmailGroupShape` | mcp_client.py:180 | a matched e-mail has a non-empty local part, '@', a domain, a dot and two or more letters |
| `Patterns.EmailAtShape` | mcp_client.py:180 | the e-mail matched at a position has that shape |
| `Patterns.WordsAtDigitFree` | mcp_client.py:323 | a lead-in of words without digits spans no digit |
| `Patterns.LeadAtDigitFree` | mcp_client.py:323 | a lead-in match of such words precedes its capture and covers no digit |
| `Patterns.OptionalLeadIgnored` | mcp_client.py:323-338 | with an optional digit-free lead-in, `(?:the\s+price\s+is\s+)?(\d+\.?\d*)` finds the same match as the bare digit pattern |
| `Patterns.FirstDigit` | mcp_client.py:172 | the bare digit search matches at the first digit of the text |
| `Patterns.OptionalAt` | mcp_client.py:323 | any match of the optional-lead pattern is the capture at the first digit |
| `Patterns.FirstNumberGroup` | mcp_client.py:164-175 | with no lead-in, `group(1)` of a digit or numeral pattern is the greedy run starting at the first digit of the text |
| `Numbers.DigitValue` | mcp_client.py:144 | a digit's value is its distance from '0', at most 9 |
| `Numbers.DigitsValue` | mcp_client.py:144 | `int()` of a run of `n` digits is a natural number below ten to the `n` |
| `Numbers.DotIndex` | mcp_client.py:326 | the index of the first '.' in a numeral, or its length |
| `Numbers.NumeralValue` | mcp_client.py:326 | `float()` of `\d+\.?\d*` lies between the integer before the dot and the next integer: the digits after the dot make a fraction below one |
| `Numbers.Fraction` | mcp_client.py:326 | `n` over ten to the `k` is a proper fraction when `n` has at most `k` digits |
| `Numbers.NumeralOfWhole` | mcp_client.py:326 | `float()` (as at :166 and :326) of a numeral without a dot is the integer its digits spell |
| `Numbers.DigitsAppend` | mcp_client.py:144 | reading two digit runs one after the other is the first shifted left by the length of the second, plus the second |
| `Numbers.NumeralScaled` | mcp_client.py:326 | `float()` (as at :166 and :326) of `a.b` is the integer spelled by the digits of `a` then `b`, over ten to the number of digits of `b` (`12.5 == 125 / 10`) |
| `Numbers.DigitsOfDecimal` | mcp_client.py:144 | `int()` inverts writing a count in decimal: reading back the digits of `n` (as `str(n)` writes them, with `Decimal` as the reference) gives `n` |
| `Http.HandleResponse` | mcp_client.py:99-116 | for a received response: data exactly for a non-raising status with a JSON body, and then the body; a raising status gives its status code and the body's `message` or "API Error: ..."; an undecodable body with a non-raising status gives "Connection Error: ..." and no status code; details are always empty |
| `Http.ErrorMessage` | mcp_client.py:107-111 | the body's `message` entry when the body is a JSON object holding one, the fallback otherwise |
| `Http.ServerMessagePassedOn` | mcp_client.py:105-112 | an error status with a JSON object holding `message` raises exactly that message and that status |
| `Intents.FirstUnmetMeaning` | mcp_client.py:188-260 | the reference order: nothing unmet exactly when every requirement is met, else the first unmet requirement after only met ones |
| `Intents.ValidatorAsksFirstUnmet` | mcp_client.py:188-260 | the validator completes exactly when no requirement is unmet; it asks for the first unmet slot; a missing seller redirects to `select_seller` with empty params; otherwise it keeps intent and params |
| `Intents.CreateSellerOrder` | mcp_client.py:190-204 | for `create_seller` the validator asks name, then email |
| `Intents.AddProductOrder` | mcp_client.py:206-235 | for `add_product` the validator asks seller, name, price, then stock |
| `Intents.UpdateStockOrder` | mcp_client.py:237-258 | for `update_stock` the validator asks seller, then product, then the new stock |
| `Intents.AddProductUnmet` | mcp_client.py:206-235 | the first unmet `add_product` requirement is the seller, then the name, then the price, then the stock |
| `Intents.UpdateStockUnmet` | mcp_client.py:237-258 | the first unmet `update_stock` requirement is the seller, then a product (current or named), then the new stock |
| `Intents.UpdateStockAsks` | mcp_client.py:237-258 | the `update_stock` validator's answer, case by case |
| `Intents.Unfold` | mcp_client.py:188-260 | the first unmet requirement of a list is its head when the head is unmet, else the first unmet of the rest |
| `Intents.ValidatorRaisesOnlyNamingTheProduct` | mcp_client.py:249-256 | the validator raises only when it must name a current product that has no `name`; a named product is asked about by that name |
| `Intents.AskForMissingDetails` | mcp_client.py:188-260 | only `update_stock` can raise; a complete answer carries the intent and params unchanged; a question always names a slot and comes only for `create_seller`, `add_product` or `update_stock`; `select_seller` and an unknown intent are always complete |
| `Intents.KeywordPrecedence` | mcp_client.py:118-186 | keyword precedence create seller > add product > update stock > pending branch; a keyword leaves the pending operation alone; with no keyword and nothing pending the result is `unknown` with empty params |
| `Intents.Extract` | mcp_client.py:118-186 | a fresh intent leaves the pending operation as it was; a resumed one exists only when something was pending, and becomes the new pending operation |
| `Intents.ExtractIgnoresCaseAndSpace` | mcp_client.py:120 | the extractor gives the same answer for a query and its lowercased, stripped form |
| `Intents.PendingBranch` | mcp_client.py:160-186 | with no keyword, a pending price or stock slot is filled exactly when the query holds a digit, and an email slot exactly when an address matches; the slot receives the first numeral's value, the first digit run's value or the matched address; price advances to stock, stock and email to none; otherwise the result is `unknown` and the pending operation is untouched |
| `Intents.Resume` | mcp_client.py:160-186 | only a pending price, stock or email slot can be filled; the filled operation keeps its intent and question, and `waiting_for` moves from price to stock and otherwise to none |
| `Intents.ResumeAnswers` | mcp_client.py:162-184 | filling the waited-for slot stores the first number or address of the answer in that slot and changes only it and `waiting_for` |
| `Intents.ResumedNumberIsFirst` | mcp_client.py:162-175 | a resumed price or stock is the value of the greedy number starting at the answer's first digit |
| `Intents.ClauseGroup` | mcp_client.py:124 | a name, email or product capture holds no ',' and no '.' |
| `Intents.CapturesAreLowercase` | mcp_client.py:120-158 | freshly extracted names, emails and product names are lowercase and free of ',' and '.'; resuming keeps stored slots lowercase |
| `Intents.SellerParamsShape` | mcp_client.py:124-125 | the create-seller slots are lowercase clauses |
| `Intents.ProductParamsShape` | mcp_client.py:136-138 | the add-product slot name is a lowercase clause |
| `Intents.StockParamsShape` | mcp_client.py:150-151 | the update-stock product name is a lowercase clause |
| `Intents.ResumeKeepsLowercase` | mcp_client.py:160-184 | resuming from a lowercase query keeps every stored text slot lowercase |
| `Executor.EntryRoundTrip` | mcp_client.py:21-32 | loading back a saved history entry (`to_dict` then the session loader) gives the same entry |
| `Executor.Details` | mcp_client.py:408-516 | every recorded call's details hold the response body, under "status" for the health check (and nothing else) and under "response" for every other call |
| `Executor.LogFailure` | mcp_client.py:444-514 | the log line raises exactly for `get_seller` with a body that is not a dict (no attribute `get`) and for `get_low_stock_products` with null, a boolean or a number (no length) |
| `Executor.Perform` | mcp_client.py:408-518 | an API method fails with the transport's own exception when no response arrives, or with the `MCPError` when `_handle_response` raises, and then the context is unchanged; when a body is accepted, exactly one entry is appended and the seller or product is replaced by it for seller or product calls; the result is then the body, unless the log line raises |
| `Executor.Execute` | mcp_client.py:350-395 | at most one request; none exactly when a guard fails, and then the context is unchanged and the result is an error; otherwise the result and new context are those of the one API method called |
| `Executor.ExecutePlan` | mcp_client.py:350-395 | the guards raise only an `MCPError` or a lookup error, the latter only for `add_product` or `update_stock` with a seller selected; a request goes out only for a known intent, and each intent sends its own kind of request |
| `Executor.HistoryAppendOnly` | mcp_client.py:93-97 | history only grows, keeps its prefix, and grows by one exactly when a body is accepted, whether or not the log line then raises |
| `Executor.TransportFailureEscapes` | mcp_client.py:408-518 | a request without a response raises the transport's exception, not an `MCPError`, and leaves selection and history alone |
| `Executor.LogRaisesAfterUpdate` | mcp_client.py:441-518 | `get_seller` with a non-dict body stores it as the seller, appends one entry and raises; `get_low_stock_products` appends one entry and raises exactly for a body without a length |
| `Executor.SellerGuards` | mcp_client.py:352-355 | `create_seller` goes ahead exactly with a non-empty name and email, as that call; `select_seller` exactly with a seller id; an unknown intent raises |
| `Executor.AddProductGuards` | mcp_client.py:357-368 | `add_product` goes ahead exactly with a current seller holding an `id`, a name, a price and a stock; a lookup error only from a seller lacking `id` |
| `Executor.UpdateStockNeedsSelection` | mcp_client.py:370-388 | `update_stock` goes ahead only with a current seller and product and a new stock; without a current product it raises, product name or not |
| `Executor.ValidatorAndExecutor` | mcp_client.py:188-395 | what the validator deems complete, the executor accepts for `create_seller`; for `add_product` at most a lookup fails; for `update_stock` with only a product name it still raises "Please select the product first" |
| `Conversation.Start` | mcp_client.py:275-287 | a turn outside a dialogue only speaks, and any dialogue it starts has nothing collected |
| `Conversation.TurnDispatch` | mcp_client.py:262-287 | an ongoing dialogue goes to the continuation; otherwise "create"+"seller" starts a seller, then "add"+"product" a product, else the help message with the state unchanged |
| `Conversation.Turn` | mcp_client.py:262-287 | outside a dialogue a turn only speaks; the create-seller call comes only from an open seller dialogue |
| `Conversation.Continue` | mcp_client.py:289-346 | the create-seller call comes only on the seller dialogue's email turn, with the name collected before; a dialogue that goes on keeps its action; the product dialogue never calls the API |
| `Conversation.SellerDialogue` | mcp_client.py:294-313 | the seller dialogue takes the name (after an optional "the name is "), asks for the email, then makes one create-seller call with both |
| `Conversation.ProductSlotsInOrder` | mcp_client.py:315-346 | an add-product turn fills at most one slot, never overwrites one, and keeps name before price before stock |
| `Conversation.PriceAnswer` | mcp_client.py:321-332 | an answer without a digit re-prompts with nothing changed; otherwise the first numeral becomes the price and stock is asked next |
| `Conversation.PriceContinue` | mcp_client.py:321-332 | the same, for the continuation on a normalized answer |
| `Conversation.StockAnswer` | mcp_client.py:333-346 | a stock answer with a digit ends the dialogue with the success message and no call; one without re-prompts with nothing changed |
| `Conversation.OnlyTheEmailTurnCalls` | mcp_client.py:300-313 | the only turn that calls the API is the seller dialogue's email turn, with the name collected before |
| `Conversation.AnswerIsLower` | mcp_client.py:264 | an answer's captured text is lowercase |
| `Conversation.StoredTextIsLowercase` | mcp_client.py:264-313 | every name and email the dialogue stores or sends is lowercase |
| `Conversation.ContinueKeepsLowercase` | mcp_client.py:289-346 | the continuation keeps stored text lowercase given lowercase answers |
| `Client.MCPClient.constructor` | mcp_client.py:43-76 | a new client starts with no history, seller, product or context, unless a saved session supplies them; nothing is pending and no dialogue is open |
| `Client.MCPClient.AddToHistory` | mcp_client.py:93-97 | appends one entry with the given operation and details and changes nothing else |
| `Client.MCPClient.Send` | mcp_client.py:408-518 | one request is logged, and the result and new context are those of `Perform`; the pending operation and dialogue are untouched |
| `Client.MCPClient.GetHealth` | mcp_client.py:408-416 | one GET of the health endpoint; the result and new context are those of `Perform`, which records the body under "status" |
| `Client.MCPClient.CreateSeller` | mcp_client.py:418-439 | one POST of name and email; the result and new context are those of `Perform` |
| `Client.MCPClient.GetSeller` | mcp_client.py:441-454 | one GET of the seller; the result and new context are those of `Perform` |
| `Client.MCPClient.AddProduct` | mcp_client.py:456-480 | one POST of the product; the result and new context are those of `Perform` |
| `Client.MCPClient.UpdateProductStock` | mcp_client.py:482-504 | one PATCH of the stock; the result and new context are those of `Perform` |
| `Client.MCPClient.GetLowStockProducts` | mcp_client.py:506-518 | one GET of the low-stock list; the result and new context are those of `Perform` |
| `Client.MCPClient.NaturalLanguageQuery` | mcp_client.py:118-186 | the result and the new pending operation are those of the extractor |
| `Client.MCPClient.ExecuteIntent` | mcp_client.py:350-395 | the requests sent, the result and the new context are those of `Execute` |
| `Client.MCPClient.ProcessNaturalLanguage` | mcp_client.py:262-348 | a speaking turn changes only the dialogue state and sends nothing; the email turn sends one create-seller request, closes the dialogue, and reports the seller created or the error |
| `Client.SellerReply` | mcp_client.py:304-313 | the seller-created reply exactly when the call returned a body holding `id`, with that id; whatever the call raised becomes "Error creating seller: ..." |
| `Sellers.PutKeepsKeys` | src/main/java/dev/danvega/courses/service/SellerService.java:61 | storing a seller keeps every seller under its own id and changes no other id |
| `Sellers.DeactivateEffect` | src/main/java/dev/danvega/courses/service/SellerService.java:89-96 | deactivation keeps the ids, clears only `active` of that seller, changes nothing when it is absent, and applying it twice is applying it once |
| `Sellers.Deactivate` | src/main/java/dev/danvega/courses/service/SellerService.java:89-96 | deactivation keeps every seller under its own id and keeps the set of ids |
| `Sellers.SeedingOnlyWhenEmpty` | src/main/java/dev/danvega/courses/service/SellerService.java:130-153 | seeding leaves a non-empty table alone and fills an empty one with exactly the two active sample sellers |
| `Sellers.SellerService.constructor` | src/main/java/dev/danvega/courses/service/SellerService.java:122-128 | a new service has an empty seller table |
| `Sellers.SellerService.GetAllSellers` | src/main/java/dev/danvega/courses/service/SellerService.java:39-44 | exactly the stored sellers |
| `Sellers.SellerService.GetSeller` | src/main/java/dev/danvega/courses/service/SellerService.java:50-52 | the seller stored under `id`, or none when there is none |
| `Sellers.SellerService.AddSeller` | src/main/java/dev/danvega/courses/service/SellerService.java:58-63 | stores and returns the record with a fresh id and `active` set |
| `Sellers.SellerService.UpdateSeller` | src/main/java/dev/danvega/courses/service/SellerService.java:69-75 | stores the record under `id` with its id forced, replacing any old one, without an existence check |
| `Sellers.SellerService.DeleteSeller` | src/main/java/dev/danvega/courses/service/SellerService.java:81-83 | removes exactly `id` |
| `Sellers.SellerService.DeactivateSeller` | src/main/java/dev/danvega/courses/service/SellerService.java:89-96 | the table after deactivation; the deactivated seller is returned, none when absent |
| `Sellers.SellerService.CreateSeller` | src/main/java/dev/danvega/courses/service/SellerService.java:102-119 | stores a record with a fresh id and exactly the given fields |
| `Sellers.SellerService.Init` | src/main/java/dev/danvega/courses/service/SellerService.java:122-154 | the table after the empty-table seeding |
| `Products.CheckOwnership` | src/main/java/dev/danvega/courses/service/ProductService.java:161-165 | the ownership check fails only for a present product of another seller, with "Product does not belong to the seller" |
| `Products.TableUpdatesKeepKeys` | src/main/java/dev/danvega/courses/service/ProductService.java:61-64 | storing and deleting keep every product under its own (id, sellerId) and change no other key |
| `Products.SellerProductsExact` | src/main/java/dev/danvega/courses/service/ProductService.java:45-49 | a product is among a seller's products exactly when it is stored under its own key with that seller id |
| `Products.SellerProducts` | src/main/java/dev/danvega/courses/service/ProductService.java:45-49 | every listed product has the seller id, and every stored product with it is listed |
| `Products.LowStockWithinSeller` | src/main/java/dev/danvega/courses/service/ProductService.java:149-151 | the low-stock products are those of the seller's products with stock at or below the reorder point |
| `Products.LowStock` | src/main/java/dev/danvega/courses/service/ProductService.java:149-151 | the low-stock products are among the seller's products, each at or below its reorder point |
| `Products.StoredProductsPassOwnership` | src/main/java/dev/danvega/courses/service/ProductService.java:61-66 | with keys matching, the product read under (id, s) always passes the ownership check for `s` |
| `Products.AddedProductListed` | src/main/java/dev/danvega/courses/service/ProductService.java:79-85 | adding under a fresh id adds exactly that product to its seller's products and none to any other seller's |
| `Products.DeletedProductUnlisted` | src/main/java/dev/danvega/courses/service/ProductService.java:118-121 | deleting (id, s) removes exactly that product from `s`'s products |
| `Products.DeactivatedSellerRejected` | src/main/java/dev/danvega/courses/service/ProductService.java:154-159 | a seller deactivated in the seller table fails seller validation |
| `Products.ProductService.constructor` | src/main/java/dev/danvega/courses/service/ProductService.java:32-36 | a new service has an empty product table and the given seller service |
| `Products.ProductService.ValidateSeller` | src/main/java/dev/danvega/courses/service/ProductService.java:154-159 | passes exactly for a stored, active seller; fails with "Invalid or inactive seller" |
| `Products.ProductService.GetSellerProducts` | src/main/java/dev/danvega/courses/service/ProductService.java:42-50 | fails exactly for an invalid seller; otherwise exactly the stored products with that seller id |
| `Products.ProductService.GetProduct` | src/main/java/dev/danvega/courses/service/ProductService.java:56-68 | for a valid seller, the product under (id, sellerId), or none when absent |
| `Products.ProductService.CheckLowStock` | src/main/java/dev/danvega/courses/service/ProductService.java:146-152 | fails exactly for an invalid seller; otherwise the seller's products with stock at or below the reorder point |
| `Products.ProductService.AddProduct` | src/main/java/dev/danvega/courses/service/ProductService.java:74-87 | for a valid seller, stores the product stamped with a fresh id, the seller, `active` and `createdAt == updatedAt == now`; otherwise the table is unchanged |
| `Products.ProductService.UpdateProduct` | src/main/java/dev/danvega/courses/service/ProductService.java:93-106 | for a valid seller, stores the given record with id, seller and `updatedAt` forced, replacing any old one; otherwise the table is unchanged |
| `Products.ProductService.DeleteProduct` | src/main/java/dev/danvega/courses/service/ProductService.java:112-122 | for a valid seller, removes exactly (id, sellerId); otherwise the table is unchanged |
| `Products.ProductService.UpdateStock` | src/main/java/dev/danvega/courses/service/ProductService.java:128-140 | for a valid seller and a stored product, changes only its stock and `updatedAt`; a missing product is a null dereference; on failure the table is unchanged |

## Left out

- Case mapping and character classes are ASCII. `str.lower()` and `\d` on non-ASCII letters and digits are not modelled. `str.strip()` uses Python's full whitespace set.
- Numbers.DigitsValue: Python's limit on converting digit strings longer than 4300 characters (a `ValueError`) is not modelled.
- Prices are exact rationals, not IEEE doubles. The rounding of `float()` is not modelled.
- Session file I/O (`_load_session`, `_save_session`) is left out. Loading is all-or-nothing: a saved `Session` or none. A history entry's round trip through its dict is proved. The save after every history append is not modelled.
- Logging is left out.
- `get_conversation_history` and `get_current_context` are left out: they only copy the client's fields out.
- Params are a record holding every slot. The `KeyError` that `params["..."]` raises on a dict lacking a key therefore does not arise.
- `str()` rendering of non-string JSON in messages is left out. The product in "What is the new stock quantity for ...?" is kept as a JSON value (`NewStockFor`), as is the created seller's id (`SellerCreated`).
- Products.ProductService.GetSellerProducts: the scan order of DynamoDB is not modelled. The per-seller filter returns a set, not a list, so "a subsequence in scan order" is stated as "a subset".
- Products.ProductService.CheckLowStock: returns a set, not a list in scan order, for the same reason.
- Sellers.SellerService.GetAllSellers: returns the set of stored sellers, not a list in scan order, for the same reason.
- The returned pending operation is the same dict object as `pending_operation`. That aliasing is modelled as equal values.
- `llm_mcp_client.py`, the Spring controllers, `CoursesApplication.java`, the demo scripts and `main()` are not part of this model.
- `Product.java` and `Seller.java` are not part of this model; their field names and types are taken from the services' getters and setters.
- Sellers.SellerService.AddSeller: the caller's `Seller` object is mutated in place by `setId` and `setActive` (SellerService.java:59-60), so the caller sees the stored record through its own reference. The model returns a new record. A null seller argument (a `NullPointerException` at `setId`) is not modelled.
- Sellers.SellerService.UpdateSeller: the caller's `Seller` object is mutated in place by `setId` (SellerService.java:72). The model returns a new record. A null seller argument (a `NullPointerException`) is not modelled.
- Products.ProductService.UpdateProduct: the caller's `Product` object is mutated in place by `setId`, `setSellerId` and `setUpdatedAt` (ProductService.java:100-102). The model returns a new record. A null product argument (a `NullPointerException`) is not modelled.
- Products.ProductService.AddProduct: the caller's `Product` object is mutated in place by the setters (aliasing). The model returns a new record. A null product argument (a `NullPointerException` at the first setter) is not modelled.
- Fresh ids are parameters: the model does not assume that `UUID.randomUUID()` never repeats. Where freshness matters, a lemma demands it (`Products.AddedProductListed`).
- `createTable` in both services' `init` is left out.
- A request that gets no response is one transport-failure case, carrying the exception's text. The kinds of `requests` exception (timeout, refused connection, too many redirects) are not told apart.
