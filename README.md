# Cvety.kz chat widget — a Dafny model

This project models the client-side logic of the Cvety.kz flower-shop chat widget (a React and
TypeScript single-page app) and proves properties of that model. It covers:

- the shared in-memory cache with lazy expiry, and the cache-or-fetch wrapper built on it;
- the shopping cart;
- the product catalogue and its filters;
- the semantic product search with its local fallback;
- the two diagnostic loggers;
- the conversation engine of the chat window. One turn has two halves: before the remote
  assistant is awaited and after. The engine also covers the quick actions, the keyword rule
  cascade and the order confirmation;
- the checkout form, the admin orders table, and the typewriter and streaming text hooks.

Time is always a parameter (a clock reading in milliseconds). So is every outcome of the network:
the remote chat reply, the search responses and the vectorisation response are inputs, given as
datatypes that list each way a request can settle.

Each of the other modules follows one source file, and `ChatInterface.tsx` is split in two:
`ChatRules` holds its pure keyword rules and texts, `Chat` its state. Each entity whose fields the source updates is a class whose
methods state the whole new state. Examples are `TtlCache.Cache`, `ShoppingCart.CartStore`,
`ChatLog.ChatLogger` and `Chat.ChatSession`. Pure logic is written as functions, with lemmas
relating them: the catalogue filters, the keyword cascade and the confirmation text.

Four helper modules support the rest:

- `Wrappers` defines `Option`.
- `PopularQueryFacts` proves facts about the catalogue's literal texts and the popular-products
  query, which the semantic search's lemmas use.
- `Seqs` defines `Array.prototype.filter` and `slice`, and the subsequence relation.
- `Text` defines `toLowerCase`, `trim`, `includes`, template-literal joining and decimal
  printing of integers.

The source's default time to live is 300 seconds (`TtlCache.DefaultTtlSeconds`). It is the default
argument of `Cache.Set` and of `CachedApi`.

`sendMessage` is split at its first `await`:

- `Chat.ChatSession.Submit` is the synchronous part. It shows the user message, serves a
  preloaded reply, or shows the typing placeholder and records the pending turn.
- `Chat.ChatSession.Complete` is the continuation. It settles the remote answer, builds the
  reply, swaps it for the placeholder and ends loading.

This split makes the intermediate state between the two halves visible.

Some behaviours of the source that the proofs make explicit:

- `getRecentLogs(0)` returns every entry.
- In dev mode, `getPopularProductsSemantic` returns `[]`. Its three-word query is not contained
  in any single field.
- The order rule is the only way a turn opens the checkout form.
- 'сколько стоит доставка' gets the price reply, not the delivery reply.
- Adding units of a product already in the cart keeps the old line's price.

## Model

| member | source | states |
|---|---|---|
| TtlCache.Cache.Set | src/hooks/useCache.ts:12-18 | the key now maps to the value stamped with `now` and a time to live of `ttlSeconds * 1000` ms; every other entry is kept |
| TtlCache.Cache.Get | src/hooks/useCache.ts:20-30 | answers the value iff the key is present and not expired; an expired entry for that key, and only it, is deleted |
| TtlCache.Cache.Has | src/hooks/useCache.ts:32-34 | true iff `get` would answer a value, and it evicts exactly as `get` does |
| TtlCache.Cache.Clear | src/hooks/useCache.ts:36-38 | the store is empty afterwards |
| TtlCache.Cache.Remove | src/hooks/useCache.ts:40-42 | the store loses that key and nothing else |
| TtlCache.GetAfterSet | src/hooks/useCache.ts:12-29 | a value set at `t` is served at `t'` iff `t' - t <= ttl * 1000` (expiry is strict) |
| TtlCache.SetKeepsOtherKeys | src/hooks/useCache.ts:12-18 | setting one key leaves the answer for every other key unchanged |
| TtlCache.ExpiredIsEvicted | src/hooks/useCache.ts:24-27 | an expired entry answers null and is removed, while every other key stays present or absent as before |
| TtlCache.EvictUnobservable | src/hooks/useCache.ts:20-30 | the lazy deletion is invisible: from then on every key answers exactly as before it |
| TtlCache.RemoveOnlyKey | src/hooks/useCache.ts:40-42 | after `remove(k)`, `k` answers null and every other key answers as before |
| TtlCache.ClearedAnswersNull | src/hooks/useCache.ts:36-38 | after `clear()` every key answers null at every time |
| TtlCache.ApiKey | src/hooks/useCache.ts:91 | the wrapper's key is the caller's key behind a four-character prefix, recoverable from it |
| TtlCache.CachedAnswer | src/hooks/useCache.ts:94-100 | a cached answer is given iff not forced and the value under the prefixed key is live and truthy |
| TtlCache.CachedApi.FetchData | src/hooks/useCache.ts:90-117 | a cached answer returns without calling the fetcher; otherwise a success is returned, shown and stored under the prefixed key, and a failure is rethrown with its message (or 'Unknown error') and leaves data and the cache unchanged; loading ends false after a fetch |
| ShoppingCart.SumAppend | src/hooks/useCart.ts:28-30 | a sum over two concatenated line lists is the sum of the two sums |
| ShoppingCart.SumUpdate | src/hooks/useCart.ts:28-30 | replacing one line changes a sum by the difference of that line's terms |
| ShoppingCart.SumPartition | src/hooks/useCart.ts:28-30 | the lines a filter keeps and the lines it drops sum to the whole |
| ShoppingCart.FindIndex | src/hooks/useCart.ts:34-36 | the first line with the id, or -1 exactly when no line has it |
| ShoppingCart.AddItemsShape | src/hooks/useCart.ts:38-50 | adding merges the quantity into the first line with the id, in place, or appends a new line at the end |
| ShoppingCart.TotalAfterAdd | src/hooks/useCart.ts:32-57 | adding raises the total by the receiving line's price times the quantity |
| ShoppingCart.TotalAfterMerge | src/hooks/useCart.ts:42-46 | merging into line `i` raises the total by that line's own price times the quantity |
| ShoppingCart.TotalAfterAppend | src/hooks/useCart.ts:49 | appending a line raises the total by that line's price times its quantity |
| ShoppingCart.ItemCountAfterAdd | src/hooks/useCart.ts:32-57 | adding raises the unit count by exactly the quantity, whether merged or appended |
| ShoppingCart.AddKeepsIdsUnique | src/hooks/useCart.ts:46-50 | adding keeps product ids unique among the lines |
| ShoppingCart.AddKeepsPositive | src/hooks/useCart.ts:32-57 | adding a positive quantity keeps every line at one unit or more |
| ShoppingCart.RemoveItemsSpec | src/hooks/useCart.ts:59-67 | removal keeps exactly the lines with another id, in their order |
| ShoppingCart.SumAfterRemove | src/hooks/useCart.ts:59-67 | with unique ids, removing lowers every sum by the removed line's term, or by nothing when the id is absent |
| ShoppingCart.RemoveKeepsIdsUnique | src/hooks/useCart.ts:59-67 | removal keeps product ids unique |
| ShoppingCart.SetQuantitySpec | src/hooks/useCart.ts:75-85 | setting a quantity keeps the number, order and products of the lines, changes only the quantity of lines with the id, and leaves the lines as they were when the id is absent |
| ShoppingCart.ItemCountAfterSet | src/hooks/useCart.ts:75-85 | with unique ids, the unit count changes by the new quantity minus the old one, or not at all for an absent id |
| ShoppingCart.SetQuantityKeepsPositive | src/hooks/useCart.ts:75-85 | setting a positive quantity keeps every line at one unit or more |
| ShoppingCart.CartStore.constructor | src/hooks/useCart.ts:7-20 | the cart is the saved one when there is one, else empty with total 0 (consistent) |
| ShoppingCart.CartStore.AddToCart | src/hooks/useCart.ts:32-57 | the lines become the merged-or-appended lines, the total is consistent, and it grows by the receiving line's price times the quantity |
| ShoppingCart.CartStore.RemoveFromCart | src/hooks/useCart.ts:59-67 | the lines lose those with the id, in order, and the total is consistent |
| ShoppingCart.CartStore.UpdateQuantity | src/hooks/useCart.ts:69-86 | a quantity of zero or less removes the lines with the id; otherwise only their quantities change; the total is consistent |
| ShoppingCart.CartStore.ClearCart | src/hooks/useCart.ts:88-90 | no lines and total 0 |
| ShoppingCart.CartStore.GetItemCount | src/hooks/useCart.ts:92-94 | 0 for an empty cart, and at least the number of lines when every line is positive |
| ShoppingCart.ItemCountAtLeastLines | src/hooks/useCart.ts:92-94 | with every line positive, the unit count is at least the number of lines |
| Catalogue.GetProductsByCategory | src/data/mockProducts.ts:88-90 | exactly the catalogue entries whose category equals the argument, in catalogue order |
| Catalogue.GetPopularProducts | src/data/mockProducts.ts:92-94 | exactly the entries marked popular, in catalogue order |
| Catalogue.SearchProducts | src/data/mockProducts.ts:96-103 | exactly the entries whose lower-cased name, description or category includes the lower-cased query, in catalogue order, untruncated |
| Catalogue.AllHaveDescriptions | src/data/mockProducts.ts:3-86 | every catalogue entry has a description |
| Catalogue.CatalogueIdsUnique | src/data/mockProducts.ts:3-86 | catalogue ids are pairwise distinct |
| Catalogue.SearchEmptyIsAll | src/data/mockProducts.ts:96-103 | searching for '' returns the whole catalogue |
| Catalogue.PopularAreOneAndFour | src/data/mockProducts.ts:92-94 | the popular products are entries 1 and 4, in that order |
| Catalogue.CategoryRoses | src/data/mockProducts.ts:88-90 | category 'Розы' gives entries 1, 2 and 3 |
| Catalogue.CategoryIsCaseSensitive | src/data/mockProducts.ts:88-90 | category 'розы' (lower case) gives nothing |
| Catalogue.SearchRoses | src/data/mockProducts.ts:96-103 | searching 'розы' gives entries 1, 2 and 3, and no other entry matches |
| SemanticSearch.GetApiConfig | src/utils/semanticSearch.ts:14-32 | dev mode iff the variable is exactly 'true'; both search URLs are a base (set value or default) followed by the endpoint |
| SemanticSearch.DefaultConfigRetries | src/utils/semanticSearch.ts:14-32 | with nothing set, dev mode is off and the two URLs differ, so a failing primary request is retried |
| SemanticSearch.FallbackIsCatalogueHead | src/utils/semanticSearch.ts:105-168 | the fallback's product list is the first six catalogue entries |
| SemanticSearch.FallbackTextSearch | src/utils/semanticSearch.ts:170-177 | a prefix of the matching fallback products, of length min(maxResults, matches), or for a negative maxResults all but its last -maxResults, each containing the whole lower-cased query in one field |
| SemanticSearch.FallbackResultsMatch | src/utils/semanticSearch.ts:170-177 | the fallback results keep catalogue order |
| SemanticSearch.ToResult | src/utils/semanticSearch.ts:83-94 | a remote result keeps every field, including similarity, except `isPopular`, which is dropped |
| SemanticSearch.SearchProductsSemantic | src/utils/semanticSearch.ts:35-101 | dev mode answers the fallback without a request; otherwise the primary URL is requested and retried once against the fallback URL on a non-ok response when the URLs differ; an accepted response is mapped in order and untruncated, and every failure answers the fallback (it never rejects) |
| SemanticSearch.GetPopularProductsSemantic | src/utils/semanticSearch.ts:215-225 | the popular search with 4 results; in dev mode it is empty with no request, and an unaccepted remote response gives [] too |
| SemanticSearch.PopularQueryMatchesNothing | src/utils/semanticSearch.ts:170-177 | the fallback search for 'популярные букеты розы' finds nothing |
| SemanticSearch.InitializeProductVectors | src/utils/semanticSearch.ts:181-212 | true without a request in dev mode; otherwise one request to the vectorise URL, the response's `success` on a readable ok response (undefined when missing) and false on any error |
| ChatLog.ChatLogger.Log | src/utils/logger.ts:22-41 | exactly one entry is appended, carrying the type, data, duration and the logger's session id; earlier entries are kept; the call then throws exactly when stringifying the data throws (a cycle), with the entry already kept |
| ChatLog.ChatLogger.GetStats | src/utils/logger.ts:88-110 | each counter is the number of entries of its type; the average is the rounded mean of the truthy durations (tie upward), 0 when there are none |
| ChatLog.RoundedMean | src/utils/logger.ts:99-107 | the integer nearest to sum/n, a tie going up |
| ChatLog.RoundedMeanUnique | src/utils/logger.ts:99-107 | that integer is the only one within half a unit of the mean |
| ChatLog.ChatLogger.ClearLogs | src/utils/logger.ts:113-118 | the log is empty |
| ChatLog.ChatLogger.GetRecentLogs | src/utils/logger.ts:121-123 | the last min(n, length) entries for n > 0; every entry for n = 0; the entries after the first -n for n < 0 |
| ChatLog.ChatLogger.SearchLogs | src/utils/logger.ts:126-136 | the entries whose serialised, lower-cased data includes the lower-cased query, in order; [] when some entry's data cannot be serialised |
| ChatLog.StatsAfterLog | src/utils/logger.ts:22-31 | logging raises the count of the entry's own type by one and leaves the other counts |
| ChatLog.UntimedKeepsAverage | src/utils/logger.ts:99-107 | an entry without a truthy duration (0 included) leaves the average unchanged |
| ChatLog.DurationsSnoc | src/utils/logger.ts:99-103 | logging extends the averaged durations by the new entry's duration exactly when it is truthy |
| ChatLog.FirstTimedIsAverage | src/utils/logger.ts:99-107 | the first timed entry's duration is the average |
| ChatLog.TypeCountsAddUp | src/utils/logger.ts:89-97 | the seven per-type counts add up to the number of entries |
| ChatLog.LoggerRegistry.constructor | src/utils/logger.ts:140 | `getLogger` answers null before any logger is created |
| ChatLog.LoggerRegistry.CreateLogger | src/utils/logger.ts:142-163 | a new, empty logger with the session id, which `getLogger` then answers |
| SimpleLog.SimpleLogger.Log | src/utils/simpleLogger.ts:10-19 | exactly one entry is appended with the type, data, duration and session id |
| SimpleLog.SimpleLogger.GetStats | src/utils/simpleLogger.ts:34-43 | five counters, each the number of entries of its type; the average is always 0 |
| SimpleLog.SimpleLogger.ClearLogs | src/utils/simpleLogger.ts:45-47 | the log is empty |
| SimpleLog.SimpleLogger.GetRecentLogs | src/utils/simpleLogger.ts:49-51 | `slice(-n)`: the last min(n, length) entries for n > 0 and all of them for n = 0 |
| SimpleLog.StatsAfterLog | src/utils/simpleLogger.ts:34-43 | an entry of an uncounted type leaves the statistics unchanged; a counted one raises its own counter by one |
| SimpleLog.SimpleLoggerRegistry.constructor | src/utils/simpleLogger.ts:54 | `getSimpleLogger` answers null before any logger is created |
| SimpleLog.SimpleLoggerRegistry.CreateSimpleLogger | src/utils/simpleLogger.ts:56-69 | a new, empty logger, which `getSimpleLogger` then answers |
| Text.Trim | src/components/ChatInterface.tsx:139 | the result is a slice of the input with only whitespace before and after it; empty exactly for an all-whitespace input, otherwise neither end is whitespace |
| Text.TrimLowerCommute | src/components/ChatInterface.tsx:144-149 | trimming and lower-casing commute, so the shown text lower-cased is the normalised message |
| Text.LowerIdempotent | src/components/ChatInterface.tsx:149 | lower-casing twice equals lower-casing once |
| Text.DecimalRoundTrip | src/components/ChatInterface.tsx:629 | the decimal digits printed for a number read back as that number |
| ChatRules.Classify | src/components/ChatInterface.tsx:370-584 | the chosen rule's keywords occur in the message and no earlier rule's keywords do |
| ChatRules.ClassifyIsFirstMatch | src/components/ChatInterface.tsx:370-584 | a rule is chosen iff it fires and no earlier rule fires |
| ChatRules.DeliveryPriceQuestionGetsPrice | src/components/ChatInterface.tsx:484-517 | 'сколько стоит доставка' gets the price rule, which comes before delivery |
| ChatRules.AiSearch | src/components/ChatInterface.tsx:295-334 | an assistant reply gets a product search only when the product test passes and a topic matches |
| ChatRules.UserTopicGetsProducts | src/components/ChatInterface.tsx:295-334 | a message naming roses, stock or bouquets always gets products on an assistant reply |
| ChatRules.ShowMeAloneGetsNoProducts | src/components/ChatInterface.tsx:295-334 | 'покажи' passes the product test but names no topic, so no products are attached |
| ChatRules.RosesOutrankInventory | src/components/ChatInterface.tsx:313-321 | a message naming roses and stock gets the roses search (6 results) |
| ChatRules.OrderNumberShape | src/components/ChatInterface.tsx:629 | 'CVT-' then, from 100000 ms on, exactly six digits whose value is the time modulo one million |
| ChatRules.PaymentInfoMentions | src/components/ChatInterface.tsx:632-637 | a Kaspi text carries the order number, the phone and the total in plain digits; both kinds carry the formatted total |
| ChatRules.ConfirmationMentions | src/components/ChatInterface.tsx:639-644 | the confirmation carries the order number, phone, delivery date and time, and the payment text |
| Chat.IdsDiffer | src/components/ChatInterface.tsx:142-199 | message ids whose suffixes end differently never coincide, whatever the clock readings |
| Chat.ResponseKey | src/components/ChatInterface.tsx:160 | a reply key is 'response_' followed by the message, and never looks like an answer key |
| Chat.ApiCacheKey | src/components/ChatInterface.tsx:214 | an answer key is 'api_' followed by the message, and never looks like a reply key |
| Chat.EvictKeepsShapes | src/hooks/useCache.ts:20-30 | a lazy deletion keeps every reply key holding a reply and every answer key a truthy answer |
| Chat.StoredKeepsShapes | src/components/ChatInterface.tsx:84 | storing a reply under a reply key or a truthy answer under an answer key keeps those shapes |
| Chat.LookupShape | src/components/ChatInterface.tsx:161-215 | what a reply key or an answer key answers has that key's shape |
| Chat.PreloadedRepliesServed | src/components/ChatInterface.tsx:77-85 | for 1800 s after mount, 'розы', 'букеты' and 'корзина' are answered with their preloaded replies |
| Chat.History | src/components/ChatInterface.tsx:226-229 | the request carries the last min(6, n) messages' roles and contents, in order |
| Chat.AcceptedAnswer | src/components/ChatInterface.tsx:264 | a remote answer is accepted iff `success` is set and `response` is present and truthy |
| Chat.Found | src/components/ChatInterface.tsx:310-334 | a reply has products iff it made a search request |
| Chat.ComposeReply | src/components/ChatInterface.tsx:285-584 | the reply of the rule cascade, the assistant reply with its product search, or the apology for a non-string answer |
| Chat.ChatSession.constructor | src/components/ChatInterface.tsx:31-38 | no messages, empty input, nothing loading, form closed, status unknown, no pending turn |
| Chat.ChatSession.Mount | src/components/ChatInterface.tsx:76-85 | the three common replies are stored for 1800 s, and the cache keeps its shapes |
| Chat.ChatSession.LoadPopular | src/components/ChatInterface.tsx:48-74 | the popular products are stored for 3600 s |
| Chat.ChatSession.SetInput | src/components/ChatInterface.tsx:32 | the input holds the typed text |
| Chat.ChatSession.Submit | src/components/ChatInterface.tsx:136-207 | blank input or a turn in progress changes nothing. Otherwise the trimmed message is shown and the input cleared. A live preloaded reply is appended at once, marked cached, with no placeholder and no loading. Any other message appends the placeholder, starts loading and records the pending turn with the cached answer, if any, and the history |
| Chat.ChatSession.ServePreloaded | src/components/ChatInterface.tsx:159-195 | a live preloaded reply for the message is appended; nothing is appended otherwise |
| Chat.ChatSession.AwaitRemote | src/components/ChatInterface.tsx:197-217 | the placeholder is appended, loading starts and the live cached answer is taken along |
| Chat.ChatSession.SettleAnswer | src/components/ChatInterface.tsx:209-282 | the cached answer if any, else the accepted remote one; a thrown request sets status offline, an accepted one sets it online and is stored for 600 s; anything else changes neither |
| Chat.ChatSession.Complete | src/components/ChatInterface.tsx:209-619 | the placeholder is removed, exactly one reply (assistant, rule or apology) is appended, the form opens iff the reply asks, loading ends, and status and cache follow the settled answer |
| Chat.ChatSession.ShowReply | src/components/ChatInterface.tsx:588-592 | the placeholder gives way to the reply, the form opens iff the reply asks, and loading ends |
| Chat.ChatSession.HandleQuickAction | src/components/ChatInterface.tsx:95-134 | 'show_products' appends the popular products, 'show_cart' the cart message, and 'checkout' opens the form; anything else changes nothing |
| Chat.ChatSession.HandleOrderSubmit | src/components/ChatInterface.tsx:622-656 | the confirmation with its order number and payment text is appended, the form closes and loading ends; the cart is read, never changed |
| Chat.UncachedTurnUsesCascadeIffRejected | src/components/ChatInterface.tsx:264-285 | without a cached answer, the rule cascade answers iff the remote answer is not accepted |
| Chat.OnlyOrderRuleOpensForm | src/components/ChatInterface.tsx:530-592 | a turn opens the form iff there is no answer and the order rule is chosen |
| Chat.CachedReplyKeepsFormClosed | src/components/ChatInterface.tsx:171-193 | a preloaded reply is marked cached and never opens the form |
| Chat.AiProductsOnlyWhenAsked | src/components/ChatInterface.tsx:295-334 | an assistant reply has products iff the product test passes and a topic matches |
| Chat.PlaceholderRemoved | src/components/ChatInterface.tsx:588 | after a turn no message carries the placeholder's id |
| Chat.PlaceholderReplaced | src/components/ChatInterface.tsx:588 | when no other message shares its id, the placeholder is dropped and every other message kept in order, the reply last |
| Chat.DeliveryPriceTurn | src/components/ChatInterface.tsx:484-516 | without an answer, 'сколько стоит доставка' gets the price reply and the price search's products |
| OrderFormState.InitialForm | src/components/OrderForm.tsx:17-24 | empty phone, address and comment, today's date, 14:00, Kaspi |
| OrderFormState.Apply | src/components/OrderForm.tsx:31-33 | the edited field takes the value and every other field is unchanged |
| OrderFormState.OrderFormModel.constructor | src/components/OrderForm.tsx:17-24 | the form starts as the initial form |
| OrderFormState.OrderFormModel.HandleInputChange | src/components/OrderForm.tsx:31-33 | the form becomes the edited form and its time stays one of the slots |
| OrderFormState.OrderFormModel.Submit | src/components/OrderForm.tsx:26-29 | the form is handed over iff it is valid and not loading, and then unchanged |
| OrderFormState.InitialFormBlocked | src/components/OrderForm.tsx:17-35 | the initial form cannot be submitted and shows the phone warning |
| OrderFormState.ValidityFromPhoneAndAddress | src/components/OrderForm.tsx:35 | editing any field other than phone and address leaves validity unchanged |
| OrderFormState.WhitespaceIsValid | src/components/OrderForm.tsx:35 | a blank phone and address make the form valid (no trimming) |
| OrderFormState.WarningBlocksSubmit | src/components/OrderForm.tsx:155-189 | while the phone warning shows, the submit button is disabled |
| OrderFormState.WarningCleared | src/components/OrderForm.tsx:155-167 | a non-empty phone or the cash option hides the warning |
| OrderFormState.SlotsShape | src/components/OrderForm.tsx:108-118 | five distinct slots, 10:00 to 18:00, including the initial 14:00 |
| OrdersTable.StatusLabel | src/components/OrdersTable.tsx:21-29 | the non-empty label of a known status, the raw status otherwise |
| OrdersTable.ShopStatusesShowRaw | src/components/OrdersTable.tsx:21-29 | 'pending', 'preparing' and 'delivering' have no label and show raw |
| OrdersTable.FilteredOrders | src/components/OrdersTable.tsx:64-68 | exactly the orders whose lower-cased number or name includes the lower-cased query, or whose phone includes it as typed, in order |
| OrdersTable.EmptyQueryKeepsAll | src/components/OrdersTable.tsx:64-68 | an empty query keeps every order |
| OrdersTable.PhoneFound | src/components/OrdersTable.tsx:64-68 | a query contained in an order's phone finds that order |
| OrdersTable.NotFoundIffNoMatch | src/components/OrdersTable.tsx:121-125 | the notice shows iff no loaded order matches |
| OrdersTable.OrdersView.FetchOrders | src/components/OrdersTable.tsx:49-62 | a successful payload replaces the orders (missing ones give []); anything else keeps them; loading ends |
| TypingText.TypingEffect.SetText | src/hooks/useTypingEffect.ts:8-13 | an empty text changes nothing; any other resets the display to '' and clears both flags |
| TypingText.TypingEffect.Tick | src/hooks/useTypingEffect.ts:19-27 | one more character of the text is shown, or at the end typing stops and the whole text is complete; the display is always a prefix |
| TypingText.TypingEffect.StartTyping | src/hooks/useTypingEffect.ts:15-33 | typing starts and the first character shows |
| TypingText.TypingEffect.TypeToEnd | src/hooks/useTypingEffect.ts:19-33 | the remaining ticks end with the whole text shown, complete and not typing |
| TypingText.StreamingText.StartStreaming | src/hooks/useTypingEffect.ts:44-47 | streaming with an empty text |
| TypingText.StreamingText.AppendText | src/hooks/useTypingEffect.ts:49-51 | the chunk is appended and the flag is untouched |
| TypingText.StreamingText.StopStreaming | src/hooks/useTypingEffect.ts:53-55 | only the flag clears |
| TypingText.StreamingText.ResetText | src/hooks/useTypingEffect.ts:57-60 | empty text, not streaming |

## Left out

- Rendering, scrolling, the text of console output, `sessionStorage`/`localStorage` writes, `exportLogs` and the timestamps formatted for display are not modelled; they change no state the model keeps. The one console step that can fail, stringifying the data in `log`, is kept as the throw that `ChatLog.ChatLogger.Log` reports.
- The fetch `AbortController`, the 10-second abort timer, the 2-second simulated order delay and the typing timers are not modelled; each settled request or fired timer is one method call with its outcome as a parameter.
- Each step of a turn reads the clock once, so the ids and the cache times within one step share a reading; `Date.now()` called several times in the source can differ by a few milliseconds.
- `toLocaleString('ru-RU')` is the parameter `formatTotal`; the date of the order form is the parameter `today`.
- `Text.Lower`: lower-cases ASCII, Cyrillic А-Я and Ё only; `toLowerCase` on other scripts is not modelled.
- Product `rating` and the search `similarity` are carried as values and never computed on; floating point is not modelled.
- `useCart()` and `useCachedAPI()` instances are modelled one at a time; their synchronisation through storage is not modelled.
- ShoppingCart.CartStore.constructor: a cart restored from storage keeps its total as stored, so the total invariant is only promised for a fresh cart.
- ShoppingCart.AddKeepsPositive: promised only for a positive quantity, because `addToCart` never checks its argument.
- ShoppingCart.SetQuantityKeepsPositive: promised only for a positive quantity; `updateQuantity` removes the line otherwise.
- TtlCache.Cache.Get: a stored `null` or `undefined` value, which `get` cannot tell from a missing one, is not modelled; values are generic.
- TtlCache.CachedApi.FetchData: the intermediate `loading = true` state before the fetcher settles is not observable in the model.
- Catalogue.SearchProducts: a product without a description is matched on its name and category; every catalogue entry has one.
- Chat.ChatSession.Complete: the `catch` branches around the semantic searches are not modelled because `searchProductsSemantic` never rejects.
- Chat.ChatSession.Complete: the reply's `cached` flag is always true for an assistant answer, because the answer's entry is re-read in the same step that stored or read it.
- Chat.ChatSession.Submit: the request body's history is recorded in the pending turn, but the request itself is an input.
- The calls to the logger inside the chat window are not modelled; the loggers are modelled on their own.
- OrdersTable.StatusLabel: keys inherited from `Object.prototype` (such as 'constructor') are not modelled.
- TypingText.TypingEffect.SetText: cleanup cancels only the start timer in the source; a stale tick chain after a text change is not modelled.
- OrderFormState.Apply: the time `select` and the payment radios are edits carrying a slot index and a payment method.
