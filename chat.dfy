/** The conversation engine of the chat window (`ChatInterface` in src/components/ChatInterface.tsx):
    the message list, the preloaded reply cache, one conversation turn split at its `await`, the
    quick actions and the order confirmation. The remote chat service and the semantic searches
    are inputs; the clock is a parameter (`now`, `at`: readings in milliseconds). */
module Chat {
  import opened Wrappers
  import opened Seqs
  import opened Text
  import opened Types
  import opened Catalogue
  import opened SemanticSearch
  import opened TtlCache
  import opened ChatRules
  import ShoppingCart

  // ---------------------------------------------------------------------------
  // Messages

  datatype Role = User | Assistant

  /** A chat message; absent optional flags are `false`. The display timestamp is left out. */
  datatype Message = Message(
    id: string,
    role: Role,
    content: string,
    products: Option<seq<Product>>,
    showCart: bool,
    showOrderForm: bool,
    typing: bool,
    cached: bool)

  /** `msg-${Date.now()}` followed by a suffix naming the kind of message. */
  function MessageId(now: nat, suffix: string): string {
    "msg-" + NatToDecimal(now) + suffix
  }

  /** Ids whose suffixes end differently never coincide, whatever the clock readings. */
  lemma IdsDiffer(t1: nat, s1: string, t2: nat, s2: string)
    requires s1 != [] && s2 != [] && s1[|s1| - 1] != s2[|s2| - 1]
    ensures MessageId(t1, s1) != MessageId(t2, s2)
  {
    var a, b := MessageId(t1, s1), MessageId(t2, s2);
    assert a[|a| - 1] == s1[|s1| - 1];
    assert b[|b| - 1] == s2[|s2| - 1];
  }

  function UserMessage(now: nat, text: string): Message {
    Message(MessageId(now, ""), User, text, None, false, false, false, false)
  }

  const TypingText := "Подбираю для вас лучшие варианты..."
  const Apology := "Извините, произошла ошибка. Попробуйте позже."

  /** The typing indicator shown while a turn waits for the remote service. */
  function Placeholder(now: nat): Message {
    Message(MessageId(now, "-typing"), Assistant, TypingText, None, false, false, true, false)
  }

  function ErrorReply(at: nat): Message {
    Message(MessageId(at, "-error"), Assistant, Apology, None, false, false, false, false)
  }

  /** `m.id !== id`, the test that removes the placeholder. */
  function OtherId(id: string): Message -> bool {
    (m: Message) => m.id != id
  }

  // ---------------------------------------------------------------------------
  // The shared cache

  /** What the shared cache holds for the chat: a preloaded reply (`response_…`), an accepted
      answer of the remote service (`api_…`) and the popular products. */
  datatype CacheValue =
    | CommonReply(response: string, products: Option<seq<Product>>, showCart: bool)
    | ApiReply(reply: ReplyValue)
    | ProductList(list: seq<Product>)

  /** The `response` field of the remote service's payload, when present and not `null`: a string,
      or some other JSON value. */
  datatype ReplyValue = Text(s: string) | NonText(truthy: bool)

  /** JavaScript truthiness of the payload's `response`. */
  predicate Truthy(v: ReplyValue) {
    if v.Text? then v.s != "" else v.truthy
  }

  const ResponsePrefix := "response_"
  const ApiPrefix := "api_"
  const PopularKey := "popular_products"

  /** The key of a preloaded reply. It never looks like an answer's key. */
  function ResponseKey(text: string): (k: string)
    ensures StartsWith(k, ResponsePrefix) && !StartsWith(k, ApiPrefix) && k[|ResponsePrefix|..] == text
  {
    var k := ResponsePrefix + text;
    assert k[0] == 'r';
    k
  }

  /** The key of a remote answer. It never looks like a preloaded reply's key. */
  function ApiCacheKey(text: string): (k: string)
    ensures StartsWith(k, ApiPrefix) && !StartsWith(k, ResponsePrefix) && k[|ApiPrefix|..] == text
  {
    var k := ApiPrefix + text;
    assert k[0] == 'a';
    k
  }

  /** Every preloaded-reply key holds a reply, and every answer key a truthy answer. */
  predicate CacheShapes(storage: map<string, Entry<CacheValue>>) {
    forall k | k in storage ::
      && (StartsWith(k, ResponsePrefix) ==> storage[k].data.CommonReply?)
      && (StartsWith(k, ApiPrefix) ==> storage[k].data.ApiReply? && Truthy(storage[k].data.reply))
  }

  /** Deleting an entry keeps the shapes. */
  lemma EvictKeepsShapes(storage: map<string, Entry<CacheValue>>, key: string, now: int)
    requires CacheShapes(storage)
    ensures CacheShapes(Evict(storage, key, now))
  {
  }

  /** Storing under a key that is neither a reply key nor an answer key keeps the shapes; so does
      storing a reply under a reply key, or a truthy answer under an answer key. */
  lemma StoredKeepsShapes(storage: map<string, Entry<CacheValue>>, key: string, v: CacheValue, now: int, ttl: int)
    requires CacheShapes(storage)
    requires StartsWith(key, ResponsePrefix) ==> v.CommonReply?
    requires StartsWith(key, ApiPrefix) ==> v.ApiReply? && Truthy(v.reply)
    ensures CacheShapes(Stored(storage, key, v, now, ttl))
  {
  }

  /** What a lookup under a reply key or an answer key finds has that key's shape. */
  lemma LookupShape(storage: map<string, Entry<CacheValue>>, text: string, now: int)
    requires CacheShapes(storage)
    ensures Lookup(storage, ResponseKey(text), now).Some? ==> Lookup(storage, ResponseKey(text), now).value.CommonReply?
    ensures var a := Lookup(storage, ApiCacheKey(text), now);
      a.Some? ==> a.value.ApiReply? && Truthy(a.value.reply)
  {
    var r, k := ResponseKey(text), ApiCacheKey(text);
    if r in storage {
      assert StartsWith(r, ResponsePrefix);
    }
    if k in storage {
      assert StartsWith(k, ApiPrefix);
    }
  }

  /** The replies preloaded on mount. */
  const RosesReply := CommonReply("🌹 Вот наши прекрасные розы:", Some(SearchProducts("розы")), false)
  const BouquetsReply := CommonReply("🌸 Показываю букеты по вашему запросу:", Some(MockProducts[..6]), false)
  const CartReply := CommonReply("🛒 Ваша корзина:", None, true)

  /** The store after the three replies are preloaded at `now`, for 1800 seconds each. */
  function Preloaded(storage: map<string, Entry<CacheValue>>, now: int): map<string, Entry<CacheValue>> {
    var s1 := Stored(storage, ResponseKey("розы"), RosesReply, now, 1800);
    var s2 := Stored(s1, ResponseKey("букеты"), BouquetsReply, now, 1800);
    Stored(s2, ResponseKey("корзина"), CartReply, now, 1800)
  }

  /** For 30 minutes after mount, the three preloaded queries are answered from the cache. */
  lemma PreloadedRepliesServed(storage: map<string, Entry<CacheValue>>, now: int, t: int)
    requires t - now <= 1800 * 1000
    ensures Lookup(Preloaded(storage, now), ResponseKey("розы"), t) == Some(RosesReply)
    ensures Lookup(Preloaded(storage, now), ResponseKey("букеты"), t) == Some(BouquetsReply)
    ensures Lookup(Preloaded(storage, now), ResponseKey("корзина"), t) == Some(CartReply)
  {
    var r, b, c := ResponseKey("розы"), ResponseKey("букеты"), ResponseKey("корзина");
    assert r[9] == 'р' && b[9] == 'б' && c[9] == 'к';
    var s1 := Stored(storage, r, RosesReply, now, 1800);
    var s2 := Stored(s1, b, BouquetsReply, now, 1800);
    GetAfterSet(s2, c, CartReply, now, 1800, t);
    SetKeepsOtherKeys(s2, c, CartReply, now, 1800, b, t);
    GetAfterSet(s1, b, BouquetsReply, now, 1800, t);
    SetKeepsOtherKeys(s2, c, CartReply, now, 1800, r, t);
    SetKeepsOtherKeys(s1, b, BouquetsReply, now, 1800, r, t);
    GetAfterSet(storage, r, RosesReply, now, 1800, t);
  }

  // ---------------------------------------------------------------------------
  // One conversation turn

  /** The user message as the turn sees it: trimmed and lower-cased. */
  function Normalise(input: string): string {
    Lower(Trim(input))
  }

  /** The reply a preloaded cache entry produces, marked as cached. */
  function CachedReply(at: nat, v: CacheValue): Message
    requires v.CommonReply?
  {
    Message(MessageId(at, "-ai"), Assistant, v.response, v.products, v.showCart, false, false, true)
  }

  /** One message of the conversation history sent to the remote service. */
  datatype HistoryEntry = HistoryEntry(role: Role, content: string)

  /** The last six messages before the user's, as the request carries them. */
  function History(messages: seq<Message>): (h: seq<HistoryEntry>)
    ensures |h| == Min(6, |messages|)
    ensures forall i :: 0 <= i < |h| ==>
      h[i] == HistoryEntry(messages[|messages| - |h| + i].role, messages[|messages| - |h| + i].content)
  {
    var last := SliceLast(messages, 6);
    seq(|last|, i requires 0 <= i < |last| => HistoryEntry(last[i].role, last[i].content))
  }

  /** A turn waiting at its `await`: the normalised text, its placeholder, the answer found in
      the cache (if any) and the history the request carries. */
  datatype PendingTurn = PendingTurn(text: string, placeholder: Message, cachedAnswer: Option<ReplyValue>,
                                     history: seq<HistoryEntry>)

  /** How the request to the remote chat service settles: `fetch` or `response.json()` rejects,
      or the payload arrives with its `success` flag and its `response` (`None` when missing or
      `null`). */
  datatype ChatOutcome = FetchThrew | Answered(success: bool, response: Option<ReplyValue>)

  /** The remote answer the turn accepts: `success` set and a truthy `response`. */
  function AcceptedAnswer(outcome: ChatOutcome): (r: Option<ReplyValue>)
    ensures r.Some? <==> outcome.Answered? && outcome.success && outcome.response.Some? && Truthy(outcome.response.value)
    ensures r.Some? ==> r == outcome.response
  {
    if outcome.Answered? && outcome.success && outcome.response.Some? && Truthy(outcome.response.value)
    then outcome.response else None
  }

  /** The answer the turn goes on with: the cached one, else the accepted remote one. */
  function TurnAnswer(turn: PendingTurn, outcome: ChatOutcome): Option<ReplyValue> {
    if turn.cachedAnswer.Some? then turn.cachedAnswer else AcceptedAnswer(outcome)
  }

  /** The products a search request yields. */
  function Found(config: ApiConfig, request: Option<SearchRequest>, primary: HttpOutcome, retry: HttpOutcome)
    : (r: Option<seq<Product>>)
    ensures r.Some? <==> request.Some?
  {
    if request.Some? then Some(SearchResult(config, request.value.query, primary, retry, request.value.maxResults))
    else None
  }

  /** The reply built from a text answer of the remote service; `fromCache` is whether the
      answer's cache entry is found again. */
  function AiReply(config: ApiConfig, text: string, answer: string, fromCache: bool, at: nat,
                   primary: HttpOutcome, retry: HttpOutcome): Message
  {
    Message(MessageId(at, "-ai"), Assistant, answer, Found(config, AiSearch(text, Lower(answer)), primary, retry),
            false, false, false, fromCache)
  }

  /** The reply of the keyword cascade. */
  function RuleMessage(config: ApiConfig, text: string, at: nat, primary: HttpOutcome, retry: HttpOutcome): Message {
    var rule := Classify(text);
    Message(MessageId(at, "-ai"), Assistant, RuleReply(rule), Found(config, RuleSearch(rule), primary, retry),
            rule == CartRule, rule == OrderRule, false, false)
  }

  /** The reply to `text` given the answer the turn goes on with. A non-string answer throws at
      `toLowerCase` and gives the apology. */
  function ReplyFor(config: ApiConfig, text: string, answer: Option<ReplyValue>, fromCache: bool, at: nat,
                    primary: HttpOutcome, retry: HttpOutcome): Message
  {
    match answer
    case None => RuleMessage(config, text, at, primary, retry)
    case Some(Text(s)) => AiReply(config, text, s, fromCache, at, primary, retry)
    case Some(NonText(_)) => ErrorReply(at)
  }

  /** The reply that replaces the placeholder; the answer's cache entry is always found again. */
  function TurnReply(config: ApiConfig, turn: PendingTurn, at: nat, outcome: ChatOutcome,
                     primary: HttpOutcome, retry: HttpOutcome): Message
  {
    ReplyFor(config, turn.text, TurnAnswer(turn, outcome), true, at, primary, retry)
  }

  /** Building the reply, running the one product search it may need. */
  method ComposeReply(config: ApiConfig, text: string, answer: Option<ReplyValue>, fromCache: bool, at: nat,
                      primary: HttpOutcome, retry: HttpOutcome)
    returns (reply: Message)
    ensures reply == ReplyFor(config, text, answer, fromCache, at, primary, retry)
  {
    if answer.Some? {
      match answer.value {
        case NonText(_) =>
          reply := ErrorReply(at);
        case Text(s) =>
          var products: Option<seq<Product>> := None;
          var search := AiSearch(text, Lower(s));
          if search.Some? {
            var found, _ := SearchProductsSemantic(config, search.value.query, primary, retry, search.value.maxResults);
            products := Some(found);
          }
          reply := Message(MessageId(at, "-ai"), Assistant, s, products, false, false, false, fromCache);
      }
    } else {
      var rule := Classify(text);
      var products: Option<seq<Product>> := None;
      var search := RuleSearch(rule);
      if search.Some? {
        var found, _ := SearchProductsSemantic(config, search.value.query, primary, retry, search.value.maxResults);
        products := Some(found);
      }
      reply := Message(MessageId(at, "-ai"), Assistant, RuleReply(rule), products,
                       rule == CartRule, rule == OrderRule, false, false);
    }
  }

  datatype ApiStatus = Unknown | Online | Offline

  /** The service status after the turn: only a request that was made changes it. */
  function NextStatus(status: ApiStatus, turn: PendingTurn, outcome: ChatOutcome): ApiStatus {
    if turn.cachedAnswer.Some? then status
    else if outcome.FetchThrew? then Offline
    else if AcceptedAnswer(outcome).Some? then Online
    else status
  }

  /** The shared cache after the turn: an accepted remote answer is stored for 600 seconds. */
  function CacheAfterTurn(storage: map<string, Entry<CacheValue>>, turn: PendingTurn, outcome: ChatOutcome, at: int)
    : map<string, Entry<CacheValue>>
  {
    if turn.cachedAnswer.None? && AcceptedAnswer(outcome).Some? then
      Stored(storage, ApiCacheKey(turn.text), ApiReply(AcceptedAnswer(outcome).value), at, 600)
    else storage
  }

  // ---------------------------------------------------------------------------
  // The component's state

  class ChatSession {
    var messages: seq<Message>
    var input: string
    var isLoading: bool
    var showOrderForm: bool
    var orderLoading: bool
    var apiStatus: ApiStatus
    /** The turn waiting for the remote service, if any. */
    var pending: Option<PendingTurn>
    const sessionId: string
    const config: ApiConfig
    /** The cache shared by every user of `useCache`. */
    const cache: Cache<CacheValue>

    /** The cache keeps its shapes, a turn is pending exactly while loading, and its placeholder
        is on screen. */
    predicate Valid()
      reads this, cache
    {
      && CacheShapes(cache.storage)
      && (isLoading <==> pending.Some?)
      && (pending.Some? ==> pending.value.placeholder in messages)
    }

    constructor(sessionId: string, config: ApiConfig, cache: Cache<CacheValue>)
      requires CacheShapes(cache.storage)
      ensures Valid()
      ensures this.sessionId == sessionId && this.config == config && this.cache == cache
      ensures messages == [] && input == "" && !isLoading && !showOrderForm && !orderLoading
      ensures apiStatus == Unknown && pending == None
    {
      this.sessionId := sessionId;
      this.config := config;
      this.cache := cache;
      messages := [];
      input := "";
      isLoading := false;
      showOrderForm := false;
      orderLoading := false;
      apiStatus := Unknown;
      pending := None;
    }

    /** The mount effect, up to the `await` of the popular-products load: the three common replies
        are stored for 30 minutes. */
    method Mount(now: nat)
      requires Valid()
      modifies cache
      ensures Valid()
      ensures cache.storage == Preloaded(old(cache.storage), now)
    {
      StoredKeepsShapes(cache.storage, ResponseKey("розы"), RosesReply, now, 1800);
      cache.Set(now, ResponseKey("розы"), RosesReply, 1800);
      StoredKeepsShapes(cache.storage, ResponseKey("букеты"), BouquetsReply, now, 1800);
      cache.Set(now, ResponseKey("букеты"), BouquetsReply, 1800);
      StoredKeepsShapes(cache.storage, ResponseKey("корзина"), CartReply, now, 1800);
      cache.Set(now, ResponseKey("корзина"), CartReply, 1800);
    }

    /** The popular-products load of the mount effect, after its search settles at `at`. The search
        never rejects, so its `catch` branch is not modelled. */
    method LoadPopular(at: nat, primary: HttpOutcome, retry: HttpOutcome)
      requires Valid()
      modifies cache
      ensures Valid()
      ensures cache.storage == Stored(old(cache.storage), PopularKey, ProductList(PopularResult(config, primary, retry)), at, 3600)
    {
      var products, _ := GetPopularProductsSemantic(config, primary, retry);
      assert PopularKey[0] == 'p';
      cache.Set(at, PopularKey, ProductList(products), 3600);
    }

    /** The input field's `onChange`. */
    method SetInput(text: string)
      modifies this`input
      ensures input == text
    {
      input := text;
    }

    /** `sendMessage`, up to its first `await`. A blank input or a turn in progress changes nothing.
        Otherwise the user message is shown and the input cleared; a preloaded reply answers at once,
        and any other message shows the placeholder and leaves the turn pending. */
    method Submit(now: nat)
      requires Valid()
      modifies this`messages, this`input, this`isLoading, this`pending, cache
      ensures Valid()
      ensures old(Trim(input) == "" || isLoading) ==>
        && messages == old(messages) && input == old(input) && isLoading == old(isLoading)
        && pending == old(pending) && cache.storage == old(cache.storage)
      ensures !old(Trim(input) == "" || isLoading) ==>
        var text := Trim(old(input));
        var mc := Normalise(old(input));
        var hit := Lookup(old(cache.storage), ResponseKey(mc), now);
        var afterHit := Evict(old(cache.storage), ResponseKey(mc), now);
        && input == ""
        && (hit.Some? ==>
              && messages == old(messages) + [UserMessage(now, text)] + [CachedReply(now, hit.value)]
              && !isLoading && pending == None && cache.storage == afterHit)
        && (hit.None? ==>
              var answer := Lookup(afterHit, ApiCacheKey(mc), now);
              && messages == old(messages) + [UserMessage(now, text)] + [Placeholder(now)]
              && isLoading
              && pending == Some(PendingTurn(mc, Placeholder(now),
                                             if answer.Some? then Some(answer.value.reply) else None,
                                             History(old(messages))))
              && cache.storage == Evict(afterHit, ApiCacheKey(mc), now))
    {
      if Trim(input) == "" || isLoading {
        return;
      }
      var text := Trim(input);
      var history := History(messages);
      messages := messages + [UserMessage(now, text)];
      ghost var shown := messages;
      var messageContent := Lower(text);
      input := "";
      var hit := ServePreloaded(messageContent, now);
      if hit.Some? {
        assert messages == shown + [CachedReply(now, hit.value)];
        return;
      }
      assert messages == shown;
      var found := AwaitRemote(messageContent, now, history);
    }

    /** The preloaded-reply lookup of a turn at `now`: a live reply is shown at once. */
    method ServePreloaded(text: string, now: nat) returns (hit: Option<CacheValue>)
      requires CacheShapes(cache.storage)
      modifies this`messages, cache
      ensures CacheShapes(cache.storage)
      ensures hit == Lookup(old(cache.storage), ResponseKey(text), now)
      ensures hit.Some? ==> hit.value.CommonReply?
      ensures cache.storage == Evict(old(cache.storage), ResponseKey(text), now)
      ensures messages == old(messages) + (if hit.Some? then [CachedReply(now, hit.value)] else [])
    {
      LookupShape(cache.storage, text, now);
      EvictKeepsShapes(cache.storage, ResponseKey(text), now);
      hit := cache.Get(now, ResponseKey(text));
      if hit.Some? {
        messages := messages + [CachedReply(now, hit.value)];
      }
    }

    /** The rest of a turn up to its `await`: the placeholder is shown, loading starts, and the
        remote answer cached under the message, if live, is taken along. */
    method AwaitRemote(text: string, now: nat, history: seq<HistoryEntry>) returns (found: Option<CacheValue>)
      requires CacheShapes(cache.storage)
      modifies this`messages, this`isLoading, this`pending, cache
      ensures CacheShapes(cache.storage)
      ensures found == Lookup(old(cache.storage), ApiCacheKey(text), now)
      ensures found.Some? ==> found.value.ApiReply?
      ensures cache.storage == Evict(old(cache.storage), ApiCacheKey(text), now)
      ensures messages == old(messages) + [Placeholder(now)] && isLoading
      ensures pending == Some(PendingTurn(text, Placeholder(now), if found.Some? then Some(found.value.reply) else None,
                                          history))
    {
      var typing := Placeholder(now);
      messages := messages + [typing];
      isLoading := true;
      LookupShape(cache.storage, text, now);
      EvictKeepsShapes(cache.storage, ApiCacheKey(text), now);
      found := cache.Get(now, ApiCacheKey(text));
      var cachedAnswer: Option<ReplyValue> := None;
      if found.Some? {
        cachedAnswer := Some(found.value.reply);
        // the reply's cached flag re-reads the entry within the same step
        var again := cache.Get(now, ApiCacheKey(text));
        assert again.Some?;
      }
      pending := Some(PendingTurn(text, typing, cachedAnswer, history));
    }

    /** The remote part of a turn settling at `at`: the cached answer when there was one, else the
        request's outcome, which sets the service status and stores an accepted answer for 600
        seconds. `fromCache` is the re-read of the answer's entry made when the reply is built. */
    method SettleAnswer(turn: PendingTurn, at: nat, outcome: ChatOutcome)
      returns (answer: Option<ReplyValue>, fromCache: bool)
      requires CacheShapes(cache.storage)
      modifies this`apiStatus, cache
      ensures CacheShapes(cache.storage)
      ensures answer == TurnAnswer(turn, outcome)
      ensures fromCache
      ensures apiStatus == NextStatus(old(apiStatus), turn, outcome)
      ensures cache.storage == CacheAfterTurn(old(cache.storage), turn, outcome, at)
    {
      answer := turn.cachedAnswer;
      fromCache := true;
      if answer.None? {
        match outcome {
          case FetchThrew =>
            apiStatus := Offline;
          case Answered(success, response) =>
            if success && response.Some? && Truthy(response.value) {
              answer := response;
              StoredKeepsShapes(cache.storage, ApiCacheKey(turn.text), ApiReply(response.value), at, 600);
              cache.Set(at, ApiCacheKey(turn.text), ApiReply(response.value), 600);
              apiStatus := Online;
            }
        }
        if answer.Some? {
          var again := cache.Get(at, ApiCacheKey(turn.text));
          fromCache := again.Some?;
        }
      }
    }

    /** `sendMessage` after its `await`s, at `at`: the remote outcome (ignored when the answer was
        cached) and the outcome of the one product search the reply may run. The placeholder is
        removed, exactly one reply is appended and loading ends. */
    method Complete(at: nat, outcome: ChatOutcome, primary: HttpOutcome, retry: HttpOutcome) returns (reply: Message)
      requires Valid() && pending.Some?
      modifies this`messages, this`showOrderForm, this`apiStatus, this`isLoading, this`pending, cache
      ensures Valid()
      ensures reply == TurnReply(config, old(pending.value), at, outcome, primary, retry)
      ensures var turn := old(pending.value);
        && messages == Filter(old(messages), OtherId(turn.placeholder.id)) + [reply]
        && showOrderForm == (old(showOrderForm) || reply.showOrderForm)
        && apiStatus == NextStatus(old(apiStatus), turn, outcome)
        && cache.storage == CacheAfterTurn(old(cache.storage), turn, outcome, at)
        && !isLoading && pending == None
    {
      var turn := pending.value;
      var answer, fromCache := SettleAnswer(turn, at, outcome);
      reply := ComposeReply(config, turn.text, answer, fromCache, at, primary, retry);
      ShowReply(turn.placeholder.id, reply);
    }

    /** The end of a turn: the placeholder gives way to the reply, which may open the form, and
        loading ends. */
    method ShowReply(placeholderId: string, reply: Message)
      modifies this`messages, this`showOrderForm, this`isLoading, this`pending
      ensures messages == Filter(old(messages), OtherId(placeholderId)) + [reply]
      ensures showOrderForm == (old(showOrderForm) || reply.showOrderForm)
      ensures !isLoading && pending == None
    {
      messages := Filter(messages, OtherId(placeholderId)) + [reply];
      if reply.showOrderForm {
        showOrderForm := true;
      }
      isLoading := false;
      pending := None;
    }

    /** `handleQuickAction(action)`; the products of 'show_products' come from the popular search,
        which settles at `at` with the given responses. Unknown actions change nothing. */
    method HandleQuickAction(action: string, at: nat, primary: HttpOutcome, retry: HttpOutcome)
      requires Valid()
      modifies this`messages, this`showOrderForm
      ensures Valid()
      ensures action == "show_products" ==>
        && messages == old(messages) + [Message(MessageId(at, "-products"), Assistant, "🌹 Вот наши популярные букеты:",
                                                Some(PopularResult(config, primary, retry)), false, false, false, false)]
        && showOrderForm == old(showOrderForm)
      ensures action == "show_cart" ==>
        && messages == old(messages) + [Message(MessageId(at, "-cart"), Assistant, "🛒 Ваша корзина:", None,
                                                true, false, false, false)]
        && showOrderForm == old(showOrderForm)
      ensures action == "checkout" ==> messages == old(messages) && showOrderForm
      ensures action != "show_products" && action != "show_cart" && action != "checkout" ==>
        messages == old(messages) && showOrderForm == old(showOrderForm)
    {
      if action == "show_products" {
        var products, _ := GetPopularProductsSemantic(config, primary, retry);
        messages := messages + [Message(MessageId(at, "-products"), Assistant, "🌹 Вот наши популярные букеты:",
                                        Some(products), false, false, false, false)];
      } else if action == "show_cart" {
        messages := messages + [Message(MessageId(at, "-cart"), Assistant, "🛒 Ваша корзина:", None,
                                        true, false, false, false)];
      } else if action == "checkout" {
        showOrderForm := true;
      }
    }

    /** `handleOrderSubmit(form)` after its simulated delay, at `now`: the confirmation is appended
        and the form closed; the cart is read, never changed. `formatTotal` is
        `toLocaleString('ru-RU')` on the total. */
    method HandleOrderSubmit(now: nat, form: OrderForm, cart: ShoppingCart.CartStore, formatTotal: int -> string)
      requires Valid()
      modifies this`messages, this`showOrderForm, this`orderLoading
      ensures Valid()
      ensures var total := cart.cart.total;
        var orderNumber := OrderNumber(now);
        var info := PaymentInfo(form.paymentMethod, orderNumber, total, form.phone, formatTotal(total));
        messages == old(messages) + [Message(MessageId(now, "-success"), Assistant, Confirmation(orderNumber, form, info),
                                             None, false, false, false, false)]
      ensures !showOrderForm && !orderLoading
    {
      orderLoading := true;
      var orderNumber := OrderNumber(now);
      var total := cart.cart.total;
      var paymentInfo := PaymentInfo(form.paymentMethod, orderNumber, total, form.phone, formatTotal(total));
      var success := Message(MessageId(now, "-success"), Assistant, Confirmation(orderNumber, form, paymentInfo),
                             None, false, false, false, false);
      messages := messages + [success];
      showOrderForm := false;
      orderLoading := false;
    }
  }

  // ---------------------------------------------------------------------------
  // Properties of a turn

  /** The remote answer is used exactly when `success` is set and `response` is truthy; a rejected
      request or any other payload falls through to the keyword cascade. */
  lemma UncachedTurnUsesCascadeIffRejected(config: ApiConfig, turn: PendingTurn, at: nat, outcome: ChatOutcome,
                                           primary: HttpOutcome, retry: HttpOutcome)
    requires turn.cachedAnswer.None?
    ensures TurnReply(config, turn, at, outcome, primary, retry) == RuleMessage(config, turn.text, at, primary, retry)
      <==> !(outcome.Answered? && outcome.success && outcome.response.Some? && Truthy(outcome.response.value))
  {
    var r := TurnReply(config, turn, at, outcome, primary, retry);
    var rule := RuleMessage(config, turn.text, at, primary, retry);
    var a := AcceptedAnswer(outcome);
    if a.Some? {
      if a.value.Text? {
        assert r.cached && !rule.cached;
      } else {
        assert r.content == Apology;
        assert r.id != rule.id by { IdsDiffer(at, "-error", at, "-ai"); }
      }
    }
  }

  /** The form opens from a turn only through the order rule of the cascade. */
  lemma OnlyOrderRuleOpensForm(config: ApiConfig, turn: PendingTurn, at: nat, outcome: ChatOutcome,
                               primary: HttpOutcome, retry: HttpOutcome)
    ensures TurnReply(config, turn, at, outcome, primary, retry).showOrderForm
      <==> TurnAnswer(turn, outcome).None? && Classify(turn.text) == OrderRule
  {
  }

  /** A preloaded reply never opens the form. */
  lemma CachedReplyKeepsFormClosed(at: nat, v: CacheValue)
    requires v.CommonReply?
    ensures !CachedReply(at, v).showOrderForm && CachedReply(at, v).cached
  {
  }

  /** Products on a remote text answer come only with the product test passing, and then from the
      topic's search. */
  lemma AiProductsOnlyWhenAsked(config: ApiConfig, text: string, answer: string, at: nat,
                                primary: HttpOutcome, retry: HttpOutcome)
    ensures var r := AiReply(config, text, answer, true, at, primary, retry);
      r.products.Some? <==> ShouldShowProducts(text, Lower(answer)) && AiTopic(text, Lower(answer)).Some?
  {
    var s := AiSearch(text, Lower(answer));
    if ShouldShowProducts(text, Lower(answer)) && AiTopic(text, Lower(answer)).Some? {
      assert s.Some?;
    }
  }

  /** The reply never carries the placeholder's id, so after the turn the placeholder is gone. */
  lemma {:induction false} PlaceholderRemoved(config: ApiConfig, turn: PendingTurn, now: nat, at: nat,
                                              outcome: ChatOutcome, primary: HttpOutcome, retry: HttpOutcome,
                                              messages: seq<Message>)
    requires turn.placeholder == Placeholder(now)
    ensures var after := Filter(messages, OtherId(turn.placeholder.id)) + [TurnReply(config, turn, at, outcome, primary, retry)];
      forall m :: m in after ==> m.id != turn.placeholder.id
  {
    var r := TurnReply(config, turn, at, outcome, primary, retry);
    if r.id == MessageId(at, "-error") {
      IdsDiffer(at, "-error", now, "-typing");
    } else {
      IdsDiffer(at, "-ai", now, "-typing");
    }
  }

  /** When nothing else shares the placeholder's id, the turn replaces the placeholder in place
      and keeps every other message, in order. */
  lemma PlaceholderReplaced(before: seq<Message>, placeholder: Message, after: seq<Message>, reply: Message)
    requires forall m :: m in before ==> m.id != placeholder.id
    requires forall m :: m in after ==> m.id != placeholder.id
    ensures Filter(before + [placeholder] + after, OtherId(placeholder.id)) + [reply] == before + after + [reply]
  {
    FilterDropsOne(before, placeholder, after, OtherId(placeholder.id));
  }

  /** Without an answer, 'сколько стоит доставка' gets the price reply and its products. */
  lemma DeliveryPriceTurn(config: ApiConfig, turn: PendingTurn, at: nat, outcome: ChatOutcome,
                          primary: HttpOutcome, retry: HttpOutcome)
    requires turn.text == "сколько стоит доставка" && TurnAnswer(turn, outcome).None?
    ensures var r := TurnReply(config, turn, at, outcome, primary, retry);
      r.content == "💰 Цены на наши букеты:"
      && r.products == Some(SearchResult(config, "недорогие букеты цены стоимость", primary, retry, 6))
  {
    DeliveryPriceQuestionGetsPrice();
  }
}
