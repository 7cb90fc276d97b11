/** Facts about the catalogue's literal texts and the query 'популярные букеты розы', kept apart
    from the search so that each is proved in a small context. */
module PopularQueryFacts {
  import opened Text
  import opened Catalogue

  /** A string shorter than the query cannot include it. */
  lemma ShortLacks(s: string, q: string)
    requires |s| < |q|
    ensures !Contains(Lower(s), q)
  {
  }

  lemma Name1LacksPopularPieces()
    ensures "Красные розы " + "\"Страсть\"" == "Красные розы \"Страсть\""
  {
  }

  lemma Name1LacksPopular()
    ensures !Contains(Lower("Красные розы \"Страсть\""), "популярные букеты розы")
  {
    Name1LacksPopularPieces();
    Name1LacksPopularHead();
    Name1LacksPopularTail();
    LowerLacksSplit("Красные розы ", "\"Страсть\"", "популярные букеты розы", 'п');
  }

  lemma Name1LacksPopularHead()
    ensures 'п' !in "Красные розы " && 'П' !in "Красные розы "
  {
  }

  lemma Name1LacksPopularTail()
    ensures 'п' !in "\"Страсть\"" && 'П' !in "\"Страсть\""
  {
  }

  lemma Description1LacksPopularPieces()
    ensures "25 красных роз " + "премиум класса, 60 см" == "25 красных роз премиум класса, 60 см"
  {
  }

  lemma Description1LacksPopular()
    ensures !Contains(Lower("25 красных роз премиум класса, 60 см"), "популярные букеты розы")
  {
    Description1LacksPopularPieces();
    Description1Head();
    Description1Tail();
    LowerLacksSplit("25 красных роз ", "премиум класса, 60 см", "популярные букеты розы", 'я');
  }

  lemma Description1Head()
    ensures 'я' !in "25 красных роз " && 'Я' !in "25 красных роз "
  {
  }

  lemma Description1Tail()
    ensures 'я' !in "премиум класса, 60 см" && 'Я' !in "премиум класса, 60 см"
  {
  }

  lemma Description2LacksPopularPieces()
    ensures "31 белая роза, идеально " + "для свадьбы и торжеств" == "31 белая роза, идеально для свадьбы и торжеств"
  {
  }

  lemma Description2LacksPopular()
    ensures !Contains(Lower("31 белая роза, идеально для свадьбы и торжеств"), "популярные букеты розы")
  {
    Description2LacksPopularPieces();
    Description2Head();
    Description2Tail();
    LowerLacksSplit("31 белая роза, идеально ", "для свадьбы и торжеств", "популярные букеты розы", 'п');
  }

  lemma Description2Head()
    ensures 'п' !in "31 белая роза, идеально " && 'П' !in "31 белая роза, идеально "
  {
  }

  lemma Description2Tail()
    ensures 'п' !in "для свадьбы и торжеств" && 'П' !in "для свадьбы и торжеств"
  {
  }

  lemma Description3LacksPopularPieces()
    ensures "21 роза разных " + "цветов - яркий букет " + "для особых моментов" == "21 роза разных цветов - яркий букет для особых моментов"
  {
    Description3FirstPieces();
    Description3LastPieces();
  }

  lemma Description3FirstPieces()
    ensures "21 роза разных " + "цветов - яркий букет " == "21 роза разных цветов - яркий букет "
  {
  }

  lemma Description3LastPieces()
    ensures "21 роза разных цветов - яркий букет " + "для особых моментов" == "21 роза разных цветов - яркий букет для особых моментов"
  {
  }

  lemma Description3Head()
    ensures 'п' !in "21 роза разных " && 'П' !in "21 роза разных "
  {
  }

  lemma Description3Middle()
    ensures 'п' !in "цветов - яркий букет " && 'П' !in "цветов - яркий букет "
  {
  }

  lemma Description3Tail()
    ensures 'п' !in "для особых моментов" && 'П' !in "для особых моментов"
  {
  }

  lemma Description3LacksPopular()
    ensures !Contains(Lower("21 роза разных цветов - яркий букет для особых моментов"), "популярные букеты розы")
  {
    Description3LacksPopularPieces();
    Description3Head();
    Description3Middle();
    Description3Tail();
    LowerLacksSplit3("21 роза разных ", "цветов - яркий букет ", "для особых моментов", "популярные букеты розы", 'п');
  }

  lemma Description4LacksPopularPieces()
    ensures "Нежный букет из " + "хризантем и роз" == "Нежный букет из хризантем и роз"
  {
  }

  lemma Description4LacksPopular()
    ensures !Contains(Lower("Нежный букет из хризантем и роз"), "популярные букеты розы")
  {
    Description4LacksPopularPieces();
    Description4Head();
    Description4Tail();
    LowerLacksSplit("Нежный букет из ", "хризантем и роз", "популярные букеты розы", 'п');
  }

  lemma Description4Head()
    ensures 'п' !in "Нежный букет из " && 'П' !in "Нежный букет из "
  {
  }

  lemma Description4Tail()
    ensures 'п' !in "хризантем и роз" && 'П' !in "хризантем и роз"
  {
  }

  lemma Description5LacksPopularPieces()
    ensures "Тюльпаны и нарциссы " + "- дыхание весны" == "Тюльпаны и нарциссы - дыхание весны"
  {
  }

  lemma Description5LacksPopular()
    ensures !Contains(Lower("Тюльпаны и нарциссы - дыхание весны"), "популярные букеты розы")
  {
    Description5LacksPopularPieces();
    Description5LacksPopularHead();
    Description5LacksPopularTail();
    LowerLacksSplit("Тюльпаны и нарциссы ", "- дыхание весны", "популярные букеты розы", 'о');
  }

  lemma Description5LacksPopularHead()
    ensures 'о' !in "Тюльпаны и нарциссы " && 'О' !in "Тюльпаны и нарциссы "
  {
  }

  lemma Description5LacksPopularTail()
    ensures 'о' !in "- дыхание весны" && 'О' !in "- дыхание весны"
  {
  }

  lemma Description6LacksPopularPieces()
    ensures "Роскошная композиция " + "из пионов и роз" == "Роскошная композиция из пионов и роз"
  {
  }

  lemma Description6LacksPopular()
    ensures !Contains(Lower("Роскошная композиция из пионов и роз"), "популярные букеты розы")
  {
    Description6LacksPopularPieces();
    Description6LacksPopularHead();
    Description6LacksPopularTail();
    LowerLacksSplit("Роскошная композиция ", "из пионов и роз", "популярные букеты розы", 'у');
  }

  lemma Description6LacksPopularHead()
    ensures 'у' !in "Роскошная композиция " && 'У' !in "Роскошная композиция "
  {
  }

  lemma Description6LacksPopularTail()
    ensures 'у' !in "из пионов и роз" && 'У' !in "из пионов и роз"
  {
  }
}

/** Product search through the remote semantic-search service, with the local text search as the
    fallback for every failure (src/utils/semanticSearch.ts). HTTP exchanges are inputs: what the
    primary request and the retry would receive. */
module SemanticSearch {
  import opened Wrappers
  import opened Seqs
  import opened Text
  import opened Types
  import opened Catalogue
  import opened PopularQueryFacts

  // ---------------------------------------------------------------------------
  // Configuration

  /** The build-time environment variables; `None` is an unset variable. */
  datatype Env = Env(
    apiBaseUrl: Option<string>,
    productsSearchEndpoint: Option<string>,
    devMode: Option<string>,
    fallbackApiUrl: Option<string>,
    vectorizeEndpoint: Option<string>)

  /** `value || fallback` on an optional string: unset and empty both give the fallback. */
  function OrDefault(value: Option<string>, fallback: string): (r: string)
    ensures value.Some? && value.value != "" ==> r == value.value
    ensures value.None? || value.value == "" ==> r == fallback
  {
    if value.Some? && value.value != "" then value.value else fallback
  }

  const DefaultBaseUrl := "https://faq-demo.cvety.kz/api"
  const DefaultSearchEndpoint := "/products-search"
  const DefaultFallbackUrl := "http://localhost:8787/api"
  const DefaultVectorizeEndpoint := "/vectorize-products"

  datatype ApiConfig = ApiConfig(productsSearchUrl: string, devMode: bool, fallbackUrl: string)

  /** `getApiConfig()`: both URLs end in the search endpoint; dev mode is on only for the exact
      string 'true'. */
  function GetApiConfig(env: Env): (c: ApiConfig)
    ensures c.devMode <==> env.devMode == Some("true")
    ensures c.productsSearchUrl == OrDefault(env.apiBaseUrl, DefaultBaseUrl) + OrDefault(env.productsSearchEndpoint, DefaultSearchEndpoint)
    ensures c.fallbackUrl == OrDefault(env.fallbackApiUrl, DefaultFallbackUrl) + OrDefault(env.productsSearchEndpoint, DefaultSearchEndpoint)
  {
    var endpoint := OrDefault(env.productsSearchEndpoint, DefaultSearchEndpoint);
    ApiConfig(
      OrDefault(env.apiBaseUrl, DefaultBaseUrl) + endpoint,
      env.devMode == Some("true"),
      OrDefault(env.fallbackApiUrl, DefaultFallbackUrl) + endpoint)
  }

  /** With no variables set, dev mode is off and the two search URLs differ, so a failing primary
      request is always retried once. */
  lemma DefaultConfigRetries()
    ensures var c := GetApiConfig(Env(None, None, None, None, None));
      && !c.devMode
      && c.productsSearchUrl == DefaultBaseUrl + DefaultSearchEndpoint
      && c.fallbackUrl == DefaultFallbackUrl + DefaultSearchEndpoint
      && c.productsSearchUrl != c.fallbackUrl
  {
    var c := GetApiConfig(Env(None, None, None, None, None));
    assert DefaultBaseUrl[4] == 's' && DefaultFallbackUrl[4] == ':';
    assert c.productsSearchUrl[4] != c.fallbackUrl[4];
  }

  // ---------------------------------------------------------------------------
  // The local fallback search

  /** The six products `fallbackTextSearch` searches: its own copy of the first six catalogue entries. */
  const FallbackProducts: seq<Product> := [P1, P2, P3, P4, P5, P6]

  lemma FallbackIsCatalogueHead()
    ensures FallbackProducts == MockProducts[..6]
  {
  }

  /** `fallbackTextSearch(query, maxResults = 6)`: the first `maxResults` of the fallback products
      that match the lower-cased query, in catalogue order. */
  function FallbackTextSearch(query: string, maxResults: int := 6): (r: seq<Product>)
    ensures var all := Filter(FallbackProducts, Matching(Lower(query)));
      && |r| <= |all| && r == all[..|r|]
      && (maxResults >= 0 ==> |r| == Min(maxResults, |all|))
      && (maxResults < 0 ==> |r| == Max(|all| + maxResults, 0))
    ensures forall p :: p in r ==> p in FallbackProducts && MatchesQuery(p, Lower(query))
  {
    var all := Filter(FallbackProducts, Matching(Lower(query)));
    var r := SliceTo(all, maxResults);
    assert |r| <= |all| && r == all[..|r|];
    assert maxResults < 0 ==> |r| == Max(|all| + maxResults, 0);
    assert forall p :: p in r ==> p in all;
    r
  }

  /** Every result includes the whole lower-cased query in one field, and results keep catalogue order. */
  lemma FallbackResultsMatch(query: string, maxResults: int)
    ensures IsSubsequence(FallbackTextSearch(query, maxResults), FallbackProducts)
  {
    var all := Filter(FallbackProducts, Matching(Lower(query)));
    var r := FallbackTextSearch(query, maxResults);
    FilterIsSubsequence(FallbackProducts, Matching(Lower(query)));
    PrefixIsSubsequence(all, |r|);
    SubsequenceTransitive(r, all, FallbackProducts);
  }

  lemma {:induction false} PrefixIsSubsequence(s: seq<Product>, n: nat)
    requires n <= |s|
    ensures IsSubsequence(s[..n], s)
  {
    if n > 0 {
      PrefixIsSubsequence(s[1..], n - 1);
      assert s[..n][1..] == s[1..][..n - 1];
    }
  }

  lemma {:induction false} SubsequenceTransitive(a: seq<Product>, b: seq<Product>, c: seq<Product>)
    requires IsSubsequence(a, b) && IsSubsequence(b, c)
    ensures IsSubsequence(a, c)
    decreases |c|
  {
    if a != [] {
      assert b != [] && c != [];
      if b[0] == c[0] && IsSubsequence(b[1..], c[1..]) {
        if a[0] == b[0] && IsSubsequence(a[1..], b[1..]) {
          SubsequenceTransitive(a[1..], b[1..], c[1..]);
        } else {
          SubsequenceTransitive(a, b[1..], c[1..]);
        }
      } else {
        SubsequenceTransitive(a, b, c[1..]);
      }
    }
  }

  // ---------------------------------------------------------------------------
  // The remote search

  /** The JSON payload of a search response: unreadable, or a `success` flag and a `results` list
      that may be missing. */
  datatype SearchBody = Unparsable | Body(success: bool, results: Option<seq<Product>>)

  /** What one `fetch` yields: a network error (the promise rejects), or a response. */
  datatype HttpOutcome = NetworkError | Response(ok: bool, body: SearchBody)

  /** A remote result as the search returns it: every field copied, including the service's
      `similarity`, except `isPopular`, which is dropped. */
  function ToResult(p: Product): (r: Product)
    ensures r.isPopular.None?
    ensures r == p.(isPopular := None)
  {
    Product(p.id, p.name, p.price, p.image, p.description, p.category, p.inStock, p.rating, None, p.similarity)
  }

  /** Whether the primary request failed in a way that triggers the retry. */
  predicate Retries(config: ApiConfig, primary: HttpOutcome) {
    primary.Response? && !primary.ok && config.fallbackUrl != config.productsSearchUrl
  }

  /** The response the search goes on with: the retry's when it retried, else the primary one. */
  function FinalOutcome(config: ApiConfig, primary: HttpOutcome, retry: HttpOutcome): HttpOutcome {
    if Retries(config, primary) then retry else primary
  }

  /** A response the search accepts: ok, readable, `success` set and `results` present. */
  predicate Accepted(outcome: HttpOutcome) {
    outcome.Response? && outcome.ok && outcome.body.Body? && outcome.body.success && outcome.body.results.Some?
  }

  /** The products `searchProductsSemantic` resolves with, for the given responses. */
  function SearchResult(config: ApiConfig, query: string, primary: HttpOutcome, retry: HttpOutcome,
                        maxResults: int := 6): seq<Product>
  {
    var final := FinalOutcome(config, primary, retry);
    if !config.devMode && Accepted(final) then
      var results := final.body.results.value;
      seq(|results|, i requires 0 <= i < |results| => ToResult(results[i]))
    else FallbackTextSearch(query, maxResults)
  }

  /** The products `getPopularProductsSemantic` resolves with. */
  function PopularResult(config: ApiConfig, primary: HttpOutcome, retry: HttpOutcome): seq<Product> {
    if config.devMode then FallbackTextSearch(PopularQuery, PopularCount)
    else SearchResult(config, PopularQuery, primary, retry, PopularCount)
  }

  /** `searchProductsSemantic(query, maxResults = 6)`. `primary` and `retry` are what a request to
      the primary and to the fallback URL would receive; `requests` lists the URLs actually
      requested. The call never rejects: every failure answers the local fallback search. */
  method SearchProductsSemantic(config: ApiConfig, query: string, primary: HttpOutcome, retry: HttpOutcome,
                                maxResults: int := 6)
    returns (products: seq<Product>, requests: seq<string>)
    ensures products == SearchResult(config, query, primary, retry, maxResults)
    ensures config.devMode ==> requests == [] && products == FallbackTextSearch(query, maxResults)
    ensures !config.devMode ==>
      && requests == [config.productsSearchUrl] + (if Retries(config, primary) then [config.fallbackUrl] else [])
      && var final := FinalOutcome(config, primary, retry);
         if Accepted(final) then
           var results := final.body.results.value;
           |products| == |results| && forall i :: 0 <= i < |results| ==> products[i] == ToResult(results[i])
         else products == FallbackTextSearch(query, maxResults)
  {
    if config.devMode {
      return FallbackTextSearch(query, maxResults), [];
    }
    requests := [config.productsSearchUrl];
    var response := primary;
    if response.NetworkError? {
      return FallbackTextSearch(query, maxResults), requests;
    }
    if !response.ok && config.fallbackUrl != config.productsSearchUrl {
      requests := requests + [config.fallbackUrl];
      response := retry;
      if response.NetworkError? {
        return FallbackTextSearch(query, maxResults), requests;
      }
    }
    if !response.ok || response.body.Unparsable? || !response.body.success || response.body.results.None? {
      return FallbackTextSearch(query, maxResults), requests;
    }
    var results := response.body.results.value;
    products := seq(|results|, i requires 0 <= i < |results| => ToResult(results[i]));
  }

  /** The query `getPopularProductsSemantic` sends, and how many results it asks for. */
  const PopularQuery := "популярные букеты розы"
  const PopularCount := 4

  /** `getPopularProductsSemantic()`. In dev mode it runs the fallback search on a three-word
      query, which no single field of any fallback product contains, so the answer is empty. */
  method GetPopularProductsSemantic(config: ApiConfig, primary: HttpOutcome, retry: HttpOutcome)
    returns (products: seq<Product>, requests: seq<string>)
    ensures products == PopularResult(config, primary, retry)
    ensures config.devMode ==> products == [] && requests == []
    ensures !config.devMode ==>
      && requests == [config.productsSearchUrl] + (if Retries(config, primary) then [config.fallbackUrl] else [])
      && (!Accepted(FinalOutcome(config, primary, retry)) ==> products == [])
  {
    PopularQueryMatchesNothing();
    if config.devMode {
      return FallbackTextSearch(PopularQuery, PopularCount), [];
    }
    products, requests := SearchProductsSemantic(config, PopularQuery, primary, retry, PopularCount);
  }

  /** No fallback product matches 'популярные букеты розы': the dev-mode popular list is empty. */
  lemma PopularQueryMatchesNothing()
    ensures FallbackTextSearch(PopularQuery, PopularCount) == []
  {
    var q := PopularQuery;
    assert Lower(q) == q;
    Name1LacksPopular();
    Description1LacksPopular();
    Description2LacksPopular();
    Description3LacksPopular();
    Description4LacksPopular();
    Description5LacksPopular();
    Description6LacksPopular();
    ShortLacks(P1.category, q);
    ShortLacks(P2.name, q);
    ShortLacks(P3.name, q);
    ShortLacks(P4.name, q);
    ShortLacks(P4.category, q);
    ShortLacks(P5.name, q);
    ShortLacks(P5.category, q);
    ShortLacks(P6.name, q);
    ShortLacks(P6.category, q);
    var keep := Matching(q);
    assert !keep(P1) && !keep(P2) && !keep(P3) && !keep(P4) && !keep(P5) && !keep(P6);
    FilterDropsAll(FallbackProducts, keep);
  }

  // ---------------------------------------------------------------------------
  // Vector initialisation

  /** The payload of the vectorisation response: unreadable, or one whose `success` field is
      `true`, `false` or missing (`None`). */
  datatype VectorizeBody = VectorizeUnparsable | VectorizeBody(success: Option<bool>)

  datatype VectorizeOutcome = VectorizeNetworkError | VectorizeResponse(ok: bool, body: VectorizeBody)

  /** `initializeProductVectors()`: `Some(true)` in dev mode without a request; the response's
      `success` (missing gives `None`, JavaScript's `undefined`) on a readable ok response;
      `Some(false)` on any error. */
  method InitializeProductVectors(env: Env, outcome: VectorizeOutcome) returns (r: Option<bool>, requests: seq<string>)
    ensures GetApiConfig(env).devMode ==> r == Some(true) && requests == []
    ensures !GetApiConfig(env).devMode ==>
      && requests == [OrDefault(env.apiBaseUrl, DefaultBaseUrl) + OrDefault(env.vectorizeEndpoint, DefaultVectorizeEndpoint)]
      && (outcome.VectorizeResponse? && outcome.ok && outcome.body.VectorizeBody? ==> r == outcome.body.success)
      && (!(outcome.VectorizeResponse? && outcome.ok && outcome.body.VectorizeBody?) ==> r == Some(false))
  {
    var config := GetApiConfig(env);
    var vectorizeUrl := OrDefault(env.apiBaseUrl, DefaultBaseUrl) + OrDefault(env.vectorizeEndpoint, DefaultVectorizeEndpoint);
    if config.devMode {
      return Some(true), [];
    }
    requests := [vectorizeUrl];
    if outcome.VectorizeNetworkError? || !outcome.ok || outcome.body.VectorizeUnparsable? {
      return Some(false), requests;
    }
    r := outcome.body.success;
  }
}
