/**
 * The provider clients: how `_make_request` turns a failed request into
 * `ApiRequestError`, and how `CoinGeckoClient` and `ExchangeRateApiClient` turn a
 * parsed response into a `"FROM_TO"` -> rate map with both directions of every pair.
 * The HTTP exchange itself is a parameter: either the decoded body with its request
 * metadata, or the exception the `requests` library raised.
 */
module ApiClients {
  import opened Common
  import opened Errors
  import opened Text
  import opened RateMaps
  import Config

  /** The exception `_make_request` can catch, by its most specific class. */
  datatype TransportFailure =
    | ReadTimeout              // requests Timeout
    | ConnectTimeout           // requests ConnectTimeout: a Timeout and a ConnectionError
    | ConnectionLost           // requests ConnectionError
    | HttpError(status: int)   // requests HTTPError from `raise_for_status`
    | JsonDecode               // requests JSONDecodeError: a RequestException and a ValueError
    | OtherRequestError        // any other RequestException
    | PlainValueError          // a ValueError raised outside `requests`

  /** Membership in the classes the `except` clauses name. */
  predicate IsTimeout(f: TransportFailure) { f.ReadTimeout? || f.ConnectTimeout? }
  predicate IsConnectionError(f: TransportFailure) { f.ConnectTimeout? || f.ConnectionLost? }
  predicate IsHttpError(f: TransportFailure) { f.HttpError? }
  predicate IsRequestException(f: TransportFailure) { !f.PlainValueError? }
  predicate IsValueError(f: TransportFailure) { f.JsonDecode? || f.PlainValueError? }

  /**
   * The reason `_make_request` raises `ApiRequestError` with: the first `except`
   * clause whose class the exception belongs to decides.
   */
  function Classify(f: TransportFailure, timeoutSeconds: int): (reason: ApiReason)
    ensures IsTimeout(f) ==> reason == Timeout(timeoutSeconds)
    ensures !IsTimeout(f) && IsConnectionError(f) ==> reason == ConnectionFailed
    ensures !IsTimeout(f) && !IsConnectionError(f) && IsHttpError(f) ==>
              (f.status == 429 ==> reason == RateLimited) &&
              (f.status == 401 ==> reason == InvalidApiKey) &&
              (f.status != 429 && f.status != 401 ==> reason == HttpStatus(f.status))
    ensures !IsTimeout(f) && !IsConnectionError(f) && !IsHttpError(f) && IsRequestException(f) ==>
              reason == RequestFailed
    ensures !IsRequestException(f) && IsValueError(f) ==> reason == JsonParse
  {
    match f
    case ReadTimeout => Timeout(timeoutSeconds)
    case ConnectTimeout => Timeout(timeoutSeconds)
    case ConnectionLost => ConnectionFailed
    case HttpError(status) =>
      if status == 429 then RateLimited
      else if status == 401 then InvalidApiKey
      else HttpStatus(status)
    case JsonDecode => RequestFailed
    case OtherRequestError => RequestFailed
    case PlainValueError => JsonParse
  }

  /**
   * A body that `requests` cannot decode is reported as a request error, not as a
   * JSON error, because its exception is caught by the earlier `RequestException`
   * clause; a connect timeout is reported as a timeout for the same reason.
   */
  lemma EarlierClauseWins(timeoutSeconds: int)
    ensures IsValueError(JsonDecode) && Classify(JsonDecode, timeoutSeconds) == RequestFailed
    ensures IsConnectionError(ConnectTimeout) && Classify(ConnectTimeout, timeoutSeconds) == Timeout(timeoutSeconds)
  {
  }

  /** `_make_request`: the decoded body and its metadata, or `ApiRequestError`. */
  function MakeRequest<T>(exchange: Result<(T, RequestMeta), TransportFailure>, timeoutSeconds: int)
    : (r: Result<(T, RequestMeta), Error>)
    ensures exchange.Ok? ==> r == Ok(exchange.value)
    ensures exchange.Err? ==> r.Err? && r.error.ApiRequestError?
    ensures exchange.Err? ==> r.error.reason == Classify(exchange.error, timeoutSeconds)
  {
    match exchange
    case Ok(response) => Ok(response)
    case Err(f) => Err(ApiRequestError(Classify(f, timeoutSeconds)))
  }

  /**
   * One quoted code: `CODE_BASE` is set to the raw value, and `BASE_CODE` to its
   * reciprocal only when the raw value is positive. Nothing else changes.
   */
  function AddBothDirections(rates: map<string, real>, code: string, base: string, raw: real)
    : (out: map<string, real>)
    ensures raw > 0.0 ==> out.Keys == rates.Keys + {PairKey(code, base), PairKey(base, code)}
    ensures raw <= 0.0 ==> out.Keys == rates.Keys + {PairKey(code, base)}
    ensures raw > 0.0 ==> out[PairKey(base, code)] == 1.0 / raw
    ensures raw <= 0.0 || PairKey(code, base) != PairKey(base, code) ==> out[PairKey(code, base)] == raw
    ensures forall k | k in rates && k != PairKey(code, base) && k != PairKey(base, code) :: out[k] == rates[k]
  {
    var forward := rates[PairKey(code, base) := raw];
    if raw > 0.0 then forward[PairKey(base, code) := 1.0 / raw] else forward
  }

  /**
   * The pair map a client builds from its quotes, in the order it visits them: each
   * code with a quote gets both directions against `base`; a code without one is skipped.
   */
  function Normalise(quotes: seq<(string, Option<real>)>, base: string): map<string, real>
  {
    if |quotes| == 0 then map[]
    else
      var prev := Normalise(quotes[..|quotes| - 1], base);
      var (code, raw) := quotes[|quotes| - 1];
      if raw.Some? then AddBothDirections(prev, code, base, raw.value) else prev
  }

  /** Every key the clients build is one direction of a pair of some visited code with the base. */
  lemma {:induction false} NormaliseKeys(quotes: seq<(string, Option<real>)>, base: string)
    ensures forall k | k in Normalise(quotes, base) ::
              exists j | 0 <= j < |quotes| :: k == PairKey(quotes[j].0, base) || k == PairKey(base, quotes[j].0)
  {
    if |quotes| > 0 {
      var init := quotes[..|quotes| - 1];
      NormaliseKeys(init, base);
      forall k | k in Normalise(quotes, base)
        ensures exists j | 0 <= j < |quotes| :: k == PairKey(quotes[j].0, base) || k == PairKey(base, quotes[j].0)
      {
        if k in Normalise(init, base) {
          var j :| 0 <= j < |init| && (k == PairKey(init[j].0, base) || k == PairKey(base, init[j].0));
          assert quotes[j] == init[j];
        } else {
          assert quotes[|quotes| - 1].0 == quotes[|quotes| - 1].0;
        }
      }
    }
  }

  /** The visited codes are distinct. */
  predicate DistinctCodes(quotes: seq<(string, Option<real>)>) {
    forall i, j | 0 <= i < j < |quotes| :: quotes[i].0 != quotes[j].0
  }

  /** No code and not the base contains `'_'`, and no code is the base itself. */
  predicate Separable(quotes: seq<(string, Option<real>)>, base: string) {
    && !Contains(base, '_')
    && forall i | 0 <= i < |quotes| :: !Contains(quotes[i].0, '_') && quotes[i].0 != base
  }

  /**
   * With distinct, separable codes, the map holds exactly the promised entries for each
   * code: `CODE_BASE` = raw iff it was quoted, `BASE_CODE` = 1/raw iff the quote was positive.
   */
  lemma {:induction false} NormaliseEntry(quotes: seq<(string, Option<real>)>, base: string, i: int)
    requires DistinctCodes(quotes) && Separable(quotes, base)
    requires 0 <= i < |quotes|
    ensures var rates := Normalise(quotes, base);
            var code := quotes[i].0;
            var raw := quotes[i].1;
            && (PairKey(code, base) in rates <==> raw.Some?)
            && (raw.Some? ==> rates[PairKey(code, base)] == raw.value)
            && (PairKey(base, code) in rates <==> raw.Some? && raw.value > 0.0)
            && (raw.Some? && raw.value > 0.0 ==> rates[PairKey(base, code)] == 1.0 / raw.value)
  {
    var n := |quotes| - 1;
    var init := quotes[..n];
    var code := quotes[i].0;
    var last := quotes[n].0;
    assert DistinctCodes(init) && Separable(init, base);
    PairKeysEqual(code, base, last, base);
    PairKeysEqual(code, base, base, last);
    PairKeysEqual(base, code, last, base);
    PairKeysEqual(base, code, base, last);
    if i == n {
      NormaliseKeys(init, base);
      forall k | k in Normalise(init, base)
        ensures k != PairKey(code, base) && k != PairKey(base, code)
      {
        var j :| 0 <= j < |init| && (k == PairKey(init[j].0, base) || k == PairKey(base, init[j].0));
        assert init[j] == quotes[j];
        PairKeysEqual(code, base, init[j].0, base);
        PairKeysEqual(code, base, base, init[j].0);
        PairKeysEqual(base, code, init[j].0, base);
        PairKeysEqual(base, code, base, init[j].0);
      }
    } else {
      assert init[i] == quotes[i];
      NormaliseEntry(init, base, i);
    }
  }

  /** `CRYPTO_ID_MAP` with the quote of each id: `data[id]["usd"]` when both keys exist. */
  function CoinGeckoQuotes(idMap: seq<(string, string)>, data: map<string, map<string, real>>)
    : (quotes: seq<(string, Option<real>)>)
    ensures |quotes| == |idMap|
    ensures forall i | 0 <= i < |idMap| :: quotes[i].0 == idMap[i].0
    ensures forall i | 0 <= i < |idMap| :: quotes[i].1.Some? <==> idMap[i].1 in data && "usd" in data[idMap[i].1]
    ensures forall i | 0 <= i < |idMap| :: quotes[i].1.Some? ==> quotes[i].1.value == data[idMap[i].1]["usd"]
  {
    seq(|idMap|, i requires 0 <= i < |idMap| =>
      var id := idMap[i].1;
      (idMap[i].0, if id in data && "usd" in data[id] then Some(data[id]["usd"]) else None))
  }

  /** The codes of the fixed id map are distinct upper-case words other than `"USD"`. */
  lemma CryptoIdMapCodes()
    ensures forall i, j | 0 <= i < j < |Config.CryptoIdMap| :: Config.CryptoIdMap[i].0 != Config.CryptoIdMap[j].0
    ensures forall i | 0 <= i < |Config.CryptoIdMap| ::
              !Contains(Config.CryptoIdMap[i].0, '_') && Config.CryptoIdMap[i].0 != "USD"
  {
    var m := Config.CryptoIdMap;
    assert forall i | 0 <= i < 8 :: |m[i].0| >= 3 && forall p | 0 <= p < |m[i].0| :: IsUpperChar(m[i].0[p]);
    assert forall i, j | 0 <= i < j < 8 :: m[i].0[0] != m[j].0[0] || m[i].0[1] != m[j].0[1] || m[i].0[2] != m[j].0[2];
    assert forall i | 0 <= i < 8 :: m[i].0[0] != 'U' || m[i].0[1] != 'S';
  }

  /** The fixed id map has distinct, separable codes against the default base `"USD"`. */
  lemma CryptoIdMapSeparable(data: map<string, map<string, real>>)
    ensures DistinctCodes(CoinGeckoQuotes(Config.CryptoIdMap, data))
    ensures Separable(CoinGeckoQuotes(Config.CryptoIdMap, data), "USD")
  {
    CryptoIdMapCodes();
    var quotes := CoinGeckoQuotes(Config.CryptoIdMap, data);
    assert forall i | 0 <= i < |quotes| :: quotes[i].0 == Config.CryptoIdMap[i].0;
    assert "USD"[0] != '_' && "USD"[1] != '_' && "USD"[2] != '_';
  }

  /** The first requested crypto code without an id, in request order. */
  function FirstUnknownCrypto(codes: seq<string>, known: set<string>): (r: Option<string>)
    ensures r.None? <==> forall i | 0 <= i < |codes| :: codes[i] in known
    ensures r.Some? ==> exists i | 0 <= i < |codes| :: codes[i] == r.value && r.value !in known &&
                          forall j | 0 <= j < i :: codes[j] in known
  {
    if |codes| == 0 then None
    else if codes[0] !in known then Some(codes[0])
    else
      var r := FirstUnknownCrypto(codes[1..], known);
      assert forall i | 1 <= i < |codes| :: codes[i] == codes[1..][i - 1];
      if r.Some? then
        assert exists i | 1 <= i < |codes| :: codes[i] == r.value && r.value !in known &&
                          forall j | 1 <= j < i :: codes[j] in known by {
          var i :| 0 <= i < |codes[1..]| && codes[1..][i] == r.value && r.value !in known &&
                   forall j | 0 <= j < i :: codes[1..][j] in known;
          assert forall j | 1 <= j < i + 1 :: codes[j] == codes[1..][j - 1];
        }
        r
      else r
  }

  /**
   * `CoinGeckoClient.fetch_rates`: looks up the id of every configured crypto code
   * (`KeyError` for the first unknown one), makes the request, then visits
   * `CRYPTO_ID_MAP` in order, and tags the result with `source = "CoinGecko"`.
   */
  method FetchCoinGecko(config: Config.ParserConfig,
                        exchange: Result<(map<string, map<string, real>>, RequestMeta), TransportFailure>)
    returns (r: Result<RateMap, Error>)
    ensures FirstUnknownCrypto(config.cryptoCurrencies, Config.IdMapCodes(config.cryptoIdMap)).Some? ==>
              r == Err(KeyError(FirstUnknownCrypto(config.cryptoCurrencies, Config.IdMapCodes(config.cryptoIdMap)).value))
    ensures FirstUnknownCrypto(config.cryptoCurrencies, Config.IdMapCodes(config.cryptoIdMap)).None? && exchange.Err? ==>
              r == Err(ApiRequestError(Classify(exchange.error, config.requestTimeout)))
    ensures FirstUnknownCrypto(config.cryptoCurrencies, Config.IdMapCodes(config.cryptoIdMap)).None? && exchange.Ok? ==>
              r.Ok? && r.value.WellFormed()
              && r.value.pairs == Normalise(CoinGeckoQuotes(config.cryptoIdMap, exchange.value.0), config.baseCurrency) - {MetaKey}
              && r.value.meta == Some(SourceMeta(Some("CoinGecko"), None, Some(exchange.value.1), None))
  {
    var known := Config.IdMapCodes(config.cryptoIdMap);
    var unknown := FirstUnknownCrypto(config.cryptoCurrencies, known);
    if unknown.Some? {
      return Err(KeyError(unknown.value));
    }
    var response :- MakeRequest(exchange, config.requestTimeout);
    var (data, requestMeta) := response;
    var idMap := config.cryptoIdMap;
    var base := config.baseCurrency;
    ghost var quotes := CoinGeckoQuotes(idMap, data);
    var rates: map<string, real> := map[];
    for i := 0 to |idMap|
      invariant rates == Normalise(quotes[..i], base)
    {
      assert quotes[..i + 1][..i] == quotes[..i];
      var (code, id) := idMap[i];
      if id in data && "usd" in data[id] {
        rates := AddBothDirections(rates, code, base, data[id]["usd"]);
      }
    }
    assert quotes[..|idMap|] == quotes;
    var meta := SourceMeta(Some("CoinGecko"), None, Some(requestMeta), None);
    return Ok(RateMap(rates - {MetaKey}, Some(meta)));
  }

  /** The decoded ExchangeRate-API body: each key may be absent. */
  datatype ExchangeRateBody = ExchangeRateBody(
    result: Option<string>,
    errorType: Option<string>,
    baseCode: Option<string>,
    conversionRates: Option<map<string, real>>)

  /** The configured fiat codes with their quote in `conversion_rates`, if any. */
  function FiatQuotes(fiat: seq<string>, conversionRates: map<string, real>)
    : (quotes: seq<(string, Option<real>)>)
    ensures |quotes| == |fiat|
    ensures forall i | 0 <= i < |fiat| :: quotes[i].0 == fiat[i]
    ensures forall i | 0 <= i < |fiat| :: quotes[i].1.Some? <==> fiat[i] in conversionRates
    ensures forall i | 0 <= i < |fiat| :: quotes[i].1.Some? ==> quotes[i].1.value == conversionRates[fiat[i]]
  {
    seq(|fiat|, i requires 0 <= i < |fiat| =>
      (fiat[i], if fiat[i] in conversionRates then Some(conversionRates[fiat[i]]) else None))
  }

  /**
   * `ExchangeRateApiClient.fetch_rates`: a result other than `"success"` is a provider
   * error; otherwise every configured fiat code found in `conversion_rates` gets both
   * directions against the reported base (else the configured one), `BASE_BASE` is
   * 1.0, and the result is tagged `ExchangeRate-API` with its base currency.
   */
  method FetchExchangeRate(config: Config.ParserConfig,
                           exchange: Result<(ExchangeRateBody, RequestMeta), TransportFailure>)
    returns (r: Result<RateMap, Error>)
    ensures exchange.Err? ==> r == Err(ApiRequestError(Classify(exchange.error, config.requestTimeout)))
    ensures exchange.Ok? && exchange.value.0.result != Some("success") ==>
              r == Err(ApiRequestError(ProviderError(exchange.value.0.errorType.GetOr("unknown"))))
    ensures exchange.Ok? && exchange.value.0.result == Some("success") ==>
              var body := exchange.value.0;
              var base := body.baseCode.GetOr(config.baseCurrency);
              && r.Ok? && r.value.WellFormed()
              && r.value.pairs ==
                   Normalise(FiatQuotes(config.fiatCurrencies, body.conversionRates.GetOr(map[])), base)
                     [PairKey(base, base) := 1.0] - {MetaKey}
              && r.value.meta == Some(SourceMeta(Some("ExchangeRate-API"), None, Some(exchange.value.1), Some(base)))
              && PairKey(base, base) in r.value.pairs && r.value.pairs[PairKey(base, base)] == 1.0
              && r.value.Size() >= 2
  {
    var response :- MakeRequest(exchange, config.requestTimeout);
    var (body, requestMeta) := response;
    if body.result != Some("success") {
      return Err(ApiRequestError(ProviderError(body.errorType.GetOr("unknown"))));
    }
    var base := body.baseCode.GetOr(config.baseCurrency);
    var conversionRates := body.conversionRates.GetOr(map[]);
    var fiat := config.fiatCurrencies;
    ghost var quotes := FiatQuotes(fiat, conversionRates);
    var rates: map<string, real> := map[];
    for i := 0 to |fiat|
      invariant rates == Normalise(quotes[..i], base)
    {
      assert quotes[..i + 1][..i] == quotes[..i];
      var currency := fiat[i];
      if currency in conversionRates {
        rates := AddBothDirections(rates, currency, base, conversionRates[currency]);
      }
    }
    assert quotes[..|fiat|] == quotes;
    rates := rates[PairKey(base, base) := 1.0];
    assert PairKey(base, base) != MetaKey by {
      if |base| == 2 {
        assert PairKey(base, base)[2] == '_' != MetaKey[2];
      }
    }
    var meta := SourceMeta(Some("ExchangeRate-API"), None, Some(requestMeta), Some(base));
    r := Ok(RateMap(rates - {MetaKey}, Some(meta)));
    assert PairKey(base, base) in r.value.pairs;
  }
}
