/**
 * `ParserConfig`: the parser service's settings, filled in by `__post_init__` from the
 * environment and the `[parser]` settings table, and checked by `validate`.
 */
module Config {
  import opened Common
  import opened Errors
  import opened Text

  /** The `[parser]` settings table: each key may be absent. */
  datatype ParserSettings = ParserSettings(
    apiKey: Option<string>,
    coingeckoUrl: Option<string>,
    exchangerateUrl: Option<string>,
    baseCurrency: Option<string>,
    fiatCurrencies: Option<seq<string>>,
    cryptoCurrencies: Option<seq<string>>,
    requestTimeout: Option<int>,
    updateIntervalMinutes: Option<int>)

  const DemoKey: string := "demo_key"
  const DefaultCoingeckoUrl: string := "https://api.coingecko.com/api/v3/simple/price"
  const DefaultExchangerateUrl: string := "https://v6.exchangerate-api.com/v6"
  const DefaultFiat: seq<string> := ["EUR", "GBP", "RUB", "JPY", "CNY", "CHF", "CAD", "AUD"]
  const DefaultCrypto: seq<string> := ["BTC", "ETH", "SOL", "BNB", "XRP", "ADA", "DOGE", "DOT"]

  /** `CRYPTO_ID_MAP`, in its insertion order: currency code -> CoinGecko id. */
  const CryptoIdMap: seq<(string, string)> :=
    [("BTC", "bitcoin"), ("ETH", "ethereum"), ("SOL", "solana"), ("BNB", "binancecoin"),
     ("XRP", "ripple"), ("ADA", "cardano"), ("DOGE", "dogecoin"), ("DOT", "polkadot")]

  /** The codes that are keys of an ordered id map. */
  function IdMapCodes(idMap: seq<(string, string)>): set<string> {
    set i | 0 <= i < |idMap| :: idMap[i].0
  }

  /** Python truthiness of an optional string: present and non-empty. */
  predicate Truthy(s: Option<string>) {
    s.Some? && |s.value| > 0
  }

  /** `env or settings or "demo_key"`. */
  function ChooseApiKey(env: Option<string>, fromSettings: Option<string>): (key: string)
    ensures Truthy(env) ==> key == env.value
    ensures !Truthy(env) && Truthy(fromSettings) ==> key == fromSettings.value
    ensures !Truthy(env) && !Truthy(fromSettings) ==> key == DemoKey
    ensures |key| > 0
  {
    if Truthy(env) then env.value
    else if Truthy(fromSettings) then fromSettings.value
    else DemoKey
  }

  /** `os.path.join(directory, name)` for a relative file name. */
  function JoinPath(directory: string, name: string): (path: string)
    ensures EndsWith(path, name)
    ensures |directory| > 0 && directory[|directory| - 1] != '/' ==> path == directory + "/" + name
  {
    if |directory| == 0 then name
    else if directory[|directory| - 1] == '/' then directory + name
    else directory + "/" + name
  }

  class ParserConfig {
    var apiKey: string
    var coingeckoUrl: string
    var exchangerateUrl: string
    var baseCurrency: string
    var fiatCurrencies: seq<string>
    var cryptoCurrencies: seq<string>
    var cryptoIdMap: seq<(string, string)>
    var requestTimeout: int
    var updateIntervalMinutes: int
    var ratesFilePath: string
    var historyFilePath: string

    /**
     * The dataclass defaults followed by `__post_init__`: the API key from the
     * environment, else the settings, else `"demo_key"`; every other setting overrides
     * its default; both data files live in `dataDir`; the id map is fixed.
     */
    constructor (env: Option<string>, settings: ParserSettings, dataDir: string)
      ensures apiKey == ChooseApiKey(env, settings.apiKey)
      ensures coingeckoUrl == settings.coingeckoUrl.GetOr(DefaultCoingeckoUrl)
      ensures exchangerateUrl == settings.exchangerateUrl.GetOr(DefaultExchangerateUrl)
      ensures baseCurrency == settings.baseCurrency.GetOr("USD")
      ensures fiatCurrencies == settings.fiatCurrencies.GetOr(DefaultFiat)
      ensures cryptoCurrencies == settings.cryptoCurrencies.GetOr(DefaultCrypto)
      ensures requestTimeout == settings.requestTimeout.GetOr(10)
      ensures updateIntervalMinutes == settings.updateIntervalMinutes.GetOr(5)
      ensures ratesFilePath == JoinPath(dataDir, "rates.json")
      ensures historyFilePath == JoinPath(dataDir, "exchange_rates.json")
      ensures cryptoIdMap == CryptoIdMap
    {
      apiKey := ChooseApiKey(env, settings.apiKey);
      coingeckoUrl := settings.coingeckoUrl.GetOr(DefaultCoingeckoUrl);
      exchangerateUrl := settings.exchangerateUrl.GetOr(DefaultExchangerateUrl);
      baseCurrency := settings.baseCurrency.GetOr("USD");
      fiatCurrencies := settings.fiatCurrencies.GetOr(DefaultFiat);
      cryptoCurrencies := settings.cryptoCurrencies.GetOr(DefaultCrypto);
      requestTimeout := settings.requestTimeout.GetOr(10);
      updateIntervalMinutes := settings.updateIntervalMinutes.GetOr(5);
      ratesFilePath := JoinPath(dataDir, "rates.json");
      historyFilePath := JoinPath(dataDir, "exchange_rates.json");
      cryptoIdMap := CryptoIdMap;
    }

    /** What `validate` accepts. */
    ghost predicate Acceptable()
      reads this
    {
      && |apiKey| > 0 && apiKey != DemoKey
      && |fiatCurrencies| > 0
      && |cryptoCurrencies| > 0
      && forall i | 0 <= i < |cryptoCurrencies| :: cryptoCurrencies[i] in IdMapCodes(cryptoIdMap)
    }

    /**
     * `validate`: rejects a missing or demo key, an empty fiat or crypto list, and the
     * first crypto code that has no CoinGecko id, in that order.
     */
    method Validate() returns (r: Outcome<Error>)
      ensures r.Pass? <==> Acceptable()
      ensures (|apiKey| == 0 || apiKey == DemoKey) ==> r == Fail(ValueError(MissingApiKey))
      ensures |apiKey| > 0 && apiKey != DemoKey && |fiatCurrencies| == 0 ==> r == Fail(ValueError(EmptyFiatList))
      ensures |apiKey| > 0 && apiKey != DemoKey && |fiatCurrencies| > 0 && |cryptoCurrencies| == 0 ==>
                r == Fail(ValueError(EmptyCryptoList))
      ensures r.Fail? && r.error.ValueError? && r.error.why.UnknownCrypto? ==>
                r.error.why.code in cryptoCurrencies && r.error.why.code !in IdMapCodes(cryptoIdMap)
      ensures |apiKey| > 0 && apiKey != DemoKey && |fiatCurrencies| > 0 ==>
                forall i | 0 <= i < |cryptoCurrencies| && cryptoCurrencies[i] !in IdMapCodes(cryptoIdMap)
                             && (forall j | 0 <= j < i :: cryptoCurrencies[j] in IdMapCodes(cryptoIdMap)) ::
                  r == Fail(ValueError(UnknownCrypto(cryptoCurrencies[i])))
    {
      if |apiKey| == 0 || apiKey == DemoKey {
        return Fail(ValueError(MissingApiKey));
      }
      if |fiatCurrencies| == 0 {
        return Fail(ValueError(EmptyFiatList));
      }
      if |cryptoCurrencies| == 0 {
        return Fail(ValueError(EmptyCryptoList));
      }
      var codes := IdMapCodes(cryptoIdMap);
      for i := 0 to |cryptoCurrencies|
        invariant forall j | 0 <= j < i :: cryptoCurrencies[j] in codes
      {
        if cryptoCurrencies[i] !in codes {
          return Fail(ValueError(UnknownCrypto(cryptoCurrencies[i])));
        }
      }
      return Pass;
    }
  }

  /** With nothing configured, the API key is the demo key, so `validate` rejects the configuration. */
  lemma DemoKeyRejected(c: ParserConfig)
    requires c.apiKey == ChooseApiKey(None, None)
    ensures !c.Acceptable()
  {
  }
}
