/**
 * The currency hierarchy (`Currency`, `FiatCurrency`, `CryptoCurrency`), the checks
 * their constructors make, and the process-wide registry keyed by currency code.
 */
module Currencies {
  import opened Common
  import opened Errors
  import opened Text

  datatype Currency =
    | Fiat(name: string, code: string, issuingCountry: string)
    | Crypto(name: string, code: string, algorithm: string, marketCap: real)

  /** The code check of `Currency.__init__`: 2 to 5 characters, `isupper()`, no space. */
  predicate IsValidCode(code: string) {
    |code| > 0 && 2 <= |code| <= 5 && IsUpperCase(code) && !Contains(code, ' ')
  }

  /** What every constructed currency satisfies. */
  predicate WellFormed(c: Currency) {
    && !IsBlank(c.name)
    && IsValidCode(c.code)
    && (c.Fiat? ==> !IsBlank(c.issuingCountry))
    && (c.Crypto? ==> !IsBlank(c.algorithm) && c.marketCap >= 0.0)
  }

  /** The checks of the base constructor, name first. */
  function CheckNameAndCode(name: string, code: string): (r: Outcome<Error>)
    ensures r.Pass? <==> !IsBlank(name) && IsValidCode(code)
    ensures IsBlank(name) ==> r == Fail(ValueError(BlankCurrencyName))
    ensures !IsBlank(name) && !IsValidCode(code) ==> r == Fail(ValueError(BadCurrencyCode))
  {
    if IsBlank(name) then Fail(ValueError(BlankCurrencyName))
    else if !IsValidCode(code) then Fail(ValueError(BadCurrencyCode))
    else Pass
  }

  /** `FiatCurrency(name, code, issuing_country)`. */
  function NewFiat(name: string, code: string, issuingCountry: string): (r: Result<Currency, Error>)
    ensures r.Ok? <==> !IsBlank(name) && IsValidCode(code) && !IsBlank(issuingCountry)
    ensures r.Ok? ==> r.value == Fiat(name, code, issuingCountry) && WellFormed(r.value)
    ensures CheckNameAndCode(name, code).Fail? ==> r == Err(CheckNameAndCode(name, code).error)
    ensures CheckNameAndCode(name, code).Pass? && IsBlank(issuingCountry) ==>
              r == Err(ValueError(BlankIssuingCountry))
  {
    var base := CheckNameAndCode(name, code);
    if base.Fail? then Err(base.error)
    else if IsBlank(issuingCountry) then Err(ValueError(BlankIssuingCountry))
    else Ok(Fiat(name, code, issuingCountry))
  }

  /** `CryptoCurrency(name, code, algorithm, market_cap)`. */
  function NewCrypto(name: string, code: string, algorithm: string, marketCap: real): (r: Result<Currency, Error>)
    ensures r.Ok? <==> !IsBlank(name) && IsValidCode(code) && !IsBlank(algorithm) && marketCap >= 0.0
    ensures r.Ok? ==> r.value == Crypto(name, code, algorithm, marketCap) && WellFormed(r.value)
    ensures CheckNameAndCode(name, code).Fail? ==> r == Err(CheckNameAndCode(name, code).error)
    ensures CheckNameAndCode(name, code).Pass? && IsBlank(algorithm) ==>
              r == Err(ValueError(BlankAlgorithm))
    ensures CheckNameAndCode(name, code).Pass? && !IsBlank(algorithm) && marketCap < 0.0 ==>
              r == Err(ValueError(NegativeMarketCap))
  {
    var base := CheckNameAndCode(name, code);
    if base.Fail? then Err(base.error)
    else if IsBlank(algorithm) then Err(ValueError(BlankAlgorithm))
    else if marketCap < 0.0 then Err(ValueError(NegativeMarketCap))
    else Ok(Crypto(name, code, algorithm, marketCap))
  }

  /** A valid code has no lower-case letter, so upper-casing it changes nothing. */
  lemma ValidCodeIsUpper(code: string)
    requires IsValidCode(code)
    ensures Upper(code) == code
  {
    UpperOfNoLower(code);
  }

  /** The currencies `_initialize_default_currencies` registers, in its order. */
  function Defaults(): seq<Currency> {
    [ Fiat("US Dollar", "USD", "United States"),
      Fiat("Euro", "EUR", "Eurozone"),
      Fiat("Russian Ruble", "RUB", "Russia"),
      Crypto("Bitcoin", "BTC", "SHA-256", 1120000000000.0),
      Crypto("Ethereum", "ETH", "Ethash", 450000000000.0),
      Crypto("Litecoin", "LTC", "Scrypt", 6500000000.0) ]
  }

  /** A word of two to five upper-case letters is a valid code. */
  lemma UpperWordIsValidCode(code: string)
    requires 2 <= |code| <= 5 && forall i | 0 <= i < |code| :: IsUpperChar(code[i])
    ensures IsValidCode(code)
  {
    assert IsUpperChar(code[0]);
    assert !Contains(code, ' ') && HasNoLower(code);
  }

  /** Every default currency passes its constructor's checks. */
  lemma DefaultsWellFormed()
    ensures forall c | c in Defaults() :: WellFormed(c)
  {
    forall c | c in Defaults() ensures WellFormed(c) {
      UpperWordIsValidCode(c.code);
      assert !IsSpace(c.name[0]);
      if c.Fiat? { assert !IsSpace(c.issuingCountry[0]); }
      if c.Crypto? { assert !IsSpace(c.algorithm[0]); }
    }
  }

  /** The default codes, each once, in order. */
  lemma DefaultCodes()
    ensures |Defaults()| == 6
    ensures forall k :: k in ["USD", "EUR", "RUB", "BTC", "ETH", "LTC"] <==> exists j | 0 <= j < 6 :: Defaults()[j].code == k
    ensures forall a, b | 0 <= a < b < 6 :: Defaults()[a].code != Defaults()[b].code
  {
    var codes := ["USD", "EUR", "RUB", "BTC", "ETH", "LTC"];
    assert forall j | 0 <= j < 6 :: Defaults()[j].code == codes[j];
    assert forall a, b | 0 <= a < b < 6 :: codes[a][0] != codes[b][0] || codes[a][1] != codes[b][1];
  }

  /** The registry, `_currency_registry`: code -> currency. */
  class Registry {
    var entries: map<string, Currency>

    ghost predicate Valid()
      reads this
    {
      forall k | k in entries :: entries[k].code == k && WellFormed(entries[k])
    }

    /** The registry as the module leaves it after `_initialize_default_currencies()`. */
    constructor Default()
      ensures Valid()
      ensures forall k :: k in entries <==> k in ["USD", "EUR", "RUB", "BTC", "ETH", "LTC"]
      ensures forall i | 0 <= i < |Defaults()| :: entries[Defaults()[i].code] == Defaults()[i]
    {
      entries := map[];
      new;
      DefaultsWellFormed();
      DefaultCodes();
      var defaults := Defaults();
      for i := 0 to |defaults|
        invariant Valid()
        invariant forall k :: k in entries <==> exists j | 0 <= j < i :: defaults[j].code == k
        invariant forall j | 0 <= j < i :: entries[defaults[j].code] == defaults[j]
      {
        assert defaults[i] in defaults;
        Register(defaults[i]);
      }
    }

    /** `register_currency`: stores by code, replacing any entry with that code. */
    method Register(c: Currency)
      requires Valid() && WellFormed(c)
      modifies this
      ensures Valid()
      ensures entries == old(entries)[c.code := c]
    {
      entries := entries[c.code := c];
    }

    /** `get_currency`: upper-cases the code and looks it up. */
    function Get(code: string): (r: Result<Currency, Error>)
      reads this
      ensures r.Ok? <==> Upper(code) in entries
      ensures r.Ok? ==> r.value == entries[Upper(code)]
      ensures r.Err? ==> r.error == CurrencyNotFound(Upper(code))
    {
      var key := Upper(code);
      if key in entries then Ok(entries[key]) else Err(CurrencyNotFound(key))
    }

    /** A registered currency is found under its code in either case, and carries that code. */
    lemma GetRegistered(code: string)
      requires Valid() && Get(code).Ok?
      ensures Get(code).value.code == Upper(code)
      ensures WellFormed(Get(code).value)
    {
    }

    /** `get_all_currencies`: a copy of the registry; a map value shares no state with it. */
    function All(): (m: map<string, Currency>)
      reads this
      ensures m.Keys == entries.Keys
      ensures forall k | k in m :: m[k] == entries[k]
    {
      entries
    }
  }
}
