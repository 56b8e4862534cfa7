/**
 * The domain objects: `User` (credentials), `Wallet` (one balance) and `Portfolio`
 * (a user's wallets keyed by currency code). Each is a class whose methods update
 * its fields in place, as the originals do.
 */
module Models {
  import opened Common
  import opened Errors
  import opened Text
  import Currencies

  /** A user. The password hash (SHA-256 of password and salt) is an opaque function. */
  class User {
    const userId: int
    var username: string
    var hashedPassword: string
    var salt: string
    const registrationDate: Instant
    const hash: (string, string) -> string

    constructor (userId: int, username: string, hashedPassword: string, salt: string,
                 registrationDate: Instant, hash: (string, string) -> string)
      ensures this.userId == userId && this.username == username
      ensures this.hashedPassword == hashedPassword && this.salt == salt
      ensures this.registrationDate == registrationDate && this.hash == hash
    {
      this.userId := userId;
      this.username := username;
      this.hashedPassword := hashedPassword;
      this.salt := salt;
      this.registrationDate := registrationDate;
      this.hash := hash;
    }

    /** The `username` setter: a blank name is rejected and the old one kept. */
    method SetUsername(value: string) returns (r: Outcome<Error>)
      modifies this`username
      ensures IsBlank(value) ==> r == Fail(ValueError(BlankUsername)) && username == old(username)
      ensures !IsBlank(value) ==> r == Pass && username == value
    {
      if IsBlank(value) {
        return Fail(ValueError(BlankUsername));
      }
      username := value;
      return Pass;
    }

    /** `verify_password`: hashing the candidate with the stored salt gives the stored hash. */
    function VerifyPassword(password: string): (ok: bool)
      reads this
      ensures ok <==> hash(password, salt) == hashedPassword
    {
      hash(password, salt) == hashedPassword
    }

    /**
     * `change_password`: passwords shorter than 4 characters are rejected; otherwise the
     * new salt (a random token, here a parameter) and the new hash replace the old ones,
     * after which the new password verifies.
     */
    method ChangePassword(newPassword: string, newSalt: string) returns (r: Outcome<Error>)
      modifies this`hashedPassword, this`salt
      ensures |newPassword| < 4 ==> r == Fail(ValueError(ShortPassword))
      ensures |newPassword| < 4 ==> hashedPassword == old(hashedPassword) && salt == old(salt)
      ensures |newPassword| >= 4 ==> r == Pass && salt == newSalt
      ensures r.Pass? ==> VerifyPassword(newPassword)
    {
      if |newPassword| < 4 {
        return Fail(ValueError(ShortPassword));
      }
      hashedPassword := hash(newPassword, newSalt);
      salt := newSalt;
      return Pass;
    }
  }

  /** One currency balance. The constructor takes any balance; the setter keeps it non-negative. */
  class Wallet {
    const currencyCode: string
    var balance: real

    constructor (currencyCode: string, balance: real)
      ensures this.currencyCode == currencyCode && this.balance == balance
    {
      this.currencyCode := currencyCode;
      this.balance := balance;
    }

    /** The `balance` setter: a negative value is rejected and the balance kept. */
    method SetBalance(value: real) returns (r: Outcome<Error>)
      modifies this`balance
      ensures value < 0.0 ==> r == Fail(ValueError(NegativeBalance)) && balance == old(balance)
      ensures value >= 0.0 ==> r == Pass && balance == value
    {
      if value < 0.0 {
        return Fail(ValueError(NegativeBalance));
      }
      balance := value;
      return Pass;
    }

    /**
     * `deposit`: rejects a non-positive amount, otherwise sets the balance to
     * balance + amount through the setter.
     */
    method Deposit(amount: real) returns (r: Outcome<Error>)
      modifies this`balance
      ensures amount <= 0.0 ==> r == Fail(ValueError(NonPositiveAmount))
      ensures amount > 0.0 && old(balance) + amount < 0.0 ==> r == Fail(ValueError(NegativeBalance))
      ensures r.Pass? <==> amount > 0.0 && old(balance) + amount >= 0.0
      ensures r.Pass? ==> balance == old(balance) + amount
      ensures r.Fail? ==> balance == old(balance)
      ensures old(balance) >= 0.0 && amount > 0.0 ==> r.Pass?
    {
      if amount <= 0.0 {
        return Fail(ValueError(NonPositiveAmount));
      }
      r := SetBalance(balance + amount);
    }

    /**
     * `withdraw`: rejects a non-positive amount, raises `InsufficientFundsError` when the
     * amount exceeds the balance, and otherwise subtracts it.
     */
    method Withdraw(amount: real) returns (r: Outcome<Error>)
      modifies this`balance
      ensures amount <= 0.0 ==> r == Fail(ValueError(NonPositiveAmount))
      ensures amount > 0.0 && amount > old(balance) ==>
                r == Fail(InsufficientFunds(currencyCode, old(balance), amount))
      ensures r.Pass? <==> 0.0 < amount <= old(balance)
      ensures r.Pass? ==> balance == old(balance) - amount && balance >= 0.0
      ensures r.Fail? ==> balance == old(balance)
    {
      if amount <= 0.0 {
        return Fail(ValueError(NonPositiveAmount));
      }
      if amount > balance {
        return Fail(InsufficientFunds(currencyCode, balance, amount));
      }
      r := SetBalance(balance - amount);
    }
  }

  /** The fixed table `get_total_value` converts with. */
  const ValuationRates: map<string, real> :=
    map["EUR_USD" := 1.07, "BTC_USD" := 59337.21, "ETH_USD" := 3720.00,
        "RUB_USD" := 0.01016, "LTC_USD" := 85.50]

  /**
   * What one wallet adds to `get_total_value(base)`: its balance in the base currency,
   * else through the direct rate, else through USD and a USD->base rate, else nothing.
   */
  function WalletValue(code: string, balance: real, base: string): real {
    if code == base then balance
    else if PairKey(code, base) in ValuationRates then balance * ValuationRates[PairKey(code, base)]
    else if PairKey(code, "USD") in ValuationRates && base != "USD"
            && PairKey("USD", base) in ValuationRates then
      balance * ValuationRates[PairKey(code, "USD")] * ValuationRates[PairKey("USD", base)]
    else 0.0
  }

  /** The sum of `WalletValue` over a map of balances, in any order. */
  ghost function TotalValue(balances: map<string, real>, base: string): real
    decreases |balances|
  {
    if balances == map[] then 0.0
    else
      var c :| c in balances;
      WalletValue(c, balances[c], base) + TotalValue(balances - {c}, base)
  }

  /** The total does not depend on which wallet is taken first. */
  lemma {:induction false} TotalValueRemove(balances: map<string, real>, c: string, base: string)
    requires c in balances
    ensures TotalValue(balances, base) == WalletValue(c, balances[c], base) + TotalValue(balances - {c}, base)
    decreases |balances|
  {
    var d :| d in balances && TotalValue(balances, base) ==
      WalletValue(d, balances[d], base) + TotalValue(balances - {d}, base);
    if d != c {
      var rest := balances - {d};
      TotalValueRemove(rest, c, base);
      TotalValueRemove(balances - {c}, d, base);
      assert rest - {c} == balances - {c} - {d};
    }
  }

  /** Every key of the valuation table is some code followed by `"_USD"`. */
  lemma ValuationKeyShape(key: string)
    ensures key in ValuationRates ==> |key| == 7 && key[3] == '_' && key[4..] == "USD"
    ensures key in ValuationRates ==> forall j | 0 <= j < |key| && j != 3 :: key[j] != '_'
  {
  }

  /** With a base other than USD, no table entry is keyed by `CODE_BASE` or `USD_BASE`. */
  lemma NoRateIntoOtherBase(code: string, base: string)
    requires base != "USD"
    ensures PairKey(code, base) !in ValuationRates
    ensures PairKey("USD", base) !in ValuationRates
  {
    var direct := PairKey(code, base);
    ValuationKeyShape(direct);
    assert direct[|code|] == '_' && direct[|code| + 1..] == base;
    var viaUsd := PairKey("USD", base);
    ValuationKeyShape(viaUsd);
    assert viaUsd[4..] == base;
  }

  /**
   * With a base other than USD, only the wallet held in the base currency counts: the
   * table holds no rate into any other currency, so every other wallet adds 0.
   */
  lemma {:induction false} TotalInOtherBase(balances: map<string, real>, base: string)
    requires base != "USD"
    ensures TotalValue(balances, base) == if base in balances then balances[base] else 0.0
    decreases |balances|
  {
    if balances != map[] {
      var c :| c in balances;
      TotalValueRemove(balances, c, base);
      TotalInOtherBase(balances - {c}, base);
      if c != base {
        NoRateIntoOtherBase(c, base);
      }
    }
  }

  /** The balances held in a map of wallets. */
  ghost function BalancesOf(wallets: map<string, Wallet>): map<string, real>
    reads wallets.Values
  {
    map c | c in wallets :: wallets[c].balance
  }

  /** Taking one wallet out of the map takes its balance out of the balances. */
  lemma BalancesOfRemove(wallets: map<string, Wallet>, c: string)
    requires c in wallets
    ensures c in BalancesOf(wallets) && BalancesOf(wallets)[c] == wallets[c].balance
    ensures BalancesOf(wallets) - {c} == BalancesOf(wallets - {c})
  {
  }

  /** A user's wallets, keyed by the code each wallet holds. */
  class Portfolio {
    const userId: int
    var wallets: map<string, Wallet>

    ghost predicate Valid()
      reads this
    {
      forall c | c in wallets :: wallets[c].currencyCode == c
    }

    /** The abstract value: code -> balance. */
    ghost function Balances(): map<string, real>
      reads this, wallets.Values
    {
      BalancesOf(wallets)
    }

    constructor (userId: int, wallets: map<string, Wallet>)
      requires forall c | c in wallets :: wallets[c].currencyCode == c
      ensures Valid() && this.userId == userId && this.wallets == wallets
    {
      this.userId := userId;
      this.wallets := wallets;
    }

    /** The `wallets` property: a shallow copy, sharing the wallet objects. */
    function Wallets(): (m: map<string, Wallet>)
      reads this
      ensures m.Keys == wallets.Keys
      ensures forall c | c in m :: m[c] == wallets[c]
    {
      wallets
    }

    /** `get_wallet`: the wallet under the upper-cased code, if any. */
    function GetWallet(code: string): (w: Option<Wallet>)
      reads this
      ensures w.Some? <==> Upper(code) in wallets
      ensures w.Some? ==> w.value == wallets[Upper(code)]
    {
      var key := Upper(code);
      if key in wallets then Some(wallets[key]) else None
    }

    /**
     * `add_currency`: upper-cases and validates the code against the registry, adds a
     * zero-balance wallet only when none exists, and returns the wallet under that code.
     */
    method AddCurrency(code: string, registry: Currencies.Registry) returns (r: Result<Wallet, Error>)
      requires Valid()
      modifies this`wallets
      ensures Valid()
      ensures registry.Get(Upper(code)).Err? ==>
                r == Err(CurrencyNotFound(Upper(code))) && wallets == old(wallets)
      ensures registry.Get(Upper(code)).Ok? ==> r.Ok? && Upper(code) in wallets && r.value == wallets[Upper(code)]
      ensures Upper(code) in old(wallets) ==> wallets == old(wallets)
      ensures Upper(code) !in old(wallets) && r.Ok? ==>
                fresh(r.value) && r.value.balance == 0.0 && r.value.currencyCode == Upper(code)
                && wallets == old(wallets)[Upper(code) := r.value]
    {
      var key := Upper(code);
      UpperIdempotent(code);
      var found := registry.Get(key);
      if found.Err? {
        return Err(found.error);
      }
      if key !in wallets {
        var w := new Wallet(key, 0.0);
        wallets := wallets[key := w];
      }
      return Ok(wallets[key]);
    }

    /** `get_total_value(base)`: the sum over all wallets of what each is worth in `base`. */
    method GetTotalValue(base: string) returns (total: real)
      requires Valid()
      ensures total == TotalValue(Balances(), base)
    {
      total := 0.0;
      var remaining := wallets;
      while remaining != map[]
        invariant remaining.Keys <= wallets.Keys
        invariant forall c | c in remaining :: remaining[c] == wallets[c]
        invariant total + TotalValue(BalancesOf(remaining), base) == TotalValue(Balances(), base)
        decreases |remaining|
      {
        var c :| c in remaining;
        var w := remaining[c];
        BalancesOfRemove(remaining, c);
        TotalValueRemove(BalancesOf(remaining), c, base);
        total := total + WalletValue(w.currencyCode, w.balance, base);
        remaining := remaining - {c};
      }
    }
  }
}
