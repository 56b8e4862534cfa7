/**
 * Helpers of the core package: amount conversion over a rate table, the next user
 * id, code validation against the registry and the decimal places an amount is shown with.
 */
module Utils {
  import opened Common
  import opened Errors
  import opened Text
  import Currencies

  /**
   * `convert_amount(amount, from, to, rates)`, where `rates` maps a pair key to the
   * `"rate"` field of its entry: identity, else the direct pair, else through USD.
   */
  function ConvertAmount(amount: real, from: string, to: string, rates: map<string, real>): (r: Result<real, Error>)
    ensures from == to ==> r == Ok(amount)
    ensures from != to && PairKey(from, to) in rates ==> r == Ok(amount * rates[PairKey(from, to)])
    ensures from != to && PairKey(from, to) !in rates ==>
              (r.Ok? <==> PairKey(from, "USD") in rates && PairKey("USD", to) in rates)
    ensures from != to && PairKey(from, to) !in rates && r.Ok? ==>
              r.value == amount * rates[PairKey(from, "USD")] * rates[PairKey("USD", to)]
    ensures r.Err? ==> r.error == ConversionFailed(from, to)
  {
    if from == to then Ok(amount)
    else if PairKey(from, to) in rates then Ok(amount * rates[PairKey(from, to)])
    else if PairKey(from, "USD") in rates && PairKey("USD", to) in rates then
      Ok(amount * rates[PairKey(from, "USD")] * rates[PairKey("USD", to)])
    else Err(ConversionFailed(from, to))
  }

  /** A direct pair wins over the route through USD even when both are present. */
  lemma DirectPairPreferred(amount: real, from: string, to: string, rates: map<string, real>)
    requires from != to && PairKey(from, to) in rates
    requires PairKey(from, "USD") in rates && PairKey("USD", to) in rates
    requires rates[PairKey(from, to)] != rates[PairKey(from, "USD")] * rates[PairKey("USD", to)]
    requires amount != 0.0
    ensures ConvertAmount(amount, from, to, rates).value
            != amount * rates[PairKey(from, "USD")] * rates[PairKey("USD", to)]
  {
    var direct := rates[PairKey(from, to)];
    var routed := rates[PairKey(from, "USD")] * rates[PairKey("USD", to)];
    assert amount * direct - amount * routed == amount * (direct - routed);
  }

  /** The greatest of a non-empty sequence of ids. */
  function MaxId(ids: seq<int>): (m: int)
    requires |ids| > 0
    ensures forall i | 0 <= i < |ids| :: ids[i] <= m
    ensures exists i | 0 <= i < |ids| :: ids[i] == m
  {
    if |ids| == 1 then ids[0]
    else
      var rest := MaxId(ids[1..]);
      assert forall i | 1 <= i < |ids| :: ids[i] == ids[1..][i - 1];
      if ids[0] >= rest then ids[0] else rest
  }

  /**
   * `get_next_user_id` over the stored users' ids (a record without `user_id` counts
   * as 0): 1 for no users, else one more than the largest id.
   */
  function NextUserId(ids: seq<int>): (next: int)
    ensures |ids| == 0 ==> next == 1
    ensures forall i | 0 <= i < |ids| :: ids[i] < next
    ensures |ids| > 0 ==> exists i | 0 <= i < |ids| :: next == ids[i] + 1
  {
    if |ids| == 0 then 1 else MaxId(ids) + 1
  }

  /** `validate_currency_code`: true exactly when the upper-cased code is registered. */
  function ValidateCurrencyCode(registry: Currencies.Registry, code: string): (ok: bool)
    reads registry
    ensures ok <==> Upper(code) in registry.entries
  {
    UpperIdempotent(code);
    registry.Get(Upper(code)).Ok?
  }

  /** The crypto codes `format_currency_amount` shows with more precision. */
  const PreciseCodes: seq<string> := ["BTC", "ETH", "LTC"]

  /** The number of decimals `format_currency_amount` uses: 6 for BTC, ETH, LTC, 2 otherwise. */
  function AmountDecimals(code: string): (places: nat)
    ensures places == 6 <==> code in PreciseCodes
    ensures places == 2 <==> code !in PreciseCodes
  {
    if code in PreciseCodes then 6 else 2
  }
}
