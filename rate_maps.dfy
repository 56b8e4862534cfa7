/**
 * What a provider client hands to the updater: `"FROM_TO"` -> rate, plus the
 * `"_meta"` entry describing where the rates came from.
 */
module RateMaps {
  import opened Common
  import opened Text

  /** The `"meta"` part of a `_make_request` result. */
  datatype RequestMeta = RequestMeta(statusCode: int, requestMs: int, etag: string, url: string)

  /** The `_meta` entry; each key may be absent, as `dict.get` allows. */
  datatype SourceMeta = SourceMeta(
    source: Option<string>,
    rawId: Option<string>,
    requestMeta: Option<RequestMeta>,
    baseCurrency: Option<string>)

  /** `{}`: the meta the updater uses when a map has no `_meta` entry. */
  const NoMeta := SourceMeta(None, None, None, None)

  const MetaKey: string := "_meta"

  /** A client's result: the pair entries and, apart from them, the `_meta` entry. */
  datatype RateMap = RateMap(pairs: map<string, real>, meta: Option<SourceMeta>)
  {
    /** `_meta` is never among the pair entries: the dict has one slot for it. */
    predicate WellFormed() {
      MetaKey !in pairs
    }

    /** `len(rates)` before `_meta` is popped. */
    function Size(): nat {
      |pairs| + if meta.Some? then 1 else 0
    }
  }

  /** `source_meta.get("source", "Unknown")`. */
  function SourceName(meta: SourceMeta): (name: string)
    ensures meta.source.Some? ==> name == meta.source.value
    ensures meta.source.None? ==> name == "Unknown"
  {
    meta.source.GetOr("Unknown")
  }

  /** `{k: v for k, v in rates.items() if not k.startswith("_")}`. */
  function Clean(rates: map<string, real>): (clean: map<string, real>)
    ensures forall k :: k in clean <==> k in rates && !StartsWith(k, "_")
    ensures forall k | k in clean :: clean[k] == rates[k]
  {
    map k | k in rates && !StartsWith(k, "_") :: rates[k]
  }
}
