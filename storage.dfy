/**
 * `RatesStorage`: the snapshot of current pairs (`rates.json`), replaced wholesale by
 * every save, and the append-only ledger of historical records
 * (`exchange_rates.json`), extended by saves and pruned by age. Each file is a field;
 * a write goes to a temporary file that is renamed over the target, so it either
 * replaces the whole file or leaves it as it was (`writeOk` says which happens).
 */
module Storage {
  import opened Common
  import opened Errors
  import opened Text
  import opened RateMaps

  /** One entry of the snapshot's `"pairs"`. */
  datatype PairEntry = PairEntry(rate: real, updatedAt: Instant, source: string)

  /** The snapshot document; `source` is absent from the empty fallback. */
  datatype Snapshot = Snapshot(pairs: map<string, PairEntry>, lastRefresh: Option<Instant>, source: Option<string>)

  /** `{"pairs": {}, "last_refresh": None}`. */
  const EmptySnapshot := Snapshot(map[], None, None)

  /** The snapshot a snapshot file holds: the written one, else the empty one. */
  function SnapshotIn(f: SnapshotFile): Snapshot {
    match f
    case SnapshotWritten(snapshot) => snapshot
    case _ => EmptySnapshot
  }

  datatype SnapshotFile = NoSnapshotFile | CorruptSnapshotFile | SnapshotWritten(snapshot: Snapshot)

  /** The `"meta"` of a historical record, with the defaults `dict.get` supplies. */
  datatype RecordMeta = RecordMeta(rawId: string, requestMs: int, statusCode: int, etag: string, baseCurrency: string)

  /**
   * A record id: the digest of `"PAIR_" + time formatted to the second`. The model
   * keeps the digested input itself.
   */
  datatype RecordId = RecordId(pair: string, second: int)

  datatype HistoricalRecord = HistoricalRecord(
    id: RecordId,
    fromCurrency: string,
    toCurrency: string,
    rate: real,
    timestamp: Instant,
    source: string,
    meta: RecordMeta)

  datatype LedgerFile = NoLedgerFile | CorruptLedgerFile | LedgerWritten(records: seq<HistoricalRecord>)

  /** The whole second `strftime("%Y-%m-%dT%H:%M:%SZ")` shows for an instant (floor division). */
  function SecondOf(t: Instant): int {
    t / MicrosPerSecond
  }

  /** `_generate_record_id`: a function of the pair and the instant truncated to the second. */
  function GenerateRecordId(pair: string, t: Instant): (id: RecordId)
    ensures id.pair == pair
    ensures id.second * MicrosPerSecond <= t < (id.second + 1) * MicrosPerSecond
  {
    RecordId(pair, SecondOf(t))
  }

  /**
   * Two instants within the same whole second give a pair the same id, whatever their
   * microseconds: records of one pair saved twice in a second share an id.
   */
  lemma SameSecondSameId(pair: string, second: int, t1: Instant, t2: Instant)
    requires second * MicrosPerSecond <= t1 < (second + 1) * MicrosPerSecond
    requires second * MicrosPerSecond <= t2 < (second + 1) * MicrosPerSecond
    ensures GenerateRecordId(pair, t1) == GenerateRecordId(pair, t2) == RecordId(pair, second)
  {
    var id1 := GenerateRecordId(pair, t1);
    var id2 := GenerateRecordId(pair, t2);
    assert id1.second == second;
    assert id2.second == second;
  }

  /** The record meta a save takes from the source meta. */
  function RecordMetaOf(meta: SourceMeta): (m: RecordMeta)
    ensures m.rawId == meta.rawId.GetOr("")
    ensures m.baseCurrency == meta.baseCurrency.GetOr("")
    ensures meta.requestMeta.None? ==> m.requestMs == 0 && m.statusCode == 0 && m.etag == ""
    ensures meta.requestMeta.Some? ==>
              m.requestMs == meta.requestMeta.value.requestMs && m.statusCode == meta.requestMeta.value.statusCode
              && m.etag == meta.requestMeta.value.etag
  {
    match meta.requestMeta
    case None => RecordMeta(meta.rawId.GetOr(""), 0, 0, "", meta.baseCurrency.GetOr(""))
    case Some(rm) => RecordMeta(meta.rawId.GetOr(""), rm.requestMs, rm.statusCode, rm.etag, meta.baseCurrency.GetOr(""))
  }

  /** The record one clean pair adds to the ledger; `None` when the key has no `'_'` (IndexError). */
  function MakeRecord(pair: string, rate: real, meta: SourceMeta, now: Instant): (r: Option<HistoricalRecord>)
    ensures r.None? <==> !Contains(pair, '_')
    ensures r.Some? ==> r.value.id == GenerateRecordId(pair, now) && r.value.rate == rate
    ensures r.Some? ==> (r.value.fromCurrency, r.value.toCurrency) == SplitPair(pair).value
    ensures r.Some? ==> r.value.timestamp == now && r.value.source == SourceName(meta)
    ensures r.Some? ==> r.value.meta == RecordMetaOf(meta)
  {
    match SplitPair(pair)
    case None => None
    case Some((from, to)) =>
      Some(HistoricalRecord(GenerateRecordId(pair, now), from, to, rate, now, SourceName(meta), RecordMetaOf(meta)))
  }

  /** A pair of underscore-free codes is recorded with those two codes. */
  lemma RecordOfPairKey(from: string, to: string, rate: real, meta: SourceMeta, now: Instant)
    requires !Contains(from, '_') && !Contains(to, '_')
    ensures MakeRecord(PairKey(from, to), rate, meta, now).Some?
    ensures MakeRecord(PairKey(from, to), rate, meta, now).value.fromCurrency == from
    ensures MakeRecord(PairKey(from, to), rate, meta, now).value.toCurrency == to
  {
    SplitPairKey(from, to);
  }

  /** The records whose timestamp is strictly after `cutoff`, in their original order. */
  function KeepAfter(records: seq<HistoricalRecord>, cutoff: Instant): (kept: seq<HistoricalRecord>)
    ensures |kept| <= |records|
    ensures forall r | r in kept :: r in records && r.timestamp > cutoff
    ensures forall r | r in records && r.timestamp > cutoff :: r in kept
  {
    if |records| == 0 then []
    else
      var rest := KeepAfter(records[1..], cutoff);
      if records[0].timestamp > cutoff then [records[0]] + rest else rest
  }

  /** Pruning distributes over concatenation, so it keeps the ledger's order. */
  lemma {:induction false} KeepAfterAppend(a: seq<HistoricalRecord>, b: seq<HistoricalRecord>, cutoff: Instant)
    ensures KeepAfter(a + b, cutoff) == KeepAfter(a, cutoff) + KeepAfter(b, cutoff)
  {
    if |a| > 0 {
      assert (a + b)[0] == a[0] && (a + b)[1..] == a[1..] + b;
      KeepAfterAppend(a[1..], b, cutoff);
      if a[0].timestamp > cutoff {
        assert [a[0]] + (KeepAfter(a[1..], cutoff) + KeepAfter(b, cutoff))
            == ([a[0]] + KeepAfter(a[1..], cutoff)) + KeepAfter(b, cutoff);
      }
    } else {
      assert a + b == b;
    }
  }

  /** Nothing is pruned exactly when no record is at or before the cutoff. */
  lemma {:induction false} KeepAfterAll(records: seq<HistoricalRecord>, cutoff: Instant)
    ensures |KeepAfter(records, cutoff)| == |records| <==> forall r | r in records :: r.timestamp > cutoff
    ensures |KeepAfter(records, cutoff)| == |records| ==> KeepAfter(records, cutoff) == records
  {
    if |records| > 0 {
      var rest := records[1..];
      KeepAfterAll(rest, cutoff);
      assert records == [records[0]] + rest;
      assert forall r | r in rest :: r in records;
      if records[0].timestamp > cutoff {
        assert KeepAfter(records, cutoff) == [records[0]] + KeepAfter(rest, cutoff);
        assert forall r | r in records :: r == records[0] || r in rest;
      } else {
        assert records[0] in records;
      }
    }
  }

  /** Pruning twice with the same cutoff removes nothing more. */
  lemma KeepAfterIdempotent(records: seq<HistoricalRecord>, cutoff: Instant)
    ensures KeepAfter(KeepAfter(records, cutoff), cutoff) == KeepAfter(records, cutoff)
  {
    KeepAfterAll(KeepAfter(records, cutoff), cutoff);
  }

  /** The age limit of `cleanup_old_records` in microseconds. */
  function Cutoff(now: Instant, maxAgeDays: int): (cutoff: Instant)
    ensures maxAgeDays >= 0 ==> cutoff <= now
    ensures cutoff + maxAgeDays * SecondsPerDay * MicrosPerSecond == now
  {
    now - maxAgeDays * SecondsPerDay * MicrosPerSecond
  }

  /**
   * The snapshot a save writes: exactly the keys not starting with `_`, each with its
   * rate, all stamped with the one save time that is also `last_refresh`, and all
   * carrying the meta's source (`"Unknown"` when absent).
   */
  function SnapshotOf(rates: map<string, real>, meta: SourceMeta, now: Instant): (s: Snapshot)
    ensures s.pairs.Keys == Clean(rates).Keys
    ensures forall k | k in s.pairs :: s.pairs[k] == PairEntry(rates[k], now, SourceName(meta))
    ensures forall k | k in s.pairs :: s.pairs[k].updatedAt == now && s.lastRefresh == Some(now)
    ensures s.source == Some(SourceName(meta))
  {
    Snapshot(map k | k in Clean(rates) :: PairEntry(rates[k], now, SourceName(meta)), Some(now), Some(SourceName(meta)))
  }

  /** A sequence without repeated elements. */
  predicate Distinct(s: seq<string>) {
    forall i, j | 0 <= i < j < |s| :: s[i] != s[j]
  }

  /** A sequence without repeats has as many elements as its set. */
  lemma {:induction false} DistinctCardinality(s: seq<string>, keys: set<string>)
    requires Distinct(s) && forall k :: k in s <==> k in keys
    ensures |keys| == |s|
  {
    assert (set x | x in s) == keys;
    DistinctElements(s);
  }

  lemma {:induction false} DistinctElements(s: seq<string>)
    requires Distinct(s)
    ensures |set x | x in s| == |s|
  {
    if |s| > 0 {
      var init := s[..|s| - 1];
      assert Distinct(init);
      DistinctElements(init);
      assert (set x | x in s) == (set x | x in init) + {s[|s| - 1]};
      assert s[|s| - 1] !in init;
    }
  }

  /** `order` visits every key of `clean` exactly once, and each key holds a `'_'`. */
  ghost predicate BatchOrder(order: seq<string>, clean: map<string, real>) {
    && Distinct(order)
    && (forall k :: k in order <==> k in clean)
    && (forall i | 0 <= i < |order| :: order[i] in clean && Contains(order[i], '_'))
  }

  /** The records of a batch, one per key of `order`, in that order. */
  function Batch(order: seq<string>, clean: map<string, real>, meta: SourceMeta, now: Instant)
    : (records: seq<HistoricalRecord>)
    requires forall i | 0 <= i < |order| :: order[i] in clean && Contains(order[i], '_')
    ensures |records| == |order|
    ensures forall i | 0 <= i < |order| :: Some(records[i]) == MakeRecord(order[i], clean[order[i]], meta, now)
  {
    seq(|order|, i requires 0 <= i < |order| => MakeRecord(order[i], clean[order[i]], meta, now).value)
  }

  /** Recording one more key appends its record to the batch. */
  lemma BatchAppend(order: seq<string>, pair: string, clean: map<string, real>, meta: SourceMeta, now: Instant)
    requires forall i | 0 <= i < |order| :: order[i] in clean && Contains(order[i], '_')
    requires pair in clean && Contains(pair, '_')
    ensures Batch(order + [pair], clean, meta, now) == Batch(order, clean, meta, now) + [MakeRecord(pair, clean[pair], meta, now).value]
  {
    var extended := order + [pair];
    assert forall i | 0 <= i < |order| :: extended[i] == order[i];
  }

  class RatesStorage {
    var snapshotFile: SnapshotFile
    var ledgerFile: LedgerFile

    constructor (snapshotFile: SnapshotFile, ledgerFile: LedgerFile)
      ensures this.snapshotFile == snapshotFile && this.ledgerFile == ledgerFile
    {
      this.snapshotFile := snapshotFile;
      this.ledgerFile := ledgerFile;
    }

    /** `get_current_rates`: the stored snapshot, or the empty one when the file is missing or corrupt. */
    function GetCurrentRates(): (s: Snapshot)
      reads this
      ensures snapshotFile.SnapshotWritten? ==> s == snapshotFile.snapshot
      ensures !snapshotFile.SnapshotWritten? ==> s == EmptySnapshot
    {
      SnapshotIn(snapshotFile)
    }

    /** `_load_historical_data`: the stored records, or `[]` when the file is missing or corrupt. */
    function LoadLedger(): (records: seq<HistoricalRecord>)
      reads this
      ensures ledgerFile.LedgerWritten? ==> records == ledgerFile.records
      ensures !ledgerFile.LedgerWritten? ==> records == []
    {
      match ledgerFile
      case LedgerWritten(records) => records
      case _ => []
    }

    /** The loop of `save_current_rates` filling `pairs_data` from the clean rates. */
    method BuildPairs(rates: map<string, real>, source: string, now: Instant) returns (pairs: map<string, PairEntry>)
      ensures pairs.Keys == Clean(rates).Keys
      ensures forall k | k in pairs :: pairs[k] == PairEntry(rates[k], now, source)
    {
      var clean := Clean(rates);
      pairs := map[];
      var remaining := clean;
      while remaining != map[]
        invariant remaining.Keys <= clean.Keys
        invariant pairs.Keys == clean.Keys - remaining.Keys
        invariant forall k | k in pairs :: pairs[k] == PairEntry(rates[k], now, source)
        invariant forall k | k in remaining :: remaining[k] == rates[k]
        decreases |remaining|
      {
        var pair :| pair in remaining;
        pairs := pairs[pair := PairEntry(remaining[pair], now, source)];
        remaining := remaining - {pair};
      }
    }

    /**
     * `save_current_rates`: an empty map changes nothing. Otherwise the snapshot is
     * replaced by one holding exactly the keys not starting with `_`, each with its
     * rate, one shared timestamp equal to `last_refresh`, and the meta's source; a
     * failed write raises `RuntimeError` and leaves the old snapshot.
     */
    method SaveCurrentRates(rates: map<string, real>, meta: SourceMeta, now: Instant, writeOk: bool)
      returns (r: Outcome<Error>)
      modifies this`snapshotFile
      ensures |rates| == 0 ==> r == Pass && snapshotFile == old(snapshotFile)
      ensures |rates| > 0 && !writeOk ==> r == Fail(RuntimeError(RatesFile)) && snapshotFile == old(snapshotFile)
      ensures |rates| > 0 && writeOk ==> r == Pass && snapshotFile == SnapshotWritten(SnapshotOf(rates, meta, now))
    {
      if |rates| == 0 {
        return Pass;
      }
      var pairs := BuildPairs(rates, SourceName(meta), now);
      if !writeOk {
        return Fail(RuntimeError(RatesFile));
      }
      ghost var expected := SnapshotOf(rates, meta, now);
      assert pairs.Keys == expected.pairs.Keys;
      assert pairs == expected.pairs;
      var source := SourceName(meta);
      snapshotFile := SnapshotWritten(Snapshot(pairs, Some(now), Some(source)));
      return Pass;
    }

    /**
     * The loop of `save_historical_record`: one record per clean key, in the map's
     * iteration order, or `IndexError` for a key without `'_'`.
     */
    method BuildRecords(clean: map<string, real>, meta: SourceMeta, now: Instant)
      returns (records: Result<seq<HistoricalRecord>, Error>, ghost order: seq<string>)
      ensures records.Err? <==> exists k | k in clean :: !Contains(k, '_')
      ensures records.Err? ==> records.error == IndexError
      ensures records.Ok? ==>
                && Distinct(order)
                && (forall k :: k in order <==> k in clean)
                && |order| == |clean|
                && (forall i | 0 <= i < |order| :: order[i] in clean && Contains(order[i], '_'))
                && records.value == Batch(order, clean, meta, now)
    {
      order := [];
      var batch: seq<HistoricalRecord> := [];
      var remaining := clean;
      while remaining != map[]
        invariant remaining.Keys <= clean.Keys
        invariant forall k | k in remaining :: remaining[k] == clean[k]
        invariant Distinct(order)
        invariant forall k :: k in order <==> k in clean && k !in remaining
        invariant forall i | 0 <= i < |order| :: order[i] in clean && Contains(order[i], '_')
        invariant batch == Batch(order, clean, meta, now)
        decreases |remaining|
      {
        var pair :| pair in remaining;
        var record := MakeRecord(pair, remaining[pair], meta, now);
        if record.None? {
          return Err(IndexError), order;
        }
        BatchAppend(order, pair, clean, meta, now);
        batch := batch + [record.value];
        order := order + [pair];
        remaining := remaining - {pair};
      }
      DistinctCardinality(order, clean.Keys);
      return Ok(batch), order;
    }

    /**
     * `save_historical_record`: an empty map changes nothing. Otherwise one record per
     * key not starting with `_` is appended after the loaded ledger (a missing or
     * corrupt ledger loads as empty), and the whole list is written back. A key
     * without `'_'` raises `IndexError` before the write; a failed write raises
     * `RuntimeError`; either way the ledger file is left as it was.
     */
    method SaveHistoricalRecord(rates: map<string, real>, meta: SourceMeta, now: Instant, writeOk: bool)
      returns (r: Outcome<Error>, ghost order: seq<string>)
      modifies this`ledgerFile
      ensures |rates| == 0 ==> r == Pass && ledgerFile == old(ledgerFile)
      ensures |rates| > 0 && (exists k | k in Clean(rates) :: !Contains(k, '_')) ==>
                r == Fail(IndexError) && ledgerFile == old(ledgerFile)
      ensures |rates| > 0 && (forall k | k in Clean(rates) :: Contains(k, '_')) && !writeOk ==>
                r == Fail(RuntimeError(HistoryFile)) && ledgerFile == old(ledgerFile)
      ensures |rates| > 0 && (forall k | k in Clean(rates) :: Contains(k, '_')) && writeOk ==>
                r == Pass && ledgerFile.LedgerWritten?
      ensures r.Pass? && |rates| > 0 ==>
                && Distinct(order)
                && (forall k :: k in order <==> k in Clean(rates))
                && |order| == |Clean(rates)|
                && (forall i | 0 <= i < |order| :: order[i] in Clean(rates) && Contains(order[i], '_'))
                && LoadLedger() == old(LoadLedger()) + Batch(order, Clean(rates), meta, now)
    {
      order := [];
      if |rates| == 0 {
        return Pass, order;
      }
      var clean := Clean(rates);
      var historical := LoadLedger();
      var records;
      records, order := BuildRecords(clean, meta, now);
      if records.Err? {
        return Fail(records.error), order;
      }
      if !writeOk {
        return Fail(RuntimeError(HistoryFile)), order;
      }
      ledgerFile := LedgerWritten(historical + records.value);
      return Pass, order;
    }

    /**
     * `cleanup_old_records`: keeps exactly the records stamped strictly after
     * `now - max_age_days` days, in order; rewrites the ledger only when something was
     * removed and returns how many were; 0 for an empty ledger. A failed rewrite
     * raises `RuntimeError` and leaves the ledger.
     */
    method CleanupOldRecords(maxAgeDays: int, now: Instant, writeOk: bool) returns (r: Result<int, Error>)
      modifies this`ledgerFile
      ensures var kept := KeepAfter(old(LoadLedger()), Cutoff(now, maxAgeDays));
              && (|kept| == |old(LoadLedger())| ==> r == Ok(0) && ledgerFile == old(ledgerFile))
              && (|kept| < |old(LoadLedger())| && writeOk ==>
                    r == Ok(|old(LoadLedger())| - |kept|) && ledgerFile == LedgerWritten(kept))
              && (|kept| < |old(LoadLedger())| && !writeOk ==>
                    r == Err(RuntimeError(HistoryFile)) && ledgerFile == old(ledgerFile))
    {
      var data := LoadLedger();
      if |data| == 0 {
        return Ok(0);
      }
      var filtered := KeepAfter(data, Cutoff(now, maxAgeDays));
      if |filtered| < |data| {
        if !writeOk {
          return Err(RuntimeError(HistoryFile));
        }
        ledgerFile := LedgerWritten(filtered);
        return Ok(|data| - |filtered|);
      }
      return Ok(0);
    }
  }
}
