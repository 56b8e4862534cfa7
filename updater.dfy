/**
 * `RatesUpdater.run_update`: visits the requested sources in order, skips names with
 * no client, and for every source whose fetch returned more than one entry writes the
 * snapshot and then appends the history, tolerating each source's failure on its own.
 * A source's fetch and the outcome of its two writes are given as an `Attempt`.
 */
module Updater {
  import opened Common
  import opened Errors
  import opened Text
  import opened RateMaps
  import opened Storage

  /** The names `self.clients` has a client for. */
  const ClientNames: set<string> := {"coingecko", "exchangerate"}

  /** The sources used when none are given. */
  const DefaultSources: seq<string> := ["coingecko", "exchangerate"]

  /**
   * What happens while one source is processed: the fetch (a rate map or the
   * exception it raised), and the clock and write outcome of the snapshot save and of
   * the history save.
   */
  datatype Attempt = Attempt(
    fetched: Result<RateMap, Error>,
    snapshotAt: Instant,
    snapshotWriteOk: bool,
    historyAt: Instant,
    historyWriteOk: bool)

  /** The result dictionary, without its clock readings. */
  datatype UpdateResults = UpdateResults(successful: seq<string>, failed: seq<string>, totalRates: int)

  /** `rates and len(rates) > 1`: the fetch returned something worth saving. */
  predicate Usable(a: Attempt) {
    a.fetched.Ok? && a.fetched.value.Size() > 1
  }

  /** The snapshot save ran and wrote the file. */
  predicate SnapshotSaved(a: Attempt) {
    Usable(a) && a.snapshotWriteOk
  }

  /** The history save ran too and wrote the file: the source counts as successful. */
  predicate Succeeded(a: Attempt) {
    && SnapshotSaved(a)
    && (forall k | k in Clean(a.fetched.value.pairs) :: Contains(k, '_'))
    && a.historyWriteOk
  }

  /** The `_meta` entry the updater passes to the store, `{}` when there is none. */
  function MetaOf(a: Attempt): SourceMeta
    requires a.fetched.Ok?
  {
    a.fetched.value.meta.GetOr(NoMeta)
  }

  /** The results after one more source: unknown names are skipped, known ones are listed once. */
  function Record(prev: UpdateResults, name: string, a: Attempt): UpdateResults {
    if name !in ClientNames then prev
    else if Succeeded(a) then
      UpdateResults(prev.successful + [name], prev.failed, prev.totalRates + |a.fetched.value.pairs|)
    else UpdateResults(prev.successful, prev.failed + [name], prev.totalRates)
  }

  /** The snapshot file after one more source: a saved snapshot replaces the one before. */
  function SnapshotAfter(prev: SnapshotFile, name: string, a: Attempt): SnapshotFile {
    if name in ClientNames && SnapshotSaved(a) then
      SnapshotWritten(SnapshotOf(a.fetched.value.pairs, MetaOf(a), a.snapshotAt))
    else prev
  }

  /** The result lists and total after the given sources, built one source at a time. */
  function Tally(sources: seq<string>, attempts: seq<Attempt>): UpdateResults
    requires |attempts| == |sources|
  {
    if |sources| == 0 then UpdateResults([], [], 0)
    else
      var n := |sources| - 1;
      Record(Tally(sources[..n], attempts[..n]), sources[n], attempts[n])
  }

  /** The snapshot file after the given sources. */
  function FinalSnapshot(sources: seq<string>, attempts: seq<Attempt>, initial: SnapshotFile): SnapshotFile
    requires |attempts| == |sources|
  {
    if |sources| == 0 then initial
    else
      var n := |sources| - 1;
      SnapshotAfter(FinalSnapshot(sources[..n], attempts[..n], initial), sources[n], attempts[n])
  }

  /** How many of the given sources have a client. */
  function KnownCount(sources: seq<string>): nat {
    if |sources| == 0 then 0
    else KnownCount(sources[..|sources| - 1]) + if sources[|sources| - 1] in ClientNames then 1 else 0
  }

  /** How many records the given sources append to the ledger. */
  function Growth(sources: seq<string>, attempts: seq<Attempt>): nat
    requires |attempts| == |sources|
  {
    if |sources| == 0 then 0
    else
      var n := |sources| - 1;
      var a := attempts[n];
      Growth(sources[..n], attempts[..n]) +
        if sources[n] in ClientNames && Succeeded(a) then |Clean(a.fetched.value.pairs)| else 0
  }

  /** Some source appended to the ledger. */
  predicate AnyHistorySaved(sources: seq<string>, attempts: seq<Attempt>)
    requires |attempts| == |sources|
  {
    exists i | 0 <= i < |sources| :: sources[i] in ClientNames && Succeeded(attempts[i])
  }

  /** The records one source appends: the batch of its clean pairs in `order`, if it succeeded. */
  ghost function BatchOf(name: string, a: Attempt, order: seq<string>): seq<HistoricalRecord> {
    if name in ClientNames && Succeeded(a) && BatchOrder(order, Clean(a.fetched.value.pairs))
    then Batch(order, Clean(a.fetched.value.pairs), MetaOf(a), a.historyAt)
    else []
  }

  /**
   * The records the given sources append to the ledger, in request order: for each
   * successful source, the batch of its clean pairs in the order `orders` gives for it.
   */
  ghost function Appended(sources: seq<string>, attempts: seq<Attempt>, orders: seq<seq<string>>)
    : seq<HistoricalRecord>
    requires |attempts| == |sources| && |orders| == |sources|
  {
    AppendedFirst(sources, attempts, orders, |sources|)
  }

  /** The records the first `n` sources append. */
  ghost function AppendedFirst(sources: seq<string>, attempts: seq<Attempt>, orders: seq<seq<string>>, n: nat)
    : seq<HistoricalRecord>
    requires |attempts| == |sources| && n <= |sources| && n <= |orders|
  {
    if n == 0 then []
    else AppendedFirst(sources, attempts, orders, n - 1) + BatchOf(sources[n - 1], attempts[n - 1], orders[n - 1])
  }

  /** Each successful source among the first `|orders|` is given an order that visits its clean pairs. */
  ghost predicate OrdersFit(sources: seq<string>, attempts: seq<Attempt>, orders: seq<seq<string>>)
    requires |attempts| == |sources| && |orders| <= |sources|
  {
    forall j | 0 <= j < |orders| && sources[j] in ClientNames && Succeeded(attempts[j]) ::
      BatchOrder(orders[j], Clean(attempts[j].fetched.value.pairs))
  }

  /** The ledger after all the sources: the initial records, then `Growth` records more. */
  lemma LedgerDone(sources: seq<string>, attempts: seq<Attempt>, orders: seq<seq<string>>,
                   initial: seq<HistoricalRecord>, final: seq<HistoricalRecord>)
    requires |attempts| == |sources| && |orders| == |sources|
    requires OrdersFit(sources, attempts, orders)
    requires final == initial + AppendedFirst(sources, attempts, orders, |sources|)
    ensures final == initial + Appended(sources, attempts, orders)
    ensures initial <= final
    ensures |final| == |initial| + Growth(sources, attempts)
  {
    AppendedFirstLength(sources, attempts, orders, |sources|);
    assert sources[..|sources|] == sources && attempts[..|sources|] == attempts;
  }

  /** A fitting order for the next source extends fitting orders for the sources before it. */
  lemma OrdersFitStep(sources: seq<string>, attempts: seq<Attempt>, orders: seq<seq<string>>, order: seq<string>)
    requires |attempts| == |sources| && |orders| < |sources|
    requires OrdersFit(sources, attempts, orders)
    requires sources[|orders|] in ClientNames && Succeeded(attempts[|orders|]) ==>
               BatchOrder(order, Clean(attempts[|orders|].fetched.value.pairs))
    ensures OrdersFit(sources, attempts, orders + [order])
  {
    var extended := orders + [order];
    forall j | 0 <= j < |extended| && sources[j] in ClientNames && Succeeded(attempts[j])
      ensures BatchOrder(extended[j], Clean(attempts[j].fetched.value.pairs))
    {
      if j < |orders| {
        assert extended[j] == orders[j];
      } else {
        assert extended[j] == order;
      }
    }
  }

  /** The records of the first `n` sources depend only on the first `n` orders. */
  lemma {:induction false} AppendedFirstExtend(sources: seq<string>, attempts: seq<Attempt>, orders: seq<seq<string>>,
                                               order: seq<string>, n: nat)
    requires |attempts| == |sources| && n <= |sources| && n <= |orders|
    ensures AppendedFirst(sources, attempts, orders + [order], n) == AppendedFirst(sources, attempts, orders, n)
  {
    if n > 0 {
      AppendedFirstExtend(sources, attempts, orders, order, n - 1);
      assert (orders + [order])[n - 1] == orders[n - 1];
    }
  }

  /** A ledger that grew by `batch` after growing by `appended` grew by their concatenation. */
  lemma ChainStep(initial: seq<HistoricalRecord>, appended: seq<HistoricalRecord>, batch: seq<HistoricalRecord>,
                  before: seq<HistoricalRecord>, after: seq<HistoricalRecord>)
    requires before == initial + appended && after == before + batch
    ensures after == initial + (appended + batch)
  {
  }

  /**
   * A ledger that holds the records of the first sources and then grows by the next
   * source's batch holds the records of one more source.
   */
  lemma LedgerStep(sources: seq<string>, attempts: seq<Attempt>, orders: seq<seq<string>>, order: seq<string>,
                   initial: seq<HistoricalRecord>, before: seq<HistoricalRecord>, after: seq<HistoricalRecord>)
    requires |attempts| == |sources| && |orders| < |sources|
    requires before == initial + AppendedFirst(sources, attempts, orders, |orders|)
    requires after == before + BatchOf(sources[|orders|], attempts[|orders|], order)
    ensures after == initial + AppendedFirst(sources, attempts, orders + [order], |orders| + 1)
  {
    var i := |orders|;
    AppendedFirstExtend(sources, attempts, orders, order, i);
    assert (orders + [order])[i] == order;
    ChainStep(initial, AppendedFirst(sources, attempts, orders, i), BatchOf(sources[i], attempts[i], order), before, after);
  }

  /** Each successful source among the first `n` appends one record per clean pair: `Growth` records in all. */
  lemma {:induction false} AppendedFirstLength(sources: seq<string>, attempts: seq<Attempt>, orders: seq<seq<string>>, n: nat)
    requires |attempts| == |sources| && |orders| <= |sources| && n <= |orders|
    requires OrdersFit(sources, attempts, orders)
    ensures |AppendedFirst(sources, attempts, orders, n)| == Growth(sources[..n], attempts[..n])
  {
    if n > 0 {
      var k := n - 1;
      AppendedFirstLength(sources, attempts, orders, k);
      assert sources[k] in ClientNames && Succeeded(attempts[k]) ==>
               BatchOrder(orders[k], Clean(attempts[k].fetched.value.pairs));
      BatchOfLength(sources[k], attempts[k], orders[k]);
      PrefixStep(sources, attempts, k, NoSnapshotFile);
    }
  }

  /** A successful source appends one record per clean pair, in the order given; any other appends nothing. */
  lemma BatchOfLength(name: string, a: Attempt, order: seq<string>)
    requires name in ClientNames && Succeeded(a) ==> BatchOrder(order, Clean(a.fetched.value.pairs))
    ensures name in ClientNames && Succeeded(a) ==>
              BatchOf(name, a, order) == Batch(order, Clean(a.fetched.value.pairs), MetaOf(a), a.historyAt)
    ensures |BatchOf(name, a, order)| == if name in ClientNames && Succeeded(a) then |Clean(a.fetched.value.pairs)| else 0
  {
    if name in ClientNames && Succeeded(a) {
      DistinctCardinality(order, Clean(a.fetched.value.pairs).Keys);
    }
  }

  /** Extending a prefix of the sources by one source extends each summary by that source's step. */
  lemma PrefixStep(sources: seq<string>, attempts: seq<Attempt>, i: nat, initial: SnapshotFile)
    requires |attempts| == |sources| && i < |sources|
    ensures Tally(sources[..i + 1], attempts[..i + 1]) == Record(Tally(sources[..i], attempts[..i]), sources[i], attempts[i])
    ensures FinalSnapshot(sources[..i + 1], attempts[..i + 1], initial)
              == SnapshotAfter(FinalSnapshot(sources[..i], attempts[..i], initial), sources[i], attempts[i])
    ensures Growth(sources[..i + 1], attempts[..i + 1]) == Growth(sources[..i], attempts[..i]) +
              if sources[i] in ClientNames && Succeeded(attempts[i]) then |Clean(attempts[i].fetched.value.pairs)| else 0
    ensures AnyHistorySaved(sources[..i + 1], attempts[..i + 1]) <==>
              AnyHistorySaved(sources[..i], attempts[..i]) || (sources[i] in ClientNames && Succeeded(attempts[i]))
  {
    assert sources[..i + 1][..i] == sources[..i] && attempts[..i + 1][..i] == attempts[..i];
    assert forall p | 0 <= p < i :: sources[..i + 1][p] == sources[..i][p] && attempts[..i + 1][p] == attempts[..i][p];
  }

  /** The results of a prefix of the sources are a prefix of the final results: lists keep request order. */
  lemma {:induction false} TallyPrefix(sources: seq<string>, attempts: seq<Attempt>, m: nat)
    requires |attempts| == |sources| && m <= |sources|
    ensures Tally(sources[..m], attempts[..m]).successful <= Tally(sources, attempts).successful
    ensures Tally(sources[..m], attempts[..m]).failed <= Tally(sources, attempts).failed
    decreases |sources|
  {
    if m < |sources| {
      var n := |sources| - 1;
      assert sources[..n][..m] == sources[..m] && attempts[..n][..m] == attempts[..m];
      TallyPrefix(sources[..n], attempts[..n], m);
    } else {
      assert sources[..m] == sources && attempts[..m] == attempts;
    }
  }

  /** Every known name lands in exactly one list and unknown names in neither. */
  lemma {:induction false} TallyPartition(sources: seq<string>, attempts: seq<Attempt>)
    requires |attempts| == |sources|
    ensures |Tally(sources, attempts).successful| + |Tally(sources, attempts).failed| == KnownCount(sources)
    ensures forall s | s in Tally(sources, attempts).successful :: s in sources && s in ClientNames
    ensures forall s | s in Tally(sources, attempts).failed :: s in sources && s in ClientNames
  {
    if |sources| > 0 {
      var n := |sources| - 1;
      TallyPartition(sources[..n], attempts[..n]);
      assert forall s | s in sources[..n] :: s in sources;
    }
  }

  /** Each successful source adds at least one pair, so the total is zero exactly when none succeeded. */
  lemma {:induction false} TallyTotal(sources: seq<string>, attempts: seq<Attempt>)
    requires |attempts| == |sources|
    ensures Tally(sources, attempts).totalRates >= |Tally(sources, attempts).successful|
    ensures Tally(sources, attempts).totalRates == 0 <==> Tally(sources, attempts).successful == []
  {
    if |sources| > 0 {
      var n := |sources| - 1;
      TallyTotal(sources[..n], attempts[..n]);
    }
  }

  /**
   * With distinct names, a known source is listed as successful exactly when its own
   * attempt succeeded, and as failed otherwise, whatever happened to the other sources.
   */
  lemma {:induction false} TallyOutcome(sources: seq<string>, attempts: seq<Attempt>, i: nat)
    requires |attempts| == |sources| && i < |sources|
    requires forall p, q | 0 <= p < q < |sources| :: sources[p] != sources[q]
    requires sources[i] in ClientNames
    ensures sources[i] in Tally(sources, attempts).successful <==> Succeeded(attempts[i])
    ensures sources[i] in Tally(sources, attempts).failed <==> !Succeeded(attempts[i])
  {
    var n := |sources| - 1;
    TallyPartition(sources[..n], attempts[..n]);
    if i < n {
      assert sources[..n][i] == sources[i] && attempts[..n][i] == attempts[i];
      TallyOutcome(sources[..n], attempts[..n], i);
    } else {
      assert forall p | 0 <= p < n :: sources[..n][p] != sources[n];
      assert sources[n] !in sources[..n];
    }
  }

  /** The snapshot left behind is the one saved by the last source that saved one. */
  lemma {:induction false} LastSnapshotWins(sources: seq<string>, attempts: seq<Attempt>, initial: SnapshotFile, j: nat)
    requires |attempts| == |sources| && j < |sources|
    requires sources[j] in ClientNames && SnapshotSaved(attempts[j])
    requires forall i | j < i < |sources| :: !(sources[i] in ClientNames && SnapshotSaved(attempts[i]))
    ensures FinalSnapshot(sources, attempts, initial) ==
              SnapshotWritten(SnapshotOf(attempts[j].fetched.value.pairs, MetaOf(attempts[j]), attempts[j].snapshotAt))
  {
    var n := |sources| - 1;
    if j < n {
      assert forall i | j < i < n :: sources[..n][i] == sources[i] && attempts[..n][i] == attempts[i];
      LastSnapshotWins(sources[..n], attempts[..n], initial, j);
    }
  }

  /**
   * A source whose snapshot was written but whose history append failed is reported
   * as failed, yet the snapshot it wrote stays in place.
   */
  lemma HistoryFailureKeepsSnapshot(name: string, a: Attempt, initial: SnapshotFile)
    requires name in ClientNames && SnapshotSaved(a) && !Succeeded(a)
    ensures Tally([name], [a]) == UpdateResults([], [name], 0)
    ensures FinalSnapshot([name], [a], initial) ==
              SnapshotWritten(SnapshotOf(a.fetched.value.pairs, MetaOf(a), a.snapshotAt))
  {
    assert [name][..0] == [] && [a][..0] == [];
  }

  class RatesUpdater {
    const storage: RatesStorage

    constructor (storage: RatesStorage)
      ensures this.storage == storage
    {
      this.storage := storage;
    }

    /** One pass of the loop of `run_update`; every exception of the source is caught. */
    method ProcessSource(prev: UpdateResults, name: string, a: Attempt)
      returns (results: UpdateResults, ghost order: seq<string>)
      modifies storage
      ensures results == Record(prev, name, a)
      ensures storage.snapshotFile == SnapshotAfter(old(storage.snapshotFile), name, a)
      ensures name in ClientNames && Succeeded(a) ==> BatchOrder(order, Clean(a.fetched.value.pairs))
      ensures storage.LoadLedger() == old(storage.LoadLedger()) + BatchOf(name, a, order)
      ensures !(name in ClientNames && Succeeded(a)) ==> storage.ledgerFile == old(storage.ledgerFile)
    {
      order := [];
      if name !in ClientNames {
        return prev, order;
      }
      if a.fetched.Err? || a.fetched.value.Size() <= 1 {
        assert !Succeeded(a);
        return UpdateResults(prev.successful, prev.failed + [name], prev.totalRates), order;
      }
      var rates := a.fetched.value.pairs;
      var meta := a.fetched.value.meta.GetOr(NoMeta);
      var saved := storage.SaveCurrentRates(rates, meta, a.snapshotAt, a.snapshotWriteOk);
      if saved.Fail? {
        assert !Succeeded(a);
        return UpdateResults(prev.successful, prev.failed + [name], prev.totalRates), order;
      }
      ghost var ledger := storage.LoadLedger();
      assert ledger == old(storage.LoadLedger());
      var appended;
      appended, order := storage.SaveHistoricalRecord(rates, meta, a.historyAt, a.historyWriteOk);
      if appended.Fail? {
        assert !Succeeded(a);
        return UpdateResults(prev.successful, prev.failed + [name], prev.totalRates), order;
      }
      assert Succeeded(a) && BatchOrder(order, Clean(rates));
      assert storage.LoadLedger() == ledger + BatchOf(name, a, order);
      return UpdateResults(prev.successful + [name], prev.failed, prev.totalRates + |rates|), order;
    }

    /**
     * What the loop of `run_update` has done after the first `|orders|` sources, starting
     * from the given files: the results are their tally, the snapshot the last one saved,
     * the ledger the initial records followed by their batches, and the ledger file is left
     * alone while none of them appended.
     */
    ghost predicate RunSoFar(names: seq<string>, attempts: seq<Attempt>, results: UpdateResults, orders: seq<seq<string>>,
                             initialSnapshot: SnapshotFile, initialLedger: LedgerFile, initialRecords: seq<HistoricalRecord>)
      requires |attempts| == |names| && |orders| <= |names|
      reads storage
    {
      var i := |orders|;
      && results == Tally(names[..i], attempts[..i])
      && storage.snapshotFile == FinalSnapshot(names[..i], attempts[..i], initialSnapshot)
      && (!AnyHistorySaved(names[..i], attempts[..i]) ==> storage.ledgerFile == initialLedger)
      && OrdersFit(names, attempts, orders)
      && storage.LoadLedger() == initialRecords + AppendedFirst(names, attempts, orders, i)
    }

    /** One pass of the loop of `run_update`, carrying `RunSoFar` from one source to the next. */
    method Advance(names: seq<string>, attempts: seq<Attempt>, i: nat, prev: UpdateResults, ghost orders: seq<seq<string>>,
                   ghost initialSnapshot: SnapshotFile, ghost initialLedger: LedgerFile, ghost initialRecords: seq<HistoricalRecord>)
      returns (results: UpdateResults, ghost order: seq<string>)
      requires |attempts| == |names| && i < |names| && |orders| == i
      requires RunSoFar(names, attempts, prev, orders, initialSnapshot, initialLedger, initialRecords)
      modifies storage
      ensures RunSoFar(names, attempts, results, orders + [order], initialSnapshot, initialLedger, initialRecords)
    {
      PrefixStep(names, attempts, i, initialSnapshot);
      ghost var before := storage.LoadLedger();
      results, order := ProcessSource(prev, names[i], attempts[i]);
      LedgerStep(names, attempts, orders, order, initialRecords, before, storage.LoadLedger());
      OrdersFitStep(names, attempts, orders, order);
    }

    /**
     * `run_update`: the results are the tally of the requested sources (the default
     * pair when none are given); the snapshot is the last one saved; the ledger keeps
     * what it loaded as a prefix, followed by the batch of every successful source in
     * request order, each batch one record per clean pair of that source, and is left
     * alone when no source appended. `orders` gives the order the store visited each
     * source's pairs in.
     */
    method RunUpdate(sources: Option<seq<string>>, attempts: seq<Attempt>)
      returns (results: UpdateResults, ghost orders: seq<seq<string>>)
      requires |attempts| == |sources.GetOr(DefaultSources)|
      modifies storage
      ensures results == Tally(sources.GetOr(DefaultSources), attempts)
      ensures storage.snapshotFile == FinalSnapshot(sources.GetOr(DefaultSources), attempts, old(storage.snapshotFile))
      ensures old(storage.LoadLedger()) <= storage.LoadLedger()
      ensures |storage.LoadLedger()| == |old(storage.LoadLedger())| + Growth(sources.GetOr(DefaultSources), attempts)
      ensures !AnyHistorySaved(sources.GetOr(DefaultSources), attempts) ==> storage.ledgerFile == old(storage.ledgerFile)
      ensures |orders| == |attempts|
      ensures OrdersFit(sources.GetOr(DefaultSources), attempts, orders)
      ensures storage.LoadLedger() == old(storage.LoadLedger()) + Appended(sources.GetOr(DefaultSources), attempts, orders)
    {
      var names := sources.GetOr(DefaultSources);
      results := UpdateResults([], [], 0);
      orders := [];
      for i := 0 to |names|
        invariant |orders| == i
        invariant RunSoFar(names, attempts, results, orders, old(storage.snapshotFile), old(storage.ledgerFile), old(storage.LoadLedger()))
      {
        ghost var order;
        results, order := Advance(names, attempts, i, results, orders, old(storage.snapshotFile), old(storage.ledgerFile), old(storage.LoadLedger()));
        orders := orders + [order];
      }
      assert names[..|names|] == names && attempts[..|names|] == attempts;
      LedgerDone(names, attempts, orders, old(storage.LoadLedger()), storage.LoadLedger());
    }
  }
}
