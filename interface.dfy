/**
 * The selection logic of the command-line interface: which sources `update-rates`
 * asks the updater for, and which snapshot rows `show-rates` lists, in which order.
 * The printing around them is not modelled.
 */
module Interface {
  import opened Common
  import opened Text
  import opened Storage
  import opened Updater

  /**
   * `sources_map.get(source, both)`: a single known client name selects itself; `"all"`
   * and anything unknown select both clients.
   */
  function SourcesFor(selector: string): (sources: seq<string>)
    ensures selector in ClientNames ==> sources == [selector]
    ensures selector !in ClientNames ==> sources == DefaultSources
    ensures |sources| > 0 && forall i | 0 <= i < |sources| :: sources[i] in ClientNames
    ensures forall i, j | 0 <= i < j < |sources| :: sources[i] != sources[j]
  {
    if selector == "coingecko" || selector == "exchangerate" then [selector] else DefaultSources
  }

  /** One listed snapshot pair. */
  datatype Row = Row(pair: string, entry: PairEntry)

  /** What `show-rates` shows: the empty-cache notice, the not-found notice, or a table and its total. */
  datatype RatesView = CacheEmpty | NotFound(currency: string) | Table(rows: seq<Row>, total: int)

  /** The iteration order of the snapshot's `pairs` dictionary: each key exactly once. */
  ghost predicate Listing(order: seq<string>, pairs: map<string, PairEntry>) {
    && (forall i, j | 0 <= i < j < |order| :: order[i] != order[j])
    && (forall k :: k in pairs <==> k in order)
  }

  /** Python truthiness of the optional currency filter. */
  function FilterOf(currency: Option<string>): (cur: Option<string>)
    ensures cur.Some? <==> currency.Some? && |currency.value| > 0
    ensures cur.Some? ==> cur.value == Upper(currency.value)
  {
    if currency.Some? && |currency.value| > 0 then Some(Upper(currency.value)) else None
  }

  /** A key starting with `CUR_` or ending with `_CUR`. */
  predicate Mentions(pair: string, cur: string) {
    StartsWith(pair, cur + "_") || EndsWith(pair, "_" + cur)
  }

  predicate Kept(pair: string, cur: Option<string>) {
    cur.None? || Mentions(pair, cur.value)
  }

  /** The dictionary comprehension of `show-rates`: the kept pairs, in dictionary order. */
  function Select(order: seq<string>, pairs: map<string, PairEntry>, cur: Option<string>): (rows: seq<Row>)
    requires forall k | k in order :: k in pairs
    ensures |rows| <= |order|
    ensures forall r | r in rows :: r.pair in order && r.entry == pairs[r.pair] && Kept(r.pair, cur)
    ensures forall i | 0 <= i < |order| && Kept(order[i], cur) :: Row(order[i], pairs[order[i]]) in rows
    ensures (forall i, j | 0 <= i < j < |order| :: order[i] != order[j]) ==>
              forall i, j | 0 <= i < j < |rows| :: rows[i] != rows[j]
  {
    if |order| == 0 then []
    else
      var k := order[|order| - 1];
      var rest := Select(order[..|order| - 1], pairs, cur);
      assert forall i | 0 <= i < |order| - 1 :: order[..|order| - 1][i] == order[i];
      if Kept(k, cur) then rest + [Row(k, pairs[k])] else rest
  }

  /** Non-increasing by rate. */
  predicate SortedByRate(rows: seq<Row>) {
    forall i, j | 0 <= i < j < |rows| :: rows[i].entry.rate >= rows[j].entry.rate
  }

  /** Places `x` after every row whose rate is at least its own, which keeps equal rates in arrival order. */
  function InsertByRate(sorted: seq<Row>, x: Row): (out: seq<Row>)
    requires SortedByRate(sorted)
    ensures SortedByRate(out)
    ensures multiset(out) == multiset(sorted) + multiset{x}
    ensures |out| == |sorted| + 1
    ensures forall r | r in out :: r in sorted || r == x
  {
    if |sorted| == 0 then [x]
    else
      var last := sorted[|sorted| - 1];
      var init := sorted[..|sorted| - 1];
      assert sorted == init + [last];
      if last.entry.rate >= x.entry.rate then sorted + [x]
      else
        var placed := InsertByRate(init, x);
        assert forall r | r in placed :: r.entry.rate >= last.entry.rate by {
          assert forall r | r in init :: r.entry.rate >= last.entry.rate;
        }
        placed + [last]
  }

  /** `sorted(pairs.items(), key=rate, reverse=True)`: non-increasing, and a permutation of its input. */
  function SortByRate(rows: seq<Row>): (sorted: seq<Row>)
    ensures SortedByRate(sorted)
    ensures multiset(sorted) == multiset(rows)
    ensures |sorted| == |rows|
  {
    if |rows| == 0 then []
    else
      assert rows == rows[..|rows| - 1] + [rows[|rows| - 1]];
      InsertByRate(SortByRate(rows[..|rows| - 1]), rows[|rows| - 1])
  }

  /** How many rows `rows[:top]` keeps when `top` is truthy, and all of them otherwise. */
  function Shown(count: nat, top: Option<int>): (n: nat)
    ensures n <= count
    ensures top.None? || top.value == 0 ==> n == count
    ensures top.Some? && top.value > 0 ==> n == if top.value < count then top.value else count
    ensures top.Some? && top.value < 0 ==> n == if count + top.value > 0 then count + top.value else 0
  {
    if top.None? || top.value == 0 then count
    else if top.value > 0 then (if top.value < count then top.value else count)
    else if count + top.value > 0 then count + top.value
    else 0
  }

  /** `sorted(..., reverse=True)[:top]`: the shown rows, highest rates first. */
  function Ranked(selected: seq<Row>, top: Option<int>): (rows: seq<Row>)
    ensures SortedByRate(rows)
    ensures |rows| == Shown(|selected|, top)
    ensures forall r | r in rows :: r in selected
  {
    var sorted := SortByRate(selected);
    var rows := sorted[..Shown(|sorted|, top)];
    assert forall r | r in rows :: r in multiset(sorted);
    rows
  }

  /** Under a currency filter, nothing is kept exactly when no key of the snapshot names the code. */
  lemma NothingKept(order: seq<string>, pairs: map<string, PairEntry>, cur: Option<string>)
    requires Listing(order, pairs)
    ensures cur.Some? ==> (|Select(order, pairs, cur)| == 0 <==> forall k | k in pairs :: !Mentions(k, cur.value))
  {
    var selected := Select(order, pairs, cur);
    if cur.None? {
    } else if |selected| == 0 {
      forall k | k in pairs ensures !Mentions(k, cur.value) {
        var i :| 0 <= i < |order| && order[i] == k;
        assert Row(order[i], pairs[order[i]]) !in selected;
      }
    } else {
      assert selected[0] in selected;
    }
  }

  /**
   * `show-rates`: the notice for an empty snapshot; with a non-empty currency, only the
   * pairs naming the upper-cased code, or the not-found notice when none does; then the
   * rows by non-increasing rate, cut to `top`, and their count.
   */
  function ShowRates(s: Snapshot, order: seq<string>, currency: Option<string>, top: Option<int>): (view: RatesView)
    requires Listing(order, s.pairs)
    ensures |s.pairs| == 0 <==> view == CacheEmpty
    ensures view.NotFound? <==>
              |s.pairs| > 0 && FilterOf(currency).Some? && forall k | k in s.pairs :: !Mentions(k, FilterOf(currency).value)
    ensures view.NotFound? ==> view.currency == Upper(currency.value)
    ensures view.Table? ==> view.total == |view.rows| && SortedByRate(view.rows)
    ensures view.Table? ==> forall r | r in view.rows ::
              r.pair in s.pairs && r.entry == s.pairs[r.pair] && Kept(r.pair, FilterOf(currency))
  {
    var cur := FilterOf(currency);
    NothingKept(order, s.pairs, cur);
    if |s.pairs| == 0 then CacheEmpty
    else
      var selected := Select(order, s.pairs, cur);
      if cur.Some? && |selected| == 0 then NotFound(cur.value)
      else
        var rows := Ranked(selected, top);
        Table(rows, |rows|)
  }

  /** A kept pair missing from the ranked rows ranks no higher than any row shown. */
  lemma RankedKeepsHighest(selected: seq<Row>, top: Option<int>, x: Row)
    requires x in selected && x !in Ranked(selected, top)
    ensures forall r | r in Ranked(selected, top) :: r.entry.rate >= x.entry.rate
  {
    var sorted := SortByRate(selected);
    var n := Shown(|sorted|, top);
    assert Ranked(selected, top) == sorted[..n];
    assert x in multiset(sorted);
    var j :| 0 <= j < |sorted| && sorted[j] == x;
    assert forall p | 0 <= p < n :: sorted[..n][p] == sorted[p];
  }

  /**
   * Without a usable `top`, the table lists every kept pair of the snapshot exactly
   * once; with a positive `top`, it lists the `top` highest rates (all kept pairs when
   * fewer), and every kept pair left out has a rate no higher than any listed one.
   */
  lemma ShowRatesComplete(s: Snapshot, order: seq<string>, currency: Option<string>, top: Option<int>)
    requires Listing(order, s.pairs)
    ensures var view := ShowRates(s, order, currency, top);
            var kept := Select(order, s.pairs, FilterOf(currency));
            view.Table? ==>
            var rows := view.rows;
            && (top.None? || top.value == 0 ==> multiset(rows) == multiset(kept))
            && (top.Some? && top.value > 0 ==> |rows| == if top.value < |kept| then top.value else |kept|)
            && forall k | k in s.pairs && Kept(k, FilterOf(currency)) && Row(k, s.pairs[k]) !in rows ::
                 forall r | r in rows :: r.entry.rate >= s.pairs[k].rate
  {
    if !ShowRates(s, order, currency, top).Table? {
      return;
    }
    var kept := Select(order, s.pairs, FilterOf(currency));
    var rows := Ranked(kept, top);
    assert ShowRates(s, order, currency, top).rows == rows;
    if top.None? || top.value == 0 {
      var sorted := SortByRate(kept);
      assert rows == sorted[..|sorted|] == sorted;
    }
    forall k | k in s.pairs && Kept(k, FilterOf(currency)) && Row(k, s.pairs[k]) !in rows
      ensures forall r | r in rows :: r.entry.rate >= s.pairs[k].rate
    {
      var i :| 0 <= i < |order| && order[i] == k;
      RankedKeepsHighest(kept, top, Row(k, s.pairs[k]));
    }
  }
}
