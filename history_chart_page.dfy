/** The price-history chart of one domain (pages/HistoryChartPage.tsx): reuse the series
    cached on the saved record, otherwise fetch it and cache it with a patch; and turn each
    point's "Mon YYYY" month into a short axis label. */
module HistoryChartPage {
  import opened Wrappers
  import opened Types
  import opened Text
  import opened Storage
  import opened PortfolioContext

  const NoDomainError: string := "No domain name provided."
  const FetchError: string := "Failed to fetch historical data. Please try again."

  // ---- Chart labels ---------------------------------------------------------------------

  /** `"Jan 2024"` becomes `"Jan '24"`: the first word, a space, then a quote and the last two
      characters of the second word when there is a non-empty one. */
  function ChartLabel(month: string): (r: string)
    ensures var parts := Split(month, ' ');
            |r| > |parts[0]| && r[..|parts[0]| + 1] == parts[0] + " "
            && |r| <= |parts[0]| + 4
            && (|r| > |parts[0]| + 1 ==> r[|parts[0]| + 1] == '\'')
  {
    var parts := Split(month, ' ');
    var year := if |parts| > 1 then parts[1] else "";
    var shortYear := if year != "" then "'" + TakeLast(year, 2) else "";
    parts[0] + " " + shortYear
  }

  /** A month and a year, one space apart, give the month and the year's last two digits. */
  lemma LabelOfMonthYear(m: string, y: string)
    requires ' ' !in m && ' ' !in y && y != ""
    ensures ChartLabel(m + " " + y) == m + " '" + TakeLast(y, 2)
  {
    SplitJoin([m, y], ' ');
    assert Join([m, y], [' ']) == m + " " + y;
  }

  /** A month with no year keeps a trailing space and no year part. */
  lemma LabelWithoutYear(m: string)
    requires ' ' !in m
    ensures ChartLabel(m) == m + " "
  {
    SplitJoin([m], ' ');
  }

  datatype ChartPoint = ChartPoint(caption: string, value: int)

  /** `chartData`: one point per cached point, same order and values; nothing without a series. */
  function ChartData(history: Option<seq<HistoricalDataPoint>>): (r: seq<ChartPoint>)
    ensures history.None? ==> r == []
    ensures history.Some? ==> |r| == |history.value|
    ensures history.Some? ==>
              forall k :: 0 <= k < |r| ==>
                r[k] == ChartPoint(ChartLabel(history.value[k].month), history.value[k].value)
  {
    match history
    case None => []
    case Some(h) => seq(|h|, k requires 0 <= k < |h| => ChartPoint(ChartLabel(h[k].month), h[k].value))
  }

  // ---- Loading the series -----------------------------------------------------------------

  /** A saved record's series is reused whenever it has one, even an empty one. */
  predicate HasCachedHistory(existing: Option<PortfolioItem>) {
    existing.Some? && existing.value.historicalData.Some?
  }

  /** Caching a fetched series on a saved domain makes the next visit a cache hit with that
      series (when the answer carried one); for a domain that is not saved, nothing is cached. */
  lemma FetchedSeriesIsReused(items: seq<PortfolioItem>, name: string, data: Option<seq<HistoricalDataPoint>>)
    ensures name in Names(items) ==>
              Find(UpdateAll(items, name, HistoryPatch(data)), name)
              == Some(Find(items, name).value.(historicalData := data))
    ensures name in Names(items) && data.Some? ==>
              HasCachedHistory(Find(UpdateAll(items, name, HistoryPatch(data)), name))
    ensures name !in Names(items) ==> UpdateAll(items, name, HistoryPatch(data)) == items
  {
    if name in Names(items) {
      CacheHistoryThenFind(items, name, data);
    } else {
      UpdateAbsent(items, name, HistoryPatch(data));
    }
  }

  class ChartView {
    var historyData: Option<seq<HistoricalDataPoint>>
    var isLoading: bool
    var error: Option<string>

    constructor ()
      ensures historyData == None && isLoading && error == None
    {
      historyData := None;
      isLoading := true;
      error := None;
    }

    /** `fetchHistory` for the domain in the route (`""` when missing), given the service's
        answer. Returns whether the service was called. */
    method FetchHistory(domain: string, store: PortfolioStore,
                        answer: Result<Option<seq<HistoricalDataPoint>>, string>)
      returns (fetched: bool)
      modifies this, store, store.backing
      ensures !isLoading
      ensures domain == "" ==>
                !fetched && error == Some(NoDomainError) && historyData == old(historyData)
                && store.items == old(store.items) && store.backing.data == old(store.backing.data)
      ensures domain != "" && HasCachedHistory(Find(old(store.items), domain)) ==>
                !fetched && historyData == Find(old(store.items), domain).value.historicalData
                && error == old(error) && store.items == old(store.items)
                && store.backing.data == old(store.backing.data)
      ensures domain != "" && !HasCachedHistory(Find(old(store.items), domain)) ==>
                fetched
                && (answer.Success? ==>
                      historyData == answer.value && error == old(error)
                      && store.items == UpdateAll(old(store.items), domain, HistoryPatch(answer.value))
                      && store.backing.data == Written(store.backing.available, old(store.backing.data),
                                                       PortfolioKey, store.codec.encode(store.items)))
                && (answer.Failure? ==>
                      historyData == old(historyData) && error == Some(FetchError)
                      && store.items == old(store.items) && store.backing.data == old(store.backing.data))
    {
      if domain == "" {
        error := Some(NoDomainError);
        isLoading := false;
        return false;
      }
      var existing := store.GetValuation(domain);
      if HasCachedHistory(existing) {
        historyData := existing.value.historicalData;
        isLoading := false;
        return false;
      }
      fetched := true;
      match answer {
        case Success(data) =>
          historyData := data;
          store.UpdateValuation(domain, HistoryPatch(data));
        case Failure(_) =>
          error := Some(FetchError);
      }
      isLoading := false;
    }
  }
}
