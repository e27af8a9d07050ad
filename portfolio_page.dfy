/** The portfolio screen (pages/PortfolioPage.tsx): a selection of domains for download or
    comparison, the rule deciding which saved items must be re-appraised first, the CSV
    report, and the guards in front of the download and compare actions. */
module PortfolioPage {
  import opened Wrappers
  import opened Types
  import opened Text
  import opened Seqs
  import opened Storage
  import opened PortfolioContext
  import opened ToastContext
  import ResultsPage

  const DeletedMessage: string := "Domain deleted"
  const NothingSelectedMessage: string := "Please select at least one item to download."
  const NothingToDownloadMessage: string := "No items to download."
  const DownloadFailedMessage: string := "An error occurred while fetching detailed data for the report."
  const TooFewToCompareMessage: string := "Please select at least two items to compare."
  const CompareFailedMessage: string := "An error occurred while preparing data for comparison."

  datatype DownloadKind = AllItems | SelectedItems

  /** The items a download works on: the whole portfolio, or the selected ones in portfolio order. */
  function ItemsToProcess(portfolio: seq<PortfolioItem>, kind: DownloadKind, sel: seq<string>): (r: seq<PortfolioItem>)
    ensures kind == AllItems ==> r == portfolio
    ensures kind == SelectedItems ==> forall it :: it in r <==> it in portfolio && it.domainName in sel
    ensures |r| <= |portfolio|
  {
    if kind == AllItems then portfolio else Filter(portfolio, (it: PortfolioItem) => it.domainName in sel)
  }

  /** The selected items keep their portfolio order across any split of the portfolio. */
  lemma SelectedItemsAppend(a: seq<PortfolioItem>, b: seq<PortfolioItem>, sel: seq<string>)
    ensures ItemsToProcess(a + b, SelectedItems, sel)
            == ItemsToProcess(a, SelectedItems, sel) + ItemsToProcess(b, SelectedItems, sel)
  {
    FilterAppend(a, b, (it: PortfolioItem) => it.domainName in sel);
  }

  /** The test for a record without projections: both the three- and six-month projections
      are zero. Every item added from a batch passes it (`BatchItemsNeedFetching`), and so does
      a full appraisal that happens to project zero. Such an item is re-appraised before use. */
  predicate NeedsFetching(item: PortfolioItem) {
    item.futureProjections.threeMonth == 0 && item.futureProjections.sixMonth == 0
  }

  /** A portfolio item read as a detailed valuation (its extra fields are ignored). */
  function AsDetailed(item: PortfolioItem): DetailedValuation {
    DetailedValuation(item.domainName, item.currentValue, item.futureProjections,
                      item.coreInfluencers, item.growthPotential)
  }

  /** Items freshly added from a batch always need fetching. */
  lemma BatchItemsNeedFetching(v: Valuation, now: int)
    ensures NeedsFetching(NewItem(v, now))
  {
  }

  /** One item's detailed data: the item itself, or the service's answer for its domain.
      Only a fetch can fail, and an item used as it is keeps its name and figures. */
  function Resolved(item: PortfolioItem, fetch: string -> Result<DetailedValuation, string>): (r: Result<DetailedValuation, string>)
    ensures r.Failure? ==> NeedsFetching(item) && fetch(item.domainName).Failure?
    ensures !NeedsFetching(item) ==>
              r.Success? && r.value.domainName == item.domainName && r.value.currentValue == item.currentValue
              && r.value.futureProjections == item.futureProjections
  {
    if NeedsFetching(item) then fetch(item.domainName) else Success(AsDetailed(item))
  }

  /** `Promise.all` over the items: all answers in item order, or a failure when any fetch fails. */
  function ResolveAll(items: seq<PortfolioItem>, fetch: string -> Result<DetailedValuation, string>): (r: Result<seq<DetailedValuation>, string>)
    ensures r.Success? <==> forall k :: 0 <= k < |items| ==> Resolved(items[k], fetch).Success?
    ensures r.Success? ==> |r.value| == |items|
                           && forall k :: 0 <= k < |items| ==> r.value[k] == Resolved(items[k], fetch).value
  {
    if items == [] then Success([])
    else
      var init := items[..|items| - 1];
      match ResolveAll(init, fetch)
      case Failure(e) => Failure(e)
      case Success(xs) =>
        match Resolved(items[|items| - 1], fetch)
        case Failure(e) => Failure(e)
        case Success(d) => Success(xs + [d])
  }

  /** `Promise.all` over one more item: the earlier failure, else this item's failure, else
      its answer appended. */
  lemma ResolveAllStep(items: seq<PortfolioItem>, i: nat, fetch: string -> Result<DetailedValuation, string>)
    requires i < |items|
    ensures var before := ResolveAll(items[..i], fetch);
            var answer := Resolved(items[i], fetch);
            ResolveAll(items[..i + 1], fetch)
            == if before.Failure? then before
               else if answer.Failure? then Failure(answer.error)
               else Success(before.value + [answer.value])
  {
    assert items[..i + 1][..i] == items[..i];
    assert items[..i + 1][i] == items[i];
  }

  /** With nothing to fetch, the answers are the items themselves. */
  lemma NothingToFetch(items: seq<PortfolioItem>, fetch: string -> Result<DetailedValuation, string>)
    requires forall k :: 0 <= k < |items| ==> !NeedsFetching(items[k])
    ensures ResolveAll(items, fetch) == Success(seq(|items|, k requires 0 <= k < |items| => AsDetailed(items[k])))
  {
    var r := ResolveAll(items, fetch);
    var s := seq(|items|, k requires 0 <= k < |items| => AsDetailed(items[k]));
    assert r.Success?;
    assert r.value == s;
  }

  /** An item whose re-appraisal succeeds: its answer is upserted and the portfolio written. */
  predicate Upserts(item: PortfolioItem, fetch: string -> Result<DetailedValuation, string>) {
    NeedsFetching(item) && fetch(item.domainName).Success?
  }

  /** Some item is upserted, so the portfolio is written at least once. */
  predicate SomeUpsert(items: seq<PortfolioItem>, fetch: string -> Result<DetailedValuation, string>) {
    exists k :: 0 <= k < |items| && Upserts(items[k], fetch)
  }

  lemma SomeUpsertStep(items: seq<PortfolioItem>, i: nat, fetch: string -> Result<DetailedValuation, string>)
    requires i < |items|
    ensures SomeUpsert(items[..i + 1], fetch) <==> SomeUpsert(items[..i], fetch) || Upserts(items[i], fetch)
  {
    var pre := items[..i];
    var ext := items[..i + 1];
    assert ext[i] == items[i];
    if SomeUpsert(ext, fetch) && !Upserts(items[i], fetch) {
      var k :| 0 <= k < |ext| && Upserts(ext[k], fetch);
      assert k < i && pre[k] == ext[k];
    }
    if SomeUpsert(pre, fetch) {
      var k :| 0 <= k < |pre| && Upserts(pre[k], fetch);
      assert ext[k] == pre[k];
    }
  }

  /** The portfolio after every successful fetch has been upserted, in item order: it only
      grows, by at most one entry per item, and stays as it was when nothing is upserted. */
  function UpsertFetched(prev: seq<PortfolioItem>, items: seq<PortfolioItem>, fetch: string -> Result<DetailedValuation, string>, now: int): (r: seq<PortfolioItem>)
    ensures |prev| <= |r| <= |prev| + |items|
    ensures !SomeUpsert(items, fetch) ==> r == prev
  {
    if items == [] then prev
    else
      var init := items[..|items| - 1];
      var p := UpsertFetched(prev, init, fetch, now);
      var last := items[|items| - 1];
      SomeUpsertStep(items, |items| - 1, fetch);
      assert items[..|items|] == items;
      if Upserts(last, fetch) then Upsert(p, fetch(last.domainName).value, now) else p
  }

  /** One more item: its answer is upserted when it was fetched successfully. */
  lemma UpsertFetchedStep(prev: seq<PortfolioItem>, items: seq<PortfolioItem>, i: nat,
                          fetch: string -> Result<DetailedValuation, string>, now: int)
    requires i < |items|
    ensures var p := UpsertFetched(prev, items[..i], fetch, now);
            UpsertFetched(prev, items[..i + 1], fetch, now)
            == if Upserts(items[i], fetch) then Upsert(p, fetch(items[i].domainName).value, now) else p
  {
    assert items[..i + 1][..i] == items[..i];
    assert items[..i + 1][i] == items[i];
  }

  /** Items that need no fetch leave the portfolio as it was. */
  lemma {:induction false} UpsertFetchedNothing(prev: seq<PortfolioItem>, items: seq<PortfolioItem>, fetch: string -> Result<DetailedValuation, string>, now: int)
    requires forall k :: 0 <= k < |items| ==> !NeedsFetching(items[k])
    ensures UpsertFetched(prev, items, fetch, now) == prev
  {
    if items != [] {
      UpsertFetchedNothing(prev, items[..|items| - 1], fetch, now);
    }
  }

  /** Refreshing keeps domain names unique and, when the service answers for the domain it
      was asked about and every item is already saved, adds no entry. */
  lemma {:induction false} UpsertFetchedKeepsShape(prev: seq<PortfolioItem>, items: seq<PortfolioItem>, fetch: string -> Result<DetailedValuation, string>, now: int)
    requires Unique(prev)
    requires forall k :: 0 <= k < |items| ==> items[k].domainName in Names(prev)
    requires forall name :: fetch(name).Success? ==> fetch(name).value.domainName == name
    ensures Unique(UpsertFetched(prev, items, fetch, now))
    ensures Names(UpsertFetched(prev, items, fetch, now)) == Names(prev)
  {
    if items != [] {
      var init := items[..|items| - 1];
      UpsertFetchedKeepsShape(prev, init, fetch, now);
      var p := UpsertFetched(prev, init, fetch, now);
      var last := items[|items| - 1];
      if Upserts(last, fetch) {
        var d := fetch(last.domainName).value;
        UpsertUnique(p, d, now);
        assert d.domainName in Names(p);
        UpsertKeepsNames(p, d, now);
      }
    }
  }

  // ---- CSV report --------------------------------------------------------------------

  const CsvPrefix: string := "data:text/csv;charset=utf-8,"
  const CsvHeaders: seq<string> := [
    "Domain Name", "Current Value (USD)",
    "3-Month Est. (USD)", "6-Month Est. (USD)", "12-Month Est. (USD)",
    "Keyword Value", "Search Volume", "Sales History", "Market Trend",
    "Growth Opportunity (1-10)"]

  function Quoted(s: string): string {
    "\"" + s + "\""
  }

  /** The ten cells of one report line: the five text cells quoted, the numbers as written. */
  function CsvFields(d: DetailedValuation): (r: seq<string>)
    ensures |r| == |CsvHeaders| == 10
  {
    [Quoted(d.domainName),
     IntToString(d.currentValue),
     IntToString(d.futureProjections.threeMonth),
     IntToString(d.futureProjections.sixMonth),
     IntToString(d.futureProjections.twelveMonth),
     Quoted(d.coreInfluencers.keywordValue),
     Quoted(d.coreInfluencers.searchVolume),
     Quoted(d.coreInfluencers.salesHistory),
     Quoted(d.coreInfluencers.marketTrend),
     IntToString(d.growthPotential.opportunity)]
  }

  function CsvRow(d: DetailedValuation): string {
    Join(CsvFields(d), ",")
  }

  function CsvRows(data: seq<DetailedValuation>): (r: seq<string>)
    ensures |r| == |data|
    ensures forall k :: 0 <= k < |data| ==> r[k] == CsvRow(data[k])
  {
    seq(|data|, k requires 0 <= k < |data| => CsvRow(data[k]))
  }

  /** The whole `data:` URI before encoding: prefix, header line, newline, rows. It always
      starts with the CSV `data:` prefix and holds the header line, even with no rows. */
  function CsvContent(data: seq<DetailedValuation>): (r: string)
    ensures |r| > |CsvPrefix| && r[..|CsvPrefix|] == CsvPrefix
    ensures OccursAt(Join(CsvHeaders, ",") + "\n", r, |CsvPrefix|)
  {
    OccursInMiddle(CsvPrefix, Join(CsvHeaders, ","), "\n", Join(CsvRows(data), "\n"));
    CsvPrefix + Join(CsvHeaders, ",") + "\n" + Join(CsvRows(data), "\n")
  }

  /** A cell written between double quotes. */
  predicate IsQuoted(s: string) {
    |s| >= 2 && s[0] == '"' && s[|s| - 1] == '"'
  }

  /** The text between a quoted cell's quotes. */
  function Unquoted(s: string): string
    requires |s| >= 2
  {
    s[1..|s| - 1]
  }

  /** A cell that `ParseInt` reads: an optional minus sign, then digits. */
  predicate IsNumeral(s: string) {
    s != [] && (s[0] == '-' || IsDigit(s[0])) && forall i :: 0 < i < |s| ==> IsDigit(s[i])
  }

  lemma QuotedReadsBack(s: string)
    ensures IsQuoted(Quoted(s)) && Unquoted(Quoted(s)) == s
  {
    assert Quoted(s)[1..|Quoted(s)| - 1] == s;
  }

  lemma NumeralReadsBack(n: int)
    ensures IsNumeral(IntToString(n)) && ParseInt(IntToString(n)) == n
  {
    IntToStringRoundTrip(n);
  }

  /** The domain name and the four influencer cells of a report line are quoted, and each
      reads back as its field. */
  lemma TextCellsReadBack(d: DetailedValuation)
    ensures var r := CsvFields(d);
            && IsQuoted(r[0]) && Unquoted(r[0]) == d.domainName
            && IsQuoted(r[5]) && Unquoted(r[5]) == d.coreInfluencers.keywordValue
            && IsQuoted(r[6]) && Unquoted(r[6]) == d.coreInfluencers.searchVolume
            && IsQuoted(r[7]) && Unquoted(r[7]) == d.coreInfluencers.salesHistory
            && IsQuoted(r[8]) && Unquoted(r[8]) == d.coreInfluencers.marketTrend
  {
    QuotedReadsBack(d.domainName);
    QuotedReadsBack(d.coreInfluencers.keywordValue);
    QuotedReadsBack(d.coreInfluencers.searchVolume);
    QuotedReadsBack(d.coreInfluencers.salesHistory);
    QuotedReadsBack(d.coreInfluencers.marketTrend);
  }

  /** The five numeric cells of a report line are unquoted decimal numbers that read back as
      the value, the three projections and the opportunity score. */
  lemma NumberCellsReadBack(d: DetailedValuation)
    ensures var r := CsvFields(d);
            && IsNumeral(r[1]) && ParseInt(r[1]) == d.currentValue
            && IsNumeral(r[2]) && ParseInt(r[2]) == d.futureProjections.threeMonth
            && IsNumeral(r[3]) && ParseInt(r[3]) == d.futureProjections.sixMonth
            && IsNumeral(r[4]) && ParseInt(r[4]) == d.futureProjections.twelveMonth
            && IsNumeral(r[9]) && ParseInt(r[9]) == d.growthPotential.opportunity
  {
    var r := CsvFields(d);
    assert r[1] == IntToString(d.currentValue) && r[2] == IntToString(d.futureProjections.threeMonth)
           && r[3] == IntToString(d.futureProjections.sixMonth) && r[4] == IntToString(d.futureProjections.twelveMonth)
           && r[9] == IntToString(d.growthPotential.opportunity);
    NumeralReadsBack(d.currentValue);
    NumeralReadsBack(d.futureProjections.threeMonth);
    NumeralReadsBack(d.futureProjections.sixMonth);
    NumeralReadsBack(d.futureProjections.twelveMonth);
    NumeralReadsBack(d.growthPotential.opportunity);
  }

  /** The text cells of a valuation, which the report writes between quotes. */
  function TextCells(d: DetailedValuation): seq<string> {
    [d.domainName, d.coreInfluencers.keywordValue, d.coreInfluencers.searchVolume,
     d.coreInfluencers.salesHistory, d.coreInfluencers.marketTrend]
  }

  /** Every cell of a row avoids a character the text cells avoid, other than digits, '-'
      and the quote. */
  lemma FieldsExclude(d: DetailedValuation, c: char)
    requires forall s :: s in TextCells(d) ==> c !in s
    requires c != '"' && c != '-' && !IsDigit(c)
    ensures forall k :: 0 <= k < 10 ==> c !in CsvFields(d)[k]
  {
    IntToStringChars(d.currentValue);
    IntToStringChars(d.futureProjections.threeMonth);
    IntToStringChars(d.futureProjections.sixMonth);
    IntToStringChars(d.futureProjections.twelveMonth);
    IntToStringChars(d.growthPotential.opportunity);
    assert d.domainName in TextCells(d);
    assert d.coreInfluencers.keywordValue in TextCells(d);
    assert d.coreInfluencers.searchVolume in TextCells(d);
    assert d.coreInfluencers.salesHistory in TextCells(d);
    assert d.coreInfluencers.marketTrend in TextCells(d);
  }

  /** When no text cell holds a comma, splitting a row on commas gives back its ten cells. */
  lemma RowSplitsIntoFields(d: DetailedValuation)
    requires forall s :: s in TextCells(d) ==> ',' !in s
    ensures Split(CsvRow(d), ',') == CsvFields(d)
  {
    FieldsExclude(d, ',');
    SplitJoin(CsvFields(d), ',');
  }

  /** No report line holds a line break when no text cell does. */
  lemma RowsExcludeNewline(data: seq<DetailedValuation>)
    requires forall d :: d in data ==> forall s :: s in TextCells(d) ==> '\n' !in s
    ensures forall k :: 0 <= k < |data| ==> '\n' !in CsvRow(data[k])
  {
    forall k | 0 <= k < |data| ensures '\n' !in CsvRow(data[k]) {
      assert data[k] in data;
      FieldsExclude(data[k], '\n');
      JoinExcludes(CsvFields(data[k]), ",", '\n');
    }
  }

  lemma HeaderExcludesNewline()
    ensures '\n' !in CsvPrefix + Join(CsvHeaders, ",")
  {
    FirstHeadersExcludeNewline();
    LastHeadersExcludeNewline();
    JoinExcludes(CsvHeaders, ",", '\n');
    PrefixExcludesNewline();
  }

  lemma FirstHeadersExcludeNewline()
    ensures '\n' !in CsvHeaders[0] && '\n' !in CsvHeaders[1] && '\n' !in CsvHeaders[2]
    ensures '\n' !in CsvHeaders[3] && '\n' !in CsvHeaders[4]
  {
    assert '\n' !in CsvHeaders[0];
    assert '\n' !in CsvHeaders[1];
    assert '\n' !in CsvHeaders[2];
    assert '\n' !in CsvHeaders[3];
  }

  lemma LastHeadersExcludeNewline()
    ensures '\n' !in CsvHeaders[5] && '\n' !in CsvHeaders[6] && '\n' !in CsvHeaders[7]
    ensures '\n' !in CsvHeaders[8] && '\n' !in CsvHeaders[9]
  {
    assert '\n' !in CsvHeaders[5];
    assert '\n' !in CsvHeaders[6];
    assert '\n' !in CsvHeaders[7];
    assert '\n' !in CsvHeaders[8];
  }

  lemma PrefixExcludesNewline()
    ensures '\n' !in CsvPrefix
  {
  }

  /** When no text cell holds a line break, the report has one line for the header and one
      per valuation, in order. */
  lemma ReportLines(data: seq<DetailedValuation>)
    requires |data| >= 1
    requires forall d :: d in data ==> forall s :: s in TextCells(d) ==> '\n' !in s
    ensures Split(CsvContent(data), '\n') == [CsvPrefix + Join(CsvHeaders, ",")] + CsvRows(data)
  {
    var rows := CsvRows(data);
    RowsExcludeNewline(data);
    HeaderExcludesNewline();
    var head := CsvPrefix + Join(CsvHeaders, ",");
    var lines := [head] + rows;
    forall k | 0 <= k < |lines| ensures '\n' !in lines[k] {
      if k > 0 {
        assert lines[k] == rows[k - 1];
      }
    }
    JoinCons(head, rows, "\n");
    SplitJoin(lines, '\n');
  }

  // ---- The page ------------------------------------------------------------------------

  class PortfolioView {
    var selected: seq<string>

    constructor ()
      ensures selected == []
    {
      selected := [];
    }

    /** `handleToggleDownloadSelection`. */
    method ToggleSelection(d: string)
      modifies this`selected
      ensures selected == ResultsPage.Toggle(old(selected), d)
    {
      selected := ResultsPage.Toggle(selected, d);
    }

    /** `handleDelete`: the selection is left as it was. */
    method Delete(store: PortfolioStore, toasts: ToastQueue, d: string, now: int)
      requires toasts.Valid()
      modifies store, store.backing, toasts
      ensures store.items == RemoveAll(old(store.items), d)
      ensures store.backing.data == Written(store.backing.available, old(store.backing.data), PortfolioKey, store.codec.encode(store.items))
      ensures toasts.toasts == old(toasts.toasts) + [NewToast(DeletedMessage, None, now)]
      ensures toasts.timers == old(toasts.timers) + [Timer(now, now + DismissAfterMs)]
      ensures toasts.Valid()
    {
      store.RemoveValuation(d);
      toasts.ShowToast(DeletedMessage, None, now);
    }

    /** Gets every item's detailed data, re-appraising and upserting those that need it.
        Every fetch is issued; each one that succeeds is saved, even when another fails.
        The portfolio is written once per upsert, so storage ends up holding the final list
        when anything was upserted and is untouched otherwise. */
    static method ResolveAndCache(store: PortfolioStore, items: seq<PortfolioItem>,
                                  fetch: string -> Result<DetailedValuation, string>, now: int)
      returns (r: Result<seq<DetailedValuation>, string>)
      modifies store, store.backing
      ensures r == ResolveAll(items, fetch)
      ensures store.items == UpsertFetched(old(store.items), items, fetch, now)
      ensures store.backing.data == if SomeUpsert(items, fetch)
                                    then Written(store.backing.available, old(store.backing.data), PortfolioKey, store.codec.encode(store.items))
                                    else old(store.backing.data)
    {
      // `items.map(...)`: every fetch is issued and each successful one upserted.
      var i := 0;
      while i < |items|
        invariant 0 <= i <= |items|
        invariant store.items == UpsertFetched(old(store.items), items[..i], fetch, now)
        invariant store.backing.data == if SomeUpsert(items[..i], fetch)
                                        then Written(store.backing.available, old(store.backing.data), PortfolioKey, store.codec.encode(store.items))
                                        else old(store.backing.data)
      {
        UpsertFetchedStep(old(store.items), items, i, fetch, now);
        SomeUpsertStep(items, i, fetch);
        ghost var written := store.codec.encode(store.items);
        FetchAndCache(store, items[i], fetch, now);
        if Upserts(items[i], fetch) && SomeUpsert(items[..i], fetch) {
          WrittenTwice(store.backing.available, old(store.backing.data), PortfolioKey, written, store.codec.encode(store.items));
        }
        i := i + 1;
      }
      assert items[..i] == items;
      r := AllAnswers(items, fetch);
    }

    /** The callback `items.map` runs for one item: an item that needs it is re-appraised,
        and a successful answer is upserted into the portfolio, and written, when it arrives. */
    static method FetchAndCache(store: PortfolioStore, item: PortfolioItem,
                                fetch: string -> Result<DetailedValuation, string>, now: int)
      modifies store, store.backing
      ensures store.items == if Upserts(item, fetch)
                             then Upsert(old(store.items), fetch(item.domainName).value, now)
                             else old(store.items)
      ensures store.backing.data == if Upserts(item, fetch)
                                    then Written(store.backing.available, old(store.backing.data), PortfolioKey, store.codec.encode(store.items))
                                    else old(store.backing.data)
    {
      if NeedsFetching(item) {
        var answer := fetch(item.domainName);
        if answer.Success? {
          store.AddDetailedValuation(answer.value, now);
        }
      }
    }

    /** `Promise.all` over the items' answers: all of them in item order, or the first
        failure in item order. */
    static method AllAnswers(items: seq<PortfolioItem>, fetch: string -> Result<DetailedValuation, string>)
      returns (r: Result<seq<DetailedValuation>, string>)
      ensures r == ResolveAll(items, fetch)
    {
      var acc: seq<DetailedValuation> := [];
      var failure: Option<string> := None;
      var j := 0;
      while j < |items|
        invariant 0 <= j <= |items|
        invariant failure.Some? ==> ResolveAll(items[..j], fetch) == Failure(failure.value)
        invariant failure.None? ==> ResolveAll(items[..j], fetch) == Success(acc)
      {
        ResolveAllStep(items, j, fetch);
        if failure.None? {
          match Resolved(items[j], fetch) {
            case Failure(e) => failure := Some(e);
            case Success(d) => acc := acc + [d];
          }
        }
        j := j + 1;
      }
      assert items[..j] == items;
      r := if failure.Some? then Failure(failure.value) else Success(acc);
    }

    /** `handleDownload`: the report text, or `None` after an error toast. The two guards
        only show their error; past them, storage holds the refreshed portfolio whenever
        something was upserted. */
    method Download(kind: DownloadKind, store: PortfolioStore, toasts: ToastQueue,
                    fetch: string -> Result<DetailedValuation, string>, now: int)
      returns (report: Option<string>)
      requires toasts.Valid()
      modifies store, store.backing, toasts
      ensures toasts.Valid()
      ensures kind == SelectedItems && selected == [] ==>
                report == None && store.items == old(store.items)
                && store.backing.data == old(store.backing.data)
                && toasts.toasts == old(toasts.toasts) + [NewToast(NothingSelectedMessage, Some(ErrorToast), now)]
                && toasts.timers == old(toasts.timers) + [Timer(now, now + DismissAfterMs)]
      ensures !(kind == SelectedItems && selected == []) ==>
                var items := ItemsToProcess(old(store.items), kind, selected);
                var r := ResolveAll(items, fetch);
                && store.items == UpsertFetched(old(store.items), items, fetch, now)
                && store.backing.data == (if SomeUpsert(items, fetch)
                                          then Written(store.backing.available, old(store.backing.data), PortfolioKey, store.codec.encode(store.items))
                                          else old(store.backing.data))
                && (items == [] ==>
                      report == None
                      && toasts.toasts == old(toasts.toasts) + [NewToast(NothingToDownloadMessage, Some(ErrorToast), now)]
                      && toasts.timers == old(toasts.timers) + [Timer(now, now + DismissAfterMs)])
                && (items != [] && r.Failure? ==>
                      report == None
                      && toasts.toasts == old(toasts.toasts) + [NewToast(DownloadFailedMessage, Some(ErrorToast), now)]
                      && toasts.timers == old(toasts.timers) + [Timer(now, now + DismissAfterMs)])
                && (items != [] && r.Success? ==>
                      report == Some(CsvContent(r.value))
                      && toasts.toasts == old(toasts.toasts) && toasts.timers == old(toasts.timers))
    {
      if kind == SelectedItems && selected == [] {
        toasts.ShowToast(NothingSelectedMessage, Some(ErrorToast), now);
        return None;
      }
      var items := ItemsToProcess(store.items, kind, selected);
      if items == [] {
        toasts.ShowToast(NothingToDownloadMessage, Some(ErrorToast), now);
        return None;
      }
      var r := ResolveAndCache(store, items, fetch, now);
      if r.Failure? {
        toasts.ShowToast(DownloadFailedMessage, Some(ErrorToast), now);
        report := None;
      } else {
        report := Some(CsvContent(r.value));
      }
    }

    /** `handleCompare`: the records to compare, or `None` after an error toast. The guard
        only shows its error; past it, storage holds the refreshed portfolio whenever
        something was upserted. */
    method Compare(store: PortfolioStore, toasts: ToastQueue,
                   fetch: string -> Result<DetailedValuation, string>, now: int)
      returns (compared: Option<seq<DetailedValuation>>)
      requires toasts.Valid()
      modifies store, store.backing, toasts
      ensures toasts.Valid()
      ensures |selected| < 2 ==>
                compared == None && store.items == old(store.items)
                && store.backing.data == old(store.backing.data)
                && toasts.toasts == old(toasts.toasts) + [NewToast(TooFewToCompareMessage, Some(ErrorToast), now)]
                && toasts.timers == old(toasts.timers) + [Timer(now, now + DismissAfterMs)]
      ensures |selected| >= 2 ==>
                var items := ItemsToProcess(old(store.items), SelectedItems, selected);
                var r := ResolveAll(items, fetch);
                && store.items == UpsertFetched(old(store.items), items, fetch, now)
                && store.backing.data == (if SomeUpsert(items, fetch)
                                          then Written(store.backing.available, old(store.backing.data), PortfolioKey, store.codec.encode(store.items))
                                          else old(store.backing.data))
                && (r.Failure? ==>
                      compared == None
                      && toasts.toasts == old(toasts.toasts) + [NewToast(CompareFailedMessage, Some(ErrorToast), now)]
                      && toasts.timers == old(toasts.timers) + [Timer(now, now + DismissAfterMs)])
                && (r.Success? ==>
                      compared == Some(r.value) && toasts.toasts == old(toasts.toasts) && toasts.timers == old(toasts.timers))
    {
      if |selected| < 2 {
        toasts.ShowToast(TooFewToCompareMessage, Some(ErrorToast), now);
        return None;
      }
      var items := ItemsToProcess(store.items, SelectedItems, selected);
      var r := ResolveAndCache(store, items, fetch, now);
      if r.Failure? {
        toasts.ShowToast(CompareFailedMessage, Some(ErrorToast), now);
        compared := None;
      } else {
        compared := Some(r.value);
      }
    }
  }
}
