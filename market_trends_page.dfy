/** The market-trend screen (pages/MarketTrendsPage.tsx): one request for trending domains,
    each answer shown as available with the registrar the answer names, a registrar link,
    and a button that saves a suggestion to the portfolio. */
module MarketTrendsPage {
  import opened Wrappers
  import opened Types
  import opened Text
  import opened Storage
  import opened PortfolioContext
  import opened ToastContext
  import ResultsPage

  const NoTrendsError: string := "No available trending domains found right now. Try again later!"
  const DiscoverError: string := "Failed to discover trending domains. Please try again."

  /** A suggestion together with the availability the page attaches to it. */
  datatype TrendResult = TrendResult(rec: DomainRecommendation, availability: DomainAvailability)

  /** Every suggestion is shown as available; an empty registrar name becomes `null`, and
      no price is known. */
  function Annotate(rec: DomainRecommendation): (t: TrendResult)
    ensures t.rec == rec && t.availability.available && t.availability.purchasePrice.None?
    ensures t.availability.registrar.Some? <==> rec.registrar.Some? && rec.registrar.value != ""
    ensures t.availability.registrar.Some? ==> t.availability.registrar == rec.registrar
  {
    var registrar := if rec.registrar.Some? && rec.registrar.value != "" then rec.registrar else None;
    TrendResult(rec, DomainAvailability(true, registrar, None))
  }

  function AnnotateAll(recs: seq<DomainRecommendation>): (r: seq<TrendResult>)
    ensures |r| == |recs|
    ensures forall i :: 0 <= i < |r| ==> r[i] == Annotate(recs[i])
  {
    seq(|recs|, i requires 0 <= i < |recs| => Annotate(recs[i]))
  }

  /** What a discovery ends with: the list to show, or the message. */
  datatype Discovery = Found(results: seq<TrendResult>) | Problem(message: string)

  /** The outcome of `handleDiscover` once the service has answered. A missing list
      (`undefined.length` throws) is caught like a failed call; an empty list gets its own
      message. */
  function Discover(outcome: Result<Option<seq<DomainRecommendation>>, string>): (d: Discovery)
    ensures d.Found? <==> outcome.Success? && outcome.value.Some? && |outcome.value.value| > 0
    ensures d.Found? ==> |d.results| == |outcome.value.value|
                         && forall i :: 0 <= i < |d.results| ==>
                              (d.results[i].rec == outcome.value.value[i] && d.results[i].availability.available)
    ensures d.Problem? && outcome.Success? && outcome.value.Some? ==> d.message == NoTrendsError
    ensures d.Problem? && !(outcome.Success? && outcome.value.Some?) ==> d.message == DiscoverError
  {
    match outcome
    case Failure(_) => Problem(DiscoverError)
    case Success(None) => Problem(DiscoverError)
    case Success(Some(recs)) =>
      if |recs| == 0 then Problem(NoTrendsError) else Found(AnnotateAll(recs))
  }

  /** Nulling an empty registrar name does not change the link: both lead to the search. */
  lemma AnnotationKeepsLink(rec: DomainRecommendation)
    ensures ResultsPage.RegistrarUrl(Annotate(rec).availability.registrar, rec.domainName)
            == ResultsPage.RegistrarUrl(rec.registrar, rec.domainName)
  {
    if rec.registrar == Some("") {
      ResultsPage.MissingRegistrarSearches(rec.domainName);
    }
  }

  /** A suggestion whose registrar names neither GoDaddy nor Namecheap links to a search. */
  lemma UnnamedRegistrarSearches(rec: DomainRecommendation)
    requires rec.registrar.None? || rec.registrar == Some("")
    ensures ResultsPage.RegistrarUrl(Annotate(rec).availability.registrar, rec.domainName)
            == ResultsPage.GooglePrefix + rec.domainName
  {
    ResultsPage.MissingRegistrarSearches(rec.domainName);
  }

  /** The valuation `handleSaveToPortfolio` hands to the portfolio: the reason becomes the
      justification. */
  function ToValuation(rec: DomainRecommendation): (v: Valuation)
    ensures v.domainName == rec.domainName && v.estimatedValue == rec.estimatedValue
    ensures v.justification == rec.reason
  {
    Valuation(rec.domainName, rec.estimatedValue, rec.reason)
  }

  function SavedMessage(rec: DomainRecommendation): string {
    rec.domainName + " saved to portfolio"
  }

  /** After saving, the domain is in the portfolio; a new one comes in with the suggested
      value, and one already there is left alone. */
  lemma SaveAddsSuggestion(prev: seq<PortfolioItem>, rec: DomainRecommendation, now: int)
    ensures Find(AddAll(prev, [ToValuation(rec)], now), rec.domainName).Some?
    ensures rec.domainName !in Names(prev) ==>
              AddAll(prev, [ToValuation(rec)], now) == prev + [NewItem(ToValuation(rec), now)]
              && Find(AddAll(prev, [ToValuation(rec)], now), rec.domainName).value.currentValue == rec.estimatedValue
    ensures rec.domainName in Names(prev) ==> AddAll(prev, [ToValuation(rec)], now) == prev
  {
    var v := ToValuation(rec);
    AddAllNames(prev, [v], now, rec.domainName);
    assert v in [v];
    if rec.domainName in Names(prev) {
      AddAllPresent(prev, [v], now);
    }
  }

  class TrendsView {
    var recommendations: seq<TrendResult>
    var isLoading: bool
    var error: Option<string>
    var elapsedTime: nat

    constructor ()
      ensures recommendations == [] && !isLoading && error == None && elapsedTime == 0
    {
      recommendations := [];
      isLoading := false;
      error := None;
      elapsedTime := 0;
    }

    /** The synchronous start of `handleDiscover`: everything shown before is cleared. */
    method StartDiscover()
      modifies this
      ensures recommendations == [] && isLoading && error == None && elapsedTime == 0
    {
      elapsedTime := 0;
      isLoading := true;
      error := None;
      recommendations := [];
    }

    /** The end of `handleDiscover`: the list or the message, and loading ends either way. */
    method FinishDiscover(outcome: Result<Option<seq<DomainRecommendation>>, string>)
      modifies this
      ensures !isLoading && elapsedTime == old(elapsedTime)
      ensures Discover(outcome).Found? ==>
                recommendations == Discover(outcome).results && error == old(error)
      ensures Discover(outcome).Problem? ==>
                recommendations == old(recommendations) && error == Some(Discover(outcome).message)
    {
      match Discover(outcome) {
        case Found(results) =>
          recommendations := results;
        case Problem(message) =>
          error := Some(message);
      }
      isLoading := false;
    }

    /** One tick of the one-second interval, which only runs while loading. */
    method Tick()
      requires isLoading
      modifies this`elapsedTime
      ensures elapsedTime == old(elapsedTime) + 1
    {
      elapsedTime := elapsedTime + 1;
    }

    /** `handleSaveToPortfolio`: adds the suggestion and announces it. */
    static method SaveToPortfolio(rec: DomainRecommendation, store: PortfolioStore, toasts: ToastQueue, now: int)
      requires toasts.Valid()
      modifies store, store.backing, toasts
      ensures store.items == AddAll(old(store.items), [ToValuation(rec)], now)
      ensures store.backing.data == Written(store.backing.available, old(store.backing.data), PortfolioKey, store.codec.encode(store.items))
      ensures toasts.toasts == old(toasts.toasts) + [NewToast(SavedMessage(rec), None, now)]
      ensures toasts.timers == old(toasts.timers) + [Timer(now, now + DismissAfterMs)]
      ensures toasts.Valid()
    {
      store.AddValuations([ToValuation(rec)], now);
      toasts.ShowToast(SavedMessage(rec), None, now);
    }
  }
}
