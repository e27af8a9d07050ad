/** The detailed report of one saved domain (pages/DetailedPortfolioItemPage.tsx): reuse the
    saved record when it already has projections, otherwise appraise it afresh and upsert it;
    only then ask for similar-domain recommendations. A countdown runs while loading, and each
    recommendation can be checked for availability. */
module DetailedPortfolioItemPage {
  import opened Wrappers
  import opened Types
  import opened PortfolioContext
  import opened PortfolioPage
  import opened Storage
  import ResultsPage

  /** Seconds the report is expected to take; the countdown starts here. */
  const EstimatedDuration: nat := 12

  /** One second of the countdown: down by one, never below zero. */
  function CountdownStep(n: int): (r: int)
    ensures r >= 0
    ensures n > 0 ==> r == n - 1
    ensures n <= 0 ==> r == 0
  {
    if n > 0 then n - 1 else 0
  }

  /** The countdown after `k` ticks. */
  function Countdown(n: int, k: nat): int {
    if k == 0 then n else CountdownStep(Countdown(n, k - 1))
  }

  /** From a fresh start the countdown reads `12 - k`, and stays at zero once there. */
  lemma {:induction false} CountdownAfter(k: nat)
    ensures Countdown(EstimatedDuration, k) == if k <= EstimatedDuration then EstimatedDuration - k else 0
  {
    if k > 0 {
      CountdownAfter(k - 1);
    }
  }

  /** A saved record is reused exactly when it exists and has a three-month projection. */
  predicate IsCacheHit(existing: Option<PortfolioItem>) {
    existing.Some? && existing.value.futureProjections.threeMonth > 0
  }

  /** A record added from a batch is never a cache hit; a detailed one with a positive
      three-month projection always is. */
  lemma CacheHitRule(v: Valuation, d: DetailedValuation, now: int, h: Option<seq<HistoricalDataPoint>>)
    ensures !IsCacheHit(Some(NewItem(v, now)))
    ensures d.futureProjections.threeMonth > 0 ==> IsCacheHit(Some(FromDetailed(d, now, h)))
  {
  }

  /** What the next run of `fetchAllData` finds after caching a fresh answer: a non-positive
      three-month projection is still a miss, and an answer filed under another name leaves
      the requested domain as it was, so a miss stays a miss and the page appraises again. */
  lemma RefetchStillMisses(prev: seq<PortfolioItem>, d: DetailedValuation, now: int, domain: string)
    ensures d.futureProjections.threeMonth <= 0 ==> !IsCacheHit(Find(Upsert(prev, d, now), d.domainName))
    ensures d.domainName != domain ==> Find(Upsert(prev, d, now), domain) == Find(prev, domain)
  {
    UpsertThenFind(prev, d, now, d.domainName);
    UpsertThenFind(prev, d, now, domain);
  }

  /** The service calls one run of `fetchAllData` makes, in order. */
  datatype ApiCall = DetailCall(domain: string) | RecommendationsCall(domain: string, value: int)

  /** The details shown: the saved record on a hit, otherwise the service's answer. A hit
      never fails and shows the saved figures; a failure can only be the service's. */
  function DetailsFor(existing: Option<PortfolioItem>, appraisal: Result<DetailedValuation, string>): (r: Result<DetailedValuation, string>)
    ensures r.Success? <==> IsCacheHit(existing) || appraisal.Success?
    ensures IsCacheHit(existing) ==>
              && r.Success? && r.value.domainName == existing.value.domainName
              && r.value.currentValue == existing.value.currentValue
              && r.value.futureProjections == existing.value.futureProjections
              && r.value.futureProjections.threeMonth > 0
    ensures r.Failure? ==> !IsCacheHit(existing) && r == appraisal
    ensures !IsCacheHit(existing) && appraisal.Success? ==> r == appraisal
  {
    if IsCacheHit(existing) then Success(AsDetailed(existing.value)) else appraisal
  }

  /** The calls `fetchAllData` makes for a domain: the detailed appraisal unless the saved
      record is reused, then the recommendations for whatever details were obtained. */
  function PlannedCalls(domain: string, existing: Option<PortfolioItem>, appraisal: Result<DetailedValuation, string>): (r: seq<ApiCall>)
    ensures DetailCall(domain) in r <==> !IsCacheHit(existing)
    ensures (exists c :: c in r && c.RecommendationsCall?) <==> DetailsFor(existing, appraisal).Success?
    ensures forall i, j :: 0 <= i < j < |r| ==> r[i].DetailCall? && r[j].RecommendationsCall?
    ensures forall c :: c in r && c.RecommendationsCall? ==>
              c == RecommendationsCall(DetailsFor(existing, appraisal).value.domainName,
                                       DetailsFor(existing, appraisal).value.currentValue)
  {
    var first := if IsCacheHit(existing) then [] else [DetailCall(domain)];
    match DetailsFor(existing, appraisal)
    case Failure(_) => first
    case Success(d) =>
      var r := first + [RecommendationsCall(d.domainName, d.currentValue)];
      assert r[|r| - 1] in r;
      r
  }

  class DetailView {
    var isLoading: bool
    var countdown: int
    var details: Option<DetailedValuation>
    var isLoadingRecs: bool
    /** `None` stands for the `undefined` an answer without recommendations leaves behind. */
    var recommendations: Option<seq<DomainRecommendation>>
    var recAvailability: map<string, ResultsPage.AvailabilityStatus>

    constructor ()
      ensures isLoading && countdown == EstimatedDuration && details == None
      ensures isLoadingRecs && recommendations == Some([]) && recAvailability == map[]
    {
      isLoading := true;
      countdown := EstimatedDuration;
      details := None;
      isLoadingRecs := true;
      recommendations := Some([]);
      recAvailability := map[];
    }

    /** One tick of the countdown interval, which runs while loading. */
    method Tick()
      requires isLoading
      modifies this`countdown
      ensures countdown == CountdownStep(old(countdown))
    {
      countdown := CountdownStep(countdown);
    }

    /** `fetchAllData` for the domain in the route (`""` when it is missing), given the
        service's answers. Returns the calls made. */
    method FetchAllData(domain: string, store: PortfolioStore,
                        appraisal: Result<DetailedValuation, string>,
                        recs: Result<Option<seq<DomainRecommendation>>, string>, now: int)
      returns (calls: seq<ApiCall>)
      modifies this, store, store.backing
      ensures domain == "" ==> calls == [] && unchanged(this, store, store.backing)
      ensures recAvailability == old(recAvailability)
      ensures domain != "" ==>
                var existing := Find(old(store.items), domain);
                var got := DetailsFor(existing, appraisal);
                && calls == PlannedCalls(domain, existing, appraisal)
                && !isLoading && countdown == EstimatedDuration
                && store.items == (if !IsCacheHit(existing) && appraisal.Success?
                                   then Upsert(old(store.items), appraisal.value, now) else old(store.items))
                && store.backing.data == (if !IsCacheHit(existing) && appraisal.Success?
                                          then Written(store.backing.available, old(store.backing.data), PortfolioKey, store.codec.encode(store.items))
                                          else old(store.backing.data))
                && details == (if got.Success? then Some(got.value) else old(details))
                && isLoadingRecs == (if got.Success? then false else old(isLoadingRecs))
                && recommendations == (if got.Success? && recs.Success? then recs.value else old(recommendations))
    {
      if domain == "" {
        return [];
      }
      isLoading := true;
      countdown := EstimatedDuration;
      calls := FetchBoth(domain, store, appraisal, recs, now);
      isLoading := false;
    }

    /** The body of `fetchAllData` past its guard: the details, then the recommendations for
        whatever details were obtained. */
    method FetchBoth(domain: string, store: PortfolioStore,
                     appraisal: Result<DetailedValuation, string>,
                     recs: Result<Option<seq<DomainRecommendation>>, string>, now: int)
      returns (calls: seq<ApiCall>)
      modifies this`details, this`isLoadingRecs, this`recommendations, store, store.backing
      ensures var existing := Find(old(store.items), domain);
              var got := DetailsFor(existing, appraisal);
              && calls == PlannedCalls(domain, existing, appraisal)
              && store.items == (if !IsCacheHit(existing) && appraisal.Success?
                                 then Upsert(old(store.items), appraisal.value, now) else old(store.items))
              && store.backing.data == (if !IsCacheHit(existing) && appraisal.Success?
                                        then Written(store.backing.available, old(store.backing.data), PortfolioKey, store.codec.encode(store.items))
                                        else old(store.backing.data))
              && details == (if got.Success? then Some(got.value) else old(details))
              && isLoadingRecs == (if got.Success? then false else old(isLoadingRecs))
              && recommendations == (if got.Success? && recs.Success? then recs.value else old(recommendations))
    {
      var existing := store.GetValuation(domain);
      calls := if IsCacheHit(existing) then [] else [DetailCall(domain)];
      var got := FetchDetails(domain, store, appraisal, now);
      if got.Success? {
        var call := FetchRecs(got.value, recs);
        calls := calls + [call];
      }
    }

    /** The `fetchDetails` step: the saved record when it already has projections, otherwise
        the service's answer, which is upserted into the portfolio. */
    method FetchDetails(domain: string, store: PortfolioStore,
                        appraisal: Result<DetailedValuation, string>, now: int)
      returns (got: Result<DetailedValuation, string>)
      modifies this`details, store, store.backing
      ensures got == DetailsFor(Find(old(store.items), domain), appraisal)
      ensures store.items == (if !IsCacheHit(Find(old(store.items), domain)) && appraisal.Success?
                              then Upsert(old(store.items), appraisal.value, now) else old(store.items))
      ensures store.backing.data == if !IsCacheHit(Find(old(store.items), domain)) && appraisal.Success?
                                    then Written(store.backing.available, old(store.backing.data), PortfolioKey, store.codec.encode(store.items))
                                    else old(store.backing.data)
      ensures details == (if got.Success? then Some(got.value) else old(details))
    {
      var existing := store.GetValuation(domain);
      if IsCacheHit(existing) {
        got := Success(AsDetailed(existing.value));
      } else {
        got := appraisal;
        if appraisal.Success? {
          store.AddDetailedValuation(appraisal.value, now);
        }
      }
      if got.Success? {
        details := Some(got.value);
      }
    }

    /** The `fetchRecs` step for the details obtained: a failed call leaves the list as it
        was, and the loading flag ends either way. Returns the call made. */
    method FetchRecs(d: DetailedValuation, recs: Result<Option<seq<DomainRecommendation>>, string>)
      returns (call: ApiCall)
      modifies this`isLoadingRecs, this`recommendations
      ensures call == RecommendationsCall(d.domainName, d.currentValue)
      ensures !isLoadingRecs
      ensures recommendations == (if recs.Success? then recs.value else old(recommendations))
    {
      isLoadingRecs := true;
      call := RecommendationsCall(d.domainName, d.currentValue);
      if recs.Success? {
        recommendations := recs.value;
      }
      isLoadingRecs := false;
    }

    /** The first step of `handleCheckRecAvailability`. */
    method BeginRecCheck(d: string)
      modifies this`recAvailability
      ensures recAvailability == ResultsPage.SetStatus(old(recAvailability), d, ResultsPage.Checking)
    {
      recAvailability := ResultsPage.SetStatus(recAvailability, d, ResultsPage.Checking);
    }

    /** The second step, once the service has answered. */
    method EndRecCheck(d: string, outcome: Result<DomainAvailability, string>)
      modifies this`recAvailability
      ensures recAvailability == ResultsPage.SetStatus(old(recAvailability), d, ResultsPage.Settled(outcome))
    {
      recAvailability := ResultsPage.SetStatus(recAvailability, d, ResultsPage.Settled(outcome));
    }
  }
}
