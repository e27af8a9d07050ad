/** The record shapes exchanged with the valuation service (types.ts). Money amounts and
    scores are JavaScript numbers in the source and whole numbers here. */
module Types {
  import opened Wrappers

  datatype Valuation = Valuation(domainName: string, estimatedValue: int, justification: string)

  datatype BatchValuationResult =
    BatchValuationResult(valuations: seq<Valuation>, methodology: string, resources: seq<string>)

  datatype Projections = Projections(threeMonth: int, sixMonth: int, twelveMonth: int)

  datatype Influencers =
    Influencers(keywordValue: string, searchVolume: string, salesHistory: string, marketTrend: string)

  datatype GrowthPotential = GrowthPotential(opportunity: int)

  datatype DetailedValuation = DetailedValuation(
    domainName: string,
    currentValue: int,
    futureProjections: Projections,
    coreInfluencers: Influencers,
    growthPotential: GrowthPotential)

  datatype HistoricalDataPoint = HistoricalDataPoint(month: string, value: int)

  datatype DomainAvailability =
    DomainAvailability(available: bool, registrar: Option<string>, purchasePrice: Option<int>)

  /** A suggested domain. `registrar` is only filled in by the trending-domains answer,
      whose JSON carries that extra key. */
  datatype DomainRecommendation =
    DomainRecommendation(domainName: string, estimatedValue: int, reason: string, registrar: Option<string>)
}
