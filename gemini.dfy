/** The valuation-service wrappers (services/geminiService.ts), reduced to what they do
    with the model's text: find the JSON in it, hand it to `JSON.parse`, and turn every
    failure into one fixed message or a safe default. The network call itself is a
    parameter: its outcome (`Success(text)` or `Failure`) and the parser are given. */
module GeminiService {
  import opened Wrappers
  import opened Types
  import opened Text

  const BatchValuationError: string := "Failed to get valuations from AI."
  const DetailedValuationError: string := "Failed to get detailed valuation from AI."
  const ExplanationError: string := "Failed to get explanation from AI."
  const HistoricalValuationError: string := "Failed to get historical valuation from AI."
  const RecommendationsError: string := "Failed to get domain recommendations from AI."
  const TrendingDomainsError: string := "Failed to get trending domains from AI."

  /** The domain list the batch prompt embeds. */
  function PromptDomainList(domains: seq<string>): string {
    Join(domains, ", ")
  }

  /** The batch prompt names every domain, in input order, each after the previous one and ", ". */
  lemma PromptListsDomainsInOrder(domains: seq<string>, k: nat)
    requires k < |domains|
    ensures OccursAt(domains[k], PromptDomainList(domains), JoinOffset(domains, ", ", k))
    ensures k + 1 < |domains| ==>
              JoinOffset(domains, ", ", k + 1) == JoinOffset(domains, ", ", k) + |domains[k]| + 2
  {
    JoinAt(domains, ", ", k);
  }

  /** The shape shared by the schema-constrained calls: trim the answer, parse it, and
      rethrow any failure (of the call or of the parse) as the function's own message. */
  function CallAndParse<T>(response: Result<string, string>, parse: string -> Option<T>, message: string): (r: Result<T, string>)
    ensures r.Failure? ==> r.error == message
    ensures r.Success? <==> response.Success? && parse(Trim(response.value)).Some?
    ensures r.Success? ==> r.value == parse(Trim(response.value)).value
  {
    match response
    case Failure(_) => Failure(message)
    case Success(text) =>
      match parse(Trim(text))
      case None => Failure(message)
      case Some(v) => Success(v)
  }

  /** `getBatchValuation`: the parsed batch, or its own fixed message. */
  function GetBatchValuation(response: Result<string, string>, parse: string -> Option<BatchValuationResult>): (r: Result<BatchValuationResult, string>)
    ensures r.Failure? ==> r.error == BatchValuationError
    ensures r.Success? <==> response.Success? && parse(Trim(response.value)).Some?
    ensures r.Success? ==> r.value == parse(Trim(response.value)).value
  {
    CallAndParse(response, parse, BatchValuationError)
  }

  /** `getDetailedValuation`: the parsed record, or its own fixed message. */
  function GetDetailedValuation(response: Result<string, string>, parse: string -> Option<DetailedValuation>): (r: Result<DetailedValuation, string>)
    ensures r.Failure? ==> r.error == DetailedValuationError
    ensures r.Success? <==> response.Success? && parse(Trim(response.value)).Some?
    ensures r.Success? ==> r.value == parse(Trim(response.value)).value
  {
    CallAndParse(response, parse, DetailedValuationError)
  }

  /** The parsed `{ history: [...] }` object; `history` is `None` when the key is missing,
      which the source returns as `undefined` without an error. */
  datatype HistoryPayload = HistoryPayload(history: Option<seq<HistoricalDataPoint>>)

  /** `getHistoricalValuation`: the `history` key of the parsed object (possibly missing), or
      its own fixed message. */
  function GetHistoricalValuation(response: Result<string, string>, parse: string -> Option<HistoryPayload>): (r: Result<Option<seq<HistoricalDataPoint>>, string>)
    ensures r.Failure? ==> r.error == HistoricalValuationError
    ensures r.Success? <==> response.Success? && parse(Trim(response.value)).Some?
    ensures r.Success? ==> r.value == parse(Trim(response.value)).value.history
  {
    match CallAndParse(response, parse, HistoricalValuationError)
    case Failure(e) => Failure(e)
    case Success(p) => Success(p.history)
  }

  /** The parsed `{ recommendations: [...] }` object, with the same caveat. */
  datatype RecommendationPayload = RecommendationPayload(recommendations: Option<seq<DomainRecommendation>>)

  /** `getDomainRecommendations`: the `recommendations` key of the parsed object (possibly
      missing), or its own fixed message. */
  function GetDomainRecommendations(response: Result<string, string>, parse: string -> Option<RecommendationPayload>): (r: Result<Option<seq<DomainRecommendation>>, string>)
    ensures r.Failure? ==> r.error == RecommendationsError
    ensures r.Success? <==> response.Success? && parse(Trim(response.value)).Some?
    ensures r.Success? ==> r.value == parse(Trim(response.value)).value.recommendations
  {
    match CallAndParse(response, parse, RecommendationsError)
    case Failure(e) => Failure(e)
    case Success(p) => Success(p.recommendations)
  }

  /** `getInfluencerExplanation`: the answer's text as it is, untrimmed, or its own fixed
      message. */
  function GetInfluencerExplanation(response: Result<string, string>): (r: Result<string, string>)
    ensures r.Failure? <==> response.Failure?
    ensures r.Failure? ==> r.error == ExplanationError
    ensures r.Success? ==> r.value == response.value
  {
    match response
    case Failure(_) => Failure(ExplanationError)
    case Success(text) => Success(text)
  }

  // ---- checkDomainAvailability ---------------------------------------------------------

  /** The answer returned whenever anything goes wrong. */
  const Unavailable: DomainAvailability := DomainAvailability(false, None, None)

  /** What `/{[\s\S]*}/` matches: from the first '{' through the last '}', provided that
      '}' comes after it. */
  function JsonSpan(text: string): (r: Option<string>)
    ensures r.Some? <==> exists i, j :: 0 <= i < j < |text| && text[i] == '{' && text[j] == '}'
    ensures r.Some? ==> |r.value| >= 2 && r.value[0] == '{' && r.value[|r.value| - 1] == '}'
    ensures r.Some? ==> exists i :: OccursAt(r.value, text, i)
                                    && (forall k :: 0 <= k < i ==> text[k] != '{')
                                    && (forall k :: i + |r.value| <= k < |text| ==> text[k] != '}')
  {
    var i := IndexOf(text, "{", 0);
    var j := LastIndexOfChar(text, '}');
    assert forall k :: 0 <= k < |text| && text[k] == '{' ==> OccursAt("{", text, k) by {
      forall k | 0 <= k < |text| && text[k] == '{' ensures OccursAt("{", text, k) {
        assert text[k..k + 1] == [text[k]];
      }
    }
    if 0 <= i < j then
      assert text[i..i + 1] == "{";
      assert text[i] == '{';
      var span := text[i..j + 1];
      assert OccursAt(span, text, i);
      Some(span)
    else
      None
  }

  /** `checkDomainAvailability`: never an error; the parsed span when there is one and it
      parses, otherwise the safe default. */
  function CheckDomainAvailability(response: Result<string, string>, parse: string -> Option<DomainAvailability>): (r: DomainAvailability)
    ensures response.Failure? ==> r == Unavailable
    ensures response.Success? && JsonSpan(response.value).None? ==> r == Unavailable
    ensures r == Unavailable
            || (response.Success? && JsonSpan(response.value).Some?
                && parse(JsonSpan(response.value).value) == Some(r))
  {
    match response
    case Failure(_) => Unavailable
    case Success(text) =>
      match JsonSpan(text)
      case None => Unavailable
      case Some(span) =>
        match parse(span)
        case None => Unavailable
        case Some(a) => a
  }

  /** Text with no '}' after its first '{' always yields the default, whatever the parser. */
  lemma NoBraceNoAvailability(text: string, parse: string -> Option<DomainAvailability>)
    requires forall i, j :: 0 <= i < j < |text| && text[i] == '{' ==> text[j] != '}'
    ensures CheckDomainAvailability(Success(text), parse) == Unavailable
  {
  }

  // ---- getTrendingDomains ----------------------------------------------------------------

  const FenceOpen: string := "```json\n"
  const FenceClose: string := "\n```"

  /** What `/```json\n([\s\S]*?)\n```/` captures: the text after the first opening fence up to
      the nearest closing fence after it. */
  function FencedJson(text: string): (r: Option<string>)
    ensures r.Some? <==> exists p, q :: OccursAt(FenceOpen, text, p) && p + |FenceOpen| <= q
                                       && OccursAt(FenceClose, text, q)
    ensures r.Some? ==> exists p, q :: OccursAt(FenceOpen, text, p) && OccursAt(FenceClose, text, q)
                                       && p + |FenceOpen| <= q && r.value == text[p + |FenceOpen|..q]
                                       && (forall k :: 0 <= k < p ==> !OccursAt(FenceOpen, text, k))
                                       && (forall k :: p + |FenceOpen| <= k < q ==> !OccursAt(FenceClose, text, k))
  {
    var p := IndexOf(text, FenceOpen, 0);
    if p < 0 then None
    else
      var q := IndexOf(text, FenceClose, p + |FenceOpen|);
      if q < 0 then
        assert forall p', q' ::
          (OccursAt(FenceOpen, text, p') && p' + |FenceOpen| <= q' && OccursAt(FenceClose, text, q')) ==> false
        by {
          forall p', q' | OccursAt(FenceOpen, text, p') && p' + |FenceOpen| <= q'
            ensures !OccursAt(FenceClose, text, q')
          {
            assert p <= p';
          }
        }
        None
      else Some(text[p + |FenceOpen|..q])
  }

  /** `getTrendingDomains`: the recommendations of the fenced JSON (`None` when the parsed
      object has no such key); a failed call, a missing or empty block and malformed JSON all
      surface as the one message. */
  function GetTrendingDomains(response: Result<string, string>, parse: string -> Option<RecommendationPayload>): (r: Result<Option<seq<DomainRecommendation>>, string>)
    ensures r.Failure? ==> r.error == TrendingDomainsError
    ensures r.Success? <==> response.Success? && FencedJson(response.value).Some?
                            && FencedJson(response.value).value != ""
                            && parse(FencedJson(response.value).value).Some?
    ensures r.Success? ==> r.value == parse(FencedJson(response.value).value).value.recommendations
  {
    match response
    case Failure(_) => Failure(TrendingDomainsError)
    case Success(text) =>
      match FencedJson(text)
      case None => Failure(TrendingDomainsError)
      case Some(body) =>
        if body == "" then Failure(TrendingDomainsError)
        else
          match parse(body)
          case None => Failure(TrendingDomainsError)
          case Some(p) => Success(p.recommendations)
  }
}
