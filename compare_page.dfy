/** The side-by-side comparison (pages/ComparePage.tsx): nine metrics, each read from every
    record through a dotted path and shown as a currency amount, the value with a suffix,
    the value itself, or "N/A" when the path leads nowhere. Records are viewed as the
    JavaScript values the page walks. */
module ComparePage {
  import opened Wrappers
  import opened Types
  import opened Text

  /** The JavaScript values a record is made of. */
  datatype JsValue =
    | JsUndefined
    | JsNull
    | JsBool(b: bool)
    | JsNum(n: int)
    | JsStr(s: string)
    | JsObj(fields: map<string, JsValue>)

  /** JavaScript truthiness: `undefined`, `null`, `false`, `0` and `""` are falsy. */
  predicate Truthy(v: JsValue) {
    match v
    case JsUndefined => false
    case JsNull => false
    case JsBool(b) => b
    case JsNum(n) => n != 0
    case JsStr(s) => s != ""
    case JsObj(_) => true
  }

  /** `o[k]` on an object; `undefined` for a missing field or a non-object. */
  function Field(o: JsValue, k: string): (r: JsValue)
    ensures r != JsUndefined ==> o.JsObj? && k in o.fields && r == o.fields[k]
  {
    if o.JsObj? && k in o.fields then o.fields[k] else JsUndefined
  }

  /** One step of the reduce: descend when the container is truthy and has the field. */
  function Step(o: JsValue, k: string): (r: JsValue)
    ensures !Truthy(o) ==> r == JsUndefined
    ensures Truthy(o) ==> r == Field(o, k)
  {
    if Truthy(o) && Field(o, k) != JsUndefined then Field(o, k) else JsUndefined
  }

  function Descend(o: JsValue, keys: seq<string>): JsValue
    decreases |keys|
  {
    if keys == [] then o else Descend(Step(o, keys[0]), keys[1..])
  }

  /** Once a step yields `undefined`, so does the rest of the path. */
  lemma {:induction false} UndefinedAbsorbs(keys: seq<string>)
    ensures Descend(JsUndefined, keys) == JsUndefined
  {
    if keys != [] {
      UndefinedAbsorbs(keys[1..]);
    }
  }

  /** `getNestedValue`: every path, even the empty one, starts with a step, so a falsy
      record yields `undefined` whatever the path. */
  function GetNestedValue(obj: JsValue, path: string): (r: JsValue)
    ensures !Truthy(obj) ==> r == JsUndefined
  {
    var keys := Split(path, '.');
    UndefinedAbsorbs(keys[1..]);
    Descend(obj, keys)
  }

  /** A path without a dot reads the field directly; a present `0` comes back as `0`. */
  lemma SingleSegment(obj: JsValue, k: string)
    requires '.' !in k
    ensures GetNestedValue(obj, k) == Step(obj, k)
    ensures obj.JsObj? && k in obj.fields && obj.fields[k] == JsNum(0) ==> GetNestedValue(obj, k) == JsNum(0)
  {
    SplitJoin([k], '.');
    assert Join([k], ['.']) == k;
    assert Split(k, '.') == [k];
    assert Descend(obj, [k]) == Descend(Step(obj, k), [k][1..]);
    assert [k][1..] == [];
  }

  /** A two-segment path reads the field of the field, and is `undefined` as soon as the
      first field is missing or falsy. */
  lemma TwoSegments(obj: JsValue, a: string, b: string)
    requires '.' !in a && '.' !in b
    ensures GetNestedValue(obj, a + "." + b) == Step(Step(obj, a), b)
    ensures !Truthy(Step(obj, a)) ==> GetNestedValue(obj, a + "." + b) == JsUndefined
  {
    SplitJoin([a, b], '.');
    assert Join([a, b], ['.']) == a + "." + b;
    assert Split(a + "." + b, '.') == [a, b];
    assert Descend(obj, [a, b]) == Descend(Step(obj, a), [a, b][1..]);
    assert [a, b][1..] == [b];
    assert Descend(Step(obj, a), [b]) == Descend(Step(Step(obj, a), b), [b][1..]);
    assert [b][1..] == [];
  }

  // ---- Records as values -------------------------------------------------------------------

  function ProjectionsJs(p: Projections): JsValue {
    JsObj(map["threeMonth" := JsNum(p.threeMonth), "sixMonth" := JsNum(p.sixMonth),
              "twelveMonth" := JsNum(p.twelveMonth)])
  }

  function InfluencersJs(i: Influencers): JsValue {
    JsObj(map["keywordValue" := JsStr(i.keywordValue), "searchVolume" := JsStr(i.searchVolume),
              "salesHistory" := JsStr(i.salesHistory), "marketTrend" := JsStr(i.marketTrend)])
  }

  function ToJs(d: DetailedValuation): JsValue {
    JsObj(map["domainName" := JsStr(d.domainName),
              "currentValue" := JsNum(d.currentValue),
              "futureProjections" := ProjectionsJs(d.futureProjections),
              "coreInfluencers" := InfluencersJs(d.coreInfluencers),
              "growthPotential" := JsObj(map["opportunity" := JsNum(d.growthPotential.opportunity)])])
  }

  // ---- Metrics and cells -------------------------------------------------------------------

  datatype Metric = Metric(caption: string, path: string, currency: bool, suffix: string)

  const MetricCount: nat := 9

  /** The table's rows, top to bottom. A dotted path is written as its segments joined by
      the dot, which is the same text. */
  function MetricAt(i: nat): Metric
    requires i < MetricCount
  {
    match i
    case 0 => Metric("Current Value", "currentValue", true, "")
    case 1 => Metric("3-Month Est.", "futureProjections" + "." + "threeMonth", true, "")
    case 2 => Metric("6-Month Est.", "futureProjections" + "." + "sixMonth", true, "")
    case 3 => Metric("12-Month Est.", "futureProjections" + "." + "twelveMonth", true, "")
    case 4 => Metric("Keyword Value", "coreInfluencers" + "." + "keywordValue", false, "")
    case 5 => Metric("Search Volume", "coreInfluencers" + "." + "searchVolume", false, "")
    case 6 => Metric("Sales History", "coreInfluencers" + "." + "salesHistory", false, "")
    case 7 => Metric("Market Trend", "coreInfluencers" + "." + "marketTrend", false, "")
    case _ => Metric("Opportunity", "growthPotential" + "." + "opportunity", false, " / 10")
  }

  /** What a cell shows. `Currency` is handed to the currency formatter. */
  datatype Cell = NotAvailable | Currency(amount: JsValue) | Suffixed(text: string) | Shown(value: JsValue)

  /** `${value}` for the values a record holds. */
  function JsText(v: JsValue): string {
    match v
    case JsUndefined => "undefined"
    case JsNull => "null"
    case JsBool(b) => if b then "true" else "false"
    case JsNum(n) => IntToString(n)
    case JsStr(s) => s
    case JsObj(_) => "[object Object]"
  }

  /** The display choice: "N/A" exactly for `undefined`; otherwise currency for money
      metrics, the value and its suffix when there is a suffix, the value as it is else. */
  function DisplayCell(value: JsValue, m: Metric): (c: Cell)
    ensures c == NotAvailable <==> value == JsUndefined
    ensures value != JsUndefined && m.currency ==> c == Currency(value)
    ensures value != JsUndefined && !m.currency && m.suffix != "" ==> c == Suffixed(JsText(value) + m.suffix)
    ensures value != JsUndefined && !m.currency && m.suffix == "" ==> c == Shown(value)
  {
    if value == JsUndefined then NotAvailable
    else if m.currency then Currency(value)
    else if m.suffix != "" then Suffixed(JsText(value) + m.suffix)
    else Shown(value)
  }

  /** The value each metric's path reaches in a full record. */
  function MetricValue(d: DetailedValuation, i: nat): JsValue
    requires i < MetricCount
  {
    match i
    case 0 => JsNum(d.currentValue)
    case 1 => JsNum(d.futureProjections.threeMonth)
    case 2 => JsNum(d.futureProjections.sixMonth)
    case 3 => JsNum(d.futureProjections.twelveMonth)
    case 4 => JsStr(d.coreInfluencers.keywordValue)
    case 5 => JsStr(d.coreInfluencers.searchVolume)
    case 6 => JsStr(d.coreInfluencers.salesHistory)
    case 7 => JsStr(d.coreInfluencers.marketTrend)
    case _ => JsNum(d.growthPotential.opportunity)
  }

  /** A two-segment path into nested objects reaches the inner field. */
  lemma FieldOfField(obj: JsValue, path: string, a: string, b: string, v: JsValue)
    requires path == a + "." + b && '.' !in a && '.' !in b
    requires obj.JsObj? && a in obj.fields && obj.fields[a].JsObj?
    requires b in obj.fields[a].fields && obj.fields[a].fields[b] == v && v != JsUndefined
    ensures GetNestedValue(obj, path) == v
  {
    TwoSegments(obj, a, b);
  }

  /** A one-segment path reaches a present field. */
  lemma TopField(obj: JsValue, path: string, v: JsValue)
    requires '.' !in path
    requires obj.JsObj? && path in obj.fields && obj.fields[path] == v && v != JsUndefined
    ensures GetNestedValue(obj, path) == v
  {
    SingleSegment(obj, path);
  }

  function ProjectionKey(i: nat): string {
    if i == 1 then "threeMonth" else if i == 2 then "sixMonth" else "twelveMonth"
  }

  function InfluencerKey(i: nat): string {
    if i == 4 then "keywordValue" else if i == 5 then "searchVolume"
    else if i == 6 then "salesHistory" else "marketTrend"
  }

  lemma CurrentValuePath(d: DetailedValuation, path: string)
    requires path == "currentValue"
    ensures GetNestedValue(ToJs(d), path) == JsNum(d.currentValue)
  {
    assert '.' !in path;
    assert ToJs(d).fields["currentValue"] == JsNum(d.currentValue);
    TopField(ToJs(d), path, JsNum(d.currentValue));
  }

  lemma ProjectionPath(d: DetailedValuation, path: string, i: nat)
    requires 1 <= i <= 3 && path == "futureProjections" + "." + ProjectionKey(i)
    ensures GetNestedValue(ToJs(d), path) == MetricValue(d, i)
  {
    var o := ToJs(d);
    assert o.fields["futureProjections"] == ProjectionsJs(d.futureProjections);
    FieldOfField(o, path, "futureProjections", ProjectionKey(i), MetricValue(d, i));
  }

  lemma InfluencerPath(d: DetailedValuation, path: string, i: nat)
    requires 4 <= i <= 7 && path == "coreInfluencers" + "." + InfluencerKey(i)
    ensures GetNestedValue(ToJs(d), path) == MetricValue(d, i)
  {
    var o := ToJs(d);
    assert o.fields["coreInfluencers"] == InfluencersJs(d.coreInfluencers);
    FieldOfField(o, path, "coreInfluencers", InfluencerKey(i), MetricValue(d, i));
  }

  lemma OpportunityPath(d: DetailedValuation, path: string)
    requires path == "growthPotential" + "." + "opportunity"
    ensures GetNestedValue(ToJs(d), path) == JsNum(d.growthPotential.opportunity)
  {
    FieldOfField(ToJs(d), path, "growthPotential", "opportunity", JsNum(d.growthPotential.opportunity));
  }

  /** Every metric path reaches its field in a full record, so a full record never shows "N/A". */
  lemma MetricResolves(d: DetailedValuation, i: nat)
    requires i < MetricCount
    ensures GetNestedValue(ToJs(d), MetricAt(i).path) == MetricValue(d, i)
    ensures DisplayCell(GetNestedValue(ToJs(d), MetricAt(i).path), MetricAt(i)) != NotAvailable
  {
    MetricReaches(d, i);
  }

  /** Every metric path reaches its field in a full record. */
  lemma MetricReaches(d: DetailedValuation, i: nat)
    requires i < MetricCount
    ensures GetNestedValue(ToJs(d), MetricAt(i).path) == MetricValue(d, i)
  {
    var path := MetricAt(i).path;
    if i == 0 {
      CurrentValuePath(d, path);
    } else if i <= 3 {
      ProjectionPath(d, path, i);
    } else if i <= 7 {
      InfluencerPath(d, path, i);
    } else {
      assert path == "growthPotential" + "." + "opportunity";
      OpportunityPath(d, path);
    }
  }

  /** The opportunity score shows as, e.g., "7 / 10". */
  lemma OpportunityCell(d: DetailedValuation, m: Metric)
    requires m.path == "growthPotential" + "." + "opportunity" && !m.currency && m.suffix == " / 10"
    ensures DisplayCell(GetNestedValue(ToJs(d), m.path), m)
            == Suffixed(IntToString(d.growthPotential.opportunity) + " / 10")
  {
    OpportunityPath(d, m.path);
  }

  /** "Nothing to Compare": no list, or an empty one. */
  function ShowsNothingToCompare(domains: Option<seq<DetailedValuation>>): (b: bool)
    ensures b <==> domains.None? || Table(domains.value)[0] == []
  {
    domains.None? || |domains.value| == 0
  }

  /** The table body: one row per metric, one column per record in the order given. */
  function Table(domains: seq<DetailedValuation>): (rows: seq<seq<Cell>>)
    ensures |rows| == MetricCount
    ensures forall i :: 0 <= i < |rows| ==> |rows[i]| == |domains|
    ensures forall i, j :: 0 <= i < |rows| && 0 <= j < |domains| ==>
              rows[i][j] == DisplayCell(GetNestedValue(ToJs(domains[j]), MetricAt(i).path), MetricAt(i))
  {
    seq(MetricCount, i requires 0 <= i < MetricCount =>
      seq(|domains|, j requires 0 <= j < |domains| =>
        DisplayCell(GetNestedValue(ToJs(domains[j]), MetricAt(i).path), MetricAt(i))))
  }

  /** A table of full records has no "N/A" cell. */
  lemma TableHasNoGaps(domains: seq<DetailedValuation>)
    ensures forall i, j :: 0 <= i < MetricCount && 0 <= j < |domains| ==> Table(domains)[i][j] != NotAvailable
  {
    forall i, j | 0 <= i < MetricCount && 0 <= j < |domains| ensures Table(domains)[i][j] != NotAvailable {
      MetricResolves(domains[j], i);
    }
  }
}
