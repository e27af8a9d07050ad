/** The persisted portfolio (context/PortfolioContext.tsx): an ordered list of saved
    valuations keyed by domain name, loaded once from `localStorage` with a 24-hour expiry
    pass and written back whole after every change. */
module PortfolioContext {
  import opened Wrappers
  import opened Types
  import opened Storage
  import opened Seqs

  const PortfolioKey: string := "domainPortfolio"
  /** The retention window, 24 hours in milliseconds. */
  const DayMs: int := 24 * 60 * 60 * 1000

  /** A saved valuation. `savedAt` may be missing in stored JSON; `historicalData` is the
      chart series cached on first fetch. */
  datatype PortfolioItem = PortfolioItem(
    domainName: string,
    currentValue: int,
    futureProjections: Projections,
    coreInfluencers: Influencers,
    growthPotential: GrowthPotential,
    savedAt: Option<int>,
    historicalData: Option<seq<HistoricalDataPoint>>)

  /** `Partial<PortfolioItem>`: each field the patch carries. For the two optional fields,
      `Some(None)` is a key present with the value `undefined`. */
  datatype Patch = Patch(
    domainName: Option<string>,
    currentValue: Option<int>,
    futureProjections: Option<Projections>,
    coreInfluencers: Option<Influencers>,
    growthPotential: Option<GrowthPotential>,
    savedAt: Option<Option<int>>,
    historicalData: Option<Option<seq<HistoricalDataPoint>>>)

  /** The patch `{ historicalData: data }` used to cache a fetched chart series. */
  function HistoryPatch(data: Option<seq<HistoricalDataPoint>>): Patch {
    Patch(None, None, None, None, None, None, Some(data))
  }

  // ---- Keys and lookup ----------------------------------------------------------------

  function Names(items: seq<PortfolioItem>): (r: seq<string>)
    ensures |r| == |items|
    ensures forall i :: 0 <= i < |items| ==> r[i] == items[i].domainName
  {
    seq(|items|, i requires 0 <= i < |items| => items[i].domainName)
  }

  /** The invariant of the collection: no two items share a domain name. */
  ghost predicate Unique(items: seq<PortfolioItem>) {
    forall i, j :: 0 <= i < j < |items| ==> items[i].domainName != items[j].domainName
  }

  /** `findIndex(p => p.domainName === name)`. */
  function FindIndex(items: seq<PortfolioItem>, name: string): (i: int)
    ensures -1 <= i < |items|
    ensures i >= 0 ==> items[i].domainName == name
    ensures forall j :: 0 <= j < |items| && (i < 0 || j < i) ==> items[j].domainName != name
    ensures i < 0 <==> name !in Names(items)
  {
    if items == [] then -1
    else if items[0].domainName == name then 0
    else
      var k := FindIndex(items[1..], name);
      assert Names(items) == [items[0].domainName] + Names(items[1..]);
      if k < 0 then -1 else k + 1
  }

  /** `getValuation`: the first item with that domain name, if any. */
  function Find(items: seq<PortfolioItem>, name: string): (r: Option<PortfolioItem>)
    ensures r.Some? <==> name in Names(items)
    ensures r.Some? ==> r.value in items && r.value.domainName == name
    ensures r.Some? ==> exists i :: 0 <= i < |items| && items[i] == r.value
                          && forall j :: 0 <= j < i ==> items[j].domainName != name
  {
    var i := FindIndex(items, name);
    if i < 0 then None else Some(items[i])
  }

  // ---- Load ---------------------------------------------------------------------------

  /** The load filter: `savedAt` present, non-zero and no older than 24 hours. */
  predicate IsFresh(item: PortfolioItem, now: int) {
    item.savedAt.Some? && item.savedAt.value != 0 && item.savedAt.value >= now - DayMs
  }

  function KeepFresh(items: seq<PortfolioItem>, now: int): (r: seq<PortfolioItem>)
    ensures forall x :: x in r <==> x in items && IsFresh(x, now)
  {
    Filter(items, (x: PortfolioItem) => IsFresh(x, now))
  }

  /** The initial list: whatever is stored, parsed and filtered; never an error. */
  function LoadPortfolio(read: Result<Option<string>, string>, codec: Codec<PortfolioItem>, now: int): (r: seq<PortfolioItem>)
    ensures read.Failure? || read.value.None? ==> r == []
    ensures forall x :: x in r ==> IsFresh(x, now)
  {
    KeepFresh(ReadCollection(read, codec), now)
  }

  /** The load filter keeps a list free of repeated names. */
  lemma KeepFreshUnique(items: seq<PortfolioItem>, now: int)
    requires Unique(items)
    ensures Unique(KeepFresh(items, now))
  {
    FilterKeysDistinct(items, (x: PortfolioItem) => IsFresh(x, now), (x: PortfolioItem) => x.domainName);
  }

  /** The 24-hour boundary is inclusive: an item saved exactly 24 hours ago survives, one
      saved a millisecond earlier does not. */
  lemma ExpiryBoundary(item: PortfolioItem, now: int)
    requires item.savedAt.Some? && item.savedAt.value != 0
    ensures item.savedAt.value == now - DayMs ==> IsFresh(item, now)
    ensures item.savedAt.value == now - DayMs - 1 ==> !IsFresh(item, now)
    ensures item.savedAt.value == now - DayMs + 1 ==> IsFresh(item, now)
  {
  }

  /** Loading keeps the stored order: the survivors of a concatenation are the survivors of
      each part, one after the other. */
  lemma LoadKeepsOrder(xs: seq<PortfolioItem>, ys: seq<PortfolioItem>, now: int)
    ensures KeepFresh(xs + ys, now) == KeepFresh(xs, now) + KeepFresh(ys, now)
  {
    FilterAppend(xs, ys, (x: PortfolioItem) => IsFresh(x, now));
  }

  /** Writing a list and loading it again before anything expires gives the same list. */
  lemma ReloadRoundTrip(items: seq<PortfolioItem>, codec: Codec<PortfolioItem>, now: int)
    requires Faithful(codec)
    requires forall x :: x in items ==> IsFresh(x, now)
    ensures LoadPortfolio(Success(Some(codec.encode(items))), codec, now) == items
  {
    ReadWritten(codec, items);
    FilterAll(items, (x: PortfolioItem) => IsFresh(x, now));
  }

  // ---- addValuations --------------------------------------------------------------------

  /** The placeholder record saved for a batch valuation: only the value is known, and it
      survives a reload within the day. */
  function NewItem(v: Valuation, now: int): (r: PortfolioItem)
    ensures r.domainName == v.domainName && r.currentValue == v.estimatedValue
    ensures r.futureProjections == Projections(0, 0, 0) && r.historicalData.None?
    ensures now != 0 ==> IsFresh(r, now) && IsFresh(r, now + DayMs) && !IsFresh(r, now + DayMs + 1)
  {
    PortfolioItem(v.domainName, v.estimatedValue, Projections(0, 0, 0),
                  Influencers("", "", "", ""), GrowthPotential(0), Some(now), None)
  }

  /** The list `addValuations` produces: the steps applied in input order. */
  function AddAll(prev: seq<PortfolioItem>, vals: seq<Valuation>, now: int): (r: seq<PortfolioItem>)
    ensures |prev| <= |r| && r[..|prev|] == prev
    ensures forall k :: |prev| <= k < |r| ==> r[k].domainName !in Names(prev)
    ensures forall k :: |prev| <= k < |r| ==> exists v :: v in vals && r[k] == NewItem(v, now)
  {
    if vals == [] then prev
    else
      var q := AddAll(prev, vals[..|vals| - 1], now);
      var v := vals[|vals| - 1];
      assert forall w :: w in vals[..|vals| - 1] ==> w in vals;
      if v.domainName in Names(q) then q
      else
        var r := q + [NewItem(v, now)];
        assert r[..|prev|] == q[..|prev|];
        assert forall k :: |prev| <= k < |q| ==> r[k] == q[k];
        r
  }

  /** `addValuations` as written: copy the list, then push inside a loop. */
  method AddValuationsTo(prev: seq<PortfolioItem>, vals: seq<Valuation>, now: int) returns (next: seq<PortfolioItem>)
    ensures next == AddAll(prev, vals, now)
  {
    next := prev;
    var i := 0;
    while i < |vals|
      invariant 0 <= i <= |vals|
      invariant next == AddAll(prev, vals[..i], now)
    {
      assert vals[..i + 1][..i] == vals[..i];
      var v := vals[i];
      if !(v.domainName in Names(next)) {
        next := next + [NewItem(v, now)];
      }
      i := i + 1;
    }
    assert vals[..|vals|] == vals;
  }

  /** A name is in the result iff it was in the list or came with the input. */
  lemma {:induction false} AddAllNames(prev: seq<PortfolioItem>, vals: seq<Valuation>, now: int, name: string)
    ensures name in Names(AddAll(prev, vals, now))
            <==> name in Names(prev) || exists v :: v in vals && v.domainName == name
  {
    if vals != [] {
      var init := vals[..|vals| - 1];
      var v := vals[|vals| - 1];
      var q := AddAll(prev, init, now);
      AddAllNames(prev, init, now, name);
      assert vals == init + [v];
      assert Names(q + [NewItem(v, now)]) == Names(q) + [v.domainName];
      if exists w :: w in vals && w.domainName == name {
        var w :| w in vals && w.domainName == name;
        if w != v {
          assert w in init;
        }
      }
    }
  }

  /** `addValuations` keeps domain names unique. */
  lemma {:induction false} AddAllUnique(prev: seq<PortfolioItem>, vals: seq<Valuation>, now: int)
    requires Unique(prev)
    ensures Unique(AddAll(prev, vals, now))
  {
    if vals != [] {
      var init := vals[..|vals| - 1];
      var v := vals[|vals| - 1];
      var q := AddAll(prev, init, now);
      AddAllUnique(prev, init, now);
      if v.domainName !in Names(q) {
        var r := q + [NewItem(v, now)];
        forall i, j | 0 <= i < j < |r|
          ensures r[i].domainName != r[j].domainName
        {
          if j == |q| {
            assert Names(q)[i] == q[i].domainName;
          }
        }
      }
    }
  }

  /** Adding valuations whose names are all present already changes nothing. */
  lemma {:induction false} AddAllPresent(items: seq<PortfolioItem>, vals: seq<Valuation>, now: int)
    requires forall v :: v in vals ==> v.domainName in Names(items)
    ensures AddAll(items, vals, now) == items
  {
    if vals != [] {
      var init := vals[..|vals| - 1];
      assert forall w :: w in init ==> w in vals;
      AddAllPresent(items, init, now);
      assert vals[|vals| - 1] in vals;
    }
  }

  /** Repeating the same `addValuations` call is a no-op. */
  lemma AddAllIdempotent(prev: seq<PortfolioItem>, vals: seq<Valuation>, now: int, later: int)
    ensures AddAll(AddAll(prev, vals, now), vals, later) == AddAll(prev, vals, now)
  {
    var r := AddAll(prev, vals, now);
    forall v | v in vals
      ensures v.domainName in Names(r)
    {
      AddAllNames(prev, vals, now, v.domainName);
    }
    AddAllPresent(r, vals, later);
  }

  /** Within one call the first valuation for a name wins: a later duplicate is skipped. */
  lemma FirstDuplicateWins(prev: seq<PortfolioItem>, a: Valuation, b: Valuation, now: int)
    requires a.domainName == b.domainName && a.domainName !in Names(prev)
    ensures AddAll(prev, [a, b], now) == prev + [NewItem(a, now)]
  {
    assert [a, b][..1] == [a];
    assert [a][..0] == [];
    var q := prev + [NewItem(a, now)];
    assert AddAll(prev, [a], now) == q;
    assert Names(q)[|prev|] == b.domainName;
  }

  /** The saved-then-resaved scenario: a second save of the same domain at a different value
      keeps the first value. */
  lemma DuplicateSaveKeepsFirstValue(name: string, now: int, later: int)
    ensures AddAll(AddAll([], [Valuation(name, 5000, "")], now), [Valuation(name, 7000, "")], later)
            == [NewItem(Valuation(name, 5000, ""), now)]
  {
    var first := AddAll([], [Valuation(name, 5000, "")], now);
    assert [Valuation(name, 5000, "")][..0] == [];
    assert [Valuation(name, 7000, "")][..0] == [];
    assert Names(first)[0] == name;
  }

  // ---- addDetailedValuation -----------------------------------------------------------------

  /** A full record stamped with `now`, carrying the given cached series. */
  function FromDetailed(d: DetailedValuation, now: int, history: Option<seq<HistoricalDataPoint>>): PortfolioItem {
    PortfolioItem(d.domainName, d.currentValue, d.futureProjections, d.coreInfluencers,
                  d.growthPotential, Some(now), history)
  }

  /** The list `addDetailedValuation` produces: replace the first item with that name,
      keeping its cached series, or else append. */
  function Upsert(prev: seq<PortfolioItem>, d: DetailedValuation, now: int): (r: seq<PortfolioItem>)
    ensures |prev| <= |r| <= |prev| + 1
    ensures d.domainName in Names(r)
    ensures forall k :: 0 <= k < |prev| && prev[k].domainName != d.domainName ==> r[k] == prev[k]
  {
    var i := FindIndex(prev, d.domainName);
    var r := if i >= 0 then prev[i := FromDetailed(d, now, prev[i].historicalData)]
             else prev + [FromDetailed(d, now, None)];
    assert Names(r)[if i >= 0 then i else |prev|] == d.domainName;
    r
  }

  /** After an upsert the domain reads back as the new record with the old cached series
      (none for a new domain), and every other domain reads back as before. */
  lemma UpsertThenFind(prev: seq<PortfolioItem>, d: DetailedValuation, now: int, name: string)
    ensures var old_ := Find(prev, d.domainName);
            var h := if old_.Some? then old_.value.historicalData else None;
            Find(Upsert(prev, d, now), name)
            == if name == d.domainName then Some(FromDetailed(d, now, h)) else Find(prev, name)
  {
    var r := Upsert(prev, d, now);
    var i := FindIndex(prev, d.domainName);
    if i >= 0 {
      assert forall j :: 0 <= j < |r| && j != i ==> r[j] == prev[j];
      var k := FindIndex(r, name);
      var k0 := FindIndex(prev, name);
      if name == d.domainName {
        assert Names(r)[i] == name;
        assert k == i;
      } else {
        assert k == k0;
      }
    } else {
      var k := FindIndex(r, name);
      var k0 := FindIndex(prev, name);
      assert forall j :: 0 <= j < |prev| ==> r[j] == prev[j];
      if name == d.domainName {
        assert r[|prev|].domainName == name;
        assert k == |prev|;
      } else {
        assert r[|prev|].domainName != name;
        assert k == k0;
      }
    }
  }

  /** An upsert keeps the length for a present domain and adds exactly one item otherwise. */
  lemma UpsertLength(prev: seq<PortfolioItem>, d: DetailedValuation, now: int)
    ensures |Upsert(prev, d, now)| == if d.domainName in Names(prev) then |prev| else |prev| + 1
  {
  }

  /** Re-appraising a domain whose chart series is cached keeps that series. */
  lemma UpsertKeepsHistory(prev: seq<PortfolioItem>, d: DetailedValuation, now: int, data: seq<HistoricalDataPoint>)
    requires Find(prev, d.domainName).Some? && Find(prev, d.domainName).value.historicalData == Some(data)
    ensures Find(Upsert(prev, d, now), d.domainName) == Some(FromDetailed(d, now, Some(data)))
  {
    UpsertThenFind(prev, d, now, d.domainName);
  }

  /** An upsert keeps domain names unique. */
  lemma UpsertUnique(prev: seq<PortfolioItem>, d: DetailedValuation, now: int)
    requires Unique(prev)
    ensures Unique(Upsert(prev, d, now))
  {
    var r := Upsert(prev, d, now);
    var i := FindIndex(prev, d.domainName);
    forall a, b | 0 <= a < b < |r|
      ensures r[a].domainName != r[b].domainName
    {
      if i < 0 && b == |prev| {
        assert Names(prev)[a] == prev[a].domainName;
      }
    }
  }

  /** Re-appraising a domain already in the portfolio keeps the names and their order. */
  lemma UpsertKeepsNames(prev: seq<PortfolioItem>, d: DetailedValuation, now: int)
    requires d.domainName in Names(prev)
    ensures Names(Upsert(prev, d, now)) == Names(prev)
  {
    var r := Upsert(prev, d, now);
    var i := FindIndex(prev, d.domainName);
    assert forall j :: 0 <= j < |r| ==> Names(r)[j] == Names(prev)[j];
  }

  // ---- updateValuation ------------------------------------------------------------------

  /** `{ ...item, ...patch }`: an empty patch gives the item back, and a patch that does not
      rename keeps the name. */
  function Merge(item: PortfolioItem, p: Patch): (r: PortfolioItem)
    ensures p == Patch(None, None, None, None, None, None, None) ==> r == item
    ensures KeepsName(p, item.domainName) ==> r.domainName == item.domainName
  {
    PortfolioItem(
      p.domainName.GetOr(item.domainName),
      p.currentValue.GetOr(item.currentValue),
      p.futureProjections.GetOr(item.futureProjections),
      p.coreInfluencers.GetOr(item.coreInfluencers),
      p.growthPotential.GetOr(item.growthPotential),
      p.savedAt.GetOr(item.savedAt),
      p.historicalData.GetOr(item.historicalData))
  }

  /** The list `updateValuation` produces: every item with that name merged with the patch. */
  function UpdateAll(items: seq<PortfolioItem>, name: string, p: Patch): (r: seq<PortfolioItem>)
    ensures |r| == |items|
  {
    seq(|items|, i requires 0 <= i < |items| =>
      if items[i].domainName == name then Merge(items[i], p) else items[i])
  }

  /** A patch that does not rename the item. */
  predicate KeepsName(p: Patch, name: string) {
    p.domainName.None? || p.domainName == Some(name)
  }

  /** Updating with a name that is not in the list changes nothing. */
  lemma UpdateAbsent(items: seq<PortfolioItem>, name: string, p: Patch)
    requires name !in Names(items)
    ensures UpdateAll(items, name, p) == items
  {
    var r := UpdateAll(items, name, p);
    forall i | 0 <= i < |items| ensures r[i] == items[i] {
      assert Names(items)[i] == items[i].domainName;
    }
  }

  /** Items with other names are untouched; items with the name now carry every patched field. */
  lemma UpdateEffect(items: seq<PortfolioItem>, name: string, p: Patch, i: int)
    requires 0 <= i < |items|
    ensures items[i].domainName != name ==> UpdateAll(items, name, p)[i] == items[i]
    ensures items[i].domainName == name ==>
              var u := UpdateAll(items, name, p)[i];
              && (p.domainName.Some? ==> u.domainName == p.domainName.value)
              && (p.domainName.None? ==> u.domainName == items[i].domainName)
              && (p.currentValue.Some? ==> u.currentValue == p.currentValue.value)
              && (p.currentValue.None? ==> u.currentValue == items[i].currentValue)
              && (p.futureProjections.Some? ==> u.futureProjections == p.futureProjections.value)
              && (p.futureProjections.None? ==> u.futureProjections == items[i].futureProjections)
              && (p.coreInfluencers.Some? ==> u.coreInfluencers == p.coreInfluencers.value)
              && (p.coreInfluencers.None? ==> u.coreInfluencers == items[i].coreInfluencers)
              && (p.growthPotential.Some? ==> u.growthPotential == p.growthPotential.value)
              && (p.growthPotential.None? ==> u.growthPotential == items[i].growthPotential)
              && (p.savedAt.Some? ==> u.savedAt == p.savedAt.value)
              && (p.savedAt.None? ==> u.savedAt == items[i].savedAt)
              && (p.historicalData.Some? ==> u.historicalData == p.historicalData.value)
              && (p.historicalData.None? ==> u.historicalData == items[i].historicalData)
  {
  }

  /** Updating twice with the same patch is updating once, when the patch keeps the name. */
  lemma UpdateIdempotent(items: seq<PortfolioItem>, name: string, p: Patch)
    requires KeepsName(p, name)
    ensures UpdateAll(UpdateAll(items, name, p), name, p) == UpdateAll(items, name, p)
  {
  }

  /** A patch that keeps the name keeps the names, hence their uniqueness. */
  lemma UpdateKeepsNames(items: seq<PortfolioItem>, name: string, p: Patch)
    requires KeepsName(p, name)
    ensures Names(UpdateAll(items, name, p)) == Names(items)
    ensures Unique(items) ==> Unique(UpdateAll(items, name, p))
  {
    assert Names(UpdateAll(items, name, p)) == Names(items);
  }

  /** Caching a chart series: afterwards the domain reads back with that series. */
  lemma CacheHistoryThenFind(items: seq<PortfolioItem>, name: string, data: Option<seq<HistoricalDataPoint>>)
    requires name in Names(items)
    ensures Find(UpdateAll(items, name, HistoryPatch(data)), name)
            == Some(Find(items, name).value.(historicalData := data))
  {
    UpdateKeepsNames(items, name, HistoryPatch(data));
    var r := UpdateAll(items, name, HistoryPatch(data));
    var i := FindIndex(items, name);
    assert FindIndex(r, name) == i;
  }

  // ---- removeValuation ------------------------------------------------------------------

  /** The list `removeValuation` produces: every item with that name dropped. */
  function RemoveAll(items: seq<PortfolioItem>, name: string): (r: seq<PortfolioItem>)
    ensures forall x :: x in r <==> x in items && x.domainName != name
  {
    Filter(items, (x: PortfolioItem) => x.domainName != name)
  }

  /** After removal the name is gone and `getValuation` finds nothing. */
  lemma RemoveThenFind(items: seq<PortfolioItem>, name: string)
    ensures name !in Names(RemoveAll(items, name))
    ensures Find(RemoveAll(items, name), name) == None
  {
  }

  /** Removal keeps the list free of repeated names. */
  lemma RemoveUnique(items: seq<PortfolioItem>, name: string)
    requires Unique(items)
    ensures Unique(RemoveAll(items, name))
  {
    FilterKeysDistinct(items, (x: PortfolioItem) => x.domainName != name, (x: PortfolioItem) => x.domainName);
  }

  /** Removing a name that is not in the list changes nothing; removing twice is removing once. */
  lemma RemoveAbsentAndTwice(items: seq<PortfolioItem>, name: string)
    ensures name !in Names(items) ==> RemoveAll(items, name) == items
    ensures RemoveAll(RemoveAll(items, name), name) == RemoveAll(items, name)
  {
    if name !in Names(items) {
      forall x | x in items ensures x.domainName != name {
        var i :| 0 <= i < |items| && items[i] == x;
        assert Names(items)[i] == x.domainName;
      }
      FilterAll(items, (x: PortfolioItem) => x.domainName != name);
    }
    FilterIdempotent(items, (x: PortfolioItem) => x.domainName != name);
  }

  /** Removal keeps the other items in their order. */
  lemma RemoveKeepsOrder(xs: seq<PortfolioItem>, ys: seq<PortfolioItem>, name: string)
    ensures RemoveAll(xs + ys, name) == RemoveAll(xs, name) + RemoveAll(ys, name)
  {
    FilterAppend(xs, ys, (x: PortfolioItem) => x.domainName != name);
  }

  // ---- The store ------------------------------------------------------------------------------

  /** The provider's state cell, written to `localStorage` after each change. */
  class PortfolioStore {
    var items: seq<PortfolioItem>
    const backing: LocalStorage
    const codec: Codec<PortfolioItem>

    /** What is stored under `domainPortfolio` is the current list (unless storage is unusable). */
    ghost predicate Persisted()
      reads this, backing
    {
      backing.available ==> PortfolioKey in backing.data && backing.data[PortfolioKey] == codec.encode(items)
    }

    /** Mount: load once with the expiry pass, then write the filtered list back. */
    constructor Load(backing: LocalStorage, codec: Codec<PortfolioItem>, now: int)
      modifies backing
      ensures this.backing == backing && this.codec == codec
      ensures items == LoadPortfolio(old(backing.GetItem(PortfolioKey)), codec, now)
      ensures backing.data == Written(backing.available, old(backing.data), PortfolioKey, codec.encode(items))
      ensures Persisted()
    {
      this.backing := backing;
      this.codec := codec;
      items := LoadPortfolio(backing.GetItem(PortfolioKey), codec, now);
      new;
      backing.SetItem(PortfolioKey, codec.encode(items));
    }

    method Save()
      modifies backing
      ensures backing.data == Written(backing.available, old(backing.data), PortfolioKey, codec.encode(items))
      ensures Persisted()
    {
      backing.SetItem(PortfolioKey, codec.encode(items));
    }

    function GetValuation(name: string): Option<PortfolioItem>
      reads this
    {
      Find(items, name)
    }

    method AddValuations(vals: seq<Valuation>, now: int)
      modifies this, backing
      ensures items == AddAll(old(items), vals, now)
      ensures backing.data == Written(backing.available, old(backing.data), PortfolioKey, codec.encode(items))
      ensures Persisted()
    {
      items := AddValuationsTo(items, vals, now);
      Save();
    }

    method AddDetailedValuation(d: DetailedValuation, now: int)
      modifies this, backing
      ensures items == Upsert(old(items), d, now)
      ensures backing.data == Written(backing.available, old(backing.data), PortfolioKey, codec.encode(items))
      ensures Persisted()
    {
      var index := FindIndex(items, d.domainName);
      if index > -1 {
        var existingHistory := items[index].historicalData;
        items := items[index := FromDetailed(d, now, existingHistory)];
      } else {
        items := items + [FromDetailed(d, now, None)];
      }
      Save();
    }

    method UpdateValuation(name: string, p: Patch)
      modifies this, backing
      ensures items == UpdateAll(old(items), name, p)
      ensures backing.data == Written(backing.available, old(backing.data), PortfolioKey, codec.encode(items))
      ensures Persisted()
    {
      items := UpdateAll(items, name, p);
      Save();
    }

    method RemoveValuation(name: string)
      modifies this, backing
      ensures items == RemoveAll(old(items), name)
      ensures backing.data == Written(backing.available, old(backing.data), PortfolioKey, codec.encode(items))
      ensures Persisted()
    {
      items := RemoveAll(items, name);
      Save();
    }
  }
}
