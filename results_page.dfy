/** The batch results screen (pages/ResultsPage.tsx): which domains are selected for
    saving, what "Save selected" hands to the portfolio, the per-domain availability check,
    and the registrar link. The selection toggle, the registrar link and the availability
    map recur verbatim on the portfolio, detail and market-trend pages, which use the
    definitions here. */
module ResultsPage {
  import opened Wrappers
  import opened Types
  import opened Text
  import opened Seqs
  import opened Storage
  import opened PortfolioContext
  import opened ToastContext

  // ---- Selection ---------------------------------------------------------------------

  function DomainNames(vals: seq<Valuation>): (r: seq<string>)
    ensures |r| == |vals|
    ensures forall k :: 0 <= k < |r| ==> r[k] == vals[k].domainName
  {
    seq(|vals|, k requires 0 <= k < |vals| => vals[k].domainName)
  }

  /** Every domain of the batch starts selected, in valuation order; no batch, no selection. */
  function InitialSelection(batch: Option<BatchValuationResult>): (r: seq<string>)
    ensures |r| == if batch.Some? then |batch.value.valuations| else 0
    ensures forall k :: 0 <= k < |r| ==> r[k] == batch.value.valuations[k].domainName
    ensures forall v :: batch.Some? && v in batch.value.valuations ==> v.domainName in r
  {
    match batch
    case None => []
    case Some(b) => DomainNames(b.valuations)
  }

  /** The "No Results" screen: no batch, or a batch without valuations; it is shown exactly
      when nothing starts selected. */
  function ShowsNoResults(batch: Option<BatchValuationResult>): (b: bool)
    ensures b <==> InitialSelection(batch) == []
  {
    batch.None? || |batch.value.valuations| == 0
  }

  /** Toggling a domain: drop every occurrence when it is selected, append it otherwise. */
  function Toggle(sel: seq<string>, d: string): (r: seq<string>)
    ensures d in r <==> d !in sel
    ensures forall x :: x != d ==> (x in r <==> x in sel)
  {
    if d in sel then Filter(sel, x => x != d) else sel + [d]
  }

  /** Toggling a domain that was not selected, and toggling it again, restores the selection. */
  lemma ToggleTwice(sel: seq<string>, d: string)
    requires d !in sel
    ensures Toggle(Toggle(sel, d), d) == sel
  {
    assert Toggle(sel, d) == sel + [d];
    FilterAppend(sel, [d], x => x != d);
    FilterAll(sel, x => x != d);
    assert Filter([d], x => x != d) == [];
  }

  /** Toggling keeps a selection free of repeats. */
  lemma ToggleDistinct(sel: seq<string>, d: string)
    requires Distinct(sel)
    ensures Distinct(Toggle(sel, d))
  {
    if d in sel {
      FilterDistinct(sel, x => x != d);
    }
  }

  /** "Select all": clear when the selection is as long as the domain list, otherwise
      select every domain in valuation order. */
  function SelectAll(sel: seq<string>, all: seq<string>): (r: seq<string>)
    ensures r == [] || r == all
    ensures r == [] <==> |sel| == |all| || all == []
  {
    if |sel| == |all| then [] else all
  }

  /** The length test means "everything is selected" as long as the selection was built by
      toggling batch domains, which keeps it free of repeats and inside the batch. */
  lemma SelectAllClearsIffAllSelected(sel: seq<string>, all: seq<string>)
    requires Distinct(sel) && Distinct(all)
    requires forall x :: x in sel ==> x in all
    ensures SelectAll(sel, all) == [] <==> (forall x :: x in all ==> x in sel)
  {
    assert Elements(sel) <= Elements(all);
    SameLengthSameElements(sel, all);
    if Elements(all) <= Elements(sel) {
      forall x | x in all ensures x in sel {
        assert x in Elements(all);
      }
    }
    if |all| != 0 {
      assert all[0] in all;
    }
  }

  /** What "Save selected" hands over: the selected valuations, in valuation order. */
  function SelectedValuations(vals: seq<Valuation>, sel: seq<string>): (r: seq<Valuation>)
    ensures forall v :: v in r <==> v in vals && v.domainName in sel
    ensures |r| <= |vals|
  {
    Filter(vals, (v: Valuation) => v.domainName in sel)
  }

  /** With the initial selection, saving hands over the whole batch. */
  lemma InitialSelectionSavesAll(vals: seq<Valuation>)
    ensures SelectedValuations(vals, DomainNames(vals)) == vals
  {
    var names := DomainNames(vals);
    forall v | v in vals ensures v.domainName in names {
      var k :| 0 <= k < |vals| && vals[k] == v;
      assert names[k] == v.domainName;
    }
    FilterAll(vals, (v: Valuation) => v.domainName in names);
  }

  /** The saved list keeps valuation order across any split of the batch. */
  lemma SelectedValuationsAppend(a: seq<Valuation>, b: seq<Valuation>, sel: seq<string>)
    ensures SelectedValuations(a + b, sel) == SelectedValuations(a, sel) + SelectedValuations(b, sel)
  {
    FilterAppend(a, b, (v: Valuation) => v.domainName in sel);
  }

  function SavedMessage(n: nat): string {
    IntToString(n) + " domain(s) saved to portfolio"
  }

  // ---- Registrar links ----------------------------------------------------------------

  datatype Registrar = GoDaddy | Namecheap | GoogleSearch

  /** Every registrar link is an `https` address. */
  const Https: string := "https://"
  const GoDaddyPrefix: string := Https + "www.godaddy.com/domainsearch/find?checkAvail=1&domainToCheck="
  const NamecheapPrefix: string := Https + "www.namecheap.com/domains/registration/results/?domain="
  const GooglePrefix: string := Https + "www.google.com/search?q=buy+domain+"

  /** The registrar name, lower-cased, with a missing one read as empty. */
  function RegistrarKey(registrar: Option<string>): string {
    ToLower(registrar.GetOr(""))
  }

  /** GoDaddy when the name mentions it, else Namecheap when it mentions that, else a search. */
  function ChooseRegistrar(registrar: Option<string>): (r: Registrar)
    ensures r == GoDaddy <==> Includes(RegistrarKey(registrar), "godaddy")
    ensures r == Namecheap <==> !Includes(RegistrarKey(registrar), "godaddy")
                                && Includes(RegistrarKey(registrar), "namecheap")
  {
    var key := RegistrarKey(registrar);
    if Includes(key, "godaddy") then GoDaddy
    else if Includes(key, "namecheap") then Namecheap
    else GoogleSearch
  }

  function SearchPrefix(r: Registrar): string {
    match r
    case GoDaddy => GoDaddyPrefix
    case Namecheap => NamecheapPrefix
    case GoogleSearch => GooglePrefix
  }

  /** `getRegistrarUrl`: the chosen registrar's search page with the domain appended. */
  function RegistrarUrl(registrar: Option<string>, domain: string): (r: string)
    ensures |r| >= |domain| + |Https| && r[..|Https|] == Https
    ensures r[|r| - |domain|..] == domain
  {
    var prefix := SearchPrefix(ChooseRegistrar(registrar));
    assert prefix[..|Https|] == Https;
    prefix + domain
  }

  lemma LowerCharIdempotent(ch: char)
    ensures LowerChar(LowerChar(ch)) == LowerChar(ch)
  {
  }

  /** The registrar name is matched without regard to (ASCII) case. */
  lemma ChooseIgnoresCase(name: string)
    ensures ChooseRegistrar(Some(name)) == ChooseRegistrar(Some(ToLower(name)))
  {
    forall i | 0 <= i < |name| ensures ToLower(ToLower(name))[i] == ToLower(name)[i] {
      LowerCharIdempotent(name[i]);
    }
    assert ToLower(ToLower(name)) == ToLower(name);
  }

  /** A missing registrar and an empty one both lead to the search page. */
  lemma MissingRegistrarSearches(domain: string)
    ensures RegistrarUrl(None, domain) == GooglePrefix + domain
    ensures RegistrarUrl(Some(""), domain) == GooglePrefix + domain
  {
    assert !Includes("", "godaddy") && !Includes("", "namecheap");
  }

  /** The link names the registrar it goes to and ends with the domain: two links for the
      same domain agree exactly when the same registrar was chosen. */
  lemma RegistrarUrlDeterminesChoice(r1: Option<string>, r2: Option<string>, domain: string)
    ensures RegistrarUrl(r1, domain)[|RegistrarUrl(r1, domain)| - |domain|..] == domain
    ensures RegistrarUrl(r1, domain) == RegistrarUrl(r2, domain) <==> ChooseRegistrar(r1) == ChooseRegistrar(r2)
  {
    assert |GoDaddyPrefix| == 69 && |NamecheapPrefix| == 63 && |GooglePrefix| == 43;
    var u1 := RegistrarUrl(r1, domain);
    var u2 := RegistrarUrl(r2, domain);
    if u1 == u2 {
      assert |SearchPrefix(ChooseRegistrar(r1))| == |SearchPrefix(ChooseRegistrar(r2))|;
    }
  }

  // ---- Availability checks ------------------------------------------------------------

  const AvailabilityError: string := "Could not check availability."

  datatype AvailabilityStatus = AvailabilityStatus(loading: bool, result: Option<DomainAvailability>, error: Option<string>)

  const Checking: AvailabilityStatus := AvailabilityStatus(true, None, None)

  /** The status a finished check leaves: the answer, or the fixed error. */
  function Settled(outcome: Result<DomainAvailability, string>): (s: AvailabilityStatus)
    ensures !s.loading
    ensures s.result.Some? != s.error.Some?
    ensures outcome.Success? ==> s.result == Some(outcome.value)
    ensures outcome.Failure? <==> s.error == Some(AvailabilityError)
  {
    match outcome
    case Success(a) => AvailabilityStatus(false, Some(a), None)
    case Failure(_) => AvailabilityStatus(false, None, Some(AvailabilityError))
  }

  /** Setting one domain's status leaves every other domain's entry as it was. */
  function SetStatus(m: map<string, AvailabilityStatus>, d: string, s: AvailabilityStatus): (r: map<string, AvailabilityStatus>)
    ensures d in r && r[d] == s
    ensures forall k :: k != d ==> (k in r <==> k in m) && (k in m ==> r[k] == m[k])
  {
    m[d := s]
  }

  /** A check that has run leaves the domain settled and the rest of the map untouched. */
  lemma CheckOnlyTouchesItsDomain(m: map<string, AvailabilityStatus>, d: string, outcome: Result<DomainAvailability, string>)
    ensures var r := SetStatus(SetStatus(m, d, Checking), d, Settled(outcome));
            r.Keys == m.Keys + {d} && !r[d].loading
            && forall k :: k in m && k != d ==> r[k] == m[k]
  {
  }

  // ---- The page ------------------------------------------------------------------------

  class ResultsView {
    const valuations: seq<Valuation>
    const fromHistory: bool
    var selected: seq<string>
    var availability: map<string, AvailabilityStatus>

    constructor (batch: Option<BatchValuationResult>, fromHistory: bool)
      ensures valuations == (if batch.Some? then batch.value.valuations else [])
      ensures this.fromHistory == fromHistory
      ensures selected == InitialSelection(batch) && availability == map[]
    {
      valuations := if batch.Some? then batch.value.valuations else [];
      this.fromHistory := fromHistory;
      selected := InitialSelection(batch);
      availability := map[];
    }

    /** `handleToggleSelection`: no effect when the batch is viewed from history. */
    method ToggleSelection(d: string)
      modifies this`selected
      ensures selected == if fromHistory then old(selected) else Toggle(old(selected), d)
    {
      if fromHistory {
        return;
      }
      selected := Toggle(selected, d);
    }

    /** `handleSelectAll`: no effect when the batch is viewed from history. */
    method SelectAllDomains()
      modifies this`selected
      ensures selected == if fromHistory then old(selected) else SelectAll(old(selected), DomainNames(valuations))
    {
      if fromHistory {
        return;
      }
      selected := SelectAll(selected, DomainNames(valuations));
    }

    /** `handleSaveSelected`: adds the selected valuations to the portfolio and announces how
        many, or does nothing when none is selected. */
    method SaveSelected(store: PortfolioStore, toasts: ToastQueue, now: int)
      requires toasts.Valid()
      modifies store, store.backing, toasts
      ensures toasts.Valid()
      ensures var s := SelectedValuations(valuations, selected);
              if |s| > 0 then
                store.items == AddAll(old(store.items), s, now)
                && store.backing.data == Written(store.backing.available, old(store.backing.data), PortfolioKey, store.codec.encode(store.items))
                && toasts.toasts == old(toasts.toasts) + [NewToast(SavedMessage(|s|), None, now)]
                && toasts.timers == old(toasts.timers) + [Timer(now, now + DismissAfterMs)]
              else
                store.items == old(store.items) && store.backing.data == old(store.backing.data)
                && toasts.toasts == old(toasts.toasts) && toasts.timers == old(toasts.timers)
    {
      var s := SelectedValuations(valuations, selected);
      if |s| > 0 {
        store.AddValuations(s, now);
        toasts.ShowToast(SavedMessage(|s|), None, now);
      }
    }

    /** The first step of `handleCheckAvailability`. */
    method BeginCheck(d: string)
      modifies this`availability
      ensures availability == SetStatus(old(availability), d, Checking)
    {
      availability := SetStatus(availability, d, Checking);
    }

    /** The second step of `handleCheckAvailability`, once the service has answered. */
    method EndCheck(d: string, outcome: Result<DomainAvailability, string>)
      modifies this`availability
      ensures availability == SetStatus(old(availability), d, Settled(outcome))
    {
      availability := SetStatus(availability, d, Settled(outcome));
    }
  }
}
